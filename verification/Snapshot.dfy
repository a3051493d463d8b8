/**
 The bounded JSON snapshot: serialising an object graph, cycles included, within limits on bytes, nodes and
 depth. Functions say what is emitted from a budget; the serialiser, which updates its budget and its set of
 ancestors in place, is proved to compute them.
 */
module Snapshot {
  import opened JsonSyntax
  import opened JsonQuoting
  import opened Utf8

  const MAX_BYTES := 1 * 1024 * 1024
  const MAX_DEPTH := 32
  const MAX_NODES := 32768

  type Ref = nat
  type Numeral = v: Value | v.Number? && ValueOk(v) witness Number(false, [ZERO], [], NoExponent)

  /** A value of the runtime; `Finite` holds what the runtime prints for the number. */
  datatype Js =
    | Undefined | Callable | Symbol
    | Nil | Bool(yes: bool) | Finite(numeral: Numeral) | Nonfinite | BigInt | Str(units: Text) | Object(ref: Ref)

  datatype Slot = Hole | Accessor | Data(value: Js)
  datatype Property = Property(name: Text, own: bool, enumerable: bool, slot: Slot)

  /** Arrays, and objects whose prototype is `Object.prototype` or null. */
  datatype Node = ArrayNode(slots: seq<Slot>) | PlainNode(properties: seq<Property>)

  /** An object that the heap does not list is of another kind. */
  type Heap = map<Ref, Node>

  datatype Why = Limit | Cycle | Unsupported
  datatype Budget = Budget(bytes: nat, nodes: nat, text: Text)
  datatype Outcome = Done(budget: Budget, emitted: bool) | Failed(why: Why)

  predicate Omitted(v: Js) { v == Undefined || v == Callable || v == Symbol }

  function SlotValue(s: Slot): Js { if s.Data? then s.value else Undefined }

  predicate Skipped(p: Property) { !p.own || !p.enumerable || Omitted(SlotValue(p.slot)) }

  function Append(b: Budget, part: Text): Outcome {
    if b.bytes + |Encode(part)| > MAX_BYTES then Failed(Limit)
    else Done(Budget(b.bytes + |Encode(part)|, b.nodes, b.text + part), true)
  }

  function AppendString(b: Budget, s: Text): Outcome {
    if |s| > MAX_BYTES then Failed(Limit) else Append(b, StringText(Quote(s)))
  }

  function Enter(b: Budget, depth: nat): Outcome {
    if b.nodes + 1 > MAX_NODES || depth > MAX_DEPTH then Failed(Limit)
    else Done(b.(nodes := b.nodes + 1), true)
  }

  lemma FewerLeft(h: Heap, path: set<Ref>, r: Ref)
    requires r in h && r !in path
    ensures |h.Keys - (path + {r})| < |h.Keys - path|
  {
    assert h.Keys - (path + {r}) == (h.Keys - path) - {r};
  }

  function Emit(h: Heap, v: Js, depth: nat, path: set<Ref>, inArray: bool, b: Budget): Outcome
    decreases |h.Keys - path|, 0
  {
    if Omitted(v) && !inArray then Done(b, false)
    else
      match Enter(b, depth)
      case Failed(r) => Failed(r)
      case Done(entered, _) =>
        match v
        case Undefined | Callable | Symbol | Nil | Nonfinite => Append(entered, Null.Spelling())
        case Bool(yes) => Append(entered, (if yes then True else False).Spelling())
        case Finite(n) => Append(entered, ValueText(n))
        case Str(s) => AppendString(entered, s)
        case BigInt => Failed(Unsupported)
        case Object(r) =>
          if r in path then Failed(Cycle)
          else if r !in h then Failed(Unsupported)
          else
            FewerLeft(h, path, r);
            EmitNode(h, h[r], depth, path + {r}, entered)
  }

  function EmitNode(h: Heap, n: Node, depth: nat, path: set<Ref>, b: Budget): Outcome
    decreases |h.Keys - path|, 2, 0
  {
    match n
    case ArrayNode(slots) =>
      if |slots| > MAX_NODES then Failed(Limit)
      else (match Append(b, [LBRACKET])
        case Failed(r) => Failed(r)
        case Done(b1, _) => EmitSlots(h, slots, true, depth, path, b1))
    case PlainNode(properties) =>
      match Append(b, [LBRACE])
      case Failed(r) => Failed(r)
      case Done(b1, _) => EmitProperties(h, properties, true, depth, path, b1)
  }

  function Separate(b: Budget, first: bool): Outcome {
    if first then Done(b, true) else Append(b, [COMMA])
  }

  /** From an element of an array to its closing bracket. */
  function EmitSlots(h: Heap, slots: seq<Slot>, first: bool, depth: nat, path: set<Ref>, b: Budget): Outcome
    decreases |h.Keys - path|, 1, |slots|
  {
    if slots == [] then Append(b, [RBRACKET])
    else
      match Separate(b, first)
      case Failed(r) => Failed(r)
      case Done(b1, _) =>
        match Emit(h, SlotValue(slots[0]), depth + 1, path, true, b1)
        case Failed(r) => Failed(r)
        case Done(b2, _) => EmitSlots(h, slots[1..], false, depth, path, b2)
  }

  /** From a property of an object to its closing brace. */
  function EmitProperties(h: Heap, properties: seq<Property>, first: bool, depth: nat, path: set<Ref>,
      b: Budget): Outcome
    decreases |h.Keys - path|, 1, |properties|
  {
    if properties == [] then Append(b, [RBRACE])
    else if Skipped(properties[0]) then EmitProperties(h, properties[1..], first, depth, path, b)
    else
      match EmitProperty(h, properties[0], first, depth, path, b)
      case Failed(r) => Failed(r)
      case Done(b1, _) => EmitProperties(h, properties[1..], false, depth, path, b1)
  }

  function EmitProperty(h: Heap, p: Property, first: bool, depth: nat, path: set<Ref>, b: Budget): Outcome
    decreases |h.Keys - path|, 1, 0
  {
    match Separate(b, first)
    case Failed(r) => Failed(r)
    case Done(b1, _) =>
      match AppendString(b1, p.name)
      case Failed(r) => Failed(r)
      case Done(b2, _) =>
        match Append(b2, [COLON])
        case Failed(r) => Failed(r)
        case Done(b3, _) => Emit(h, SlotValue(p.slot), depth + 1, path, false, b3)
  }

  // --------------------------------------------------------- the serialiser

  datatype Thrown = Nothing | Thrown(why: Why)

  /** What a step leaves behind: the new budget, or the exception. */
  predicate Leaves(o: Outcome, thrown: Thrown, emitted: bool, budget: Budget) {
    match o
    case Done(b, e) => thrown == Nothing && emitted == e && budget == b
    case Failed(r) => thrown == Thrown(r)
  }

  function Joined(parts: seq<Text>): Text {
    if parts == [] then [] else Joined(parts[..|parts| - 1]) + parts[|parts| - 1]
  }

  class Serialiser {
    const heap: Heap
    var bytes: nat
    var nodes: nat
    var parts: seq<Text>
    var ancestors: set<Ref>

    constructor (heap: Heap)
      ensures this.heap == heap && Contents() == Budget(0, 0, []) && ancestors == {}
    {
      this.heap := heap;
      bytes := 0;
      nodes := 0;
      parts := [];
      ancestors := {};
    }

    ghost function Contents(): Budget
      reads `bytes, `nodes, `parts
    {
      Budget(bytes, nodes, Joined(parts))
    }

    method AppendPart(part: Text) returns (thrown: Thrown)
      modifies this
      ensures ancestors == old(ancestors)
      ensures Leaves(Append(old(Contents()), part), thrown, true, Contents())
    {
      var size := |Encode(part)|;
      if bytes + size > MAX_BYTES { return Thrown(Limit); }
      bytes := bytes + size;
      parts := parts + [part];
      return Nothing;
    }

    method AppendJsonString(s: Text) returns (thrown: Thrown)
      modifies this
      ensures ancestors == old(ancestors)
      ensures Leaves(AppendString(old(Contents()), s), thrown, true, Contents())
    {
      if |s| > MAX_BYTES { return Thrown(Limit); }
      thrown := AppendPart(StringText(Quote(s)));
    }

    method EnterNode(depth: nat) returns (thrown: Thrown)
      modifies this
      ensures ancestors == old(ancestors)
      ensures Leaves(Enter(old(Contents()), depth), thrown, true, Contents())
    {
      nodes := nodes + 1;
      if nodes > MAX_NODES || depth > MAX_DEPTH { return Thrown(Limit); }
      return Nothing;
    }

    /** However it ends, the ancestors are as they were. */
    method AppendValue(v: Js, depth: nat, inArray: bool) returns (thrown: Thrown, emitted: bool)
      modifies this
      ensures ancestors == old(ancestors)
      ensures Leaves(Emit(heap, v, depth, old(ancestors), inArray, old(Contents())), thrown, emitted, Contents())
      decreases |heap.Keys - ancestors|, 0, 0
    {
      hide Append, AppendString, Enter, EmitNode, Contents, Joined, ValueText;
      emitted := !Omitted(v) || inArray;
      if !emitted { return Nothing, false; }
      thrown := EnterNode(depth);
      if thrown != Nothing { return; }
      match v
      case Undefined | Callable | Symbol | Nil | Nonfinite => thrown := AppendPart(Null.Spelling());
      case Bool(yes) => thrown := AppendPart((if yes then True else False).Spelling());
      case Finite(n) => thrown := AppendPart(ValueText(n));
      case Str(s) => thrown := AppendJsonString(s);
      case BigInt => thrown := Thrown(Unsupported);
      case Object(r) =>
        if r in ancestors { return Thrown(Cycle), true; }
        if r !in heap { return Thrown(Unsupported), true; }
        FewerLeft(heap, ancestors, r);
        ancestors := ancestors + {r};
        thrown := AppendNode(heap[r], depth);
        ancestors := ancestors - {r};
    }

    method AppendNode(n: Node, depth: nat) returns (thrown: Thrown)
      modifies this
      ensures ancestors == old(ancestors)
      ensures Leaves(EmitNode(heap, n, depth, old(ancestors), old(Contents())), thrown, true, Contents())
      decreases |heap.Keys - ancestors|, 1, 1
    {
      hide Append, EmitSlots, EmitProperties;
      match n
      case ArrayNode(slots) =>
        if |slots| > MAX_NODES { return Thrown(Limit); }
        thrown := AppendPart([LBRACKET]);
        if thrown != Nothing { return; }
        thrown := AppendSlots(slots, depth);
      case PlainNode(properties) =>
        thrown := AppendPart([LBRACE]);
        if thrown != Nothing { return; }
        thrown := AppendProperties(properties, depth);
    }

    method AppendSlots(slots: seq<Slot>, depth: nat) returns (thrown: Thrown)
      modifies this
      ensures ancestors == old(ancestors)
      ensures Leaves(EmitSlots(heap, slots, true, depth, old(ancestors), old(Contents())), thrown, true, Contents())
      decreases |heap.Keys - ancestors|, 1, 0
    {
      hide Append, Emit;
      assert slots[0..] == slots;
      for index := 0 to |slots|
        invariant ancestors == old(ancestors)
        invariant EmitSlots(heap, slots[index..], index == 0, depth, ancestors, Contents())
               == EmitSlots(heap, slots, true, depth, ancestors, old(Contents()))
      {
        assert slots[index..][1..] == slots[index + 1..];
        if index > 0 {
          thrown := AppendPart([COMMA]);
          if thrown != Nothing { return; }
        }
        var emitted: bool;
        thrown, emitted := AppendValue(SlotValue(slots[index]), depth + 1, true);
        if thrown != Nothing { return; }
      }
      thrown := AppendPart([RBRACKET]);
    }

    method AppendProperties(properties: seq<Property>, depth: nat) returns (thrown: Thrown)
      modifies this
      ensures ancestors == old(ancestors)
      ensures Leaves(EmitProperties(heap, properties, true, depth, old(ancestors), old(Contents())), thrown, true,
                Contents())
      decreases |heap.Keys - ancestors|, 1, 0
    {
      hide Append, AppendString, Emit;
      var count := 0;
      assert properties[0..] == properties;
      for index := 0 to |properties|
        invariant ancestors == old(ancestors)
        invariant EmitProperties(heap, properties[index..], count == 0, depth, ancestors, Contents())
               == EmitProperties(heap, properties, true, depth, ancestors, old(Contents()))
      {
        var p := properties[index];
        assert properties[index..][1..] == properties[index + 1..];
        if Skipped(p) { continue; }
        if count > 0 {
          thrown := AppendPart([COMMA]);
          if thrown != Nothing { return; }
        }
        thrown := AppendJsonString(p.name);
        if thrown != Nothing { return; }
        thrown := AppendPart([COLON]);
        if thrown != Nothing { return; }
        var emitted: bool;
        thrown, emitted := AppendValue(SlotValue(p.slot), depth + 1, false);
        if thrown != Nothing { return; }
        count := count + 1;
      }
      thrown := AppendPart([RBRACE]);
    }
  }

  datatype Result = Captured(bytes: seq<Byte>) | Unavailable(why: Why)

  /** The snapshot of a value, from an empty budget. */
  function SnapshotOf(h: Heap, v: Js): Result {
    match Emit(h, v, 0, {}, false, Budget(0, 0, []))
    case Failed(r) => Unavailable(r)
    case Done(b, emitted) =>
      if !emitted then Unavailable(Unsupported)
      else if |Encode(b.text)| > MAX_BYTES then Unavailable(Limit)
      else Captured(Encode(b.text))
  }
}
