/**
 What a snapshot should be, without limits: the tree that an object graph unfolds to. The bounded serialiser
 captures a value exactly when there is such a tree and it is within the limits, and then what it captures is
 the text of the tree.
 */
module SnapshotReference {
  import opened JsonSyntax
  import opened JsonQuoting
  import opened Utf8
  import opened Snapshot
  import JsonScanner
  import JsonRecogniser

  /** What cannot be written at all: an object inside itself, and a value of a kind that JSON does not have. */
  datatype Trouble = NoTrouble | Cyclic | Foreign {
    function Reason(): Why
      requires this != NoTrouble
    {
      if Cyclic? then Cycle else Unsupported
    }
  }

  /** The first of two troubles on the way through a value. */
  function Earlier(a: Trouble, b: Trouble): Trouble { if a == NoTrouble then b else a }

  /** A tree in which what cannot be written is null, and the first trouble that was met. */
  datatype Unfolding<T> = Unfolding(tree: T, trouble: Trouble)

  function Tree<T>(tree: T): Unfolding<T> { Unfolding(tree, NoTrouble) }

  function Bare(v: Value): Item { Item([], v, []) }

  /** What cannot be written as JSON is written null where something must be. */
  function Unfold(h: Heap, v: Js, path: set<Ref>): Unfolding<Value>
    decreases |h.Keys - path|, 0, 0
  {
    match v
    case Undefined | Callable | Symbol | Nil | Nonfinite => Tree(Literal(Null))
    case Bool(yes) => Tree(Literal(if yes then True else False))
    case Finite(n) => Tree(n)
    case Str(s) => Tree(String(Quote(s)))
    case BigInt => Unfolding(Literal(Null), Foreign)
    case Object(r) =>
      if r in path then Unfolding(Literal(Null), Cyclic)
      else if r !in h then Unfolding(Literal(Null), Foreign)
      else
        FewerLeft(h, path, r);
        UnfoldNode(h, h[r], path + {r})
  }

  function UnfoldNode(h: Heap, n: Node, path: set<Ref>): Unfolding<Value>
    decreases |h.Keys - path|, 2, 0
  {
    match n
    case ArrayNode(slots) =>
      if slots == [] then Tree(EmptyArray([]))
      else var u := UnfoldSlots(h, slots, path); Unfolding(Array(u.tree), u.trouble)
    case PlainNode(properties) =>
      var kept := Kept(properties);
      if kept == [] then Tree(EmptyObject([]))
      else var u := UnfoldProperties(h, kept, path); Unfolding(Value.Object(u.tree), u.trouble)
  }

  function UnfoldSlots(h: Heap, slots: seq<Slot>, path: set<Ref>): Unfolding<Items>
    requires slots != []
    decreases |h.Keys - path|, 1, |slots|
  {
    var u := Unfold(h, ValueIn(slots[0]), path);
    if |slots| == 1 then Unfolding(LastItem(Bare(u.tree)), u.trouble)
    else
      var rest := UnfoldSlots(h, slots[1..], path);
      Unfolding(MoreItems(Bare(u.tree), rest.tree), Earlier(u.trouble, rest.trouble))
  }

  /** What is read at a place of an array: a hole and an accessor read as null. */
  function ValueIn(s: Slot): Js { if s.Data? then s.value else Nil }

  /** An own, enumerable data property whose value is not left out. */
  predicate Written(p: Property) {
    && p.own && p.enumerable && p.slot.Data?
    && match p.slot.value
       case Undefined | Callable | Symbol => false
       case _ => true
  }

  /** The properties that are written. */
  function Kept(properties: seq<Property>): (kept: seq<Property>)
    ensures |kept| <= |properties|
  {
    if properties == [] then []
    else if !Written(properties[0]) then Kept(properties[1..])
    else [properties[0]] + Kept(properties[1..])
  }

  function Named(name: Text, v: Value): Member { Member([], Quote(name), [], Bare(v)) }

  function UnfoldProperties(h: Heap, kept: seq<Property>, path: set<Ref>): Unfolding<Members>
    requires kept != []
    decreases |h.Keys - path|, 1, |kept|
  {
    var u := Unfold(h, ValueIn(kept[0].slot), path);
    if |kept| == 1 then Unfolding(LastMember(Named(kept[0].name, u.tree)), u.trouble)
    else
      var rest := UnfoldProperties(h, kept[1..], path);
      Unfolding(MoreMembers(Named(kept[0].name, u.tree), rest.tree), Earlier(u.trouble, rest.trouble))
  }

  // ------------------------------------------------------------------ sizes

  function Max(a: nat, b: nat): nat { if a >= b then a else b }

  function Nodes(v: Value): nat {
    match v
    case Array(items) => 1 + ItemsNodes(items)
    case Object(members) => 1 + MembersNodes(members)
    case _ => 1
  }

  function ItemsNodes(items: Items): nat {
    Nodes(items.item.value) + (if items.LastItem? then 0 else ItemsNodes(items.items))
  }

  function MembersNodes(members: Members): nat {
    Nodes(members.member.item.value) + (if members.LastMember? then 0 else MembersNodes(members.members))
  }

  /** How many arrays and objects are around the deepest value. */
  function Height(v: Value): nat {
    match v
    case Array(items) => ItemsHeight(items)
    case Object(members) => MembersHeight(members)
    case _ => 0
  }

  function ItemsHeight(items: Items): nat {
    Max(1 + Height(items.item.value), if items.LastItem? then 0 else ItemsHeight(items.items))
  }

  function MembersHeight(members: Members): nat {
    Max(1 + Height(members.member.item.value), if members.LastMember? then 0 else MembersHeight(members.members))
  }

  /** Whether a tree is within the limits of a snapshot. */
  predicate Fits(v: Value) {
    Nodes(v) <= MAX_NODES && Height(v) <= MAX_DEPTH && |Encode(ValueText(v))| <= MAX_BYTES
  }

  // ---------------------------------------------------- one piece of output

  predicate Room(b: Budget, depth: nat, nodes: nat, height: nat, text: Text) {
    b.nodes + nodes <= MAX_NODES && depth + height <= MAX_DEPTH && b.bytes + |Encode(text)| <= MAX_BYTES
  }

  function Plus(b: Budget, nodes: nat, text: Text): Budget {
    Budget(b.bytes + |Encode(text)|, b.nodes + nodes, b.text + text)
  }

  /** A step emits exactly this text with these costs, or runs into a limit because there is no room for it. If it meets
      trouble it fails for that reason, or because of the limit, but that only if there is no room for the text. */
  predicate Emits(o: Outcome, b: Budget, depth: nat, nodes: nat, height: nat, text: Text, trouble: Trouble) {
    if trouble == NoTrouble
    then o == if Room(b, depth, nodes, height, text) then Done(Plus(b, nodes, text), true) else Failed(Limit)
    else o == Failed(trouble.Reason()) || (o == Failed(Limit) && !Room(b, depth, nodes, height, text))
  }

  /** What a budget has got to is within the limits. */
  predicate Sane(b: Budget) { b.nodes <= MAX_NODES && b.bytes <= MAX_BYTES }

  lemma Sequence(b: Budget, depth: nat, n1: nat, h1: nat, t1: Text, n2: nat, h2: nat, t2: Text)
    requires Closed(t1)
    ensures Room(b, depth, n1 + n2, Max(h1, h2), t1 + t2)
            <==> Room(b, depth, n1, h1, t1) && Room(Plus(b, n1, t1), depth, n2, h2, t2)
    ensures Plus(Plus(b, n1, t1), n2, t2) == Plus(b, n1 + n2, t1 + t2)
  {
    hide Encode, Closed;
    EncodeJoins(t1, t2);
    assert b.text + t1 + t2 == b.text + (t1 + t2);
  }

  function Next(o1: Outcome, o2: Outcome): Outcome { if o1.Failed? then o1 else o2 }

  /** One step after another emits both texts. */
  lemma Chain(o1: Outcome, o2: Outcome, b: Budget, depth: nat, n1: nat, h1: nat, t1: Text, trouble1: Trouble,
      n2: nat, h2: nat, t2: Text, trouble2: Trouble)
    requires Closed(t1) && Emits(o1, b, depth, n1, h1, t1, trouble1)
    requires o1.Done? ==> Emits(o2, o1.budget, depth, n2, h2, t2, trouble2)
    ensures Emits(Next(o1, o2), b, depth, n1 + n2, Max(h1, h2), t1 + t2, Earlier(trouble1, trouble2))
    ensures o1.Done? ==> Sane(o1.budget) && depth <= MAX_DEPTH
  {
    Sequence(b, depth, n1, h1, t1, n2, h2, t2);
  }

  lemma AppendEmits(b: Budget, depth: nat, part: Text)
    requires Sane(b) && depth <= MAX_DEPTH
    ensures Emits(Append(b, part), b, depth, 0, 0, part, NoTrouble)
  {
  }

  /** The early rejection of long strings rejects only what has no room. */
  lemma AppendStringEmits(b: Budget, depth: nat, s: Text)
    requires Sane(b) && depth <= MAX_DEPTH
    ensures Emits(AppendString(b, s), b, depth, 0, 0, StringText(Quote(s)), NoTrouble)
  {
    hide Quote, CharsText;
    QuoteText(s);
    EncodeIsNoShorter(StringText(Quote(s)));
  }

  function Comma(first: bool): Text { if first then [] else [COMMA] }

  lemma SeparateEmits(b: Budget, depth: nat, first: bool)
    requires Sane(b) && depth <= MAX_DEPTH
    ensures Emits(Separate(b, first), b, depth, 0, 0, Comma(first), NoTrouble)
  {
    assert b.text + [] == b.text;
  }

  lemma EnterEmits(b: Budget, depth: nat)
    requires Sane(b)
    ensures Emits(Enter(b, depth), b, depth, 1, 0, [], NoTrouble)
    ensures Enter(b, depth).Done? ==> Sane(Enter(b, depth).budget) && depth <= MAX_DEPTH && Enter(b, depth).emitted
  {
    assert b.text + [] == b.text;
  }

  // ------------------------------------------------------- trees are proper

  lemma NumeralCloses(v: Numeral)
    ensures Closed(ValueText(v))
  {
    hide FractionText;
    var t := ValueText(v);
    if v.exponent.Exponent? {
      assert t[|t| - 1] == v.exponent.digits[|v.exponent.digits| - 1];
    } else {
      FractionCloses(v.whole, v.fraction);
      assert t[|t| - 1] == (v.whole + FractionText(v.fraction))[|v.whole + FractionText(v.fraction)| - 1];
    }
  }

  lemma FractionCloses(whole: Text, fraction: Text)
    requires WholeOk(whole) && AllDigits(fraction)
    ensures Closed(whole + FractionText(fraction))
  {
    if fraction != [] { assert (whole + FractionText(fraction))[|whole| + |fraction|] == fraction[|fraction| - 1]; }
  }

  lemma {:induction false} ItemsTextCloses(items: Items)
    ensures |ItemsText(items)| > 0 && Closed(ItemsText(items))
  {
    hide ItemText;
    if items.MoreItems? { ItemsTextCloses(items.items); }
  }

  lemma {:induction false} MembersTextCloses(members: Members)
    ensures |MembersText(members)| > 0 && Closed(MembersText(members))
  {
    hide MemberText;
    if members.MoreMembers? { MembersTextCloses(members.members); }
  }

  lemma ValueTextCloses(v: Value)
    requires ValueOk(v)
    ensures Closed(ValueText(v))
  {
    hide NumberText, CharsText, ItemsText, MembersText;
    match v
    case Number(_, _, _, _) => NumeralCloses(v);
    case Array(items) => ItemsTextCloses(items);
    case Object(members) => MembersTextCloses(members);
    case _ =>
  }

  /** What an object graph unfolds to is a proper syntax tree. */
  lemma {:induction false} UnfoldIsOk(h: Heap, v: Js, path: set<Ref>)
    ensures ValueOk(Unfold(h, v, path).tree) && WellFormed(ValueText(Unfold(h, v, path).tree))
    decreases |h.Keys - path|, 0, 0
  {
    hide UnfoldNode, ValueOk, ValueText, WellFormed;
    if v.Object? && v.ref !in path && v.ref in h {
      FewerLeft(h, path, v.ref);
      UnfoldNodeIsOk(h, h[v.ref], path + {v.ref});
    } else {
      AtomIsOk(h, v, path);
    }
  }

  lemma AtomIsOk(h: Heap, v: Js, path: set<Ref>)
    requires v.Object? ==> v.ref in path || v.ref !in h
    ensures ValueOk(Unfold(h, v, path).tree) && WellFormed(ValueText(Unfold(h, v, path).tree))
  {
    hide Quote, NumberText, StringText, CharsOk, AllDigits, WholeOk, ExponentOk, WellFormed;
    if v.Str? { QuotedIsOk(v.units); }
    else if v.Finite? { NumeralIsAscii(v.numeral); AsciiIsWellFormed(ValueText(v.numeral)); }
    else { AsciiIsWellFormed(ValueText(Unfold(h, v, path).tree)); }
  }

  predicate Ascii(t: Text) { forall i :: 0 <= i < |t| ==> t[i] < 0x80 }

  lemma AsciiIsWellFormed(t: Text)
    requires Ascii(t)
    ensures WellFormed(t) && Closed(t)
  {
    PlainIsWellFormed(t);
  }

  lemma NumeralIsAscii(v: Numeral)
    ensures Ascii(ValueText(v))
  {
    assert Ascii(SignText(v.minus)) && Ascii(v.whole);
    assert Ascii(FractionText(v.fraction));
    assert Ascii(ExponentText(v.exponent));
    hide FractionText, ExponentText, SignText;
  }

  lemma QuotedIsOk(s: Text)
    ensures CharsOk(Quote(s)) && WellFormed(StringText(Quote(s))) && Closed(StringText(Quote(s)))
  {
    hide Quote, CharsText, CharsOk, WellFormed, CharsMeaning, Closed;
    QuoteMeans(s);
    QuoteText(s);
    AsciiIsWellFormed([QUOTE]);
    WellFormedJoins(CharsText(Quote(s)), [QUOTE]);
    WellFormedJoins([QUOTE], CharsText(Quote(s)) + [QUOTE]);
    StringTextCloses(s);
  }

  lemma {:induction false} UnfoldNodeIsOk(h: Heap, n: Node, path: set<Ref>)
    ensures ValueOk(UnfoldNode(h, n, path).tree) && WellFormed(ValueText(UnfoldNode(h, n, path).tree))
    decreases |h.Keys - path|, 2, 0
  {
    hide UnfoldSlots, UnfoldProperties, Kept, ItemsOk, MembersOk, ItemsText, MembersText, WellFormed, Closed;
    AsciiIsWellFormed([LBRACKET]);
    AsciiIsWellFormed([LBRACE]);
    match n
    case ArrayNode(slots) =>
      if slots == [] {
        AsciiIsWellFormed([LBRACKET] + ([] + [RBRACKET]));
      } else {
        UnfoldSlotsIsOk(h, slots, path);
        WellFormedJoins([LBRACKET], ItemsText(UnfoldSlots(h, slots, path).tree));
      }
    case PlainNode(properties) =>
      var kept := Kept(properties);
      if kept == [] {
        AsciiIsWellFormed([LBRACE] + ([] + [RBRACE]));
      } else {
        UnfoldPropertiesIsOk(h, kept, path);
        WellFormedJoins([LBRACE], MembersText(UnfoldProperties(h, kept, path).tree));
      }
  }

  lemma ValueThenPunctuation(v: Value, u: Unit, rest: Text)
    requires ValueOk(v) && WellFormed(ValueText(v)) && WellFormed(rest) && u < 0x80
    ensures WellFormed(ValueText(v) + ([u] + rest))
  {
    hide ValueOk, ValueText, WellFormed, Closed;
    ValueTextCloses(v);
    AsciiIsWellFormed([u]);
    WellFormedJoins([u], rest);
    WellFormedJoins(ValueText(v), [u] + rest);
  }

  lemma {:induction false} UnfoldSlotsIsOk(h: Heap, slots: seq<Slot>, path: set<Ref>)
    requires slots != []
    ensures ItemsOk(UnfoldSlots(h, slots, path).tree) && WellFormed(ItemsText(UnfoldSlots(h, slots, path).tree))
    decreases |h.Keys - path|, 1, |slots|
  {
    hide Unfold, ValueOk, WellFormed, Closed, ValueText, ItemText;
    UnfoldIsOk(h, ValueIn(slots[0]), path);
    var v := Unfold(h, ValueIn(slots[0]), path).tree;
    BareText(v);
    if |slots| == 1 {
      AsciiIsWellFormed([]);
      ValueThenPunctuation(v, RBRACKET, []);
      assert [RBRACKET] + [] == [RBRACKET];
    } else {
      UnfoldSlotsIsOk(h, slots[1..], path);
      ValueThenPunctuation(v, COMMA, ItemsText(UnfoldSlots(h, slots[1..], path).tree));
    }
  }

  lemma NamedIsOk(name: Text, v: Value)
    requires ValueOk(v)
    ensures MemberOk(Named(name, v))
  {
    hide ValueOk, Quote, CharsOk;
    QuoteMeans(name);
  }

  lemma NamedThenPunctuation(name: Text, v: Value, u: Unit, rest: Text)
    requires ValueOk(v) && WellFormed(ValueText(v)) && WellFormed(rest) && u < 0x80
    ensures WellFormed(MemberText(Named(name, v)) + ([u] + rest))
  {
    hide ValueOk, ValueText, WellFormed, Closed, MemberText, StringText, Quote, CharsOk;
    ValueThenPunctuation(v, u, rest);
    QuotedIsOk(name);
    NamedText(name, v);
    var tail := ValueText(v) + ([u] + rest);
    AsciiIsWellFormed([COLON]);
    WellFormedJoins([COLON], tail);
    WellFormedJoins(StringText(Quote(name)), [COLON] + tail);
    JsonRecogniser.Regroup([COLON], ValueText(v), [u] + rest);
    JsonRecogniser.Regroup(StringText(Quote(name)), [COLON] + ValueText(v), [u] + rest);
  }

  lemma {:induction false} UnfoldPropertiesIsOk(h: Heap, kept: seq<Property>, path: set<Ref>)
    requires kept != []
    ensures MembersOk(UnfoldProperties(h, kept, path).tree) &&
              WellFormed(MembersText(UnfoldProperties(h, kept, path).tree))
    decreases |h.Keys - path|, 1, |kept|
  {
    hide Unfold, ValueOk, Named, MemberOk, WellFormed, Closed, ValueText, MemberText;
    UnfoldIsOk(h, ValueIn(kept[0].slot), path);
    var v := Unfold(h, ValueIn(kept[0].slot), path).tree;
    NamedIsOk(kept[0].name, v);
    if |kept| == 1 {
      AsciiIsWellFormed([]);
      NamedThenPunctuation(kept[0].name, v, RBRACE, []);
      assert [RBRACE] + [] == [RBRACE];
    } else {
      UnfoldPropertiesIsOk(h, kept[1..], path);
      NamedThenPunctuation(kept[0].name, v, COMMA, MembersText(UnfoldProperties(h, kept[1..], path).tree));
    }
  }

  // --------------------------------------------------- emission and its tree

  predicate EmitsValue(o: Outcome, b: Budget, depth: nat, u: Unfolding<Value>) {
    Emits(o, b, depth, Nodes(u.tree), Height(u.tree), ValueText(u.tree), u.trouble)
  }

  predicate EmitsItems(o: Outcome, b: Budget, depth: nat, first: bool, u: Unfolding<Items>) {
    Emits(o, b, depth, ItemsNodes(u.tree), ItemsHeight(u.tree), Comma(first) + ItemsText(u.tree), u.trouble)
  }

  predicate EmitsMembers(o: Outcome, b: Budget, depth: nat, first: bool, u: Unfolding<Members>) {
    Emits(o, b, depth, MembersNodes(u.tree), MembersHeight(u.tree), Comma(first) + MembersText(u.tree), u.trouble)
  }

  lemma {:induction false} EmitMatches(h: Heap, v: Js, depth: nat, path: set<Ref>, inArray: bool, b: Budget)
    requires Sane(b) && (Omitted(v) ==> inArray)
    ensures EmitsValue(Emit(h, v, depth, path, inArray, b), b, depth, Unfold(h, v, path))
    decreases |h.Keys - path|, 0, 1
  {
    hide Enter, Emit, Unfold, EmitsValue, Sane;
    match Enter(b, depth)
    case Failed(_) => NothingEntered(h, v, depth, path, inArray, b);
    case Done(entered, _) =>
      EnterEmits(b, depth);
      if Atom(v) { AtomMatches(h, v, depth, path, inArray, b, entered); }
      else { ObjectOrBigIntMatches(h, v, depth, path, inArray, b, entered); }
  }

  lemma NothingEntered(h: Heap, v: Js, depth: nat, path: set<Ref>, inArray: bool, b: Budget)
    requires Sane(b) && (Omitted(v) ==> inArray) && Enter(b, depth).Failed?
    ensures EmitsValue(Emit(h, v, depth, path, inArray, b), b, depth, Unfold(h, v, path))
  {
    hide ValueText, Encode, Unfold;
  }

  lemma TroubleEmits(b: Budget, depth: nat, u: Unfolding<Value>)
    requires u.trouble != NoTrouble
    ensures EmitsValue(Failed(u.trouble.Reason()), b, depth, u)
  {
    hide Encode;
  }

  lemma {:induction false} ObjectOrBigIntMatches( h: Heap, v: Js, depth: nat, path: set<Ref>, inArray: bool, b: Budget,
      entered: Budget)
    requires Sane(b) && !Atom(v) && Enter(b, depth) == Done(entered, true)
    ensures EmitsValue(Emit(h, v, depth, path, inArray, b), b, depth, Unfold(h, v, path))
    decreases |h.Keys - path|, 0, 0
  {
    hide Enter, Emits, EmitNode, UnfoldNode, Sane, ValueText, Nodes, Height;
    if v.Object? && v.ref !in path && v.ref in h {
      FewerLeft(h, path, v.ref);
      EmitNodeMatches(h, h[v.ref], depth, path + {v.ref}, b, entered);
    } else {
      TroubleEmits(b, depth, Unfold(h, v, path));
    }
  }

  predicate Atom(v: Js) { !v.BigInt? && !v.Object? }

  lemma AtomMatches(h: Heap, v: Js, depth: nat, path: set<Ref>, inArray: bool, b: Budget, entered: Budget)
    requires Sane(b) && (Omitted(v) ==> inArray) && Atom(v) && Enter(b, depth) == Done(entered, true)
    ensures EmitsValue(Emit(h, v, depth, path, inArray, b), b, depth, Unfold(h, v, path))
  {
    hide Append, AppendString, Enter, Emits, Quote, Sane, StringText, NumberText, Encode;
    EnterEmits(b, depth);
    var text := ValueText(Unfold(h, v, path).tree);
    var o2 := if v.Str? then AppendString(entered, v.units) else Append(entered, text);
    if v.Str? { AppendStringEmits(entered, depth, v.units); } else { AppendEmits(entered, depth, text); }
    Chain(Enter(b, depth), o2, b, depth, 1, 0, [], NoTrouble, 0, 0, text, NoTrouble);
    assert [] + text == text;
  }

  /** A node that was entered, its opening bracket, and the rest up to the closing one. */
  lemma OpenedEmits(b: Budget, depth: nat, entered: Budget, open: Unit, rest: Outcome, nodes: nat, height: nat,
      text: Text, trouble: Trouble)
    requires Sane(b) && Enter(b, depth) == Done(entered, true) && !IsHigh(open)
    requires var o := Append(entered, [open]); o.Done? ==> Emits(rest, o.budget, depth, nodes, height, text, trouble)
    ensures Emits(Next(Append(entered, [open]), rest), b, depth, 1 + nodes, height, [open] + text, trouble)
  {
    hide Append, Enter, Emits, Sane, Encode;
    var o := Append(entered, [open]);
    EnterEmits(b, depth);
    AppendEmits(entered, depth, [open]);
    Chain(o, rest, entered, depth, 0, 0, [open], NoTrouble, nodes, height, text, trouble);
    Chain(Enter(b, depth), Next(o, rest), b, depth, 1, 0, [], NoTrouble, nodes, height, [open] + text, trouble);
    assert [] + ([open] + text) == [open] + text;
  }

  /** After an opening bracket there is room to go on. */
  lemma OpenedIsSane(b: Budget, depth: nat, entered: Budget, open: Unit)
    requires Sane(b) && Enter(b, depth) == Done(entered, true)
    ensures depth <= MAX_DEPTH && var o := Append(entered, [open]); o.Done? ==> Sane(o.budget) && o.emitted
  {
  }

  lemma {:induction false} ManyItemsManyNodes(h: Heap, slots: seq<Slot>, path: set<Ref>)
    requires slots != []
    ensures ItemsNodes(UnfoldSlots(h, slots, path).tree) >= |slots|
    decreases |slots|
  {
    hide Unfold;
    if |slots| > 1 { ManyItemsManyNodes(h, slots[1..], path); }
  }

  /** The content of an array or a plain object, which has been entered. */
  lemma {:induction false} EmitNodeMatches(h: Heap, n: Node, depth: nat, path: set<Ref>, b: Budget, entered: Budget)
    requires Sane(b) && Enter(b, depth) == Done(entered, true)
    ensures EmitsValue(EmitNode(h, n, depth, path, entered), b, depth, UnfoldNode(h, n, path))
    decreases |h.Keys - path|, 2, 0
  {
    hide Append, Enter, EmitNode, UnfoldNode, Sane, EmitsValue;
    match n
    case ArrayNode(slots) =>
      if slots == [] { EmptyArrayMatches(h, n, depth, path, b, entered); }
      else { ArrayMatches(h, n, depth, path, b, entered); }
    case PlainNode(properties) =>
      ObjectMatches(h, n, depth, path, b, entered);
  }

  lemma EmptyArrayMatches(h: Heap, n: Node, depth: nat, path: set<Ref>, b: Budget, entered: Budget)
    requires Sane(b) && Enter(b, depth) == Done(entered, true) && n == ArrayNode([])
    ensures EmitsValue(EmitNode(h, n, depth, path, entered), b, depth, UnfoldNode(h, n, path))
  {
    hide Append, Enter, Emits, Sane;
    var o := Append(entered, [LBRACKET]);
    OpenedIsSane(b, depth, entered, LBRACKET);
    if o.Done? { AppendEmits(o.budget, depth, [RBRACKET]); }
    OpenedEmits(b, depth, entered, LBRACKET, if o.Done? then Append(o.budget, [RBRACKET]) else o, 0, 0, [RBRACKET],
        NoTrouble);
    assert [] + [RBRACKET] == [RBRACKET];
  }

  lemma {:induction false} ArrayMatches(h: Heap, n: Node, depth: nat, path: set<Ref>, b: Budget, entered: Budget)
    requires Sane(b) && Enter(b, depth) == Done(entered, true) && n.ArrayNode? && n.slots != []
    ensures EmitsValue(EmitNode(h, n, depth, path, entered), b, depth, UnfoldNode(h, n, path))
    decreases |h.Keys - path|, 1, |n.slots| + 1
  {
    hide Append, Enter, Emits, EmitSlots, UnfoldSlots, ItemsText, Sane;
    var slots := n.slots;
    var u := UnfoldSlots(h, slots, path);
    if |slots| > MAX_NODES {
      ManyItemsManyNodes(h, slots, path);
      TooManyNodes(b, depth, 1 + ItemsNodes(u.tree), ItemsHeight(u.tree), [LBRACKET] + ItemsText(u.tree), u.trouble);
    } else {
      var o := Append(entered, [LBRACKET]);
      OpenedIsSane(b, depth, entered, LBRACKET);
      if o.Done? { SlotsMatch(h, slots, true, depth, path, o.budget); }
      assert Comma(true) + ItemsText(u.tree) == ItemsText(u.tree);
      var rest := if o.Done? then EmitSlots(h, slots, true, depth, path, o.budget) else o;
      OpenedEmits(b, depth, entered, LBRACKET, rest, ItemsNodes(u.tree), ItemsHeight(u.tree), ItemsText(u.tree),
          u.trouble);
    }
  }

  lemma TooManyNodes(b: Budget, depth: nat, nodes: nat, height: nat, text: Text, trouble: Trouble)
    requires nodes > MAX_NODES
    ensures Emits(Failed(Limit), b, depth, nodes, height, text, trouble)
  {
    hide Encode;
  }

  /** A separator and a value in an array, and then the rest of the array. */
  lemma StepEmits(b: Budget, depth: nat, first: bool, child: Outcome, rest: Outcome, n1: nat, h1: nat, t1: Text,
      trouble1: Trouble, n2: nat, h2: nat, t2: Text, trouble2: Trouble)
    requires Sane(b) && depth <= MAX_DEPTH && Closed(t1)
    requires var o := Separate(b, first); o.Done? ==> Emits(child, o.budget, depth + 1, n1, h1, t1, trouble1)
    requires Separate(b, first).Done? && child.Done? ==> Emits(rest, child.budget, depth, n2, h2, t2, trouble2)
    ensures Emits(Next(Separate(b, first), Next(child, rest)), b, depth, n1 + n2, Max(1 + h1, h2),
              Comma(first) + (t1 + t2), Earlier(trouble1, trouble2))
  {
    hide Separate, Encode, Sane;
    var o := Separate(b, first);
    SeparateEmits(b, depth, first);
    if o.Done? {
      Chain(child, rest, o.budget, depth, n1, 1 + h1, t1, trouble1, n2, h2, t2, trouble2);
    }
    Chain(o, Next(child, rest), b, depth, 0, 0, Comma(first), NoTrouble, n1 + n2, Max(1 + h1, h2), t1 + t2,
        Earlier(trouble1, trouble2));
  }

  lemma SeparatedIsSane(b: Budget, first: bool)
    requires Sane(b)
    ensures var o := Separate(b, first); if o.Done? then Sane(o.budget) else o == Failed(Limit)
  {
  }

  lemma EmittedIsSane(o: Outcome, b: Budget, depth: nat, u: Unfolding<Value>)
    requires EmitsValue(o, b, depth, u) && o.Done?
    ensures Sane(o.budget)
  {
    hide Encode;
  }

  /** The text from after an element of an array on. */
  function AfterItem(items: Items): Text {
    if items.LastItem? then [RBRACKET] else [COMMA] + ItemsText(items.items)
  }

  lemma BareText(v: Value)
    ensures ItemText(Bare(v)) == ValueText(v)
  {
  }

  lemma {:induction false} SlotsMatch(h: Heap, slots: seq<Slot>, first: bool, depth: nat, path: set<Ref>, b: Budget)
    requires slots != [] && Sane(b) && depth <= MAX_DEPTH
    ensures EmitsItems(EmitSlots(h, slots, first, depth, path, b), b, depth, first, UnfoldSlots(h, slots, path))
    decreases |h.Keys - path|, 1, |slots|
  {
    hide Append, Separate, Emit, Emits, Unfold, Sane, EmitsValue, ItemText, ValueText, Nodes, Height;
    var o := Separate(b, first);
    SeparatedIsSane(b, first);
    var u := Unfold(h, ValueIn(slots[0]), path);
    var child, rest := o, o;
    if o.Done? {
      child := Emit(h, SlotValue(slots[0]), depth + 1, path, true, o.budget);
      SlotEmitsAlike(h, slots[0], depth + 1, path, o.budget);
      EmitMatches(h, ValueIn(slots[0]), depth + 1, path, true, o.budget);
      if child.Done? {
        EmittedIsSane(child, o.budget, depth + 1, u);
        rest := EmitSlots(h, slots[1..], false, depth, path, child.budget);
        if |slots| > 1 { SlotsMatch(h, slots[1..], false, depth, path, child.budget); }
        else { AppendEmits(child.budget, depth, [RBRACKET]); }
      }
    }
    SlotsJoin(h, slots, first, depth, path, b, child, rest);
  }

  /** In an array, what cannot be read is written as null is. */
  lemma SlotEmitsAlike(h: Heap, s: Slot, depth: nat, path: set<Ref>, b: Budget)
    ensures Emit(h, SlotValue(s), depth, path, true, b) == Emit(h, ValueIn(s), depth, path, true, b)
  {
  }

  /** The first element of an array is right, and so is what follows it. */
  predicate StepIsRight(h: Heap, slots: seq<Slot>, depth: nat, path: set<Ref>, o: Outcome, child: Outcome,
      rest: Outcome)
    requires slots != []
  {
    o.Done? ==>
      && child == Emit(h, SlotValue(slots[0]), depth + 1, path, true, o.budget)
      && EmitsValue(child, o.budget, depth + 1, Unfold(h, ValueIn(slots[0]), path))
      && (child.Done? ==>
            && rest == EmitSlots(h, slots[1..], false, depth, path, child.budget)
            && if |slots| > 1 then EmitsItems(rest, child.budget, depth, false, UnfoldSlots(h, slots[1..], path))
               else Emits(rest, child.budget, depth, 0, 0, [RBRACKET], NoTrouble))
  }

  lemma ItemsSplit(items: Items)
    requires items.item == Bare(items.item.value)
    ensures var v := items.item.value; var last := items.LastItem?;
            && ItemsText(items) == ValueText(v) + AfterItem(items)
            && ItemsNodes(items) == Nodes(v) + (if last then 0 else ItemsNodes(items.items))
            && ItemsHeight(items) == Max(1 + Height(v), if last then 0 else ItemsHeight(items.items))
  {
    hide ItemText, ValueText, Nodes, Height;
    BareText(items.item.value);
  }

  lemma SlotsJoin(h: Heap, slots: seq<Slot>, first: bool, depth: nat, path: set<Ref>, b: Budget, child: Outcome,
      rest: Outcome)
    requires slots != [] && Sane(b) && depth <= MAX_DEPTH
    requires StepIsRight(h, slots, depth, path, Separate(b, first), child, rest)
    ensures EmitsItems(EmitSlots(h, slots, first, depth, path, b), b, depth, first, UnfoldSlots(h, slots, path))
  {
    hide Append, Separate, Emit, Emits, Unfold, Sane, ValueText, Nodes, Height, ValueOk, ItemsText, ItemsNodes,
         ItemsHeight, Max, Closed;
    var items := UnfoldSlots(h, slots, path).tree;
    UnfoldIsOk(h, ValueIn(slots[0]), path);
    var v := items.item.value;
    ValueTextCloses(v);
    ItemsSplit(items);
    var (n, height) := if |slots| == 1 then (0, 0) else (ItemsNodes(items.items), ItemsHeight(items.items));
    var after := if |slots| == 1 then NoTrouble else UnfoldSlots(h, slots[1..], path).trouble;
    StepEmits(b, depth, first, child, rest, Nodes(v), Height(v), ValueText(v),
        Unfold(h, ValueIn(slots[0]), path).trouble, n, height, AfterItem(items), after);
  }

  // ---------------------------------------------------------------- objects

  lemma NamedText(name: Text, v: Value)
    ensures MemberText(Named(name, v)) == StringText(Quote(name)) + ([COLON] + ValueText(v))
  {
    hide StringText, Quote, ValueText;
    var s := ValueText(v);
    assert ItemText(Bare(v)) == s;
    assert [] + ([COLON] + s) == [COLON] + s;
    assert [] + (StringText(Quote(name)) + ([COLON] + s)) == StringText(Quote(name)) + ([COLON] + s);
  }

  lemma StringTextCloses(name: Text)
    ensures Closed(StringText(Quote(name)))
  {
    hide Quote, CharsText;
  }

  lemma AppendedIsSane(b: Budget, name: Text)
    requires Sane(b)
    ensures var o := AppendString(b, name); if o.Failed? then o == Failed(Limit) else Sane(o.budget)
    ensures var o := Append(b, [COLON]); if o.Failed? then o == Failed(Limit) else Sane(o.budget)
  {
    hide StringText, Encode, Quote;
  }

  /** A name, a colon and a value. */
  lemma NamedValueEmits(b: Budget, depth: nat, name: Text, u: Unfolding<Value>, child: Outcome)
    requires Sane(b) && depth <= MAX_DEPTH
    requires var o := AppendString(b, name); o.Done? ==> var c := Append(o.budget, [COLON]); c.Done? ==>
             EmitsValue(child, c.budget, depth + 1, u)
    ensures var o := AppendString(b, name);
            Emits(Next(o, if o.Failed? then o else Next(Append(o.budget, [COLON]), child)),
                  b, depth, Nodes(u.tree), 1 + Height(u.tree), MemberText(Named(name, u.tree)), u.trouble)
  {
    hide AppendString, Append, Nodes, Height, ValueText, MemberText, Sane, StringText, Quote, Encode, Plus;
    var v := u.tree;
    var o := AppendString(b, name);
    AppendStringEmits(b, depth, name);
    StringTextCloses(name);
    NamedText(name, v);
    AppendedIsSane(b, name);
    var last := o;
    if o.Done? {
      AppendEmits(o.budget, depth, [COLON]);
      Chain(Append(o.budget, [COLON]), child, o.budget, depth, 0, 0, [COLON], NoTrouble, Nodes(v), 1 + Height(v),
          ValueText(v), u.trouble);
      last := Next(Append(o.budget, [COLON]), child);
    }
    Chain(o, last, b, depth, 0, 0, StringText(Quote(name)), NoTrouble, Nodes(v), 1 + Height(v), [COLON] + ValueText(v),
        u.trouble);
  }

  predicate EmitsProperty(o: Outcome, b: Budget, depth: nat, first: bool, name: Text, u: Unfolding<Value>) {
    Emits(o, b, depth, Nodes(u.tree), 1 + Height(u.tree), Comma(first) + MemberText(Named(name, u.tree)), u.trouble)
  }

  lemma {:induction false} PropertyMatches(h: Heap, p: Property, first: bool, depth: nat, path: set<Ref>, b: Budget)
    requires Written(p) && Sane(b) && depth <= MAX_DEPTH
    ensures EmitsProperty(EmitProperty(h, p, first, depth, path, b), b, depth, first, p.name,
              Unfold(h, ValueIn(p.slot), path))
    decreases |h.Keys - path|, 1, 0
  {
    hide AppendString, Append, Separate, Emit, Emits, Unfold, Sane, MemberText, Nodes, Height, EmitsValue;
    var v := ValueIn(p.slot);
    var u := Unfold(h, v, path);
    SeparatedIsSane(b, first);
    var o := Separate(b, first);
    var named := o;
    if o.Done? {
      AppendedIsSane(o.budget, p.name);
      var s := AppendString(o.budget, p.name);
      var child := s;
      named := s;
      if s.Done? {
        AppendedIsSane(s.budget, p.name);
        var c := Append(s.budget, [COLON]);
        if c.Done? {
          child := Emit(h, v, depth + 1, path, false, c.budget);
          EmitMatches(h, v, depth + 1, path, false, c.budget);
        }
        named := Next(c, child);
      }
      NamedValueEmits(o.budget, depth, p.name, u, child);
    }
    SeparateEmits(b, depth, first);
    CommaCloses(first);
    Chain(o, named, b, depth, 0, 0, Comma(first), NoTrouble, Nodes(u.tree), 1 + Height(u.tree),
        MemberText(Named(p.name, u.tree)), u.trouble);
  }

  lemma CommaCloses(first: bool)
    ensures Closed(Comma(first))
  {
  }

  /** The properties of an object from some point on, up to the closing brace. */
  predicate EmitsRest(o: Outcome, b: Budget, depth: nat, first: bool, h: Heap, kept: seq<Property>, path: set<Ref>) {
    if kept == [] then Emits(o, b, depth, 0, 0, [RBRACE], NoTrouble)
    else EmitsMembers(o, b, depth, first, UnfoldProperties(h, kept, path))
  }

  lemma {:induction false} PropertiesMatch(h: Heap, properties: seq<Property>, first: bool, depth: nat, path: set<Ref>,
      b: Budget)
    requires Sane(b) && depth <= MAX_DEPTH
    ensures EmitsRest(EmitProperties(h, properties, first, depth, path, b), b, depth, first, h, Kept(properties), path)
    decreases |h.Keys - path|, 1, |properties|
  {
    hide Append, EmitProperty, Emits, Sane, EmitsProperty, EmitsMembers, UnfoldProperties;
    if properties == [] {
      AppendEmits(b, depth, [RBRACE]);
    } else if !Written(properties[0]) {
      PropertiesMatch(h, properties[1..], first, depth, path, b);
    } else {
      var p := properties[0];
      var o := EmitProperty(h, p, first, depth, path, b);
      PropertyMatches(h, p, first, depth, path, b);
      var rest := o;
      if o.Done? {
        PropertyIsSane(o, b, depth, first, p.name, Unfold(h, ValueIn(p.slot), path));
        rest := EmitProperties(h, properties[1..], false, depth, path, o.budget);
        PropertiesMatch(h, properties[1..], false, depth, path, o.budget);
      }
      var kept := Kept(properties);
      assert kept[0] == p && kept[1..] == Kept(properties[1..]);
      PropertiesJoin(h, kept, first, depth, path, b, o, rest);
    }
  }

  lemma PropertyIsSane(o: Outcome, b: Budget, depth: nat, first: bool, name: Text, u: Unfolding<Value>)
    requires EmitsProperty(o, b, depth, first, name, u) && o.Done?
    ensures Sane(o.budget)
  {
    hide Encode, MemberText;
  }

  /** The text from after a property of an object on. */
  function AfterMember(members: Members): Text {
    if members.LastMember? then [RBRACE] else [COMMA] + MembersText(members.members)
  }

  lemma MemberCloses(first: bool, name: Text, v: Value)
    requires ValueOk(v)
    ensures Closed(Comma(first) + MemberText(Named(name, v)))
  {
    hide StringText, ValueText, Quote;
    ValueTextCloses(v);
    NamedText(name, v);
  }

  lemma MembersSplit(members: Members)
    ensures var v := members.member.item.value; var last := members.LastMember?;
            && MembersText(members) == MemberText(members.member) + AfterMember(members)
            && MembersNodes(members) == Nodes(v) + (if last then 0 else MembersNodes(members.members))
            && MembersHeight(members) == Max(1 + Height(v), if last then 0 else MembersHeight(members.members))
  {
    hide MemberText, Nodes, Height;
  }

  lemma PropertiesJoin(h: Heap, kept: seq<Property>, first: bool, depth: nat, path: set<Ref>, b: Budget, o: Outcome,
      rest: Outcome)
    requires kept != [] && EmitsProperty(o, b, depth, first, kept[0].name, Unfold(h, ValueIn(kept[0].slot), path))
    requires o.Done? ==> EmitsRest(rest, o.budget, depth, false, h, kept[1..], path)
    ensures EmitsMembers(Next(o, rest), b, depth, first, UnfoldProperties(h, kept, path))
  {
    hide Emits, Unfold, MemberText, Nodes, Height, ValueOk, Named, MembersText, MembersNodes, MembersHeight, Max,
         Closed;
    var members := UnfoldProperties(h, kept, path).tree;
    UnfoldIsOk(h, ValueIn(kept[0].slot), path);
    var v := Unfold(h, ValueIn(kept[0].slot), path).tree;
    var text := MemberText(Named(kept[0].name, v));
    MemberCloses(first, kept[0].name, v);
    MembersSplit(members);
    NamedValue(kept[0].name, v);
    var (n, height) := if |kept| == 1 then (0, 0) else (MembersNodes(members.members), MembersHeight(members.members));
    var after := if |kept| == 1 then NoTrouble else UnfoldProperties(h, kept[1..], path).trouble;
    Chain(o, rest, b, depth, Nodes(v), 1 + Height(v), Comma(first) + text,
        Unfold(h, ValueIn(kept[0].slot), path).trouble, n, height, AfterMember(members), after);
    JsonRecogniser.Regroup(Comma(first), text, AfterMember(members));
  }

  lemma NamedValue(name: Text, v: Value)
    ensures Named(name, v).item.value == v
  {
  }

  lemma {:induction false} ObjectMatches(h: Heap, n: Node, depth: nat, path: set<Ref>, b: Budget, entered: Budget)
    requires Sane(b) && Enter(b, depth) == Done(entered, true) && n.PlainNode?
    ensures EmitsValue(EmitNode(h, n, depth, path, entered), b, depth, UnfoldNode(h, n, path))
    decreases |h.Keys - path|, 1, |n.properties| + 1
  {
    hide Append, Enter, Emits, EmitProperties, UnfoldProperties, MembersText, Sane;
    var o := Append(entered, [LBRACE]);
    var kept := Kept(n.properties);
    OpenedIsSane(b, depth, entered, LBRACE);
    if o.Done? { PropertiesMatch(h, n.properties, true, depth, path, o.budget); }
    var rest := if o.Done? then EmitProperties(h, n.properties, true, depth, path, o.budget) else o;
    if kept == [] {
      OpenedEmits(b, depth, entered, LBRACE, rest, 0, 0, [RBRACE], NoTrouble);
      assert [] + [RBRACE] == [RBRACE];
    } else {
      var u := UnfoldProperties(h, kept, path);
      assert Comma(true) + MembersText(u.tree) == MembersText(u.tree);
      OpenedEmits(b, depth, entered, LBRACE, rest, MembersNodes(u.tree), MembersHeight(u.tree), MembersText(u.tree),
          u.trouble);
    }
  }

  // ---------------------------------------------------- cycles in the graph

  /** A value that is written inside an array or an object. */
  predicate Child(h: Heap, r: Ref, v: Js) {
    r in h &&
    match h[r]
    case ArrayNode(slots) => exists i :: 0 <= i < |slots| && ValueIn(slots[i]) == v
    case PlainNode(ps) => exists i :: 0 <= i < |ps| && Written(ps[i]) && ValueIn(ps[i].slot) == v
  }

  /** A way down the object graph from a value. */
  predicate Descent(h: Heap, v: Js, refs: seq<Ref>)
    decreases |refs|
  {
    refs != [] ==>
      v == Js.Object(refs[0]) &&
      (|refs| > 1 ==> Child(h, refs[0], Js.Object(refs[1])) && Descent(h, Js.Object(refs[1]), refs[1..]))
  }

  lemma {:induction false} SlotsUnfold(h: Heap, slots: seq<Slot>, path: set<Ref>, i: nat)
    requires i < |slots| && UnfoldSlots(h, slots, path).trouble == NoTrouble
    ensures Unfold(h, ValueIn(slots[i]), path).trouble == NoTrouble
    decreases |slots|
  {
    hide Unfold;
    if i > 0 { SlotsUnfold(h, slots[1..], path, i - 1); }
  }

  lemma {:induction false} PropertiesUnfold(h: Heap, kept: seq<Property>, path: set<Ref>, i: nat)
    requires i < |kept| && UnfoldProperties(h, kept, path).trouble == NoTrouble
    ensures Unfold(h, ValueIn(kept[i].slot), path).trouble == NoTrouble
    decreases |kept|
  {
    hide Unfold;
    if i > 0 { PropertiesUnfold(h, kept[1..], path, i - 1); }
  }

  lemma {:induction false} KeptAt(properties: seq<Property>, i: nat) returns (j: nat)
    requires i < |properties| && Written(properties[i])
    ensures j < |Kept(properties)| && Kept(properties)[j] == properties[i]
    decreases |properties|
  {
    hide Written;
    if i == 0 {
      j := 0;
    } else {
      j := KeptAt(properties[1..], i - 1);
      if Written(properties[0]) { j := j + 1; }
    }
  }

  lemma ChildUnfolds(h: Heap, r: Ref, v: Js, path: set<Ref>)
    requires Unfold(h, Js.Object(r), path).trouble == NoTrouble && Child(h, r, v)
    ensures r !in path && Unfold(h, v, path + {r}).trouble == NoTrouble
  {
    hide UnfoldSlots, UnfoldProperties, Kept, Written;
    match h[r]
    case ArrayNode(slots) =>
      var i :| 0 <= i < |slots| && ValueIn(slots[i]) == v;
      SlotsUnfold(h, slots, path + {r}, i);
    case PlainNode(ps) =>
      var i :| 0 <= i < |ps| && Written(ps[i]) && ValueIn(ps[i].slot) == v;
      var j := KeptAt(ps, i);
      PropertiesUnfold(h, Kept(ps), path + {r}, j);
  }

  /** Below a value that unfolds to a tree, no way down meets an object twice. */
  lemma {:induction false} TreesHaveNoCycle(h: Heap, v: Js, path: set<Ref>, refs: seq<Ref>)
    requires Unfold(h, v, path).trouble == NoTrouble && Descent(h, v, refs)
    ensures forall i :: 0 <= i < |refs| ==> refs[i] !in path
    ensures forall i, j :: 0 <= i < j < |refs| ==> refs[i] != refs[j]
    decreases |refs|
  {
    hide UnfoldNode, Child;
    if |refs| > 1 {
      ChildUnfolds(h, refs[0], Js.Object(refs[1]), path);
      TreesHaveNoCycle(h, Js.Object(refs[1]), path + {refs[0]}, refs[1..]);
      forall i | 0 <= i < |refs|
        ensures refs[i] !in path && (i > 0 ==> refs[i] != refs[0])
      {
        if i > 0 { assert refs[i] == refs[1..][i - 1]; }
      }
    }
  }

  /** A way down that ends in an object it has met, or that was on the path before. */
  predicate Closes(h: Heap, v: Js, path: set<Ref>, refs: seq<Ref>) {
    refs != [] && Descent(h, v, refs) && (refs[|refs| - 1] in path || refs[|refs| - 1] in refs[..|refs| - 1])
  }

  lemma {:induction false} TroubledSlot(h: Heap, slots: seq<Slot>, path: set<Ref>, t: Trouble)
      returns (i: nat)
    requires slots != [] && UnfoldSlots(h, slots, path).trouble == t && t != NoTrouble
    ensures i < |slots| && Unfold(h, ValueIn(slots[i]), path).trouble == t
    decreases |slots|
  {
    hide Unfold;
    if Unfold(h, ValueIn(slots[0]), path).trouble == t {
      i := 0;
    } else {
      i := TroubledSlot(h, slots[1..], path, t);
      i := i + 1;
    }
  }

  lemma {:induction false} TroubledProperty(h: Heap, kept: seq<Property>, path: set<Ref>, t: Trouble)
      returns (i: nat)
    requires kept != [] && UnfoldProperties(h, kept, path).trouble == t && t != NoTrouble
    ensures i < |kept| && Unfold(h, ValueIn(kept[i].slot), path).trouble == t
    decreases |kept|
  {
    hide Unfold;
    if Unfold(h, ValueIn(kept[0].slot), path).trouble == t {
      i := 0;
    } else {
      i := TroubledProperty(h, kept[1..], path, t);
      i := i + 1;
    }
  }

  lemma {:induction false} KeptFrom(properties: seq<Property>, j: nat) returns (i: nat)
    requires j < |Kept(properties)|
    ensures i < |properties| && properties[i] == Kept(properties)[j] && Written(properties[i])
    decreases |properties|
  {
    hide Written;
    if Written(properties[0]) && j == 0 {
      i := 0;
    } else {
      i := KeptFrom(properties[1..], if !Written(properties[0]) then j else j - 1);
      i := i + 1;
    }
  }

  lemma TroubledChild(h: Heap, r: Ref, path: set<Ref>, t: Trouble) returns (v: Js)
    requires r in h && UnfoldNode(h, h[r], path).trouble == t && t != NoTrouble
    ensures Child(h, r, v) && Unfold(h, v, path).trouble == t
  {
    hide Unfold, UnfoldSlots, UnfoldProperties, Kept, Written;
    match h[r]
    case ArrayNode(slots) =>
      var i := TroubledSlot(h, slots, path, t);
      v := ValueIn(slots[i]);
    case PlainNode(ps) =>
      var j := TroubledProperty(h, Kept(ps), path, t);
      v := ValueIn(Kept(ps)[j].slot);
      var i := KeptFrom(ps, j);
  }

  /** The serialiser speaks of a cycle only where there is one. */
  lemma {:induction false} CyclesClose(h: Heap, v: Js, path: set<Ref>) returns (refs: seq<Ref>)
    requires Unfold(h, v, path).trouble == Cyclic
    ensures Closes(h, v, path, refs)
    decreases |h.Keys - path|
  {
    hide UnfoldNode, Child;
    var r := v.ref;
    if r in path {
      refs := [r];
    } else {
      FewerLeft(h, path, r);
      var c := TroubledChild(h, r, path + {r}, Cyclic);
      var rest := CyclesClose(h, c, path + {r});
      refs := [r] + rest;
      assert refs[1..] == rest;
      var n := |rest| - 1;
      assert refs[|refs| - 1] == rest[n] && refs[..|refs| - 1] == [r] + rest[..n];
    }
  }

  /** A value of a kind that JSON does not have. */
  predicate Unwritable(h: Heap, v: Js) { v.BigInt? || (v.Object? && v.ref !in h) }

  /** The way down to a value that is written. */
  predicate LeadsTo(h: Heap, v: Js, refs: seq<Ref>, w: Js) {
    if refs == [] then v == w else Descent(h, v, refs) && Child(h, refs[|refs| - 1], w)
  }

  /** The serialiser calls a value unsupported only where there is one. */
  lemma {:induction false} ForeignIsThere(h: Heap, v: Js, path: set<Ref>) returns (refs: seq<Ref>, w: Js)
    requires Unfold(h, v, path).trouble == Foreign
    ensures LeadsTo(h, v, refs, w) && Unwritable(h, w)
    decreases |h.Keys - path|
  {
    hide UnfoldNode, Child;
    if Unwritable(h, v) {
      refs, w := [], v;
    } else {
      FewerLeft(h, path, v.ref);
      var c := TroubledChild(h, v.ref, path + {v.ref}, Foreign);
      var rest, found := ForeignIsThere(h, c, path + {v.ref});
      refs, w := [v.ref] + rest, found;
      assert refs[1..] == rest;
      if rest != [] { assert refs[|refs| - 1] == rest[|rest| - 1]; }
    }
  }

  // --------------------------------------------------------------- theorems

  /** A value is captured exactly when it unfolds without trouble to a tree within the limits; the bytes are the tree's
      text. Otherwise the first trouble is named, or a limit, but that only if the tree is not within the limits. */
  predicate Right(h: Heap, v: Js, r: Result) {
    var u := Unfold(h, v, {});
    match r
    case Captured(bytes) =>
      !Omitted(v) && u.trouble == NoTrouble && Fits(u.tree) && bytes == Encode(ValueText(u.tree))
    case Unavailable(Cycle) => u.trouble == Cyclic
    case Unavailable(Unsupported) => Omitted(v) || u.trouble == Foreign
    case Unavailable(Limit) => !Omitted(v) && !Fits(u.tree)
  }

  /** The bounded serialiser does what the unbounded reference says, as far as the limits allow. */
  lemma SnapshotIsRight(h: Heap, v: Js)
    ensures Right(h, v, SnapshotOf(h, v))
  {
    hide Unfold, Emit, Nodes, Height, ValueText;
    var start := Budget(0, 0, []);
    if Omitted(v) {
      OmittedIsNotEmitted(h, v, start);
    } else {
      var u := Unfold(h, v, {});
      EmitMatches(h, v, 0, {}, false, start);
      assert [] + ValueText(u.tree) == ValueText(u.tree);
    }
  }

  lemma OmittedIsNotEmitted(h: Heap, v: Js, b: Budget)
    requires Omitted(v)
    ensures Emit(h, v, 0, {}, false, b) == Done(b, false)
  {
  }

  method CreateBoundedJsonSnapshot(h: Heap, v: Js) returns (r: Result)
    ensures Right(h, v, r)
  {
    hide Unfold, Emit, Right;
    var serialiser := new Serialiser(h);
    var thrown, emitted := serialiser.AppendValue(v, 0, false);
    SnapshotIsRight(h, v);
    if thrown != Snapshot.Nothing { return Unavailable(thrown.why); }
    if !emitted { return Unavailable(Unsupported); }
    var encoded := Encode(Joined(serialiser.parts));
    return if |encoded| > MAX_BYTES then Unavailable(Limit) else Captured(encoded);
  }

  /** What was captured can be decoded, and is a JSON text that the recogniser accepts. */
  lemma CapturedIsJson(h: Heap, v: Js)
    requires SnapshotOf(h, v).Captured?
    ensures var (text, u) := (Decode(SnapshotOf(h, v).bytes), Unfold(h, v, {}));
            u.trouble == NoTrouble && text == ValueText(u.tree) && IsJson(text) && JsonScanner.ScanText(text).Ok?
  {
    hide Unfold, ValueOk, ValueText, Encode, Decode, WellFormed, SnapshotOf;
    SnapshotIsRight(h, v);
    UnfoldIsOk(h, v, {});
    var tree := Unfold(h, v, {}).tree;
    DecodeEncode(ValueText(tree));
    BareText(tree);
    assert ItemOk(Bare(tree));
    JsonRecogniser.RecogniserIsExact(ValueText(tree));
  }

  /** Nothing that reaches a cycle is ever captured, and what is reported, a cycle or an unsupported value, is there. */
  lemma CapturedHasNoCycle(h: Heap, v: Js, refs: seq<Ref>)
    requires Descent(h, v, refs)
    ensures SnapshotOf(h, v).Captured? ==> forall i, j :: 0 <= i < j < |refs| ==> refs[i] != refs[j]
    ensures SnapshotOf(h, v) == Unavailable(Cycle) ==> exists way :: Closes(h, v, {}, way)
    ensures SnapshotOf(h, v) == Unavailable(Unsupported) ==>
              Omitted(v) || exists way, w :: LeadsTo(h, v, way, w) && Unwritable(h, w)
  {
    hide Unfold, Descent, SnapshotOf, Closes, LeadsTo, Unwritable;
    SnapshotIsRight(h, v);
    if SnapshotOf(h, v).Captured? { TreesHaveNoCycle(h, v, {}, refs); }
    if SnapshotOf(h, v) == Unavailable(Cycle) { var way := CyclesClose(h, v, {}); }
    if SnapshotOf(h, v) == Unavailable(Unsupported) && !Omitted(v) { var way, w := ForeignIsThere(h, v, {}); }
  }
}
