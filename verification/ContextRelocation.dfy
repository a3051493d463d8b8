/**
 Degrading mid-conversation system messages to user messages, for models that do not take them. A message
 that falls inside a tool exchange is held back until the exchange is complete.
 */
module ContextRelocation {

  datatype Block = ToolCall(id: string) | Content(text: string)

  /** A complex system message carries prompt sections or changes to the tools. */
  datatype Message =
    | System(content: string, timestamp: int, complex: bool)
    | User(content: string, timestamp: int)
    | Assistant(blocks: seq<Block>)
    | ToolResult(toolCallId: string, output: string)
    | Other(body: string)

  datatype Refusal = ComplexSystem(index: nat) | Crossing(index: nat) | Unfinished
  datatype Result = Ready(messages: seq<Message>, outcomes: seq<nat>) | Refused(refusal: Refusal)

  function DegradedUser(m: Message): Message
    requires m.System?
  {
    User(m.content, m.timestamp)
  }

  function CallIds(blocks: seq<Block>): (ids: set<string>)
    ensures forall id :: id in ids <==> ToolCall(id) in blocks
  {
    if blocks == [] then {}
    else CallIds(blocks[..|blocks| - 1]) + (var b := blocks[|blocks| - 1]; if b.ToolCall? then {b.id} else {})
  }

  // ---------------------------------------------------- what a context asks

  /** The tool calls without a result after a message, given those before it. */
  function PendingAfter(pending: set<string>, m: Message): set<string> {
    match m
    case System(_, _, _) => pending
    case User(_, _) => {}
    case Assistant(blocks) => CallIds(blocks)
    case ToolResult(id, _) => pending - {id}
    case Other(_) => pending
  }

  /** Replaying the first `k` messages: the tool calls that are then pending. */
  function Pending(ms: seq<Message>, k: nat): set<string>
    requires k <= |ms|
  {
    if k == 0 then {} else PendingAfter(Pending(ms, k - 1), ms[k - 1])
  }

  /** A system message after a message that is not one. */
  predicate Mid(ms: seq<Message>, i: nat)
    requires i < |ms|
  {
    ms[i].System? && exists j :: 0 <= j < i && !ms[j].System?
  }

  /** The first slot from `k` on where no tool call is pending; past the end if there is none. */
  function FirstClear(ms: seq<Message>, k: nat): (slot: nat)
    requires k <= |ms|
    ensures k <= slot <= |ms| + 1
    ensures slot <= |ms| ==> Pending(ms, slot) == {}
    ensures forall j :: k <= j < slot && j <= |ms| ==> Pending(ms, j) != {}
    decreases |ms| - k
  {
    if Pending(ms, k) == {} then k else if k == |ms| then k + 1 else FirstClear(ms, k + 1)
  }

  /** The tool exchange around message `i` is completed by tool results before the conversation goes on. */
  predicate Completes(ms: seq<Message>, i: nat)
    requires i < |ms|
  {
    FirstClear(ms, i) <= |ms| && forall j :: i <= j < FirstClear(ms, i) ==> !ms[j].User? && !ms[j].Assistant?
  }

  /** A context that can be degraded: every mid-conversation system message is plain, and has somewhere to go. */
  predicate Relocatable(ms: seq<Message>) {
    forall i :: 0 <= i < |ms| && Mid(ms, i) ==> !ms[i].complex && Completes(ms, i)
  }

  // ------------------------------------------------------------ the rewrite

  /** Where each message of the result comes from. */
  datatype Placed = Kept(index: nat) | Degraded(index: nat)

  predicate Exists(ms: seq<Message>, p: Placed) {
    p.index < |ms| && (p.Degraded? ==> ms[p.index].System?)
  }

  function Copy(ms: seq<Message>, p: Placed): Message
    requires Exists(ms, p)
  {
    if p.Kept? then ms[p.index] else DegradedUser(ms[p.index])
  }

  predicate AllExist(ms: seq<Message>, placed: seq<Placed>) { forall p :: 0 <= p < |placed| ==> Exists(ms, placed[p]) }

  function Render(ms: seq<Message>, placed: seq<Placed>): (out: seq<Message>)
    requires AllExist(ms, placed)
    ensures |out| == |placed| && forall p :: 0 <= p < |placed| ==> out[p] == Copy(ms, placed[p])
  {
    seq(|placed|, p requires 0 <= p < |placed| && Exists(ms, placed[p]) => Copy(ms, placed[p]))
  }

  function DegradedIndexes(placed: seq<Placed>): seq<nat> {
    if placed == [] then []
    else
      var p := placed[|placed| - 1];
      DegradedIndexes(placed[..|placed| - 1]) + if p.Degraded? then [p.index] else []
  }

  function AllDegraded(indexes: seq<nat>): (placed: seq<Placed>)
    ensures |placed| == |indexes| && forall p :: 0 <= p < |indexes| ==> placed[p] == Degraded(indexes[p])
  {
    seq(|indexes|, p requires 0 <= p < |indexes| => Degraded(indexes[p]))
  }

  datatype Progress =
    | Going(seen: bool, pending: set<string>, deferred: seq<nat>, placed: seq<Placed>)
    | Stopped(refusal: Refusal)

  function Visit(i: nat, m: Message, s: Progress): Progress
    requires s.Going?
  {
    match m
    case System(_, _, complex) =>
      if !s.seen then s.(placed := s.placed + [Kept(i)])
      else if complex then Stopped(ComplexSystem(i))
      else if s.pending != {} then s.(deferred := s.deferred + [i])
      else s.(placed := s.placed + [Degraded(i)])
    case ToolResult(id, _) =>
      var pending := s.pending - {id};
      if pending == {} then Going(true, pending, [], s.placed + [Kept(i)] + AllDegraded(s.deferred))
      else Going(true, pending, s.deferred, s.placed + [Kept(i)])
    case User(_, _) =>
      if s.deferred != [] && s.pending != {} then Stopped(Crossing(i))
      else Going(true, {}, s.deferred, s.placed + [Kept(i)])
    case Assistant(blocks) =>
      if s.deferred != [] && s.pending != {} then Stopped(Crossing(i))
      else Going(true, CallIds(blocks), s.deferred, s.placed + [Kept(i)])
    case Other(_) => Going(true, s.pending, s.deferred, s.placed + [Kept(i)])
  }

  function Walk(ms: seq<Message>, i: nat): Progress
    requires i <= |ms|
  {
    if i == 0 then Going(false, {}, [], [])
    else
      match Walk(ms, i - 1)
      case Stopped(r) => Stopped(r)
      case Going(seen, pending, deferred, placed) => Visit(i - 1, ms[i - 1], Going(seen, pending, deferred, placed))
  }
}
