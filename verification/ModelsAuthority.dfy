/**
 The authority over models.json: its served state, which follows a file that others may edit, and its
 compare-and-swap writes. Calls run concurrently; between two awaits a call is one step.
 */
module ModelsAuthority {
  import opened Options

  /** `valid` parses and validates a content; the composition generation is what the catalog preview depends on. */
  datatype Config = Config(valid: string -> bool)

  datatype Reading = Missing | Failed | Content(raw: string)

  datatype Problem = NoProblem | NotLoaded | NotValid

  datatype State = State(revision: nat, present: bool, raw: string, problem: Problem, generation: int)

  /** What a client can tell states apart by. */
  predicate SameContent(a: State, b: State) { a.present == b.present && a.raw == b.raw }

  function ContentOf(s: State): Option<string> { if s.present then Some(s.raw) else None }

  /** The fields of the authority. */
  datatype Authority = Authority(current: State, diskRaw: string, diskPresent: bool, refreshed: bool, generation: int)

  const START := Authority(State(0, false, "", NoProblem, 0), "", false, false, 0)

  function RawOf(r: Reading): string { if r.Content? then r.raw else "" }

  function BuildState(cfg: Config, revision: nat, r: Reading, generation: int): State {
    match r
    case Missing => State(revision, false, "", NoProblem, generation)
    case Failed => State(revision, true, "", NotLoaded, generation)
    case Content(raw) => State(revision, true, raw, if cfg.valid(raw) then NoProblem else NotValid, generation)
  }

  /** The part of a refresh after the file has been read. */
  function Refreshed(cfg: Config, a: Authority, r: Reading, generation: int): Authority {
    if a.refreshed && !r.Missing? == a.diskPresent && RawOf(r) == a.diskRaw && generation == a.generation then a
    else
      var next := BuildState(cfg, a.current.revision, r, generation);
      var current :=
        if a.refreshed && !SameContent(next, a.current) then next.(revision := a.current.revision + 1) else next;
      Authority(current, RawOf(r), !r.Missing?, true, generation)
  }

  /** The last part of a commit, after the file has been replaced and the lock released. */
  function Published(cfg: Config, a: Authority, base: State, raw: string): Authority {
    var most := if a.current.revision >= base.revision then a.current.revision else base.revision;
    a.(current := State(most + 1, true, raw, NoProblem, a.generation), diskRaw := raw, diskPresent := true)
  }

  /** The same as updates in place. */
  class ModelsJsonAuthority {
    const cfg: Config
    var current: State
    var diskRaw: string
    var diskPresent: bool
    var refreshed: bool
    var compositionGeneration: int

    constructor (cfg: Config)
      ensures this.cfg == cfg && Contents() == START
    {
      this.cfg := cfg;
      current := State(0, false, "", NoProblem, 0);
      diskRaw := "";
      diskPresent := false;
      refreshed := false;
      compositionGeneration := 0;
    }

    ghost function Contents(): Authority
      reads this
    {
      Authority(current, diskRaw, diskPresent, refreshed, compositionGeneration)
    }

    method FinishRefresh(r: Reading, nextGeneration: int) returns (state: State)
      modifies this
      ensures Contents() == Refreshed(cfg, old(Contents()), r, nextGeneration) && state == current
    {
      var present, raw := !r.Missing?, RawOf(r);
      if refreshed && present == diskPresent && raw == diskRaw && nextGeneration == compositionGeneration {
        return current;
      }
      var firstObservation := !refreshed;
      refreshed := true;
      diskPresent := present;
      diskRaw := raw;
      compositionGeneration := nextGeneration;
      var next := BuildState(cfg, current.revision, r, nextGeneration);
      if firstObservation {
        current := next;
      } else if next.present != current.present || next.raw != current.raw {
        current := next.(revision := current.revision + 1);
      } else {
        current := next;
      }
      return current;
    }

    method FinishCommit(base: State, raw: string) returns (state: State)
      modifies this
      ensures Contents() == Published(cfg, old(Contents()), base, raw) && state == current
    {
      diskRaw := raw;
      diskPresent := true;
      var most := if current.revision >= base.revision then current.revision else base.revision;
      current := State(most + 1, true, raw, NoProblem, compositionGeneration);
      return current;
    }
  }

  // ------------------------------------------------------- concurrent calls

  datatype Call = Query | Write(revision: nat, content: string)

  /** `edited`: the content that the last edit without the lock gave the file since it was verified, if there
      was such an edit. */
  datatype Phase =
    | Starting
    | Fetched(reading: Reading)
    | Locking(base: State)
    | Holding(base: State)
    | Verified(base: State, edited: Option<Option<string>>)
    | Replaced(base: State)
    | Released(base: State)
    | Mismatched(base: State, found: Option<string>)
    | Refetched(base: State, found: Option<string>, reading: Reading)

  datatype Thread = Thread(call: Call, phase: Phase)

  datatype Lock = Free | Ours(thread: nat) | Foreign

  /** A commit that replaced the file: the revision and the content asked for, the state it was based on, and what
      was there. */
  datatype Swap = Swap(asked: nat, content: string, base: State, replaced: Option<string>,
                       edited: Option<Option<string>>)

  /** `Written` and `Same` are answered as "ok", `Stale` and `Differs` as "conflict". */
  datatype Outcome =
    | Queried | Written | Same | Invalid | Stale | Differs(base: State, found: Option<string>) | Unreadable

  /** What a call was answered with. A call that fails for other reasons, or crashes, has no answer here. */
  datatype Answer = Answer(call: Call, outcome: Outcome, state: State)

  datatype World = World(file: Option<string>, lock: Lock, authority: Authority, threads: map<nat, Thread>,
                         served: seq<State>, swaps: seq<Swap>, answers: seq<Answer>)

  datatype Step =
    | Call(thread: nat, call: Call)
    | Go(thread: nat, readable: bool, generation: int)
    | Fail(thread: nat)
    | ForeignLock | ForeignUnlock
    | ForeignWrite(content: Option<string>)
    | ExternalEdit(content: Option<string>)

  predicate NeedsLock(p: Phase) { p.Holding? || p.Verified? || p.Replaced? || p.Mismatched? || p.Refetched? }

  predicate Can(w: World, s: Step) {
    match s
    case Call(t, _) => t !in w.threads
    case Go(t, _, _) => t in w.threads && (w.threads[t].phase.Locking? ==> w.lock.Free?)
    case Fail(t) => t in w.threads
    case ForeignLock => w.lock.Free?
    case ForeignUnlock => w.lock.Foreign?
    case ForeignWrite(_) => w.lock.Foreign?
    case ExternalEdit(_) => true
  }

  function ReadFile(w: World, readable: bool): Reading {
    if w.file.None? then Missing else if readable then Content(w.file.value) else Failed
  }

  function Serve(w: World, a: Authority): World { w.(authority := a, served := w.served + [a.current]) }

  function Enter(w: World, t: nat, phase: Phase): World
    requires t in w.threads
  {
    w.(threads := w.threads[t := w.threads[t].(phase := phase)])
  }

  /** A call that ends gives up the lock if it has it. */
  function End(w: World, t: nat): World {
    w.(threads := w.threads - {t}, lock := if w.lock == Ours(t) then Free else w.lock)
  }

  /** A call that ends with an answer, which carries the state served last. */
  function Reply(w: World, t: nat, outcome: Outcome): World
    requires t in w.threads
  {
    End(w, t).(answers := w.answers + [Answer(w.threads[t].call, outcome, w.authority.current)])
  }

  /** An edit that does not take the lock disturbs whoever has verified the file. */
  function Disturb(threads: map<nat, Thread>, content: Option<string>): map<nat, Thread> {
    map t | t in threads ::
      if threads[t].phase.Verified? then threads[t].(phase := Verified(threads[t].phase.base, Some(content)))
          else threads[t]
  }

  /** What a verified file holds: what it was verified to hold, unless it was edited since. */
  function Expected(base: State, edited: Option<Option<string>>): Option<string> {
    if edited.Some? then edited.value else ContentOf(base)
  }

  /** After its refresh a write compares the revision and the content with the current state. */
  function Decide(cfg: Config, w: World, t: nat): World
    requires t in w.threads
  {
    match w.threads[t].call
    case Query => Reply(w, t, Queried)
    case Write(revision, content) =>
      var current := w.authority.current;
      if revision != current.revision then Reply(w, t, Stale)
      else if !cfg.valid(content) then Reply(w, t, Invalid)
      else if current.present && content == current.raw then Reply(w, t, Same)
      else Enter(w, t, Locking(current))
  }

  function Next(cfg: Config, w: World, s: Step): World
    requires Can(w, s)
  {
    match s
    case Call(t, call) => w.(threads := w.threads[t := Thread(call, Starting)])
    case Fail(t) => End(w, t)
    case ForeignLock => w.(lock := Foreign)
    case ForeignUnlock => w.(lock := Free)
    case ForeignWrite(content) => w.(file := content)
    case ExternalEdit(content) => w.(file := content, threads := Disturb(w.threads, content))
    case Go(t, readable, generation) =>
      match w.threads[t].phase
      case Starting => Enter(w, t, Fetched(ReadFile(w, readable)))
      case Fetched(r) => Decide(cfg, Serve(w, Refreshed(cfg, w.authority, r, generation)), t)
      case Locking(base) => Enter(w, t, Holding(base)).(lock := Ours(t))
      case Holding(base) =>
        if w.file.Some? && !readable then Reply(w, t, Unreadable)
        else if w.file != ContentOf(base) then Enter(w, t, Mismatched(base, w.file))
        else Enter(w, t, Verified(base, None))
      case Verified(base, edited) =>
        if w.threads[t].call.Query? then End(w, t)
        else
          var (asked, content) := (w.threads[t].call.revision, w.threads[t].call.content);
          var swap := Swap(asked, content, base, w.file, edited);
          Enter(w.(file := Some(content), swaps := w.swaps + [swap]), t, Replaced(base))
      case Replaced(base) => Enter(w, t, Released(base)).(lock := Free)
      case Released(base) =>
        if w.threads[t].call.Query? then End(w, t)
        else Reply(Serve(w, Published(cfg, w.authority, base, w.threads[t].call.content)), t, Written)
      case Mismatched(base, found) => Enter(w, t, Refetched(base, found, ReadFile(w, readable)))
      case Refetched(base, found, r) =>
        Reply(Serve(w, Refreshed(cfg, w.authority, r, generation)), t, Differs(base, found))
  }

  /** From some content of the file, after any steps; one that cannot be taken changes nothing. */
  function Reached(cfg: Config, file: Option<string>, steps: seq<Step>): World {
    if steps == [] then World(file, Free, START, map[], [], [], [])
    else
      var (before, s) := (Reached(cfg, file, steps[..|steps| - 1]), steps[|steps| - 1]);
      if Can(before, s) then Next(cfg, before, s) else before
  }
}
