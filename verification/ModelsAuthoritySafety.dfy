/**
 What every interleaving of calls keeps: served revisions name contents, each answer is the right one for the state
 that it carries, the file holds what its last writer wrote, and a write replaces exactly what it was compared with
 unless somebody edits the file without the lock.
 */
module ModelsAuthoritySafety {
  import opened Options
  import opened ModelsAuthority

  // -------------------------------------------------------------- invariant

  /** Revisions in the order they are served do not decrease, and skip none; and one revision is one content. */
  predicate Ordered(served: seq<State>) {
    && (forall i, j :: 0 <= i <= j < |served| ==>
          served[i].revision <= served[j].revision && (served[i].revision == served[j].revision ==>
              SameContent(served[i], served[j])))
    && forall i :: 0 <= i < |served| ==> served[i].revision <= if i == 0 then 0 else served[i - 1].revision + 1
  }

  predicate ServedOk(w: World) {
    && (w.authority.refreshed <==> w.served != [])
    && (w.served != [] ==> w.served[|w.served| - 1] == w.authority.current)
    && Ordered(w.served)
    && (w.authority.refreshed ==>
         && w.authority.current.present == w.authority.diskPresent && w.authority.current.raw == w.authority.diskRaw
         && w.authority.current.generation == w.authority.generation)
    && (!w.authority.refreshed ==> w.authority.current.revision == 0)
  }

  lemma ServedGrows(served: seq<State>, next: State)
    requires Ordered(served)
    requires served != [] ==> var last := served[|served| - 1];
             last.revision <= next.revision <= last.revision + 1 && (last.revision == next.revision ==>
                 SameContent(last, next))
    requires served == [] ==> next.revision == 0
    ensures Ordered(served + [next])
  {
    var all := served + [next];
    forall i, j | 0 <= i <= j < |all|
      ensures all[i].revision <= all[j].revision && (all[i].revision == all[j].revision ==> SameContent(all[i], all[j]))
    {
      if j == |served| && i < j {
        assert all[i].revision <= served[|served| - 1].revision;
      }
    }
  }

  lemma RefreshServes(cfg: Config, w: World, r: Reading, generation: int)
    requires ServedOk(w)
    ensures ServedOk(Serve(w, Refreshed(cfg, w.authority, r, generation)))
  {
    hide Ordered;
    ServedGrows(w.served, Refreshed(cfg, w.authority, r, generation).current);
  }

  lemma PublishServes(cfg: Config, w: World, base: State, raw: string)
    requires ServedOk(w) && w.served != [] && base in w.served
    ensures ServedOk(Serve(w, Published(cfg, w.authority, base, raw)))
  {
    hide Ordered;
    BaseIsBefore(w.served, base);
    ServedGrows(w.served, Published(cfg, w.authority, base, raw).current);
  }

  lemma BaseIsBefore(served: seq<State>, base: State)
    requires Ordered(served) && base in served
    ensures base.revision <= served[|served| - 1].revision
  {
  }

  predicate PhaseOk(call: Call, p: Phase) {
    p.Starting? || p.Fetched? || call.Write?
  }

  function BaseOf(p: Phase): Option<State> {
    match p
    case Locking(base) => Some(base)
    case Holding(base) => Some(base)
    case Verified(base, _) => Some(base)
    case Replaced(base) => Some(base)
    case Released(base) => Some(base)
    case Mismatched(base, _) => Some(base)
    case Refetched(base, _, _) => Some(base)
    case _ => None
  }

  /** A writer's base was served, at the revision that it asked for. */
  predicate ThreadOk(w: World, t: nat)
    requires t in w.threads
  {
    var (call, p) := (w.threads[t].call, w.threads[t].phase);
    && PhaseOk(call, p)
    && (BaseOf(p).Some? ==> BaseOf(p).value in w.served && call.revision == BaseOf(p).value.revision)
    && (NeedsLock(p) <==> w.lock == Ours(t))
    && (p.Verified? ==> w.file == Expected(p.base, p.edited))
  }

  predicate SwapOk(w: World, s: Swap) {
    s.base in w.served && s.asked == s.base.revision && s.replaced == Expected(s.base, s.edited)
  }

  predicate Inv(w: World) {
    && ServedOk(w)
    && (w.lock.Ours? ==> w.lock.thread in w.threads)
    && (forall t :: t in w.threads ==> ThreadOk(w, t))
    && (forall i :: 0 <= i < |w.swaps| ==> SwapOk(w, w.swaps[i]))
  }

  ghost predicate Grows(a: seq<State>, b: seq<State>) { forall x :: x in a ==> x in b }

  /** What does not concern a thread: more states served, and another thread's use of the lock and the file. */
  lemma OtherThreadOk(w: World, v: World, u: nat)
    requires u in w.threads && u in v.threads && v.threads[u] == w.threads[u] && ThreadOk(w, u)
    requires Grows(w.served, v.served) && (w.lock == Ours(u) <==> v.lock == Ours(u))
    requires v.file == w.file || w.lock != Ours(u)
    ensures ThreadOk(v, u)
  {
  }

  lemma SwapStaysOk(w: World, v: World, s: Swap)
    requires SwapOk(w, s) && Grows(w.served, v.served)
    ensures SwapOk(v, s)
  {
  }

  /** A step of thread `t`: nothing else changes for the others. */
  ghost predicate ActsAlone(w: World, v: World, t: nat) {
    && Grows(w.served, v.served)
    && (forall u :: u != t ==>
         (u in v.threads <==> u in w.threads) && (u in w.threads ==> v.threads[u] == w.threads[u]))
    && (v.lock == w.lock || (w.lock.Free? && v.lock == Ours(t)) || (w.lock == Ours(t) && v.lock.Free?))
    && (v.file == w.file || w.lock == Ours(t))
  }

  lemma ActingKeepsOthers(w: World, v: World, t: nat)
    requires Inv(w) && ActsAlone(w, v, t)
    ensures forall u :: u in v.threads && u != t ==> ThreadOk(v, u)
    ensures forall i :: 0 <= i < |w.swaps| ==> SwapOk(v, w.swaps[i])
  {
    hide ServedOk, ThreadOk, SwapOk, Grows;
    forall u | u in v.threads && u != t
      ensures ThreadOk(v, u)
    {
      OtherThreadOk(w, v, u);
    }
    forall i | 0 <= i < |w.swaps|
      ensures SwapOk(v, w.swaps[i])
    {
      SwapStaysOk(w, v, w.swaps[i]);
    }
  }

  lemma GoActsAlone(cfg: Config, w: World, t: nat, readable: bool, generation: int)
    requires Inv(w) && Can(w, Go(t, readable, generation))
    ensures ActsAlone(w, Next(cfg, w, Go(t, readable, generation)), t)
  {
    hide ServedOk, Refreshed, Published, SameContent;
    assert ThreadOk(w, t);
  }

  lemma GoServes(cfg: Config, w: World, t: nat, readable: bool, generation: int)
    requires Inv(w) && Can(w, Go(t, readable, generation))
    ensures ServedOk(Next(cfg, w, Go(t, readable, generation)))
  {
    hide Refreshed, Published, SameContent, Ordered;
    assert ThreadOk(w, t);
    match w.threads[t].phase
    case Fetched(r) => RefreshServes(cfg, w, r, generation);
    case Refetched(_, _, r) => RefreshServes(cfg, w, r, generation);
    case Released(base) =>
      assert base in w.served;
      PublishServes(cfg, w, base, w.threads[t].call.content);
    case _ =>
  }

  lemma GoerIsOk(cfg: Config, w: World, t: nat, readable: bool, generation: int)
    requires Inv(w) && Can(w, Go(t, readable, generation))
    ensures var v := Next(cfg, w, Go(t, readable, generation)); t in v.threads ==> ThreadOk(v, t)
  {
    hide ServedOk, Refreshed, Published, SameContent;
    assert ThreadOk(w, t);
  }

  lemma SwapIsOk(cfg: Config, w: World, t: nat, readable: bool, generation: int)
    requires Inv(w) && Can(w, Go(t, readable, generation))
    ensures var v := Next(cfg, w, Go(t, readable, generation));
            v.swaps == w.swaps || (|v.swaps| == |w.swaps| + 1 && v.swaps[..|w.swaps|] == w.swaps &&
                SwapOk(v, v.swaps[|w.swaps|]))
  {
    hide ServedOk, Refreshed, Published, SameContent;
    assert ThreadOk(w, t);
  }

  lemma LockIsOk(cfg: Config, w: World, t: nat, readable: bool, generation: int)
    requires Inv(w) && Can(w, Go(t, readable, generation))
    ensures var v := Next(cfg, w, Go(t, readable, generation)); v.lock.Ours? ==> v.lock.thread in v.threads
  {
    hide ServedOk, Refreshed, Published, SameContent;
    assert ThreadOk(w, t);
  }

  lemma GoKeepsInv(cfg: Config, w: World, t: nat, readable: bool, generation: int)
    requires Inv(w) && Can(w, Go(t, readable, generation))
    ensures Inv(Next(cfg, w, Go(t, readable, generation)))
  {
    hide ServedOk, ThreadOk, SwapOk, ActsAlone, Next, Can;
    var v := Next(cfg, w, Go(t, readable, generation));
    GoActsAlone(cfg, w, t, readable, generation);
    ActingKeepsOthers(w, v, t);
    GoServes(cfg, w, t, readable, generation);
    GoerIsOk(cfg, w, t, readable, generation);
    SwapIsOk(cfg, w, t, readable, generation);
    LockIsOk(cfg, w, t, readable, generation);
    forall i | 0 <= i < |v.swaps|
      ensures SwapOk(v, v.swaps[i])
    {
      if i < |w.swaps| { assert v.swaps[i] == w.swaps[i]; }
    }
  }

  lemma StepKeepsInv(cfg: Config, w: World, s: Step)
    requires Inv(w) && Can(w, s)
    ensures Inv(Next(cfg, w, s))
  {
    match s
    case Go(t, readable, generation) =>
      hide Inv, Next, Can;
      GoKeepsInv(cfg, w, t, readable, generation);
    case _ =>
      OthersKeepInv(cfg, w, s);
  }

  lemma OthersKeepInv(cfg: Config, w: World, s: Step)
    requires Inv(w) && Can(w, s) && !s.Go?
    ensures Inv(Next(cfg, w, s))
  {
    hide ServedOk, ContentOf;
    var v := Next(cfg, w, s);
    assert v.served == w.served && v.authority == w.authority && v.swaps == w.swaps;
    SameServed(w, v);
    forall u | u in v.threads
      ensures ThreadOk(v, u)
    {
      if u in w.threads { assert ThreadOk(w, u); }
    }
    assert forall i :: 0 <= i < |w.swaps| ==> SwapOk(w, w.swaps[i]) && SwapOk(v, w.swaps[i]);
  }

  lemma SameServed(w: World, v: World)
    requires ServedOk(w) && v.served == w.served && v.authority == w.authority
    ensures ServedOk(v)
  {
  }

  lemma {:induction false} ReachedInv(cfg: Config, file: Option<string>, steps: seq<Step>)
    ensures Inv(Reached(cfg, file, steps))
    decreases |steps|
  {
    if steps != [] {
      hide Inv, Next, Can;
      var (before, s) := (Reached(cfg, file, steps[..|steps| - 1]), steps[|steps| - 1]);
      ReachedInv(cfg, file, steps[..|steps| - 1]);
      if Can(before, s) { StepKeepsInv(cfg, before, s); }
    }
  }

  // ------------------------------------------------------ what is meant by it

  /** A state's verdict is that of the validation of its content. */
  predicate Judged(cfg: Config, st: State) {
    match st.problem
    case NoProblem => st.present ==> cfg.valid(st.raw)
    case NotValid => st.present && !cfg.valid(st.raw)
    case NotLoaded => st.present && st.raw == ""
  }

  /** A commit under way is meant to replace something else by a valid content. */
  predicate Meant(cfg: Config, th: Thread) {
    match th.phase
    case Mismatched(base, found) => found != ContentOf(base)
    case Refetched(base, found, _) => found != ContentOf(base)
    case _ => BaseOf(th.phase).Some? && th.call.Write? ==> Replaces(cfg, BaseOf(th.phase).value, th.call.content)
  }

  predicate Replaces(cfg: Config, base: State, content: string) {
    cfg.valid(content) && ContentOf(base) != Some(content)
  }

  predicate Holds(cfg: Config, st: State, content: string) { st.present && st.raw == content && cfg.valid(content) }

  /** The answer is the right one for the state that it carries. */
  predicate Right(cfg: Config, served: seq<State>, a: Answer) {
    && a.state in served
    && match a.outcome
       case Queried => a.call.Query?
       case Stale => a.call.Write? && a.call.revision != a.state.revision
       case Invalid => a.call.Write? && a.call.revision == a.state.revision && !cfg.valid(a.call.content)
       case Same => a.call.Write? && a.call.revision == a.state.revision && Holds(cfg, a.state, a.call.content)
       case Written => a.call.Write? && a.call.revision < a.state.revision && Holds(cfg, a.state, a.call.content)
       case Differs(base, found) =>
         a.call.Write? && base in served && base.revision == a.call.revision && found != ContentOf(base)
       case Unreadable => a.call.Write?
  }

  predicate AllJudged(cfg: Config, served: seq<State>) {
    forall i :: 0 <= i < |served| ==> Judged(cfg, served[i])
  }

  predicate AllMeant(cfg: Config, w: World) {
    && (forall t :: t in w.threads ==> Meant(cfg, w.threads[t]))
    && (forall i :: 0 <= i < |w.swaps| ==> Replaces(cfg, w.swaps[i].base, w.swaps[i].content))
    && (forall i :: 0 <= i < |w.answers| ==> Right(cfg, w.served, w.answers[i]))
  }

  lemma RefreshedIsJudged(cfg: Config, a: Authority, r: Reading, generation: int)
    requires Judged(cfg, a.current)
    ensures Judged(cfg, Refreshed(cfg, a, r, generation).current)
  {
  }

  lemma JudgedGrows(cfg: Config, served: seq<State>, st: State)
    requires AllJudged(cfg, served) && Judged(cfg, st)
    ensures AllJudged(cfg, served + [st])
  {
    hide Judged;
  }

  lemma CurrentIsJudged(cfg: Config, w: World)
    requires ServedOk(w) && AllJudged(cfg, w.served) && (w.served == [] ==> w.authority == START)
    ensures Judged(cfg, w.authority.current)
  {
  }

  lemma MoreServed(cfg: Config, served: seq<State>, st: State, a: Answer)
    requires Right(cfg, served, a)
    ensures Right(cfg, served + [st], a)
  {
  }

  ghost predicate Judges(cfg: Config, w: World) {
    AllJudged(cfg, w.served) && (w.served == [] ==> w.authority == START)
  }

  lemma StepKeepsJudged(cfg: Config, w: World, s: Step)
    requires Inv(w) && Can(w, s) && AllMeant(cfg, w) && Judges(cfg, w)
    ensures Judges(cfg, Next(cfg, w, s))
  {
    hide Refreshed, Published, Right, Judged, Ordered, ThreadOk, SwapOk, AllMeant;
    CurrentIsJudged(cfg, w);
    if s.Go? {
      var t := s.thread;
      match w.threads[t].phase
      case Fetched(r) => RefreshedServed(cfg, w, r, s.generation);
      case Refetched(_, _, r) => RefreshedServed(cfg, w, r, s.generation);
      case Released(base) => if w.threads[t].call.Write? { PublishedServed(cfg, w, t, base); }
      case _ =>
    }
  }

  lemma RefreshedServed(cfg: Config, w: World, r: Reading, generation: int)
    requires AllJudged(cfg, w.served) && Judged(cfg, w.authority.current)
    ensures AllJudged(cfg, w.served + [Refreshed(cfg, w.authority, r, generation).current])
  {
    RefreshedIsJudged(cfg, w.authority, r, generation);
    JudgedGrows(cfg, w.served, Refreshed(cfg, w.authority, r, generation).current);
  }

  lemma PublishedServed(cfg: Config, w: World, t: nat, base: State)
    requires AllJudged(cfg, w.served) && t in w.threads && w.threads[t] == Thread(w.threads[t].call, Released(base))
    requires w.threads[t].call.Write?
    requires AllMeant(cfg, w)
    ensures AllJudged(cfg, w.served + [Published(cfg, w.authority, base, w.threads[t].call.content).current])
  {
    assert Meant(cfg, w.threads[t]);
    JudgedGrows(cfg, w.served, Published(cfg, w.authority, base, w.threads[t].call.content).current);
  }

  lemma StepKeepsMeant(cfg: Config, w: World, s: Step)
    requires Inv(w) && Can(w, s) && AllMeant(cfg, w) && Judges(cfg, w)
    ensures AllMeant(cfg, Next(cfg, w, s))
  {
    hide Refreshed, Published, Right, Judged, Ordered, ThreadOk, SwapOk, Meant, Inv;
    var v := Next(cfg, w, s);
    forall u | u in v.threads ensures Meant(cfg, v.threads[u]) { ThreadStaysMeant(cfg, w, s, u); }
    SwapsStayMeant(cfg, w, s);
    AnswersStayRight(cfg, w, s);
    forall i | 0 <= i < |v.answers| ensures Right(cfg, v.served, v.answers[i]) {
      if i < |w.answers| { assert v.answers[i] == w.answers[i]; }
    }
  }

  lemma ThreadStaysMeant(cfg: Config, w: World, s: Step, u: nat)
    requires Inv(w) && Can(w, s) && AllMeant(cfg, w) && u in Next(cfg, w, s).threads
    ensures Meant(cfg, Next(cfg, w, s).threads[u])
  {
    hide Inv, AllMeant, Next, Can;
    if u in w.threads {
      ThreadIsMeant(cfg, w, u);
      ThreadIsOk(w, u);
    }
    StepMeans(cfg, w, s, u);
  }

  lemma ThreadIsOk(w: World, t: nat)
    requires Inv(w) && t in w.threads
    ensures ThreadOk(w, t)
  {
  }

  lemma StepMeans(cfg: Config, w: World, s: Step, u: nat)
    requires Can(w, s) && u in Next(cfg, w, s).threads
    requires u in w.threads ==> Meant(cfg, w.threads[u]) && ThreadOk(w, u)
    ensures Meant(cfg, Next(cfg, w, s).threads[u])
  {
    hide Refreshed, Published;
  }

  lemma SwapsStayMeant(cfg: Config, w: World, s: Step)
    requires Inv(w) && Can(w, s) && AllMeant(cfg, w)
    ensures var swaps := Next(cfg, w, s).swaps;
            forall i :: 0 <= i < |swaps| ==> Replaces(cfg, swaps[i].base, swaps[i].content)
  {
    hide Refreshed, Published, Right, Ordered, SwapOk, SameContent, ServedOk, Replaces;
    if s.Go? { assert Meant(cfg, w.threads[s.thread]) && ThreadOk(w, s.thread); }
  }

  /** What was answered stays right, and a new answer is. */
  lemma AnswersStayRight(cfg: Config, w: World, s: Step)
    requires Inv(w) && Can(w, s) && AllMeant(cfg, w)
    ensures var v := Next(cfg, w, s);
            && w.answers <= v.answers && |v.answers| <= |w.answers| + 1
            && (forall i :: 0 <= i < |w.answers| ==> Right(cfg, v.served, w.answers[i]))
            && (|v.answers| > |w.answers| ==> Right(cfg, v.served, v.answers[|w.answers|]))
  {
    hide Refreshed, Right, Ordered, SwapOk, SameContent;
    var v := Next(cfg, w, s);
    forall i | 0 <= i < |w.answers| ensures Right(cfg, v.served, w.answers[i]) {
      if v.served != w.served { MoreServed(cfg, w.served, v.authority.current, w.answers[i]); }
    }
    if s.Go? { AnswerIsRight(cfg, w, s.thread, s.readable, s.generation); }
  }

  lemma AnswerIsRight(cfg: Config, w: World, t: nat, readable: bool, generation: int)
    requires Inv(w) && Can(w, Go(t, readable, generation)) && AllMeant(cfg, w)
    ensures var v := Next(cfg, w, Go(t, readable, generation));
            |v.answers| > |w.answers| ==> Right(cfg, v.served, v.answers[|w.answers|])
  {
    hide Refreshed, Ordered, SwapOk, SameContent, AllMeant;
    assert ThreadOk(w, t);
    assert Meant(cfg, w.threads[t]) by { ThreadIsMeant(cfg, w, t); }
    LastServed(w);
  }

  lemma ThreadIsMeant(cfg: Config, w: World, t: nat)
    requires AllMeant(cfg, w) && t in w.threads
    ensures Meant(cfg, w.threads[t])
  {
  }

  lemma LastServed(w: World)
    requires ServedOk(w)
    ensures w.served != [] ==> w.authority.current in w.served
  {
  }

  lemma {:induction false} ReachedMeant(cfg: Config, file: Option<string>, steps: seq<Step>)
    ensures AllMeant(cfg, Reached(cfg, file, steps)) && Judges(cfg, Reached(cfg, file, steps))
    decreases |steps|
  {
    if steps != [] {
      hide Inv, Next, Can, AllMeant, Judges;
      var (before, s) := (Reached(cfg, file, steps[..|steps| - 1]), steps[|steps| - 1]);
      ReachedMeant(cfg, file, steps[..|steps| - 1]);
      ReachedInv(cfg, file, steps[..|steps| - 1]);
      if Can(before, s) {
        StepKeepsJudged(cfg, before, s);
        StepKeepsMeant(cfg, before, s);
      }
    }
  }

  // ------------------------------------------------------------ the file itself

  /** The content that the last writer gave the file: someone else, or a write call that had verified it. */
  function LastWritten(cfg: Config, file: Option<string>, steps: seq<Step>): Option<string> {
    if steps == [] then file
    else
      var (front, s) := (steps[..|steps| - 1], steps[|steps| - 1]);
      var w := Reached(cfg, file, front);
      if !Can(w, s) then LastWritten(cfg, file, front)
      else
        match s
        case ForeignWrite(content) => content
        case ExternalEdit(content) => content
        case Go(t, _, _) =>
          if w.threads[t].phase.Verified? && w.threads[t].call.Write? then Some(w.threads[t].call.content)
          else LastWritten(cfg, file, front)
        case _ => LastWritten(cfg, file, front)
  }

  /** After any run the file holds what its last writer wrote; a write call writes the content that it asks for. */
  lemma {:induction false} FileHoldsLastWrite(cfg: Config, file: Option<string>, steps: seq<Step>)
    ensures Reached(cfg, file, steps).file == LastWritten(cfg, file, steps)
    decreases |steps|
  {
    hide Refreshed, Published;
    if steps != [] { FileHoldsLastWrite(cfg, file, steps[..|steps| - 1]); }
  }

  /** Right after a write has replaced the file, it holds the content that the write asked for, which is valid. */
  lemma SwapWrites(cfg: Config, file: Option<string>, steps: seq<Step>, s: Step)
    requires |Reached(cfg, file, steps + [s]).swaps| > |Reached(cfg, file, steps).swaps|
    ensures var (w, v) := (Reached(cfg, file, steps), Reached(cfg, file, steps + [s]));
            && v.swaps[..|w.swaps|] == w.swaps && |v.swaps| == |w.swaps| + 1
            && v.file == Some(v.swaps[|w.swaps|].content) && cfg.valid(v.swaps[|w.swaps|].content)
            && v.file != ContentOf(v.swaps[|w.swaps|].base)
  {
    hide Refreshed, Published, AllMeant, Judges;
    assert (steps + [s])[..|steps|] == steps;
    ReachedMeant(cfg, file, steps + [s]);
    SwapIsMeant(cfg, Reached(cfg, file, steps + [s]));
  }

  lemma SwapIsMeant(cfg: Config, w: World)
    requires AllMeant(cfg, w)
    ensures forall i :: 0 <= i < |w.swaps| ==> Replaces(cfg, w.swaps[i].base, w.swaps[i].content)
  {
  }

  /**
   Every answer of every run is the right one: a write is "ok" with a served state that holds its valid content, at
   the revision it asked for if nothing had to be written and at a later one otherwise; "invalid" for a content that
   is not valid; a "conflict" if its revision is not the served one, or if the file differed from it under the lock.
   Served states are judged as their content deserves.
   */
  lemma AnswersAreRight(cfg: Config, file: Option<string>, steps: seq<Step>, i: nat, k: nat)
    requires i < |Reached(cfg, file, steps).answers| && k < |Reached(cfg, file, steps).served|
    ensures var w := Reached(cfg, file, steps); Right(cfg, w.served, w.answers[i]) && Judged(cfg, w.served[k])
  {
    hide Reached, Right, Judged;
    ReachedMeant(cfg, file, steps);
  }

  lemma OneMoreStep(cfg: Config, file: Option<string>, steps: seq<Step>, s: Step)
    requires Can(Reached(cfg, file, steps), s)
    ensures Reached(cfg, file, steps + [s]) == Next(cfg, Reached(cfg, file, steps), s)
  {
    hide Next, Can;
    assert (steps + [s])[..|steps|] == steps;
  }

  // ------------------------------------------------------- what a refresh shows

  /** What reading this content gives. */
  predicate Tells(r: Reading, content: Option<string>, readable: bool) {
    match r
    case Missing => content.None?
    case Failed => content.Some? && !readable
    case Content(raw) => content == Some(raw) && readable
  }

  /** Step `n` is the last one that thread `t` took, and read the file. */
  predicate LastReadAt(cfg: Config, file: Option<string>, steps: seq<Step>, n: nat, t: nat, r: Reading) {
    && n < |steps| && steps[n].Go? && steps[n].thread == t
    && Tells(r, Reached(cfg, file, steps[..n]).file, steps[n].readable)
    && forall m :: n < m < |steps| ==> !(steps[m].Go? && steps[m].thread == t)
  }

  function Read(p: Phase): Option<Reading> {
    match p
    case Fetched(r) => Some(r)
    case Refetched(_, _, r) => Some(r)
    case _ => None
  }

  lemma StepReads(cfg: Config, w: World, s: Step, t: nat)
    requires Can(w, s) && t in Next(cfg, w, s).threads && Read(Next(cfg, w, s).threads[t].phase).Some?
    ensures var r := Read(Next(cfg, w, s).threads[t].phase);
            if s.Go? && s.thread == t then Tells(r.value, w.file, s.readable)
            else t in w.threads && Read(w.threads[t].phase) == r
  {
    hide Refreshed, Published;
  }

  lemma {:induction false} ReadingWasRead(cfg: Config, file: Option<string>, steps: seq<Step>, t: nat)
      returns (n: nat)
    requires t in Reached(cfg, file, steps).threads && Read(Reached(cfg, file, steps).threads[t].phase).Some?
    ensures LastReadAt(cfg, file, steps, n, t, Read(Reached(cfg, file, steps).threads[t].phase).value)
    decreases |steps|
  {
    hide Next, Tells, Read;
    n := 0;
    if steps != [] {
      var (front, s) := (steps[..|steps| - 1], steps[|steps| - 1]);
      if Can(Reached(cfg, file, front), s) { StepReads(cfg, Reached(cfg, file, front), s, t); }
      if s.Go? && s.thread == t && Can(Reached(cfg, file, front), s) {
        n := |steps| - 1;
      } else {
        n := ReadingWasRead(cfg, file, front, t);
        assert front[..n] == steps[..n];
        if s.Go? && s.thread == t { ReadersCanGo(Reached(cfg, file, front), s); }
      }
    }
  }

  lemma ReadersCanGo(w: World, s: Step)
    requires s.Go? && s.thread in w.threads && Read(w.threads[s.thread].phase).Some?
    ensures Can(w, s)
  {
  }

  /** The state is that of this content; it has no text if it could not be read. */
  predicate Shows(st: State, content: Option<string>, readable: bool) {
    st.present == content.Some? && st.raw == if content.Some? && readable then content.value else ""
  }

  lemma RefreshShowsReading(cfg: Config, w: World, r: Reading, generation: int, content: Option<string>, readable: bool)
    requires ServedOk(w) && Tells(r, content, readable)
    ensures var st := Refreshed(cfg, w.authority, r, generation).current;
            && Shows(st, content, readable) && st.generation == generation
            && (w.served != [] ==>
                  (st.revision == w.authority.current.revision <==> SameContent(st, w.authority.current)))
  {
  }

  /** The state that a call serves after it has read the file is that of the file as it was when it was read, composed
      for the generation that is current now; its revision is a new one exactly if its content is. */
  lemma RefreshServesTheFile(cfg: Config, file: Option<string>, steps: seq<Step>, s: Step) returns (n: nat)
    requires s.Go? && s.thread in Reached(cfg, file, steps).threads
    requires Read(Reached(cfg, file, steps).threads[s.thread].phase).Some?
    ensures n < |steps| && steps[n].Go? && steps[n].thread == s.thread
    ensures forall m :: n < m < |steps| ==> !(steps[m].Go? && steps[m].thread == s.thread)
    ensures var (w, v) := (Reached(cfg, file, steps), Reached(cfg, file, steps + [s]));
            && v.served == w.served + [v.authority.current]
            && Shows(v.authority.current, Reached(cfg, file, steps[..n]).file, steps[n].readable)
            && v.authority.current.generation == s.generation
            && (w.served != [] ==>
                  (v.authority.current.revision == w.authority.current.revision
                   <==> SameContent(v.authority.current, w.authority.current)))
  {
    hide Refreshed, Published, Reached, Shows, Tells, ThreadOk, SwapOk, Ordered;
    var w := Reached(cfg, file, steps);
    n := ReadingWasRead(cfg, file, steps, s.thread);
    ReachedInv(cfg, file, steps);
    OneMoreStep(cfg, file, steps, s);
    RefreshShowsReading(cfg, w, Read(w.threads[s.thread].phase).value, s.generation,
                        Reached(cfg, file, steps[..n]).file, steps[n].readable);
  }

  // ------------------------------------------------------ an undisturbed write

  /** The world after `n` more steps of one thread, which can read the file. */
  function Alone(cfg: Config, w: World, t: nat, generation: int, n: nat): World
    decreases n
  {
    var s := Go(t, true, generation);
    if n == 0 || !Can(w, s) then w else Alone(cfg, Next(cfg, w, s), t, generation, n - 1)
  }

  lemma OneStep(cfg: Config, w: World, t: nat, generation: int, n: nat)
    requires n > 0 && Can(w, Go(t, true, generation))
    ensures Alone(cfg, w, t, generation, n) == Alone(cfg, Next(cfg, w, Go(t, true, generation)), t, generation, n - 1)
  {
    hide Next, Can;
  }

  lemma GoneStays(cfg: Config, w: World, t: nat, generation: int, n: nat)
    requires t !in w.threads
    ensures Alone(cfg, w, t, generation, n) == w
  {
  }

  /** What a call that has ended leaves, next to what it did. */
  predicate Ended(w: World, e: World, t: nat, served: seq<State>, file: Option<string>, outcome: Outcome)
    requires t in w.threads
  {
    && t !in e.threads && e.lock == Free && e.served == served && e.file == file && served != []
    && e.answers == w.answers + [Answer(w.threads[t].call, outcome, served[|served| - 1])]
  }

  lemma WriterCompletes(cfg: Config, w: World, t: nat, generation: int, base: State)
    requires t in w.threads && w.threads[t].call.Write? && w.threads[t].phase == Locking(base) && w.lock.Free?
    requires ContentOf(base) == w.file
    ensures var content := w.threads[t].call.content;
            Ended(w, Alone(cfg, w, t, generation, 5), t,
                  w.served + [Published(cfg, w.authority, base, content).current], Some(content), Written)
  {
    hide Alone, Published;
    var content := w.threads[t].call.content;
    OneStep(cfg, w, t, generation, 5);
    var w1 := Enter(w, t, Holding(base)).(lock := Ours(t));
    OneStep(cfg, w1, t, generation, 4);
    var w2 := Enter(w1, t, Verified(base, None));
    assert Next(cfg, w1, Go(t, true, generation)) == w2;
    OneStep(cfg, w2, t, generation, 3);
    var swap := Swap(w.threads[t].call.revision, content, base, w.file, None);
    var w3 := Enter(w2.(file := Some(content), swaps := w.swaps + [swap]), t, Replaced(base));
    assert Next(cfg, w2, Go(t, true, generation)) == w3;
    ReplacerCompletes(cfg, w3, t, generation, base);
  }

  lemma ReplacerCompletes(cfg: Config, w: World, t: nat, generation: int, base: State)
    requires t in w.threads && w.threads[t].call.Write? && w.threads[t].phase == Replaced(base) && w.lock == Ours(t)
    ensures Ended(w, Alone(cfg, w, t, generation, 2), t,
                  w.served + [Published(cfg, w.authority, base, w.threads[t].call.content).current], w.file, Written)
  {
    hide Alone, Published;
    OneStep(cfg, w, t, generation, 2);
    var w1 := Enter(w, t, Released(base)).(lock := Free);
    OneStep(cfg, w1, t, generation, 1);
    GoneStays(cfg, Next(cfg, w1, Go(t, true, generation)), t, generation, 0);
  }

  /** What an undisturbed write is answered with, given the state that it finds when it has read the file. */
  function OutcomeOf(cfg: Config, st: State, call: Call): Outcome
    requires call.Write?
  {
    if call.revision != st.revision then Stale
    else if !cfg.valid(call.content) then Invalid
    else if ContentOf(st) == Some(call.content) then Same
    else Written
  }

  /** A write that starts with the lock free, and that nobody disturbs, first serves a state of the file as it is. It
      is then answered as that state deserves; if its revision is that of this state and its content is valid, the file
      holds this content in the end, and otherwise what it held before. */
  lemma UndisturbedWrite(cfg: Config, file: Option<string>, steps: seq<Step>, t: nat, generation: int)
    requires var w := Reached(cfg, file, steps);
             t in w.threads && w.threads[t].call.Write? && w.threads[t].phase.Starting? && w.lock.Free?
    ensures var w := Reached(cfg, file, steps);
            var (e, call) := (Alone(cfg, w, t, generation, 7), w.threads[t].call);
            && |w.served| < |e.served| && Shows(e.served[|w.served|], w.file, true)
            && var st := e.served[|w.served|];
               var outcome := OutcomeOf(cfg, st, call);
               && Ended(w, e, t, e.served, if outcome.Written? then Some(call.content) else w.file, outcome)
               && |e.served| == |w.served| + if outcome.Written? then 2 else 1
  {
    hide Reached, Alone, Refreshed, Published, ThreadOk, SwapOk, Ordered;
    var w := Reached(cfg, file, steps);
    ReachedInv(cfg, file, steps);
    var r := ReadFile(w, true);
    RefreshShowsReading(cfg, w, r, generation, w.file, true);
    OneStep(cfg, w, t, generation, 7);
    var w1 := Enter(w, t, Fetched(r));
    OneStep(cfg, w1, t, generation, 6);
    var w2 := Serve(w1, Refreshed(cfg, w.authority, r, generation));
    var st := w2.authority.current;
    assert w2.served == w.served + [st] && w2.served[|w.served|] == st;
    DecisionCompletes(cfg, w2, t, generation);
  }

  /** A query that starts, and that nobody disturbs, is answered with a state of the file as it is. */
  lemma UndisturbedQuery(cfg: Config, file: Option<string>, steps: seq<Step>, t: nat, generation: int)
    requires var w := Reached(cfg, file, steps);
             t in w.threads && w.threads[t].call.Query? && w.threads[t].phase.Starting?
    ensures var w := Reached(cfg, file, steps);
            var e := Alone(cfg, w, t, generation, 2);
            && |e.served| == |w.served| + 1 && Shows(e.served[|w.served|], w.file, true)
            && t !in e.threads && e.file == w.file && e.lock == w.lock
            && e.answers == w.answers + [Answer(Query, Queried, e.served[|w.served|])]
  {
    hide Reached, Alone, Refreshed, Published, SwapOk, Ordered;
    var w := Reached(cfg, file, steps);
    ReachedInv(cfg, file, steps);
    assert ThreadOk(w, t);
    var r := ReadFile(w, true);
    RefreshShowsReading(cfg, w, r, generation, w.file, true);
    OneStep(cfg, w, t, generation, 2);
    var w1 := Enter(w, t, Fetched(r));
    OneStep(cfg, w1, t, generation, 1);
    GoneStays(cfg, Next(cfg, w1, Go(t, true, generation)), t, generation, 0);
  }

  lemma DecisionCompletes(cfg: Config, w: World, t: nat, generation: int)
    requires t in w.threads && w.threads[t].call.Write? && w.lock.Free? && w.threads[t].phase.Fetched?
    requires w.served != [] && w.served[|w.served| - 1] == w.authority.current
    requires Shows(w.authority.current, w.file, true)
    ensures var e := Alone(cfg, Decide(cfg, w, t), t, generation, 5);
            var outcome := OutcomeOf(cfg, w.authority.current, w.threads[t].call);
            && w.served <= e.served && |e.served| == |w.served| + (if outcome.Written? then 1 else 0)
            && Ended(w, e, t, e.served, if outcome.Written? then Some(w.threads[t].call.content) else w.file, outcome)
  {
    hide Alone;
    var v := Decide(cfg, w, t);
    var call := w.threads[t].call;
    if OutcomeOf(cfg, w.authority.current, call).Written? {
      WriterCompletes(cfg, v, t, generation, w.authority.current);
    } else {
      GoneStays(cfg, v, t, generation, 5);
    }
  }

  // --------------------------------------------------------------- theorems

  /** Over every interleaving of queries, writes, failures and edits by others, served revisions start at 0, never
      decrease and skip none, and an equal revision means an equal content. */
  lemma RevisionsNameContents(cfg: Config, file: Option<string>, steps: seq<Step>)
    ensures Ordered(Reached(cfg, file, steps).served)
  {
    hide Reached, Ordered;
    ReachedInv(cfg, file, steps);
  }

  /** A write that replaces the file was asked for at some served revision, and replaces exactly the content that
      was served at that revision, if and only if nobody edited the file without the lock after it had been verified,
      or the last such edit wrote that same content. */
  lemma CompareAndSwap(cfg: Config, file: Option<string>, steps: seq<Step>, i: nat, k: nat)
    requires var w := Reached(cfg, file, steps); i < |w.served| && k < |w.swaps|
    requires var w := Reached(cfg, file, steps); w.swaps[k].asked == w.served[i].revision
    ensures var w := Reached(cfg, file, steps); var edited := w.swaps[k].edited;
            w.swaps[k].replaced == ContentOf(w.served[i]) <==> edited.None? || edited.value == ContentOf(w.served[i])
  {
    hide Reached, ThreadOk;
    ReachedInv(cfg, file, steps);
    var w := Reached(cfg, file, steps);
    assert SwapOk(w, w.swaps[k]);
    var j :| 0 <= j < |w.served| && w.served[j] == w.swaps[k].base;
    var (a, b) := if i <= j then (i, j) else (j, i);
    assert w.served[a].revision <= w.served[b].revision;
  }

  /** An edit that does not take the lock, between the check and the replacement, is lost: the file then holds what
      was written over it. */
  lemma UnlockedEditIsLost(cfg: Config) returns (steps: seq<Step>)
    requires cfg.valid("a")
    ensures var w := Reached(cfg, None, steps);
            |w.swaps| == 1 && w.swaps[0].replaced == Some("b") && ContentOf(w.swaps[0].base) == None &&
                w.swaps[0].edited == Some(Some("b")) && w.file == Some("a")
  {
    hide Reached;
    var go := Go(0, true, 0);
    steps := [];
    NoStepsYet(cfg, None);
    OneMoreStep(cfg, None, steps, Step.Call(0, Write(0, "a")));
    steps := steps + [Step.Call(0, Write(0, "a"))];
    OneMoreStep(cfg, None, steps, go);
    steps := steps + [go];
    OneMoreStep(cfg, None, steps, go);
    steps := steps + [go];
    assert Reached(cfg, None, steps).threads[0].phase == Locking(State(0, false, "", NoProblem, 0));
    OneMoreStep(cfg, None, steps, go);
    steps := steps + [go];
    OneMoreStep(cfg, None, steps, go);
    steps := steps + [go];
    assert Reached(cfg, None, steps).threads[0].phase == Verified(State(0, false, "", NoProblem, 0), None);
    OneMoreStep(cfg, None, steps, ExternalEdit(Some("b")));
    steps := steps + [ExternalEdit(Some("b"))];
    OneMoreStep(cfg, None, steps, go);
    steps := steps + [go];
  }

  lemma NoStepsYet(cfg: Config, file: Option<string>)
    ensures Reached(cfg, file, []) == World(file, Free, START, map[], [], [], [])
  {
  }
}
