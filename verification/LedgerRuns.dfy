/** The actions that drive the authority, and its runs. */
module LedgerRuns {
  import opened Options
  import opened Ledger

  datatype Action =
    | DoBegin(id: RequestId, captureAll: bool, captureFailed: bool)
    | DoObserve(id: RequestId, fact: Fact, reading: Reading)
    | DoOpen(id: RequestId, artifact: ArtifactId, reading: Reading, original: Option<nat>)
    | DoAppend(id: RequestId, artifact: ArtifactId, bytes: seq<Byte>)
    | DoFinish(id: RequestId, artifact: ArtifactId, finish: FinishInput)
    | DoClose(id: RequestId, input: CloseInput, course: Course)
    | DoRuntimeEvent(clock: bool)
    | DoSettle(generation: nat, key: Option<Key>, accepted: bool, classification: string)
    | DoReady(generation: nat)
    | DoFail(generation: nat)
    | DoStartupFailure(generation: nat)
    | DoStart(started: bool)
    | DoBeginShutdown
    | DoEndShutdown

  ghost function Step(cfg: Config, s: State, a: Action): State {
    match a
    case DoBegin(id, all, failed) => Begin(cfg, s, id, all, failed).0
    case DoObserve(id, fact, reading) => Observe(cfg, s, id, fact, reading)
    case DoOpen(id, artifact, reading, original) => OpenArtifact(cfg, s, id, artifact, reading, original).0
    case DoAppend(id, artifact, bytes) => AppendArtifact(cfg, s, id, artifact, bytes)
    case DoFinish(id, artifact, finish) => FinishArtifact(cfg, s, id, artifact, finish)
    case DoClose(id, input, course) => Close(cfg, s, id, input, course)
    case DoRuntimeEvent(clock) => RuntimeEventOffered(cfg, s, clock)
    case DoSettle(g, key, accepted, classification) => Settle(s, g, key, accepted, classification)
    case DoReady(g) => Ready(s, g)
    case DoFail(g) => Restart(s, g)
    case DoStartupFailure(g) => StartupFailure(s, g)
    case DoStart(started) => StartWorker(s, started)
    case DoBeginShutdown => BeginShutdown(s)
    case DoEndShutdown => EndShutdown(s)
  }

  /** Request identifiers are not used again once their journey has ended. */
  predicate Fresh(s: State, a: Action) {
    a.DoBegin? && a.id in s.history.used ==> a.id in s.journeys
  }

  /** The state after a run of actions. */
  ghost function After(cfg: Config, actions: seq<Action>): State {
    if actions == [] then Initial
    else Step(cfg, After(cfg, actions[..|actions| - 1]), actions[|actions| - 1])
  }

  ghost predicate Legal(cfg: Config, actions: seq<Action>) {
    actions == [] ||
    (Legal(cfg, actions[..|actions| - 1]) && Fresh(After(cfg, actions[..|actions| - 1]), actions[|actions| - 1]))
  }

  lemma AfterOneMore(cfg: Config, actions: seq<Action>, a: Action)
    ensures After(cfg, actions + [a]) == Step(cfg, After(cfg, actions), a)
    ensures Legal(cfg, actions + [a]) <==> Legal(cfg, actions) && Fresh(After(cfg, actions), a)
  {
    hide Step;
    assert (actions + [a])[..|actions + [a]| - 1] == actions;
  }

  lemma {:induction false} LegalPrefix(cfg: Config, a: seq<Action>, b: seq<Action>)
    requires Legal(cfg, a + b)
    ensures Legal(cfg, a)
    decreases |b|
  {
    hide Step;
    if b == [] {
      assert a + b == a;
    } else {
      assert (a + b)[..|a + b| - 1] == a + b[..|b| - 1];
      LegalPrefix(cfg, a, b[..|b| - 1]);
    }
  }
}
