/** The life of the worker: a generation that fails is replaced by another, until the authority ends. */
module LedgerWorker {
  import opened Options
  import opened Ledger
  import opened LedgerRuns
  import opened LedgerBalance
  import opened LedgerOrder
  import opened LedgerReplay

  /** Generations are numbered as they are started. */
  predicate WellNumbered(s: State) { s.worker.current.Some? ==> s.worker.current.value < s.worker.generations }

  lemma StepKeepsNumbers(cfg: Config, s: State, a: Action)
    requires Queued(s) && WellNumbered(s)
    ensures WellNumbered(Step(cfg, s, a)) && s.worker.generations <= Step(cfg, s, a).worker.generations
  {
    hide Queued, Observe, OpenArtifact, AppendArtifact, FinishArtifact, Close, Begin, RuntimeEventOffered, EntryIndex,
         FlightIndex;
    if a.DoBegin? || a.DoObserve? || a.DoOpen? || a.DoAppend? || a.DoFinish? || a.DoClose? || a.DoRuntimeEvent? {
      HandlerGrows(cfg, s, a);
    }
  }

  lemma {:induction false} RunKeepsNumbers(cfg: Config, actions: seq<Action>)
    requires Legal(cfg, actions)
    ensures WellNumbered(After(cfg, actions))
    decreases |actions|
  {
    hide Step, Queued;
    if actions != [] {
      RunKeepsNumbers(cfg, actions[..|actions| - 1]);
      QueueIsOrdered(cfg, actions[..|actions| - 1]);
      StepKeepsNumbers(cfg, After(cfg, actions[..|actions| - 1]), actions[|actions| - 1]);
    }
  }

  /** The current generation fails, or answers for a message that is not pending. */
  predicate Fails(s: State, a: Action) {
    match a
    case DoFail(g) => s.worker.current == Some(g)
    case DoSettle(g, key, _, _) => s.worker.current == Some(g) && (key.None? || !HasKey(s.pending, key.value))
    case _ => false
  }

  lemma NoIndex(entries: seq<Entry>, k: Key)
    ensures EntryIndex(entries, k) < |entries| <==> HasKey(entries, k)
  {
    hide KeyOf;
    if EntryIndex(entries, k) < |entries| { assert entries[EntryIndex(entries, k)].Key() == k; }
  }

  /** Nothing but the worker is touched. */
  predicate OnlyWorker(s: State, s': State) {
    s'.pending == s.pending && s'.journeys == s.journeys && s'.history.log == s.history.log &&
    s'.ordinary == s.ordinary && s'.reserved == s.reserved && s'.sealReserved == s.sealReserved &&
    s'.flightBytes == s.flightBytes
  }

  /** The generation that replaces a failed one, from its start until it is ready. */
  ghost predicate Replaced(cfg: Config, s: State, failed: State) {
    && OnlyWorker(s, failed) && failed.worker.current.None? && failed.worker.restartScheduled
    && var (started, h) := (Step(cfg, failed, DoStart(true)), s.worker.generations);
       && OnlyWorker(s, started) && started.worker.current == Some(h) && !started.worker.ready
       && var ready := Step(cfg, started, DoReady(h));
          OnlyWorker(s, ready) && ready.Live() && ready.history.posted == s.pending
  }

  /** While the authority serves, a generation that fails is replaced: a new one is started, with a number that none had
      before, and once it is ready it has been handed all that is pending, in order. If it cannot be started, the
      authority gives up. */
  lemma FailureIsSurvived(cfg: Config, actions: seq<Action>, a: Action)
    requires Legal(cfg, actions) && After(cfg, actions).Serving() && Fails(After(cfg, actions), a)
    ensures var s := After(cfg, actions); var failed := Step(cfg, s, a);
            && Replaced(cfg, s, failed) && s.worker.current.value < s.worker.generations
            && GivenUp(Step(cfg, failed, DoStart(false)))
  {
    hide After, Legal, Replaced, GivenUp;
    RunKeepsNumbers(cfg, actions);
    var s := After(cfg, actions);
    FailingRestarts(cfg, s, a);
    RestartedIsReplaced(cfg, s, s.worker.current.value);
  }

  lemma FailingRestarts(cfg: Config, s: State, a: Action)
    requires Fails(s, a)
    ensures s.worker.current.Some? && Step(cfg, s, a) == Restart(s, s.worker.current.value)
  {
    hide HasKey;
    if a.DoSettle? && a.key.Some? { NoIndex(s.pending, a.key.value); }
  }

  lemma RestartedIsReplaced(cfg: Config, s: State, g: nat)
    requires s.Serving() && s.worker.current == Some(g)
    ensures Replaced(cfg, s, Restart(s, g)) && GivenUp(Step(cfg, Restart(s, g), DoStart(false)))
  {
    hide SumHeld;
  }

  /** The authority holds nothing any more, and takes nothing. */
  predicate GivenUp(s: State) {
    !s.Serving() && s.pending == [] && s.journeys == map[] && s.ordinary == 0 && s.reserved == 0 && s.sealReserved == 0
  }

  /** The authority ends when the first generation fails to start, or a later one cannot be started, and when it is shut
      down: after its queue has drained, or its time has run out, it holds nothing and has no worker. */
  lemma EndIsFinal(cfg: Config, actions: seq<Action>, g: nat)
    requires Legal(cfg, actions)
    ensures var s := After(cfg, actions);
            && (s.Serving() && s.worker.current == Some(g) ==> GivenUp(Step(cfg, s, DoStartupFailure(g))))
            && (!Step(cfg, s, DoBeginShutdown).Serving() && Step(cfg, s, DoBeginShutdown).journeys == map[])
            && (s.closed ==> GivenUp(Step(cfg, s, DoEndShutdown)) && Step(cfg, s, DoEndShutdown).worker.current.None?)
  {
    hide After, Legal, Balanced, SumHeld;
    LedgerIsExact(cfg, actions);
  }

  /** Once the authority does not serve any more, it never does again, opens no journey and takes no message. */
  lemma NothingAfterTheEnd(cfg: Config, actions: seq<Action>, a: Action)
    requires Legal(cfg, actions) && !After(cfg, actions).Serving()
    ensures var (s, s') := (After(cfg, actions), Step(cfg, After(cfg, actions), a));
            !s'.Serving() && s'.journeys == map[] && s'.history.log == s.history.log
  {
    hide After, Legal, Balanced, SumHeld, EntryIndex, FlightIndex, Admit, AdmitFor, AppendChunks, PrepareClose,
         SealClose;
    LedgerIsExact(cfg, actions);
  }
}
