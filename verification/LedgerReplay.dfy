/** Worker generations: what each is handed, and how messages leave the queue. */
module LedgerReplay {
  import opened Options
  import opened Ledger
  import opened LedgerRuns
  import opened LedgerOrder

  /** An operation of a request handler, or an internal failure that posts nothing. */
  lemma HandlerGrows(cfg: Config, s: State, a: Action)
    requires Queued(s)
    requires a.DoBegin? || a.DoObserve? || a.DoOpen? || a.DoAppend? || a.DoFinish? || a.DoClose? || a.DoRuntimeEvent?
    ensures Grows(s, Step(cfg, s, a))
  {
    hide Queued, Begin, Observe, OpenArtifact, AppendArtifact, FinishArtifact, Close, RuntimeEventOffered;
    match a
    case DoBegin(id, all, failed) => BeginGrows(cfg, s, id, all, failed);
    case DoObserve(id, fact, reading) => ObserveGrows(cfg, s, id, fact, reading);
    case DoOpen(id, artifact, reading, original) => OpenGrows(cfg, s, id, artifact, reading, original);
    case DoAppend(id, artifact, bytes) => AppendGrows(cfg, s, id, artifact, bytes);
    case DoFinish(id, artifact, finish) => FinishGrows(cfg, s, id, artifact, finish);
    case DoClose(id, input, course) => CloseGrows(cfg, s, id, input, course);
    case DoRuntimeEvent(clock) => RuntimeEventGrows(cfg, s, clock);
  }

  lemma ObserveGrows(cfg: Config, s: State, id: RequestId, fact: Fact, reading: Reading)
    ensures Grows(s, Observe(cfg, s, id, fact, reading))
  {
    hide AdmitFor;
    if s.Serving() && id in s.journeys {
      var j := Observed(s.journeys[id]);
      AdmitForGrows(cfg, OfferFact(s, id, fact), Append(id, j.sequence, FactPayload(fact)), j, id, j.sequence);
    }
  }

  lemma OpenGrows(cfg: Config, s: State, id: RequestId, a: ArtifactId, reading: Reading, original: Option<nat>)
    ensures Grows(s, OpenArtifact(cfg, s, id, a, reading, original).0)
  {
    hide AdmitFor, FlightIndex;
    if s.Serving() && id in s.journeys {
      var j := Observed(s.journeys[id]);
      AdmitForGrows(cfg, OfferArtifact(s, id, a), ArtifactBegin(id, a, OpenDescriptor(a, original)), j, id, j.sequence);
    }
  }

  lemma FinishGrows(cfg: Config, s: State, id: RequestId, a: ArtifactId, input: FinishInput)
    ensures Grows(s, FinishArtifact(cfg, s, id, a, input))
  {
    hide AdmitFor, FlightIndex;
    if id in s.journeys && HasFlight(s.journeys[id].artifacts, a) && input.Finish? {
      var j := s.journeys[id];
      AdmitForGrows(cfg, s, FinishMessage(id, j.artifacts[FlightIndex(j.artifacts, a)], input), j, id, j.sequence);
    }
  }

  lemma AdmitForGrows(cfg: Config, s: State, m: Message, j: Journey, id: RequestId, q: nat)
    requires About(m, id, q)
    ensures Grows(s, AdmitFor(cfg, s, m, j).0)
  {
    AdmitForExtends(cfg, s, m, j, id, q);
  }

  lemma BeginGrows(cfg: Config, s: State, id: RequestId, captureAll: bool, captureFailed: bool)
    ensures Grows(s, Begin(cfg, s, id, captureAll, captureFailed).0)
  {
  }

  lemma RuntimeEventGrows(cfg: Config, s: State, clock: bool)
    ensures Grows(s, RuntimeEventOffered(cfg, s, clock))
  {
  }

  lemma AppendGrows(cfg: Config, s: State, id: RequestId, a: ArtifactId, bytes: seq<Byte>)
    ensures Grows(s, AppendArtifact(cfg, s, id, a, bytes))
  {
    hide AppendChunks, FlightIndex;
    if id in s.journeys && HasFlight(s.journeys[id].artifacts, a) {
      var j := s.journeys[id];
      var f := j.artifacts[FlightIndex(j.artifacts, a)];
      var s1 := RecordAppend(s, id, a, bytes);
      AppendChunksExtends(cfg, s1, id, j, f, bytes[..Accepted(cfg, s1, j, f, |bytes|)]);
    }
  }

  lemma CloseGrows(cfg: Config, s: State, id: RequestId, input: CloseInput, course: Course)
    requires Queued(s)
    ensures Grows(s, Close(cfg, s, id, input, course))
  {
    hide Queued, PrepareClose, SealClose, CourseTaken;
    if s.Serving() && id in s.journeys {
      var taken := CourseTaken(s.journeys[id], input, course);
      ExtractFlights(s, id);
      PrepareCloseExtends(cfg, s, id, input, taken);
      var (s1, j1, seal) := PrepareClose(cfg, s, id, input, taken);
      SealGrows(cfg, s1, id, j1, seal, taken);
      GrowsTrans(s, s1, SealClose(cfg, s1, id, j1, seal, taken).0);
    }
  }

  // ------------------------------------------------------------- departures

  /** The authority has given up its queue: it failed for good, or shut down. */
  predicate Abandoned(s: State, s': State, a: Action) {
    (s'.unavailable && !s.unavailable) || (a.DoEndShutdown? && s.closed)
  }

  /** The current generation acknowledges or rejects the message of this entry. */
  predicate SettledBy(s: State, e: Entry, a: Action) {
    a.DoSettle? && s.worker.current == Some(a.generation) && a.key == Some(e.Key())
  }

  /**
   Whatever happens, a message leaves the queue only when the current generation settles it, or when the
   authority gives up its queue; the messages that stay keep their order, ahead of those newly admitted.
   */
  lemma MessagesStayUntilSettled(cfg: Config, s: State, a: Action, e: Entry)
    requires Queued(s) && e in s.pending
    ensures e in Step(cfg, s, a).pending || SettledBy(s, e, a) || Abandoned(s, Step(cfg, s, a), a)
    ensures s.history.log <= Step(cfg, s, a).history.log
  {
    hide Queued, Observe, OpenArtifact, AppendArtifact, FinishArtifact, Close, Begin, RuntimeEventOffered, Settle;
    if a.DoBegin? || a.DoObserve? || a.DoOpen? || a.DoAppend? || a.DoFinish? || a.DoClose? || a.DoRuntimeEvent? {
      HandlerGrows(cfg, s, a);
    } else if a.DoSettle? {
      SettleKeepsLog(s, a.generation, a.key, a.accepted, a.classification);
      if !SettledBy(s, e, a) { OthersStay(s, a.generation, a.key, a.accepted, a.classification, e); }
    }
  }

  lemma SettleKeepsLog(s: State, g: nat, key: Option<Key>, accepted: bool, classification: string)
    ensures Settle(s, g, key, accepted, classification).history.log == s.history.log
  {
    hide FlightIndex;
  }

  lemma OthersStay(s: State, g: nat, key: Option<Key>, accepted: bool, classification: string, e: Entry)
    requires Queued(s) && e in s.pending && !(s.worker.current == Some(g) && key == Some(e.Key()))
    ensures e in Settle(s, g, key, accepted, classification).pending
  {
    hide Queued, FlightIndex, EntryIndex, HasFlight;
    if s.worker.current == Some(g) && key.Some? && EntryIndex(s.pending, key.value) < |s.pending| {
      var i := EntryIndex(s.pending, key.value);
      var k :| 0 <= k < |s.pending| && s.pending[k] == e;
      var kept := s.pending[..i] + s.pending[i + 1..];
      assert k != i && kept[if k < i then k else k - 1] == e;
    }
  }

  /** An action that leaves generation `g` current and ready, and is not a new report of readiness. */
  ghost predicate Serves(cfg: Config, s: State, a: Action, g: nat) {
    s.Live() && s.worker.current == Some(g) && !a.DoReady? && Step(cfg, s, a).worker.current == Some(g) &&
        Step(cfg, s, a).Live()
  }

  lemma ServedGrows(cfg: Config, s: State, a: Action, g: nat)
    requires Queued(s) && Serves(cfg, s, a, g)
    ensures var s' := Step(cfg, s, a);
            s.history.log <= s'.history.log && s'.history.posted == s.history.posted + Added(s, s')
  {
    hide Queued, Observe, OpenArtifact, AppendArtifact, FinishArtifact, Close, Begin, RuntimeEventOffered;
    if a.DoBegin? || a.DoObserve? || a.DoOpen? || a.DoAppend? || a.DoFinish? || a.DoClose? || a.DoRuntimeEvent? {
      HandlerGrows(cfg, s, a);
    }
  }

  ghost predicate ServesAll(cfg: Config, actions: seq<Action>, more: seq<Action>, g: nat) {
    forall i :: 0 <= i < |more| ==> Serves(cfg, After(cfg, actions + more[..i]), more[i], g)
  }

  /**
   From the moment generation `g` reports ready, for as long as it serves, it is handed every message that
   was pending then, followed by every message admitted since, each once and in the order of admission.
   */
  lemma {:induction false} GenerationIsHandedEverything(cfg: Config, actions: seq<Action>, g: nat, more: seq<Action>)
    requires After(cfg, actions).worker.current == Some(g)
    requires Legal(cfg, actions + [DoReady(g)] + more) && ServesAll(cfg, actions + [DoReady(g)], more, g)
    ensures var (atReady, now) := (After(cfg, actions), After(cfg, actions + [DoReady(g)] + more));
            && atReady.history.log <= now.history.log
            && now.history.posted == atReady.pending + Added(atReady, now)
            && (forall i, k :: 0 <= i < k < |now.history.posted| ==>
                 now.history.posted[i].stamp < now.history.posted[k].stamp)
    decreases |more|
  {
    hide After, Step, Legal, Queued, Serves;
    var (ready, s) := (actions + [DoReady(g)], After(cfg, actions));
    AfterOneMore(cfg, actions, DoReady(g));
    LegalPrefix(cfg, ready, more);
    LegalPrefix(cfg, actions, [DoReady(g)]);
    QueueIsOrdered(cfg, actions);
    QueueIsOrdered(cfg, ready + more);
    if more == [] {
      assert ready + more == ready;
      ReadyHandsPending(cfg, s, g);
    } else {
      var (rest, a) := (more[..|more| - 1], more[|more| - 1]);
      assert ready + more == ready + rest + [a];
      assert forall i :: 0 <= i < |rest| ==> rest[..i] == more[..i];
      AfterOneMore(cfg, ready + rest, a);
      GenerationIsHandedEverything(cfg, actions, g, rest);
      QueueIsOrdered(cfg, ready + rest);
      var before := After(cfg, ready + rest);
      ServedGrows(cfg, before, a, g);
      assert Added(s, Step(cfg, before, a)) == Added(s, before) + Added(before, Step(cfg, before, a));
    }
    HandedInOrder(s, After(cfg, ready + more));
  }

  lemma ReadyHandsPending(cfg: Config, s: State, g: nat)
    requires s.worker.current == Some(g)
    ensures var s' := Step(cfg, s, DoReady(g));
            s'.history.posted == s.pending && s'.history.log == s.history.log && s'.pending == s.pending
  {
  }

  lemma HandedInOrder(s: State, s': State)
    requires Queued(s) && Queued(s') && s.history.log <= s'.history.log
    requires s'.history.posted == s.pending + Added(s, s')
    ensures forall i, k :: 0 <= i < k < |s'.history.posted| ==> s'.history.posted[i].stamp < s'.history.posted[k].stamp
  {
    hide Numbered;
    var n := |s.pending|;
    forall i, k | 0 <= i < k < |s'.history.posted| ensures s'.history.posted[i].stamp < s'.history.posted[k].stamp {
      if k >= n {
        assert s'.history.posted[k] == s'.history.log[|s.history.log| + k - n];
        if i >= n { assert s'.history.posted[i] == s'.history.log[|s.history.log| + i - n]; }
      }
    }
  }
}
