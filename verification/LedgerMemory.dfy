/** The bound on all pending bytes while the worker settles messages in order. */
module LedgerMemory {
  import opened Options
  import opened Ledger
  import opened LedgerRuns
  import opened LedgerBalance
  import opened LedgerOrder
  import opened LedgerSeal

  const MAX_PENDING_BYTES: nat := MAX_ORDINARY_PENDING_BYTES + MAX_RESERVED_PENDING_BYTES

  /** The bytes that no counter counts directly: seals, and the failure records beside them. */
  function Extra(entries: seq<Entry>): nat { Bytes(entries, CloseFallback) + Bytes(entries, CloseSeal) }

  function AllBytes(entries: seq<Entry>): nat {
    if entries == [] then 0 else AllBytes(entries[..|entries| - 1]) + entries[|entries| - 1].bytes
  }

  lemma {:induction false} AllBytesByClass(entries: seq<Entry>)
    ensures AllBytes(entries) == Bytes(entries, Ordinary) + Bytes(entries, Reserved) + Extra(entries)
  {
    if entries != [] { AllBytesByClass(entries[..|entries| - 1]); }
  }

  /** However many entries are taken from the front, each seal that is left pays for what is left. */
  ghost predicate Covered(entries: seq<Entry>) {
    forall k :: 0 <= k <= |entries| ==> Extra(entries[k..]) <= CLOSE_SEAL_RESERVATION_BYTES * Seals(entries[k..])
  }

  lemma CoveredConcat(a: seq<Entry>, b: seq<Entry>)
    requires Covered(a) && Covered(b)
    ensures Covered(a + b)
  {
    assert b[0..] == b;
    forall k | 0 <= k <= |a + b| ensures Extra((a + b)[k..]) <= CLOSE_SEAL_RESERVATION_BYTES * Seals((a + b)[k..]) {
      if k <= |a| {
        assert (a + b)[k..] == a[k..] + b;
        SumsConcat(a[k..], b, CloseFallback);
        SumsConcat(a[k..], b, CloseSeal);
      } else {
        assert (a + b)[k..] == b[k - |a|..];
      }
    }
  }

  predicate Plain(entries: seq<Entry>) {
    forall i :: 0 <= i < |entries| ==> entries[i].capacity == Ordinary || entries[i].capacity == Reserved
  }

  lemma {:induction false} PlainHasNoExtra(entries: seq<Entry>)
    requires Plain(entries)
    ensures Extra(entries) == 0 && Seals(entries) == 0
  {
    if entries != [] { PlainHasNoExtra(entries[..|entries| - 1]); }
  }

  lemma PlainCovered(entries: seq<Entry>)
    requires Plain(entries)
    ensures Covered(entries)
  {
    forall k | 0 <= k <= |entries| ensures Extra(entries[k..]) <= CLOSE_SEAL_RESERVATION_BYTES * Seals(entries[k..]) {
      PlainHasNoExtra(entries[k..]);
    }
  }

  /** A failure record, plain messages and the seal: the seal pays for the record. */
  lemma CloseCovered(front: seq<Entry>, middle: seq<Entry>, seal: Entry)
    requires |front| <= 1 && (front != [] ==> front[0].capacity == CloseFallback)
    requires Plain(middle) && seal.capacity == CloseSeal
    requires seal.bytes + (if front == [] then 0 else front[0].bytes) <= CLOSE_SEAL_RESERVATION_BYTES
    ensures Covered(front + middle + [seal])
  {
    hide Bytes, Seals;
    var all := front + middle + [seal];
    forall k | 0 <= k <= |all| ensures Extra(all[k..]) <= CLOSE_SEAL_RESERVATION_BYTES * Seals(all[k..]) {
      if k < |front| {
        assert all[k..] == front + middle + [seal];
        SealPays(front, middle, seal);
      } else if k < |all| {
        assert all[k..] == [] + middle[k - |front|..] + [seal];
        SealPays([], middle[k - |front|..], seal);
      } else {
        assert all[k..] == [];
        PlainHasNoExtra([]);
      }
    }
  }

  lemma SealPays(front: seq<Entry>, middle: seq<Entry>, seal: Entry)
    requires |front| <= 1 && (front != [] ==> front[0].capacity == CloseFallback)
    requires Plain(middle) && seal.capacity == CloseSeal
    ensures Extra(front + middle + [seal]) == seal.bytes + (if front == [] then 0 else front[0].bytes)
    ensures Seals(front + middle + [seal]) == 1
  {
    PlainHasNoExtra(middle);
    SumsConcat(front + middle, [seal], CloseFallback);
    SumsConcat(front + middle, [seal], CloseSeal);
    SumsConcat(front, middle, CloseFallback);
    SumsConcat(front, middle, CloseSeal);
    assert front == [] || front == [] + [front[0]];
    assert [seal] == [] + [seal];
  }

  // ------------------------------------------------------- what is admitted

  /** The messages admitted from `s` to `s'` are of the plain classes. */
  ghost predicate AddsPlain(s: State, s': State) { Grows(s, s') && Plain(Added(s, s')) }

  lemma AddsPlainTrans(a: State, b: State, c: State)
    requires AddsPlain(a, b) && AddsPlain(b, c)
    ensures AddsPlain(a, c)
  {
    GrowsTrans(a, b, c);
    assert Added(a, c) == Added(a, b) + Added(b, c);
  }

  lemma AdmitForAddsPlain(cfg: Config, s: State, m: Message, j: Journey)
    ensures AddsPlain(s, AdmitFor(cfg, s, m, j).0)
  {
  }

  lemma {:induction false} AppendChunksAddsPlain(cfg: Config, s: State, id: RequestId, j: Journey, f: Flight,
      bytes: seq<Byte>)
    ensures AddsPlain(s, AppendChunks(cfg, s, id, j, f, bytes).0)
    decreases |bytes|
  {
    hide AdmitFor;
    if bytes != [] {
      var n := Min(|bytes|, MAX_ARTIFACT_WRITE_CHUNK_BYTES);
      AdmitForAddsPlain(cfg, s, ArtifactChunk(id, f.descriptor.artifactId, f.nextChunkIndex, f.capturedBytes,
          bytes[..n]), j);
      var (s', j', f', ok) := AppendChunk(cfg, s, id, j, f, bytes[..n]);
      assert AddsPlain(s, s');
      if ok {
        AppendChunksAddsPlain(cfg, s', id, j', f', bytes[n..]);
        AddsPlainTrans(s, s', AppendChunks(cfg, s', id, j', f', bytes[n..]).0);
      }
    }
  }

  lemma FlushFlightAddsPlain(cfg: Config, s: State, id: RequestId, j: Journey, f: Flight, outcome: Outcome)
    ensures AddsPlain(s, FlushFlight(cfg, s, id, j, f, outcome).0)
  {
    hide AdmitFor, FinalDescriptor;
    var j0 := if f.finished then j else j.(degraded := true);
    var d := FinalDescriptor(j0, f, outcome);
    var m := Append(id, f.sequence, ArtifactPayload(d));
    AdmitForAddsPlain(cfg, s, m, j0);
    var (s1, j1, ok) := AdmitFor(cfg, s, m, j0);
    if !ok {
      var m' := Append(id, f.sequence, ArtifactPayload(d.(state := Unavailable, reason := Some(QUEUE_EXHAUSTED))));
      AdmitForAddsPlain(cfg, s1, m', j1);
      AddsPlainTrans(s, s1, AdmitFor(cfg, s1, m', j1).0);
    }
  }

  lemma {:induction false} FlushFlightsAddPlain(cfg: Config, s: State, id: RequestId, j: Journey, flights: seq<Flight>,
      outcome: Outcome)
    ensures AddsPlain(s, FlushFlights(cfg, s, id, j, flights, outcome).0)
    decreases |flights|
  {
    hide FlushFlight;
    if flights != [] {
      FlushFlightAddsPlain(cfg, s, id, j, flights[0], outcome);
      var (s', j') := FlushFlight(cfg, s, id, j, flights[0], outcome);
      FlushFlightsAddPlain(cfg, s', id, j', flights[1..], outcome);
      AddsPlainTrans(s, s', FlushFlights(cfg, s', id, j', flights[1..], outcome).0);
    }
  }

  lemma FallbackAdds(cfg: Config, s: State, id: RequestId, j: Journey, seal: Seal)
    requires j.fallbackBytes == 0
    ensures var (s', j', _) := RecordFallback(cfg, s, id, j, seal);
            && Grows(s, s')
            && |Added(s, s')| <= 1
            && (Added(s, s') == [] ==> j'.fallbackBytes == 0)
            && (Added(s, s') != [] ==>
                 Added(s, s')[0].capacity == CloseFallback && Added(s, s')[0].bytes == j'.fallbackBytes)
  {
    hide ProjectSeal;
  }

  lemma {:induction false} FlushKeepsFallback(cfg: Config, s: State, id: RequestId, j: Journey, flights: seq<Flight>,
      outcome: Outcome)
    ensures FlushFlights(cfg, s, id, j, flights, outcome).1.fallbackBytes == j.fallbackBytes
    decreases |flights|
  {
    hide Admissible, FinalDescriptor;
    if flights != [] {
      var (s', j') := FlushFlight(cfg, s, id, j, flights[0], outcome);
      FlushKeepsFallback(cfg, s', id, j', flights[1..], outcome);
    }
  }

  /** The seal, if it is admitted, fits the reservation together with the failure record. */
  ghost predicate AddsSeal(s: State, s': State, recordBytes: nat, ok: bool) {
    && Grows(s, s')
    && (ok ==> |Added(s, s')| == 1 && Added(s, s')[0].capacity == CloseSeal
               && Added(s, s')[0].bytes + recordBytes <= CLOSE_SEAL_RESERVATION_BYTES)
    && (!ok ==> Added(s, s') == [])
  }

  lemma AdmitSealAdds(cfg: Config, s: State, id: RequestId, j: Journey, seal: Seal)
    ensures var (s', j', ok) := AdmitSeal(cfg, s, id, j, seal);
            AddsSeal(s, s', j.fallbackBytes, ok) && (!ok ==> s' == s && j' == j.(degraded := true))
  {
    hide HasKey;
  }

  lemma SealAdds(cfg: Config, s: State, id: RequestId, j: Journey, seal: Seal, course: Course)
    ensures var (s', j', ok) := SealClose(cfg, s, id, j, seal, course); AddsSeal(s, s', j.fallbackBytes, ok)
  {
    hide AdmitSeal, AddsSeal;
    NothingAdded(s, j.fallbackBytes);
    AdmitSealAdds(cfg, s, id, j, seal);
    AdmitSealAdds(cfg, s, id, j.(degraded := true), MinimalSeal());
  }

  lemma NothingAdded(s: State, recordBytes: nat)
    ensures AddsSeal(s, s, recordBytes, false)
  {
  }

  lemma SealedMeansAdmitted(s2: State, s3: State, s': State, id: RequestId, ok: bool)
    requires !Sealed(s2, id) && Grows(s2, s3) && s'.history == s3.history && Sealed(s', id)
    requires !ok ==> Added(s2, s3) == []
    ensures ok
  {
    assert s3.history.log == s2.history.log + Added(s2, s3);
  }

  /** The messages before the seal: perhaps a failure record, and plain ones. */
  lemma PreparedAdds(cfg: Config, s: State, id: RequestId, input: CloseInput, course: Course)
    requires id in s.journeys && s.journeys[id].fallbackBytes == 0
    ensures var (s2, j2, _) := PrepareClose(cfg, s, id, input, course);
            && Grows(s, s2)
            && exists front, middle ::
                 Added(s, s2) == front + middle && RecordThenPlain(front, middle, j2.fallbackBytes)
  {
    hide Admissible, ProjectSeal, RecordFallback, FlushFlights, FinalDescriptor, AdmitFallback;
    var j := s.journeys[id];
    var seal0 := ProjectSeal(input, j);
    var j0 := j.(finalOutcome := Some(seal0.outcome));
    var (s2, j2, _) := PrepareClose(cfg, s, id, input, course);
    if course.Broken? && course.point.AtFailureRecord? {
      assert Added(s, s2) == [] + [] && RecordThenPlain([], [], j2.fallbackBytes);
    } else {
      FallbackAdds(cfg, s, id, j0, seal0);
      var (s1, j1, _) := RecordFallback(cfg, s, id, j0, seal0);
      var flights := j1.artifacts[..ReportsOf(j1.artifacts, course)];
      FlushFlightsAddPlain(cfg, s1, id, j1, flights, seal0.outcome);
      FlushKeepsFallback(cfg, s1, id, j1, flights, seal0.outcome);
      GrowsTrans(s, s1, s2);
      assert Added(s, s2) == Added(s, s1) + Added(s1, s2);
      assert RecordThenPlain(Added(s, s1), Added(s1, s2), j2.fallbackBytes);
    }
  }

  predicate RecordThenPlain(front: seq<Entry>, middle: seq<Entry>, recordBytes: nat) {
    && |front| <= 1 && (front != [] ==> front[0].capacity == CloseFallback)
    && Plain(middle) && recordBytes == (if front == [] then 0 else front[0].bytes)
  }

  /** What one close admits pays for itself, provided the seal is among it. */
  lemma CloseAddsCovered(cfg: Config, s: State, id: RequestId, input: CloseInput, course: Course)
    requires s.Serving() && id in s.journeys && s.journeys[id].fallbackBytes == 0
    requires !Sealed(PrepareClose(cfg, s, id, input, CourseTaken(s.journeys[id], input, course)).0, id)
    requires Sealed(Close(cfg, s, id, input, course), id)
    ensures Grows(s, Close(cfg, s, id, input, course)) && Covered(Added(s, Close(cfg, s, id, input, course)))
  {
    hide PrepareClose, SealClose, Covered, CourseTaken, Sealed;
    var taken := CourseTaken(s.journeys[id], input, course);
    PreparedAdds(cfg, s, id, input, taken);
    var (s2, j2, seal) := PrepareClose(cfg, s, id, input, taken);
    SealAdds(cfg, s2, id, j2, seal, taken);
    var (s3, j3, ok) := SealClose(cfg, s2, id, j2, seal, taken);
    GrowsTrans(s, s2, s3);
    SealedMeansAdmitted(s2, s3, Close(cfg, s, id, input, course), id, ok);
    var front, middle :| Added(s, s2) == front + middle && RecordThenPlain(front, middle, j2.fallbackBytes);
    CloseCovered(front, middle, Added(s2, s3)[0]);
    assert Added(s2, s3) == [Added(s2, s3)[0]] && Added(s, s3) == Added(s, s2) + Added(s2, s3);
  }

  // ------------------------------------------------------------------- runs

  /** The worker settles the oldest pending message, and closing journeys are sealed. */
  ghost predicate InOrder(cfg: Config, s: State, a: Action) {
    && (a.DoSettle? && a.key.Some? && HasKey(s.pending, a.key.value) ==> a.key.value == s.pending[0].Key())
    && (a.DoClose? && s.Serving() && a.id in s.journeys ==> Sealed(Close(cfg, s, a.id, a.input, a.course), a.id))
  }

  ghost predicate AllInOrder(cfg: Config, actions: seq<Action>) {
    forall i :: 0 <= i < |actions| ==> InOrder(cfg, After(cfg, actions[..i]), actions[i])
  }

  /** Every handler operation but close admits plain messages only. */
  lemma HandlerAddsPlain(cfg: Config, s: State, a: Action)
    requires a.DoBegin? || a.DoObserve? || a.DoOpen? || a.DoAppend? || a.DoFinish? || a.DoRuntimeEvent?
    ensures AddsPlain(s, Step(cfg, s, a))
  {
    hide Admissible, AppendChunks, FlightIndex, AppendArtifact, OpenArtifact, FinishArtifact, Observe, Begin;
    match a
    case DoBegin(id, all, failed) => BeginAddsPlain(cfg, s, id, all, failed);
    case DoObserve(id, fact, reading) => ObserveAddsPlain(cfg, s, id, fact, reading);
    case DoOpen(id, artifact, reading, original) => OpenAddsPlain(cfg, s, id, artifact, reading, original);
    case DoAppend(id, artifact, bytes) => AppendAddsPlain(cfg, s, id, artifact, bytes);
    case DoFinish(id, artifact, finish) => FinishAddsPlain(cfg, s, id, artifact, finish);
    case DoRuntimeEvent(clock) => EventAddsPlain(cfg, s, clock);
  }

  lemma EventAddsPlain(cfg: Config, s: State, clock: bool)
    ensures AddsPlain(s, RuntimeEventOffered(cfg, s, clock))
  {
  }

  lemma BeginAddsPlain(cfg: Config, s: State, id: RequestId, captureAll: bool, captureFailed: bool)
    ensures AddsPlain(s, Begin(cfg, s, id, captureAll, captureFailed).0)
  {
  }

  lemma ObserveAddsPlain(cfg: Config, s: State, id: RequestId, fact: Fact, reading: Reading)
    ensures AddsPlain(s, Observe(cfg, s, id, fact, reading))
  {
    hide AdmitFor;
    if s.Serving() && id in s.journeys {
      var j := Observed(s.journeys[id]);
      AdmitForAddsPlain(cfg, OfferFact(s, id, fact), Append(id, j.sequence, FactPayload(fact)), j);
    }
  }

  lemma OpenAddsPlain(cfg: Config, s: State, id: RequestId, a: ArtifactId, reading: Reading, original: Option<nat>)
    ensures AddsPlain(s, OpenArtifact(cfg, s, id, a, reading, original).0)
  {
    hide AdmitFor, FlightIndex;
    if s.Serving() && id in s.journeys {
      AdmitForAddsPlain(cfg, OfferArtifact(s, id, a), ArtifactBegin(id, a, OpenDescriptor(a, original)),
          Observed(s.journeys[id]));
    }
  }

  lemma AppendAddsPlain(cfg: Config, s: State, id: RequestId, a: ArtifactId, bytes: seq<Byte>)
    ensures AddsPlain(s, AppendArtifact(cfg, s, id, a, bytes))
  {
    hide AppendChunks, FlightIndex;
    if id in s.journeys && HasFlight(s.journeys[id].artifacts, a) {
      var j := s.journeys[id];
      var f := j.artifacts[FlightIndex(j.artifacts, a)];
      var s1 := RecordAppend(s, id, a, bytes);
      AppendChunksAddsPlain(cfg, s1, id, j, f, bytes[..Accepted(cfg, s1, j, f, |bytes|)]);
    }
  }

  lemma FinishAddsPlain(cfg: Config, s: State, id: RequestId, a: ArtifactId, input: FinishInput)
    ensures AddsPlain(s, FinishArtifact(cfg, s, id, a, input))
  {
    hide AdmitFor, FlightIndex;
    if id in s.journeys && HasFlight(s.journeys[id].artifacts, a) && input.Finish? {
      var j := s.journeys[id];
      AdmitForAddsPlain(cfg, s, FinishMessage(id, j.artifacts[FlightIndex(j.artifacts, a)], input), j);
    }
  }

  lemma StepCovered(cfg: Config, s: State, a: Action)
    requires Covered(s.pending) && Exact(cfg, s) && Queued(s) && InOrder(cfg, s, a)
    ensures Covered(Step(cfg, s, a).pending)
  {
    hide Exact, Queued, Covered, Extends, Sealed, Begin, Observe, OpenArtifact, AppendArtifact, FinishArtifact, Close,
         RuntimeEventOffered, Bytes, Seals;
    match a
    case DoClose(id, input, course) => CloseStaysCovered(cfg, s, id, input, course);
    case DoSettle(g, key, accepted, classification) => SettleCovered(s, g, key, accepted, classification);
    case DoReady(_) =>
    case DoFail(_) =>
    case DoStartupFailure(_) => EmptyCovered();
    case DoStart(_) => EmptyCovered();
    case DoBeginShutdown =>
    case DoEndShutdown => EmptyCovered();
    case _ =>
      HandlerAddsPlain(cfg, s, a);
      PlainCovered(Added(s, Step(cfg, s, a)));
      CoveredConcat(s.pending, Added(s, Step(cfg, s, a)));
  }

  lemma EmptyCovered()
    ensures Covered([])
  {
    PlainCovered([]);
  }

  lemma CloseStaysCovered(cfg: Config, s: State, id: RequestId, input: CloseInput, course: Course)
    requires Covered(s.pending) && Exact(cfg, s) && Queued(s)
    requires s.Serving() && id in s.journeys ==> Sealed(Close(cfg, s, id, input, course), id)
    ensures Covered(Close(cfg, s, id, input, course).pending)
  {
    hide Queued, Covered, Extends, Sealed, Balanced, PrepareClose, SealClose, CourseTaken;
    if s.Serving() && id in s.journeys {
      var taken := CourseTaken(s.journeys[id], input, course);
      ExtractFlights(s, id);
      PrepareCloseExtends(cfg, s, id, input, taken);
      var (s1, j1, _) := PrepareClose(cfg, s, id, input, taken);
      NotYetSealed(s, s1, id, j1.sequence - 1);
      CloseAddsCovered(cfg, s, id, input, course);
      CoveredConcat(s.pending, Added(s, Close(cfg, s, id, input, course)));
    }
  }

  lemma SettleCovered(s: State, g: nat, key: Option<Key>, accepted: bool, classification: string)
    requires Covered(s.pending)
    requires key.Some? && HasKey(s.pending, key.value) ==> key.value == s.pending[0].Key()
    ensures Covered(Settle(s, g, key, accepted, classification).pending)
  {
    hide Bytes, Seals, FlightIndex;
    if s.worker.current == Some(g) && key.Some? && EntryIndex(s.pending, key.value) < |s.pending| {
      assert s.pending[EntryIndex(s.pending, key.value)].Key() == key.value;
      assert Settle(s, g, key, accepted, classification).pending == s.pending[1..];
      forall k | 0 <= k <= |s.pending[1..]| ensures Extra(s.pending[1..][k..]) <=
          CLOSE_SEAL_RESERVATION_BYTES * Seals(s.pending[1..][k..]) {
        assert s.pending[1..][k..] == s.pending[k + 1..];
      }
    }
  }

  lemma {:induction false} RunCovered(cfg: Config, actions: seq<Action>)
    requires Legal(cfg, actions) && AllInOrder(cfg, actions)
    ensures Covered(After(cfg, actions).pending)
  {
    hide Step, Covered, Exact, Queued, InOrder;
    if actions == [] {
      EmptyCovered();
    } else {
      var (front, a) := (actions[..|actions| - 1], actions[|actions| - 1]);
      assert forall i :: 0 <= i < |front| ==> front[..i] == actions[..i];
      RunCovered(cfg, front);
      LedgerIsExact(cfg, front);
      QueueIsOrdered(cfg, front);
      StepCovered(cfg, After(cfg, front), a);
    }
  }

  /** While the worker settles in order and closes are sealed, all pending bytes together, those of seals and
      failure records included, stay within 20 MiB. */
  lemma PendingBytesAreBounded(cfg: Config, actions: seq<Action>)
    requires Legal(cfg, actions) && AllInOrder(cfg, actions)
    ensures AllBytes(After(cfg, actions).pending) <= MAX_PENDING_BYTES
  {
    hide After, Legal, AllInOrder, Bytes, Seals, SumHeld;
    var s := After(cfg, actions);
    RunCovered(cfg, actions);
    LedgerIsExact(cfg, actions);
    AllBytesByClass(s.pending);
    HoldingsNonNegative(cfg, s.journeys);
    assert s.pending[0..] == s.pending;
  }
}
