/** The authority as the program keeps it: counters and queues that each operation changes in place. */
module LedgerAuthority {
  import opened Options
  import opened Ledger
  import opened LedgerBalance

  /** What releasing one of the open journeys leaves. */
  lemma OneFewer(cfg: Config, m: map<RequestId, Journey>, id: RequestId)
    requires id in m && forall other :: other in m ==> Settled(cfg, m[other])
    ensures SumHeld(m - {id}, HeldBytes) == SumHeld(m, HeldBytes) - m[id].artifactBytes >= 0
    ensures SumHeld(m - {id}, HeldSeal) == SumHeld(m, HeldSeal) - m[id].reservation >= 0
    ensures |m - {id}| < |m|
  {
    hide SumHeld;
    SumHeldRemove(m, id, HeldBytes);
    SumHeldRemove(m, id, HeldSeal);
    HoldingsNonNegative(cfg, m - {id});
    assert m.Keys == (m - {id}).Keys + {id};
  }

  class DiagnosticsAuthority {
    const cfg: Config

    var pending: seq<Entry>
    var admissions: nat  // orders `pending` as the insertion order of the program's map does
    var journeys: map<RequestId, Journey>
    var ordinaryPendingBytes: int
    var reservedPendingBytes: int
    var closeSealReservedBytes: int
    var flightArtifactBytes: int
    var worker: Worker
    var closed: bool
    var permanentlyUnavailable: bool
    var nextRuntimeEventSequence: nat
    var posted: seq<Entry>  // what was posted to the current generation's session since it last reported ready
    ghost var history: History

    ghost function Contents(): State
      reads this
    {
      State(pending, journeys, ordinaryPendingBytes, reservedPendingBytes, closeSealReservedBytes,
            flightArtifactBytes, worker, closed, permanentlyUnavailable, nextRuntimeEventSequence,
                history.(posted := posted))
    }

    ghost predicate Numbered()
      reads this
    {
      admissions == |history.log|
    }

    /** The counters are exact and within their budgets. */
    ghost predicate Valid()
      reads this
    {
      Numbered() && Exact(cfg, Contents())
    }

    constructor (cfg: Config)
      ensures this.cfg == cfg && Contents() == Initial && Valid()
    {
      this.cfg := cfg;
      pending, admissions, journeys := [], 0, map[];
      ordinaryPendingBytes, reservedPendingBytes, closeSealReservedBytes, flightArtifactBytes := 0, 0, 0, 0;
      worker := Worker(Some(0), 1, false, false);
      closed, permanentlyUnavailable, nextRuntimeEventSequence := false, false, 0;
      posted := [];
      history := Initial.history;
    }

    // ------------------------------------------------------------ admission

    method Enqueue(m: Message, bytes: nat, capacity: Capacity)
      requires Numbered()
      modifies this
      ensures Numbered()
      ensures Contents() == Push(old(Contents()), Entry(|old(history).log|, m, bytes, capacity))
    {
      var e := Entry(admissions, m, bytes, capacity);
      pending, admissions := pending + [e], admissions + 1;
      history := history.(log := history.log + [e]);
      if worker.ready && worker.current.Some? { posted := posted + [e]; }
      if capacity == Ordinary {
        ordinaryPendingBytes := ordinaryPendingBytes + bytes;
      } else if capacity == Reserved {
        reservedPendingBytes := reservedPendingBytes + bytes;
      }
    }

    /** Whether a message with this key is pending. */
    method IsPending(k: Key) returns (found: bool)
      ensures found == HasKey(pending, k)
    {
      for i := 0 to |pending|
        invariant forall n :: 0 <= n < i ==> pending[n].Key() != k
      {
        if pending[i].Key() == k { return true; }
      }
      return false;
    }

    method Admit(m: Message, outcome: Option<Outcome>) returns (ok: bool)
      requires Numbered()
      modifies this
      ensures Numbered()
      ensures (Contents(), ok) == Ledger.Admit(cfg, old(Contents()), m, outcome)
    {
      var size := cfg.size(m);
      if size.None? || IsSeal(m) { return false; }
      var reserved := IsReserved(m);
      if reserved && reservedPendingBytes + closeSealReservedBytes + size.value > MAX_RESERVED_PENDING_BYTES {
        return false;
      }
      if !reserved && ordinaryPendingBytes + size.value > OrdinaryLimit(m, outcome) { return false; }
      var duplicate := IsPending(KeyOf(m));
      if duplicate { return false; }
      Enqueue(m, size.value, if reserved then Reserved else Ordinary);
      return true;
    }

    method AdmitFor(m: Message, j: Journey) returns (j': Journey, ok: bool)
      requires Numbered()
      modifies this
      ensures Numbered()
      ensures (Contents(), j', ok) == Ledger.AdmitFor(cfg, old(Contents()), m, j)
    {
      ok := Admit(m, j.finalOutcome);
      j' := if ok then j else j.(degraded := true);
    }

    method AdmitCloseSeal(id: RequestId, j: Journey, seal: Seal) returns (j': Journey, ok: bool)
      requires Numbered()
      modifies this
      ensures Numbered()
      ensures (Contents(), j', ok) == AdmitSeal(cfg, old(Contents()), id, j, seal)
    {
      var m := Append(id, j.sequence, SealPayload(seal));
      var size := cfg.size(m);
      var duplicate := IsPending(KeyOf(m));
      if j.reservation != CLOSE_SEAL_RESERVATION_BYTES || size.None? ||
         size.value + j.fallbackBytes > CLOSE_SEAL_RESERVATION_BYTES || duplicate
      {
        return j.(degraded := true), false;
      }
      Enqueue(m, size.value, CloseSeal);
      return j.(reservation := 0), true;
    }

    method AdmitCloseFallback(id: RequestId, j: Journey, fact: Fact) returns (j': Journey, ok: bool)
      requires Numbered()
      modifies this
      ensures Numbered()
      ensures (Contents(), j', ok) == AdmitFallback(cfg, old(Contents()), id, j, fact)
    {
      var m := Append(id, j.sequence, FactPayload(fact));
      var size := cfg.size(m);
      var duplicate := IsPending(KeyOf(m));
      if j.reservation != CLOSE_SEAL_RESERVATION_BYTES || j.fallbackBytes != 0 || size.None? ||
         size.value >= CLOSE_SEAL_RESERVATION_BYTES || duplicate
      {
        return j.(degraded := true), false;
      }
      Enqueue(m, size.value, CloseFallback);
      return j.(fallbackBytes := size.value), true;
    }

    // ------------------------------------------------------------- journeys

    method Begin(id: RequestId, captureAll: bool, captureFailed: bool) returns (begun: bool)
      requires Valid()
      modifies this
      ensures Valid()
      ensures (Contents(), begun) == Ledger.Begin(cfg, old(Contents()), id, captureAll, captureFailed)
    {
      hide Exact;
      BeginExact(cfg, Contents(), id, captureAll, captureFailed);
      if closed || permanentlyUnavailable || !SafeId(id) || id in journeys { return false; }
      if reservedPendingBytes + closeSealReservedBytes + CLOSE_SEAL_RESERVATION_BYTES > MAX_RESERVED_PENDING_BYTES {
        return false;
      }
      var before := journeys;
      ghost var known := history;
      closeSealReservedBytes := closeSealReservedBytes + CLOSE_SEAL_RESERVATION_BYTES;
      journeys := journeys[id := FreshJourney(captureAll, captureFailed)];
      history := history.(used := history.used + {id}, offers := history.offers[id := Offer([], [])]);
      begun := Admit(Append(id, 0, BeginPayload), None);
      if !begun {
        journeys := journeys - {id};
        assert journeys == before;
        closeSealReservedBytes := closeSealReservedBytes - CLOSE_SEAL_RESERVATION_BYTES;
        history := known;
      }
    }

    method Observe(id: RequestId, fact: Fact, reading: Reading)
      requires Valid()
      modifies this
      ensures Valid()
      ensures Contents() == Ledger.Observe(cfg, old(Contents()), id, fact, reading)
    {
      hide Exact, Admissible;
      ObserveExact(cfg, Contents(), id, fact, reading);
      if closed || permanentlyUnavailable || id !in journeys { return; }
      history := OfferFact(Contents(), id, fact).history;
      var j := journeys[id];
      if j.observations >= MAX_OBSERVATIONS_PER_JOURNEY || reading.Unreadable? {
        journeys := journeys[id := j.(degraded := true)];
        return;
      }
      j := j.(sequence := j.sequence + 1);
      if reading.NotCopied? {
        journeys := journeys[id := j.(degraded := true)];
        return;
      }
      j := j.(observations := j.observations + 1);
      if reading.ClockFailed? {
        journeys := journeys[id := j.(degraded := true)];
        return;
      }
      var ok;
      j, ok := AdmitFor(Append(id, j.sequence, FactPayload(fact)), j);
      if ok {
        j := j.(lastKnownLocation := Some(fact.location));
        if fact.kind == FailureDetected && fact.primary {
          if j.primaryFailureId.None? {
            j := j.(primaryFailureId := Some(fact.failureId));
            if fact.classification == UNSPECIFIC_FAILURE { j := j.(degraded := true); }
          } else {
            j := j.(degraded := true);
          }
        }
      }
      journeys := journeys[id := j];
    }

    // ------------------------------------------------------------ artifacts

    method OpenArtifact(id: RequestId, a: ArtifactId, reading: Reading, original: Option<nat>) returns (granted: bool)
      requires Valid()
      modifies this
      ensures Valid()
      ensures (Contents(), granted) == Ledger.OpenArtifact(cfg, old(Contents()), id, a, reading, original)
    {
      hide Exact, Admissible, FlightIndex;
      OpenExact(cfg, Contents(), id, a, reading, original);
      if closed || permanentlyUnavailable || id !in journeys { return false; }
      history := OfferArtifact(Contents(), id, a).history;
      var j := journeys[id];
      if j.observations >= MAX_OBSERVATIONS_PER_JOURNEY || reading.Unreadable? || reading.NotCopied? {
        journeys := journeys[id := j.(degraded := true)];
        return false;
      }
      j := j.(sequence := j.sequence + 1, observations := j.observations + 1);
      var d := Descriptor(a, Captured, 0, original, false, None);
      var size := cfg.descriptorSize(d);
      if HasFlight(j.artifacts, a) || size.None? || size.value > MAX_OBSERVATION_BYTES || reading.ClockFailed? {
        journeys := journeys[id := j.(degraded := true)];
        return false;
      }
      var sequence, ok := j.sequence, false;
      j, ok := AdmitFor(ArtifactBegin(id, a, d), j);
      journeys := journeys[id := j.(artifacts := j.artifacts + [NewFlight(sequence, d, ok)])];
      return true;
    }

    method AdmitChunk(id: RequestId, j: Journey, f: Flight, chunk: seq<Byte>) returns (j': Journey, f': Flight,
        ok: bool)
      requires Numbered()
      modifies this
      ensures Numbered()
      ensures (Contents(), j', f', ok) == AppendChunk(cfg, old(Contents()), id, j, f, chunk)
    {
      hide Admissible;
      j', ok := AdmitFor(ArtifactChunk(id, f.descriptor.artifactId, f.nextChunkIndex, f.capturedBytes, chunk), j);
      if ok {
        f' := f.(nextChunkIndex := f.nextChunkIndex + 1, capturedBytes := f.capturedBytes + |chunk|);
        j' := j'.(artifactBytes := j'.artifactBytes + |chunk|);
        flightArtifactBytes := flightArtifactBytes + |chunk|;
      } else {
        f' := f.(accepting := false);
      }
    }

    /** Admits bytes in chunks of at most 64 KiB until one is refused. */
    method AdmitChunks(id: RequestId, start: Journey, recorder: Flight, bytes: seq<Byte>) returns (j: Journey,
        f: Flight, taken: nat)
      requires Numbered()
      modifies this
      ensures Numbered()
      ensures (Contents(), j, f, taken) == AppendChunks(cfg, old(Contents()), id, start, recorder, bytes)
    {
      hide AppendChunk;
      j, f, taken := start, recorder, 0;
      assert bytes[0..] == bytes;
      while taken < |bytes|
        invariant taken <= |bytes| && Numbered()
        invariant var (s', j', f', more) := AppendChunks(cfg, Contents(), id, j, f, bytes[taken..]);
                  AppendChunks(cfg, old(Contents()), id, start, recorder, bytes) == (s', j', f', taken + more)
      {
        var end := Min(|bytes|, taken + MAX_ARTIFACT_WRITE_CHUNK_BYTES);
        assert bytes[taken..][..end - taken] == bytes[taken..end] && bytes[taken..][end - taken..] == bytes[end..];
        var ok;
        j, f, ok := AdmitChunk(id, j, f, bytes[taken..end]);
        if !ok { return; }
        taken := end;
      }
    }

    /** Takes the bytes that fit the configured caps; a recorder that could not take everything stops. */
    method AppendArtifact(id: RequestId, a: ArtifactId, bytes: seq<Byte>)
      requires Valid()
      modifies this
      ensures Valid()
      ensures Contents() == Ledger.AppendArtifact(cfg, old(Contents()), id, a, bytes)
    {
      hide Exact, FlightIndex, AppendChunks;
      AppendExact(cfg, Contents(), id, a, bytes);
      if id !in journeys || !HasFlight(journeys[id].artifacts, a) { return; }
      var j := journeys[id];
      var k := FlightIndex(j.artifacts, a);
      var f := j.artifacts[k];
      if f.finished { return; }
      history := RecordAppend(Contents(), id, a, bytes).history;
      if !f.accepting { return; }
      var flights := j.artifacts;
      var accepted := Min(|bytes|, Min(Max(0, cfg.maxJsonArtifactBytes - f.capturedBytes),
                                       Min(Max(0, cfg.maxJourneyArtifactBytes - j.artifactBytes),
                                           Max(0, cfg.maxJourneyArtifactBytes - flightArtifactBytes))));
      var taken;
      j, f, taken := AdmitChunks(id, j, f, bytes[..accepted]);
      if taken < |bytes| {
        f := f.(accepting := false,
                descriptor := f.descriptor.(state := Unavailable,
                  reason := Some(if accepted < |bytes| then SIZE_LIMIT_EXCEEDED else QUEUE_EXHAUSTED)));
      }
      journeys := journeys[id := j.(artifacts := flights[k := f])];
    }

    /** A recorder counts as finished before its input is read. */
    method FinishArtifact(id: RequestId, a: ArtifactId, input: FinishInput)
      requires Valid()
      modifies this
      ensures Valid()
      ensures Contents() == Ledger.FinishArtifact(cfg, old(Contents()), id, a, input)
    {
      hide Exact, Admissible, FlightIndex;
      FinishExact(cfg, Contents(), id, a, input);
      if id !in journeys || !HasFlight(journeys[id].artifacts, a) { return; }
      var j := journeys[id];
      var k := FlightIndex(j.artifacts, a);
      var f := j.artifacts[k];
      if f.finished { return; }
      var flights := j.artifacts;
      if input.BadFinish? {
        history := RecordBreak(Contents(), id, a).history;
        journeys := journeys[id := j.(degraded := true,
            artifacts := flights[k := f.(finished := true, accepting := false)])];
        return;
      }
      var m := FinishMessage(id, f, input);
      var ok;
      j, ok := AdmitFor(m, j);
      journeys := journeys[id := j.(artifacts := flights[k := FinishedFlight(f, m, ok)])];
    }

    // ---------------------------------------------------------------- close

    /** Reports one recorder's artifact, as it is or else as unavailable, and gives back its bytes. */
    method ReportFlight(id: RequestId, j: Journey, f: Flight, outcome: Outcome) returns (j': Journey)
      requires Numbered()
      modifies this
      ensures Numbered()
      ensures (Contents(), j') == FlushFlight(cfg, old(Contents()), id, j, f, outcome)
    {
      hide Admissible, FinalDescriptor;
      j' := if f.finished then j else j.(degraded := true);
      var d := FinalDescriptor(j', f, outcome);
      var ok;
      j', ok := AdmitFor(Append(id, f.sequence, ArtifactPayload(d)), j');
      if !ok {
        var retried;
        j', retried := AdmitFor(Append(id, f.sequence,
            ArtifactPayload(d.(state := Unavailable, reason := Some(QUEUE_EXHAUSTED)))), j');
      }
      flightArtifactBytes := Max(0, flightArtifactBytes - f.capturedBytes);
      j' := j'.(artifactBytes := j'.artifactBytes - f.capturedBytes);
    }

    method ReportFlights(id: RequestId, start: Journey, flights: seq<Flight>, outcome: Outcome) returns (j: Journey)
      requires Numbered()
      modifies this
      ensures Numbered()
      ensures (Contents(), j) == FlushFlights(cfg, old(Contents()), id, start, flights, outcome)
    {
      j := start;
      ghost var flushed := FlushFlights(cfg, Contents(), id, start, flights, outcome);
      assert flights[0..] == flights;
      for i := 0 to |flights|
        invariant Numbered()
        invariant flushed == FlushFlights(cfg, Contents(), id, j, flights[i..], outcome)
      {
        assert flights[i..][1..] == flights[i + 1..];
        j := ReportFlight(id, j, flights[i], outcome);
      }
    }

    method RecordUnspecificFailure(id: RequestId, start: Journey, seal: Seal) returns (j: Journey, seal': Seal)
      requires Numbered()
      modifies this
      ensures Numbered()
      ensures (Contents(), j, seal') == RecordFallback(cfg, old(Contents()), id, start, seal)
    {
      j, seal' := start, seal;
      if seal.outcome == Success || j.primaryFailureId.Some? { return; }
      var fact := FallbackFact(id, j.lastKnownLocation, seal);
      j := j.(degraded := true, sequence := j.sequence + 1, observations := j.observations + 1);
      var ok;
      j, ok := AdmitCloseFallback(id, j, fact);
      if ok {
        j := j.(primaryFailureId := Some(fact.failureId), lastKnownLocation := Some(fact.location));
        var again := CloseRecord(Some(seal.outcome), false, Text(fact.failureId), ToField(seal.closeReason),
                                 if seal.location.Some? then At(seal.location.value) else NoLocation);
        seal' := ProjectSeal(again, j);
      }
    }

    /** The part of a close that may break off, and what its handler makes of that. */
    method PrepareSeal(id: RequestId, input: CloseInput, course: Course) returns (j: Journey, seal: Seal)
      requires Numbered() && id in journeys
      modifies this
      ensures Numbered()
      ensures (Contents(), j, seal) == PrepareClose(cfg, old(Contents()), id, input, course)
    {
      hide ProjectSeal, RecordFallback, FlushFlights;
      j := journeys[id];
      seal := ProjectSeal(input, j);
      var outcome := seal.outcome;
      j := j.(finalOutcome := Some(outcome));
      if course.Broken? && course.point.AtFailureRecord? {
        j := j.(sequence := j.sequence + 1, observations := j.observations + 1);
      } else {
        j, seal := RecordUnspecificFailure(id, j, seal);
        j := ReportFlights(id, j, j.artifacts[..ReportsOf(j.artifacts, course)], outcome);
        if course.Smooth? || course.point.BeforeSeal? { j := j.(artifacts := [], artifactBytes := 0); }
      }
      j := j.(sequence := j.sequence + 1);
      if course.Broken? {
        j, seal := j.(degraded := true), MinimalSeal();
      } else if j.degraded {
        seal := seal.(complete := false);
      }
    }

    method Close(id: RequestId, input: CloseInput, course: Course)
      requires Valid()
      modifies this
      ensures Valid()
      ensures Contents() == Ledger.Close(cfg, old(Contents()), id, input, course)
    {
      hide Exact, PrepareClose, AdmitSeal, CourseTaken;
      CloseExact(cfg, Contents(), id, input, course);
      if closed || permanentlyUnavailable || id !in journeys { return; }
      var taken := CourseTaken(journeys[id], input, course);
      var j, seal := PrepareSeal(id, input, taken);
      var ok := false;
      if taken.Smooth? || taken.clock {
        j, ok := AdmitCloseSeal(id, j, seal);
      }
      if !ok && taken.Smooth? {
        j, ok := AdmitCloseSeal(id, j, MinimalSeal());
      }
      flightArtifactBytes := Max(0, flightArtifactBytes - j.artifactBytes);
      if j.reservation != 0 {
        closeSealReservedBytes := Max(0, closeSealReservedBytes - j.reservation);
      }
      journeys := journeys - {id};
    }

    // --------------------------------------------------------------- worker

    method ObserveRuntime(clock: bool)
      requires Valid()
      modifies this
      ensures Valid()
      ensures Contents() == RuntimeEventOffered(cfg, old(Contents()), clock)
    {
      hide Exact;
      RuntimeEventExact(cfg, Contents(), clock);
      if closed || permanentlyUnavailable { return; }
      var sequence := nextRuntimeEventSequence;
      nextRuntimeEventSequence := sequence + 1;
      if clock {
        var _ := Admit(RuntimeEvent(sequence), None);
      }
    }

    /** An acknowledgement or rejection arrives from generation `g`. */
    method OnSettled(g: nat, key: Option<Key>, accepted: bool, classification: string)
      requires Valid()
      modifies this
      ensures Valid()
      ensures Contents() == Settle(old(Contents()), g, key, accepted, classification)
    {
      hide Exact, Reject, EntryIndex;
      SettleExact(cfg, Contents(), g, key, accepted, classification);
      if worker.current != Some(g) { return; }
      if key.None? { OnFailed(g); return; }
      var i := EntryIndex(pending, key.value);
      if i == |pending| { OnFailed(g); return; }
      var e := pending[i];
      pending := pending[..i] + pending[i + 1..];
      if e.capacity == Ordinary {
        ordinaryPendingBytes := Max(0, ordinaryPendingBytes - e.bytes);
      } else if e.capacity == Reserved {
        reservedPendingBytes := Max(0, reservedPendingBytes - e.bytes);
      } else if e.capacity == CloseSeal {
        closeSealReservedBytes := Max(0, closeSealReservedBytes - CLOSE_SEAL_RESERVATION_BYTES);
      }
      if !accepted { MarkRejected(e, classification); }
    }

    method MarkRejected(e: Entry, classification: string)
      requires Numbered()
      modifies this
      ensures Numbered()
      ensures Contents() == Reject(old(Contents()), e, classification)
    {
      hide FlightIndex;
      history := RecordRejection(Contents(), e).history;
      if e.message.RuntimeEvent? || e.message.id !in journeys { return; }
      var j := journeys[e.message.id].(degraded := true);
      if !e.message.Append? && HasFlight(j.artifacts, e.message.artifact) {
        var k := FlightIndex(j.artifacts, e.message.artifact);
        var d := j.artifacts[k].descriptor.(state := Unavailable, capturedBytes := 0, reason := Some(classification));
        j := j.(artifacts := j.artifacts[k := j.artifacts[k].(descriptor := d)]);
      }
      journeys := journeys[e.message.id := j];
    }

    /** The current generation failed, exited or sent malformed output. */
    method OnFailed(g: nat)
      requires Numbered()
      modifies this
      ensures Numbered()
      ensures Contents() == Restart(old(Contents()), g)
    {
      if worker.current != Some(g) { return; }
      worker := worker.(current := None, ready := false, restartScheduled := worker.restartScheduled ||
          (!closed && !permanentlyUnavailable));
      posted := [];
    }

    /** The current generation is ready: every pending message is posted to it, in order. */
    method OnReady(g: nat)
      requires Valid()
      modifies this
      ensures Valid()
      ensures Contents() == Ready(old(Contents()), g)
      ensures worker.current == Some(g) ==> posted == pending == old(pending)
    {
      hide Bytes, Seals, SumHeld;
      if worker.current != Some(g) { return; }
      worker := worker.(ready := true);
      posted := [];
      ghost var before := Contents();
      for i := 0 to |pending|
        invariant pending == before.pending && posted == pending[..i]
        invariant Contents() == before.(history := before.history.(posted := posted))
        invariant admissions == old(admissions) && history == old(history)
      {
        posted := posted + [pending[i]];
        assert pending[..i] + [pending[i]] == pending[..i + 1];
      }
      assert pending[..|pending|] == pending;
      HistoryExact(cfg, old(Contents()).(worker := worker), Contents().history);
    }

    method OnStartupFailure(g: nat)
      requires Valid()
      modifies this
      ensures Valid()
      ensures Contents() == StartupFailure(old(Contents()), g)
    {
      hide Exact;
      if worker.current == Some(g) { FailPermanently(); }
    }

    /** The restart timer fires. */
    method OnRestartTimer(started: bool)
      requires Valid()
      modifies this
      ensures Valid()
      ensures Contents() == StartWorker(old(Contents()), started)
    {
      hide Bytes, Seals, SumHeld;
      if !worker.restartScheduled { return; }
      worker := worker.(restartScheduled := false);
      if closed { return; }
      worker := worker.(ready := false);
      if started {
        worker := Worker(Some(worker.generations), worker.generations + 1, false, false);
        posted := [];
      } else {
        FailPermanently();
      }
    }

    method ReleaseJourneys()
      requires Numbered() && Balanced(cfg, Contents()) && forall id :: id in journeys ==> Settled(cfg, journeys[id])
      modifies this
      ensures Numbered()
      ensures Contents() == ReleaseAll(old(Contents())) && Exact(cfg, Contents())
    {
      hide Bytes, Seals, SumHeld;
      ReleaseAllExact(cfg, Contents());
      HoldingsNonNegative(cfg, journeys);
      ReleaseOneByOne(CLOSE_SEAL_RESERVATION_BYTES * Seals(pending));
    }

    /** Every open journey gives back what it holds, one after the other. */
    method ReleaseOneByOne(ghost seals: nat)
      requires forall id :: id in journeys ==> Settled(cfg, journeys[id])
      requires flightArtifactBytes == SumHeld(journeys, HeldBytes)
      requires closeSealReservedBytes == seals + SumHeld(journeys, HeldSeal)
      modifies `journeys, `flightArtifactBytes, `closeSealReservedBytes
      ensures journeys == map[] && flightArtifactBytes == 0 && closeSealReservedBytes == seals
    {
      hide Settled;
      while journeys != map[]
        invariant forall id :: id in journeys ==> Settled(cfg, journeys[id])
        invariant flightArtifactBytes == SumHeld(journeys, HeldBytes)
        invariant closeSealReservedBytes == seals + SumHeld(journeys, HeldSeal)
        decreases |journeys|
      {
        var id :| id in journeys;
        OneFewer(cfg, journeys, id);
        flightArtifactBytes := Max(0, flightArtifactBytes - journeys[id].artifactBytes);
        closeSealReservedBytes := Max(0, closeSealReservedBytes - journeys[id].reservation);
        journeys := journeys - {id};
      }
    }

    method FailPermanently()
      requires Valid()
      modifies this
      ensures Valid()
      ensures Contents() == BecomeUnavailable(old(Contents()))
    {
      hide Bytes, Seals, SumHeld;
      BecomeUnavailableExact(cfg, Contents());
      if permanentlyUnavailable { return; }
      permanentlyUnavailable := true;
      worker := worker.(ready := false);
      ReleaseJourneys();
      ClearQueue();
    }

    method ClearQueue()
      requires Numbered()
      modifies this
      ensures Numbered()
      ensures Contents() == ClearPending(old(Contents()))
    {
      pending := [];
      ordinaryPendingBytes, reservedPendingBytes, closeSealReservedBytes := 0, 0, 0;
    }

    /** The synchronous part of closing the authority. */
    method BeginClose()
      requires Valid()
      modifies this
      ensures Valid()
      ensures Contents() == BeginShutdown(old(Contents()))
    {
      hide Bytes, Seals, SumHeld;
      if closed { return; }
      closed := true;
      worker := worker.(restartScheduled := false);
      ReleaseJourneys();
    }

    /** Its end, after the queue drained or the deadline passed. */
    method EndClose()
      requires Valid()
      modifies this
      ensures Valid()
      ensures Contents() == EndShutdown(old(Contents()))
    {
      hide Exact;
      EndShutdownExact(cfg, Contents());
      if !closed { return; }
      worker := worker.(current := None);
      posted := [];
      ClearQueue();
    }
  }
}
