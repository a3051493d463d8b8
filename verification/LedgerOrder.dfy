/**
 What an operation may add to the queue, and what follows for whole runs:
 entries keep their order of admission, leave only when they are settled, and
 are handed to every generation of the worker exactly once.
 */
module LedgerOrder {
  import opened Options
  import opened Ledger
  import opened LedgerRuns

  // -------------------------------------------------------------- extension

  /** A message of journey `id` other than its seal, numbered no higher than `q`. */
  predicate About(m: Message, id: RequestId, q: nat) {
    !m.RuntimeEvent? && m.id == id && !IsSeal(m) && (m.Append? ==> m.sequence <= q)
  }

  function Added(s: State, s': State): seq<Entry>
    requires |s.history.log| <= |s'.history.log|
  {
    s'.history.log[|s.history.log|..]
  }

  /** From `s` to `s'` some messages were admitted, and nothing else happened to the queue. */
  ghost predicate Grows(s: State, s': State) {
    && s.history.log <= s'.history.log
    && s'.pending == s.pending + Added(s, s')
    && s'.history.posted == s.history.posted + (if s.Live() then Added(s, s') else [])
    && (forall i :: |s.history.log| <= i < |s'.history.log| ==> s'.history.log[i].stamp == i)
    && s'.worker == s.worker && s'.closed == s.closed && s'.unavailable == s.unavailable
    && s'.history.nacked == s.history.nacked
  }

  /** The admitted messages belong to one journey, and the open journeys are untouched. */
  ghost predicate Extends(s: State, s': State, id: RequestId, q: nat) {
    && Grows(s, s')
    && s'.journeys == s.journeys
    && s'.history == s.history.(log := s'.history.log, posted := s'.history.posted)
    && forall i :: |s.history.log| <= i < |s'.history.log| ==> About(s'.history.log[i].message, id, q)
  }

  lemma GrowsTrans(a: State, b: State, c: State)
    requires Grows(a, b) && Grows(b, c)
    ensures Grows(a, c)
  {
    assert Added(a, c) == Added(a, b) + Added(b, c);
    assert a.pending + Added(a, b) + Added(b, c) == a.pending + (Added(a, b) + Added(b, c));
    assert a.history.posted + Added(a, b) + Added(b, c) == a.history.posted + (Added(a, b) + Added(b, c));
  }

  lemma ExtendsTrans(a: State, b: State, c: State, id: RequestId, q: nat, r: nat)
    requires Extends(a, b, id, q) && Extends(b, c, id, r) && q <= r
    ensures Extends(a, c, id, r)
  {
    GrowsTrans(a, b, c);
  }

  lemma AdmitForExtends(cfg: Config, s: State, m: Message, j: Journey, id: RequestId, q: nat)
    requires About(m, id, q)
    ensures Extends(s, AdmitFor(cfg, s, m, j).0, id, q)
    ensures AdmitFor(cfg, s, m, j).1 == j.(degraded := AdmitFor(cfg, s, m, j).1.degraded)
    ensures j.degraded ==> AdmitFor(cfg, s, m, j).1.degraded
  {
  }

  lemma {:induction false} AppendChunksExtends(cfg: Config, s: State, id: RequestId, j: Journey, f: Flight,
      bytes: seq<Byte>)
    ensures Extends(s, AppendChunks(cfg, s, id, j, f, bytes).0, id, j.sequence)
    ensures AppendChunks(cfg, s, id, j, f, bytes).1.sequence == j.sequence
    ensures AppendChunks(cfg, s, id, j, f, bytes).1.artifacts == j.artifacts
    decreases |bytes|
  {
    hide Extends, AdmitFor;
    ExtendsRefl(s, id, j.sequence);
    if bytes != [] {
      var n := Min(|bytes|, MAX_ARTIFACT_WRITE_CHUNK_BYTES);
      var m := ArtifactChunk(id, f.descriptor.artifactId, f.nextChunkIndex, f.capturedBytes, bytes[..n]);
      AdmitForExtends(cfg, s, m, j, id, j.sequence);
      var (s0, j0, _) := AdmitFor(cfg, s, m, j);
      ExtendsSameQueue(s, s0, s0.(flightBytes := s0.flightBytes + n), id, j.sequence);
      var (s', j', f', ok) := AppendChunk(cfg, s, id, j, f, bytes[..n]);
      if ok {
        AppendChunksExtends(cfg, s', id, j', f', bytes[n..]);
        ExtendsTrans(s, s', AppendChunks(cfg, s', id, j', f', bytes[n..]).0, id, j.sequence, j.sequence);
      }
    }
  }

  lemma ExtendsRefl(s: State, id: RequestId, q: nat)
    ensures Extends(s, s, id, q)
  {
  }

  lemma ExtendsSameQueue(s: State, a: State, b: State, id: RequestId, q: nat)
    requires Extends(s, a, id, q)
    requires b == a.(flightBytes := b.flightBytes)
    ensures Extends(s, b, id, q)
  {
  }

  lemma FlushFlightExtends(cfg: Config, s: State, id: RequestId, j: Journey, f: Flight, outcome: Outcome)
    requires f.sequence <= j.sequence
    ensures Extends(s, FlushFlight(cfg, s, id, j, f, outcome).0, id, j.sequence)
    ensures FlushFlight(cfg, s, id, j, f, outcome).1 ==
              j.(degraded := FlushFlight(cfg, s, id, j, f, outcome).1.degraded,
                  artifactBytes := j.artifactBytes - f.capturedBytes)
    ensures j.degraded ==> FlushFlight(cfg, s, id, j, f, outcome).1.degraded
  {
    hide Extends, AdmitFor, FinalDescriptor;
    var j0 := if f.finished then j else j.(degraded := true);
    var d := FinalDescriptor(j0, f, outcome);
    var m := Append(id, f.sequence, ArtifactPayload(d));
    AdmitForExtends(cfg, s, m, j0, id, j.sequence);
    var (s1, j1, ok) := AdmitFor(cfg, s, m, j0);
    if ok {
      ExtendsSameQueue(s, s1, FlushFlight(cfg, s, id, j, f, outcome).0, id, j.sequence);
    } else {
      var m' := Append(id, f.sequence, ArtifactPayload(d.(state := Unavailable, reason := Some(QUEUE_EXHAUSTED))));
      AdmitForExtends(cfg, s1, m', j1, id, j.sequence);
      ExtendsTrans(s, s1, AdmitFor(cfg, s1, m', j1).0, id, j.sequence, j.sequence);
      ExtendsSameQueue(s, AdmitFor(cfg, s1, m', j1).0, FlushFlight(cfg, s, id, j, f, outcome).0, id, j.sequence);
    }
  }

  lemma {:induction false} FlushFlightsExtends(cfg: Config, s: State, id: RequestId, j: Journey, flights: seq<Flight>,
      outcome: Outcome)
    requires forall i :: 0 <= i < |flights| ==> flights[i].sequence <= j.sequence
    ensures Extends(s, FlushFlights(cfg, s, id, j, flights, outcome).0, id, j.sequence)
    ensures var j' := FlushFlights(cfg, s, id, j, flights, outcome).1;
            j' == j.(degraded := j'.degraded, artifactBytes := j'.artifactBytes) && (j.degraded ==> j'.degraded)
    decreases |flights|
  {
    hide Extends, FlushFlight;
    ExtendsRefl(s, id, j.sequence);
    if flights != [] {
      FlushFlightExtends(cfg, s, id, j, flights[0], outcome);
      var (s', j') := FlushFlight(cfg, s, id, j, flights[0], outcome);
      FlushFlightsExtends(cfg, s', id, j', flights[1..], outcome);
      ExtendsTrans(s, s', FlushFlights(cfg, s', id, j', flights[1..], outcome).0, id, j.sequence, j.sequence);
    }
  }

  lemma AdmitFallbackExtends(cfg: Config, s: State, id: RequestId, j: Journey, fact: Fact)
    ensures var (s', j', ok) := AdmitFallback(cfg, s, id, j, fact);
            && Extends(s, s', id, j.sequence)
            && j' == j.(degraded := j'.degraded, fallbackBytes := j'.fallbackBytes) && (j.degraded ==> j'.degraded)
  {
    hide HasKey;
  }

  lemma FallbackExtends(cfg: Config, s: State, id: RequestId, j: Journey, seal: Seal)
    ensures var (s', j', _) := RecordFallback(cfg, s, id, j, seal);
            && Extends(s, s', id, j'.sequence)
            && j.sequence <= j'.sequence <= j.sequence + 1
            && j'.artifacts == j.artifacts && j'.reservation == j.reservation
            && (j.degraded ==> j'.degraded)
  {
    hide ProjectSeal, FallbackFact, Extends, AdmitFallback;
    ExtendsRefl(s, id, j.sequence);
    AdmitFallbackExtends(cfg, s, id, Observed(j.(degraded := true)), FallbackFact(id, j.lastKnownLocation, seal));
  }

  /** Up to the seal, `close` admits messages of its own journey that are numbered below the seal. */
  lemma PrepareCloseExtends(cfg: Config, s: State, id: RequestId, input: CloseInput, course: Course)
    requires id in s.journeys && FlightsNumbered(s.journeys[id])
    ensures var (s', j', _) := PrepareClose(cfg, s, id, input, course);
            && j'.sequence > s.journeys[id].sequence
            && Extends(s, s', id, j'.sequence - 1)
            && j'.reservation == s.journeys[id].reservation
            && (s.journeys[id].degraded ==> j'.degraded)
  {
    hide Extends, RecordFallback, FlushFlights, ProjectSeal;
    var j := s.journeys[id];
    var seal0 := ProjectSeal(input, j);
    var j0 := j.(finalOutcome := Some(seal0.outcome));
    ExtendsRefl(s, id, j.sequence + 1);
    FallbackExtends(cfg, s, id, j0, seal0);
    var (s1, j1, _) := RecordFallback(cfg, s, id, j0, seal0);
    var flights := j1.artifacts[..ReportsOf(j1.artifacts, course)];
    FlushFlightsExtends(cfg, s1, id, j1, flights, seal0.outcome);
    ExtendsTrans(s, s1, FlushFlights(cfg, s1, id, j1, flights, seal0.outcome).0, id, j1.sequence, j1.sequence);
  }

  /** The one message that a close admits after its reports. */
  ghost predicate SealedOnce(s: State, s': State, id: RequestId, q: nat, ok: bool) {
    && Grows(s, s') && s'.journeys == s.journeys
    && s'.history == s.history.(log := s'.history.log, posted := s'.history.posted)
    && |s'.history.log| == |s.history.log| + (if ok then 1 else 0)
    && (ok ==> exists p :: s'.history.log[|s.history.log|].message == Append(id, q, SealPayload(p)))
  }

  lemma AdmitSealGrows(cfg: Config, s: State, id: RequestId, j: Journey, seal: Seal)
    ensures var (s', j', ok) := AdmitSeal(cfg, s, id, j, seal);
            SealedOnce(s, s', id, j.sequence, ok) && (!ok ==> s' == s && j' == j.(degraded := true))
  {
    var (s', j', ok) := AdmitSeal(cfg, s, id, j, seal);
    if ok { assert s'.history.log[|s.history.log|].message == Append(id, j.sequence, SealPayload(seal)); }
  }

  /** The seal is admitted at most once, as the last message of its journey. */
  lemma SealGrows(cfg: Config, s: State, id: RequestId, j: Journey, seal: Seal, course: Course)
    ensures var (s', j', ok) := SealClose(cfg, s, id, j, seal, course); SealedOnce(s, s', id, j.sequence, ok)
  {
    hide AdmitSeal, SealedOnce;
    NoSeal(s, id, j.sequence);
    AdmitSealGrows(cfg, s, id, j, seal);
    AdmitSealGrows(cfg, s, id, j.(degraded := true), MinimalSeal());
  }

  lemma NoSeal(s: State, id: RequestId, q: nat)
    ensures SealedOnce(s, s, id, q, false)
  {
  }

  // -------------------------------------------------------------- invariant

  predicate SameJourney(m: Message, n: Message) { !m.RuntimeEvent? && !n.RuntimeEvent? && m.id == n.id }

  /** A journey has at most one seal, and it comes after, and is numbered above, all its other messages. */
  predicate SealsLast(log: seq<Entry>) {
    forall i, k ::
      0 <= i < |log| && 0 <= k < |log| && i != k &&
      IsSeal(log[i].message) && SameJourney(log[i].message, log[k].message) ==>
        k < i && (log[k].message.Append? ==> log[k].message.sequence < log[i].message.sequence)
  }

  predicate NumberedEntry(s: State, m: Message) {
    m.RuntimeEvent? ||
    (m.id in s.history.used &&
     (m.id in s.journeys ==> !IsSeal(m) && (m.Append? ==> m.sequence <= s.journeys[m.id].sequence)))
  }

  predicate FlightsNumbered(j: Journey) {
    forall i :: 0 <= i < |j.artifacts| ==> j.artifacts[i].sequence <= j.sequence
  }

  /** An open journey's admitted messages are numbered up to its counter, and none of them is a seal. */
  ghost predicate Numbered(s: State) {
    && (forall id :: id in s.journeys ==> id in s.history.used && FlightsNumbered(s.journeys[id]))
    && (forall i :: 0 <= i < |s.history.log| ==> NumberedEntry(s, s.history.log[i].message))
    && SealsLast(s.history.log)
  }

  /** The queue holds admitted messages in the order of their admission. */
  ghost predicate Ordered(s: State) {
    && (forall i :: 0 <= i < |s.history.log| ==> s.history.log[i].stamp == i)
    && (forall i :: 0 <= i < |s.pending| ==>
         s.pending[i].stamp < |s.history.log| && s.history.log[s.pending[i].stamp] == s.pending[i])
    && (forall i, k :: 0 <= i < k < |s.pending| ==> s.pending[i].stamp < s.pending[k].stamp)
  }

  lemma GrowsOrdered(s: State, s': State)
    requires Ordered(s) && Grows(s, s')
    ensures Ordered(s')
  {
  }

  lemma ExtendsNumbered(s: State, s': State, id: RequestId, j: Journey)
    requires Numbered(s) && Extends(s, s', id, j.sequence)
    requires id in s.journeys && s.journeys[id].sequence <= j.sequence && FlightsNumbered(j)
    ensures Numbered(SetJourney(s', id, j))
  {
    var log := s'.history.log;
    forall i | 0 <= i < |log| ensures NumberedEntry(SetJourney(s', id, j), log[i].message) {
      if i < |s.history.log| { assert log[i] == s.history.log[i]; }
    }
    SealsStayLast(s, s', id, j.sequence);
  }

  lemma SealsStayLast(s: State, s': State, id: RequestId, q: nat)
    requires Numbered(s) && Extends(s, s', id, q) && id in s.journeys
    ensures SealsLast(s'.history.log)
  {
    var prior, log := s.history.log, s'.history.log;
    assert forall i :: 0 <= i < |prior| ==> log[i] == prior[i];
    forall i, k | 0 <= i < |log| && 0 <= k < |log| && i != k && IsSeal(log[i].message) &&
        SameJourney(log[i].message, log[k].message)
      ensures k < i && (log[k].message.Append? ==> log[k].message.sequence < log[i].message.sequence)
    {
      assert i < |prior|;
      assert NumberedEntry(s, prior[i].message);
      assert k < |prior|;
    }
  }

  /** Only the numbering of the open journeys matters. */
  lemma SameNumbers(s: State, s': State)
    requires Numbered(s)
    requires s'.history.log == s.history.log && s'.history.used == s.history.used
    requires s'.journeys.Keys <= s.journeys.Keys
    requires forall id :: id in s'.journeys ==>
               s'.journeys[id].sequence == s.journeys[id].sequence && FlightsNumbered(s'.journeys[id])
    ensures Numbered(s')
  {
    forall i | 0 <= i < |s'.history.log| ensures NumberedEntry(s', s'.history.log[i].message) {
      assert NumberedEntry(s, s.history.log[i].message);
    }
  }

  ghost predicate Queued(s: State) { Numbered(s) && Ordered(s) }

  /** Messages admitted for an open journey, followed by a change to that journey. */
  lemma ExtendsQueued(s: State, s': State, id: RequestId, j: Journey)
    requires Queued(s) && Extends(s, s', id, j.sequence)
    requires id in s.journeys && s.journeys[id].sequence <= j.sequence && FlightsNumbered(j)
    ensures Queued(SetJourney(s', id, j))
  {
    ExtendsNumbered(s, s', id, j);
    GrowsOrdered(s, s');
  }

  lemma OpenedQueued(s: State, s1: State, id: RequestId, j: Journey)
    requires Queued(s) && id !in s.history.used && FlightsNumbered(j)
    requires s1.journeys == s.journeys[id := j] && s1.pending == s.pending
    requires s1.history == s.history.(used := s.history.used + {id}, offers := s1.history.offers)
    ensures Queued(s1)
  {
    forall i | 0 <= i < |s.history.log| ensures NumberedEntry(s1, s1.history.log[i].message) {
      assert NumberedEntry(s, s.history.log[i].message);
    }
  }

  lemma BeginQueued(cfg: Config, s: State, id: RequestId, captureAll: bool, captureFailed: bool)
    requires Queued(s) && (id in s.history.used ==> id in s.journeys)
    ensures Queued(Begin(cfg, s, id, captureAll, captureFailed).0)
  {
    hide Queued, Extends;
    if Begin(cfg, s, id, captureAll, captureFailed).1 {
      var j := FreshJourney(captureAll, captureFailed);
      var s1 := s.(sealReserved := s.sealReserved + CLOSE_SEAL_RESERVATION_BYTES, journeys := s.journeys[id := j],
                   history := s.history.(used := s.history.used + {id},
                       offers := s.history.offers[id := Offer([], [])]));
      OpenedQueued(s, s1, id, j);
      AdmitForExtends(cfg, s1, Append(id, 0, BeginPayload), j, id, 0);
      ExtendsQueued(s1, AdmitFor(cfg, s1, Append(id, 0, BeginPayload), j).0, id, j);
      assert s1.journeys[id := j] == s1.journeys;
    }
  }

  lemma HistoryQueued(s: State, s': State)
    requires Queued(s)
    requires s' == s.(history := s.history.(offers := s'.history.offers, appended := s'.history.appended,
                                                nacked := s'.history.nacked, broken := s'.history.broken))
    ensures Queued(s')
  {
    SameNumbers(s, s');
  }

  lemma ObserveQueued(cfg: Config, s: State, id: RequestId, fact: Fact, reading: Reading)
    requires Queued(s)
    ensures Queued(Observe(cfg, s, id, fact, reading))
  {
    hide Extends, AdmitFor, Queued, SetJourney;
    if s.Serving() && id in s.journeys {
      var j := s.journeys[id];
      var s1 := OfferFact(s, id, fact);
      HistoryQueued(s, s1);
      ExtractFlights(s, id);
      ExtendsRefl(s1, id, j.sequence);
      ExtendsRefl(s1, id, j.sequence + 1);
      ExtendsQueued(s1, s1, id, j.(degraded := true));
      ExtendsQueued(s1, s1, id, j.(sequence := j.sequence + 1, degraded := true));
      ExtendsQueued(s1, s1, id, Observed(j).(degraded := true));
      var j3 := Observed(j);
      var m := Append(id, j3.sequence, FactPayload(fact));
      AdmitForExtends(cfg, s1, m, j3, id, j3.sequence);
      var (s', j', ok) := AdmitFor(cfg, s1, m, j3);
      ExtendsQueued(s1, s', id, if ok then NotePrimary(j'.(lastKnownLocation := Some(fact.location)), fact) else j');
    }
  }

  lemma OpenQueued(cfg: Config, s: State, id: RequestId, a: ArtifactId, reading: Reading, original: Option<nat>)
    requires Queued(s)
    ensures Queued(OpenArtifact(cfg, s, id, a, reading, original).0)
  {
    hide Extends, AdmitFor, Queued, SetJourney, FlightIndex;
    if s.Serving() && id in s.journeys {
      var j := s.journeys[id];
      var s1 := OfferArtifact(s, id, a);
      HistoryQueued(s, s1);
      ExtractFlights(s, id);
      ExtendsRefl(s1, id, j.sequence);
      ExtendsRefl(s1, id, j.sequence + 1);
      ExtendsQueued(s1, s1, id, j.(degraded := true));
      var j2 := Observed(j);
      ExtendsQueued(s1, s1, id, j2.(degraded := true));
      var d := OpenDescriptor(a, original);
      var m := ArtifactBegin(id, a, d);
      AdmitForExtends(cfg, s1, m, j2, id, j2.sequence);
      var (s', j', ok) := AdmitFor(cfg, s1, m, j2);
      ExtendsQueued(s1, s', id, j'.(artifacts := j'.artifacts + [NewFlight(j2.sequence, d, ok)]));
    }
  }

  lemma AppendQueued(cfg: Config, s: State, id: RequestId, a: ArtifactId, bytes: seq<Byte>)
    requires Queued(s)
    ensures Queued(AppendArtifact(cfg, s, id, a, bytes))
  {
    hide Extends, AppendChunks, Queued, SetJourney, FlightIndex;
    if id in s.journeys && HasFlight(s.journeys[id].artifacts, a) {
      var j := s.journeys[id];
      var k := FlightIndex(j.artifacts, a);
      var f := j.artifacts[k];
      var s1 := RecordAppend(s, id, a, bytes);
      HistoryQueued(s, s1);
      ExtractFlights(s, id);
      if !f.finished && f.accepting {
        var accepted := Accepted(cfg, s1, j, f, |bytes|);
        AppendChunksExtends(cfg, s1, id, j, f, bytes[..accepted]);
        AppendChunksKeepSequence(cfg, s1, id, j, f, bytes[..accepted]);
        var (s', j', f', taken) := AppendChunks(cfg, s1, id, j, f, bytes[..accepted]);
        ExtendsQueued(s1, s', id, j'.(artifacts := j.artifacts[k := AfterAppend(f', |bytes|, accepted, taken)]));
      }
    }
  }

  lemma {:induction false} AppendChunksKeepSequence(cfg: Config, s: State, id: RequestId, j: Journey, f: Flight,
      bytes: seq<Byte>)
    ensures AppendChunks(cfg, s, id, j, f, bytes).2.sequence == f.sequence
    decreases |bytes|
  {
    hide AdmitFor;
    if bytes != [] {
      var n := Min(|bytes|, MAX_ARTIFACT_WRITE_CHUNK_BYTES);
      var (s', j', f', ok) := AppendChunk(cfg, s, id, j, f, bytes[..n]);
      if ok { AppendChunksKeepSequence(cfg, s', id, j', f', bytes[n..]); }
    }
  }

  lemma FinishQueued(cfg: Config, s: State, id: RequestId, a: ArtifactId, input: FinishInput)
    requires Queued(s)
    ensures Queued(FinishArtifact(cfg, s, id, a, input))
  {
    hide Extends, AdmitFor, Queued, SetJourney, FlightIndex;
    if id in s.journeys && HasFlight(s.journeys[id].artifacts, a) {
      var j := s.journeys[id];
      var k := FlightIndex(j.artifacts, a);
      var f := j.artifacts[k];
      ExtractFlights(s, id);
      if !f.finished && input.BadFinish? {
        var s1 := RecordBreak(s, id, a);
        HistoryQueued(s, s1);
        ExtendsRefl(s1, id, j.sequence);
        ExtendsQueued(s1, s1, id, j.(degraded := true, artifacts := j.artifacts[k := BrokenFlight(f)]));
      } else if !f.finished {
        var m := FinishMessage(id, f, input);
        AdmitForExtends(cfg, s, m, j, id, j.sequence);
        var (s', j', ok) := AdmitFor(cfg, s, m, j);
        ExtendsQueued(s, s', id, j'.(artifacts := j.artifacts[k := FinishedFlight(f, m, ok)]));
      }
    }
  }

  /** Admitting the seal and forgetting the journey. */
  lemma SealNumbered(s: State, s': State, id: RequestId, q: nat, p: Seal)
    requires Numbered(s) && id in s.journeys && s.journeys[id].sequence < q
    requires Grows(s, s') && |s'.history.log| == |s.history.log| + 1
    requires s'.history.log[|s.history.log|].message == Append(id, q, SealPayload(p))
    requires s'.history.used == s.history.used && s'.journeys == s.journeys
    ensures Numbered(s'.(journeys := s'.journeys - {id}))
  {
    var prior, log := s.history.log, s'.history.log;
    assert forall i :: 0 <= i < |prior| ==> log[i] == prior[i];
    forall i | 0 <= i < |log| ensures NumberedEntry(s'.(journeys := s'.journeys - {id}), log[i].message) {
      if i < |prior| { assert NumberedEntry(s, prior[i].message); }
    }
    forall i, k | 0 <= i < |log| && 0 <= k < |log| && i != k && IsSeal(log[i].message) &&
        SameJourney(log[i].message, log[k].message)
      ensures k < i && (log[k].message.Append? ==> log[k].message.sequence < log[i].message.sequence)
    {
      if i < |prior| { assert NumberedEntry(s, prior[i].message); } else { assert NumberedEntry(s, prior[k].message); }
    }
  }

  lemma CloseQueued(cfg: Config, s: State, id: RequestId, input: CloseInput, course: Course)
    requires Queued(s)
    ensures Queued(Close(cfg, s, id, input, course))
  {
    hide Extends, Grows, PrepareClose, SealClose, Queued, SealedOnce, CourseTaken;
    if s.Serving() && id in s.journeys {
      var taken := CourseTaken(s.journeys[id], input, course);
      ExtractFlights(s, id);
      PrepareCloseExtends(cfg, s, id, input, taken);
      var (s1, j1, seal) := PrepareClose(cfg, s, id, input, taken);
      ExtendsToPrevious(s, s1, id, j1);
      var s1' := SetJourney(s1, id, s.journeys[id].(sequence := j1.sequence - 1));
      SealGrows(cfg, s1, id, j1, seal, taken);
      var (s2, j2, ok) := SealClose(cfg, s1, id, j1, seal, taken);
      SealedQueued(s1', s1, s2, id, j1.sequence, ok);
      var s3 := Release(s2, id, j2);
      assert s3 == s2.(journeys := s2.journeys - {id}, flightBytes := s3.flightBytes, sealReserved := s3.sealReserved);
      CountersQueued(s2.(journeys := s2.journeys - {id}), s3);
    }
  }

  lemma ExtractFlights(s: State, id: RequestId)
    requires Queued(s) && id in s.journeys
    ensures FlightsNumbered(s.journeys[id]) && id in s.history.used
  {
  }

  lemma CountersQueued(s: State, s': State)
    requires Queued(s)
    requires s' == s.(ordinary := s'.ordinary, reserved := s'.reserved, sealReserved := s'.sealReserved,
               flightBytes := s'.flightBytes)
    ensures Queued(s')
  {
    SameNumbers(s, s');
  }

  lemma ExtendsToPrevious(s: State, s1: State, id: RequestId, j1: Journey)
    requires Queued(s) && id in s.journeys && j1.sequence > s.journeys[id].sequence &&
               Extends(s, s1, id, j1.sequence - 1)
    ensures Queued(SetJourney(s1, id, s.journeys[id].(sequence := j1.sequence - 1)))
  {
    ExtendsQueued(s, s1, id, s.journeys[id].(sequence := j1.sequence - 1));
  }

  lemma SealedQueued(s1': State, s1: State, s2: State, id: RequestId, q: nat, ok: bool)
    requires Queued(s1') && id in s1'.journeys && s1'.journeys[id].sequence < q
    requires s1' == s1.(journeys := s1'.journeys) && s1'.journeys - {id} == s1.journeys - {id}
    requires SealedOnce(s1, s2, id, q, ok)
    ensures Queued(s2.(journeys := s2.journeys - {id}))
  {
    var s2' := s2.(journeys := s1'.journeys);
    assert s2.(journeys := s2.journeys - {id}) == s2'.(journeys := s2'.journeys - {id});
    if ok {
      var p :| s2.history.log[|s1.history.log|].message == Append(id, q, SealPayload(p));
      assert Grows(s1', s2');
      SealNumbered(s1', s2', id, q, p);
    } else {
      assert s2.history.log == s1.history.log;
      SameNumbers(s1', s2'.(journeys := s2'.journeys - {id}));
    }
    GrowsOrdered(s1, s2);
  }

  lemma SettleQueued(s: State, g: nat, key: Option<Key>, accepted: bool, classification: string)
    requires Queued(s)
    ensures Queued(Settle(s, g, key, accepted, classification))
  {
    hide Queued, Remove, Reject;
    if s.worker.current == Some(g) && key.Some? && EntryIndex(s.pending, key.value) < |s.pending| {
      var i := EntryIndex(s.pending, key.value);
      RemoveQueued(s, i);
      RejectQueued(Remove(s, i), s.pending[i], classification);
    } else {
      WorkerQueued(s, Settle(s, g, key, accepted, classification));
    }
  }

  lemma RemoveQueued(s: State, i: nat)
    requires Queued(s) && i < |s.pending|
    ensures Queued(Remove(s, i))
  {
    SameNumbers(s, Remove(s, i));
  }

  lemma RejectQueued(s: State, e: Entry, classification: string)
    requires Queued(s)
    ensures Queued(Reject(s, e, classification))
  {
    hide Queued, FlightIndex;
    var s1 := RecordRejection(s, e);
    HistoryQueued(s, s1);
    if !e.message.RuntimeEvent? && e.message.id in s.journeys {
      var id := e.message.id;
      ExtractFlights(s, id);
      ExtendsRefl(s1, id, s.journeys[id].sequence);
      ExtendsQueued(s1, s1, id, Reject(s, e, classification).journeys[id]);
    }
  }

  lemma StepQueued(cfg: Config, s: State, a: Action)
    requires Queued(s) && Fresh(s, a)
    ensures Queued(Step(cfg, s, a))
  {
    hide Begin, Observe, OpenArtifact, AppendArtifact, FinishArtifact, Close, Settle, Queued;
    match a
    case DoBegin(id, all, failed) => BeginQueued(cfg, s, id, all, failed);
    case DoObserve(id, fact, reading) => ObserveQueued(cfg, s, id, fact, reading);
    case DoOpen(id, artifact, reading, original) => OpenQueued(cfg, s, id, artifact, reading, original);
    case DoAppend(id, artifact, bytes) => AppendQueued(cfg, s, id, artifact, bytes);
    case DoFinish(id, artifact, finish) => FinishQueued(cfg, s, id, artifact, finish);
    case DoClose(id, input, course) => CloseQueued(cfg, s, id, input, course);
    case DoRuntimeEvent(clock) => RuntimeEventQueued(cfg, s, clock);
    case DoSettle(g, key, accepted, classification) => SettleQueued(s, g, key, accepted, classification);
    case DoReady(g) => WorkerQueued(s, Step(cfg, s, a));
    case DoFail(g) => WorkerQueued(s, Step(cfg, s, a));
    case DoStartupFailure(g) => WorkerQueued(s, Step(cfg, s, a));
    case DoStart(started) => WorkerQueued(s, Step(cfg, s, a));
    case DoBeginShutdown => WorkerQueued(s, Step(cfg, s, a));
    case DoEndShutdown => WorkerQueued(s, Step(cfg, s, a));
  }

  lemma WorkerQueued(s: State, s': State)
    requires Queued(s)
    requires s'.history == s.history.(posted := s'.history.posted)
    requires s'.journeys == s.journeys || s'.journeys == map[]
    requires s'.pending == s.pending || s'.pending == []
    ensures Queued(s')
  {
    SameNumbers(s, s');
  }

  lemma RuntimeEventQueued(cfg: Config, s: State, clock: bool)
    requires Queued(s)
    ensures Queued(RuntimeEventOffered(cfg, s, clock))
  {
  }

  lemma {:induction false} QueueIsOrdered(cfg: Config, actions: seq<Action>)
    requires Legal(cfg, actions)
    ensures Queued(After(cfg, actions))
  {
    if actions != [] {
      QueueIsOrdered(cfg, actions[..|actions| - 1]);
      StepQueued(cfg, After(cfg, actions[..|actions| - 1]), actions[|actions| - 1]);
    }
  }
}
