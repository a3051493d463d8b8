/**
 The keys under which messages are acknowledged: over a whole run no two
 admitted messages share one, and no message that an operation is about to
 admit has the key of a pending one.
 */
module LedgerKeys {
  import opened Options
  import opened Ledger
  import opened LedgerRuns
  import opened LedgerOrder
  import opened LedgerArtifacts

  predicate NumberIn(flights: seq<Flight>, q: nat) {
    exists i :: 0 <= i < |flights| && flights[i].sequence == q
  }

  /** The numbers that a journey may still use: those above its counter, and those that its recorders keep for
      their reports. */
  predicate FreeNumber(j: Journey, q: nat) { q > j.sequence || NumberIn(j.artifacts, q) }

  /** The indexes that an artifact may still use: all before it is opened, then those of further chunks, and that of
      its finish. */
  predicate FreeIndex(flights: seq<Flight>, a: ArtifactId, n: int) {
    forall i :: 0 <= i < |flights| && flights[i].descriptor.artifactId == a ==>
      n >= flights[i].nextChunkIndex || (n == -2 && !flights[i].finished)
  }

  /** A key under which a message may still be admitted. */
  predicate Free(s: State, k: Key) {
    match k
    case EventKey(n) => n >= s.nextEvent
    case JourneyKey(id, q) => if id in s.journeys then FreeNumber(s.journeys[id], q) else id !in s.history.used
    case ArtifactKey(id, a, n) =>
      if id in s.journeys then FreeIndex(s.journeys[id].artifacts, a, n) else id !in s.history.used
  }

  predicate DistinctNumbers(flights: seq<Flight>) {
    forall i, k :: 0 <= i < k < |flights| ==> flights[i].sequence != flights[k].sequence
  }

  /** Admitted messages have different keys, none of which is still free. */
  ghost predicate Unrepeated(s: State) {
    && (forall i, k :: 0 <= i < k < |s.history.log| ==> s.history.log[i].Key() != s.history.log[k].Key())
    && (forall i :: 0 <= i < |s.history.log| ==> !Free(s, s.history.log[i].Key()))
    && (forall id :: id in s.journeys ==> id in s.history.used && DistinctNumbers(s.journeys[id].artifacts))
  }

  // --------------------------------------------------------- what is admitted

  /** The messages admitted from `s` to `s'` have different keys. */
  ghost predicate Differ(s: State, s': State) {
    && s.history.log <= s'.history.log
    && forall i, k :: |s.history.log| <= i < k < |s'.history.log| ==> s'.history.log[i].Key() != s'.history.log[k].Key()
  }

  ghost predicate Shrinks(s: State, s': State) { forall k :: Free(s', k) ==> Free(s, k) }

  /** New messages under free keys that are free no longer. */
  lemma CarryKeys(s: State, s': State)
    requires Unrepeated(s) && Differ(s, s') && Shrinks(s, s')
    requires forall i :: |s.history.log| <= i < |s'.history.log| ==>
               Free(s, s'.history.log[i].Key()) && !Free(s', s'.history.log[i].Key())
    requires forall id :: id in s'.journeys ==> id in s'.history.used && DistinctNumbers(s'.journeys[id].artifacts)
    ensures Unrepeated(s')
  {
    hide Free, DistinctNumbers;
    var log, log' := s.history.log, s'.history.log;
    assert forall i :: 0 <= i < |log| ==> log'[i] == log[i];
    forall i | 0 <= i < |log'| ensures !Free(s', log'[i].Key()) {
      if i < |log| { assert !Free(s, log[i].Key()); }
    }
    forall i, k | 0 <= i < k < |log'| ensures log'[i].Key() != log'[k].Key() {
      if i < |log| { assert !Free(s, log[i].Key()); }
    }
  }

  /** The one message that an operation may admit, under key `k`. */
  ghost predicate AddsOne(s: State, s': State, k: Key) {
    && s.history.log <= s'.history.log && |s'.history.log| <= |s.history.log| + 1
    && forall i :: |s.history.log| <= i < |s'.history.log| ==> s'.history.log[i].Key() == k
  }

  lemma AdmitAddsOne(cfg: Config, s: State, m: Message, j: Journey)
    ensures AddsOne(s, AdmitFor(cfg, s, m, j).0, KeyOf(m))
    ensures SameBase(s, AdmitFor(cfg, s, m, j).0)
  {
    hide HasKey;
  }

  predicate SameBase(s: State, s': State) {
    s'.journeys == s.journeys && s'.history.used == s.history.used && s'.nextEvent == s.nextEvent
  }

  /** An operation on one open journey, whose key counters only advance. */
  predicate Advances(j: Journey, j': Journey) {
    && j.sequence <= j'.sequence && |j.artifacts| <= |j'.artifacts|
    && (forall i :: 0 <= i < |j.artifacts| ==> FlightAdvances(j.artifacts[i], j'.artifacts[i]))
    && (forall i :: |j.artifacts| <= i < |j'.artifacts| ==> j.sequence < j'.artifacts[i].sequence)
    && DistinctNumbers(j'.artifacts)
  }

  predicate FlightAdvances(f: Flight, f': Flight) {
    && f'.sequence == f.sequence && f'.descriptor.artifactId == f.descriptor.artifactId
    && f.nextChunkIndex <= f'.nextChunkIndex && (f.finished ==> f'.finished)
  }

  lemma JourneyShrinks(s: State, s': State, id: RequestId, j: Journey)
    requires id in s.journeys && Advances(s.journeys[id], j)
    requires s'.journeys == s.journeys[id := j] && s'.nextEvent == s.nextEvent && s'.history.used == s.history.used
    ensures Shrinks(s, s')
  {
    forall k | Free(s', k) ensures Free(s, k) {
      if k.JourneyKey? && k.id == id { NumberShrinks(s.journeys[id], j, k.sequence); }
      if k.ArtifactKey? && k.id == id { IndexShrinks(s.journeys[id].artifacts, j.artifacts, k.artifact, k.index); }
    }
  }

  lemma NumberShrinks(j: Journey, j': Journey, q: nat)
    requires Advances(j, j') && FreeNumber(j', q)
    ensures FreeNumber(j, q)
  {
    if q <= j.sequence {
      var i :| 0 <= i < |j'.artifacts| && j'.artifacts[i].sequence == q;
      assert i < |j.artifacts| && FlightAdvances(j.artifacts[i], j'.artifacts[i]);
    }
  }

  lemma IndexShrinks(flights: seq<Flight>, flights': seq<Flight>, a: ArtifactId, n: int)
    requires |flights| <= |flights'| && forall i :: 0 <= i < |flights| ==> FlightAdvances(flights[i], flights'[i])
    requires FreeIndex(flights', a, n)
    ensures FreeIndex(flights, a, n)
  {
    forall i | 0 <= i < |flights| && flights[i].descriptor.artifactId == a
      ensures n >= flights[i].nextChunkIndex || (n == -2 && !flights[i].finished)
    {
      assert flights'[i].descriptor.artifactId == a;
    }
  }

  /** Messages of one open journey under keys that were free and are no longer. */
  lemma JourneyKeys(s: State, s': State, id: RequestId, j: Journey)
    requires Unrepeated(s) && Differ(s, s') && id in s.journeys && Advances(s.journeys[id], j)
    requires s'.journeys == s.journeys[id := j] && s'.nextEvent == s.nextEvent && s'.history.used == s.history.used
    requires forall i :: |s.history.log| <= i < |s'.history.log| ==>
               Free(s, s'.history.log[i].Key()) && !Free(s', s'.history.log[i].Key())
    ensures Unrepeated(s')
  {
    hide Free, DistinctNumbers, Differ, FlightAdvances;
    JourneyShrinks(s, s', id, j);
    CarryKeys(s, s');
  }

  lemma OneJourneyKey(s: State, s1: State, id: RequestId, j: Journey, k: Key)
    requires Unrepeated(s) && AddsOne(s, s1, k) && SameBase(s, s1) && id in s.journeys && Advances(s.journeys[id], j)
    requires Free(s, k) && !Free(SetJourney(s1, id, j), k)
    ensures Unrepeated(SetJourney(s1, id, j))
  {
    hide Free, Unrepeated, Advances;
    JourneyKeys(s, SetJourney(s1, id, j), id, j);
  }

  /** No message, and a journey that only advances. */
  lemma QuietJourney(s: State, s1: State, id: RequestId, j: Journey)
    requires Unrepeated(s) && SameBase(s, s1) && s1.history.log == s.history.log
    requires id in s.journeys && Advances(s.journeys[id], j)
    ensures Unrepeated(SetJourney(s1, id, j))
  {
    hide Free, Unrepeated, Advances;
    JourneyKeys(s, SetJourney(s1, id, j), id, j);
  }

  // ------------------------------------------------------------- operations

  lemma BeginKeys(cfg: Config, s: State, id: RequestId, captureAll: bool, captureFailed: bool)
    requires Unrepeated(s) && (id in s.history.used ==> id in s.journeys)
    ensures Unrepeated(Begin(cfg, s, id, captureAll, captureFailed).0)
  {
    var s' := Begin(cfg, s, id, captureAll, captureFailed).0;
    if Begin(cfg, s, id, captureAll, captureFailed).1 {
      BegunKeys(cfg, s, s', id, captureAll, captureFailed);
    }
  }

  lemma BegunKeys(cfg: Config, s: State, s': State, id: RequestId, captureAll: bool, captureFailed: bool)
    requires Unrepeated(s) && id !in s.history.used
    requires Begin(cfg, s, id, captureAll, captureFailed) == (s', true)
    ensures Unrepeated(s')
  {
    hide HasKey;
    var j := FreshJourney(captureAll, captureFailed);
    assert s'.journeys == s.journeys[id := j] && s'.history.used == s.history.used + {id} &&
        s'.nextEvent == s.nextEvent;
    assert AddsOne(s, s', JourneyKey(id, 0));
    NewJourneyKeys(s, s', id, j);
  }

  lemma NewJourneyKeys(s: State, s': State, id: RequestId, j: Journey)
    requires Unrepeated(s) && id !in s.history.used && j.sequence == 0 && j.artifacts == []
    requires s'.journeys == s.journeys[id := j] && s'.history.used == s.history.used + {id} &&
               s'.nextEvent == s.nextEvent
    requires AddsOne(s, s', JourneyKey(id, 0))
    ensures Unrepeated(s')
  {
    assert id !in s.journeys;
    assert Free(s, JourneyKey(id, 0)) && !Free(s', JourneyKey(id, 0));
    CarryKeys(s, s');
  }

  lemma SameAdvances(j: Journey, j': Journey)
    requires j'.artifacts == j.artifacts && j.sequence <= j'.sequence && DistinctNumbers(j.artifacts)
    ensures Advances(j, j')
  {
  }

  lemma ObserveKeys(cfg: Config, s: State, id: RequestId, fact: Fact, reading: Reading)
    requires Unrepeated(s) && Queued(s)
    ensures Unrepeated(Observe(cfg, s, id, fact, reading))
  {
    hide Queued, AdmitFor, Advances, AddsOne, Unrepeated;
    if s.Serving() && id in s.journeys {
      var j := s.journeys[id];
      var s1 := OfferFact(s, id, fact);
      SameHistoryKeys(s, s1);
      ExtractFlights(s, id);
      NumbersDistinct(s, id);
      SameAdvances(j, j.(degraded := true));
      SameAdvances(j, j.(sequence := j.sequence + 1, degraded := true));
      SameAdvances(j, Observed(j).(degraded := true));
      QuietJourney(s1, s1, id, j.(degraded := true));
      QuietJourney(s1, s1, id, j.(sequence := j.sequence + 1, degraded := true));
      QuietJourney(s1, s1, id, Observed(j).(degraded := true));
      var m := Append(id, Observed(j).sequence, FactPayload(fact));
      AdmitAddsOne(cfg, s1, m, Observed(j));
      AdmitForExtends(cfg, s1, m, Observed(j), id, Observed(j).sequence);
      var (s', j', ok) := AdmitFor(cfg, s1, m, Observed(j));
      var j2 := if ok then NotePrimary(j'.(lastKnownLocation := Some(fact.location)), fact) else j';
      SameAdvances(j, j2);
      NextNumber(s1, SetJourney(s', id, j2), id, j2);
      OneJourneyKey(s1, s', id, j2, KeyOf(m));
    }
  }

  /** The next number of a journey is free, and no longer once the journey has counted it. */
  lemma NextNumber(s: State, s': State, id: RequestId, j: Journey)
    requires id in s.journeys && id in s'.journeys && s'.journeys[id] == j && FlightsNumbered(s.journeys[id])
    requires j.artifacts == s.journeys[id].artifacts && j.sequence == s.journeys[id].sequence + 1
    ensures Free(s, JourneyKey(id, j.sequence)) && !Free(s', JourneyKey(id, j.sequence))
  {
  }

  lemma SameHistoryKeys(s: State, s': State)
    requires Unrepeated(s) && SameBase(s, s') && s'.history.log == s.history.log
    ensures Unrepeated(s')
  {
    CarryKeys(s, s');
  }

  lemma OpenKeys(cfg: Config, s: State, id: RequestId, a: ArtifactId, reading: Reading, original: Option<nat>)
    requires Unrepeated(s) && Queued(s)
    ensures Unrepeated(OpenArtifact(cfg, s, id, a, reading, original).0)
  {
    hide Queued, AdmitFor, Advances, AddsOne, FlightIndex, Unrepeated;
    if s.Serving() && id in s.journeys {
      var j := s.journeys[id];
      var s1 := OfferArtifact(s, id, a);
      SameHistoryKeys(s, s1);
      ExtractFlights(s, id);
      NumbersDistinct(s, id);
      SameAdvances(j, j.(degraded := true));
      SameAdvances(j, Observed(j).(degraded := true));
      QuietJourney(s1, s1, id, j.(degraded := true));
      QuietJourney(s1, s1, id, Observed(j).(degraded := true));
      if !HasFlight(j.artifacts, a) {
        var d := OpenDescriptor(a, original);
        var m := ArtifactBegin(id, a, d);
        AdmitAddsOne(cfg, s1, m, Observed(j));
        AdmitForExtends(cfg, s1, m, Observed(j), id, Observed(j).sequence);
        var (s', j', ok) := AdmitFor(cfg, s1, m, Observed(j));
        var j2 := j'.(artifacts := j'.artifacts + [NewFlight(Observed(j).sequence, d, ok)]);
        OpenedAdvances(s1, SetJourney(s', id, j2), id, a, NewFlight(Observed(j).sequence, d, ok), j2);
        OneJourneyKey(s1, s', id, j2, KeyOf(m));
      }
    }
  }

  lemma OpenedAdvances(s: State, s': State, id: RequestId, a: ArtifactId, f: Flight, j: Journey)
    requires Unrepeated(s) && id in s.journeys && id in s'.journeys && s'.journeys[id] == j &&
               FlightsNumbered(s.journeys[id])
    requires !HasFlight(s.journeys[id].artifacts, a) && f.descriptor.artifactId == a && f.nextChunkIndex == 0
    requires j.artifacts == s.journeys[id].artifacts + [f] && j.sequence == f.sequence == s.journeys[id].sequence + 1
    ensures Advances(s.journeys[id], j)
    ensures Free(s, ArtifactKey(id, a, -1)) && !Free(s', ArtifactKey(id, a, -1))
  {
    hide FlightIndex;
    assert DistinctNumbers(s.journeys[id].artifacts);
    assert j.artifacts[|j.artifacts| - 1] == f;
  }

  /** The chunks that a recorder admitted from `f` to `f'`. */
  ghost predicate AddsChunks(s: State, s': State, id: RequestId, f: Flight, f': Flight) {
    && Differ(s, s') && SameBase(s, s') && FlightAdvances(f, f')
    && forall i :: |s.history.log| <= i < |s'.history.log| ==>
         IsChunkKey(s'.history.log[i].Key(), id, f.descriptor.artifactId, f.nextChunkIndex, f'.nextChunkIndex)
  }

  lemma AppendChunkKey(cfg: Config, s: State, id: RequestId, j: Journey, f: Flight, chunk: seq<Byte>)
    ensures var (s', _, f', ok) := AppendChunk(cfg, s, id, j, f, chunk); AddsChunks(s, s', id, f, f')
  {
    hide AdmitFor;
    var m := ArtifactChunk(id, f.descriptor.artifactId, f.nextChunkIndex, f.capturedBytes, chunk);
    AdmitAddsOne(cfg, s, m, j);
    RefusedAddsNothing(cfg, s, m, j);
  }

  lemma ChunksTogether(s: State, s1: State, s2: State, id: RequestId, f: Flight, f1: Flight, f2: Flight)
    requires AddsChunks(s, s1, id, f, f1) && AddsChunks(s1, s2, id, f1, f2)
    ensures AddsChunks(s, s2, id, f, f2)
  {
    assert forall i :: 0 <= i < |s1.history.log| ==> s2.history.log[i] == s1.history.log[i];
    forall i | |s.history.log| <= i < |s2.history.log|
      ensures IsChunkKey(s2.history.log[i].Key(), id, f.descriptor.artifactId, f.nextChunkIndex, f2.nextChunkIndex)
      ensures (i < |s1.history.log|) == (s2.history.log[i].Key().index < f1.nextChunkIndex)
    {
      if i < |s1.history.log| {
        assert IsChunkKey(s1.history.log[i].Key(), id, f.descriptor.artifactId, f.nextChunkIndex, f1.nextChunkIndex);
      }
    }
  }

  lemma {:induction false} AppendChunksKeys(cfg: Config, s: State, id: RequestId, j: Journey, f: Flight,
      bytes: seq<Byte>)
    ensures AddsChunks(s, AppendChunks(cfg, s, id, j, f, bytes).0, id, f, AppendChunks(cfg, s, id, j, f, bytes).2)
    decreases |bytes|
  {
    hide AppendChunk, AddsChunks;
    if bytes == [] {
      NoChunks(s, id, f);
    } else {
      var n := Min(|bytes|, MAX_ARTIFACT_WRITE_CHUNK_BYTES);
      AppendChunkKey(cfg, s, id, j, f, bytes[..n]);
      var (s', j', f', ok) := AppendChunk(cfg, s, id, j, f, bytes[..n]);
      if ok {
        AppendChunksKeys(cfg, s', id, j', f', bytes[n..]);
        var (s2, _, f2, _) := AppendChunks(cfg, s', id, j', f', bytes[n..]);
        ChunksTogether(s, s', s2, id, f, f', f2);
      }
    }
  }

  lemma NoChunks(s: State, id: RequestId, f: Flight)
    ensures AddsChunks(s, s, id, f, f)
  {
  }

  lemma RefusedAddsNothing(cfg: Config, s: State, m: Message, j: Journey)
    ensures !AdmitFor(cfg, s, m, j).2 ==> AdmitFor(cfg, s, m, j).0 == s
  {
  }

  predicate IsChunkKey(k: Key, id: RequestId, a: ArtifactId, low: nat, high: nat) {
    k.ArtifactKey? && k.id == id && k.artifact == a && low <= k.index < high
  }

  /** A chunk's index is free until the recorder has counted it. */
  lemma ChunkIndex(s: State, s': State, id: RequestId, k: nat, key: Key)
    requires id in s.journeys && id in s'.journeys && Distinct(s.journeys[id].artifacts)
    requires k < |s.journeys[id].artifacts| == |s'.journeys[id].artifacts|
    requires var (f, f') := (s.journeys[id].artifacts[k], s'.journeys[id].artifacts[k]);
             && f'.descriptor.artifactId == f.descriptor.artifactId
             && IsChunkKey(key, id, f.descriptor.artifactId, f.nextChunkIndex, f'.nextChunkIndex)
    ensures Free(s, key) && !Free(s', key)
  {
  }

  lemma AppendKeys(cfg: Config, s: State, id: RequestId, a: ArtifactId, bytes: seq<Byte>)
    requires Unrepeated(s) && Artifacts(s)
    ensures Unrepeated(AppendArtifact(cfg, s, id, a, bytes))
  {
    hide Artifacts, AppendChunks, FlightIndex, Advances, Differ, Free, Unrepeated;
    if id in s.journeys && HasFlight(s.journeys[id].artifacts, a) {
      var j := s.journeys[id];
      var k := FlightIndex(j.artifacts, a);
      var f := j.artifacts[k];
      var s1 := RecordAppend(s, id, a, bytes);
      SameHistoryKeys(s, s1);
      DistinctRecorders(s, id);
      NumbersDistinct(s, id);
      if !f.finished && f.accepting {
        var accepted := Accepted(cfg, s1, j, f, |bytes|);
        AppendChunksKeys(cfg, s1, id, j, f, bytes[..accepted]);
        AppendChunksExtends(cfg, s1, id, j, f, bytes[..accepted]);
        var (s', j', f', taken) := AppendChunks(cfg, s1, id, j, f, bytes[..accepted]);
        var f2 := AfterAppend(f', |bytes|, accepted, taken);
        var j2 := j'.(artifacts := j.artifacts[k := f2]);
        OneAdvances(j, j2, k, f2);
        var s2 := SetJourney(s', id, j2);
        forall i | |s1.history.log| <= i < |s2.history.log|
            ensures Free(s1, s2.history.log[i].Key()) && !Free(s2, s2.history.log[i].Key()) {
          ChunkIndex(s1, s2, id, k, s2.history.log[i].Key());
        }
        SameDiffer(s1, s', s2);
        JourneyKeys(s1, s2, id, j2);
      }
    }
  }

  lemma SameDiffer(s: State, s': State, t: State)
    requires Differ(s, s') && t.history == s'.history
    ensures Differ(s, t)
  {
  }

  lemma DistinctRecorders(s: State, id: RequestId)
    requires Artifacts(s) && id in s.journeys
    ensures Distinct(s.journeys[id].artifacts)
  {
  }

  lemma OneAdvances(j: Journey, j': Journey, k: nat, f: Flight)
    requires k < |j.artifacts| && FlightAdvances(j.artifacts[k], f) && DistinctNumbers(j.artifacts)
    requires j'.artifacts == j.artifacts[k := f] && j.sequence <= j'.sequence
    ensures Advances(j, j')
  {
  }

  lemma FinishKeys(cfg: Config, s: State, id: RequestId, a: ArtifactId, input: FinishInput)
    requires Unrepeated(s) && Artifacts(s)
    ensures Unrepeated(FinishArtifact(cfg, s, id, a, input))
  {
    hide Artifacts, AdmitFor, FlightIndex, Advances, AddsOne, Free, Unrepeated;
    if id in s.journeys && HasFlight(s.journeys[id].artifacts, a) {
      var j := s.journeys[id];
      var k := FlightIndex(j.artifacts, a);
      var f := j.artifacts[k];
      DistinctRecorders(s, id);
      NumbersDistinct(s, id);
      if !f.finished && input.BadFinish? {
        var j2 := j.(degraded := true, artifacts := j.artifacts[k := BrokenFlight(f)]);
        OneAdvances(j, j2, k, BrokenFlight(f));
        SameHistoryKeys(s, RecordBreak(s, id, a));
        QuietJourney(RecordBreak(s, id, a), RecordBreak(s, id, a), id, j2);
      } else if !f.finished {
        var m := FinishMessage(id, f, input);
        AdmitAddsOne(cfg, s, m, j);
        AdmitForExtends(cfg, s, m, j, id, j.sequence);
        var (s', j', ok) := AdmitFor(cfg, s, m, j);
        var j2 := j'.(artifacts := j.artifacts[k := FinishedFlight(f, m, ok)]);
        OneAdvances(j, j2, k, FinishedFlight(f, m, ok));
        FinishIndex(s, SetJourney(s', id, j2), id, k);
        OneJourneyKey(s, s', id, j2, KeyOf(m));
      }
    }
  }

  /** The index of a finish is free until the recorder has finished. */
  lemma FinishIndex(s: State, s': State, id: RequestId, k: nat)
    requires id in s.journeys && id in s'.journeys && Distinct(s.journeys[id].artifacts)
    requires k < |s.journeys[id].artifacts| == |s'.journeys[id].artifacts|
    requires var (f, f') := (s.journeys[id].artifacts[k], s'.journeys[id].artifacts[k]);
             !f.finished && f'.finished && f'.descriptor.artifactId == f.descriptor.artifactId
    ensures var key := ArtifactKey(id, s.journeys[id].artifacts[k].descriptor.artifactId, -2);
            Free(s, key) && !Free(s', key)
  {
  }

  // ------------------------------------------------------------------ close

  /** The key of a report on one of these recorders. */
  predicate IsReportKey(k: Key, id: RequestId, flights: seq<Flight>) {
    k.JourneyKey? && k.id == id && NumberIn(flights, k.sequence)
  }

  lemma FlushFlightKey(cfg: Config, s: State, id: RequestId, j: Journey, f: Flight, outcome: Outcome)
    ensures AddsOne(s, FlushFlight(cfg, s, id, j, f, outcome).0, JourneyKey(id, f.sequence))
    ensures SameBase(s, FlushFlight(cfg, s, id, j, f, outcome).0)
  {
    hide AdmitFor, FinalDescriptor;
    var j0 := if f.finished then j else j.(degraded := true);
    var d := FinalDescriptor(j0, f, outcome);
    var m := Append(id, f.sequence, ArtifactPayload(d));
    AdmitAddsOne(cfg, s, m, j0);
    RefusedAddsNothing(cfg, s, m, j0);
    var (s1, j1, _) := AdmitFor(cfg, s, m, j0);
    AdmitAddsOne(cfg, s1, Append(id, f.sequence, ArtifactPayload(d.(state := Unavailable,
        reason := Some(QUEUE_EXHAUSTED)))), j1);
  }

  lemma {:induction false} FlushFlightsKeys(cfg: Config, s: State, id: RequestId, j: Journey, flights: seq<Flight>,
      outcome: Outcome)
    requires DistinctNumbers(flights)
    ensures var s' := FlushFlights(cfg, s, id, j, flights, outcome).0;
            && Differ(s, s')
            && forall i :: |s.history.log| <= i < |s'.history.log| ==> IsReportKey(s'.history.log[i].Key(), id, flights)
    decreases |flights|
  {
    hide FlushFlight;
    if flights != [] {
      FlushFlightKey(cfg, s, id, j, flights[0], outcome);
      var (s', j') := FlushFlight(cfg, s, id, j, flights[0], outcome);
      FlushFlightsKeys(cfg, s', id, j', flights[1..], outcome);
      ReportsDiffer(s, s', FlushFlights(cfg, s', id, j', flights[1..], outcome).0, id, flights);
    }
  }

  lemma ReportsDiffer(s: State, s1: State, s2: State, id: RequestId, flights: seq<Flight>)
    requires flights != [] && DistinctNumbers(flights)
    requires AddsOne(s, s1, JourneyKey(id, flights[0].sequence)) && Differ(s1, s2)
    requires forall i :: |s1.history.log| <= i < |s2.history.log| ==>
               IsReportKey(s2.history.log[i].Key(), id, flights[1..])
    ensures Differ(s, s2)
    ensures forall i :: |s.history.log| <= i < |s2.history.log| ==> IsReportKey(s2.history.log[i].Key(), id, flights)
  {
    var log := s2.history.log;
    assert forall i :: 0 <= i < |s1.history.log| ==> log[i] == s1.history.log[i];
    forall i | |s.history.log| <= i < |log|
      ensures IsReportKey(log[i].Key(), id, flights)
      ensures i >= |s1.history.log| ==> log[i].Key() != JourneyKey(id, flights[0].sequence)
    {
      if i < |s1.history.log| {
        assert log[i].Key() == JourneyKey(id, flights[0].sequence);
      } else {
        var n :| 0 <= n < |flights[1..]| && flights[1..][n].sequence == log[i].Key().sequence;
        assert flights[n + 1].sequence == log[i].Key().sequence;
      }
    }
  }

  /** The keys that a close may use: the failure record's, and those of the reports. */
  predicate IsCloseKey(k: Key, id: RequestId, j: Journey) {
    k.JourneyKey? && k.id == id && (k.sequence == j.sequence + 1 || NumberIn(j.artifacts, k.sequence))
  }

  lemma FallbackKey(cfg: Config, s: State, id: RequestId, j: Journey, seal: Seal)
    ensures AddsOne(s, RecordFallback(cfg, s, id, j, seal).0, JourneyKey(id, j.sequence + 1))
  {
    hide HasKey, ProjectSeal, FallbackFact;
  }

  lemma PreparedKeys(cfg: Config, s: State, id: RequestId, input: CloseInput, course: Course)
    requires id in s.journeys && FlightsNumbered(s.journeys[id]) && DistinctNumbers(s.journeys[id].artifacts)
    ensures var s1 := PrepareClose(cfg, s, id, input, course).0;
            && Differ(s, s1)
            && forall i :: |s.history.log| <= i < |s1.history.log| ==>
                 IsCloseKey(s1.history.log[i].Key(), id, s.journeys[id])
  {
    hide RecordFallback, FlushFlights, ProjectSeal, EndOfClose;
    var j := s.journeys[id];
    var seal0 := ProjectSeal(input, j);
    var j0 := j.(finalOutcome := Some(seal0.outcome));
    FallbackKey(cfg, s, id, j0, seal0);
    FallbackExtends(cfg, s, id, j0, seal0);
    var (s1, j1, _) := RecordFallback(cfg, s, id, j0, seal0);
    var flights := j.artifacts[..ReportsOf(j.artifacts, course)];
    FlushFlightsKeys(cfg, s1, id, j1, flights, seal0.outcome);
    RecordAndReports(s, s1, FlushFlights(cfg, s1, id, j1, flights, seal0.outcome).0, id, j, flights);
  }

  lemma RecordAndReports(s: State, s1: State, s2: State, id: RequestId, j: Journey, flights: seq<Flight>)
    requires FlightsNumbered(j) && flights <= j.artifacts
    requires AddsOne(s, s1, JourneyKey(id, j.sequence + 1)) && Differ(s1, s2)
    requires forall i :: |s1.history.log| <= i < |s2.history.log| ==> IsReportKey(s2.history.log[i].Key(), id, flights)
    ensures Differ(s, s2)
    ensures forall i :: |s.history.log| <= i < |s2.history.log| ==> IsCloseKey(s2.history.log[i].Key(), id, j)
  {
    var log := s2.history.log;
    assert forall i :: 0 <= i < |s1.history.log| ==> log[i] == s1.history.log[i];
    forall i | |s.history.log| <= i < |log|
      ensures IsCloseKey(log[i].Key(), id, j)
      ensures i >= |s1.history.log| ==> log[i].Key() != JourneyKey(id, j.sequence + 1)
    {
      if i < |s1.history.log| {
        assert log[i].Key() == JourneyKey(id, j.sequence + 1);
      } else {
        var n :| 0 <= n < |flights| && flights[n].sequence == log[i].Key().sequence;
        assert j.artifacts[n] == flights[n];
      }
    }
  }

  lemma CloseKeys(cfg: Config, s: State, id: RequestId, input: CloseInput, course: Course)
    requires Unrepeated(s) && Queued(s)
    ensures Unrepeated(Close(cfg, s, id, input, course))
  {
    hide Queued, PrepareClose, SealClose, CourseTaken, Differ, IsCloseKey, Unrepeated;
    if s.Serving() && id in s.journeys {
      var taken := CourseTaken(s.journeys[id], input, course);
      var j := s.journeys[id];
      ExtractFlights(s, id);
      NumbersDistinct(s, id);
      PreparedKeys(cfg, s, id, input, taken);
      PrepareCloseExtends(cfg, s, id, input, taken);
      var (s1, j1, seal) := PrepareClose(cfg, s, id, input, taken);
      SealGrows(cfg, s1, id, j1, seal, taken);
      SealKeepsEvents(cfg, s, id, input, taken);
      var (s2, j2, ok) := SealClose(cfg, s1, id, j1, seal, taken);
      ClosedKeys(s, s1, s2, Close(cfg, s, id, input, course), id, j1.sequence, ok);
    }
  }

  lemma SealKeepsEvents(cfg: Config, s: State, id: RequestId, input: CloseInput, course: Course)
    requires id in s.journeys
    ensures var (s1, j1, seal) := PrepareClose(cfg, s, id, input, course);
            SealClose(cfg, s1, id, j1, seal, course).0.nextEvent == s.nextEvent
  {
    hide RecordFallback, FlushFlights, ProjectSeal, EndOfClose, HasKey;
    var j := s.journeys[id];
    var seal0 := ProjectSeal(input, j);
    var j0 := j.(finalOutcome := Some(seal0.outcome));
    var (s1, j1, _) := RecordFallback(cfg, s, id, j0, seal0);
    FallbackKeepsEvents(cfg, s, id, j0, seal0);
    FlushKeepsEvents(cfg, s1, id, j1, j1.artifacts[..ReportsOf(j1.artifacts, course)], seal0.outcome);
  }

  lemma FallbackKeepsEvents(cfg: Config, s: State, id: RequestId, j: Journey, seal: Seal)
    ensures RecordFallback(cfg, s, id, j, seal).0.nextEvent == s.nextEvent
  {
    hide ProjectSeal, HasKey, FallbackFact;
  }

  lemma {:induction false} FlushKeepsEvents(cfg: Config, s: State, id: RequestId, j: Journey, flights: seq<Flight>,
      outcome: Outcome)
    ensures FlushFlights(cfg, s, id, j, flights, outcome).0.nextEvent == s.nextEvent
    decreases |flights|
  {
    hide FlushFlight;
    if flights != [] {
      FlushFlightKey(cfg, s, id, j, flights[0], outcome);
      var (s', j') := FlushFlight(cfg, s, id, j, flights[0], outcome);
      FlushKeepsEvents(cfg, s', id, j', flights[1..], outcome);
    }
  }

  lemma ClosedKeys(s: State, s1: State, s2: State, s': State, id: RequestId, q: nat, ok: bool)
    requires Unrepeated(s) && id in s.journeys && q > s.journeys[id].sequence
    requires Differ(s, s1) && Extends(s, s1, id, q - 1) && SealedOnce(s1, s2, id, q, ok)
    requires forall i :: |s.history.log| <= i < |s1.history.log| ==>
               IsCloseKey(s1.history.log[i].Key(), id, s.journeys[id])
    requires s'.history == s2.history && s'.journeys == s.journeys - {id} && s'.nextEvent == s.nextEvent
    ensures Unrepeated(s')
  {
    var log, j := s'.history.log, s.journeys[id];
    assert forall i :: 0 <= i < |s1.history.log| ==> log[i] == s1.history.log[i];
    forall i | |s.history.log| <= i < |log|
      ensures Free(s, log[i].Key()) && !Free(s', log[i].Key())
      ensures i < |s1.history.log| ==> log[i].Key() != JourneyKey(id, q)
      ensures i >= |s1.history.log| ==> log[i].Key() == JourneyKey(id, q)
    {
      if i < |s1.history.log| { assert IsCloseKey(log[i].Key(), id, j) && About(log[i].message, id, q - 1); }
    }
    assert Shrinks(s, s');
    CarryKeys(s, s');
  }

  // ------------------------------------------------------------------- runs

  lemma RuntimeEventKeys(cfg: Config, s: State, clock: bool)
    requires Unrepeated(s)
    ensures Unrepeated(RuntimeEventOffered(cfg, s, clock))
  {
    hide HasKey;
    var s' := RuntimeEventOffered(cfg, s, clock);
    assert AddsOne(s, s', EventKey(s.nextEvent)) && s'.journeys == s.journeys && s'.history.used == s.history.used;
    assert Shrinks(s, s');
    CarryKeys(s, s');
  }

  lemma RejectKeys(s: State, e: Entry, classification: string)
    requires Unrepeated(s)
    ensures Unrepeated(Reject(s, e, classification))
  {
    hide FlightIndex, Free, Advances, Unrepeated;
    var s1 := RecordRejection(s, e);
    SameHistoryKeys(s, s1);
    if !e.message.RuntimeEvent? && e.message.id in s.journeys {
      var id := e.message.id;
      var j := s.journeys[id];
      var j2 := Reject(s, e, classification).journeys[id];
      NumbersDistinct(s, id);
      DescriptorsAdvance(j, j2);
      QuietJourney(s1, s1, id, j2);
    }
  }

  lemma NumbersDistinct(s: State, id: RequestId)
    requires Unrepeated(s) && id in s.journeys
    ensures DistinctNumbers(s.journeys[id].artifacts)
  {
  }

  lemma DescriptorsAdvance(j: Journey, j': Journey)
    requires DistinctNumbers(j.artifacts) && j'.sequence == j.sequence && SameBut(j.artifacts, j'.artifacts)
    ensures Advances(j, j')
  {
  }

  /** Changes of the worker; the journeys stay open, or end together. */
  lemma WorkerKeys(s: State, s': State)
    requires Unrepeated(s)
    requires s'.history.log == s.history.log && s'.history.used == s.history.used && s'.nextEvent == s.nextEvent
    requires s'.journeys == s.journeys || s'.journeys == map[]
    ensures Unrepeated(s')
  {
    CarryKeys(s, s');
  }

  lemma SettleKeys(s: State, g: nat, key: Option<Key>, accepted: bool, classification: string)
    requires Unrepeated(s)
    ensures Unrepeated(Settle(s, g, key, accepted, classification))
  {
    hide Unrepeated, Reject;
    if s.worker.current == Some(g) && key.Some? && EntryIndex(s.pending, key.value) < |s.pending| {
      var i := EntryIndex(s.pending, key.value);
      WorkerKeys(s, Remove(s, i));
      RejectKeys(Remove(s, i), s.pending[i], classification);
    } else {
      WorkerKeys(s, Settle(s, g, key, accepted, classification));
    }
  }

  lemma StepKeys(cfg: Config, s: State, a: Action)
    requires Unrepeated(s) && Queued(s) && Artifacts(s) && Fresh(s, a)
    ensures Unrepeated(Step(cfg, s, a))
  {
    hide Begin, Observe, OpenArtifact, AppendArtifact, FinishArtifact, Close, Settle, Queued, Artifacts, Unrepeated,
         RuntimeEventOffered;
    match a
    case DoBegin(id, all, failed) => BeginKeys(cfg, s, id, all, failed);
    case DoObserve(id, fact, reading) => ObserveKeys(cfg, s, id, fact, reading);
    case DoOpen(id, artifact, reading, original) => OpenKeys(cfg, s, id, artifact, reading, original);
    case DoAppend(id, artifact, bytes) => AppendKeys(cfg, s, id, artifact, bytes);
    case DoFinish(id, artifact, finish) => FinishKeys(cfg, s, id, artifact, finish);
    case DoClose(id, input, course) => CloseKeys(cfg, s, id, input, course);
    case DoRuntimeEvent(clock) => RuntimeEventKeys(cfg, s, clock);
    case DoSettle(g, key, accepted, classification) => SettleKeys(s, g, key, accepted, classification);
    case DoReady(_) => WorkerKeys(s, Step(cfg, s, a));
    case DoFail(_) => WorkerKeys(s, Step(cfg, s, a));
    case DoStartupFailure(_) => WorkerKeys(s, Step(cfg, s, a));
    case DoStart(_) => WorkerKeys(s, Step(cfg, s, a));
    case DoBeginShutdown => WorkerKeys(s, Step(cfg, s, a));
    case DoEndShutdown => WorkerKeys(s, Step(cfg, s, a));
  }

  lemma {:induction false} RunUnrepeated(cfg: Config, actions: seq<Action>)
    requires Legal(cfg, actions)
    ensures Unrepeated(After(cfg, actions))
  {
    hide Step, Queued, Artifacts;
    if actions != [] {
      var front := actions[..|actions| - 1];
      RunUnrepeated(cfg, front);
      QueueIsOrdered(cfg, front);
      ArtifactsAreSound(cfg, front);
      StepKeys(cfg, After(cfg, front), actions[|actions| - 1]);
    }
  }

  /**
   Over a whole run no two admitted messages have the same key: the numbered messages of a journey, its reports
   and its seal included, carry different numbers, and so do the runtime events; an artifact has one begin, one
   finish, and chunks of different indexes.
   */
  lemma KeysNeverRepeat(cfg: Config, actions: seq<Action>, i: nat, k: nat)
    requires Legal(cfg, actions) && i < k < |After(cfg, actions).history.log|
    ensures var (m, n) := (After(cfg, actions).history.log[i].message, After(cfg, actions).history.log[k].message);
            && KeyOf(m) != KeyOf(n)
            && (m.Append? && n.Append? && m.id == n.id ==> m.sequence != n.sequence)
  {
    hide After, Legal, Free;
    RunUnrepeated(cfg, actions);
    var log := After(cfg, actions).history.log;
    assert log[i].Key() != log[k].Key();
  }

  /**
   The refusal of a duplicate key never happens to a message of a journey, nor to a runtime event: the keys under
   which an operation may admit a message next (the next number of an open journey and the one after it, its
   recorders' numbers, the begin of an artifact not yet opened, a recorder's next chunk, the finish of one that
   has not finished, the next event) are not pending.
   */
  lemma NoDuplicateIsOffered(cfg: Config, actions: seq<Action>, k: Key)
    requires Legal(cfg, actions) && Free(After(cfg, actions), k)
    ensures !HasKey(After(cfg, actions).pending, k)
  {
    hide After, Legal, Free, Numbered;
    RunUnrepeated(cfg, actions);
    QueueIsOrdered(cfg, actions);
    var s := After(cfg, actions);
    forall i | 0 <= i < |s.pending| ensures s.pending[i].Key() != k {
      assert s.history.log[s.pending[i].stamp] == s.pending[i];
      assert !Free(s, s.history.log[s.pending[i].stamp].Key());
    }
  }
}
