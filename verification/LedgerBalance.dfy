/**
 Exactness of the ledger: in every state that the authority can reach, each
 byte counter equals the bytes it stands for, and the budgets hold.
 */
module LedgerBalance {
  import opened Options
  import opened Ledger
  import opened LedgerRuns

  // ------------------------------------------------------------------- sums

  /** The bytes of the entries of one capacity class. */
  function Bytes(entries: seq<Entry>, c: Capacity): nat {
    if entries == [] then 0
    else
      var last := entries[|entries| - 1];
      Bytes(entries[..|entries| - 1], c) + (if last.capacity == c then last.bytes else 0)
  }

  /** The number of pending seals. */
  function Seals(entries: seq<Entry>): nat {
    if entries == [] then 0
    else Seals(entries[..|entries| - 1]) + (if entries[|entries| - 1].capacity == CloseSeal then 1 else 0)
  }

  lemma {:induction false} SumsConcat(a: seq<Entry>, b: seq<Entry>, c: Capacity)
    ensures Bytes(a + b, c) == Bytes(a, c) + Bytes(b, c)
    ensures Seals(a + b) == Seals(a) + Seals(b)
  {
    if b == [] {
      assert a + b == a;
    } else {
      assert (a + b)[..|a + b| - 1] == a + b[..|b| - 1];
      SumsConcat(a, b[..|b| - 1], c);
    }
  }

  lemma SumsPush(entries: seq<Entry>, e: Entry, c: Capacity)
    ensures Bytes(entries + [e], c) == Bytes(entries, c) + (if e.capacity == c then e.bytes else 0)
    ensures Seals(entries + [e]) == Seals(entries) + (if e.capacity == CloseSeal then 1 else 0)
  {
    assert (entries + [e])[..|entries|] == entries;
  }

  lemma SumsWithout(entries: seq<Entry>, i: nat, c: Capacity)
    requires i < |entries|
    ensures Bytes(entries[..i] + entries[i + 1..], c) ==
              Bytes(entries, c) - (if entries[i].capacity == c then entries[i].bytes else 0)
    ensures Seals(entries[..i] + entries[i + 1..]) ==
              Seals(entries) - (if entries[i].capacity == CloseSeal then 1 else 0)
  {
    assert entries == entries[..i] + [entries[i]] + entries[i + 1..];
    SumsConcat(entries[..i] + [entries[i]], entries[i + 1..], c);
    SumsConcat(entries[..i], [entries[i]], c);
    SumsConcat(entries[..i], entries[i + 1..], c);
  }

  lemma {:induction false} SumHeldRemove(m: map<RequestId, Journey>, id: RequestId, h: Holding)
    requires id in m
    ensures SumHeld(m, h) == Held(m[id], h) + SumHeld(m - {id}, h)
    decreases |m|
  {
    var first :| first in m && SumHeld(m, h) == Held(m[first], h) + SumHeld(m - {first}, h);
    if first != id {
      SumHeldRemove(m - {first}, id, h);
      SumHeldRemove(m - {id}, first, h);
      assert m - {first} - {id} == m - {id} - {first};
    }
  }

  lemma SumHeldUpdate(m: map<RequestId, Journey>, id: RequestId, j: Journey, h: Holding)
    ensures SumHeld(m[id := j], h) == Held(j, h) + SumHeld(m - {id}, h)
    ensures id in m ==> SumHeld(m[id := j], h) == SumHeld(m, h) - Held(m[id], h) + Held(j, h)
    ensures id !in m ==> SumHeld(m[id := j], h) == SumHeld(m, h) + Held(j, h)
  {
    SumHeldRemove(m[id := j], id, h);
    assert m[id := j] - {id} == m - {id};
    if id in m { SumHeldRemove(m, id, h); } else { assert m - {id} == m; }
  }

  // -------------------------------------------------------------- invariant

  function CapturedIn(flights: seq<Flight>): nat {
    if flights == [] then 0 else flights[0].capturedBytes + CapturedIn(flights[1..])
  }

  /** Counters equal what they count, and stay within the budgets. */
  ghost predicate Balanced(cfg: Config, s: State) {
    && s.ordinary == Bytes(s.pending, Ordinary) <= MAX_ORDINARY_PENDING_BYTES
    && s.reserved == Bytes(s.pending, Reserved)
    && s.sealReserved == CLOSE_SEAL_RESERVATION_BYTES * Seals(s.pending) + SumHeld(s.journeys, HeldSeal)
    && s.reserved + s.sealReserved <= MAX_RESERVED_PENDING_BYTES
    && s.flightBytes == SumHeld(s.journeys, HeldBytes)
  }

  /** An open journey between two operations. */
  predicate Settled(cfg: Config, j: Journey) {
    && j.reservation == CLOSE_SEAL_RESERVATION_BYTES
    && j.fallbackBytes == 0
    && j.artifactBytes == CapturedIn(j.artifacts)
    && forall i :: 0 <= i < |j.artifacts| ==> j.artifacts[i].capturedBytes <= cfg.maxJsonArtifactBytes
  }

  ghost predicate Exact(cfg: Config, s: State) {
    && Balanced(cfg, s)
    && s.flightBytes <= cfg.maxJourneyArtifactBytes
    && (!s.Serving() ==> s.journeys == map[])
    && forall id :: id in s.journeys ==> Settled(cfg, s.journeys[id])
  }

  predicate SameJourneys(s: State, s': State) {
    s'.journeys == s.journeys && s'.closed == s.closed && s'.unavailable == s.unavailable
  }

  // ------------------------------------------------------- preserving steps

  lemma PushBalanced(cfg: Config, s: State, id: RequestId, j: Journey, e: Entry)
    requires Balanced(cfg, SetJourney(s, id, j))
    requires e.capacity == Ordinary ==> s.ordinary + e.bytes <= MAX_ORDINARY_PENDING_BYTES
    requires e.capacity == Reserved ==> s.reserved + s.sealReserved + e.bytes <= MAX_RESERVED_PENDING_BYTES
    requires e.capacity == CloseSeal ==> j.reservation == CLOSE_SEAL_RESERVATION_BYTES
    ensures Balanced(cfg, SetJourney(Push(s, e), id, if e.capacity == CloseSeal then j.(reservation := 0) else j))
  {
    hide Bytes, Seals, SumHeld;
    SumsPush(s.pending, e, Ordinary);
    SumsPush(s.pending, e, Reserved);
    SumHeldUpdate(s.journeys, id, j, HeldSeal);
    SumHeldUpdate(s.journeys, id, j, HeldBytes);
    SumHeldUpdate(s.journeys, id, j.(reservation := 0), HeldSeal);
    SumHeldUpdate(s.journeys, id, j.(reservation := 0), HeldBytes);
  }

  lemma SameHoldings(cfg: Config, s: State, id: RequestId, j: Journey, j': Journey)
    requires Balanced(cfg, SetJourney(s, id, j))
    requires j.reservation == j'.reservation && j.artifactBytes == j'.artifactBytes
    ensures Balanced(cfg, SetJourney(s, id, j'))
  {
    SumHeldUpdate(s.journeys, id, j, HeldSeal);
    SumHeldUpdate(s.journeys, id, j, HeldBytes);
    SumHeldUpdate(s.journeys, id, j', HeldSeal);
    SumHeldUpdate(s.journeys, id, j', HeldBytes);
  }

  lemma AdmitForBalanced(cfg: Config, s: State, m: Message, id: RequestId, j: Journey)
    requires Balanced(cfg, SetJourney(s, id, j))
    ensures var (s', j', ok) := AdmitFor(cfg, s, m, j);
            && Balanced(cfg, SetJourney(s', id, j'))
            && s'.flightBytes == s.flightBytes && SameJourneys(s, s')
            && j' == j.(degraded := j'.degraded)
  {
    hide Bytes, Seals, SumHeld;
    var (s', j', ok) := AdmitFor(cfg, s, m, j);
    if ok {
      PushBalanced(cfg, s, id, j, Admissible(cfg, s, m, j.finalOutcome).value);
    } else {
      SameHoldings(cfg, s, id, j, j');
    }
  }

  lemma MoveFlightBytes(cfg: Config, s: State, id: RequestId, j: Journey, n: int)
    requires Balanced(cfg, SetJourney(s, id, j))
    ensures Balanced(cfg, SetJourney(s.(flightBytes := s.flightBytes + n), id,
              j.(artifactBytes := j.artifactBytes + n)))
  {
    var j' := j.(artifactBytes := j.artifactBytes + n);
    SumHeldUpdate(s.journeys, id, j, HeldSeal);
    SumHeldUpdate(s.journeys, id, j, HeldBytes);
    SumHeldUpdate(s.journeys, id, j', HeldSeal);
    SumHeldUpdate(s.journeys, id, j', HeldBytes);
  }

  lemma AbsorbJourney(s: State, id: RequestId)
    requires id in s.journeys
    ensures SetJourney(s, id, s.journeys[id]) == s
  {
    assert s.journeys[id := s.journeys[id]] == s.journeys;
  }

  lemma {:induction false} CapturedUpdate(flights: seq<Flight>, k: nat, f: Flight)
    requires k < |flights|
    ensures CapturedIn(flights[k := f]) == CapturedIn(flights) - flights[k].capturedBytes + f.capturedBytes
  {
    if k > 0 {
      assert flights[k := f][1..] == flights[1..][k - 1 := f];
      CapturedUpdate(flights[1..], k - 1, f);
    } else {
      assert flights[k := f][1..] == flights[1..];
    }
  }

  lemma {:induction false} CapturedAppend(flights: seq<Flight>, f: Flight)
    ensures CapturedIn(flights + [f]) == CapturedIn(flights) + f.capturedBytes
  {
    if flights == [] {
      assert flights + [f] == [f];
    } else {
      assert (flights + [f])[1..] == flights[1..] + [f];
      CapturedAppend(flights[1..], f);
    }
  }

  lemma AppendChunkBalanced(cfg: Config, s: State, id: RequestId, j: Journey, f: Flight, chunk: seq<Byte>)
    requires Balanced(cfg, SetJourney(s, id, j))
    ensures var (s', j', f', ok) := AppendChunk(cfg, s, id, j, f, chunk);
            var n := if ok then |chunk| else 0;
            && Balanced(cfg, SetJourney(s', id, j'))
            && SameJourneys(s, s')
            && s'.flightBytes == s.flightBytes + n
            && j' == j.(degraded := j'.degraded, artifactBytes := j.artifactBytes + n)
            && f'.capturedBytes == f.capturedBytes + n
            && f'.descriptor == f.descriptor
  {
    hide Bytes, Seals, SumHeld, Balanced, AdmitFor;
    var m := ArtifactChunk(id, f.descriptor.artifactId, f.nextChunkIndex, f.capturedBytes, chunk);
    AdmitForBalanced(cfg, s, m, id, j);
    var (s', j', ok) := AdmitFor(cfg, s, m, j);
    if ok { MoveFlightBytes(cfg, s', id, j', |chunk|); }
  }

  /** The chunking loop counts every admitted byte three times: for the recorder, the journey and the authority. */
  lemma {:induction false} AppendChunksBalanced(cfg: Config, s: State, id: RequestId, j: Journey, f: Flight,
      bytes: seq<Byte>)
    requires Balanced(cfg, SetJourney(s, id, j))
    ensures var (s', j', f', taken) := AppendChunks(cfg, s, id, j, f, bytes);
            && Balanced(cfg, SetJourney(s', id, j'))
            && taken <= |bytes|
            && SameJourneys(s, s')
            && s'.flightBytes == s.flightBytes + taken
            && j' == j.(degraded := j'.degraded, artifactBytes := j.artifactBytes + taken)
            && f'.capturedBytes == f.capturedBytes + taken
            && f'.descriptor == f.descriptor
    decreases |bytes|
  {
    hide Bytes, Seals, SumHeld, Balanced, SetJourney, AppendChunk;
    if bytes != [] {
      var n := Min(|bytes|, MAX_ARTIFACT_WRITE_CHUNK_BYTES);
      AppendChunkBalanced(cfg, s, id, j, f, bytes[..n]);
      var (s', j', f', ok) := AppendChunk(cfg, s, id, j, f, bytes[..n]);
      if ok { AppendChunksBalanced(cfg, s', id, j', f', bytes[n..]); }
    }
  }

  lemma BeginExact(cfg: Config, s: State, id: RequestId, captureAll: bool, captureFailed: bool)
    requires Exact(cfg, s)
    ensures Exact(cfg, Begin(cfg, s, id, captureAll, captureFailed).0)
  {
    hide Bytes, Seals, SumHeld;
    var j := FreshJourney(captureAll, captureFailed);
    var s1 := s.(sealReserved := s.sealReserved + CLOSE_SEAL_RESERVATION_BYTES, journeys := s.journeys[id := j],
                 history := s.history.(used := s.history.used + {id}, offers := s.history.offers[id := Offer([], [])]));
    if Begin(cfg, s, id, captureAll, captureFailed).1 {
      SumHeldUpdate(s.journeys, id, j, HeldSeal);
      SumHeldUpdate(s.journeys, id, j, HeldBytes);
      AbsorbJourney(s1, id);
      PushBalanced(cfg, s1, id, j, Admissible(cfg, s1, Append(id, 0, BeginPayload), None).value);
      AbsorbJourney(Push(s1, Admissible(cfg, s1, Append(id, 0, BeginPayload), None).value), id);
    }
  }

  /** A change to one open journey that moves no bytes. */
  lemma JourneyExact(cfg: Config, s: State, id: RequestId, j: Journey)
    requires Exact(cfg, s) && id in s.journeys && Settled(cfg, j)
    requires j.artifactBytes == s.journeys[id].artifactBytes
    ensures Exact(cfg, SetJourney(s, id, j))
  {
    hide Bytes, Seals, SumHeld;
    AbsorbJourney(s, id);
    SameHoldings(cfg, s, id, s.journeys[id], j);
  }

  lemma HistoryExact(cfg: Config, s: State, h: History)
    requires Exact(cfg, s)
    ensures Exact(cfg, s.(history := h))
  {
    hide Bytes, Seals, SumHeld;
  }

  /** `AdmitFor` followed by a change to the journey that moves no bytes. */
  lemma AdmitForExact(cfg: Config, s: State, m: Message, id: RequestId, j: Journey, j2: Journey)
    requires Exact(cfg, s) && id in s.journeys
    requires j.reservation == j2.reservation == CLOSE_SEAL_RESERVATION_BYTES
    requires j.artifactBytes == j2.artifactBytes == s.journeys[id].artifactBytes
    requires Settled(cfg, j2)
    ensures Exact(cfg, SetJourney(AdmitFor(cfg, s, m, j).0, id, j2))
    ensures AdmitFor(cfg, s, m, j).1 == j.(degraded := AdmitFor(cfg, s, m, j).1.degraded)
  {
    hide Bytes, Seals, SumHeld, Balanced, AdmitFor;
    AbsorbJourney(s, id);
    SameHoldings(cfg, s, id, s.journeys[id], j);
    AdmitForBalanced(cfg, s, m, id, j);
    SameHoldings(cfg, AdmitFor(cfg, s, m, j).0, id, AdmitFor(cfg, s, m, j).1, j2);
  }

  lemma ObserveExact(cfg: Config, s: State, id: RequestId, fact: Fact, reading: Reading)
    requires Exact(cfg, s)
    ensures Exact(cfg, Observe(cfg, s, id, fact, reading))
  {
    hide Bytes, Seals, SumHeld, Balanced, AdmitFor, SetJourney;
    if s.Serving() && id in s.journeys {
      var j := s.journeys[id];
      var s1 := OfferFact(s, id, fact);
      HistoryExact(cfg, s, s1.history);
      JourneyExact(cfg, s1, id, j.(degraded := true));
      JourneyExact(cfg, s1, id, j.(sequence := j.sequence + 1, degraded := true));
      JourneyExact(cfg, s1, id, Observed(j).(degraded := true));
      var m := Append(id, Observed(j).sequence, FactPayload(fact));
      AdmitForExact(cfg, s1, m, id, Observed(j), Observed(j));
      var (s', j', ok) := AdmitFor(cfg, s1, m, Observed(j));
      var j2 := if ok then NotePrimary(j'.(lastKnownLocation := Some(fact.location)), fact) else j';
      AdmitForExact(cfg, s1, m, id, Observed(j), j2);
    }
  }

  lemma OpenExact(cfg: Config, s: State, id: RequestId, a: ArtifactId, reading: Reading, original: Option<nat>)
    requires Exact(cfg, s)
    ensures Exact(cfg, OpenArtifact(cfg, s, id, a, reading, original).0)
  {
    hide Bytes, Seals, SumHeld, Balanced, AdmitFor, SetJourney, FlightIndex;
    if s.Serving() && id in s.journeys {
      var j := s.journeys[id];
      var s1 := OfferArtifact(s, id, a);
      HistoryExact(cfg, s, s1.history);
      JourneyExact(cfg, s1, id, j.(degraded := true));
      JourneyExact(cfg, s1, id, Observed(j).(degraded := true));
      var d := OpenDescriptor(a, original);
      var m := ArtifactBegin(id, a, d);
      AdmitForExact(cfg, s1, m, id, Observed(j), Observed(j));
      var (s', j', ok) := AdmitFor(cfg, s1, m, Observed(j));
      var f := NewFlight(Observed(j).sequence, d, ok);
      CapturedAppend(j.artifacts, f);
      AdmitForExact(cfg, s1, m, id, Observed(j), j'.(artifacts := j'.artifacts + [f]));
    }
  }

  lemma AppendExact(cfg: Config, s: State, id: RequestId, a: ArtifactId, bytes: seq<Byte>)
    requires Exact(cfg, s)
    ensures Exact(cfg, AppendArtifact(cfg, s, id, a, bytes))
  {
    hide Bytes, Seals, SumHeld, AppendChunks;
    if id in s.journeys && HasFlight(s.journeys[id].artifacts, a) {
      var j := s.journeys[id];
      var k := FlightIndex(j.artifacts, a);
      var f := j.artifacts[k];
      var s1 := RecordAppend(s, id, a, bytes);
      HistoryExact(cfg, s, s1.history);
      if !f.finished && f.accepting {
        var accepted := Accepted(cfg, s1, j, f, |bytes|);
        AbsorbJourney(s1, id);
        AppendChunksBalanced(cfg, s1, id, j, f, bytes[..accepted]);
        var (s', j', f', taken) := AppendChunks(cfg, s1, id, j, f, bytes[..accepted]);
        var f2 := AfterAppend(f', |bytes|, accepted, taken);
        CapturedUpdate(j.artifacts, k, f2);
        SameHoldings(cfg, s', id, j', j'.(artifacts := j.artifacts[k := f2]));
      }
    }
  }

  lemma FinishExact(cfg: Config, s: State, id: RequestId, a: ArtifactId, input: FinishInput)
    requires Exact(cfg, s)
    ensures Exact(cfg, FinishArtifact(cfg, s, id, a, input))
  {
    hide Bytes, Seals, SumHeld, Balanced, AdmitFor, SetJourney, FinishMessage;
    if id in s.journeys && HasFlight(s.journeys[id].artifacts, a) {
      var j := s.journeys[id];
      var k := FlightIndex(j.artifacts, a);
      var f := j.artifacts[k];
      if !f.finished && input.BadFinish? {
        CapturedUpdate(j.artifacts, k, BrokenFlight(f));
        HistoryExact(cfg, s, RecordBreak(s, id, a).history);
        JourneyExact(cfg, RecordBreak(s, id, a), id, j.(degraded := true,
            artifacts := j.artifacts[k := BrokenFlight(f)]));
      } else if !f.finished {
        var m := FinishMessage(id, f, input);
        AdmitForExact(cfg, s, m, id, j, j);
        var (s', j', ok) := AdmitFor(cfg, s, m, j);
        CapturedUpdate(j.artifacts, k, FinishedFlight(f, m, ok));
        AdmitForExact(cfg, s, m, id, j, j'.(artifacts := j.artifacts[k := FinishedFlight(f, m, ok)]));
      }
    }
  }

  // ------------------------------------------------------------------ close

  lemma FlushFlightBalanced(cfg: Config, s: State, id: RequestId, j: Journey, f: Flight, outcome: Outcome)
    requires Balanced(cfg, SetJourney(s, id, j)) && s.flightBytes >= f.capturedBytes
    ensures var (s', j') := FlushFlight(cfg, s, id, j, f, outcome);
            && Balanced(cfg, SetJourney(s', id, j'))
            && s'.flightBytes == s.flightBytes - f.capturedBytes && SameJourneys(s, s')
            && j' == j.(degraded := j'.degraded, artifactBytes := j.artifactBytes - f.capturedBytes)
  {
    hide Bytes, Seals, SumHeld, Balanced, AdmitFor, FinalDescriptor, SetJourney;
    var j0 := if f.finished then j else j.(degraded := true);
    SameHoldings(cfg, s, id, j, j0);
    var d := FinalDescriptor(j0, f, outcome);
    var m := Append(id, f.sequence, ArtifactPayload(d));
    AdmitForBalanced(cfg, s, m, id, j0);
    var (s1, j1, ok) := AdmitFor(cfg, s, m, j0);
    if ok {
      MoveFlightBytes(cfg, s1, id, j1, 0 - f.capturedBytes);
    } else {
      var m' := Append(id, f.sequence, ArtifactPayload(d.(state := Unavailable, reason := Some(QUEUE_EXHAUSTED))));
      AdmitForBalanced(cfg, s1, m', id, j1);
      var (s2, j2, _) := AdmitFor(cfg, s1, m', j1);
      MoveFlightBytes(cfg, s2, id, j2, 0 - f.capturedBytes);
    }
  }

  lemma {:induction false} FlushFlightsBalanced(cfg: Config, s: State, id: RequestId, j: Journey, flights: seq<Flight>,
      outcome: Outcome)
    requires Balanced(cfg, SetJourney(s, id, j)) && s.flightBytes >= CapturedIn(flights)
    ensures var (s', j') := FlushFlights(cfg, s, id, j, flights, outcome);
            && Balanced(cfg, SetJourney(s', id, j'))
            && s'.flightBytes == s.flightBytes - CapturedIn(flights) && SameJourneys(s, s')
            && j' == j.(degraded := j'.degraded, artifactBytes := j.artifactBytes - CapturedIn(flights))
    decreases |flights|
  {
    hide Bytes, Seals, SumHeld;
    if flights != [] {
      FlushFlightBalanced(cfg, s, id, j, flights[0], outcome);
      var (s', j') := FlushFlight(cfg, s, id, j, flights[0], outcome);
      FlushFlightsBalanced(cfg, s', id, j', flights[1..], outcome);
    }
  }

  lemma FallbackBalanced(cfg: Config, s: State, id: RequestId, j: Journey, seal: Seal)
    requires Balanced(cfg, SetJourney(s, id, j))
    ensures var (s', j', _) := RecordFallback(cfg, s, id, j, seal);
            && Balanced(cfg, SetJourney(s', id, j'))
            && s'.flightBytes == s.flightBytes && SameJourneys(s, s')
            && j'.artifacts == j.artifacts && j'.artifactBytes == j.artifactBytes && j'.reservation == j.reservation
  {
    hide Bytes, Seals, SumHeld;
    if NeedsFallback(j, seal) {
      var fact := FallbackFact(id, j.lastKnownLocation, seal);
      var j1 := j.(degraded := true, sequence := j.sequence + 1, observations := j.observations + 1);
      SameHoldings(cfg, s, id, j, j1);
      var m := Append(id, j1.sequence, FactPayload(fact));
      var (s', j', ok) := AdmitFallback(cfg, s, id, j1, fact);
      if ok {
        PushBalanced(cfg, s, id, j1, Entry(|s.history.log|, m, cfg.size(m).value, CloseFallback));
      }
      SameHoldings(cfg, s', id, j1, RecordFallback(cfg, s, id, j, seal).1);
    }
  }

  lemma AdmitSealBalanced(cfg: Config, s: State, id: RequestId, j: Journey, seal: Seal)
    requires Balanced(cfg, SetJourney(s, id, j))
    ensures var (s', j', ok) := AdmitSeal(cfg, s, id, j, seal);
            && Balanced(cfg, SetJourney(s', id, j'))
            && s'.flightBytes == s.flightBytes && SameJourneys(s, s')
            && j'.artifactBytes == j.artifactBytes
            && j'.reservation == (if ok then 0 else j.reservation)
            && (ok ==> j.reservation == CLOSE_SEAL_RESERVATION_BYTES)
  {
    hide Bytes, Seals, SumHeld;
    var (s', j', ok) := AdmitSeal(cfg, s, id, j, seal);
    if ok {
      var m := Append(id, j.sequence, SealPayload(seal));
      PushBalanced(cfg, s, id, j, Entry(|s.history.log|, m, cfg.size(m).value, CloseSeal));
    } else {
      SameHoldings(cfg, s, id, j, j');
    }
  }

  /** A closing journey gives back the artifact bytes that it still holds, and its seal's reservation unless
      the seal was admitted: no more and no less than what the ledger holds for it. */
  lemma ReleaseBalanced(cfg: Config, s: State, id: RequestId, j: Journey)
    requires Balanced(cfg, SetJourney(s, id, j))
    requires s.sealReserved >= j.reservation >= 0 && s.flightBytes >= j.artifactBytes
    ensures Balanced(cfg, Release(s, id, j)) && Release(s, id, j).flightBytes == s.flightBytes - j.artifactBytes
    ensures Release(s, id, j).sealReserved == s.sealReserved - j.reservation
  {
    hide Bytes, Seals, SumHeld;
    SumHeldUpdate(s.journeys, id, j, HeldSeal);
    SumHeldUpdate(s.journeys, id, j, HeldBytes);
  }

  lemma NoHoldings(h: Holding)
    ensures SumHeld(map[], h) == 0
  {
  }

  lemma {:induction false} HoldingsNonNegative(cfg: Config, m: map<RequestId, Journey>)
    requires forall id :: id in m ==> Settled(cfg, m[id])
    ensures SumHeld(m, HeldSeal) == CLOSE_SEAL_RESERVATION_BYTES * |m|
    ensures SumHeld(m, HeldBytes) >= 0
    decreases |m|
  {
    hide SumHeld;
    if m == map[] {
      NoHoldings(HeldSeal);
      NoHoldings(HeldBytes);
    } else {
      var id :| id in m;
      SumHeldRemove(m, id, HeldSeal);
      SumHeldRemove(m, id, HeldBytes);
      OneSmaller(m, id);
      HoldingsNonNegative(cfg, m - {id});
    }
  }

  lemma OneSmaller(m: map<RequestId, Journey>, id: RequestId)
    requires id in m
    ensures |m| == |m - {id}| + 1
  {
    assert m.Keys == (m - {id}).Keys + {id};
  }

  lemma {:induction false} CapturedSplit(flights: seq<Flight>, n: nat)
    requires n <= |flights|
    ensures CapturedIn(flights) == CapturedIn(flights[..n]) + CapturedIn(flights[n..])
  {
    if n == 0 {
      assert flights[..0] == [] && flights[0..] == flights;
    } else {
      assert flights[..n][1..] == flights[1..][..n - 1] && flights[n..] == flights[1..][n - 1..];
      CapturedSplit(flights[1..], n - 1);
    }
  }

  /** The artifact bytes that the journey still holds after its reports: none, unless they broke off. */
  function BytesLeft(flights: seq<Flight>, course: Course): nat {
    if course.Smooth? || course.point.BeforeSeal? then 0
    else if course.point.AtFailureRecord? then CapturedIn(flights)
    else CapturedIn(flights[ReportsOf(flights, course)..])
  }

  lemma PrepareCloseBalanced(cfg: Config, s: State, id: RequestId, input: CloseInput, course: Course)
    requires Exact(cfg, s) && id in s.journeys
    ensures var (s', j', _) := PrepareClose(cfg, s, id, input, course); var flights := s.journeys[id].artifacts;
            && Balanced(cfg, SetJourney(s', id, j'))
            && s'.flightBytes == s.flightBytes - CapturedIn(flights) + j'.artifactBytes && SameJourneys(s, s')
            && s.flightBytes >= CapturedIn(flights)
            && j'.artifactBytes == BytesLeft(flights, course) && j'.reservation == CLOSE_SEAL_RESERVATION_BYTES
  {
    hide Bytes, Seals, SumHeld, Balanced, RecordFallback, FlushFlights, ProjectSeal, CapturedIn, EndOfClose, SetJourney;
    var j := s.journeys[id];
    var seal0 := ProjectSeal(input, j);
    var j0 := j.(finalOutcome := Some(seal0.outcome));
    JourneyBytes(cfg, s, id);
    SameHoldings(cfg, s, id, j, j0);
    if course.Broken? && course.point.AtFailureRecord? {
      SameHoldings(cfg, s, id, j, Observed(j0));
      EndBalanced(cfg, s, id, Observed(j0), seal0, course);
    } else {
      FallbackBalanced(cfg, s, id, j0, seal0);
      var (s1, j1, seal1) := RecordFallback(cfg, s, id, j0, seal0);
      ReportsBalanced(cfg, s1, id, j1, course, seal0.outcome);
      var (s2, j2) := FlushFlights(cfg, s1, id, j1, j1.artifacts[..ReportsOf(j1.artifacts, course)], seal0.outcome);
      EndBalanced(cfg, s2, id, j2, seal1, course);
    }
  }

  lemma JourneyBytes(cfg: Config, s: State, id: RequestId)
    requires Exact(cfg, s) && id in s.journeys
    ensures Balanced(cfg, SetJourney(s, id, s.journeys[id])) && s.flightBytes >= CapturedIn(s.journeys[id].artifacts)
    ensures Settled(cfg, s.journeys[id])
  {
    hide Bytes, Seals, SumHeld;
    AbsorbJourney(s, id);
    SumHeldRemove(s.journeys, id, HeldBytes);
    HoldingsNonNegative(cfg, s.journeys - {id});
  }

  lemma ReportsBalanced(cfg: Config, s: State, id: RequestId, j: Journey, course: Course, outcome: Outcome)
    requires Balanced(cfg, SetJourney(s, id, j)) && s.flightBytes >= CapturedIn(j.artifacts) == j.artifactBytes
    requires course.Broken? ==> !course.point.AtFailureRecord?
    ensures var (s', j') := FlushFlights(cfg, s, id, j, j.artifacts[..ReportsOf(j.artifacts, course)], outcome);
            && Balanced(cfg, SetJourney(s', id, j')) && SameJourneys(s, s')
            && s'.flightBytes == s.flightBytes - CapturedIn(j.artifacts) + j'.artifactBytes
            && j'.artifactBytes == BytesLeft(j.artifacts, course) && j'.reservation == j.reservation
  {
    hide Bytes, Seals, SumHeld, Balanced, FlushFlights, CapturedIn;
    var n := ReportsOf(j.artifacts, course);
    CapturedSplit(j.artifacts, n);
    FlushFlightsBalanced(cfg, s, id, j, j.artifacts[..n], outcome);
    ReportsLeft(j.artifacts, course);
  }

  lemma EndBalanced(cfg: Config, s: State, id: RequestId, j: Journey, seal: Seal, course: Course)
    requires Balanced(cfg, SetJourney(s, id, j))
    requires course.Smooth? || course.point.BeforeSeal? ==> j.artifactBytes == 0
    ensures var j' := EndOfClose(j, seal, course).0;
            Balanced(cfg, SetJourney(s, id, j')) && j'.artifactBytes == j.artifactBytes &&
                j'.reservation == j.reservation
  {
    hide Balanced;
    SameHoldings(cfg, s, id, j, EndOfClose(j, seal, course).0);
  }

  lemma ReportsLeft(flights: seq<Flight>, course: Course)
    ensures course.Smooth? || course.point.BeforeSeal? ==> CapturedIn(flights[ReportsOf(flights, course)..]) == 0
  {
    assert flights[|flights|..] == [];
  }

  /**
   Whether a close runs to its end or breaks off after any number of reports, and whether or not it is sealed:
   the authority's artifact bytes return exactly to what the other journeys hold, the reservation is given back
   unless a pending seal keeps it, and the ledger stays exact.
   */
  lemma CloseExact(cfg: Config, s: State, id: RequestId, input: CloseInput, course: Course)
    requires Exact(cfg, s)
    ensures Exact(cfg, Close(cfg, s, id, input, course))
    ensures s.Serving() && id in s.journeys ==>
              var s' := Close(cfg, s, id, input, course);
              && s'.flightBytes == s.flightBytes - CapturedIn(s.journeys[id].artifacts) ==
                   SumHeld(s.journeys - {id}, HeldBytes)
              && s'.sealReserved ==
                   CLOSE_SEAL_RESERVATION_BYTES * Seals(s'.pending) + SumHeld(s.journeys - {id}, HeldSeal)
              && s'.journeys == s.journeys - {id}
  {
    hide Bytes, Seals, SumHeld, PrepareClose, SealClose, CapturedIn, CourseTaken;
    if s.Serving() && id in s.journeys {
      var taken := CourseTaken(s.journeys[id], input, course);
      PrepareCloseBalanced(cfg, s, id, input, taken);
      var (s1, j1, seal) := PrepareClose(cfg, s, id, input, taken);
      SealBalanced(cfg, s1, id, j1, seal, taken);
      var (s2, j2, _) := SealClose(cfg, s1, id, j1, seal, taken);
      SumHeldUpdate(s2.journeys, id, j2, HeldSeal);
      HoldingsNonNegative(cfg, s.journeys - {id});
      ReleaseBalanced(cfg, s2, id, j2);
    }
  }

  lemma SealBalanced(cfg: Config, s: State, id: RequestId, j: Journey, seal: Seal, course: Course)
    requires Balanced(cfg, SetJourney(s, id, j))
    ensures var (s', j', ok) := SealClose(cfg, s, id, j, seal, course);
            && Balanced(cfg, SetJourney(s', id, j'))
            && s'.flightBytes == s.flightBytes && SameJourneys(s, s')
            && j'.artifactBytes == j.artifactBytes
            && j'.reservation == (if ok then 0 else j.reservation)
  {
    hide Bytes, Seals, SumHeld;
    AdmitSealBalanced(cfg, s, id, j, seal);
    var (s1, j1, ok) := AdmitSeal(cfg, s, id, j, seal);
    AdmitSealBalanced(cfg, s1, id, j1, MinimalSeal());
  }

  // ----------------------------------------------------------------- worker

  lemma EventPushExact(cfg: Config, s: State, e: Entry)
    requires Exact(cfg, s) && e.capacity == Ordinary && s.ordinary + e.bytes <= MAX_ORDINARY_PENDING_BYTES
    ensures Exact(cfg, Push(s, e))
  {
    hide Bytes, Seals, SumHeld;
    SumsPush(s.pending, e, Ordinary);
    SumsPush(s.pending, e, Reserved);
  }

  lemma RuntimeEventExact(cfg: Config, s: State, clock: bool)
    requires Exact(cfg, s)
    ensures Exact(cfg, RuntimeEventOffered(cfg, s, clock))
  {
    hide Bytes, Seals, SumHeld;
    var s1 := s.(nextEvent := s.nextEvent + 1);
    var m := RuntimeEvent(s.nextEvent);
    if s.Serving() && Admissible(cfg, s1, m, None).Some? {
      EventPushExact(cfg, s1, Admissible(cfg, s1, m, None).value);
    }
  }

  /** Giving capacity back never reaches below zero: the clamps have no effect. */
  lemma RemoveExact(cfg: Config, s: State, i: nat)
    requires Exact(cfg, s) && i < |s.pending|
    ensures Exact(cfg, Remove(s, i))
    ensures var e := s.pending[i];
            && (e.capacity == Ordinary ==> s.ordinary >= e.bytes)
            && (e.capacity == Reserved ==> s.reserved >= e.bytes)
            && (e.capacity == CloseSeal ==> s.sealReserved >= CLOSE_SEAL_RESERVATION_BYTES)
  {
    hide Bytes, Seals, SumHeld;
    SumsWithout(s.pending, i, Ordinary);
    SumsWithout(s.pending, i, Reserved);
    HoldingsNonNegative(cfg, s.journeys);
  }

  lemma RejectExact(cfg: Config, s: State, e: Entry, classification: string)
    requires Exact(cfg, s)
    ensures Exact(cfg, Reject(s, e, classification))
  {
    hide Bytes, Seals, SumHeld, Balanced, SetJourney, FlightIndex;
    var s1 := RecordRejection(s, e);
    HistoryExact(cfg, s, s1.history);
    if !e.message.RuntimeEvent? && e.message.id in s.journeys {
      var j := s.journeys[e.message.id].(degraded := true);
      JourneyExact(cfg, s1, e.message.id, j);
      if !e.message.Append? && HasFlight(j.artifacts, e.message.artifact) {
        var k := FlightIndex(j.artifacts, e.message.artifact);
        var d := j.artifacts[k].descriptor.(state := Unavailable, capturedBytes := 0, reason := Some(classification));
        CapturedUpdate(j.artifacts, k, j.artifacts[k].(descriptor := d));
        JourneyExact(cfg, s1, e.message.id, j.(artifacts := j.artifacts[k := j.artifacts[k].(descriptor := d)]));
      }
    }
  }

  lemma SettleExact(cfg: Config, s: State, g: nat, key: Option<Key>, accepted: bool, classification: string)
    requires Exact(cfg, s)
    ensures Exact(cfg, Settle(s, g, key, accepted, classification))
  {
    hide Bytes, Seals, SumHeld, Remove, Reject;
    if s.worker.current == Some(g) && key.Some? && EntryIndex(s.pending, key.value) < |s.pending| {
      var i := EntryIndex(s.pending, key.value);
      RemoveExact(cfg, s, i);
      RejectExact(cfg, Remove(s, i), s.pending[i], classification);
    }
  }

  /** Releasing every open journey leaves exactly the reservations of the pending seals. */
  lemma ReleaseAllExact(cfg: Config, s: State)
    requires Balanced(cfg, s) && forall id :: id in s.journeys ==> Settled(cfg, s.journeys[id])
    ensures Exact(cfg, ReleaseAll(s)) && ReleaseAll(s).flightBytes == 0
    ensures ReleaseAll(s).sealReserved == CLOSE_SEAL_RESERVATION_BYTES * Seals(s.pending)
  {
    HoldingsNonNegative(cfg, s.journeys);
  }

  lemma BecomeUnavailableExact(cfg: Config, s: State)
    requires Exact(cfg, s)
    ensures Exact(cfg, BecomeUnavailable(s))
  {
    if !s.unavailable { ReleaseAllExact(cfg, s); }
  }

  lemma EndShutdownExact(cfg: Config, s: State)
    requires Exact(cfg, s)
    ensures Exact(cfg, EndShutdown(s))
  {
  }

  lemma StepExact(cfg: Config, s: State, a: Action)
    requires Exact(cfg, s)
    ensures Exact(cfg, Step(cfg, s, a))
  {
    hide Bytes, Seals, SumHeld, Begin, Observe, OpenArtifact, AppendArtifact, FinishArtifact, Close,
         RuntimeEventOffered, Settle;
    match a
    case DoBegin(id, all, failed) => BeginExact(cfg, s, id, all, failed);
    case DoObserve(id, fact, reading) => ObserveExact(cfg, s, id, fact, reading);
    case DoOpen(id, artifact, reading, original) => OpenExact(cfg, s, id, artifact, reading, original);
    case DoAppend(id, artifact, bytes) => AppendExact(cfg, s, id, artifact, bytes);
    case DoFinish(id, artifact, finish) => FinishExact(cfg, s, id, artifact, finish);
    case DoClose(id, input, course) => CloseExact(cfg, s, id, input, course);
    case DoRuntimeEvent(clock) => RuntimeEventExact(cfg, s, clock);
    case DoSettle(g, key, accepted, classification) => SettleExact(cfg, s, g, key, accepted, classification);
    case DoReady(_) =>
    case DoFail(_) =>
    case DoStartupFailure(_) => BecomeUnavailableExact(cfg, s);
    case DoStart(_) => BecomeUnavailableExact(cfg, s.(worker := s.worker.(restartScheduled := false, ready := false)));
    case DoBeginShutdown => ReleaseAllExact(cfg, s.(closed := true, worker := s.worker.(restartScheduled := false)));
    case DoEndShutdown => EndShutdownExact(cfg, s);
  }

  /** In every state that any run of the authority reaches, the ledger is exact and within its budgets. */
  lemma {:induction false} LedgerIsExact(cfg: Config, actions: seq<Action>)
    ensures Exact(cfg, After(cfg, actions))
  {
    if actions != [] {
      LedgerIsExact(cfg, actions[..|actions| - 1]);
      StepExact(cfg, After(cfg, actions[..|actions| - 1]), actions[|actions| - 1]);
    }
  }
}
