/** What an open journey remembers of its observations: the first primary failure, and where it was seen last. */
module LedgerRecount {
  import opened Options
  import opened Ledger
  import opened LedgerRuns
  import opened LedgerOrder
  import opened LedgerHonesty
  import opened LedgerReports

  /** The failure that was admitted first as the primary one. */
  function FirstPrimary(facts: seq<Fact>): Option<string> {
    if facts == [] then None
    else if facts[0].kind == FailureDetected && facts[0].primary then Some(facts[0].failureId)
    else FirstPrimary(facts[1..])
  }

  /** The location of the observation that was admitted last. */
  function LastLocation(facts: seq<Fact>): Option<Location> {
    if facts == [] then None else Some(facts[|facts| - 1].location)
  }

  predicate IsPrimary(f: Fact) { f.kind == FailureDetected && f.primary }

  /** At most one failure is primary, and that one has a specific cause. */
  predicate PrimaryIsClear(facts: seq<Fact>) {
    && (forall i, k :: 0 <= i < k < |facts| ==> !(IsPrimary(facts[i]) && IsPrimary(facts[k])))
    && forall i :: 0 <= i < |facts| && IsPrimary(facts[i]) ==> facts[i].classification != UNSPECIFIC_FAILURE
  }

  predicate Recounts(log: seq<Entry>, id: RequestId, j: Journey) {
    && j.primaryFailureId == FirstPrimary(FactsOf(log, id)) && j.lastKnownLocation == LastLocation(FactsOf(log, id))
    && (!j.degraded ==> PrimaryIsClear(FactsOf(log, id)))
  }

  ghost predicate AllRecount(s: State) {
    forall id :: id in s.journeys ==> Recounts(s.history.log, id, s.journeys[id])
  }

  // ------------------------------------------------------------------ frames

  /** None of the messages admitted since is an observation of this journey. */
  ghost predicate NoFactSince(log: seq<Entry>, log': seq<Entry>, id: RequestId) {
    log <= log' && forall i :: |log| <= i < |log'| ==> FactsIn(log'[i].message, id) == []
  }

  lemma {:induction false} SameFacts(log: seq<Entry>, log': seq<Entry>, id: RequestId)
    requires NoFactSince(log, log', id)
    ensures FactsOf(log', id) == FactsOf(log, id)
    decreases |log'|
  {
    if |log| < |log'| {
      SameFacts(log, log'[..|log'| - 1], id);
      assert FactsOf(log', id) == FactsOf(log'[..|log'| - 1], id) + [];
    } else {
      assert log == log';
    }
  }

  predicate SameMemory(j: Journey, j': Journey) {
    && j'.primaryFailureId == j.primaryFailureId && j'.lastKnownLocation == j.lastKnownLocation
    && j'.captureAll == j.captureAll && j'.captureFailed == j.captureFailed
    && (j.degraded ==> j'.degraded)
  }

  /** Nothing happened to what the open journeys remember. */
  ghost predicate Quiet(s: State, s': State) {
    forall id :: id in s'.journeys ==>
      id in s.journeys && SameMemory(s.journeys[id], s'.journeys[id]) &&
          NoFactSince(s.history.log, s'.history.log, id)
  }

  lemma QuietRecounts(s: State, s': State)
    requires AllRecount(s) && Quiet(s, s')
    ensures AllRecount(s')
  {
    hide NoFactSince, FactsOf, FirstPrimary, LastLocation;
    forall id | id in s'.journeys ensures Recounts(s'.history.log, id, s'.journeys[id]) {
      SameFacts(s.history.log, s'.history.log, id);
    }
  }

  /** One journey changed, and messages of it were admitted that are no observations. */
  lemma OneQuiet(s: State, s1: State, s': State, id: RequestId, q: nat)
    requires Extends(s1, s', id, q) && s1.history.log == s.history.log && s1.journeys == s.journeys
    requires NoFactSince(s.history.log, s'.history.log, id)
    ensures forall j :: id in s.journeys && SameMemory(s.journeys[id], j) ==> Quiet(s, SetJourney(s', id, j))
    ensures Quiet(s, s'.(journeys := s.journeys - {id}))
  {
    hide SameMemory;
    forall other | other != id ensures NoFactSince(s.history.log, s'.history.log, other) {
      forall i | |s.history.log| <= i < |s'.history.log| ensures FactsIn(s'.history.log[i].message, other) == [] {
        assert About(s'.history.log[i].message, id, q);
      }
    }
    assert forall j: Journey :: SameMemory(j, j) by { MemoryIsItself(); }
  }

  lemma MemoryIsItself()
    ensures forall j: Journey :: SameMemory(j, j)
  {
  }

  // -------------------------------------------------------------- operations

  lemma {:induction false} FirstPrimaryOfMore(facts: seq<Fact>, f: Fact)
    ensures FirstPrimary(facts + [f]) ==
              if FirstPrimary(facts).Some? then FirstPrimary(facts)
              else if f.kind == FailureDetected && f.primary then Some(f.failureId) else None
    decreases |facts|
  {
    if facts != [] {
      assert (facts + [f])[1..] == facts[1..] + [f];
      FirstPrimaryOfMore(facts[1..], f);
    }
  }

  lemma AdmitForAdds(cfg: Config, s: State, m: Message, j: Journey)
    ensures var (s', j', ok) := AdmitFor(cfg, s, m, j);
            && SameMemory(j, j') && s'.journeys == s.journeys
            && if ok then |s'.history.log| == |s.history.log| + 1 && s.history.log <= s'.history.log &&
                          s'.history.log[|s.history.log|].message == m
               else s' == s
  {
    hide HasKey;
  }

  lemma ObserveRecounts(cfg: Config, s: State, id: RequestId, fact: Fact, reading: Reading)
    requires AllRecount(s)
    ensures AllRecount(Observe(cfg, s, id, fact, reading))
  {
    hide AdmitFor, FactsOf, FirstPrimary;
    if s.Serving() && id in s.journeys {
      var (s1, j) := (OfferFact(s, id, fact), s.journeys[id]);
      var m := Append(id, Observed(j).sequence, FactPayload(fact));
      AdmitForAdds(cfg, s1, m, Observed(j));
      var (s2, j2, ok) := AdmitFor(cfg, s1, m, Observed(j));
      var s' := Observe(cfg, s, id, fact, reading);
      if ok { ObservedRecounts(s, s2, id, j, j2, fact, m); }
      forall other | other in s'.journeys ensures Recounts(s'.history.log, other, s'.journeys[other]) {
        assert Recounts(s.history.log, other, s.journeys[other]);
        if other != id {
          assert NoFactSince(s.history.log, s'.history.log, other);
          SameFacts(s.history.log, s'.history.log, other);
        }
      }
    }
  }

  lemma ObservedRecounts(s: State, s': State, id: RequestId, j: Journey, j': Journey, fact: Fact, m: Message)
    requires Recounts(s.history.log, id, j) && SameMemory(j, j')
    requires |s'.history.log| == |s.history.log| + 1 && s.history.log <= s'.history.log
    requires s'.history.log[|s.history.log|].message == m && FactsIn(m, id) == [fact]
    ensures Recounts(s'.history.log, id, NotePrimary(j'.(lastKnownLocation := Some(fact.location)), fact))
  {
    hide FactsOf, FirstPrimary, PrimaryIsClear;
    var n := |s.history.log|;
    assert s'.history.log == s.history.log + [s'.history.log[n]];
    CountOne(s.history.log, s'.history.log[n], id, Opens(""));
    FirstPrimaryOfMore(FactsOf(s.history.log, id), fact);
    ClearStill(FactsOf(s.history.log, id), fact, j');
  }

  /** A journey that a failure does not degrade has one primary failure at most, and one with a specific cause. */
  lemma ClearStill(facts: seq<Fact>, fact: Fact, j: Journey)
    requires j.primaryFailureId == FirstPrimary(facts)
    ensures PrimaryIsClear(facts) && !NotePrimary(j.(lastKnownLocation := Some(fact.location)), fact).degraded ==>
              PrimaryIsClear(facts + [fact])
  {
    hide PrimaryIsClear;
    if PrimaryIsClear(facts) && !NotePrimary(j.(lastKnownLocation := Some(fact.location)), fact).degraded {
      if FirstPrimary(facts).None? { NoPrimaryYet(facts); }
      ClearMore(facts, fact);
    }
  }

  lemma ClearMore(facts: seq<Fact>, fact: Fact)
    requires PrimaryIsClear(facts)
    requires IsPrimary(fact) ==> fact.classification != UNSPECIFIC_FAILURE && forall i :: 0 <= i < |facts| ==>
               !IsPrimary(facts[i])
    ensures PrimaryIsClear(facts + [fact])
  {
    hide IsPrimary;
    var all := facts + [fact];
    assert forall i :: 0 <= i < |facts| ==> all[i] == facts[i];
    assert all[|facts|] == fact;
  }

  lemma {:induction false} NoPrimaryYet(facts: seq<Fact>)
    requires FirstPrimary(facts).None?
    ensures forall i :: 0 <= i < |facts| ==> !IsPrimary(facts[i])
    decreases |facts|
  {
    if facts != [] {
      NoPrimaryYet(facts[1..]);
      assert forall i :: 1 <= i < |facts| ==> facts[i] == facts[1..][i - 1];
    }
  }

  lemma {:induction false} PrimaryIsThere(facts: seq<Fact>) returns (i: nat)
    requires FirstPrimary(facts).Some?
    ensures i < |facts| && IsPrimary(facts[i])
    decreases |facts|
  {
    if IsPrimary(facts[0]) {
      i := 0;
    } else {
      i := PrimaryIsThere(facts[1..]);
      i := i + 1;
    }
  }

  lemma BeginRecounts(cfg: Config, s: State, id: RequestId, captureAll: bool, captureFailed: bool)
    requires AllRecount(s) && Queued(s) && (id in s.history.used ==> id in s.journeys)
    ensures AllRecount(Begin(cfg, s, id, captureAll, captureFailed).0)
  {
    hide AdmitFor, FactsOf, FirstPrimary, LastLocation, HasKey, Ordered;
    var (s', ok) := Begin(cfg, s, id, captureAll, captureFailed);
    if ok {
      forall other | other in s'.journeys ensures Recounts(s'.history.log, other, s'.journeys[other]) {
        assert NoFactSince(s.history.log, s'.history.log, other);
        SameFacts(s.history.log, s'.history.log, other);
        if other == id {
          UnusedHasNoFacts(s, id);
          NothingToRecount();
        } else {
          assert Recounts(s.history.log, other, s.journeys[other]);
        }
      }
    }
  }

  lemma NothingToRecount()
    ensures FirstPrimary([]) == None && LastLocation([]) == None && PrimaryIsClear([])
  {
  }

  lemma UnusedHasNoFacts(s: State, id: RequestId)
    requires Queued(s) && id !in s.history.used
    ensures FactsOf(s.history.log, id) == []
  {
    hide Ordered;
    forall i | 0 <= i < |s.history.log| ensures FactsIn(s.history.log[i].message, id) == [] {
      assert NumberedEntry(s, s.history.log[i].message);
    }
    SameFacts([], s.history.log, id);
  }

  lemma OpenRecounts(cfg: Config, s: State, id: RequestId, a: ArtifactId, reading: Reading, original: Option<nat>)
    requires AllRecount(s)
    ensures AllRecount(OpenArtifact(cfg, s, id, a, reading, original).0)
  {
    hide AdmitFor, FlightIndex, AllRecount, FactsIn, NewFlight, Extends, Quiet, SetJourney;
    if s.Serving() && id in s.journeys {
      var (s1, j) := (OfferArtifact(s, id, a), Observed(s.journeys[id]));
      var m := ArtifactBegin(id, a, OpenDescriptor(a, original));
      AdmitForAdds(cfg, s1, m, j);
      NoFactInArtifact(m, id);
      AdmitForExtends(cfg, s1, m, j, id, 0);
      ExtendsRefl(s1, id, 0);
      OneQuiet(s, s1, s1, id, 0);
      OneQuiet(s, s1, AdmitFor(cfg, s1, m, j).0, id, 0);
      QuietRecounts(s, OpenArtifact(cfg, s, id, a, reading, original).0);
    }
  }

  lemma NoFactInArtifact(m: Message, id: RequestId)
    requires !m.Append?
    ensures FactsIn(m, id) == []
  {
  }

  lemma FinishRecounts(cfg: Config, s: State, id: RequestId, a: ArtifactId, input: FinishInput)
    requires AllRecount(s)
    ensures AllRecount(FinishArtifact(cfg, s, id, a, input))
  {
    hide AdmitFor, FlightIndex, AllRecount, FactsIn, FinishedFlight, Extends, Quiet, SetJourney;
    QuietSelf(s);
    if id in s.journeys && HasFlight(s.journeys[id].artifacts, a) {
      var j := s.journeys[id];
      var k := FlightIndex(j.artifacts, a);
      if input.Finish? {
        FinishIsQuiet(cfg, s, id, FinishMessage(id, j.artifacts[k], input), k);
      } else {
        BreakIsQuiet(s, id, a, j.(degraded := true, artifacts := j.artifacts[k := BrokenFlight(j.artifacts[k])]));
      }
    }
    QuietRecounts(s, FinishArtifact(cfg, s, id, a, input));
  }

  lemma BreakIsQuiet(s: State, id: RequestId, a: ArtifactId, j: Journey)
    requires id in s.journeys && SameMemory(s.journeys[id], j)
    ensures Quiet(s, SetJourney(RecordBreak(s, id, a), id, j))
  {
    hide Extends, Quiet, SetJourney;
    var s1 := RecordBreak(s, id, a);
    ExtendsRefl(s1, id, 0);
    OneQuiet(s, s1, s1, id, 0);
  }

  lemma FinishIsQuiet(cfg: Config, s: State, id: RequestId, m: Message, k: nat)
    requires id in s.journeys && m.ArtifactFinish? && m.id == id && k < |s.journeys[id].artifacts|
    ensures var j := s.journeys[id];
            var (s', j', ok) := AdmitFor(cfg, s, m, j);
            Quiet(s, SetJourney(s', id, j'.(artifacts := j.artifacts[k := FinishedFlight(j.artifacts[k], m, ok)])))
  {
    hide AdmitFor, FactsIn, FinishedFlight, Extends, Quiet, SetJourney;
    var j := s.journeys[id];
    AdmitForAdds(cfg, s, m, j);
    NoFactInArtifact(m, id);
    AdmitForExtends(cfg, s, m, j, id, 0);
    OneQuiet(s, s, AdmitFor(cfg, s, m, j).0, id, 0);
  }

  lemma QuietSelf(s: State)
    ensures Quiet(s, s)
  {
  }

  lemma {:induction false} AppendChunksSame(cfg: Config, s: State, id: RequestId, j: Journey, f: Flight,
      bytes: seq<Byte>)
    ensures SameMemory(j, AppendChunks(cfg, s, id, j, f, bytes).1)
    decreases |bytes|
  {
    hide AdmitFor;
    if bytes != [] {
      var n := Min(|bytes|, MAX_ARTIFACT_WRITE_CHUNK_BYTES);
      var m := ArtifactChunk(id, f.descriptor.artifactId, f.nextChunkIndex, f.capturedBytes, bytes[..n]);
      AdmitForAdds(cfg, s, m, j);
      var (s', j', f', ok) := AppendChunk(cfg, s, id, j, f, bytes[..n]);
      if ok { AppendChunksSame(cfg, s', id, j', f', bytes[n..]); }
    }
  }

  lemma AppendRecounts(cfg: Config, s: State, id: RequestId, a: ArtifactId, bytes: seq<Byte>)
    requires AllRecount(s)
    ensures AllRecount(AppendArtifact(cfg, s, id, a, bytes))
  {
    hide AppendChunks, FlightIndex, AllRecount, Extends, AfterAppend;
    QuietSelf(s);
    if id in s.journeys && HasFlight(s.journeys[id].artifacts, a) {
      var j := s.journeys[id];
      var f := j.artifacts[FlightIndex(j.artifacts, a)];
      var s1 := RecordAppend(s, id, a, bytes);
      ExtendsRefl(s1, id, 0);
      OneQuiet(s, s1, s1, id, 0);
      SetToItself(s1, id);
      if !f.finished && f.accepting {
        var taken := bytes[..Accepted(cfg, s1, j, f, |bytes|)];
        AppendChunksExtends(cfg, s1, id, j, f, taken);
        AppendChunksMute(cfg, s1, id, j, f, taken);
        AppendChunksSame(cfg, s1, id, j, f, taken);
        OneQuiet(s, s1, AppendChunks(cfg, s1, id, j, f, taken).0, id, j.sequence);
      }
      QuietRecounts(s, AppendArtifact(cfg, s, id, a, bytes));
    }
  }

  lemma SetToItself(s: State, id: RequestId)
    requires id in s.journeys
    ensures SetJourney(s, id, s.journeys[id]) == s
  {
    assert s.journeys[id := s.journeys[id]] == s.journeys;
  }

  lemma CloseRecounts(cfg: Config, s: State, id: RequestId, input: CloseInput, course: Course)
    requires AllRecount(s) && Queued(s)
    ensures AllRecount(Close(cfg, s, id, input, course))
  {
    hide PrepareClose, SealClose, AllRecount, CourseTaken, Extends, FactsIn, Queued;
    QuietSelf(s);
    if s.Serving() && id in s.journeys {
      var taken := CourseTaken(s.journeys[id], input, course);
      ExtractFlights(s, id);
      PrepareCloseExtends(cfg, s, id, input, taken);
      var (s1, j1, seal) := PrepareClose(cfg, s, id, input, taken);
      SealGrows(cfg, s1, id, j1, seal, taken);
      var (s2, j2, ok) := SealClose(cfg, s1, id, j1, seal, taken);
      ClosedIsQuiet(s, s1, s2, Close(cfg, s, id, input, course), id, j1.sequence, ok);
    }
    QuietRecounts(s, Close(cfg, s, id, input, course));
  }

  lemma ClosedIsQuiet(s: State, s1: State, s2: State, s': State, id: RequestId, q: nat, ok: bool)
    requires q > 0 && Extends(s, s1, id, q - 1) && SealedOnce(s1, s2, id, q, ok)
    requires s'.history == s2.history && s'.journeys == s2.journeys - {id}
    ensures Quiet(s, s')
  {
    hide SameMemory;
    MemoryIsItself();
    forall other | other in s'.journeys ensures NoFactSince(s.history.log, s'.history.log, other) {
      forall i | |s.history.log| <= i < |s'.history.log| ensures FactsIn(s'.history.log[i].message, other) == [] {
        if i < |s1.history.log| {
          assert s'.history.log[i] == s1.history.log[i];
          assert About(s1.history.log[i].message, id, q - 1);
        }
      }
    }
  }

  /** Nothing is admitted; journeys may be marked, or end. */
  lemma SilentRecounts(s: State, s': State)
    requires AllRecount(s) && s'.history.log == s.history.log
    requires forall id :: id in s'.journeys ==> id in s.journeys && SameMemory(s.journeys[id], s'.journeys[id])
    ensures AllRecount(s')
  {
    hide AllRecount;
    QuietRecounts(s, s');
  }

  lemma SettleRecounts(s: State, g: nat, key: Option<Key>, accepted: bool, classification: string)
    requires AllRecount(s)
    ensures AllRecount(Settle(s, g, key, accepted, classification))
  {
    hide AllRecount, EntryIndex, Reject, SameMemory;
    MemoryIsItself();
    var s' := Settle(s, g, key, accepted, classification);
    if s.worker.current == Some(g) && key.Some? && EntryIndex(s.pending, key.value) < |s.pending| && !accepted {
      var i := EntryIndex(s.pending, key.value);
      SilentRecounts(s, Remove(s, i));
      RejectIsSilent(Remove(s, i), s.pending[i], classification);
      SilentRecounts(Remove(s, i), s');
    } else {
      SilentRecounts(s, s');
    }
  }

  lemma RejectIsSilent(s: State, e: Entry, classification: string)
    ensures var s' := Reject(s, e, classification);
            && s'.history.log == s.history.log
            && forall id :: id in s'.journeys ==> id in s.journeys && SameMemory(s.journeys[id], s'.journeys[id])
  {
    hide FlightIndex;
  }

  lemma RuntimeEventRecounts(cfg: Config, s: State, clock: bool)
    requires AllRecount(s)
    ensures AllRecount(RuntimeEventOffered(cfg, s, clock))
  {
    hide AllRecount, HasKey;
    QuietRecounts(s, RuntimeEventOffered(cfg, s, clock));
  }

  lemma WorkerRecounts(cfg: Config, s: State, a: Action)
    requires AllRecount(s)
    requires a.DoReady? || a.DoFail? || a.DoStartupFailure? || a.DoStart? || a.DoBeginShutdown? || a.DoEndShutdown?
    ensures AllRecount(Step(cfg, s, a))
  {
    hide AllRecount, SameMemory;
    MemoryIsItself();
    SilentRecounts(s, Step(cfg, s, a));
  }

  lemma StepRecounts(cfg: Config, s: State, a: Action)
    requires AllRecount(s) && Queued(s) && Fresh(s, a)
    ensures AllRecount(Step(cfg, s, a))
  {
    hide Begin, Observe, OpenArtifact, AppendArtifact, FinishArtifact, Close, Settle, Queued, AllRecount,
         RuntimeEventOffered;
    match a
    case DoBegin(id, all, failed) => BeginRecounts(cfg, s, id, all, failed);
    case DoObserve(id, fact, reading) => ObserveRecounts(cfg, s, id, fact, reading);
    case DoOpen(id, artifact, reading, original) => OpenRecounts(cfg, s, id, artifact, reading, original);
    case DoAppend(id, artifact, bytes) => AppendRecounts(cfg, s, id, artifact, bytes);
    case DoFinish(id, artifact, finish) => FinishRecounts(cfg, s, id, artifact, finish);
    case DoClose(id, input, course) => CloseRecounts(cfg, s, id, input, course);
    case DoRuntimeEvent(clock) => RuntimeEventRecounts(cfg, s, clock);
    case DoSettle(g, key, accepted, classification) => SettleRecounts(s, g, key, accepted, classification);
    case _ => WorkerRecounts(cfg, s, a);
  }

  lemma {:induction false} RunRecounts(cfg: Config, actions: seq<Action>)
    requires Legal(cfg, actions)
    ensures AllRecount(After(cfg, actions))
    decreases |actions|
  {
    hide Step, Queued, Recounts;
    if actions != [] {
      RunRecounts(cfg, actions[..|actions| - 1]);
      QueueIsOrdered(cfg, actions[..|actions| - 1]);
      StepRecounts(cfg, After(cfg, actions[..|actions| - 1]), actions[|actions| - 1]);
    }
  }

  /** How the journey was opened: what its last begin that opened it asked to capture. */
  ghost function OpenedWith(cfg: Config, actions: seq<Action>, id: RequestId): Option<(bool, bool)> {
    if actions == [] then None
    else
      var (front, a) := (actions[..|actions| - 1], actions[|actions| - 1]);
      if a.DoBegin? && a.id == id && id !in After(cfg, front).journeys then Some((a.captureAll, a.captureFailed))
      else OpenedWith(cfg, front, id)
  }

  /** A step leaves what an open journey captures as it was; a begin opens a journey with what it asks for. */
  lemma StepKeepsCapture(cfg: Config, s: State, a: Action, id: RequestId)
    requires Queued(s) && id in Step(cfg, s, a).journeys
    ensures var j := Step(cfg, s, a).journeys[id];
            if id in s.journeys then
              j.captureAll == s.journeys[id].captureAll && j.captureFailed == s.journeys[id].captureFailed
            else a.DoBegin? && a.id == id && j.captureAll == a.captureAll && j.captureFailed == a.captureFailed
  {
    hide Begin, Observe, OpenArtifact, AppendArtifact, FinishArtifact, Close, Settle, Queued, RuntimeEventOffered;
    match a
    case DoBegin(b, all, failed) => BeginOpens(cfg, s, b, all, failed);
    case DoObserve(b, fact, reading) => ObserveRemembers(cfg, s, b, fact, reading);
    case DoOpen(b, artifact, reading, original) => OpenRemembers(cfg, s, b, artifact, reading, original);
    case DoAppend(b, artifact, bytes) => AppendRemembers(cfg, s, b, artifact, bytes);
    case DoFinish(b, artifact, finish) => FinishRemembers(cfg, s, b, artifact, finish);
    case DoClose(b, input, course) => CloseForgets(cfg, s, b, input, course);
    case DoRuntimeEvent(clock) => RuntimeEventForgets(cfg, s, clock);
    case DoSettle(g, key, accepted, classification) => SettleRemembers(s, g, key, accepted, classification);
    case _ =>
  }

  /** The journeys are as they were, but for one, which remembers the same. */
  ghost predicate Remembers(s: State, s': State) {
    s'.journeys.Keys <= s.journeys.Keys &&
    forall id :: id in s'.journeys ==>
      s'.journeys[id].captureAll == s.journeys[id].captureAll &&
      s'.journeys[id].captureFailed == s.journeys[id].captureFailed
  }

  lemma BeginOpens(cfg: Config, s: State, id: RequestId, captureAll: bool, captureFailed: bool)
    ensures var s' := Begin(cfg, s, id, captureAll, captureFailed).0;
            s' == s || (id !in s.journeys && s'.journeys == s.journeys[id := s'.journeys[id]] &&
                s'.journeys[id].captureAll == captureAll && s'.journeys[id].captureFailed == captureFailed)
  {
    hide HasKey;
  }

  lemma ObserveRemembers(cfg: Config, s: State, id: RequestId, fact: Fact, reading: Reading)
    ensures Remembers(s, Observe(cfg, s, id, fact, reading))
  {
    hide AdmitFor;
    if s.Serving() && id in s.journeys {
      var m := Append(id, Observed(s.journeys[id]).sequence, FactPayload(fact));
      AdmitForAdds(cfg, OfferFact(s, id, fact), m, Observed(s.journeys[id]));
    }
  }

  lemma OpenRemembers(cfg: Config, s: State, id: RequestId, a: ArtifactId, reading: Reading, original: Option<nat>)
    ensures Remembers(s, OpenArtifact(cfg, s, id, a, reading, original).0)
  {
    hide AdmitFor, FlightIndex;
    if s.Serving() && id in s.journeys {
      var m := ArtifactBegin(id, a, OpenDescriptor(a, original));
      AdmitForAdds(cfg, OfferArtifact(s, id, a), m, Observed(s.journeys[id]));
    }
  }

  lemma AppendRemembers(cfg: Config, s: State, id: RequestId, a: ArtifactId, bytes: seq<Byte>)
    ensures Remembers(s, AppendArtifact(cfg, s, id, a, bytes))
  {
    hide AppendChunks, FlightIndex, Extends;
    if id in s.journeys && HasFlight(s.journeys[id].artifacts, a) {
      var (s1, j) := (RecordAppend(s, id, a, bytes), s.journeys[id]);
      var f := j.artifacts[FlightIndex(j.artifacts, a)];
      var taken := bytes[..Accepted(cfg, s1, j, f, |bytes|)];
      AppendChunksSame(cfg, s1, id, j, f, taken);
      AppendChunksExtends(cfg, s1, id, j, f, taken);
      SameJourneysExtended(s1, AppendChunks(cfg, s1, id, j, f, taken).0, id, j.sequence);
    }
  }

  lemma SameJourneysExtended(s: State, s': State, id: RequestId, q: nat)
    requires Extends(s, s', id, q)
    ensures s'.journeys == s.journeys
  {
  }

  lemma FinishRemembers(cfg: Config, s: State, id: RequestId, a: ArtifactId, input: FinishInput)
    ensures Remembers(s, FinishArtifact(cfg, s, id, a, input))
  {
    hide AdmitFor, FlightIndex;
    if id in s.journeys && HasFlight(s.journeys[id].artifacts, a) && input.Finish? {
      var j := s.journeys[id];
      AdmitForAdds(cfg, s, FinishMessage(id, j.artifacts[FlightIndex(j.artifacts, a)], input), j);
    }
  }

  lemma CloseForgets(cfg: Config, s: State, id: RequestId, input: CloseInput, course: Course)
    requires Queued(s)
    ensures Remembers(s, Close(cfg, s, id, input, course))
  {
    hide PrepareClose, SealClose, CourseTaken, Queued, Extends;
    if s.Serving() && id in s.journeys {
      var taken := CourseTaken(s.journeys[id], input, course);
      ExtractFlights(s, id);
      PrepareCloseExtends(cfg, s, id, input, taken);
      var (s1, j1, seal) := PrepareClose(cfg, s, id, input, taken);
      SameJourneysExtended(s, s1, id, j1.sequence - 1);
      SealGrows(cfg, s1, id, j1, seal, taken);
    }
  }

  lemma RuntimeEventForgets(cfg: Config, s: State, clock: bool)
    ensures RuntimeEventOffered(cfg, s, clock).journeys == s.journeys
  {
    hide HasKey;
  }

  lemma SettleRemembers(s: State, g: nat, key: Option<Key>, accepted: bool, classification: string)
    ensures Remembers(s, Settle(s, g, key, accepted, classification))
  {
    hide EntryIndex, Reject, FlightIndex;
    if s.worker.current == Some(g) && key.Some? && EntryIndex(s.pending, key.value) < |s.pending| {
      var i := EntryIndex(s.pending, key.value);
      RejectIsSilent(Remove(s, i), s.pending[i], classification);
    }
  }

  lemma {:induction false} CapturesAsOpened(cfg: Config, actions: seq<Action>, id: RequestId)
    requires Legal(cfg, actions) && id in After(cfg, actions).journeys
    ensures var j := After(cfg, actions).journeys[id];
            OpenedWith(cfg, actions, id) == Some((j.captureAll, j.captureFailed))
    decreases |actions|
  {
    hide Step, Queued;
    if actions != [] {
      var (front, a) := (actions[..|actions| - 1], actions[|actions| - 1]);
      QueueIsOrdered(cfg, front);
      StepKeepsCapture(cfg, After(cfg, front), a, id);
      if id in After(cfg, front).journeys { CapturesAsOpened(cfg, front, id); }
    }
  }

  /** After every run an open journey names the first failure that was admitted as primary, whatever was observed
      since, and the location of the observation that was admitted last; it is degraded if there was another primary
      failure, or one without a specific cause; and it captures what it was opened for. */
  lemma JourneyRemembers(cfg: Config, actions: seq<Action>, id: RequestId)
    requires Legal(cfg, actions) && id in After(cfg, actions).journeys
    ensures var s := After(cfg, actions); var facts := FactsOf(s.history.log, id);
            && s.journeys[id].primaryFailureId == FirstPrimary(facts)
            && s.journeys[id].lastKnownLocation == LastLocation(facts)
            && (!s.journeys[id].degraded ==> PrimaryIsClear(facts))
            && OpenedWith(cfg, actions, id) == Some((s.journeys[id].captureAll, s.journeys[id].captureFailed))
  {
    hide After, Legal, FactsOf, FirstPrimary, LastLocation, PrimaryIsClear, OpenedWith;
    RunRecounts(cfg, actions);
    CapturesAsOpened(cfg, actions, id);
    assert Recounts(After(cfg, actions).history.log, id, After(cfg, actions).journeys[id]);
  }
}
