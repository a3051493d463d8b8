/** When a close is sealed as complete: exactly if nothing went wrong with the journey, its input, its reports or its
    seal. */
module LedgerVerdict {
  import opened Options
  import opened Ledger
  import opened LedgerRuns
  import opened LedgerBalance
  import opened LedgerOrder
  import opened LedgerSeal
  import opened LedgerReports
  import opened LedgerHonesty
  import opened LedgerLimits
  import opened LedgerAdmission

  /** The report of a recorder, unless the queue is full. */
  function FinalReport(id: RequestId, j: Journey, f: Flight, outcome: Outcome): Message {
    Append(id, f.sequence, ArtifactPayload(FinalDescriptor(j, f, outcome)))
  }

  /** The messages admitted next are the reports of these recorders, in their order. */
  ghost predicate ReportsFollow(s: State, s': State, id: RequestId, j: Journey, flights: seq<Flight>, outcome: Outcome)
  {
    && |s.history.log| + |flights| <= |s'.history.log| && s.history.log <= s'.history.log
    && forall k :: 0 <= k < |flights| ==>
         s'.history.log[|s.history.log| + k].message == FinalReport(id, j, flights[k], outcome)
  }

  predicate AllFinished(flights: seq<Flight>) { forall k :: 0 <= k < |flights| ==> flights[k].finished }

  /** No more messages were admitted than these. */
  ghost predicate AtMost(s: State, s': State, n: nat) {
    s.history.log <= s'.history.log && |s'.history.log| <= |s.history.log| + n
  }

  // ---------------------------------------------------------------- reports

  lemma AdmitForVerdict(cfg: Config, s: State, m: Message, j: Journey)
    ensures var (s', j', ok) := AdmitFor(cfg, s, m, j);
            && AtMost(s, s', 1) && (!ok ==> s' == s) && (ok ==> j' == j) && (!ok ==> j'.degraded)
            && (ok <==> |s'.history.log| > |s.history.log|)
            && (ok ==> s'.history.log[|s.history.log|].message == m)
            && j'.finalOutcome == j.finalOutcome
  {
    hide HasKey;
  }

  /** A report leaves the journey undegraded exactly if it is admitted at the first try. */
  lemma FlushFlightVerdict(cfg: Config, s: State, id: RequestId, j: Journey, f: Flight, outcome: Outcome)
    ensures var (s', j') := FlushFlight(cfg, s, id, j, f, outcome);
            && AtMost(s, s', 1) && SameCapture(j, j')
            && (!j'.degraded <==> !j.degraded && f.finished && ReportsFollow(s, s', id, j, [f], outcome))
  {
    hide AdmitFor, FinalDescriptor;
    FlushFlightReports(cfg, s, id, j, f, outcome);
    var j0 := if f.finished then j else j.(degraded := true);
    SameFinal(j, j0, f, outcome);
    var d := FinalDescriptor(j0, f, outcome);
    var m := Append(id, f.sequence, ArtifactPayload(d));
    AdmitForVerdict(cfg, s, m, j0);
    var (s1, j1, ok) := AdmitFor(cfg, s, m, j0);
    if !ok {
      var m' := Append(id, f.sequence, ArtifactPayload(Refused(d)));
      AdmitForVerdict(cfg, s1, m', j1);
      RefusedTwice(cfg, s, m, j0, j1);
    }
  }

  /** The second try of the same message is refused as the first was. */
  lemma RefusedTwice(cfg: Config, s: State, m: Message, j: Journey, j1: Journey)
    requires !AdmitFor(cfg, s, m, j).2 && j1.finalOutcome == j.finalOutcome
    ensures !AdmitFor(cfg, s, m, j1).2
  {
    hide HasKey;
  }

  lemma {:induction false} FlushFlightsVerdict(cfg: Config, s: State, id: RequestId, j: Journey, flights: seq<Flight>,
      outcome: Outcome)
    ensures var (s', j') := FlushFlights(cfg, s, id, j, flights, outcome);
            && AtMost(s, s', |flights|)
            && (!j'.degraded <==> !j.degraded && AllFinished(flights) && ReportsFollow(s, s', id, j, flights, outcome))
    decreases |flights|
  {
    hide FlushFlight, AllFinished, ReportsFollow, SameCapture;
    if flights == [] {
      NothingFollows(s, id, j, outcome);
    } else {
      FlushFlightVerdict(cfg, s, id, j, flights[0], outcome);
      var (s1, j1) := FlushFlight(cfg, s, id, j, flights[0], outcome);
      FlushFlightsVerdict(cfg, s1, id, j1, flights[1..], outcome);
      var (s2, j2) := FlushFlights(cfg, s1, id, j1, flights[1..], outcome);
      FirstFollows(s, s1, s2, id, j, j1, flights, outcome);
      FirstFinished(flights);
    }
  }

  lemma NothingFollows(s: State, id: RequestId, j: Journey, outcome: Outcome)
    ensures ReportsFollow(s, s, id, j, [], outcome) && AllFinished([])
  {
  }

  lemma FirstFinished(flights: seq<Flight>)
    requires flights != []
    ensures AllFinished(flights) <==> flights[0].finished && AllFinished(flights[1..])
  {
    assert forall k :: 1 <= k < |flights| ==> flights[k] == flights[1..][k - 1];
  }

  /** All reports follow exactly if the first does, and then the others. */
  lemma FirstFollows(s: State, s1: State, s2: State, id: RequestId, j: Journey, j1: Journey, flights: seq<Flight>,
      outcome: Outcome)
    requires flights != [] && SameCapture(j, j1) && AtMost(s, s1, 1) && AtMost(s1, s2, |flights| - 1)
    ensures ReportsFollow(s, s2, id, j, flights, outcome) <==>
              ReportsFollow(s, s1, id, j, [flights[0]], outcome) && ReportsFollow(s1, s2, id, j1, flights[1..], outcome)
  {
    hide FinalDescriptor;
    var n := |s.history.log|;
    forall k | 1 <= k < |flights|
      ensures FinalReport(id, j, flights[k], outcome) == FinalReport(id, j1, flights[1..][k - 1], outcome)
    {
      SameFinal(j, j1, flights[k], outcome);
    }
    if ReportsFollow(s, s2, id, j, flights, outcome) {
      assert |s1.history.log| == n + 1;
      assert s2.history.log[n + 0].message == FinalReport(id, j, flights[0], outcome);
      forall k | 0 <= k < |flights[1..]|
        ensures s2.history.log[n + 1 + k].message == FinalReport(id, j1, flights[1..][k], outcome)
      {
        assert s2.history.log[n + (k + 1)].message == FinalReport(id, j, flights[k + 1], outcome);
      }
    }
    if ReportsFollow(s, s1, id, j, [flights[0]], outcome) && ReportsFollow(s1, s2, id, j1, flights[1..], outcome) {
      forall k | 0 <= k < |flights|
        ensures s2.history.log[n + k].message == FinalReport(id, j, flights[k], outcome)
      {
        if k == 0 {
          assert s1.history.log[n + 0].message == FinalReport(id, j, [flights[0]][0], outcome);
        } else {
          assert s2.history.log[n + 1 + (k - 1)].message == FinalReport(id, j1, flights[1..][k - 1], outcome);
        }
      }
    }
  }

  /** A report that the queue does not take is tried once more, as that of an artifact that is not available: this is a
      message of the kind that is still taken when the queue is full. */
  lemma ReportIsTriedTwice(cfg: Config, s: State, id: RequestId, j: Journey, f: Flight, outcome: Outcome)
    ensures var s' := FlushFlight(cfg, s, id, j, f, outcome).0; var first := FinalReport(id, j, f, outcome);
            var d := first.payload.descriptor.(state := Unavailable, reason := Some("queue_capacity_exhausted"));
            var second := Append(id, f.sequence, ArtifactPayload(d));
            && Essential(second)
            && if HasRoom(cfg, s, first, j.finalOutcome) then Logged(s, s', first)
               else if HasRoom(cfg, s, second, j.finalOutcome) then Logged(s, s', second)
               else NotLogged(s, s')
  {
    hide AdmitFor, FinalDescriptor, HasRoom;
    var j0 := if f.finished then j else j.(degraded := true);
    SameFinal(j, j0, f, outcome);
    var d := FinalDescriptor(j0, f, outcome);
    var m := Append(id, f.sequence, ArtifactPayload(d));
    AdmitForIsByKind(cfg, s, m, j0);
    var (s1, j1, ok) := AdmitFor(cfg, s, m, j0);
    if !ok { AdmitForIsByKind(cfg, s1, Append(id, f.sequence, ArtifactPayload(Refused(d))), j1); }
  }

  // ---------------------------------------------------------------- verdict

  function TextOf(f: Field): Option<string> { if f.Text? then Some(f.value) else None }

  /** A seal with all that the input and the journey say. */
  function SealOf(input: CloseInput, j: Journey): Seal
    requires input.CloseRecord? && input.outcome.Some?
  {
    Seal(input.outcome.value, TextOf(FailureField(input.primaryFailureId, j)), TextOf(input.closeReason),
         if input.location.At? then Some(input.location.location) else None, true)
  }

  lemma CarriedIsAll(input: CloseInput, j: Journey, seal: Seal)
    requires seal.complete && TakesAll(input, j) && CarriesAll(input, j, seal)
    ensures seal == SealOf(input, j)
  {
    hide Utf8Length;
  }

  /** No failure is left to record: the close reports success, or the journey has its primary failure. */
  predicate NoFailureLeft(input: CloseInput, j: Journey) {
    input.CloseRecord? && (input.outcome == Some(Success) || j.primaryFailureId.Some?)
  }

  /** Everything went well up to the seal. */
  ghost predicate WellReported(s: State, s': State, id: RequestId, input: CloseInput)
    requires id in s.journeys
  {
    var j := s.journeys[id];
    && !j.degraded && TakesAll(input, j) && NoFailureLeft(input, j)
    && AllFinished(j.artifacts) && ReportsFollow(s, s', id, j, j.artifacts, input.outcome.value)
  }

  lemma PreparedVerdict(cfg: Config, s: State, id: RequestId, input: CloseInput, course: Course)
    requires id in s.journeys && FlightsNumbered(s.journeys[id])
    ensures var (s1, j1, seal) := PrepareClose(cfg, s, id, input, course); var j := s.journeys[id];
            && (seal.complete <==> course.Smooth? && WellReported(s, s1, id, input))
            && (seal.complete ==> seal == SealOf(input, j))
            && (NoFailureLeft(input, j) && TakesAll(input, j) && course.Smooth? ==> AtMost(s, s1, |j.artifacts|))
  {
    hide ProjectSeal, RecordFallback, FlushFlights, AllFinished, ReportsFollow, AtMost, TakesAll, CarriesAll, SealOf;
    var j := s.journeys[id];
    var seal0 := ProjectSeal(input, j);
    var j0 := j.(finalOutcome := Some(seal0.outcome));
    if course.Smooth? {
      DegradedSealIsIncomplete(cfg, s, id, j0, seal0);
      NoFallback(cfg, s, id, j0, seal0);
      SmoothVerdict(cfg, s, id, input, j, j0, seal0);
    }
  }

  lemma SmoothVerdict(cfg: Config, s: State, id: RequestId, input: CloseInput, j: Journey, j0: Journey, seal0: Seal)
    requires id in s.journeys && j == s.journeys[id] && seal0 == ProjectSeal(input, j)
    requires j0 == j.(finalOutcome := Some(seal0.outcome))
    requires NeedsFallback(j0, seal0) ==>
               var (s1, j1, _) := RecordFallback(cfg, s, id, j0, seal0);
               FlushFlights(cfg, s1, id, j1, j1.artifacts[..|j1.artifacts|], seal0.outcome).1.degraded
    requires !NeedsFallback(j0, seal0) ==> RecordFallback(cfg, s, id, j0, seal0) == (s, j0, seal0)
    ensures var (s1, j1, seal) := PrepareClose(cfg, s, id, input, Smooth);
            && (seal.complete <==> WellReported(s, s1, id, input))
            && (seal.complete ==> seal == SealOf(input, j))
            && (NoFailureLeft(input, j) && TakesAll(input, j) ==> AtMost(s, s1, |j.artifacts|))
  {
    hide ProjectSeal, RecordFallback, FlushFlights, AllFinished, ReportsFollow, AtMost, CarriesAll, SealOf, Takes,
         TakesLocation, FailureField;
    assert j0.artifacts[..|j0.artifacts|] == j.artifacts;
    if !NeedsFallback(j0, seal0) {
      FlushFlightsVerdict(cfg, s, id, j0, j.artifacts, seal0.outcome);
      SameReports(s, FlushFlights(cfg, s, id, j0, j.artifacts, seal0.outcome).0, id, j, j0, j.artifacts, seal0.outcome);
      if seal0.complete { CarriedIsAll(input, j, seal0); }
    }
  }

  lemma SameReports(s: State, s': State, id: RequestId, j: Journey, j0: Journey, flights: seq<Flight>,
      outcome: Outcome)
    requires SameCapture(j, j0)
    ensures ReportsFollow(s, s', id, j, flights, outcome) <==> ReportsFollow(s, s', id, j0, flights, outcome)
  {
    hide FinalDescriptor;
    forall k | 0 <= k < |flights|
      ensures FinalReport(id, j, flights[k], outcome) == FinalReport(id, j0, flights[k], outcome)
    {
      SameFinal(j, j0, flights[k], outcome);
    }
  }

  /** The last of the messages that the close admitted is a seal of the journey that says "complete". */
  ghost predicate SealedComplete(s: State, s': State, id: RequestId) {
    var log := s'.history.log;
    |log| > |s.history.log| && IsSeal(log[|log| - 1].message) && log[|log| - 1].message.id == id &&
    log[|log| - 1].message.payload.seal.complete
  }

  /** The seal's admission: the last message is the seal exactly if it fits. */
  lemma SealedVerdict(cfg: Config, s: State, id: RequestId, j: Journey, seal: Seal)
    requires j.reservation == CLOSE_SEAL_RESERVATION_BYTES && !HasKey(s.pending, JourneyKey(id, j.sequence))
    ensures var s' := SealClose(cfg, s, id, j, seal, Smooth).0;
            && AtMost(s, s', 1)
            && (|s'.history.log| > |s.history.log| ==> IsSeal(s'.history.log[|s.history.log|].message))
            && (SealedComplete(s, s', id) <==>
                  seal.complete && Fits(cfg, Append(id, j.sequence, SealPayload(seal)), j.fallbackBytes))
            && (SealedComplete(s, s', id) ==>
                  s'.history.log[|s.history.log|].message == Append(id, j.sequence, SealPayload(seal)))
  {
    hide HasKey;
  }

  /** A close that breaks off is never sealed as complete. */
  lemma BrokenVerdict(cfg: Config, s: State, id: RequestId, j: Journey, course: Course)
    requires course.Broken?
    ensures !SealedComplete(s, SealClose(cfg, s, id, j, MinimalSeal(), course).0, id)
  {
    hide HasKey;
  }

  lemma LastIsReport(s: State, s': State, id: RequestId, j: Journey, flights: seq<Flight>, outcome: Outcome)
    requires ReportsFollow(s, s', id, j, flights, outcome)
    ensures flights != [] ==> !IsSeal(s'.history.log[|s.history.log| + |flights| - 1].message)
  {
    hide FinalDescriptor;
    if flights != [] {
      assert s'.history.log[|s.history.log| + (|flights| - 1)].message
          == FinalReport(id, j, flights[|flights| - 1], outcome);
    }
  }

  /** The seal is none of the reports. */
  lemma ReportsBeforeSeal(s: State, s1: State, s2: State, id: RequestId, j: Journey, flights: seq<Flight>,
      outcome: Outcome)
    requires s.history.log <= s1.history.log && AtMost(s1, s2, 1) && AtMost(s, s1, |flights|)
    requires |s2.history.log| > |s1.history.log| ==> IsSeal(s2.history.log[|s1.history.log|].message)
    ensures ReportsFollow(s, s2, id, j, flights, outcome) <==> ReportsFollow(s, s1, id, j, flights, outcome)
  {
    hide FinalDescriptor;
    var n := |s.history.log|;
    if ReportsFollow(s, s2, id, j, flights, outcome) {
      LastIsReport(s, s2, id, j, flights, outcome);
      forall k | 0 <= k < |flights|
        ensures s1.history.log[n + k].message == FinalReport(id, j, flights[k], outcome)
      {
        assert s2.history.log[n + k].message == FinalReport(id, j, flights[k], outcome);
      }
    }
    if ReportsFollow(s, s1, id, j, flights, outcome) {
      forall k | 0 <= k < |flights|
        ensures s2.history.log[n + k].message == FinalReport(id, j, flights[k], outcome)
      {
        assert s1.history.log[n + k].message == FinalReport(id, j, flights[k], outcome);
      }
    }
  }

  /** All that a close needs to be sealed as complete. */
  ghost predicate Earned(cfg: Config, s: State, s': State, id: RequestId, input: CloseInput, course: Course)
    requires id in s.journeys
  {
    var j := s.journeys[id];
    && (course.Smooth? || course.point.AtFailureRecord?)
    && WellReported(s, s', id, input)
    && Fits(cfg, Append(id, j.sequence + 1, SealPayload(SealOf(input, j))), 0)
  }

  lemma NotDue(cfg: Config, id: RequestId, j: Journey, input: CloseInput, course: Course)
    requires TakesAll(input, j)
    ensures NoFailureLeft(input, j) <==> !RecordIsDue(j, input)
    ensures NoFailureLeft(input, j) ==>
              SealSequence(j, input) == j.sequence + 1 && FallbackCost(cfg, id, j, input, course) == 0
    ensures NoFailureLeft(input, j) ==>
              (CourseTaken(j, input, course).Smooth? <==> course.Smooth? || course.point.AtFailureRecord?)
  {
    hide ProjectSeal, Takes, TakesLocation, RecordOf;
  }

  /** The close seals with what it has prepared, and nothing else. */
  lemma SealedSince(s: State, s1: State, s2: State, s': State, id: RequestId)
    requires s.history.log <= s1.history.log && AtMost(s1, s2, 1) && s'.history == s2.history
    requires |s1.history.log| > 0 ==>
               var last := s1.history.log[|s1.history.log| - 1].message; !(IsSeal(last) && last.id == id)
    ensures SealedComplete(s, s', id) <==> SealedComplete(s1, s2, id)
  {
  }

  lemma SmoothlyClosed(cfg: Config, s: State, id: RequestId, input: CloseInput, s1: State, j1: Journey, seal: Seal)
    requires id in s.journeys && s.history.log <= s1.history.log
    requires |s1.history.log| > 0 ==>
               var last := s1.history.log[|s1.history.log| - 1].message; !(IsSeal(last) && last.id == id)
    requires j1.reservation == CLOSE_SEAL_RESERVATION_BYTES && !HasKey(s1.pending, JourneyKey(id, j1.sequence))
    requires seal.complete <==> WellReported(s, s1, id, input)
    requires seal.complete ==> seal == SealOf(input, s.journeys[id])
    requires NoFailureLeft(input, s.journeys[id]) && TakesAll(input, s.journeys[id]) ==>
               && AtMost(s, s1, |s.journeys[id].artifacts|)
               && j1.sequence == s.journeys[id].sequence + 1 && j1.fallbackBytes == 0
    ensures var s2 := SealClose(cfg, s1, id, j1, seal, Smooth).0; var j := s.journeys[id];
            && (SealedComplete(s1, s2, id) <==> Earned(cfg, s, s2, id, input, Smooth))
            && (SealedComplete(s1, s2, id) ==>
                  && |s2.history.log| == |s.history.log| + |j.artifacts| + 1
                  && s2.history.log[|s2.history.log| - 1].message
                     == Append(id, j.sequence + 1, SealPayload(SealOf(input, j))))
  {
    hide HasKey, SealClose, ReportsFollow, AllFinished, Takes, TakesLocation, NoFailureLeft, Fits, SealOf;
    var s2 := SealClose(cfg, s1, id, j1, seal, Smooth).0;
    SealedVerdict(cfg, s1, id, j1, seal);
    var j := s.journeys[id];
    if NoFailureLeft(input, j) && TakesAll(input, j) {
      ReportsBeforeSeal(s, s1, s2, id, j, j.artifacts, OutcomeOf(input));
      if ReportsFollow(s, s1, id, j, j.artifacts, OutcomeOf(input)) { AllReported(s, s1, id, j, OutcomeOf(input)); }
    }
  }

  function OutcomeOf(input: CloseInput): Outcome {
    if input.CloseRecord? && input.outcome.Some? then input.outcome.value else Interrupted
  }

  lemma AllReported(s: State, s1: State, id: RequestId, j: Journey, outcome: Outcome)
    requires ReportsFollow(s, s1, id, j, j.artifacts, outcome) && AtMost(s, s1, |j.artifacts|)
    ensures |s1.history.log| == |s.history.log| + |j.artifacts|
  {
  }

  lemma ClosedVerdict(cfg: Config, s: State, id: RequestId, input: CloseInput, course: Course)
    requires Queued(s) && Exact(cfg, s) && s.Serving() && id in s.journeys
    ensures var j := s.journeys[id]; var s' := Close(cfg, s, id, input, course);
            && (SealedComplete(s, s', id) <==> Earned(cfg, s, s', id, input, course))
            && (SealedComplete(s, s', id) ==>
                  && |s'.history.log| == |s.history.log| + |j.artifacts| + 1
                  && s'.history.log[|s'.history.log| - 1].message
                     == Append(id, j.sequence + 1, SealPayload(SealOf(input, j))))
  {
    hide PrepareClose, SealClose, Extends, HasKey, Fits, SealOf, SealFor, FallbackCost, SealSequence, TakesAll,
         NoFailureLeft, ReportsFollow, AllFinished, Queued, Exact, CourseTaken, AtMost, RecordIsDue, SealedComplete;
    var j := s.journeys[id];
    var taken := CourseTaken(j, input, course);
    TakenOnce(j, input, course);
    if TakesAll(input, j) {
      NotDue(cfg, id, j, input, course);
      NotDue(cfg, id, j, input, taken);
    }
    ExtractFlights(s, id);
    PreparedClose(cfg, s, id, input, taken);
    PreparedVerdict(cfg, s, id, input, taken);
    var (s1, j1, seal) := PrepareClose(cfg, s, id, input, taken);
    LastIsNoSeal(s, s1, id, j1.sequence - 1);
    ExtendsLog(s, s1, id, j1.sequence - 1);
    var s2 := SealClose(cfg, s1, id, j1, seal, taken).0;
    SealAddsOne(cfg, s1, id, j1, seal, taken);
    SealedSince(s, s1, s2, Close(cfg, s, id, input, course), id);
    if taken.Smooth? {
      SmoothlyClosed(cfg, s, id, input, s1, j1, seal);
      EarnedAlike(cfg, s, s2, Close(cfg, s, id, input, course), id, input);
    } else {
      BrokenVerdict(cfg, s1, id, j1, taken);
    }
  }

  lemma ExtendsLog(s: State, s1: State, id: RequestId, q: nat)
    requires Extends(s, s1, id, q)
    ensures s.history.log <= s1.history.log
  {
  }

  lemma SealAddsOne(cfg: Config, s: State, id: RequestId, j: Journey, seal: Seal, course: Course)
    ensures AtMost(s, SealClose(cfg, s, id, j, seal, course).0, 1)
  {
    hide HasKey;
  }

  lemma EarnedAlike(cfg: Config, s: State, s2: State, s': State, id: RequestId, input: CloseInput)
    requires id in s.journeys && s'.history == s2.history
    ensures WellReported(s, s2, id, input) <==> WellReported(s, s', id, input)
  {
    hide FinalReport;
  }

  /**
   The verdict of a close, over all runs. Its seal says "complete" if and only if the journey was not degraded; the
   input is a record that says so, of which nothing must be cut, corrected or left out; no failure record was due;
   nothing broke the close off; every recorder had finished; the reports of all recorders were admitted at their
   first try, in their order; and the seal fits its reservation. It is then the seal with all of the input, and
   nothing but the reports was admitted before it.
   */
  lemma VerdictIsEarned(cfg: Config, actions: seq<Action>, id: RequestId, input: CloseInput, course: Course)
    requires Legal(cfg, actions) && After(cfg, actions).Serving() && id in After(cfg, actions).journeys
    ensures var s := After(cfg, actions); var j := s.journeys[id]; var s' := Close(cfg, s, id, input, course);
            && (SealedComplete(s, s', id) <==> Earned(cfg, s, s', id, input, course))
            && (SealedComplete(s, s', id) ==>
                  && |s'.history.log| == |s.history.log| + |j.artifacts| + 1
                  && s'.history.log[|s'.history.log| - 1].message
                     == Append(id, j.sequence + 1, SealPayload(SealOf(input, j))))
  {
    hide After, Legal, Close, Queued, Exact, Earned, SealedComplete, SealOf;
    LedgerIsExact(cfg, actions);
    QueueIsOrdered(cfg, actions);
    ClosedVerdict(cfg, After(cfg, actions), id, input, course);
  }

  /** For one: a journey that begins and succeeds, and whose close says that it is complete, is sealed as complete. */
  lemma PlainCloseIsComplete()
    ensures Legal(PLAIN, [DoBegin("r", false, true)])
    ensures var s := After(PLAIN, [DoBegin("r", false, true)]);
            SealedComplete(s, Close(PLAIN, s, "r", SUCCEEDED, Smooth), "r")
  {
    hide Begin, Close, PrepareClose, SealedComplete;
    var begin := DoBegin("r", false, true);
    assert [begin] == [] + [begin];
    AfterOneMore(PLAIN, [], begin);
    NoActions(PLAIN);
    var s := After(PLAIN, [begin]);
    BegunPlain(s);
    GrowsAtClose(PLAIN, [begin], "r", SUCCEEDED, Smooth);
    VerdictIsEarned(PLAIN, [begin], "r", SUCCEEDED, Smooth);
  }

  /** A close only adds to the log. */
  lemma GrowsAtClose(cfg: Config, actions: seq<Action>, id: RequestId, input: CloseInput, course: Course)
    requires Legal(cfg, actions) && After(cfg, actions).Serving() && id in After(cfg, actions).journeys
    ensures After(cfg, actions).history.log <= Close(cfg, After(cfg, actions), id, input, course).history.log
  {
    hide After, Legal, PrepareClose, SealClose, Extends, Queued;
    var s := After(cfg, actions);
    QueueIsOrdered(cfg, actions);
    var taken := CourseTaken(s.journeys[id], input, course);
    ExtractFlights(s, id);
    PrepareCloseExtends(cfg, s, id, input, taken);
    var (s1, j1, seal) := PrepareClose(cfg, s, id, input, taken);
    ExtendsLog(s, s1, id, j1.sequence - 1);
    SealAddsOne(cfg, s1, id, j1, seal, taken);
  }

  // ------------------------------------------------------- what a seal tells

  /** A text as far as it fits, and nothing for a value that is no text. */
  predicate CutTo(f: Field, max: nat, o: Option<string>) {
    if f.Text? then o.Some? && LongestWithin(o.value, f.value, max) else o.None?
  }

  /** A location of a known phase, with its step and its path as far as they fit. */
  predicate LocationKept(f: LocationField, o: Option<Location>) {
    if f.At? && f.location.phaseKnown && f.location.step != "" then
      && o.Some? && o.value.phaseKnown && o.value.tagsKnown
      && LongestWithin(o.value.step, f.location.step, 256)
      && CutTo(ToField(f.location.sourcePath), 512, o.value.sourcePath)
    else o.None?
  }

  /** What a seal tells of the input, next to its verdict. */
  predicate SealTells(seal: Seal, input: CloseInput, failure: Field) {
    && seal.outcome == OutcomeOf(input) && CutTo(failure, 256, seal.primaryFailureId)
    && if input.CloseRecord? then
         CutTo(input.closeReason, 512, seal.closeReason) && LocationKept(input.location, seal.location)
       else seal.closeReason == Some(INVALID_CLOSE_INPUT) && seal.location.None?
  }

  /** The failure that a seal names: the one that the close records itself, or the journey's first one, or else the
      one of the input. */
  function FailureNamed(cfg: Config, id: RequestId, j: Journey, input: CloseInput): Field {
    if RecordIsWritten(cfg, id, j, input, Smooth) then Text(FallbackFailureId(id))
    else if input.CloseRecord? then FailureField(input.primaryFailureId, j)
    else Missing
  }

  /** At least one character fits. */
  lemma FirstFits(p: string, s: string)
    requires LongestWithin(p, s, 256) && s != ""
    ensures p != ""
  {
    assert s[..1][1..] == "";
    assert Utf8Length(s[..1]) <= 4;
  }

  lemma LocationIsKept(f: LocationField)
    ensures LocationKept(f, ProjectLocation(f).0)
  {
    hide PrefixWithin;
    if f.At? && f.location.step != "" { FirstFits(Bounded(Text(f.location.step), 256).0.value, f.location.step); }
  }

  lemma ProjectedTells(input: CloseInput, j: Journey)
    ensures SealTells(ProjectSeal(input, j), input, if input.CloseRecord? then FailureField(input.primaryFailureId, j)
                                                    else Missing)
  {
    if input.CloseRecord? { LocationIsKept(input.location); }
  }

  /** What fits is not cut again. */
  lemma CutTwice(o: Option<string>, max: nat, again: Option<string>)
    requires Within(o, max) && CutTo(ToField(o), max, again)
    ensures again == o
  {
    if o.Some? { WholeFits(o.value, max, again.value); }
  }

  lemma WholeFits(s: string, max: nat, p: string)
    requires Utf8Length(s) <= max && LongestWithin(p, s, max)
    ensures p == s
  {
    hide Utf8Length;
    if |p| < |s| { PartIsWithin(s, |p| + 1); }
    assert s[..|s|] == s;
  }

  lemma {:induction false} PartIsWithin(s: string, n: nat)
    requires n <= |s|
    ensures Utf8Length(s[..n]) <= Utf8Length(s)
  {
    if n > 0 {
      assert s[..n][1..] == s[1..][..n - 1];
      PartIsWithin(s[1..], n - 1);
    }
  }

  /** The seal that names a failure just recorded repeats the rest. */
  lemma AgainTells(id: RequestId, input: CloseInput, j: Journey, seal: Seal, again: Seal)
    requires SealFitsLimits(seal) && SealTells(seal, input, if input.CloseRecord? then
               FailureField(input.primaryFailureId, j) else Missing)
    requires SealTells(again, NamedAgain(id, seal), Text(FallbackFailureId(id)))
    ensures SealTells(again, input, Text(FallbackFailureId(id)))
  {
    hide LongestWithin, Utf8Length;
    CutTwice(seal.closeReason, 512, again.closeReason);
    if seal.location.Some? { LocationTwice(input.location, seal.location.value, again.location); }
  }

  lemma LocationTwice(f: LocationField, l: Location, again: Option<Location>)
    requires Within(Some(l.step), 256) && Within(l.sourcePath, 512)
    requires LocationKept(f, Some(l)) && LocationKept(At(l), again)
    ensures again == Some(l)
  {
    FirstFits(l.step, f.location.step);
    CutTwice(Some(l.step), 256, Some(again.value.step));
    CutTwice(l.sourcePath, 512, again.value.sourcePath);
  }

  lemma SealForTells(cfg: Config, id: RequestId, j: Journey, input: CloseInput)
    ensures SealTells(SealFor(cfg, id, j, input), input, FailureNamed(cfg, id, j, input))
  {
    hide ProjectSeal, RecordIsWritten, SealTells;
    ProjectedTells(input, j);
    var seal := ProjectSeal(input, j);
    var j' := j.(degraded := true, primaryFailureId := Some(FallbackFailureId(id)));
    ProjectedTells(NamedAgain(id, seal), j');
    if RecordIsWritten(cfg, id, j, input, Smooth) {
      AgainTells(id, input, j, seal, ProjectSeal(NamedAgain(id, seal), j'));
    }
  }

  /**
   What the last message of a close tells if it is a seal of the journey. It is the seal of a smooth close, with the
   outcome, the failure, the reason and the location of the input as far as they fit; or else the minimal seal,
   because the close broke off or the seal did not fit.
   */
  lemma SealTellsInput(cfg: Config, actions: seq<Action>, id: RequestId, input: CloseInput, course: Course)
    requires Legal(cfg, actions) && After(cfg, actions).Serving() && id in After(cfg, actions).journeys
    requires var log := Close(cfg, After(cfg, actions), id, input, course).history.log;
             |log| > 0 && IsSeal(log[|log| - 1].message) && log[|log| - 1].message.id == id
    ensures var s := After(cfg, actions); var j := s.journeys[id]; var taken := CourseTaken(j, input, course);
            var log := Close(cfg, s, id, input, course).history.log; var m := log[|log| - 1].message;
            && m.sequence == SealSequence(j, input)
            && if taken.Smooth? && Fits(cfg, m.(payload := SealPayload(FullSeal(cfg, s, id, input))),
                                        FallbackCost(cfg, id, j, input, taken))
               then m.payload.seal == FullSeal(cfg, s, id, input) &&
                    SealTells(m.payload.seal, input, FailureNamed(cfg, id, j, input))
               else m.payload.seal == MinimalSeal()
  {
    hide After, Legal, PrepareClose, SealClose, Extends, HasKey, Fits, SealFor, FallbackCost, SealSequence, SealTells,
         FailureNamed, Queued, Exact, CourseTaken, AtMost;
    var s := After(cfg, actions);
    LedgerIsExact(cfg, actions);
    QueueIsOrdered(cfg, actions);
    var j := s.journeys[id];
    var taken := CourseTaken(j, input, course);
    TakenOnce(j, input, course);
    PreparedClose(cfg, s, id, input, taken);
    SealForTells(cfg, id, j, input);
    VerdictAside(SealFor(cfg, id, j, input), PrepareClose(cfg, s, id, input, taken).2.complete, input,
                 FailureNamed(cfg, id, j, input));
    var (s1, j1, seal) := PrepareClose(cfg, s, id, input, taken);
    LastIsNoSeal(s, s1, id, j1.sequence - 1);
    AdmittedSeal(cfg, s1, id, j1, seal, taken);
  }

  /** The seal that a smooth close tries first. */
  ghost function FullSeal(cfg: Config, s: State, id: RequestId, input: CloseInput): Seal
    requires id in s.journeys
  {
    SealFor(cfg, id, s.journeys[id], input).(complete := PrepareClose(cfg, s, id, input, Smooth).2.complete)
  }

  lemma VerdictAside(seal: Seal, complete: bool, input: CloseInput, failure: Field)
    requires SealTells(seal, input, failure)
    ensures SealTells(seal.(complete := complete), input, failure)
  {
    hide LongestWithin, Utf8Length;
  }

  lemma AdmittedSeal(cfg: Config, s: State, id: RequestId, j: Journey, seal: Seal, course: Course)
    requires j.reservation == CLOSE_SEAL_RESERVATION_BYTES && !HasKey(s.pending, JourneyKey(id, j.sequence))
    requires |s.history.log| > 0 ==>
               var last := s.history.log[|s.history.log| - 1].message; !(IsSeal(last) && last.id == id)
    requires course.Broken? ==> seal == MinimalSeal()
    requires var log := SealClose(cfg, s, id, j, seal, course).0.history.log;
             |log| > 0 && IsSeal(log[|log| - 1].message) && log[|log| - 1].message.id == id
    ensures var log := SealClose(cfg, s, id, j, seal, course).0.history.log;
            log[|log| - 1].message == Append(id, j.sequence, SealPayload(
                if course.Smooth? && Fits(cfg, Append(id, j.sequence, SealPayload(seal)), j.fallbackBytes) then seal
                else MinimalSeal()))
  {
    hide AdmitSeal, Fits;
    AdmitSealTells(cfg, s, id, j, seal);
    AdmitSealTells(cfg, s, id, j.(degraded := true), MinimalSeal());
  }

  lemma AdmitSealTells(cfg: Config, s: State, id: RequestId, j: Journey, seal: Seal)
    requires j.reservation == CLOSE_SEAL_RESERVATION_BYTES && !HasKey(s.pending, JourneyKey(id, j.sequence))
    ensures var (s', j', ok) := AdmitSeal(cfg, s, id, j, seal); var m := Append(id, j.sequence, SealPayload(seal));
            && (ok <==> Fits(cfg, m, j.fallbackBytes))
            && if ok then |s'.history.log| == |s.history.log| + 1 && s'.history.log[|s.history.log|].message == m
               else s' == s && j' == j.(degraded := true)
  {
    hide HasKey;
  }

  // -------------------------------------------------------- the failure record

  /** A failure record that a close writes itself: the one primary failure, without a specific cause, located where the
      input says, or else where the journey was seen last. */
  predicate FailureTells(fact: Fact, id: RequestId, input: CloseInput, lastKnown: Option<Location>) {
    && fact.kind == FailureDetected && fact.primary && fact.classification == "request_failed_without_specific_cause"
    && fact.failureId == id + ":request_failed_without_specific_cause"
    && if LocatesItself(input) then LocationKept(input.location, Some(fact.location))
       else if lastKnown.Some? then fact.location == lastKnown.value
       else fact.location == Location(true, true, "commit_request_outcome", None)
  }

  /** The input has a location that a seal can name. */
  predicate LocatesItself(input: CloseInput) {
    input.CloseRecord? && input.location.At? && input.location.location.phaseKnown && input.location.location.step != ""
  }

  lemma RecordTells(id: RequestId, j: Journey, input: CloseInput)
    ensures RecordIsDue(j, input) <==> OutcomeOf(input) != Success && j.primaryFailureId.None?
    ensures FailureTells(FallbackFact(id, j.lastKnownLocation, ProjectSeal(input, j)), id, input, j.lastKnownLocation)
  {
    hide ProjectSeal, LongestWithin, Utf8Length, FallbackFact, FailureTells, LocationKept;
    ProjectedTells(input, j);
    FactTells(id, j.lastKnownLocation, ProjectSeal(input, j), input);
  }

  lemma FactTells(id: RequestId, lastKnown: Option<Location>, seal: Seal, input: CloseInput)
    requires if input.CloseRecord? then LocationKept(input.location, seal.location) else seal.location.None?
    ensures FailureTells(FallbackFact(id, lastKnown, seal), id, input, lastKnown)
  {
    hide LongestWithin, Utf8Length, CutTo;
  }

  lemma FallbackIsLogged(cfg: Config, s: State, id: RequestId, input: CloseInput)
    requires Queued(s) && id in s.journeys && RecordIsWritten(cfg, id, s.journeys[id], input, Smooth)
    requires s.journeys[id].reservation == CLOSE_SEAL_RESERVATION_BYTES && s.journeys[id].fallbackBytes == 0
    ensures var j := s.journeys[id]; var seal := ProjectSeal(input, j);
            var log := RecordFallback(cfg, s, id, j.(finalOutcome := Some(seal.outcome)), seal).0.history.log;
            |log| == |s.history.log| + 1 && s.history.log <= log &&
            log[|s.history.log|].message == RecordOf(id, j, input)
  {
    hide Queued, Extends, HasKey, ProjectSeal, FallbackFact;
    var j := s.journeys[id];
    ExtendsRefl(s, id, j.sequence);
    NoSuchKey(s, s, id, j.sequence, j.sequence + 1);
  }

  /** A close that does not report success, of a journey without a primary failure, first writes a record of one that it
      makes up, if that fits its reservation. */
  lemma FailureIsRecorded(cfg: Config, actions: seq<Action>, id: RequestId, input: CloseInput, course: Course)
    requires Legal(cfg, actions) && After(cfg, actions).Serving() && id in After(cfg, actions).journeys
    requires course.Smooth? && OutcomeOf(input) != Success && After(cfg, actions).journeys[id].primaryFailureId.None?
    ensures var s := After(cfg, actions); var (j, n) := (s.journeys[id], |s.history.log|);
            var log := Close(cfg, s, id, input, course).history.log;
            FailureTells(RecordOf(id, j, input).payload.fact, id, input, j.lastKnownLocation) &&
            (cfg.size(RecordOf(id, j, input)).Some? &&
             cfg.size(RecordOf(id, j, input)).value < CLOSE_SEAL_RESERVATION_BYTES ==>
               |log| > n && log[n].message == RecordOf(id, j, input))
  {
    hide After, Legal, Queued, Exact, FailureTells, Extends, RecordFallback, FlushFlights, SealJourney, FallbackFact,
         ProjectSeal, EndOfClose, RecordIsDue;
    var s := After(cfg, actions);
    LedgerIsExact(cfg, actions);
    QueueIsOrdered(cfg, actions);
    var j := s.journeys[id];
    RecordTells(id, j, input);
    if RecordIsWritten(cfg, id, j, input, Smooth) {
      HoldsReservation(cfg, s, id);
      FallbackIsLogged(cfg, s, id, input);
      ExtractFlights(s, id);
      CloseKeepsRecord(cfg, s, id, input);
    }
  }

  lemma HoldsReservation(cfg: Config, s: State, id: RequestId)
    requires Exact(cfg, s) && id in s.journeys
    ensures s.journeys[id].reservation == CLOSE_SEAL_RESERVATION_BYTES && s.journeys[id].fallbackBytes == 0
  {
    hide Balanced;
  }

  /** What the close logs first stays in its place. */
  lemma CloseKeepsRecord(cfg: Config, s: State, id: RequestId, input: CloseInput)
    requires id in s.journeys && s.Serving() && FlightsNumbered(s.journeys[id])
    ensures var j := s.journeys[id]; var seal := ProjectSeal(input, j);
            var s1 := RecordFallback(cfg, s, id, j.(finalOutcome := Some(seal.outcome)), seal).0;
            s1.history.log <= Close(cfg, s, id, input, Smooth).history.log
  {
    hide RecordFallback, FlushFlights, ProjectSeal, EndOfClose, SealClose, Extends, FlightsNumbered, AtMost;
    var j := s.journeys[id];
    var seal0 := ProjectSeal(input, j);
    var j0 := j.(finalOutcome := Some(seal0.outcome));
    FallbackExtends(cfg, s, id, j0, seal0);
    var (s1, j1, seal1) := RecordFallback(cfg, s, id, j0, seal0);
    SameNumbersMore(j, j1);
    FlushFlightsExtends(cfg, s1, id, j1, j1.artifacts[..|j1.artifacts|], seal0.outcome);
    var (s2, j2, seal) := PrepareClose(cfg, s, id, input, Smooth);
    ExtendsLog(s1, s2, id, j1.sequence);
    SealAddsOne(cfg, s2, id, j2, seal, Smooth);
    LogGoesOn(s1, s2, SealClose(cfg, s2, id, j2, seal, Smooth).0);
  }

  lemma SameNumbersMore(j: Journey, j1: Journey)
    requires FlightsNumbered(j) && j1.artifacts == j.artifacts && j.sequence <= j1.sequence
    ensures FlightsNumbered(j1)
  {
  }

  lemma LogGoesOn(s1: State, s2: State, s3: State)
    requires s1.history.log <= s2.history.log && AtMost(s2, s3, 1)
    ensures s1.history.log <= s3.history.log
  {
  }
}
