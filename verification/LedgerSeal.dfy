/** When closing a journey leaves a seal in the queue, and when it cannot. */
module LedgerSeal {
  import opened Options
  import opened Ledger
  import opened LedgerRuns
  import opened LedgerBalance
  import opened LedgerOrder

  /** The journey's seal was admitted. */
  ghost predicate Sealed(s: State, id: RequestId) {
    exists i :: 0 <= i < |s.history.log| && IsSeal(s.history.log[i].message) && s.history.log[i].message.id == id
  }

  predicate Fits(cfg: Config, m: Message, fallbackBytes: nat) {
    cfg.size(m).Some? && cfg.size(m).value + fallbackBytes <= CLOSE_SEAL_RESERVATION_BYTES
  }

  /** The unspecific failure record that a close writes beside its seal, numbered before it. */
  function RecordOf(id: RequestId, j: Journey, input: CloseInput): Message {
    Append(id, j.sequence + 1, FactPayload(FallbackFact(id, j.lastKnownLocation, ProjectSeal(input, j))))
  }

  predicate RecordIsDue(j: Journey, input: CloseInput) { NeedsFallback(j, ProjectSeal(input, j)) }

  predicate RecordIsWritten(cfg: Config, id: RequestId, j: Journey, input: CloseInput, course: Course) {
    && RecordIsDue(j, input) && !(course.Broken? && course.point.AtFailureRecord?)
    && cfg.size(RecordOf(id, j, input)).Some? && cfg.size(RecordOf(id, j, input)).value < CLOSE_SEAL_RESERVATION_BYTES
  }

  /** The part of the reservation that the unspecific failure record takes. */
  function FallbackCost(cfg: Config, id: RequestId, j: Journey, input: CloseInput, course: Course): nat {
    if RecordIsWritten(cfg, id, j, input, course) then cfg.size(RecordOf(id, j, input)).value else 0
  }

  /** The number that the seal will carry. */
  function SealSequence(j: Journey, input: CloseInput): nat {
    j.sequence + (if RecordIsDue(j, input) then 2 else 1)
  }

  /** The seal of a smooth close, as its input and its journey determine it: all but the verdict `complete`, which
      also depends on what happens to the reports. A recorded failure is the one that the seal names. */
  function SealFor(cfg: Config, id: RequestId, j: Journey, input: CloseInput): Seal {
    var seal := ProjectSeal(input, j);
    if !RecordIsWritten(cfg, id, j, input, Smooth) then seal
    else
      ProjectSeal(NamedAgain(id, seal), j.(degraded := true, primaryFailureId := Some(FallbackFailureId(id))))
  }

  lemma NoSuchKey(s: State, s1: State, id: RequestId, q: nat, r: nat)
    requires Queued(s) && id in s.journeys && s.journeys[id].sequence < r
    requires Extends(s, s1, id, q) && q < r
    ensures !HasKey(s1.pending, JourneyKey(id, r))
  {
    GrowsOrdered(s, s1);
    forall i | 0 <= i < |s1.pending| ensures s1.pending[i].Key() != JourneyKey(id, r) {
      var stamp := s1.pending[i].stamp;
      assert s1.history.log[stamp] == s1.pending[i];
      if stamp < |s.history.log| {
        assert s1.history.log[stamp] == s.history.log[stamp];
        assert NumberedEntry(s, s.history.log[stamp].message);
      }
    }
  }

  lemma SealReadsLittle(input: CloseInput, j: Journey, k: Journey)
    requires j.degraded == k.degraded && j.primaryFailureId == k.primaryFailureId
    ensures ProjectSeal(input, j) == ProjectSeal(input, k)
  {
    hide Bounded, ProjectLocation;
  }

  /** The input of the seal that names a failure just recorded. */
  function NamedAgain(id: RequestId, seal: Seal): CloseInput {
    CloseRecord(Some(seal.outcome), false, Text(FallbackFailureId(id)), ToField(seal.closeReason),
                if seal.location.Some? then At(seal.location.value) else NoLocation)
  }

  lemma FallbackTakes(cfg: Config, s: State, id: RequestId, input: CloseInput)
    requires Queued(s) && id in s.journeys
    requires s.journeys[id].reservation == CLOSE_SEAL_RESERVATION_BYTES && s.journeys[id].fallbackBytes == 0
    ensures var j := s.journeys[id]; var seal0 := ProjectSeal(input, j);
            var (_, j1, seal1) := RecordFallback(cfg, s, id, j.(finalOutcome := Some(seal0.outcome)), seal0);
            && j1.fallbackBytes == FallbackCost(cfg, id, j, input, Smooth)
            && j1.sequence + 1 == SealSequence(j, input)
            && seal1 == SealFor(cfg, id, j, input)
  {
    hide Queued, Extends, HasKey, ProjectSeal, FallbackFact;
    var j := s.journeys[id];
    ExtendsRefl(s, id, j.sequence);
    NoSuchKey(s, s, id, j.sequence, j.sequence + 1);
    var seal0 := ProjectSeal(input, j);
    var j1 := RecordFallback(cfg, s, id, j.(finalOutcome := Some(seal0.outcome)), seal0).1;
    if RecordIsWritten(cfg, id, j, input, Smooth) {
      SealReadsLittle(NamedAgain(id, seal0), j1, j.(degraded := true, primaryFailureId := Some(FallbackFailureId(id))));
    }
  }

  lemma PreparedClose(cfg: Config, s: State, id: RequestId, input: CloseInput, course: Course)
    requires Queued(s) && Exact(cfg, s) && id in s.journeys && course == CourseTaken(s.journeys[id], input, course)
    ensures var (s1, j1, seal) := PrepareClose(cfg, s, id, input, course); var j := s.journeys[id];
            && j1.reservation == CLOSE_SEAL_RESERVATION_BYTES
            && j1.fallbackBytes == FallbackCost(cfg, id, j, input, course)
            && j1.sequence == SealSequence(j, input) > j.sequence
            && seal == (if course.Smooth? then SealFor(cfg, id, j, input).(complete := seal.complete)
                 else MinimalSeal())
            && Extends(s, s1, id, j1.sequence - 1)
            && !HasKey(s1.pending, JourneyKey(id, j1.sequence))
  {
    hide Queued, ProjectSeal, Extends, HasKey, RecordFallback, FlushFlights, Balanced, SealFor, RecordOf;
    ExtractFlights(s, id);
    FallbackTakes(cfg, s, id, input);
    PrepareCloseExtends(cfg, s, id, input, course);
    var j := s.journeys[id];
    var seal0 := ProjectSeal(input, j);
    var j0 := j.(finalOutcome := Some(seal0.outcome));
    FallbackExtends(cfg, s, id, j0, seal0);
    var (s1, j1, seal1) := RecordFallback(cfg, s, id, j0, seal0);
    FlushFlightsExtends(cfg, s1, id, j1, j1.artifacts[..ReportsOf(j1.artifacts, course)], seal0.outcome);
    var (s2, j2, _) := PrepareClose(cfg, s, id, input, course);
    NoSuchKey(s, s2, id, j2.sequence - 1, j2.sequence);
  }

  /** The seal's decision: it is admitted exactly when it, or else the minimal seal, fits the reservation. */
  lemma SealDecision(cfg: Config, s: State, id: RequestId, j: Journey, seal: Seal, course: Course)
    requires j.reservation == CLOSE_SEAL_RESERVATION_BYTES && !HasKey(s.pending, JourneyKey(id, j.sequence))
    requires course.Broken? ==> seal == MinimalSeal()
    ensures SealClose(cfg, s, id, j, seal, course).2 <==> SealFits(cfg, id, j.sequence, seal, j.fallbackBytes, course)
  {
    hide HasKey;
  }

  /** What a close of this course can be sealed with fits beside the failure record. */
  predicate SealFits(cfg: Config, id: RequestId, q: nat, seal: Seal, cost: nat, course: Course) {
    && (course.Broken? ==> course.clock)
    && (Fits(cfg, Append(id, q, SealPayload(MinimalSeal())), cost) ||
        (course.Smooth? && Fits(cfg, Append(id, q, SealPayload(seal)), cost)))
  }

  lemma NotYetSealed(s: State, s1: State, id: RequestId, q: nat)
    requires Queued(s) && id in s.journeys && Extends(s, s1, id, q)
    ensures !Sealed(s1, id)
  {
    forall i | 0 <= i < |s1.history.log| && IsSeal(s1.history.log[i].message)
        ensures s1.history.log[i].message.id != id {
      if i < |s.history.log| {
        assert s1.history.log[i] == s.history.log[i];
        assert NumberedEntry(s, s.history.log[i].message);
      }
    }
  }

  /**
   Closing a journey, however full the queues are: whether it is sealed depends only on the size of the seal (or
   of the minimal seal) and of the unspecific failure record, if one is due; and if the close breaks off, on the
   size of the minimal seal and on the clock. A seal that is admitted is the only one of the journey, the last of
   its messages, and numbered above all of them.
   */
  lemma CloseIsSealed(cfg: Config, actions: seq<Action>, id: RequestId, input: CloseInput, course: Course)
    requires Legal(cfg, actions) && After(cfg, actions).Serving() && id in After(cfg, actions).journeys
    ensures var s := After(cfg, actions); var j := s.journeys[id]; var s' := Close(cfg, s, id, input, course);
            var taken := CourseTaken(j, input, course);
            var (cost, q) := (FallbackCost(cfg, id, j, input, taken), SealSequence(j, input));
            var seal := SealFor(cfg, id, j, input).(complete := PrepareClose(cfg, s, id, input, taken).2.complete);
            && (Sealed(s', id) <==> SealFits(cfg, id, q, seal, cost, taken))
            && id !in s'.journeys && SealsLast(s'.history.log)
            && (Sealed(s', id) ==> EndsWith(s', JourneyKey(id, q)))
  {
    hide Exact, Queued, Extends, HasKey, PrepareClose, SealClose, FallbackCost, SealSequence, SealFor, Fits, Sealed,
         After, Legal, SealsLast, SealedOnce, EndsWith, CourseTaken;
    var s := After(cfg, actions);
    LedgerIsExact(cfg, actions);
    QueueIsOrdered(cfg, actions);
    CloseQueued(cfg, s, id, input, course);
    var taken := CourseTaken(s.journeys[id], input, course);
    TakenOnce(s.journeys[id], input, course);
    PreparedClose(cfg, s, id, input, taken);
    var (s1, j1, seal) := PrepareClose(cfg, s, id, input, taken);
    SealDecision(cfg, s1, id, j1, seal, taken);
    SealGrows(cfg, s1, id, j1, seal, taken);
    var (s2, j2, ok) := SealClose(cfg, s1, id, j1, seal, taken);
    NotYetSealed(s, s1, id, j1.sequence - 1);
    SealedOrNot(s1, s2, Close(cfg, s, id, input, course), id, j1.sequence, ok);
  }

  lemma TakenOnce(j: Journey, input: CloseInput, course: Course)
    ensures CourseTaken(j, input, CourseTaken(j, input, course)) == CourseTaken(j, input, course)
  {
  }

  /** The last admitted message has this key, and is pending. */
  predicate EndsWith(s: State, key: Key) {
    |s.history.log| > 0 && var last := s.history.log[|s.history.log| - 1]; last in s.pending && last.Key() == key
  }

  /** A printed seal is as long with either verdict: "complete" and "degraded" have eight letters each. */
  ghost predicate VerdictsPrintAlike(cfg: Config) {
    forall id, q, seal: Seal, c :: cfg.size(Append(id, q, SealPayload(seal))) ==
        cfg.size(Append(id, q, SealPayload(seal.(complete := c))))
  }

  /** With such a printer, the input and the journey alone decide whether a close is sealed. */
  lemma InputDecidesSeal(cfg: Config, actions: seq<Action>, id: RequestId, input: CloseInput, course: Course)
    requires Legal(cfg, actions) && After(cfg, actions).Serving() && id in After(cfg, actions).journeys
    requires VerdictsPrintAlike(cfg)
    ensures var s := After(cfg, actions); var j := s.journeys[id]; var taken := CourseTaken(j, input, course);
            Sealed(Close(cfg, s, id, input, course), id) <==>
              SealFits(cfg, id, SealSequence(j, input), SealFor(cfg, id, j, input),
                  FallbackCost(cfg, id, j, input, taken), taken)
  {
    hide Close, PrepareClose, FallbackCost, SealSequence, SealFor, Sealed, After, Legal, SealsLast, EndsWith,
         CourseTaken;
    CloseIsSealed(cfg, actions, id, input, course);
  }

  lemma SealedOrNot(s1: State, s2: State, s': State, id: RequestId, q: nat, ok: bool)
    requires !Sealed(s1, id) && SealedOnce(s1, s2, id, q, ok)
    requires s'.history == s2.history && s'.pending == s2.pending && Queued(s')
    ensures Sealed(s', id) == ok && SealsLast(s'.history.log)
    ensures ok ==> EndsWith(s', JourneyKey(id, q))
  {
    if ok {
      var last := s'.history.log[|s1.history.log|];
      assert last.message.id == id;
      assert Added(s1, s2) == [last];
      assert s2.pending[|s1.pending|] == last;
    } else {
      assert s2.history.log == s1.history.log;
    }
  }

  /** A journey is never left without a seal when the minimal seal fits beside the failure record, and the clock
      serves the minimal seal if the close breaks off. */
  lemma CloseIsNeverLost(cfg: Config, actions: seq<Action>, id: RequestId, input: CloseInput, course: Course)
    requires Legal(cfg, actions) && After(cfg, actions).Serving() && id in After(cfg, actions).journeys
    requires var j := After(cfg, actions).journeys[id]; var cost := FallbackCost(cfg, id, j, input, course);
             Fits(cfg, Append(id, SealSequence(j, input), SealPayload(MinimalSeal())), cost)
    requires course.Broken? ==> course.clock
    ensures Sealed(Close(cfg, After(cfg, actions), id, input, course), id)
  {
    hide Close, PrepareClose, Sealed, After, Legal, SealsLast, EndsWith, SealFor, SealSequence, Fits;
    CloseIsSealed(cfg, actions, id, input, course);
  }
}
