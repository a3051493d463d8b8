/** Where the ledger's promises stop: runs that lose a seal, or report what was rejected or never finished. */
module LedgerLimits {
  import opened Options
  import opened Ledger
  import opened LedgerRuns
  import opened LedgerBalance
  import opened LedgerOrder
  import opened LedgerSeal
  import opened LedgerArtifacts
  import opened LedgerReports

  // -------------------------------------------------------------- lost seal

  /** Every message takes 200 bytes, and an observation also the bytes of its location. */
  function PlainSize(m: Message): Option<nat> {
    if m.Append? && m.payload.FactPayload? then Some(200 + |m.payload.fact.location.step|) else Some(200)
  }

  const PLAIN: Config := Config(PlainSize, (d: Descriptor) => Some(100), 1000, 1000)

  /** An ordinary observation whose location is 7900 bytes long. */
  const FAR_AWAY: Fact := Fact(OtherKind, false, "", "", Location(true, true, seq(7900, _ => 'a'), None))
  const FAILED: CloseInput := CloseRecord(Some(Failure), true, Missing, Missing, NoLocation)
  const BEFORE_CLOSE: seq<Action> := [DoBegin("r", false, true), DoObserve("r", FAR_AWAY, Copied)]

  lemma BegunPlain(s: State)
    requires s == Begin(PLAIN, Initial, "r", false, true).0
    ensures s.Serving() && "r" in s.journeys && s.journeys["r"] == FreshJourney(false, true)
    ensures s.reserved == 0 && s.sealReserved == 8192 && s.ordinary == 200 && |s.pending| == 1 &&
              s.pending[0].Key() == JourneyKey("r", 0)
  {
    assert SafeId("r");
  }

  lemma ObservedPlain(s: State, s': State)
    requires s.Serving() && "r" in s.journeys && s.journeys["r"] == FreshJourney(false, true)
    requires s.ordinary == 200 && |s.pending| == 1 && s.pending[0].Key() == JourneyKey("r", 0)
    requires s' == Observe(PLAIN, s, "r", FAR_AWAY, Copied)
    ensures s'.Serving() && "r" in s'.journeys
    ensures s'.journeys["r"].lastKnownLocation == Some(FAR_AWAY.location) && s'.journeys["r"].primaryFailureId.None?
    ensures !s'.journeys["r"].degraded
  {
    var j := s.journeys["r"].(sequence := 1, observations := 1);
    assert Admissible(PLAIN, OfferFact(s, "r", FAR_AWAY), Append("r", 1, FactPayload(FAR_AWAY)), None).Some?;
  }

  /** The failure record leaves less than 200 bytes of the reservation. */
  lemma RecordTakesTheRoom(j: Journey)
    requires j.lastKnownLocation == Some(FAR_AWAY.location) && j.primaryFailureId.None?
    ensures CourseTaken(j, FAILED, Smooth) == Smooth && FallbackCost(PLAIN, "r", j, FAILED, Smooth) == 8100
    ensures forall q, seal :: !SealFits(PLAIN, "r", q, seal, 8100, Smooth)
  {
    hide Bounded;
  }

  /**
   A close can lose its seal with empty queues: the unspecific failure record repeats the last known
   location, which is not bounded as the seal's own location is, and takes the room of the seal.
   */
  lemma SealCanBeLost()
    ensures Legal(PLAIN, BEFORE_CLOSE)
    ensures var s := After(PLAIN, BEFORE_CLOSE);
            && s.Serving() && "r" in s.journeys && !s.journeys["r"].degraded
            && !Sealed(Close(PLAIN, s, "r", FAILED, Smooth), "r") &&
                 "r" !in Close(PLAIN, s, "r", FAILED, Smooth).journeys
  {
    hide Begin, Observe, Close, PrepareClose, Sealed, SealsLast, FallbackCost, SealFor, SealFits, SealSequence,
         CourseTaken, EndsWith, ProjectSeal;
    var first := [DoBegin("r", false, true)];
    assert BEFORE_CLOSE == first + [DoObserve("r", FAR_AWAY, Copied)];
    assert first == [] + [DoBegin("r", false, true)];
    AfterOneMore(PLAIN, [], DoBegin("r", false, true));
    AfterOneMore(PLAIN, first, DoObserve("r", FAR_AWAY, Copied));
    var s1, s := After(PLAIN, first), After(PLAIN, BEFORE_CLOSE);
    BegunPlain(s1);
    ObservedPlain(s1, s);
    RecordTakesTheRoom(s.journeys["r"]);
    CloseIsSealed(PLAIN, BEFORE_CLOSE, "r", FAILED, Smooth);
  }

  // ------------------------------------------------------- misleading reports

  const SUCCEEDED: CloseInput := CloseRecord(Some(Success), true, Missing, Missing, NoLocation)

  /** A journey "r" with the one artifact "a" of one byte, all of it admitted. */
  const ONE_BYTE: seq<Action> := [DoBegin("r", true, true), DoOpen("r", "a", Copied, None), DoAppend("r", "a", [65])]

  const REJECTION: Action := DoSettle(0, Some(ArtifactKey("r", "a", 0)), false, "refused")
  const COMPLETE: Action := DoFinish("r", "a", Finish(Some(1), true, None))
  const THROWING: Action := DoFinish("r", "a", BadFinish)

  function Recorder(bytes: nat, d: Descriptor, finished: bool, accepting: bool): Flight {
    Flight(1, d, bytes, bytes, finished, accepting)
  }

  const FRESH: Descriptor := OpenDescriptor("a", None)

  /** The authority serves journey "r" with one recorder; these are the keys of the pending messages. */
  ghost predicate Stage(s: State, keys: seq<Key>, f: Flight) {
    && s.Serving() && s.worker.current == Some(0)
    && |s.pending| == |keys| && (forall i :: 0 <= i < |keys| ==>
         s.pending[i].Key() == keys[i] && s.pending[i].bytes == 200)
    && s.ordinary <= 1000 && s.reserved <= 1000 && s.sealReserved == CLOSE_SEAL_RESERVATION_BYTES && s.flightBytes <= 1
    && s.journeys.Keys == {"r"} && s.journeys["r"].artifacts == [f] && s.journeys["r"].sequence == 1
    && s.journeys["r"].captureAll && s.journeys["r"].primaryFailureId.None? && s.journeys["r"].artifactBytes <= 1
  }

  lemma IndexOne(f: Flight)
    requires f.descriptor.artifactId == "a"
    ensures FlightIndex([f], "a") == 0 && HasFlight([f], "a")
    ensures forall g: Flight :: [f][0 := g] == [g]
  {
  }

  lemma BegunOne(s: State)
    requires s == Begin(PLAIN, Initial, "r", true, true).0
    ensures s.Serving() && s.worker == Initial.worker && s.journeys == map["r" := FreshJourney(true, true)]
    ensures |s.pending| == 1 && s.pending[0].Key() == JourneyKey("r", 0) && s.pending[0].bytes == 200
    ensures s.ordinary == 200 && s.reserved == 0 && s.sealReserved == CLOSE_SEAL_RESERVATION_BYTES && s.flightBytes == 0
    ensures |s.history.log| == 1 && s.history.appended == map[] && s.history.nacked == map[]
  {
    assert SafeId("r");
  }

  lemma OpenedOne(s: State)
    requires s == OpenArtifact(PLAIN, Begin(PLAIN, Initial, "r", true, true).0, "r", "a", Copied, None).0
    ensures Stage(s, [JourneyKey("r", 0), ArtifactKey("r", "a", -1)], Recorder(0, FRESH, false, true))
    ensures s.ordinary == 400 && s.reserved == 0 && s.flightBytes == 0 && s.journeys["r"].artifactBytes == 0
    ensures |s.history.log| == 2 && AppendedTo(s, "r", "a") == [] && s.history.nacked == map[]
  {
    hide Begin;
    var s1 := Begin(PLAIN, Initial, "r", true, true).0;
    BegunOne(s1);
    assert Admissible(PLAIN, OfferArtifact(s1, "r", "a"), ArtifactBegin("r", "a", FRESH), None).Some?;
  }

  lemma AppendedOne(s: State, s': State)
    requires Stage(s, [JourneyKey("r", 0), ArtifactKey("r", "a", -1)], Recorder(0, FRESH, false, true))
    requires s.ordinary == 400 && s.reserved == 0 && s.flightBytes == 0 && s.journeys["r"].artifactBytes == 0
    requires |s.history.log| == 2 && AppendedTo(s, "r", "a") == [] && s.history.nacked == map[]
    requires s' == AppendArtifact(PLAIN, s, "r", "a", [65])
    ensures Stage(s', [JourneyKey("r", 0), ArtifactKey("r", "a", -1), ArtifactKey("r", "a", 0)],
              Recorder(1, FRESH, false, true))
    ensures s'.reserved == 0 && s'.ordinary == 600 && |s'.history.log| == 3 && AppendedTo(s', "r", "a") == [65] &&
              s'.history.nacked == map[]
    ensures s'.history.log[2] == s'.pending[2] && s'.pending[2].stamp == 2 && s'.pending[2].message.ArtifactChunk?
    ensures s'.pending[2].capacity == Ordinary
  {
    IndexOne(Recorder(0, FRESH, false, true));
    var s1 := RecordAppend(s, "r", "a", [65]);
    var (j, f) := (s.journeys["r"], Recorder(0, FRESH, false, true));
    assert [65][..1] == [65] && [65][1..] == [];
    assert Admissible(PLAIN, s1, ArtifactChunk("r", "a", 0, 0, [65]), j.finalOutcome).Some?;
    assert Accepted(PLAIN, s1, j, f, 1) == 1;
    assert AppendChunks(PLAIN, s1, "r", j, f, [65]).3 == 1;
  }

  lemma OneByte(s: State)
    requires s == After(PLAIN, ONE_BYTE)
    ensures Legal(PLAIN, ONE_BYTE)
    ensures Stage(s, [JourneyKey("r", 0), ArtifactKey("r", "a", -1), ArtifactKey("r", "a", 0)],
              Recorder(1, FRESH, false, true))
    ensures s.reserved == 0 && s.ordinary == 600 && |s.history.log| == 3 && AppendedTo(s, "r", "a") == [65] &&
              s.history.nacked == map[]
    ensures s.history.log[2] == s.pending[2] && s.pending[2].stamp == 2 && s.pending[2].message.ArtifactChunk?
    ensures s.pending[2].capacity == Ordinary
  {
    hide Begin, OpenArtifact, AppendArtifact, Stage, After, Legal;
    var (begin, open, append) := (DoBegin("r", true, true), DoOpen("r", "a", Copied, None), DoAppend("r", "a", [65]));
    assert ONE_BYTE == [] + [begin] + [open] + [append];
    NoActions(PLAIN);
    AfterOneMore(PLAIN, [], begin);
    AfterOneMore(PLAIN, [] + [begin], open);
    AfterOneMore(PLAIN, [] + [begin] + [open], append);
    var s2 := After(PLAIN, [] + [begin] + [open]);
    OpenedOne(s2);
    AppendedOne(s2, s);
  }

  lemma NoActions(cfg: Config)
    ensures After(cfg, []) == Initial && Legal(cfg, [])
  {
  }

  /** The rejected chunk leaves the queue and marks the descriptor. */
  lemma RejectedOne(s: State, s': State)
    requires Stage(s, [JourneyKey("r", 0), ArtifactKey("r", "a", -1), ArtifactKey("r", "a", 0)],
               Recorder(1, FRESH, false, true))
    requires s.reserved == 0 && s.ordinary == 600 && |s.history.log| == 3 && AppendedTo(s, "r", "a") == [65] &&
               s.history.nacked == map[]
    requires s.history.log[2] == s.pending[2] && s.pending[2].stamp == 2 && s.pending[2].message.ArtifactChunk?
    requires s.pending[2].capacity == Ordinary
    requires s' == Step(PLAIN, s, REJECTION)
    ensures Stage(s', [JourneyKey("r", 0), ArtifactKey("r", "a", -1)],
                  Recorder(1, FRESH.(state := Unavailable, capturedBytes := 0, reason := Some("refused")), false, true))
    ensures s'.reserved == 0 && |s'.history.log| == 3 && AppendedTo(s', "r", "a") == [65]
    ensures s'.history.log[2].message.ArtifactChunk? && RejectedAt(s', "r", "a", 2, 3) && s'.journeys["r"].degraded
  {
    IndexOne(Recorder(1, FRESH, false, true));
    var p := s.pending;
    assert p[0].Key() == JourneyKey("r", 0) && p[1].Key() == ArtifactKey("r", "a", -1) &&
        p[2].Key() == ArtifactKey("r", "a", 0);
    assert EntryIndex(p, ArtifactKey("r", "a", 0)) == 2;
    assert p[..2] + p[3..] == p[..2];
  }

  lemma FinishedOne(s: State, s': State, keys: seq<Key>, d: Descriptor)
    requires Stage(s, keys, Recorder(1, d, false, true)) && d.artifactId == "a" && s.reserved == 0
    requires ArtifactKey("r", "a", -2) !in keys
    requires s' == Step(PLAIN, s, COMPLETE)
    ensures exists d' :: Stage(s', keys + [ArtifactKey("r", "a", -2)], Recorder(1, d', true, true))
                         && d'.artifactId == "a" && d'.state == Captured && !d'.truncated && d'.capturedBytes == 1
    ensures s.history.log <= s'.history.log && s'.history.nacked == s.history.nacked &&
              s'.history.appended == s.history.appended
    ensures s.journeys["r"].degraded ==> "r" in s'.journeys && s'.journeys["r"].degraded
  {
    IndexOne(Recorder(1, d, false, true));
    var m := FinishMessage("r", Recorder(1, d, false, true), COMPLETE.finish);
    assert !HasKey(s.pending, ArtifactKey("r", "a", -2));
    assert Admissible(PLAIN, s, m, s.journeys["r"].finalOutcome).Some?;
    var d' := FinishedFlight(Recorder(1, d, false, true), m, true).descriptor;
    assert Stage(s', keys + [ArtifactKey("r", "a", -2)], Recorder(1, d', true, true));
  }

  lemma BrokenOne(s: State, s': State, keys: seq<Key>, d: Descriptor)
    requires Stage(s, keys, Recorder(1, d, false, true)) && d.artifactId == "a"
    requires s' == Step(PLAIN, s, THROWING)
    ensures Stage(s', keys, Recorder(1, d, true, false))
    ensures s'.history == RecordBreak(s, "r", "a").history && s'.journeys["r"].degraded
  {
    IndexOne(Recorder(1, d, false, true));
  }

  /** The close reports its only artifact as captured, whole. */
  lemma ClosedOne(s: State, keys: seq<Key>, f: Flight)
    requires Stage(s, keys, f) && f.finished && f.sequence == 1 && f.capturedBytes == 1 &&
               f.descriptor.artifactId == "a"
    requires f.descriptor.state == Captured && !f.descriptor.truncated && JourneyKey("r", 1) !in keys
    ensures var log := Close(PLAIN, s, "r", SUCCEEDED, Smooth).history.log;
            |log| > |s.history.log| && s.history.log <= log && ReportsByte(log[|s.history.log|].message)
  {
    hide AdmitSeal, HasKey;
    var (j, outcome) := (s.journeys["r"].(finalOutcome := Some(Success)), Success);
    var d := FinalDescriptor(j, f, outcome);
    var m := Append("r", 1, ArtifactPayload(d));
    NotPending(s, keys, JourneyKey("r", 1));
    assert Admissible(PLAIN, s, m, Some(Success)).Some?;
    var s1 := AdmitFor(PLAIN, s, m, j).0;
    assert s1.history.log == s.history.log + [Admissible(PLAIN, s, m, Some(Success)).value];
    assert [f][..1] == [f] && [f][1..] == [];
    assert FlushFlights(PLAIN, s, "r", j, [f], outcome).0.history == s1.history;
    var (s2, j2, seal) := PrepareClose(PLAIN, s, "r", SUCCEEDED, Smooth);
    assert ProjectSeal(SUCCEEDED, s.journeys["r"]).outcome == Success;
    assert s2.history == s1.history;
    SealGrows(PLAIN, s2, "r", j2, seal, Smooth);
  }

  lemma NotPending(s: State, keys: seq<Key>, k: Key)
    requires |s.pending| == |keys| && forall i :: 0 <= i < |keys| ==> s.pending[i].Key() == keys[i]
    requires k !in keys
    ensures !HasKey(s.pending, k)
  {
  }

  /** A report that artifact "a" was captured with its one byte. */
  predicate ReportsByte(m: Message) {
    m.Append? && m.id == "r" && m.payload.ArtifactPayload? &&
    var d := m.payload.descriptor; d.artifactId == "a" && d.state == Captured && d.capturedBytes == 1
  }

  /**
   A legal run in which the only chunk of an artifact is rejected, and the close all the same admits a report that
   the artifact was captured with all its bytes: the finish came after the rejection, and forgot it.
   */
  lemma RejectedArtifactIsReported()
    ensures Legal(PLAIN, ONE_BYTE + [REJECTION] + [COMPLETE])
    ensures var s := After(PLAIN, ONE_BYTE + [REJECTION] + [COMPLETE]);
            var log := Close(PLAIN, s, "r", SUCCEEDED, Smooth).history.log;
            && s.Serving() && "r" in s.journeys && s.journeys["r"].degraded && AppendedTo(s, "r", "a") == [65]
            && |s.history.log| > 2 && s.history.log[2].message.ArtifactChunk? && RejectedAt(s, "r", "a", 2, 3)
            && |log| > |s.history.log| && ReportsByte(log[|s.history.log|].message)
  {
    hide Step, After, Legal, Stage, Close;
    var s0, s1, s2 := After(PLAIN, ONE_BYTE), After(PLAIN, ONE_BYTE + [REJECTION]),
        After(PLAIN, ONE_BYTE + [REJECTION] + [COMPLETE]);
    OneByte(s0);
    AfterOneMore(PLAIN, ONE_BYTE, REJECTION);
    RejectedOne(s0, s1);
    AfterOneMore(PLAIN, ONE_BYTE + [REJECTION], COMPLETE);
    var keys := [JourneyKey("r", 0), ArtifactKey("r", "a", -1)];
    var d := FRESH.(state := Unavailable, capturedBytes := 0, reason := Some("refused"));
    FinishedOne(s1, s2, keys, d);
    var d' :| Stage(s2, keys + [ArtifactKey("r", "a", -2)], Recorder(1, d', true, true))
              && d'.artifactId == "a" && d'.state == Captured && !d'.truncated && d'.capturedBytes == 1;
    Serves(s2, keys + [ArtifactKey("r", "a", -2)], Recorder(1, d', true, true));
    ClosedOne(s2, keys + [ArtifactKey("r", "a", -2)], Recorder(1, d', true, true));
  }

  lemma Serves(s: State, keys: seq<Key>, f: Flight)
    requires Stage(s, keys, f)
    ensures s.Serving() && "r" in s.journeys
  {
  }

  /**
   A legal run in which the finish of a recorder throws, so that no finish message is ever admitted, and the close
   all the same admits a report that the artifact was captured.
   */
  lemma UnfinishedArtifactIsReported()
    ensures Legal(PLAIN, ONE_BYTE + [THROWING])
    ensures var s := After(PLAIN, ONE_BYTE + [THROWING]);
            var log := Close(PLAIN, s, "r", SUCCEEDED, Smooth).history.log;
            && s.Serving() && "r" in s.journeys && s.journeys["r"].degraded && NoFinish(s, "r", "a")
            && |log| > |s.history.log| && ReportsByte(log[|s.history.log|].message)
  {
    hide Step, After, Legal, Stage, Close, Judged;
    var s0, s := After(PLAIN, ONE_BYTE), After(PLAIN, ONE_BYTE + [THROWING]);
    OneByte(s0);
    AfterOneMore(PLAIN, ONE_BYTE, THROWING);
    var keys := [JourneyKey("r", 0), ArtifactKey("r", "a", -1), ArtifactKey("r", "a", 0)];
    BrokenOne(s0, s, keys, FRESH);
    Serves(s, keys, Recorder(1, FRESH, true, false));
    ClosedOne(s, keys, Recorder(1, FRESH, true, false));
    RunReported(PLAIN, ONE_BYTE + [THROWING]);
    NoFinishHere(s, keys, Recorder(1, FRESH, true, false));
  }

  lemma NoFinishHere(s: State, keys: seq<Key>, f: Flight)
    requires Stage(s, keys, f) && Reported(s) && f.descriptor.artifactId == "a" && BrokenOff(s, "r", "a")
    ensures NoFinish(s, "r", "a")
  {
    assert Judged(s, "r", s.journeys["r"].artifacts[0]);
  }
}
