/** A journey is degraded only by a fault: something offered that was not admitted, a rejection, or failures that do
    not name one specific cause. */
module LedgerBlame {
  import opened Options
  import opened Ledger
  import opened LedgerRuns
  import opened LedgerOrder
  import opened LedgerArtifacts
  import opened LedgerHonesty
  import opened LedgerReports
  import opened LedgerRecount

  datatype Part = Begins | Ends

  predicate IsPart(m: Message, id: RequestId, p: Part) {
    match m
    case ArtifactBegin(i, _, _) => i == id && p == Begins
    case ArtifactFinish(i, _, _, _, _) => i == id && p == Ends
    case _ => false
  }

  /** How many artifact begins, or finishes, of a journey have been admitted. */
  function CountOf(log: seq<Entry>, id: RequestId, p: Part): nat {
    if log == [] then 0
    else CountOf(log[..|log| - 1], id, p) + if IsPart(log[|log| - 1].message, id, p) then 1 else 0
  }

  /** How many recorders have finished. */
  function Finished(flights: seq<Flight>): nat {
    if flights == [] then 0 else (if flights[0].finished then 1 else 0) + Finished(flights[1..])
  }

  /** Bytes offered for some artifact of the journey are not in the log. */
  ghost predicate BytesLost(s: State, id: RequestId) {
    exists a :: |Content(s.history.log, id, a)| < |AppendedTo(s, id, a)|
  }

  /** Something is missing, was rejected, or is unclear. */
  ghost predicate Fault(s: State, id: RequestId, j: Journey) {
    || |FactsOf(s.history.log, id)| < |OfferOf(s, id).facts|
    || CountOf(s.history.log, id, Begins) < |OfferOf(s, id).artifacts|
    || CountOf(s.history.log, id, Ends) < Finished(j.artifacts)
    || !NoneRejected(s, id)
    || !PrimaryIsClear(FactsOf(s.history.log, id))
    || BytesLost(s, id)
  }

  /** No more was admitted than was offered. */
  ghost predicate NeverMore(s: State, id: RequestId, j: Journey) {
    && |FactsOf(s.history.log, id)| <= |OfferOf(s, id).facts|
    && CountOf(s.history.log, id, Begins) <= |OfferOf(s, id).artifacts|
    && CountOf(s.history.log, id, Ends) <= Finished(j.artifacts)
  }

  ghost predicate BlamedFor(s: State, id: RequestId, j: Journey) {
    NeverMore(s, id, j) && (j.degraded ==> Fault(s, id, j))
  }

  ghost predicate Blamed(s: State) { forall id :: id in s.journeys ==> BlamedFor(s, id, s.journeys[id]) }

  // ------------------------------------------------------------------ frames

  /** What is missing grows, and what went wrong stays. */
  ghost predicate Worsens(s: State, j: Journey, s': State, j': Journey, id: RequestId) {
    && s.history.log <= s'.history.log && s.history.nacked.Keys <= s'.history.nacked.Keys
    && FactsOf(s.history.log, id) <= FactsOf(s'.history.log, id)
    && |OfferOf(s', id).facts| - |FactsOf(s'.history.log, id)| >= |OfferOf(s, id).facts| - |FactsOf(s.history.log, id)|
    && |OfferOf(s', id).artifacts| - CountOf(s'.history.log, id, Begins)
       >= |OfferOf(s, id).artifacts| - CountOf(s.history.log, id, Begins)
    && Finished(j'.artifacts) - CountOf(s'.history.log, id, Ends)
       >= Finished(j.artifacts) - CountOf(s.history.log, id, Ends)
    && (BytesLost(s, id) ==> BytesLost(s', id))
  }

  lemma FaultStays(s: State, j: Journey, s': State, j': Journey, id: RequestId)
    requires Worsens(s, j, s', j', id) && NeverMore(s, id, j)
    ensures NeverMore(s', id, j') && (Fault(s, id, j) ==> Fault(s', id, j'))
  {
    hide FactsOf, CountOf, Finished, BytesLost, OfferOf;
    var (log, log') := (s.history.log, s'.history.log);
    if !NoneRejected(s, id) {
      var i :| 0 <= i < |log| && !log[i].message.RuntimeEvent? && log[i].message.id == id &&
               log[i].stamp in s.history.nacked;
      assert log'[i] == log[i];
    }
    UnclearStays(FactsOf(log, id), FactsOf(log', id));
  }

  lemma UnclearStays(facts: seq<Fact>, more: seq<Fact>)
    requires facts <= more
    ensures PrimaryIsClear(more) ==> PrimaryIsClear(facts)
  {
    hide IsPrimary;
    assert forall i :: 0 <= i < |facts| ==> facts[i] == more[i];
  }

  lemma BlameStays(s: State, j: Journey, s': State, j': Journey, id: RequestId)
    requires BlamedFor(s, id, j) && Worsens(s, j, s', j', id) && (j'.degraded ==> j.degraded || Fault(s', id, j'))
    ensures BlamedFor(s', id, j')
  {
    hide Fault, NeverMore, Worsens;
    FaultStays(s, j, s', j', id);
  }

  lemma CountOneMore(log: seq<Entry>, e: Entry, id: RequestId, p: Part)
    ensures CountOf(log + [e], id, p) == CountOf(log, id, p) + if IsPart(e.message, id, p) then 1 else 0
  {
    assert (log + [e])[..|log|] == log;
  }

  lemma {:induction false} SameCount(log: seq<Entry>, log': seq<Entry>, id: RequestId, p: Part)
    requires log <= log' && forall i :: |log| <= i < |log'| ==> !IsPart(log'[i].message, id, p)
    ensures CountOf(log', id, p) == CountOf(log, id, p)
    decreases |log'|
  {
    if |log| < |log'| {
      SameCount(log, log'[..|log'| - 1], id, p);
    } else {
      assert log == log';
    }
  }

  /** Nothing happened to a journey. */
  ghost predicate Apart(s: State, s': State, id: RequestId) {
    && s.history.log <= s'.history.log && s.history.nacked.Keys <= s'.history.nacked.Keys
    && (forall i :: |s.history.log| <= i < |s'.history.log| ==>
          s'.history.log[i].message.RuntimeEvent? || s'.history.log[i].message.id != id)
    && OfferOf(s', id) == OfferOf(s, id)
    && forall a :: AppendedTo(s', id, a) == AppendedTo(s, id, a)
  }

  lemma ApartWorsens(s: State, s': State, id: RequestId, j: Journey)
    requires Apart(s, s', id)
    ensures Worsens(s, j, s', j, id)
  {
    hide Finished;
    var (log, log') := (s.history.log, s'.history.log);
    SameCount(log, log', id, Begins);
    SameCount(log, log', id, Ends);
    assert NoFactSince(log, log', id);
    SameFacts(log, log', id);
    SameBytes(s, s', id);
  }

  lemma SameBytes(s: State, s': State, id: RequestId)
    requires s.history.log <= s'.history.log
    requires forall i :: |s.history.log| <= i < |s'.history.log| ==>
               var m := s'.history.log[i].message; m.RuntimeEvent? || m.id != id || !m.ArtifactChunk?
    requires forall a :: AppendedTo(s', id, a) == AppendedTo(s, id, a)
    ensures BytesLost(s', id) <==> BytesLost(s, id)
  {
    hide Content;
    forall a ensures Content(s'.history.log, id, a) == Content(s.history.log, id, a) {
      SameContentOf(s.history.log, s'.history.log, id, a);
    }
  }

  lemma {:induction false} SameContentOf(log: seq<Entry>, log': seq<Entry>, id: RequestId, a: ArtifactId)
    requires log <= log' && forall i :: |log| <= i < |log'| ==> !ChunkOf(log'[i].message, id, a)
    ensures Content(log', id, a) == Content(log, id, a)
    decreases |log'|
  {
    if |log| < |log'| {
      SameContentOf(log, log'[..|log'| - 1], id, a);
      assert Content(log', id, a) == Content(log'[..|log'| - 1], id, a) + [];
    } else {
      assert log == log';
    }
  }

  /** The journeys that an operation does not concern. */
  lemma OthersBlamed(s: State, s': State, id: RequestId)
    requires Blamed(s) && forall other :: other in s'.journeys && other != id ==>
               Apart(s, s', other) && other in s.journeys && s'.journeys[other] == s.journeys[other]
    ensures forall other :: other in s'.journeys && other != id ==> BlamedFor(s', other, s'.journeys[other])
  {
    hide BlamedFor, Apart, Worsens, Fault;
    forall other | other in s'.journeys && other != id ensures BlamedFor(s', other, s'.journeys[other]) {
      ApartWorsens(s, s', other, s.journeys[other]);
      BlameStays(s, s.journeys[other], s', s'.journeys[other], other);
    }
  }

  /** One message of the journey, which is no chunk, and is in the log from now on. */
  ghost predicate AddsOne(s: State, s': State, m: Message) {
    && |s'.history.log| == |s.history.log| + 1 && s.history.log <= s'.history.log
    && s'.history.log[|s.history.log|].message == m && s'.history.nacked == s.history.nacked
    && s'.history.appended == s.history.appended
  }

  lemma CountsAfter(s: State, s': State, id: RequestId, m: Message)
    requires AddsOne(s, s', m)
    ensures FactsOf(s'.history.log, id) == FactsOf(s.history.log, id) + FactsIn(m, id)
    ensures forall p ::
              CountOf(s'.history.log, id, p) == CountOf(s.history.log, id, p) + if IsPart(m, id, p) then 1 else 0
    ensures !m.ArtifactChunk? ==> (BytesLost(s', id) <==> BytesLost(s, id))
  {
    hide BytesLost, FactsIn, IsPart;
    var n := |s.history.log|;
    assert s'.history.log == s.history.log + [s'.history.log[n]];
    CountOne(s.history.log, s'.history.log[n], id, Opens(""));
    CountOneMore(s.history.log, s'.history.log[n], id, Begins);
    CountOneMore(s.history.log, s'.history.log[n], id, Ends);
    if !m.ArtifactChunk? { SameBytes(s, s', id); }
  }

  // -------------------------------------------------------------- operations

  /** The journey is set to `j` after something of it was offered, and perhaps admitted. */
  lemma SetBlamed(s: State, s': State, id: RequestId, j: Journey)
    requires Blamed(s) && id in s.journeys && s'.journeys == s.journeys
    requires forall other :: other != id && other in s.journeys ==> Apart(s, s', other)
    requires BlamedFor(s', id, j)
    ensures Blamed(SetJourney(s', id, j))
  {
    hide BlamedFor, Apart;
    var t := SetJourney(s', id, j);
    forall other | other in t.journeys && other != id ensures Apart(s, t, other) { ApartAlike(s, s', t, other); }
    OthersBlamed(s, t, id);
    BlamedAlike(s', t, id, j);
  }

  lemma ApartAlike(s: State, s': State, t: State, id: RequestId)
    requires Apart(s, s', id) && t.history == s'.history
    ensures Apart(s, t, id)
  {
  }

  lemma BlamedAlike(s: State, t: State, id: RequestId, j: Journey)
    requires BlamedFor(s, id, j) && t.history == s.history
    ensures BlamedFor(t, id, j)
  {
    hide FactsOf, CountOf, Finished, PrimaryIsClear;
    assert OfferOf(t, id) == OfferOf(s, id) && (BytesLost(t, id) <==> BytesLost(s, id)) by { SameBytes(s, t, id); }
    assert NoneRejected(t, id) <==> NoneRejected(s, id);
  }

  lemma HasBlame(s: State, id: RequestId)
    requires Blamed(s) && id in s.journeys
    ensures BlamedFor(s, id, s.journeys[id])
  {
  }

  /** Something was offered and not admitted: the journey may be degraded for it. */
  lemma MissedBlamed(s: State, s': State, id: RequestId, j: Journey, j': Journey, facts: nat, artifacts: nat)
    requires BlamedFor(s, id, j) && facts + artifacts == 1 && j'.artifacts == j.artifacts
    requires s'.history.log == s.history.log && s'.history.nacked == s.history.nacked
    requires s'.history.appended == s.history.appended
    requires |OfferOf(s', id).facts| == |OfferOf(s, id).facts| + facts
    requires |OfferOf(s', id).artifacts| == |OfferOf(s, id).artifacts| + artifacts
    ensures BlamedFor(s', id, j')
  {
    hide FactsOf, CountOf, Finished, PrimaryIsClear, OfferOf;
    SameBytes(s, s', id);
    FaultStays(s, j, s', j', id);
  }

  lemma OfferedApart(s: State, s1: State, id: RequestId)
    requires s1 == s.(history := s.history.(offers := s1.history.offers))
    requires forall other :: other != id ==> OfferOf(s1, other) == OfferOf(s, other)
    ensures forall other :: other != id ==> Apart(s, s1, other)
  {
  }

  lemma AddedApart(s: State, s': State, id: RequestId, m: Message)
    requires AddsOne(s, s', m) && !m.RuntimeEvent? && m.id == id
    requires forall other :: other != id ==> OfferOf(s', other) == OfferOf(s, other)
    ensures forall other :: other != id ==> Apart(s, s', other)
  {
  }

  lemma AdmitForAddsOne(cfg: Config, s: State, m: Message, j: Journey)
    ensures var (s', j', ok) := AdmitFor(cfg, s, m, j);
            && s'.journeys == s.journeys && s'.history.offers == s.history.offers
            && (ok ==> AddsOne(s, s', m) && j' == j) && (!ok ==> s' == s && j' == j.(degraded := true))
  {
    hide HasKey;
  }

  lemma ObserveBlamed(cfg: Config, s: State, id: RequestId, fact: Fact, reading: Reading)
    requires Blamed(s) && AllRecount(s)
    ensures Blamed(Observe(cfg, s, id, fact, reading))
  {
    hide AdmitFor, Blamed, BlamedFor, AddsOne, SetJourney, NotePrimary;
    if s.Serving() && id in s.journeys {
      var (s1, j) := (OfferFact(s, id, fact), s.journeys[id]);
      HasBlame(s, id);
      OfferedApart(s, s1, id);
      MissedBlamed(s, s1, id, j, j.(degraded := true), 1, 0);
      MissedBlamed(s, s1, id, j, j.(sequence := j.sequence + 1, degraded := true), 1, 0);
      MissedBlamed(s, s1, id, j, Observed(j).(degraded := true), 1, 0);
      SetBlamed(s, s1, id, j.(degraded := true));
      SetBlamed(s, s1, id, j.(sequence := j.sequence + 1, degraded := true));
      SetBlamed(s, s1, id, Observed(j).(degraded := true));
      var m := Append(id, Observed(j).sequence, FactPayload(fact));
      AdmitForAddsOne(cfg, s1, m, Observed(j));
      var (s2, j2, ok) := AdmitFor(cfg, s1, m, Observed(j));
      if ok {
        var j3 := NotePrimary(j2.(lastKnownLocation := Some(fact.location)), fact);
        AddedApart(s1, s2, id, m);
        ApartTwice(s, s1, s2, id);
        ObservedBlamed(s, s1, s2, id, j, fact, m);
        SetBlamed(s, s2, id, j3);
      }
    }
  }

  lemma ApartTwice(s: State, s1: State, s2: State, id: RequestId)
    requires forall other :: other != id ==> Apart(s, s1, other) && Apart(s1, s2, other)
    ensures forall other :: other != id ==> Apart(s, s2, other)
  {
    forall other | other != id ensures Apart(s, s2, other) {
      assert Apart(s, s1, other) && Apart(s1, s2, other);
      forall i | |s.history.log| <= i < |s2.history.log|
        ensures s2.history.log[i].message.RuntimeEvent? || s2.history.log[i].message.id != other
      {
        if i < |s1.history.log| { assert s2.history.log[i] == s1.history.log[i]; }
      }
    }
  }

  lemma ObservedBlamed(s: State, s1: State, s': State, id: RequestId, j: Journey, fact: Fact, m: Message)
    requires BlamedFor(s, id, j) && Recounts(s.history.log, id, j) && s1 == OfferFact(s, id, fact)
    requires AddsOne(s1, s', m) && s'.history.offers == s1.history.offers && FactsIn(m, id) == [fact] && m.Append?
    ensures BlamedFor(s', id, NotePrimary(Observed(j).(lastKnownLocation := Some(fact.location)), fact))
  {
    hide FactsOf, CountOf, Finished, PrimaryIsClear, Content, FirstPrimary, FactsIn, LastLocation;
    var j' := NotePrimary(Observed(j).(lastKnownLocation := Some(fact.location)), fact);
    CountsAfter(s1, s', id, m);
    SameBytes(s, s1, id);
    assert Worsens(s, j, s', j', id);
    FaultStays(s, j, s', j', id);
    if j'.degraded && !j.degraded { UnclearNow(FactsOf(s.history.log, id), fact, j); }
  }

  /** A failure that degrades is not the first primary one, or has no specific cause. */
  lemma UnclearNow(facts: seq<Fact>, fact: Fact, j: Journey)
    requires j.primaryFailureId == FirstPrimary(facts) && !j.degraded && NotePrimary(j, fact).degraded
    ensures !PrimaryIsClear(facts + [fact])
  {
    var all := facts + [fact];
    if FirstPrimary(facts).Some? {
      var i := PrimaryIsThere(facts);
      assert all[i] == facts[i] && all[|facts|] == fact && IsPrimary(all[i]) && IsPrimary(all[|facts|]);
    } else {
      assert all[|facts|] == fact && IsPrimary(all[|facts|]);
    }
  }

  lemma OpenBlamed(cfg: Config, s: State, id: RequestId, a: ArtifactId, reading: Reading, original: Option<nat>)
    requires Blamed(s)
    ensures Blamed(OpenArtifact(cfg, s, id, a, reading, original).0)
  {
    hide AdmitFor, Blamed, BlamedFor, AddsOne, SetJourney, FlightIndex;
    if s.Serving() && id in s.journeys {
      var (s1, j) := (OfferArtifact(s, id, a), s.journeys[id]);
      HasBlame(s, id);
      OfferedApart(s, s1, id);
      MissedBlamed(s, s1, id, j, j.(degraded := true), 0, 1);
      MissedBlamed(s, s1, id, j, Observed(j).(degraded := true), 0, 1);
      SetBlamed(s, s1, id, j.(degraded := true));
      SetBlamed(s, s1, id, Observed(j).(degraded := true));
      var d := OpenDescriptor(a, original);
      var m := ArtifactBegin(id, a, d);
      AdmitForAddsOne(cfg, s1, m, Observed(j));
      var (s2, j2, ok) := AdmitFor(cfg, s1, m, Observed(j));
      var f := NewFlight(Observed(j).sequence, d, ok);
      if ok {
        AddedApart(s1, s2, id, m);
        ApartTwice(s, s1, s2, id);
      }
      OpenedBlamed(s, s1, s2, id, j, j2, m, f, ok);
      SetBlamed(s, s2, id, j2.(artifacts := j2.artifacts + [f]));
    }
  }

  lemma {:induction false} FinishedMore(flights: seq<Flight>, f: Flight)
    ensures Finished(flights + [f]) == Finished(flights) + if f.finished then 1 else 0
    decreases |flights|
  {
    if flights == [] {
      assert flights + [f] == [f];
    } else {
      assert (flights + [f])[1..] == flights[1..] + [f];
      FinishedMore(flights[1..], f);
    }
  }

  lemma {:induction false} FinishedUpdate(flights: seq<Flight>, k: nat, f: Flight)
    requires k < |flights|
    ensures Finished(flights[k := f]) == Finished(flights) + (if f.finished then 1 else 0)
                                         - (if flights[k].finished then 1 else 0)
    decreases |flights|
  {
    if k == 0 {
      assert flights[k := f][1..] == flights[1..];
    } else {
      assert flights[k := f][1..] == flights[1..][k - 1 := f];
      FinishedUpdate(flights[1..], k - 1, f);
    }
  }

  lemma OpenedBlamed(s: State, s1: State, s': State, id: RequestId, j: Journey, j2: Journey, m: Message, f: Flight,
      ok: bool)
    requires BlamedFor(s, id, j) && m.ArtifactBegin? && m.id == id && s1 == OfferArtifact(s, id, m.artifact)
    requires ok ==> AddsOne(s1, s', m) && j2 == Observed(j)
    requires !ok ==> s' == s1 && j2 == Observed(j).(degraded := true)
    requires s'.history.offers == s1.history.offers && !f.finished
    ensures BlamedFor(s', id, j2.(artifacts := j2.artifacts + [f]))
  {
    hide FactsOf, CountOf, Finished, PrimaryIsClear, Content;
    var j' := j2.(artifacts := j2.artifacts + [f]);
    FinishedMore(j2.artifacts, f);
    SameBytes(s, s1, id);
    if ok { CountsAfter(s1, s', id, m); }
    assert Worsens(s, j, s', j', id);
    FaultStays(s, j, s', j', id);
  }

  lemma FinishBlamed(cfg: Config, s: State, id: RequestId, a: ArtifactId, input: FinishInput)
    requires Blamed(s)
    ensures Blamed(FinishArtifact(cfg, s, id, a, input))
  {
    hide AdmitFor, Blamed, BlamedFor, AddsOne, SetJourney, FlightIndex, FinishedFlight, Finished;
    if id in s.journeys && HasFlight(s.journeys[id].artifacts, a) {
      var j := s.journeys[id];
      var k := FlightIndex(j.artifacts, a);
      var f := j.artifacts[k];
      HasBlame(s, id);
      if !f.finished && input.BadFinish? {
        var s1 := RecordBreak(s, id, a);
        BreakApart(s, s1);
        BrokenBlamed(s, s1, id, j, k, BrokenFlight(f));
        SetBlamed(s, s1, id, j.(degraded := true, artifacts := j.artifacts[k := BrokenFlight(f)]));
      } else if !f.finished {
        var m := FinishMessage(id, f, input);
        AdmitForAddsOne(cfg, s, m, j);
        var (s', j', ok) := AdmitFor(cfg, s, m, j);
        var f' := FinishedFlight(f, m, ok);
        FinishedIsFinished(f, m, ok);
        ApartSelf(s);
        if ok { AddedApart(s, s', id, m); EndedBlamed(s, s', id, j, m, k, f'); }
        else { BrokenBlamed(s, s', id, j, k, f'); }
        SetBlamed(s, s', id, j'.(artifacts := j.artifacts[k := f']));
      }
    }
  }

  lemma FinishedIsFinished(f: Flight, m: Message, ok: bool)
    requires m.ArtifactFinish?
    ensures FinishedFlight(f, m, ok).finished
  {
  }

  lemma ApartSelf(s: State)
    ensures forall id :: Apart(s, s, id)
  {
  }

  lemma BreakApart(s: State, s1: State)
    requires s1 == s.(history := s.history.(broken := s1.history.broken))
    ensures forall id :: Apart(s, s1, id)
  {
  }

  /** A recorder that finishes without its finish being admitted. */
  lemma BrokenBlamed(s: State, s': State, id: RequestId, j: Journey, k: nat, f: Flight)
    requires BlamedFor(s, id, j) && k < |j.artifacts| && !j.artifacts[k].finished && f.finished
    requires s'.history == s.history.(broken := s'.history.broken)
    ensures BlamedFor(s', id, j.(degraded := true, artifacts := j.artifacts[k := f]))
  {
    hide FactsOf, CountOf, Finished, PrimaryIsClear, Content;
    FinishedUpdate(j.artifacts, k, f);
    SameBytes(s, s', id);
    FaultStays(s, j, s', j.(degraded := true, artifacts := j.artifacts[k := f]), id);
  }

  lemma EndedBlamed(s: State, s': State, id: RequestId, j: Journey, m: Message, k: nat, f: Flight)
    requires BlamedFor(s, id, j) && k < |j.artifacts| && !j.artifacts[k].finished && f.finished
    requires AddsOne(s, s', m) && m.ArtifactFinish? && m.id == id && s'.history.offers == s.history.offers
    ensures BlamedFor(s', id, j.(artifacts := j.artifacts[k := f]))
  {
    hide FactsOf, CountOf, Finished, PrimaryIsClear, Content;
    FinishedUpdate(j.artifacts, k, f);
    CountsAfter(s, s', id, m);
    var j' := j.(artifacts := j.artifacts[k := f]);
    assert Worsens(s, j, s', j', id);
    FaultStays(s, j, s', j', id);
  }

  /** A refused chunk leaves bytes behind. */
  lemma {:induction false} RefusalLosesBytes(cfg: Config, s: State, id: RequestId, j: Journey, f: Flight,
      bytes: seq<Byte>)
    ensures var (_, j', _, taken) := AppendChunks(cfg, s, id, j, f, bytes);
            taken <= |bytes| && (j'.degraded && !j.degraded ==> taken < |bytes|)
    decreases |bytes|
  {
    hide AdmitFor;
    if bytes != [] {
      var n := Min(|bytes|, MAX_ARTIFACT_WRITE_CHUNK_BYTES);
      var m := ArtifactChunk(id, f.descriptor.artifactId, f.nextChunkIndex, f.capturedBytes, bytes[..n]);
      AdmitForAddsOne(cfg, s, m, j);
      var (s', j', f', ok) := AppendChunk(cfg, s, id, j, f, bytes[..n]);
      if ok { RefusalLosesBytes(cfg, s', id, j', f', bytes[n..]); }
    }
  }

  lemma AppendBlamed(cfg: Config, s: State, id: RequestId, a: ArtifactId, bytes: seq<Byte>)
    requires Blamed(s) && Artifacts(s)
    ensures Blamed(AppendArtifact(cfg, s, id, a, bytes))
  {
    hide AppendChunks, Blamed, BlamedFor, SetJourney, FlightIndex, Recorded, Sound, Untouched, AfterAppend;
    if id in s.journeys && HasFlight(s.journeys[id].artifacts, a) {
      var j := s.journeys[id];
      var k := FlightIndex(j.artifacts, a);
      var f := j.artifacts[k];
      HasBlame(s, id);
      if !f.finished {
        var s1 := RecordAppend(s, id, a, bytes);
        AppendedApart(s, s1, id, a);
        if f.accepting {
          var taken := bytes[..Accepted(cfg, s1, j, f, |bytes|)];
          ChunksApart(cfg, s, s1, id, a, j, f, taken);
          AppendedBlamed(cfg, s, id, j, k, bytes, taken);
          var (s', j', f', n) := AppendChunks(cfg, s1, id, j, f, taken);
          var f2 := AfterAppend(f', |bytes|, |taken|, n);
          SetBlamed(s, s', id, j'.(artifacts := j.artifacts[k := f2]));
        } else {
          StoppedBlamed(s, id, j, k, bytes);
          SetBlamed(s, s1, id, j);
          SetToItself(s1, id);
        }
      }
    }
  }

  lemma AppendedApart(s: State, s1: State, id: RequestId, a: ArtifactId)
    requires s1 == s.(history := s.history.(appended := s1.history.appended))
    requires forall id2, a2 :: (id2, a2) != (id, a) ==> AppendedTo(s1, id2, a2) == AppendedTo(s, id2, a2)
    ensures forall other :: other != id ==> Apart(s, s1, other)
  {
    forall other | other != id ensures Apart(s, s1, other) {
      assert forall a2 :: (other, a2) != (id, a) && AppendedTo(s1, other, a2) == AppendedTo(s, other, a2);
    }
  }

  lemma ChunksApart(cfg: Config, s: State, s1: State, id: RequestId, a: ArtifactId, j: Journey, f: Flight,
      bytes: seq<Byte>)
    requires forall other :: other != id ==> Apart(s, s1, other)
    ensures var s' := AppendChunks(cfg, s1, id, j, f, bytes).0;
            s'.journeys == s1.journeys && forall other :: other != id ==> Apart(s, s', other)
  {
    hide AppendChunks;
    AppendChunksExtends(cfg, s1, id, j, f, bytes);
    var s' := AppendChunks(cfg, s1, id, j, f, bytes).0;
    forall other | other != id ensures Apart(s1, s', other) {
      forall i | |s1.history.log| <= i < |s'.history.log|
        ensures s'.history.log[i].message.RuntimeEvent? || s'.history.log[i].message.id != other
      {
        assert About(s'.history.log[i].message, id, j.sequence);
      }
    }
    ApartTwice(s, s1, s', id);
  }

  /** Bytes for a recorder that has stopped are lost. */
  lemma StoppedBlamed(s: State, id: RequestId, j: Journey, k: nat, bytes: seq<Byte>)
    requires BlamedFor(s, id, j) && k < |j.artifacts|
    ensures BlamedFor(RecordAppend(s, id, j.artifacts[k].descriptor.artifactId, bytes), id, j)
  {
    hide FactsOf, CountOf, Finished, PrimaryIsClear, Content;
    var a := j.artifacts[k].descriptor.artifactId;
    var s' := RecordAppend(s, id, a, bytes);
    if BytesLost(s, id) {
      var b :| |Content(s.history.log, id, b)| < |AppendedTo(s, id, b)|;
      assert |Content(s'.history.log, id, b)| < |AppendedTo(s', id, b)|;
    }
    assert Worsens(s, j, s', j, id);
    FaultStays(s, j, s', j, id);
  }

  lemma AppendedBlamed(cfg: Config, s: State, id: RequestId, j: Journey, k: nat, bytes: seq<Byte>, offered: seq<Byte>)
    requires BlamedFor(s, id, j) && Artifacts(s) && id in s.journeys && j == s.journeys[id] && k < |j.artifacts|
    requires offered <= bytes && !j.artifacts[k].finished
    ensures var (f, s1) := (j.artifacts[k], RecordAppend(s, id, j.artifacts[k].descriptor.artifactId, bytes));
            var (s', j', f', n) := AppendChunks(cfg, s1, id, j, f, offered);
            BlamedFor(s', id, j'.(artifacts := j.artifacts[k := AfterAppend(f', |bytes|, |offered|, n)]))
  {
    hide FactsOf, CountOf, Finished, PrimaryIsClear, Content, AppendChunks, Chunks, Tiles, FinishesWhole, FlightIndex,
         Untouched;
    var f := j.artifacts[k];
    var a := f.descriptor.artifactId;
    var s1 := RecordAppend(s, id, a, bytes);
    assert Recorded(s, id, f) && Sound(s, id, a);
    AppendChunksContent(cfg, s1, id, j, f, offered);
    AppendChunksMute(cfg, s1, id, j, f, offered);
    RefusalLosesBytes(cfg, s1, id, j, f, offered);
    var (s', j', f', n) := AppendChunks(cfg, s1, id, j, f, offered);
    ChunksOnlyOf(s, s', id, a, bytes, offered, n);
    var f2 := AfterAppend(f', |bytes|, |offered|, n);
    FinishedUpdate(j.artifacts, k, f2);
    var j2 := j'.(artifacts := j.artifacts[k := f2]);
    assert Worsens(s, j, s', j2, id);
    FaultStays(s, j, s', j2, id);
  }

  lemma ChunksOnlyOf(s: State, s': State, id: RequestId, a: ArtifactId, bytes: seq<Byte>, offered: seq<Byte>, n: nat)
    requires s.history.log <= s'.history.log && n <= |offered| && offered <= bytes
    requires forall i :: |s.history.log| <= i < |s'.history.log| ==> ChunkOf(s'.history.log[i].message, id, a)
    requires Content(s'.history.log, id, a) == Content(s.history.log, id, a) + offered[..n]
    requires s'.history.appended == RecordAppend(s, id, a, bytes).history.appended
    requires |Content(s.history.log, id, a)| <= |AppendedTo(s, id, a)|
    ensures FactsOf(s'.history.log, id) == FactsOf(s.history.log, id)
    ensures CountOf(s'.history.log, id, Begins) == CountOf(s.history.log, id, Begins)
    ensures CountOf(s'.history.log, id, Ends) == CountOf(s.history.log, id, Ends)
    ensures BytesLost(s, id) ==> BytesLost(s', id)
    ensures n < |offered| ==> BytesLost(s', id)
  {
    hide FactsOf, CountOf, Content;
    assert NoFactSince(s.history.log, s'.history.log, id);
    SameFacts(s.history.log, s'.history.log, id);
    SameCount(s.history.log, s'.history.log, id, Begins);
    SameCount(s.history.log, s'.history.log, id, Ends);
    assert AppendedTo(s', id, a) == AppendedTo(s, id, a) + bytes;
    if BytesLost(s, id) {
      var b :| |Content(s.history.log, id, b)| < |AppendedTo(s, id, b)|;
      if b != a { SameContentOf(s.history.log, s'.history.log, id, b); }
      assert |Content(s'.history.log, id, b)| < |AppendedTo(s', id, b)|;
    }
    if n < |offered| { assert |Content(s'.history.log, id, a)| < |AppendedTo(s', id, a)|; }
  }

  lemma BeginBlamed(cfg: Config, s: State, id: RequestId, captureAll: bool, captureFailed: bool)
    requires Blamed(s) && Queued(s) && (id in s.history.used ==> id in s.journeys)
    ensures Blamed(Begin(cfg, s, id, captureAll, captureFailed).0)
  {
    hide Ordered, HasKey, BlamedFor, Apart;
    var (s', ok) := Begin(cfg, s, id, captureAll, captureFailed);
    if ok {
      forall other | other in s.journeys && other != id ensures Apart(s, s', other) {
        BeginApart(cfg, s, id, other, s');
      }
      OthersBlamed(s, s', id);
      NewBlamed(s, s', id, captureAll, captureFailed);
    }
  }

  lemma BeginApart(cfg: Config, s: State, id: RequestId, other: RequestId, s': State)
    requires other != id && |s'.history.log| == |s.history.log| + 1 && s.history.log <= s'.history.log
    requires s'.history.log[|s.history.log|].message == Append(id, 0, BeginPayload)
    requires s'.history.nacked == s.history.nacked && s'.history.appended == s.history.appended
    requires OfferOf(s', other) == OfferOf(s, other)
    ensures Apart(s, s', other)
  {
  }

  /** A new journey is not degraded, and nothing of it has been offered yet. */
  lemma NewBlamed(s: State, s': State, id: RequestId, captureAll: bool, captureFailed: bool)
    requires Queued(s) && id !in s.history.used
    requires |s'.history.log| == |s.history.log| + 1 && s.history.log <= s'.history.log
    requires s'.history.log[|s.history.log|].message == Append(id, 0, BeginPayload)
    ensures BlamedFor(s', id, FreshJourney(captureAll, captureFailed))
  {
    hide Ordered;
    forall i | 0 <= i < |s'.history.log|
      ensures FactsIn(s'.history.log[i].message, id) == []
      ensures forall p :: !IsPart(s'.history.log[i].message, id, p)
    {
      if i < |s.history.log| {
        assert s'.history.log[i] == s.history.log[i];
        assert NumberedEntry(s, s.history.log[i].message);
      }
    }
    SameFacts([], s'.history.log, id);
    SameCount([], s'.history.log, id, Begins);
    SameCount([], s'.history.log, id, Ends);
  }

  /** Nothing happens to the journeys that stay. */
  lemma StillBlamed(s: State, s': State)
    requires Blamed(s)
    requires forall id :: id in s'.journeys ==>
               id in s.journeys && s'.journeys[id] == s.journeys[id] && Apart(s, s', id)
    ensures Blamed(s')
  {
    hide BlamedFor, Apart, Worsens, Fault;
    forall id | id in s'.journeys ensures BlamedFor(s', id, s'.journeys[id]) {
      ApartWorsens(s, s', id, s.journeys[id]);
      BlameStays(s, s.journeys[id], s', s'.journeys[id], id);
    }
  }

  lemma CloseBlamed(cfg: Config, s: State, id: RequestId, input: CloseInput, course: Course)
    requires Blamed(s) && Queued(s)
    ensures Blamed(Close(cfg, s, id, input, course))
  {
    hide PrepareClose, SealClose, Blamed, CourseTaken, Extends, Queued, Apart, SealedOnce;
    ApartSelf(s);
    if s.Serving() && id in s.journeys {
      var taken := CourseTaken(s.journeys[id], input, course);
      ExtractFlights(s, id);
      PrepareCloseExtends(cfg, s, id, input, taken);
      var (s1, j1, seal) := PrepareClose(cfg, s, id, input, taken);
      SealGrows(cfg, s1, id, j1, seal, taken);
      var (s2, j2, ok) := SealClose(cfg, s1, id, j1, seal, taken);
      ClosedApart(s, s1, s2, Close(cfg, s, id, input, course), id, j1.sequence, ok);
    }
    StillBlamed(s, Close(cfg, s, id, input, course));
  }

  lemma ClosedApart(s: State, s1: State, s2: State, s': State, id: RequestId, q: nat, ok: bool)
    requires q > 0 && Extends(s, s1, id, q - 1) && SealedOnce(s1, s2, id, q, ok)
    requires s'.history == s2.history && s'.journeys == s2.journeys - {id}
    ensures forall other :: other in s'.journeys ==>
              other in s.journeys && s'.journeys[other] == s.journeys[other] && Apart(s, s', other)
  {
    forall other | other in s'.journeys ensures Apart(s, s', other) {
      forall i | |s.history.log| <= i < |s'.history.log|
        ensures s'.history.log[i].message.RuntimeEvent? || s'.history.log[i].message.id != other
      {
        if i < |s1.history.log| {
          assert s'.history.log[i] == s1.history.log[i];
          assert About(s1.history.log[i].message, id, q - 1);
        }
      }
    }
  }

  /** A rejected message is the fault of its journey. */
  lemma RejectBlamed(s: State, e: Entry, classification: string)
    requires Blamed(s) && Queued(s) && e.stamp < |s.history.log| && s.history.log[e.stamp] == e
    ensures Blamed(Reject(s, e, classification))
  {
    hide FlightIndex, Numbered, FactsOf, CountOf, Content, PrimaryIsClear, Finished;
    var s' := Reject(s, e, classification);
    forall id | id in s'.journeys ensures BlamedFor(s', id, s'.journeys[id]) {
      var (j, j') := (s.journeys[id], s'.journeys[id]);
      assert BlamedFor(s, id, j);
      SameBytes(s, s', id);
      RejectedRecorders(s, e, classification, id);
      assert Worsens(s, j, s', j', id);
      FaultStays(s, j, s', j', id);
      if j' != j { RejectedIsFault(s', e, id); }
    }
  }

  lemma RejectedIsFault(s: State, e: Entry, id: RequestId)
    requires e.stamp < |s.history.log| && s.history.log[e.stamp] == e && e.stamp in s.history.nacked
    requires !e.message.RuntimeEvent? && e.message.id == id
    ensures !NoneRejected(s, id)
  {
  }

  lemma RejectedRecorders(s: State, e: Entry, classification: string, id: RequestId)
    requires id in s.journeys
    ensures Finished(Reject(s, e, classification).journeys[id].artifacts) == Finished(s.journeys[id].artifacts)
    ensures Reject(s, e, classification).journeys[id] != s.journeys[id] ==>
              !e.message.RuntimeEvent? && e.message.id == id
  {
    hide FlightIndex, Finished;
    if !e.message.RuntimeEvent? && e.message.id == id && !e.message.Append? &&
        HasFlight(s.journeys[id].artifacts, e.message.artifact) {
      var (j, k) := (s.journeys[id], FlightIndex(s.journeys[id].artifacts, e.message.artifact));
      var d := j.artifacts[k].descriptor.(state := Unavailable, capturedBytes := 0, reason := Some(classification));
      FinishedUpdate(j.artifacts, k, j.artifacts[k].(descriptor := d));
    }
  }

  /** The messages of every other journey, and those without one, do not concern it. */
  lemma SilentBlamed(s: State, s': State)
    requires Blamed(s) && s'.history.log == s.history.log && s'.history.nacked == s.history.nacked
    requires s'.history.offers == s.history.offers && s'.history.appended == s.history.appended
    requires s'.journeys == s.journeys || s'.journeys == map[]
    ensures Blamed(s')
  {
    hide Blamed;
    StillBlamed(s, s');
  }

  lemma SettleBlamed(s: State, g: nat, key: Option<Key>, accepted: bool, classification: string)
    requires Blamed(s) && Queued(s)
    ensures Blamed(Settle(s, g, key, accepted, classification))
  {
    hide Blamed, Numbered, Reject;
    if s.worker.current == Some(g) && key.Some? && EntryIndex(s.pending, key.value) < |s.pending| {
      var i := EntryIndex(s.pending, key.value);
      SilentBlamed(s, Remove(s, i));
      RemoveQueued(s, i);
      RejectBlamed(Remove(s, i), s.pending[i], classification);
    } else {
      SilentBlamed(s, Settle(s, g, key, accepted, classification));
    }
  }

  lemma RuntimeEventBlamed(cfg: Config, s: State, clock: bool)
    requires Blamed(s)
    ensures Blamed(RuntimeEventOffered(cfg, s, clock))
  {
    hide Blamed, HasKey;
    StillBlamed(s, RuntimeEventOffered(cfg, s, clock));
  }

  lemma WorkerBlamed(cfg: Config, s: State, a: Action)
    requires Blamed(s)
    requires a.DoReady? || a.DoFail? || a.DoStartupFailure? || a.DoStart? || a.DoBeginShutdown? || a.DoEndShutdown?
    ensures Blamed(Step(cfg, s, a))
  {
    hide Blamed;
    SilentBlamed(s, Step(cfg, s, a));
  }

  lemma StepBlamed(cfg: Config, s: State, a: Action)
    requires Blamed(s) && AllRecount(s) && Artifacts(s) && Queued(s) && Fresh(s, a)
    ensures Blamed(Step(cfg, s, a))
  {
    hide Begin, Observe, OpenArtifact, AppendArtifact, FinishArtifact, Close, Settle, Queued, Blamed, AllRecount,
         Artifacts, RuntimeEventOffered;
    match a
    case DoBegin(id, all, failed) => BeginBlamed(cfg, s, id, all, failed);
    case DoObserve(id, fact, reading) => ObserveBlamed(cfg, s, id, fact, reading);
    case DoOpen(id, artifact, reading, original) => OpenBlamed(cfg, s, id, artifact, reading, original);
    case DoAppend(id, artifact, bytes) => AppendBlamed(cfg, s, id, artifact, bytes);
    case DoFinish(id, artifact, finish) => FinishBlamed(cfg, s, id, artifact, finish);
    case DoClose(id, input, course) => CloseBlamed(cfg, s, id, input, course);
    case DoRuntimeEvent(clock) => RuntimeEventBlamed(cfg, s, clock);
    case DoSettle(g, key, accepted, classification) => SettleBlamed(s, g, key, accepted, classification);
    case _ => WorkerBlamed(cfg, s, a);
  }

  lemma {:induction false} RunBlamed(cfg: Config, actions: seq<Action>)
    requires Legal(cfg, actions)
    ensures Blamed(After(cfg, actions))
    decreases |actions|
  {
    hide Step, Queued, Artifacts, AllRecount, BlamedFor;
    if actions != [] {
      var before := actions[..|actions| - 1];
      RunBlamed(cfg, before);
      RunRecounts(cfg, before);
      ArtifactsAreSound(cfg, before);
      QueueIsOrdered(cfg, before);
      StepBlamed(cfg, After(cfg, before), actions[|actions| - 1]);
    }
  }

  /**
   In every run, an open journey is degraded only if there is a fault: an observation, an artifact's begin or finish, or
   bytes of an artifact are missing; one of its messages was rejected; or there is more than one primary failure, or
   one without a specific cause.
   */
  lemma OnlyFaultsDegrade(cfg: Config, actions: seq<Action>, id: RequestId)
    requires Legal(cfg, actions) && id in After(cfg, actions).journeys && After(cfg, actions).journeys[id].degraded
    ensures Fault(After(cfg, actions), id, After(cfg, actions).journeys[id])
  {
    hide After, Legal, Fault, NeverMore;
    RunBlamed(cfg, actions);
    HasBlame(After(cfg, actions), id);
  }
}
