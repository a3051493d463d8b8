/** What a seal marked complete says about its journey. */
module LedgerHonesty {
  import opened Options
  import opened Ledger
  import opened LedgerRuns
  import opened LedgerBalance
  import opened LedgerOrder
  import opened LedgerArtifacts

  /** What a message of a journey may answer for. */
  datatype What = Opens(artifact: ArtifactId) | Finishes(artifact: ArtifactId) | Reports(artifact: ArtifactId)

  predicate Is(m: Message, id: RequestId, w: What) {
    !m.RuntimeEvent? && m.id == id &&
    match w
    case Opens(a) => m.ArtifactBegin? && m.artifact == a
    case Finishes(a) => m.ArtifactFinish? && m.artifact == a
    case Reports(a) => m.Append? && m.payload.ArtifactPayload? && m.payload.descriptor.artifactId == a
  }

  /** The number of messages of a journey that answer for this. */
  function Count(log: seq<Entry>, id: RequestId, w: What): nat {
    if log == [] then 0
    else Count(log[..|log| - 1], id, w) + (if Is(log[|log| - 1].message, id, w) then 1 else 0)
  }

  function FactsIn(m: Message, id: RequestId): seq<Fact> {
    if m.Append? && m.id == id && m.payload.FactPayload? then [m.payload.fact] else []
  }

  /** The observations of a journey, in the order of their admission. */
  function FactsOf(log: seq<Entry>, id: RequestId): seq<Fact> {
    if log == [] then [] else FactsOf(log[..|log| - 1], id) + FactsIn(log[|log| - 1].message, id)
  }

  /** The number of recorders of an artifact, or of those that have finished. */
  function Number(flights: seq<Flight>, a: ArtifactId, finished: bool): nat {
    if flights == [] then 0
    else
      (if flights[0].descriptor.artifactId == a && (finished ==> flights[0].finished) then 1 else 0) +
      Number(flights[1..], a, finished)
  }

  function Ids(flights: seq<Flight>): seq<ArtifactId> {
    seq(|flights|, i requires 0 <= i < |flights| => flights[i].descriptor.artifactId)
  }

  lemma CountOne(log: seq<Entry>, e: Entry, id: RequestId, w: What)
    ensures Count(log + [e], id, w) == Count(log, id, w) + (if Is(e.message, id, w) then 1 else 0)
    ensures FactsOf(log + [e], id) == FactsOf(log, id) + FactsIn(e.message, id)
  {
    assert (log + [e])[..|log + [e]| - 1] == log;
  }

  /** A message that answers for nothing in a journey. */
  predicate Mute(m: Message, id: RequestId) {
    m.RuntimeEvent? || m.id != id || m.ArtifactChunk? ||
        (m.Append? && (m.payload.BeginPayload? || m.payload.SealPayload?))
  }

  /** Both logs tell the same about a journey. */
  ghost predicate Alike(log: seq<Entry>, log': seq<Entry>, id: RequestId) {
    FactsOf(log', id) == FactsOf(log, id) && forall w :: Count(log', id, w) == Count(log, id, w)
  }

  lemma {:induction false} MuteSame(log: seq<Entry>, log': seq<Entry>, id: RequestId, w: What)
    requires log <= log'
    requires forall i :: |log| <= i < |log'| ==> Mute(log'[i].message, id)
    ensures Count(log', id, w) == Count(log, id, w) && FactsOf(log', id) == FactsOf(log, id)
    decreases |log'|
  {
    if |log| < |log'| {
      MuteSame(log, log'[..|log'| - 1], id, w);
    } else {
      assert log == log';
    }
  }

  lemma MuteAlike(log: seq<Entry>, log': seq<Entry>, id: RequestId)
    requires log <= log'
    requires forall i :: |log| <= i < |log'| ==> Mute(log'[i].message, id)
    ensures Alike(log, log', id)
  {
    MuteSame(log, log', id, Opens(""));
    forall w ensures Count(log', id, w) == Count(log, id, w) { MuteSame(log, log', id, w); }
  }

  lemma {:induction false} NumberUpdate(flights: seq<Flight>, k: nat, f: Flight, a: ArtifactId, finished: bool)
    requires k < |flights| && f.descriptor.artifactId == flights[k].descriptor.artifactId
    ensures Number(flights[k := f], a, finished) == Number(flights, a, finished) +
              (if a == f.descriptor.artifactId && finished && f.finished && !flights[k].finished then 1
               else if a == f.descriptor.artifactId && finished && !f.finished && flights[k].finished then -1 else 0)
  {
    if k > 0 {
      assert flights[k := f][1..] == flights[1..][k - 1 := f];
      NumberUpdate(flights[1..], k - 1, f, a, finished);
    } else {
      assert flights[k := f][1..] == flights[1..];
    }
  }

  lemma {:induction false} NumberAppend(flights: seq<Flight>, f: Flight, a: ArtifactId, finished: bool)
    ensures Number(flights + [f], a, finished) ==
              Number(flights, a, finished) + (if f.descriptor.artifactId == a && (finished ==> f.finished) then 1
                  else 0)
  {
    if flights == [] {
      assert flights + [f] == [f];
    } else {
      assert (flights + [f])[1..] == flights[1..] + [f];
      NumberAppend(flights[1..], f, a, finished);
    }
  }

  /** Finished recorders of different artifacts: one for each, and none for any other. */
  lemma {:induction false} NumberOfDistinct(flights: seq<Flight>, a: ArtifactId, finished: bool)
    requires Distinct(flights) && forall i :: 0 <= i < |flights| ==> flights[i].finished
    ensures Number(flights, a, finished) == (if a in Ids(flights) then 1 else 0)
  {
    if flights != [] {
      var rest := flights[1..];
      NumberOfDistinct(rest, a, finished);
      assert Ids(flights) == [flights[0].descriptor.artifactId] + Ids(rest);
      assert forall i :: 0 <= i < |rest| ==> Ids(rest)[i] == flights[i + 1].descriptor.artifactId;
    }
  }

  // -------------------------------------------------------------- invariant

  ghost predicate RejectionsKnown(s: State) { forall n :: n in s.history.nacked ==> n < |s.history.log| }

  ghost predicate NoneRejected(s: State, id: RequestId) {
    forall i ::
      0 <= i < |s.history.log| && !s.history.log[i].message.RuntimeEvent? && s.history.log[i].message.id == id ==>
        s.history.log[i].stamp !in s.history.nacked
  }

  /** A recorder's artifact has been opened, finished if the recorder has, and not yet reported. */
  ghost predicate Tallied(log: seq<Entry>, id: RequestId, flights: seq<Flight>) {
    forall a ::
      && Count(log, id, Opens(a)) == Number(flights, a, false)
      && Count(log, id, Finishes(a)) == Number(flights, a, true)
      && Count(log, id, Reports(a)) == 0
  }

  /** Everything that the handler offered was admitted, in that order, and none of it was rejected. */
  ghost predicate Accounted(s: State, id: RequestId, flights: seq<Flight>) {
    && FactsOf(s.history.log, id) == OfferOf(s, id).facts
    && Ids(flights) == OfferOf(s, id).artifacts
    && Tallied(s.history.log, id, flights)
    && NoneRejected(s, id)
  }

  ghost predicate HonestFor(s: State, id: RequestId, j: Journey) { j.degraded || Accounted(s, id, j.artifacts) }

  /** An open journey that is not degraded accounts for everything it was offered. */
  ghost predicate Honest(s: State) {
    RejectionsKnown(s) && forall id :: id in s.journeys ==> HonestFor(s, id, s.journeys[id])
  }

  ghost predicate HonestBut(s: State, id: RequestId) {
    RejectionsKnown(s) && forall other :: other in s.journeys && other != id ==> HonestFor(s, other, s.journeys[other])
  }

  /** Messages that answer for nothing in an open journey leave its account as it was. */
  lemma MuteHonest(s: State, s': State, id: RequestId, j: Journey)
    requires HonestFor(s, id, j) && RejectionsKnown(s) && s.history.log <= s'.history.log
    requires forall i :: |s.history.log| <= i < |s'.history.log| ==>
               Mute(s'.history.log[i].message, id) && s'.history.log[i].stamp == i
    requires s'.history.nacked == s.history.nacked && OfferOf(s', id) == OfferOf(s, id)
    ensures HonestFor(s', id, j)
  {
    var log, log' := s.history.log, s'.history.log;
    if !j.degraded {
      MuteAlike(log, log', id);
      forall i | 0 <= i < |log'| && !log'[i].message.RuntimeEvent? && log'[i].message.id == id
        ensures log'[i].stamp !in s'.history.nacked
      {
        if i < |log| { assert log'[i] == log[i]; }
      }
    }
  }

  lemma CarryHonest(s: State, s': State, id: RequestId, q: nat, j: Journey)
    requires HonestBut(s, id) && Extends(s, s', id, q) && id in s.journeys
    requires HonestFor(s', id, j)
    ensures Honest(SetJourney(s', id, j))
  {
    hide HonestFor, Accounted;
    var t := SetJourney(s', id, j);
    forall other | other in t.journeys ensures HonestFor(t, other, t.journeys[other]) {
      if other != id { MuteHonest(s, s', other, s.journeys[other]); }
      SameAccounts(s', t, other, t.journeys[other]);
    }
  }

  lemma SameAccounts(s: State, s': State, id: RequestId, j: Journey)
    requires HonestFor(s, id, j) && s'.history.log == s.history.log && s'.history.nacked == s.history.nacked
    requires OfferOf(s', id) == OfferOf(s, id)
    ensures HonestFor(s', id, j)
  {
  }

  /** What one more message of a journey adds to its tale. */
  ghost predicate Tells(log: seq<Entry>, log': seq<Entry>, m: Message, id: RequestId) {
    && FactsOf(log', id) == FactsOf(log, id) + FactsIn(m, id)
    && forall w :: Count(log', id, w) == Count(log, id, w) + (if Is(m, id, w) then 1 else 0)
  }

  lemma PushTells(log: seq<Entry>, e: Entry, id: RequestId)
    ensures Tells(log, log + [e], e.message, id)
  {
    CountOne(log, e, id, Opens(""));
    forall w ensures Count(log + [e], id, w) == Count(log, id, w) + (if Is(e.message, id, w) then 1 else 0) {
      CountOne(log, e, id, w);
    }
  }

  /** One more message of the journey itself: admitted and told, or the journey is degraded. */
  lemma AdmitForTells(cfg: Config, s: State, m: Message, j: Journey, id: RequestId)
    requires !m.RuntimeEvent? && m.id == id
    ensures var (s', j', ok) := AdmitFor(cfg, s, m, j);
            && j'.artifacts == j.artifacts && (j.degraded ==> j'.degraded) && (ok || j'.degraded)
            && (ok ==> Tells(s.history.log, s'.history.log, m, id))
            && (ok && RejectionsKnown(s) && NoneRejected(s, id) ==> NoneRejected(s', id))
            && (RejectionsKnown(s) ==> RejectionsKnown(s'))
            && OfferOf(s', id) == OfferOf(s, id)
  {
    hide Tells;
    if Admissible(cfg, s, m, j.finalOutcome).Some? {
      PushTells(s.history.log, Admissible(cfg, s, m, j.finalOutcome).value, id);
    }
  }

  /** An offer to one journey does not concern the others. */
  lemma OfferedHonest(s: State, s1: State, id: RequestId)
    requires Honest(s)
    requires s1 == s.(history := s.history.(offers := s1.history.offers, appended := s1.history.appended,
               broken := s1.history.broken))
    requires forall other :: other != id ==> OfferOf(s1, other) == OfferOf(s, other)
    ensures HonestBut(s1, id)
  {
    hide HonestFor;
    forall other | other in s.journeys && other != id ensures HonestFor(s1, other, s.journeys[other]) {
      SameAccounts(s, s1, other, s.journeys[other]);
    }
  }

  // ------------------------------------------------------------- operations

  lemma BeginHonest(cfg: Config, s: State, id: RequestId, captureAll: bool, captureFailed: bool)
    requires Honest(s) && Queued(s) && (id in s.history.used ==> id in s.journeys)
    ensures Honest(Begin(cfg, s, id, captureAll, captureFailed).0)
  {
    hide Extends, AdmitFor, Honest, HonestBut, Count, Ordered, Accounted;
    if Begin(cfg, s, id, captureAll, captureFailed).1 {
      var j := FreshJourney(captureAll, captureFailed);
      var s1 := s.(sealReserved := s.sealReserved + CLOSE_SEAL_RESERVATION_BYTES, journeys := s.journeys[id := j],
                   history := s.history.(used := s.history.used + {id},
                       offers := s.history.offers[id := Offer([], [])]));
      var m := Append(id, 0, BeginPayload);
      NewJourneyHonest(s, s1, id, j);
      BeginIsAdmitFor(cfg, s, s1, id, captureAll, captureFailed);
      AdmitForExtends(cfg, s1, m, j, id, 0);
      BegunHonest(cfg, s1, id, j);
      CarryHonest(s1, AdmitFor(cfg, s1, m, j).0, id, 0, j);
    }
  }

  lemma BeginIsAdmitFor(cfg: Config, s: State, s1: State, id: RequestId, captureAll: bool, captureFailed: bool)
    requires Begin(cfg, s, id, captureAll, captureFailed).1
    requires s1 == s.(sealReserved := s.sealReserved + CLOSE_SEAL_RESERVATION_BYTES,
                      journeys := s.journeys[id := FreshJourney(captureAll, captureFailed)],
                      history := s.history.(used := s.history.used + {id},
                          offers := s.history.offers[id := Offer([], [])]))
    ensures var j := FreshJourney(captureAll, captureFailed);
            && AdmitFor(cfg, s1, Append(id, 0, BeginPayload), j).2
            && Begin(cfg, s, id, captureAll, captureFailed).0 ==
                 SetJourney(AdmitFor(cfg, s1, Append(id, 0, BeginPayload), j).0, id, j)
  {
    var j := FreshJourney(captureAll, captureFailed);
    assert s1.journeys[id := j] == s1.journeys;
  }

  lemma BegunHonest(cfg: Config, s: State, id: RequestId, j: Journey)
    requires HonestFor(s, id, j) && RejectionsKnown(s)
    ensures var (s', _, ok) := AdmitFor(cfg, s, Append(id, 0, BeginPayload), j); ok ==> HonestFor(s', id, j)
  {
    hide AdmitFor, Tells, HonestFor;
    var m := Append(id, 0, BeginPayload);
    AdmitForExtends(cfg, s, m, j, id, 0);
    var (s', _, ok) := AdmitFor(cfg, s, m, j);
    if ok { AdmittedIsMute(cfg, s, m, id, j); MuteHonest(s, s', id, j); }
  }

  lemma AdmittedIsMute(cfg: Config, s: State, m: Message, id: RequestId, j: Journey)
    requires Mute(m, id)
    ensures var log := AdmitFor(cfg, s, m, j).0.history.log;
            forall i :: |s.history.log| <= i < |log| ==> Mute(log[i].message, id) && log[i].stamp == i
  {
  }

  lemma NewJourneyHonest(s: State, s1: State, id: RequestId, j: Journey)
    requires Honest(s) && Queued(s) && id !in s.history.used && j.artifacts == []
    requires s1.journeys == s.journeys[id := j] && s1.pending == s.pending
    requires s1.history == s.history.(used := s.history.used + {id}, offers := s.history.offers[id := Offer([], [])])
    ensures HonestBut(s1, id) && HonestFor(s1, id, j) && RejectionsKnown(s1)
  {
    var log := s.history.log;
    forall i | 0 <= i < |log| ensures log[i].message.RuntimeEvent? || log[i].message.id != id {
      assert NumberedEntry(s, log[i].message);
    }
    MuteAlike([], log, id);
    forall other | other in s1.journeys && other != id ensures HonestFor(s1, other, s1.journeys[other]) {
      SameAccounts(s, s1, other, s.journeys[other]);
    }
  }

  lemma ObserveHonest(cfg: Config, s: State, id: RequestId, fact: Fact, reading: Reading)
    requires Honest(s) && Queued(s)
    ensures Honest(Observe(cfg, s, id, fact, reading))
  {
    hide Extends, AdmitFor, SetJourney, HonestBut, Accounted;
    if s.Serving() && id in s.journeys {
      var j := s.journeys[id];
      var s1 := OfferFact(s, id, fact);
      OfferedHonest(s, s1, id);
      ExtendsRefl(s1, id, 0);
      CarryHonest(s1, s1, id, 0, j.(degraded := true));
      CarryHonest(s1, s1, id, 0, j.(sequence := j.sequence + 1, degraded := true));
      CarryHonest(s1, s1, id, 0, Observed(j).(degraded := true));
      var m := Append(id, Observed(j).sequence, FactPayload(fact));
      AdmitForExtends(cfg, s1, m, Observed(j), id, Observed(j).sequence);
      var (s', j', ok) := AdmitFor(cfg, s1, m, Observed(j));
      ObservedHonest(cfg, s, id, fact);
      CarryHonest(s1, s', id, Observed(j).sequence,
                  if ok then NotePrimary(j'.(lastKnownLocation := Some(fact.location)), fact) else j');
    }
  }

  lemma ObservedHonest(cfg: Config, s: State, id: RequestId, fact: Fact)
    requires Honest(s) && id in s.journeys
    ensures var j := Observed(s.journeys[id]);
            var (s', j', ok) := AdmitFor(cfg, OfferFact(s, id, fact), Append(id, j.sequence, FactPayload(fact)), j);
            && (ok ==> HonestFor(s', id, NotePrimary(j'.(lastKnownLocation := Some(fact.location)), fact)))
            && (!ok ==> HonestFor(s', id, j'))
  {
    hide AdmitFor, Is, Number, Ids, Count, FactsOf;
    var j := Observed(s.journeys[id]);
    var m := Append(id, j.sequence, FactPayload(fact));
    assert forall w :: !Is(m, id, w) by { NoArtifactTold(m, id); }
    SameRejections(s, OfferFact(s, id, fact), id);
    AdmitForTells(cfg, OfferFact(s, id, fact), m, j, id);
  }

  lemma NoArtifactTold(m: Message, id: RequestId)
    requires m.Append? && m.payload.FactPayload?
    ensures forall w :: !Is(m, id, w)
  {
  }

  lemma SameRejections(s: State, s1: State, id: RequestId)
    requires s1.history.log == s.history.log && s1.history.nacked == s.history.nacked
    ensures NoneRejected(s, id) == NoneRejected(s1, id) && RejectionsKnown(s) == RejectionsKnown(s1)
  {
  }

  lemma OpenHonest(cfg: Config, s: State, id: RequestId, a: ArtifactId, reading: Reading, original: Option<nat>)
    requires Honest(s) && Queued(s)
    ensures Honest(OpenArtifact(cfg, s, id, a, reading, original).0)
  {
    hide Extends, AdmitFor, SetJourney, HonestBut, Accounted, FlightIndex, NewFlight;
    if s.Serving() && id in s.journeys {
      var j := s.journeys[id];
      var s1 := OfferArtifact(s, id, a);
      OfferedHonest(s, s1, id);
      ExtendsRefl(s1, id, 0);
      CarryHonest(s1, s1, id, 0, j.(degraded := true));
      CarryHonest(s1, s1, id, 0, Observed(j).(degraded := true));
      var j2, d := Observed(j), OpenDescriptor(a, original);
      var m := ArtifactBegin(id, a, d);
      AdmitForExtends(cfg, s1, m, j2, id, j2.sequence);
      var (s', j', ok) := AdmitFor(cfg, s1, m, j2);
      OpenedHonest(cfg, s, id, a, d);
      CarryHonest(s1, s', id, j2.sequence, j'.(artifacts := j'.artifacts + [NewFlight(j2.sequence, d, ok)]));
    }
  }

  lemma OpenedHonest(cfg: Config, s: State, id: RequestId, a: ArtifactId, d: Descriptor)
    requires Honest(s) && id in s.journeys && d.artifactId == a
    ensures var j := Observed(s.journeys[id]);
            var (s', j', ok) := AdmitFor(cfg, OfferArtifact(s, id, a), ArtifactBegin(id, a, d), j);
            HonestFor(s', id, j'.(artifacts := j'.artifacts + [NewFlight(j.sequence, d, ok)]))
  {
    hide AdmitFor, Number, Count, FactsOf, Ids;
    var j := Observed(s.journeys[id]);
    var m := ArtifactBegin(id, a, d);
    SameRejections(s, OfferArtifact(s, id, a), id);
    AdmitForTells(cfg, OfferArtifact(s, id, a), m, j, id);
    var (s', j', ok) := AdmitFor(cfg, OfferArtifact(s, id, a), m, j);
    var f := NewFlight(j.sequence, d, ok);
    if ok && !j'.degraded {
      IdsAppend(j.artifacts, f);
      TalliedOpen(s.history.log, s'.history.log, id, j.artifacts, f, m);
    }
  }

  lemma IdsAppend(flights: seq<Flight>, f: Flight)
    ensures Ids(flights + [f]) == Ids(flights) + [f.descriptor.artifactId]
  {
  }

  lemma TalliedOpen(log: seq<Entry>, log': seq<Entry>, id: RequestId, flights: seq<Flight>, f: Flight, m: Message)
    requires Tallied(log, id, flights) && Tells(log, log', m, id)
    requires m.ArtifactBegin? && m.id == id && m.artifact == f.descriptor.artifactId && !f.finished
    ensures Tallied(log', id, flights + [f])
  {
    hide Number, Count;
    forall a
      ensures Count(log', id, Opens(a)) == Number(flights + [f], a, false)
      ensures Count(log', id, Finishes(a)) == Number(flights + [f], a, true)
    {
      NumberAppend(flights, f, a, false);
      NumberAppend(flights, f, a, true);
    }
  }

  lemma TalliedFinish(log: seq<Entry>, log': seq<Entry>, id: RequestId, flights: seq<Flight>, k: nat, f: Flight,
      m: Message)
    requires Tallied(log, id, flights) && Tells(log, log', m, id) && k < |flights|
    requires m.ArtifactFinish? && m.id == id && m.artifact == f.descriptor.artifactId ==
               flights[k].descriptor.artifactId
    requires f.finished && !flights[k].finished
    ensures Tallied(log', id, flights[k := f])
  {
    hide Number, Count;
    forall a
      ensures Count(log', id, Opens(a)) == Number(flights[k := f], a, false)
      ensures Count(log', id, Finishes(a)) == Number(flights[k := f], a, true)
    {
      NumberUpdate(flights, k, f, a, false);
      NumberUpdate(flights, k, f, a, true);
    }
  }

  /** A recorder that changes without finishing. */
  lemma TalliedSame(log: seq<Entry>, log': seq<Entry>, id: RequestId, flights: seq<Flight>, k: nat, f: Flight)
    requires Tallied(log, id, flights) && Alike(log, log', id) && k < |flights|
    requires f.descriptor.artifactId == flights[k].descriptor.artifactId && f.finished == flights[k].finished
    ensures Tallied(log', id, flights[k := f]) && Ids(flights[k := f]) == Ids(flights)
  {
    hide Number, Count;
    forall a
      ensures Count(log', id, Opens(a)) == Number(flights[k := f], a, false)
      ensures Count(log', id, Finishes(a)) == Number(flights[k := f], a, true)
    {
      NumberUpdate(flights, k, f, a, false);
      NumberUpdate(flights, k, f, a, true);
    }
  }

  lemma FinishHonest(cfg: Config, s: State, id: RequestId, a: ArtifactId, input: FinishInput)
    requires Honest(s) && Queued(s)
    ensures Honest(FinishArtifact(cfg, s, id, a, input))
  {
    hide Extends, AdmitFor, SetJourney, HonestBut, Accounted, FlightIndex, Ordered;
    if id in s.journeys && HasFlight(s.journeys[id].artifacts, a) {
      var j := s.journeys[id];
      var k := FlightIndex(j.artifacts, a);
      var f := j.artifacts[k];
      if !f.finished && input.BadFinish? {
        var s1 := RecordBreak(s, id, a);
        OfferedHonest(s, s1, id);
        ExtendsRefl(s1, id, 0);
        CarryHonest(s1, s1, id, 0, j.(degraded := true, artifacts := j.artifacts[k := BrokenFlight(f)]));
      } else if !f.finished {
        OfferedHonest(s, s, id);
        var m := FinishMessage(id, f, input);
        AdmitForExtends(cfg, s, m, j, id, j.sequence);
        var (s', j', ok) := AdmitFor(cfg, s, m, j);
        FinishedHonest(cfg, s, id, k, m);
        CarryHonest(s, s', id, j.sequence, j'.(artifacts := j.artifacts[k := FinishedFlight(f, m, ok)]));
      }
    }
  }

  lemma FinishedHonest(cfg: Config, s: State, id: RequestId, k: nat, m: Message)
    requires Honest(s) && id in s.journeys && k < |s.journeys[id].artifacts|
    requires m.ArtifactFinish? && m.id == id && m.artifact == s.journeys[id].artifacts[k].descriptor.artifactId
    requires !s.journeys[id].artifacts[k].finished
    ensures var j := s.journeys[id]; var (s', j', ok) := AdmitFor(cfg, s, m, j);
            HonestFor(s', id, j'.(artifacts := j.artifacts[k := FinishedFlight(j.artifacts[k], m, ok)]))
  {
    hide AdmitFor, Number, Count, FactsOf;
    var j := s.journeys[id];
    AdmitForTells(cfg, s, m, j, id);
    var (s', j', ok) := AdmitFor(cfg, s, m, j);
    if ok && !j'.degraded {
      TalliedFinish(s.history.log, s'.history.log, id, j.artifacts, k, FinishedFlight(j.artifacts[k], m, ok), m);
    }
  }

  /** Chunks answer for nothing, and a refused one degrades. */
  lemma {:induction false} AppendChunksMute(cfg: Config, s: State, id: RequestId, j: Journey, f: Flight,
      bytes: seq<Byte>)
    ensures var (s', j', f', _) := AppendChunks(cfg, s, id, j, f, bytes);
            && (j.degraded ==> j'.degraded) && f'.finished == f.finished && f'.descriptor == f.descriptor
            && s.history.log <= s'.history.log && s'.history ==
                 s.history.(log := s'.history.log, posted := s'.history.posted)
            && (forall i :: |s.history.log| <= i < |s'.history.log| ==>
                  Mute(s'.history.log[i].message, id) && s'.history.log[i].stamp == i)
    decreases |bytes|
  {
    hide AdmitFor, Extends, Mute;
    if bytes != [] {
      var n := Min(|bytes|, MAX_ARTIFACT_WRITE_CHUNK_BYTES);
      AppendChunkMute(cfg, s, id, j, f, bytes[..n]);
      var (s', j', f', ok) := AppendChunk(cfg, s, id, j, f, bytes[..n]);
      if ok {
        AppendChunksMute(cfg, s', id, j', f', bytes[n..]);
        var s2 := AppendChunks(cfg, s', id, j', f', bytes[n..]).0;
        forall i | |s.history.log| <= i < |s2.history.log|
            ensures Mute(s2.history.log[i].message, id) && s2.history.log[i].stamp == i {
          if i < |s'.history.log| { assert s2.history.log[i] == s'.history.log[i]; }
        }
      }
    }
  }

  lemma AppendChunkMute(cfg: Config, s: State, id: RequestId, j: Journey, f: Flight, chunk: seq<Byte>)
    ensures var (s', j', f', _) := AppendChunk(cfg, s, id, j, f, chunk);
            && (j.degraded ==> j'.degraded) && f'.finished == f.finished && f'.descriptor == f.descriptor
            && s.history.log <= s'.history.log && s'.history ==
                 s.history.(log := s'.history.log, posted := s'.history.posted)
            && (forall i :: |s.history.log| <= i < |s'.history.log| ==>
                  Mute(s'.history.log[i].message, id) && s'.history.log[i].stamp == i)
  {
    hide HasKey;
  }

  lemma AppendHonest(cfg: Config, s: State, id: RequestId, a: ArtifactId, bytes: seq<Byte>)
    requires Honest(s) && Queued(s)
    ensures Honest(AppendArtifact(cfg, s, id, a, bytes))
  {
    hide Extends, AppendChunks, SetJourney, HonestBut, FlightIndex, HonestFor, Ordered;
    if id in s.journeys && HasFlight(s.journeys[id].artifacts, a) {
      var j := s.journeys[id];
      var k := FlightIndex(j.artifacts, a);
      var f := j.artifacts[k];
      if !f.finished {
        var s1 := RecordAppend(s, id, a, bytes);
        OfferedHonest(s, s1, id);
        RecordedHonest(s, s1);
        if f.accepting {
          var accepted := Accepted(cfg, s1, j, f, |bytes|);
          AppendChunksExtends(cfg, s1, id, j, f, bytes[..accepted]);
          AppendChunksMute(cfg, s1, id, j, f, bytes[..accepted]);
          var (s', j', f', taken) := AppendChunks(cfg, s1, id, j, f, bytes[..accepted]);
          var f2 := AfterAppend(f', |bytes|, accepted, taken);
          AppendedHonest(s1, s', id, j, j', k, f2);
          CarryHonest(s1, s', id, j.sequence, j'.(artifacts := j.artifacts[k := f2]));
        }
      }
    }
  }

  lemma AppendedHonest(s: State, s': State, id: RequestId, j: Journey, j': Journey, k: nat, f: Flight)
    requires HonestFor(s, id, j) && RejectionsKnown(s) && s.history.log <= s'.history.log && k < |j.artifacts|
    requires forall i :: |s.history.log| <= i < |s'.history.log| ==>
               Mute(s'.history.log[i].message, id) && s'.history.log[i].stamp == i
    requires s'.history == s.history.(log := s'.history.log, posted := s'.history.posted)
    requires j.degraded ==> j'.degraded
    requires f.descriptor.artifactId == j.artifacts[k].descriptor.artifactId && f.finished == j.artifacts[k].finished
    ensures HonestFor(s', id, j'.(artifacts := j.artifacts[k := f]))
  {
    hide Mute, Tallied, NoneRejected, Ids;
    if !j'.degraded {
      MuteHonest(s, s', id, j);
      MuteAlike(s'.history.log, s'.history.log, id);
      TalliedSame(s'.history.log, s'.history.log, id, j.artifacts, k, f);
    }
  }

  lemma RecordedHonest(s: State, s1: State)
    requires Honest(s) && s1 == s.(history := s.history.(appended := s1.history.appended))
    ensures Honest(s1)
  {
    hide HonestFor;
    forall id | id in s1.journeys ensures HonestFor(s1, id, s1.journeys[id]) {
      SameAccounts(s, s1, id, s.journeys[id]);
    }
  }

  lemma RemoveHonest(s: State, s': State)
    requires Honest(s) && s'.history.log == s.history.log && s'.history.nacked == s.history.nacked
    requires s'.history.offers == s.history.offers && (s'.journeys == s.journeys || s'.journeys == map[])
    ensures Honest(s')
  {
    hide HonestFor;
    forall id | id in s'.journeys ensures HonestFor(s', id, s'.journeys[id]) {
      SameAccounts(s, s', id, s.journeys[id]);
    }
  }

  lemma RejectHonest(s: State, e: Entry, classification: string)
    requires Honest(s) && Queued(s) && e.stamp < |s.history.log| && s.history.log[e.stamp] == e
    ensures Honest(Reject(s, e, classification))
  {
    hide Tallied, FlightIndex, Numbered, FactsOf, Ids;
    var s' := Reject(s, e, classification);
    forall id | id in s'.journeys && !s'.journeys[id].degraded ensures HonestFor(s', id, s'.journeys[id]) {
      assert HonestFor(s, id, s.journeys[id]);
      assert s'.journeys[id] == s.journeys[id];
      assert e.message.RuntimeEvent? || e.message.id != id;
    }
  }

  lemma SettleHonest(s: State, g: nat, key: Option<Key>, accepted: bool, classification: string)
    requires Honest(s) && Queued(s)
    ensures Honest(Settle(s, g, key, accepted, classification))
  {
    hide Honest, Numbered, Reject;
    if s.worker.current == Some(g) && key.Some? && EntryIndex(s.pending, key.value) < |s.pending| {
      var i := EntryIndex(s.pending, key.value);
      RemoveHonest(s, Remove(s, i));
      RemoveQueued(s, i);
      RejectHonest(Remove(s, i), s.pending[i], classification);
    } else {
      RemoveHonest(s, Settle(s, g, key, accepted, classification));
    }
  }

  lemma GrowsHonest(s: State, s': State)
    requires Honest(s) && Grows(s, s') && s'.history.offers == s.history.offers
    requires s'.journeys.Keys <= s.journeys.Keys && forall id :: id in s'.journeys ==> s'.journeys[id] == s.journeys[id]
    requires forall i, id :: |s.history.log| <= i < |s'.history.log| && id in s'.journeys ==>
               s'.history.log[i].message.RuntimeEvent? || s'.history.log[i].message.id != id
    ensures Honest(s')
  {
    hide HonestFor;
    forall id | id in s'.journeys ensures HonestFor(s', id, s'.journeys[id]) {
      MuteHonest(s, s', id, s.journeys[id]);
    }
  }

  lemma CloseHonest(cfg: Config, s: State, id: RequestId, input: CloseInput, course: Course)
    requires Honest(s) && Queued(s)
    ensures Honest(Close(cfg, s, id, input, course))
  {
    hide PrepareClose, SealClose, Honest, CourseTaken;
    if s.Serving() && id in s.journeys {
      var taken := CourseTaken(s.journeys[id], input, course);
      ExtractFlights(s, id);
      PrepareCloseExtends(cfg, s, id, input, taken);
      var (s1, j1, seal) := PrepareClose(cfg, s, id, input, taken);
      SealGrows(cfg, s1, id, j1, seal, taken);
      GrowsTrans(s, s1, SealClose(cfg, s1, id, j1, seal, taken).0);
      GrowsHonest(s, Close(cfg, s, id, input, course));
    }
  }

  lemma RuntimeEventHonest(cfg: Config, s: State, clock: bool)
    requires Honest(s) && Queued(s)
    ensures Honest(RuntimeEventOffered(cfg, s, clock))
  {
    hide Honest;
    GrowsHonest(s, RuntimeEventOffered(cfg, s, clock));
  }

  lemma StepHonest(cfg: Config, s: State, a: Action)
    requires Honest(s) && Queued(s) && Fresh(s, a)
    ensures Honest(Step(cfg, s, a))
  {
    hide Begin, Observe, OpenArtifact, AppendArtifact, FinishArtifact, Close, Settle, Queued, Honest,
         RuntimeEventOffered;
    match a
    case DoBegin(id, all, failed) => BeginHonest(cfg, s, id, all, failed);
    case DoObserve(id, fact, reading) => ObserveHonest(cfg, s, id, fact, reading);
    case DoOpen(id, artifact, reading, original) => OpenHonest(cfg, s, id, artifact, reading, original);
    case DoAppend(id, artifact, bytes) => AppendHonest(cfg, s, id, artifact, bytes);
    case DoFinish(id, artifact, finish) => FinishHonest(cfg, s, id, artifact, finish);
    case DoClose(id, input, course) => CloseHonest(cfg, s, id, input, course);
    case DoRuntimeEvent(clock) => RuntimeEventHonest(cfg, s, clock);
    case DoSettle(g, key, accepted, classification) => SettleHonest(s, g, key, accepted, classification);
    case DoReady(_) => RemoveHonest(s, Step(cfg, s, a));
    case DoFail(_) => RemoveHonest(s, Step(cfg, s, a));
    case DoStartupFailure(_) => RemoveHonest(s, Step(cfg, s, a));
    case DoStart(_) => RemoveHonest(s, Step(cfg, s, a));
    case DoBeginShutdown => RemoveHonest(s, Step(cfg, s, a));
    case DoEndShutdown => RemoveHonest(s, Step(cfg, s, a));
  }

  lemma {:induction false} JourneysAreHonest(cfg: Config, actions: seq<Action>)
    requires Legal(cfg, actions)
    ensures Honest(After(cfg, actions))
  {
    hide Step, Queued;
    if actions != [] {
      JourneysAreHonest(cfg, actions[..|actions| - 1]);
      QueueIsOrdered(cfg, actions[..|actions| - 1]);
      StepHonest(cfg, After(cfg, actions[..|actions| - 1]), actions[|actions| - 1]);
    }
  }

  // ------------------------------------------------------------------- seal

  /** A report of each of these artifacts was added to the tale of a journey. */
  ghost predicate ReportsTold(log: seq<Entry>, log': seq<Entry>, id: RequestId, flights: seq<Flight>) {
    && FactsOf(log', id) == FactsOf(log, id)
    && forall w :: Count(log', id, w) == Count(log, id, w) +
         (if w.Reports? then Number(flights, w.artifact, false) else 0)
  }

  lemma OneReportTold(log: seq<Entry>, log': seq<Entry>, m: Message, id: RequestId, f: Flight)
    requires Tells(log, log', m, id)
    requires m.Append? && m.id == id && m.payload.ArtifactPayload? &&
               m.payload.descriptor.artifactId == f.descriptor.artifactId
    ensures ReportsTold(log, log', id, [f])
  {
    hide Count, FactsOf;
    assert [f][1..] == [];
    assert forall a :: Number([f], a, false) == (if f.descriptor.artifactId == a then 1 else 0);
  }

  lemma ReportsTogether(a: seq<Entry>, b: seq<Entry>, c: seq<Entry>, id: RequestId, flights: seq<Flight>)
    requires flights != []
    requires ReportsTold(a, b, id, [flights[0]]) && ReportsTold(b, c, id, flights[1..])
    ensures ReportsTold(a, c, id, flights)
  {
    hide Count, FactsOf;
    assert [flights[0]][1..] == [];
    forall a2 ensures Number(flights, a2, false) == Number([flights[0]], a2, false) + Number(flights[1..], a2, false) {
      assert Number([], a2, false) == 0;
    }
    forall w ensures Count(c, id, w) == Count(a, id, w) +
        (if w.Reports? then Number(flights, w.artifact, false) else 0) {
      assert Count(b, id, w) == Count(a, id, w) + (if w.Reports? then Number([flights[0]], w.artifact, false) else 0);
    }
  }

  lemma FlushFlightTells(cfg: Config, s: State, id: RequestId, j: Journey, f: Flight, outcome: Outcome)
    requires RejectionsKnown(s)
    ensures var (s', j') := FlushFlight(cfg, s, id, j, f, outcome);
            && (j.degraded ==> j'.degraded)
            && OfferOf(s', id) == OfferOf(s, id) && RejectionsKnown(s')
            && (!j'.degraded ==>
                  && f.finished
                  && ReportsTold(s.history.log, s'.history.log, id, [f])
                  && (NoneRejected(s, id) ==> NoneRejected(s', id)))
  {
    hide AdmitFor, Count, FactsOf, NoneRejected, RejectionsKnown, FinalDescriptor, Tells, ReportsTold;
    var j0 := if f.finished then j else j.(degraded := true);
    var d := FinalDescriptor(j0, f, outcome);
    SameArtifactReported(j0, f, outcome);
    var m := Append(id, f.sequence, ArtifactPayload(d));
    AdmitForTells(cfg, s, m, j0, id);
    var (s1, j1, ok) := AdmitFor(cfg, s, m, j0);
    var s' := FlushFlight(cfg, s, id, j, f, outcome).0;
    if ok {
      OneReportTold(s.history.log, s1.history.log, m, id, f);
      SameRejections(s1, s', id);
    } else {
      var m' := Append(id, f.sequence, ArtifactPayload(d.(state := Unavailable, reason := Some(QUEUE_EXHAUSTED))));
      AdmitForTells(cfg, s1, m', j1, id);
      SameRejections(AdmitFor(cfg, s1, m', j1).0, s', id);
    }
  }

  lemma SameArtifactReported(j: Journey, f: Flight, outcome: Outcome)
    ensures FinalDescriptor(j, f, outcome).artifactId == f.descriptor.artifactId
  {
  }

  /** Reporting the artifacts at close: one report each, or the journey is degraded. */
  lemma {:induction false} FlushFlightsTell(cfg: Config, s: State, id: RequestId, j: Journey, flights: seq<Flight>,
      outcome: Outcome)
    requires RejectionsKnown(s)
    ensures var (s', j') := FlushFlights(cfg, s, id, j, flights, outcome);
            && (j.degraded ==> j'.degraded)
            && OfferOf(s', id) == OfferOf(s, id)
            && (!j'.degraded ==>
                  && (forall i :: 0 <= i < |flights| ==> flights[i].finished)
                  && ReportsTold(s.history.log, s'.history.log, id, flights)
                  && (NoneRejected(s, id) ==> NoneRejected(s', id)))
    decreases |flights|
  {
    hide NoneRejected, RejectionsKnown, FlushFlight, Count, FactsOf;
    if flights == [] {
      assert ReportsTold(s.history.log, s.history.log, id, flights);
    } else {
      FlushFlightTells(cfg, s, id, j, flights[0], outcome);
      var (s', j') := FlushFlight(cfg, s, id, j, flights[0], outcome);
      FlushFlightsTell(cfg, s', id, j', flights[1..], outcome);
      var (s2, j2) := FlushFlights(cfg, s', id, j', flights[1..], outcome);
      assert forall i :: 1 <= i < |flights| ==> flights[i] == flights[1..][i - 1];
      if !j2.degraded { ReportsTogether(s.history.log, s'.history.log, s2.history.log, id, flights); }
    }
  }

  predicate NoRepeats(ids: seq<ArtifactId>) { forall i, k :: 0 <= i < k < |ids| ==> ids[i] != ids[k] }

  /** The observations that were admitted are exactly those offered, in their order; each artifact that was offered
      was opened, finished and reported once, and no other was; and none of these messages has been rejected. */
  ghost predicate Whole(s: State, id: RequestId) {
    var (log, offer) := (s.history.log, OfferOf(s, id));
    && FactsOf(log, id) == offer.facts
    && NoRepeats(offer.artifacts)
    && (forall a ::
          Count(log, id, Opens(a)) == Count(log, id, Finishes(a)) == Count(log, id, Reports(a)) ==
              (if a in offer.artifacts then 1 else 0))
    && NoneRejected(s, id)
  }

  lemma ReportedWhole(s: State, s': State, id: RequestId, flights: seq<Flight>)
    requires Accounted(s, id, flights) && Distinct(flights) && forall i :: 0 <= i < |flights| ==> flights[i].finished
    requires ReportsTold(s.history.log, s'.history.log, id, flights) && OfferOf(s', id) == OfferOf(s, id)
    requires NoneRejected(s', id)
    ensures Whole(s', id)
  {
    hide Count, FactsOf, NoneRejected, Number;
    var (log, ids) := (s'.history.log, OfferOf(s, id).artifacts);
    forall a ensures Count(log, id, Opens(a)) == Count(log, id, Finishes(a)) == Count(log, id, Reports(a)) ==
        (if a in ids then 1 else 0) {
      NumberOfDistinct(flights, a, false);
      NumberOfDistinct(flights, a, true);
      assert Count(s.history.log, id, Opens(a)) == Number(flights, a, false);
    }
    assert forall i :: 0 <= i < |flights| ==> ids[i] == flights[i].descriptor.artifactId;
  }

  lemma PreparedWhole(cfg: Config, s: State, id: RequestId, input: CloseInput, course: Course)
    requires Honest(s) && Queued(s) && id in s.journeys && Distinct(s.journeys[id].artifacts)
    ensures var (s1, j1, seal) := PrepareClose(cfg, s, id, input, course);
            seal.complete ==>
              && course.Smooth? && Whole(s1, id)
              && input.CloseRecord? && input.complete && CarriesAll(input, s.journeys[id], seal)
  {
    hide FlushFlights, Numbered, Ordered, Extends, Whole, Accounted, ReportsTold, NoneRejected, Distinct, CarriesAll,
         RecordFallback, ProjectSeal;
    var j := s.journeys[id];
    var (s2, j3, seal) := PrepareClose(cfg, s, id, input, course);
    if seal.complete {
      ExtractFlights(s, id);
      assert course.Smooth?;
      var seal0 := ProjectSeal(input, j);
      var j0 := j.(finalOutcome := Some(seal0.outcome));
      DegradedSealIsIncomplete(cfg, s, id, j0, seal0);
      assert j.artifacts[..|j.artifacts|] == j.artifacts;
      NoFallback(cfg, s, id, j0, seal0);
      FlushFlightsTell(cfg, s, id, j0, j.artifacts, seal0.outcome);
      assert !j.degraded;
      AccountedRejections(s, id, j.artifacts);
      ReportedWhole(s, s2, id, j.artifacts);
    }
  }

  lemma AccountedRejections(s: State, id: RequestId, flights: seq<Flight>)
    requires Accounted(s, id, flights)
    ensures NoneRejected(s, id)
  {
  }

  lemma NoFallback(cfg: Config, s: State, id: RequestId, j: Journey, seal: Seal)
    ensures !NeedsFallback(j, seal) ==> RecordFallback(cfg, s, id, j, seal) == (s, j, seal)
  {
  }

  lemma DegradedSealIsIncomplete(cfg: Config, s: State, id: RequestId, j: Journey, seal: Seal)
    requires FlightsNumbered(j)
    ensures NeedsFallback(j, seal) ==>
              var (s1, j1, _) := RecordFallback(cfg, s, id, j, seal);
              FlushFlights(cfg, s1, id, j1, j1.artifacts[..|j1.artifacts|], seal.outcome).1.degraded
  {
    hide FlushFlights, ProjectSeal, Extends;
    if NeedsFallback(j, seal) {
      FallbackExtends(cfg, s, id, j, seal);
      var (s1, j1, _) := RecordFallback(cfg, s, id, j, seal);
      FlushFlightsExtends(cfg, s1, id, j1, j1.artifacts[..|j1.artifacts|], seal.outcome);
    }
  }

  /**
   An honest seal: if the seal that a close admits says "complete", then the journey's admitted observations are
   exactly those that the handler offered, in their order; every artifact it opened has one begin, one finish and
   one report; nothing was rejected before the close; and the seal carries all of the handler's own input, which
   called the journey complete.
   */
  lemma CompleteSealIsHonest(cfg: Config, actions: seq<Action>, id: RequestId, input: CloseInput, course: Course,
      q: nat, seal: Seal)
    requires Legal(cfg, actions) && After(cfg, actions).Serving() && id in After(cfg, actions).journeys
    requires var log := Close(cfg, After(cfg, actions), id, input, course).history.log;
             |log| > 0 && log[|log| - 1].message == Append(id, q, SealPayload(seal)) && seal.complete
    ensures Whole(Close(cfg, After(cfg, actions), id, input, course), id)
    ensures input.CloseRecord? && input.complete && CarriesAll(input, After(cfg, actions).journeys[id], seal)
  {
    hide Exact, Queued, Extends, After, Legal, PrepareClose, SealClose, Honest, Step, Artifacts, Whole, Distinct,
         CourseTaken, CarriesAll;
    var s := After(cfg, actions);
    QueueIsOrdered(cfg, actions);
    JourneysAreHonest(cfg, actions);
    ArtifactsAreSound(cfg, actions);
    DifferentArtifacts(s, id);
    var taken := CourseTaken(s.journeys[id], input, course);
    PreparedWhole(cfg, s, id, input, taken);
    ExtractFlights(s, id);
    PrepareCloseExtends(cfg, s, id, input, taken);
    var (s1, j1, p) := PrepareClose(cfg, s, id, input, taken);
    LastIsNoSeal(s, s1, id, j1.sequence - 1);
    ExtendedRejections(s, s1, id, j1.sequence - 1);
    SealedWhole(cfg, s1, id, j1, p, q, seal, taken);
    SameWhole(SealClose(cfg, s1, id, j1, p, taken).0, Close(cfg, s, id, input, course), id);
  }

  lemma DifferentArtifacts(s: State, id: RequestId)
    requires Artifacts(s) && id in s.journeys
    ensures Distinct(s.journeys[id].artifacts)
  {
  }

  lemma SameWhole(s: State, s': State, id: RequestId)
    requires Whole(s, id) && s'.history == s.history
    ensures Whole(s', id)
  {
  }

  lemma LastIsNoSeal(s: State, s1: State, id: RequestId, q: nat)
    requires Queued(s) && id in s.journeys && Extends(s, s1, id, q)
    ensures |s1.history.log| > 0 ==>
              var last := s1.history.log[|s1.history.log| - 1].message; !(IsSeal(last) && last.id == id)
  {
    if |s1.history.log| > 0 && |s1.history.log| == |s.history.log| {
      assert s1.history.log == s.history.log;
      assert NumberedEntry(s, s.history.log[|s.history.log| - 1].message);
    }
  }

  lemma ExtendedRejections(s: State, s1: State, id: RequestId, q: nat)
    requires Honest(s) && Extends(s, s1, id, q)
    ensures RejectionsKnown(s1)
  {
  }

  lemma SealedWhole(cfg: Config, s1: State, id: RequestId, j1: Journey, p: Seal, q: nat, seal: Seal, course: Course)
    requires |s1.history.log| > 0 ==>
               var last := s1.history.log[|s1.history.log| - 1].message; !(IsSeal(last) && last.id == id)
    requires var log := SealClose(cfg, s1, id, j1, p, course).0.history.log;
             |log| > 0 && log[|log| - 1].message == Append(id, q, SealPayload(seal)) && seal.complete
    requires p.complete ==> Whole(s1, id)
    requires RejectionsKnown(s1)
    ensures p == seal && Whole(SealClose(cfg, s1, id, j1, p, course).0, id)
  {
    hide Whole, HasKey;
    var s2 := AdmitSeal(cfg, s1, id, j1, p).0;
    assert AdmitSeal(cfg, s1, id, j1, p).2;
    SealKeepsWhole(s1, s2, id);
  }

  lemma SealKeepsWhole(s1: State, s2: State, id: RequestId)
    requires |s2.history.log| == |s1.history.log| + 1 && s1.history.log <= s2.history.log
    requires s2.history.log[|s1.history.log|].stamp == |s1.history.log| &&
               IsSeal(s2.history.log[|s1.history.log|].message)
    requires s2.history.nacked == s1.history.nacked && s2.history.offers == s1.history.offers
    requires RejectionsKnown(s1) && Whole(s1, id)
    ensures Whole(s2, id)
  {
    hide Count, FactsOf;
    MuteAlike(s1.history.log, s2.history.log, id);
  }
}
