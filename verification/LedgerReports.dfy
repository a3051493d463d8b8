/** What a close reports of an artifact, and exactly which rejections reach the report. */
module LedgerReports {
  import opened Options
  import opened Ledger
  import opened LedgerRuns
  import opened LedgerOrder
  import opened LedgerArtifacts
  import opened LedgerKeys

  /** A message of an artifact: its begin, one of its chunks, or its finish. */
  predicate ArtifactOf(m: Message, id: RequestId, a: ArtifactId) {
    !m.RuntimeEvent? && !m.Append? && m.id == id && m.artifact == a
  }

  ghost predicate Begun(s: State, id: RequestId, a: ArtifactId) {
    exists i :: 0 <= i < |s.history.log| && s.history.log[i].message.ArtifactBegin? &&
        ArtifactOf(s.history.log[i].message, id, a)
  }

  /** A message of the artifact that was rejected when `when` messages had been admitted. */
  predicate RejectedAt(s: State, id: RequestId, a: ArtifactId, stamp: nat, when: nat) {
    stamp in s.history.nacked && s.history.nacked[stamp] == when &&
    stamp < |s.history.log| && ArtifactOf(s.history.log[stamp].message, id, a)
  }

  ghost predicate NeverRejected(s: State, id: RequestId, a: ArtifactId) {
    forall stamp, when: nat :: !RejectedAt(s, id, a, stamp, when)
  }

  /** No message of the artifact was rejected after message `i` was admitted. */
  ghost predicate NotRejectedSince(s: State, id: RequestId, a: ArtifactId, i: nat) {
    forall stamp, when: nat :: RejectedAt(s, id, a, stamp, when) ==> when <= i
  }

  /** The finish was admitted, says "complete", and nothing of the artifact was rejected after it. */
  ghost predicate FinishedWhole(s: State, id: RequestId, a: ArtifactId) {
    exists i :: 0 <= i < |s.history.log| && FinishOf(s.history.log[i].message, id, a) &&
        s.history.log[i].message.complete
                && NotRejectedSince(s, id, a, i)
  }

  predicate BrokenOff(s: State, id: RequestId, a: ArtifactId) { (id, a) in s.history.broken }

  /** Everything offered for the artifact was admitted, and nothing of it was rejected at any time. */
  ghost predicate Clean(s: State, id: RequestId, a: ArtifactId) {
    Begun(s, id, a) && Content(s.history.log, id, a) == AppendedTo(s, id, a) && NeverRejected(s, id, a)
  }

  // -------------------------------------------------------------- invariant

  ghost predicate NoFinish(s: State, id: RequestId, a: ArtifactId) {
    forall i :: 0 <= i < |s.history.log| ==> !FinishOf(s.history.log[i].message, id, a)
  }

  ghost predicate JudgedOpen(s: State, id: RequestId, a: ArtifactId, f: Flight) {
    if f.accepting then
      Begun(s, id, a) && Content(s.history.log, id, a) == AppendedTo(s, id, a) &&
      (f.descriptor.state.Captured? <==> NeverRejected(s, id, a))
    else
      f.descriptor.state.Unavailable? &&
      (Begun(s, id, a) ==> |Content(s.history.log, id, a)| < |AppendedTo(s, id, a)|)
  }

  /** A recorder's descriptor says what became of its artifact. */
  ghost predicate Judged(s: State, id: RequestId, f: Flight) {
    var (a, d) := (f.descriptor.artifactId, f.descriptor);
    if f.finished && !BrokenOff(s, id, a) then
      d.state.Captured? && !d.truncated <==> FinishedWhole(s, id, a)
    else
      NoFinish(s, id, a) && !d.truncated &&
      (if f.finished then d.state.Captured? <==> Clean(s, id, a) else !BrokenOff(s, id, a) && JudgedOpen(s, id, a, f))
  }

  /** Nothing has happened yet for an artifact. */
  ghost predicate Unheard(s: State, id: RequestId, a: ArtifactId) {
    && AppendedTo(s, id, a) == [] && !BrokenOff(s, id, a)
    && forall i :: 0 <= i < |s.history.log| ==> !ArtifactOf(s.history.log[i].message, id, a)
  }

  ghost predicate JourneyJudged(s: State, id: RequestId, flights: seq<Flight>) {
    && (forall k :: 0 <= k < |flights| ==> Judged(s, id, flights[k]))
    && (forall a :: !HasFlight(flights, a) ==> Unheard(s, id, a))
  }

  ghost predicate RejectionsDated(s: State) {
    forall n :: n in s.history.nacked ==> n < |s.history.log| && s.history.nacked[n] <= |s.history.log|
  }

  ghost predicate Reported(s: State) {
    && RejectionsDated(s)
    && (forall id :: id in s.journeys ==> JourneyJudged(s, id, s.journeys[id].artifacts))
    && (forall id, a :: id !in s.history.used ==> Unheard(s, id, a))
  }

  // ------------------------------------------------------------------ frame

  /** Nothing happened to an artifact. */
  ghost predicate Same(s: State, s': State, id: RequestId, a: ArtifactId) {
    && s.history.log <= s'.history.log
    && (forall i :: |s.history.log| <= i < |s'.history.log| ==> !ArtifactOf(s'.history.log[i].message, id, a))
    && AppendedTo(s', id, a) == AppendedTo(s, id, a)
    && BrokenOff(s', id, a) == BrokenOff(s, id, a)
    && forall stamp, when: nat :: RejectedAt(s', id, a, stamp, when) == RejectedAt(s, id, a, stamp, when)
  }

  lemma SameContent(s: State, s': State, id: RequestId, a: ArtifactId)
    requires Same(s, s', id, a)
    ensures Content(s'.history.log, id, a) == Content(s.history.log, id, a)
  {
    hide Content, Tiles;
    NoConcern(s.history.log, s'.history.log, id, a);
  }

  lemma SameBegun(s: State, s': State, id: RequestId, a: ArtifactId)
    requires Same(s, s', id, a)
    ensures Begun(s', id, a) == Begun(s, id, a) && NoFinish(s', id, a) == NoFinish(s, id, a)
    ensures NeverRejected(s', id, a) == NeverRejected(s, id, a)
  {
    var log, log' := s.history.log, s'.history.log;
    assert forall i :: 0 <= i < |log| ==> log'[i] == log[i];
    if NoFinish(s, id, a) {
      forall i | 0 <= i < |log'| ensures !FinishOf(log'[i].message, id, a) {
        if i >= |log| { assert !ArtifactOf(log'[i].message, id, a); }
      }
    }
  }

  lemma SameFinish(s: State, s': State, id: RequestId, a: ArtifactId)
    requires Same(s, s', id, a)
    ensures FinishedWhole(s', id, a) == FinishedWhole(s, id, a)
  {
    var log, log' := s.history.log, s'.history.log;
    assert forall i :: 0 <= i < |log| ==>
        log'[i] == log[i] && NotRejectedSince(s', id, a, i) == NotRejectedSince(s, id, a, i);
    forall i | |log| <= i < |log'| ensures !FinishOf(log'[i].message, id, a) {
      assert !ArtifactOf(log'[i].message, id, a);
    }
  }

  lemma JudgedSame(s: State, s': State, id: RequestId, f: Flight)
    requires Judged(s, id, f) && Same(s, s', id, f.descriptor.artifactId)
    ensures Judged(s', id, f)
  {
    hide Content, NoFinish, FinishedWhole, NeverRejected, Begun;
    SameContent(s, s', id, f.descriptor.artifactId);
    SameBegun(s, s', id, f.descriptor.artifactId);
    SameFinish(s, s', id, f.descriptor.artifactId);
  }

  lemma UnheardSame(s: State, s': State, id: RequestId, a: ArtifactId)
    requires Unheard(s, id, a) && Same(s, s', id, a)
    ensures Unheard(s', id, a)
  {
    assert forall i :: 0 <= i < |s.history.log| ==> s'.history.log[i] == s.history.log[i];
  }

  /** Nothing happened to any artifact but one. */
  ghost predicate OnlyThis(s: State, s': State, id: RequestId, a: ArtifactId) {
    forall id2, a2 :: (id2, a2) != (id, a) ==> Same(s, s', id2, a2)
  }

  ghost predicate Still(s: State, s': State) { forall id, a :: Same(s, s', id, a) }

  /** Nothing happened to any artifact; journeys may open without recorders, or end. */
  lemma StillReported(s: State, s': State)
    requires Reported(s) && Still(s, s') && RejectionsDated(s') && s.history.used <= s'.history.used
    requires forall id :: id in s'.journeys ==>
               if id in s.journeys then s'.journeys[id].artifacts == s.journeys[id].artifacts
               else s'.journeys[id].artifacts == [] && id !in s.history.used
    ensures Reported(s')
  {
    hide Judged, Unheard, Same;
    forall id | id in s'.journeys ensures JourneyJudged(s', id, s'.journeys[id].artifacts) {
      forall k | 0 <= k < |s'.journeys[id].artifacts| ensures Judged(s', id, s'.journeys[id].artifacts[k]) {
        JudgedSame(s, s', id, s'.journeys[id].artifacts[k]);
      }
      forall a | !HasFlight(s'.journeys[id].artifacts, a) ensures Unheard(s', id, a) { UnheardSame(s, s', id, a); }
    }
    forall id, a | id !in s'.history.used ensures Unheard(s', id, a) { UnheardSame(s, s', id, a); }
  }

  /** Something happened to the recorder of one artifact. */
  lemma OneReported(s: State, s': State, id: RequestId, a: ArtifactId, flights: seq<Flight>)
    requires Reported(s) && OnlyThis(s, s', id, a) && RejectionsDated(s') && s'.history.used == s.history.used
    requires id in s.journeys && id in s.history.used && s'.journeys.Keys == s.journeys.Keys &&
               s'.journeys[id].artifacts == flights
    requires forall other :: other in s.journeys && other != id ==>
               s'.journeys[other].artifacts == s.journeys[other].artifacts
    requires JourneyJudged(s', id, flights)
    ensures Reported(s')
  {
    hide Judged, Unheard, Same;
    forall other | other in s'.journeys && other != id ensures JourneyJudged(s', other, s'.journeys[other].artifacts) {
      forall k | 0 <= k < |s'.journeys[other].artifacts| ensures Judged(s', other, s'.journeys[other].artifacts[k]) {
        assert (other, s'.journeys[other].artifacts[k].descriptor.artifactId) != (id, a);
        JudgedSame(s, s', other, s'.journeys[other].artifacts[k]);
      }
      forall b | !HasFlight(s'.journeys[other].artifacts, b) ensures Unheard(s', other, b) {
        assert (other, b) != (id, a);
        UnheardSame(s, s', other, b);
      }
    }
    forall id2, b | id2 !in s'.history.used ensures Unheard(s', id2, b) {
      assert (id2, b) != (id, a);
      UnheardSame(s, s', id2, b);
    }
  }

  /** An update of one recorder. */
  lemma ReplaceJudged(s: State, s': State, id: RequestId, flights: seq<Flight>, k: nat, f: Flight)
    requires JourneyJudged(s, id, flights) && Distinct(flights) && k < |flights|
    requires f.descriptor.artifactId == flights[k].descriptor.artifactId
    requires OnlyThis(s, s', id, f.descriptor.artifactId) && Judged(s', id, f)
    ensures JourneyJudged(s', id, flights[k := f])
  {
    hide Judged, Unheard, Same, FlightIndex;
    var flights' := flights[k := f];
    forall i | 0 <= i < |flights'| ensures Judged(s', id, flights'[i]) {
      if i != k {
        assert (id, flights[i].descriptor.artifactId) != (id, f.descriptor.artifactId);
        JudgedSame(s, s', id, flights[i]);
      }
    }
    forall b | !HasFlight(flights', b) ensures Unheard(s', id, b) {
      HasFlightUpdate(flights, k, f, b);
      assert (id, b) != (id, f.descriptor.artifactId);
      UnheardSame(s, s', id, b);
    }
  }

  // ------------------------------------------------------------- operations

  /** Messages that concern no artifact. */
  lemma NumberedStill(s: State, s': State)
    requires s.history.log <= s'.history.log && RejectionsDated(s)
    requires forall i :: |s.history.log| <= i < |s'.history.log| ==>
               s'.history.log[i].message.Append? || s'.history.log[i].message.RuntimeEvent?
    requires s'.history.appended == s.history.appended && s'.history.nacked == s.history.nacked &&
               s'.history.broken == s.history.broken
    ensures Still(s, s') && RejectionsDated(s')
  {
    assert forall i :: 0 <= i < |s.history.log| ==> s'.history.log[i] == s.history.log[i];
  }

  lemma BeginReported(cfg: Config, s: State, id: RequestId, captureAll: bool, captureFailed: bool)
    requires Reported(s) && (id in s.history.used ==> id in s.journeys)
    ensures Reported(Begin(cfg, s, id, captureAll, captureFailed).0)
  {
    hide Reported, Still, RejectionsDated, HasKey;
    var s' := Begin(cfg, s, id, captureAll, captureFailed).0;
    if Begin(cfg, s, id, captureAll, captureFailed).1 {
      DatedNow(s);
      NumberedStill(s, s');
      StillReported(s, s');
    }
  }

  lemma DatedNow(s: State)
    requires Reported(s)
    ensures RejectionsDated(s)
  {
  }

  lemma ObserveReported(cfg: Config, s: State, id: RequestId, fact: Fact, reading: Reading)
    requires Reported(s)
    ensures Reported(Observe(cfg, s, id, fact, reading))
  {
    hide Reported, Still, RejectionsDated, AdmitFor;
    var s' := Observe(cfg, s, id, fact, reading);
    if s.Serving() && id in s.journeys {
      var j := Observed(s.journeys[id]);
      var m := Append(id, j.sequence, FactPayload(fact));
      AdmitForExtends(cfg, OfferFact(s, id, fact), m, j, id, j.sequence);
      AdmitAddsOne(cfg, OfferFact(s, id, fact), m, j);
      DatedNow(s);
      NumberedStill(s, s');
      StillReported(s, s');
    }
  }

  lemma OpenReported(cfg: Config, s: State, id: RequestId, a: ArtifactId, reading: Reading, original: Option<nat>)
    requires Reported(s) && Queued(s)
    ensures Reported(OpenArtifact(cfg, s, id, a, reading, original).0)
  {
    hide Reported, Still, RejectionsDated, AdmitFor, FlightIndex, JourneyJudged, Queued, OnlyThis, NewFlight;
    var (s', done) := OpenArtifact(cfg, s, id, a, reading, original);
    if s.Serving() && id in s.journeys {
      var j := s.journeys[id];
      var s1 := OfferArtifact(s, id, a);
      DatedNow(s);
      NumberedStill(s, s1);
      if done {
        var d := OpenDescriptor(a, original);
        var m := ArtifactBegin(id, a, d);
        AdmitForExtends(cfg, s1, m, Observed(j), id, Observed(j).sequence);
        var ok := AdmitFor(cfg, s1, m, Observed(j)).2;
        ExtractFlights(s, id);
        OpenedJudged(cfg, s, s', id, a, d);
        OneReported(s, s', id, a, j.artifacts + [NewFlight(Observed(j).sequence, d, ok)]);
      } else {
        NumberedStill(s, s');
        StillReported(s, s');
      }
    }
  }

  lemma OpenedJudged(cfg: Config, s: State, s': State, id: RequestId, a: ArtifactId, d: Descriptor)
    requires Reported(s) && id in s.journeys && !HasFlight(s.journeys[id].artifacts, a)
    requires d.artifactId == a && d.state == Captured && !d.truncated
    requires s'.history == AdmitFor(cfg, OfferArtifact(s, id, a), ArtifactBegin(id, a, d),
               Observed(s.journeys[id])).0.history
    ensures var ok := AdmitFor(cfg, OfferArtifact(s, id, a), ArtifactBegin(id, a, d), Observed(s.journeys[id])).2;
            JourneyJudged(s', id, s.journeys[id].artifacts + [NewFlight(Observed(s.journeys[id]).sequence, d, ok)])
    ensures OnlyThis(s, s', id, a) && RejectionsDated(s')
  {
    hide FlightIndex, Judged, HasKey, Unheard;
    var j := s.journeys[id];
    var (_, _, ok) := AdmitFor(cfg, OfferArtifact(s, id, a), ArtifactBegin(id, a, d), Observed(j));
    var f := NewFlight(Observed(j).sequence, d, ok);
    BeginOnly(s, s', id, a, ok);
    NewJudged(s, s', id, f, ok);
    var flights := j.artifacts + [f];
    forall k | 0 <= k < |flights| ensures Judged(s', id, flights[k]) {
      if k < |j.artifacts| {
        assert (id, flights[k].descriptor.artifactId) != (id, a);
        JudgedSame(s, s', id, flights[k]);
      }
    }
    forall b | !HasFlight(flights, b) ensures Unheard(s', id, b) {
      HasFlightAppend(j.artifacts, f, b);
      assert (id, b) != (id, a);
      UnheardSame(s, s', id, b);
    }
  }

  /** What an open adds to the log: the begin of its artifact, or nothing. */
  ghost predicate AddsBegin(s: State, s': State, id: RequestId, a: ArtifactId, ok: bool) {
    && s'.history.appended == s.history.appended && s'.history.nacked == s.history.nacked &&
         s'.history.broken == s.history.broken
    && s.history.log <= s'.history.log && |s'.history.log| == |s.history.log| + (if ok then 1 else 0)
    && (ok ==> var m := s'.history.log[|s.history.log|].message; m.ArtifactBegin? && ArtifactOf(m, id, a))
  }

  lemma BeginOnly(s: State, s': State, id: RequestId, a: ArtifactId, ok: bool)
    requires AddsBegin(s, s', id, a, ok) && RejectionsDated(s)
    ensures OnlyThis(s, s', id, a) && RejectionsDated(s')
  {
    assert forall i :: 0 <= i < |s.history.log| ==> s'.history.log[i] == s.history.log[i];
  }

  lemma NewJudged(s: State, s': State, id: RequestId, f: Flight, ok: bool)
    requires RejectionsDated(s) && Unheard(s, id, f.descriptor.artifactId) &&
               AddsBegin(s, s', id, f.descriptor.artifactId, ok)
    requires !f.finished && !f.descriptor.truncated
    requires f.accepting == ok && f.descriptor.state == (if ok then Captured else Unavailable)
    ensures Judged(s', id, f)
  {
    hide Tiles;
    var a := f.descriptor.artifactId;
    assert forall i :: 0 <= i < |s.history.log| ==> s'.history.log[i] == s.history.log[i];
    NoConcern([], s'.history.log, id, a);
    if ok { assert ArtifactOf(s'.history.log[|s.history.log|].message, id, a); }
  }

  /** Chunks of one artifact, and bytes offered for it. */
  ghost predicate AddsChunksOf(s: State, s': State, id: RequestId, a: ArtifactId) {
    && s.history.log <= s'.history.log
    && (forall i :: |s.history.log| <= i < |s'.history.log| ==> ChunkOf(s'.history.log[i].message, id, a))
    && s'.history.nacked == s.history.nacked && s'.history.broken == s.history.broken
    && forall id2, a2 :: (id2, a2) != (id, a) ==> AppendedTo(s', id2, a2) == AppendedTo(s, id2, a2)
  }

  lemma ChunksOnly(s: State, s': State, id: RequestId, a: ArtifactId)
    requires AddsChunksOf(s, s', id, a) && RejectionsDated(s)
    ensures OnlyThis(s, s', id, a) && RejectionsDated(s')
    ensures Begun(s', id, a) == Begun(s, id, a) && NeverRejected(s', id, a) == NeverRejected(s, id, a)
    ensures NoFinish(s, id, a) ==> NoFinish(s', id, a)
  {
    var log, log' := s.history.log, s'.history.log;
    assert forall i :: 0 <= i < |log| ==> log'[i] == log[i];
    assert forall stamp, when: nat :: RejectedAt(s', id, a, stamp, when) == RejectedAt(s, id, a, stamp, when);
  }

  lemma AppendReported(cfg: Config, s: State, id: RequestId, a: ArtifactId, bytes: seq<Byte>)
    requires Reported(s) && Queued(s) && Artifacts(s)
    ensures Reported(AppendArtifact(cfg, s, id, a, bytes))
  {
    hide Reported, RejectionsDated, AppendChunks, FlightIndex, JourneyJudged, Queued, OnlyThis, Judged, Sound,
         Recorded, Untouched;
    if id in s.journeys && HasFlight(s.journeys[id].artifacts, a) {
      var j := s.journeys[id];
      var k := FlightIndex(j.artifacts, a);
      var f := j.artifacts[k];
      var s' := AppendArtifact(cfg, s, id, a, bytes);
      JudgedHere(s, id, k);
      ExtractFlights(s, id);
      if !f.finished && f.accepting {
        var s1 := RecordAppend(s, id, a, bytes);
        var accepted := Accepted(cfg, s1, j, f, |bytes|);
        AppendChunksExtends(cfg, s1, id, j, f, bytes[..accepted]);
        SameArtifact(cfg, s1, id, j, f, bytes[..accepted]);
        var (s2, j2, f2, taken) := AppendChunks(cfg, s1, id, j, f, bytes[..accepted]);
        var f3 := AfterAppend(f2, |bytes|, accepted, taken);
        AppendedJudged(cfg, s, id, j, f, bytes, accepted);
        JudgedSameHistory(s2, s', id, f3);
        ChunksOnly(s, s', id, a);
        ReplaceJudged(s, s', id, j.artifacts, k, f3);
        OneReported(s, s', id, a, j.artifacts[k := f3]);
      } else if !f.finished {
        RefusedJudged(s, id, f, bytes);
        ChunksOnly(s, s', id, a);
        assert j.artifacts[k := f] == j.artifacts;
        ReplaceJudged(s, s', id, j.artifacts, k, f);
        OneReported(s, s', id, a, j.artifacts);
      }
    }
  }

  lemma JudgedHere(s: State, id: RequestId, k: nat)
    requires Reported(s) && Artifacts(s) && id in s.journeys && k < |s.journeys[id].artifacts|
    ensures Judged(s, id, s.journeys[id].artifacts[k]) && Recorded(s, id, s.journeys[id].artifacts[k])
    ensures Sound(s, id, s.journeys[id].artifacts[k].descriptor.artifactId)
    ensures JourneyJudged(s, id, s.journeys[id].artifacts) && Distinct(s.journeys[id].artifacts) && RejectionsDated(s)
  {
    hide Sound, Recorded, Judged, Unheard, Untouched;
  }

  lemma JudgedSameHistory(s: State, s': State, id: RequestId, f: Flight)
    requires Judged(s, id, f) && s'.history == s.history
    ensures Judged(s', id, f)
  {
    JudgedSame(s, s', id, f);
  }

  lemma AppendedJudged(cfg: Config, s: State, id: RequestId, j: Journey, f: Flight, bytes: seq<Byte>, accepted: nat)
    requires Judged(s, id, f) && Recorded(s, id, f) && Sound(s, id, f.descriptor.artifactId) && RejectionsDated(s)
    requires !f.finished && f.accepting && accepted <= |bytes|
    ensures var a := f.descriptor.artifactId;
            var (s', j', f', taken) := AppendChunks(cfg, RecordAppend(s, id, a, bytes), id, j, f, bytes[..accepted]);
            Judged(s', id, AfterAppend(f', |bytes|, accepted, taken)) && AddsChunksOf(s, s', id, a)
  {
    hide Content, Chunks, Tiles, Begun, NeverRejected, NoFinish, RejectionsDated, Extends, OnlyThis;
    var a := f.descriptor.artifactId;
    var s1 := RecordAppend(s, id, a, bytes);
    AppendChunksContent(cfg, s1, id, j, f, bytes[..accepted]);
    AppendChunksKeepRejections(cfg, s1, id, j, f, bytes[..accepted]);
    var (s', j', f', taken) := AppendChunks(cfg, s1, id, j, f, bytes[..accepted]);
    assert bytes[..accepted][..taken] == bytes[..taken];
    if taken == |bytes| { assert bytes[..taken] == bytes; }
    ChunksOnly(s, s', id, a);
  }

  lemma {:induction false} AppendChunksKeepRejections(cfg: Config, s: State, id: RequestId, j: Journey, f: Flight,
      bytes: seq<Byte>)
    ensures var (s', _, f', taken) := AppendChunks(cfg, s, id, j, f, bytes);
            && s'.history == s.history.(log := s'.history.log, posted := s'.history.posted)
            && (taken == |bytes| ==> f'.accepting == f.accepting)
    decreases |bytes|
  {
    hide HasKey;
    if bytes != [] {
      var n := Min(|bytes|, MAX_ARTIFACT_WRITE_CHUNK_BYTES);
      var (s', j', f', ok) := AppendChunk(cfg, s, id, j, f, bytes[..n]);
      if ok { AppendChunksKeepRejections(cfg, s', id, j', f', bytes[n..]); }
    }
  }

  /** Bytes offered to a recorder that has stopped. */
  lemma RefusedJudged(s: State, id: RequestId, f: Flight, bytes: seq<Byte>)
    requires Judged(s, id, f) && RejectionsDated(s) && !f.finished && !f.accepting
    ensures var s' := RecordAppend(s, id, f.descriptor.artifactId, bytes);
            Judged(s', id, f) && AddsChunksOf(s, s', id, f.descriptor.artifactId)
  {
    hide Content, Begun, NeverRejected, NoFinish, RejectionsDated;
    ChunksOnly(s, RecordAppend(s, id, f.descriptor.artifactId, bytes), id, f.descriptor.artifactId);
  }

  lemma FinishReported(cfg: Config, s: State, id: RequestId, a: ArtifactId, input: FinishInput)
    requires Reported(s) && Queued(s) && Artifacts(s)
    ensures Reported(FinishArtifact(cfg, s, id, a, input))
  {
    hide Reported, RejectionsDated, AdmitFor, FlightIndex, JourneyJudged, Queued, OnlyThis, Judged, Artifacts;
    if id in s.journeys && HasFlight(s.journeys[id].artifacts, a) {
      var j := s.journeys[id];
      var k := FlightIndex(j.artifacts, a);
      var f := j.artifacts[k];
      var s' := FinishArtifact(cfg, s, id, a, input);
      JudgedHere(s, id, k);
      ExtractFlights(s, id);
      if !f.finished && input.BadFinish? {
        BrokenJudged(s, s', id, f);
        ReplaceJudged(s, s', id, j.artifacts, k, BrokenFlight(f));
        OneReported(s, s', id, a, j.artifacts[k := BrokenFlight(f)]);
      } else if !f.finished {
        var m := FinishMessage(id, f, input);
        AdmitForExtends(cfg, s, m, j, id, j.sequence);
        var ok := AdmitFor(cfg, s, m, j).2;
        FinishedJudged(cfg, s, s', id, j, f, m);
        ReplaceJudged(s, s', id, j.artifacts, k, FinishedFlight(f, m, ok));
        OneReported(s, s', id, a, j.artifacts[k := FinishedFlight(f, m, ok)]);
      }
    }
  }

  lemma BrokenJudged(s: State, s': State, id: RequestId, f: Flight)
    requires Judged(s, id, f) && Recorded(s, id, f) && RejectionsDated(s) && !f.finished
    requires s'.history == RecordBreak(s, id, f.descriptor.artifactId).history
    ensures Judged(s', id, BrokenFlight(f)) && OnlyThis(s, s', id, f.descriptor.artifactId) && RejectionsDated(s')
  {
    hide Content, Chunks;
    var a := f.descriptor.artifactId;
    assert forall stamp, when: nat :: RejectedAt(s', id, a, stamp, when) == RejectedAt(s, id, a, stamp, when);
    assert Begun(s', id, a) == Begun(s, id, a);
  }

  lemma FinishedJudged(cfg: Config, s: State, s': State, id: RequestId, j: Journey, f: Flight, m: Message)
    requires Judged(s, id, f) && RejectionsDated(s) && !f.finished
    requires m.ArtifactFinish? && m.id == id && m.artifact == f.descriptor.artifactId
    requires s'.history == AdmitFor(cfg, s, m, j).0.history
    ensures OnlyThis(s, s', id, f.descriptor.artifactId) && RejectionsDated(s')
    ensures Judged(s', id, FinishedFlight(f, m, AdmitFor(cfg, s, m, j).2))
  {
    hide Content, HasKey, Begun;
    var a := f.descriptor.artifactId;
    var log, log' := s.history.log, s'.history.log;
    assert forall i :: 0 <= i < |log| ==> log'[i] == log[i] && !FinishOf(log[i].message, id, a);
    if AdmitFor(cfg, s, m, j).2 {
      assert log'[|log|].message == m && NotRejectedSince(s', id, a, |log|);
    }
  }

  // -------------------------------------------------------------- rejection

  lemma RejectReported(s: State, e: Entry, classification: string)
    requires Reported(s) && Artifacts(s) && e.stamp < |s.history.log| && s.history.log[e.stamp] == e
    ensures Reported(Reject(s, e, classification))
  {
    hide Reported, RejectionsDated, FlightIndex, JourneyJudged, OnlyThis, Judged, Artifacts, Still;
    var s' := Reject(s, e, classification);
    DatedNow(s);
    if e.message.RuntimeEvent? || e.message.Append? {
      OtherRejectionStill(s, s', e);
      StillReported(s, s');
    } else {
      RejectionOnly(s, s', e);
      if e.message.id in s.journeys {
        RecorderRejected(s, e, classification);
      } else {
        ClosedRejection(s, s', e);
      }
    }
  }

  lemma OtherRejectionStill(s: State, s': State, e: Entry)
    requires RejectionsDated(s) && s'.history == RecordRejection(s, e).history
    requires e.stamp < |s.history.log| && s.history.log[e.stamp] == e && (e.message.RuntimeEvent? || e.message.Append?)
    ensures Still(s, s') && RejectionsDated(s')
  {
  }

  lemma RejectionOnly(s: State, s': State, e: Entry)
    requires RejectionsDated(s) && s'.history == RecordRejection(s, e).history
    requires e.stamp < |s.history.log| && s.history.log[e.stamp] == e && !e.message.RuntimeEvent? && !e.message.Append?
    ensures OnlyThis(s, s', e.message.id, e.message.artifact) && RejectionsDated(s')
  {
  }

  lemma ClosedRejection(s: State, s': State, e: Entry)
    requires Reported(s) && s'.history == RecordRejection(s, e).history && s'.journeys == s.journeys
    requires e.stamp < |s.history.log| && s.history.log[e.stamp] == e && !e.message.RuntimeEvent? && !e.message.Append?
    requires e.message.id !in s.journeys && OnlyThis(s, s', e.message.id, e.message.artifact) && RejectionsDated(s')
    ensures Reported(s')
  {
    hide Judged, Same, FlightIndex;
    var id := e.message.id;
    forall other | other in s'.journeys ensures JourneyJudged(s', other, s'.journeys[other].artifacts) {
      forall k | 0 <= k < |s'.journeys[other].artifacts| ensures Judged(s', other, s'.journeys[other].artifacts[k]) {
        assert (other, s'.journeys[other].artifacts[k].descriptor.artifactId) != (id, e.message.artifact);
        JudgedSame(s, s', other, s'.journeys[other].artifacts[k]);
      }
      forall b | !HasFlight(s'.journeys[other].artifacts, b) ensures Unheard(s', other, b) {
        assert (other, b) != (id, e.message.artifact);
        UnheardSame(s, s', other, b);
      }
    }
    HeardIsUsed(s, id, e.message.artifact, e.stamp);
    forall id2, b | id2 !in s'.history.used ensures Unheard(s', id2, b) {
      assert (id2, b) != (id, e.message.artifact);
      UnheardSame(s, s', id2, b);
    }
  }

  /** A rejection finds the recorder of its artifact, and makes its descriptor unavailable. */
  lemma RecorderRejected(s: State, e: Entry, classification: string)
    requires Reported(s) && Artifacts(s) && e.stamp < |s.history.log| && s.history.log[e.stamp] == e
    requires !e.message.RuntimeEvent? && !e.message.Append? && e.message.id in s.journeys
    requires OnlyThis(s, Reject(s, e, classification), e.message.id, e.message.artifact) &&
               RejectionsDated(Reject(s, e, classification))
    ensures Reported(Reject(s, e, classification))
  {
    hide RejectionsDated, FlightIndex, OnlyThis, Judged, Artifacts;
    var (id, a) := (e.message.id, e.message.artifact);
    var s' := Reject(s, e, classification);
    var flights := s.journeys[id].artifacts;
    assert HasFlight(flights, a) by { Heard(s, id, a, e.stamp); }
    var k := FlightIndex(flights, a);
    var d := flights[k].descriptor.(state := Unavailable, capturedBytes := 0, reason := Some(classification));
    var f := flights[k].(descriptor := d);
    JudgedHere(s, id, k);
    UsedHere(s, id);
    RejectedJudged(s, s', id, flights[k], f, e);
    ReplaceJudged(s, s', id, flights, k, f);
    OneReported(s, s', id, a, flights[k := f]);
  }

  lemma UsedHere(s: State, id: RequestId)
    requires Artifacts(s) && id in s.journeys
    ensures id in s.history.used
  {
  }

  lemma Heard(s: State, id: RequestId, a: ArtifactId, i: nat)
    requires Reported(s) && id in s.journeys && i < |s.history.log| && ArtifactOf(s.history.log[i].message, id, a)
    ensures HasFlight(s.journeys[id].artifacts, a)
  {
    hide Judged, FlightIndex;
    var silent := Unheard(s, id, a);
  }

  lemma HeardIsUsed(s: State, id: RequestId, a: ArtifactId, i: nat)
    requires Reported(s) && i < |s.history.log| && ArtifactOf(s.history.log[i].message, id, a)
    ensures id in s.history.used
  {
    hide JourneyJudged;
    var silent := Unheard(s, id, a);
  }

  lemma RejectedJudged(s: State, s': State, id: RequestId, f: Flight, f': Flight, e: Entry)
    requires Judged(s, id, f) && e.stamp < |s.history.log| && s.history.log[e.stamp] == e
    requires ArtifactOf(e.message, id, f.descriptor.artifactId) && s'.history == RecordRejection(s, e).history
    requires f' == f.(descriptor := f'.descriptor) && f'.descriptor.state == Unavailable
    requires f'.descriptor.truncated == f.descriptor.truncated && f'.descriptor.artifactId == f.descriptor.artifactId
    ensures Judged(s', id, f')
  {
    hide Content;
    var a := f.descriptor.artifactId;
    assert RejectedAt(s', id, a, e.stamp, |s.history.log|);
    assert Begun(s', id, a) == Begun(s, id, a) && NoFinish(s', id, a) == NoFinish(s, id, a);
  }

  // ------------------------------------------------------------------- runs

  lemma CloseReported(cfg: Config, s: State, id: RequestId, input: CloseInput, course: Course)
    requires Reported(s) && Queued(s) && Unrepeated(s)
    ensures Reported(Close(cfg, s, id, input, course))
  {
    hide Reported, Queued, PrepareClose, SealClose, CourseTaken, Still, RejectionsDated, Unrepeated, Differ;
    if s.Serving() && id in s.journeys {
      var taken := CourseTaken(s.journeys[id], input, course);
      ExtractFlights(s, id);
      NumbersDistinct(s, id);
      PreparedKeys(cfg, s, id, input, taken);
      PrepareCloseExtends(cfg, s, id, input, taken);
      var (s1, j1, seal) := PrepareClose(cfg, s, id, input, taken);
      SealGrows(cfg, s1, id, j1, seal, taken);
      var (s2, j2, ok) := SealClose(cfg, s1, id, j1, seal, taken);
      ClosedAppends(s, s1, s2, id, j1.sequence, ok);
      DatedNow(s);
      NumberedStill(s, s2);
      NumberedStill(s, Close(cfg, s, id, input, course));
      StillReported(s, Close(cfg, s, id, input, course));
    }
  }

  lemma ClosedAppends(s: State, s1: State, s2: State, id: RequestId, q: nat, ok: bool)
    requires id in s.journeys && s.history.log <= s1.history.log && SealedOnce(s1, s2, id, q, ok)
    requires forall i :: |s.history.log| <= i < |s1.history.log| ==>
               IsCloseKey(s1.history.log[i].Key(), id, s.journeys[id])
    ensures s.history.log <= s2.history.log
    ensures forall i :: |s.history.log| <= i < |s2.history.log| ==> s2.history.log[i].message.Append?
  {
    assert forall i :: 0 <= i < |s1.history.log| ==> s2.history.log[i] == s1.history.log[i];
    forall i | |s.history.log| <= i < |s1.history.log| ensures s2.history.log[i].message.Append? {
      assert IsCloseKey(s1.history.log[i].Key(), id, s.journeys[id]);
    }
  }

  lemma RuntimeEventReported(cfg: Config, s: State, clock: bool)
    requires Reported(s)
    ensures Reported(RuntimeEventOffered(cfg, s, clock))
  {
    hide Reported, Still, RejectionsDated, HasKey;
    DatedNow(s);
    NumberedStill(s, RuntimeEventOffered(cfg, s, clock));
    StillReported(s, RuntimeEventOffered(cfg, s, clock));
  }

  lemma WorkerReported(s: State, s': State)
    requires Reported(s) && s'.history == s.history.(posted := s'.history.posted)
    requires s'.journeys == s.journeys || s'.journeys == map[]
    ensures Reported(s')
  {
    hide Reported, Still, RejectionsDated;
    DatedNow(s);
    NumberedStill(s, s');
    StillReported(s, s');
  }

  lemma SettleReported(s: State, g: nat, key: Option<Key>, accepted: bool, classification: string)
    requires Reported(s) && Queued(s) && Artifacts(s)
    ensures Reported(Settle(s, g, key, accepted, classification))
  {
    hide Reported, Reject, Numbered, Artifacts;
    if s.worker.current == Some(g) && key.Some? && EntryIndex(s.pending, key.value) < |s.pending| {
      var i := EntryIndex(s.pending, key.value);
      WorkerReported(s, Remove(s, i));
      SameRecordersHere(s, Remove(s, i));
      RejectReported(Remove(s, i), s.pending[i], classification);
    } else {
      WorkerReported(s, Settle(s, g, key, accepted, classification));
    }
  }

  lemma SameRecordersHere(s: State, s': State)
    requires Artifacts(s) && s'.history == s.history && s'.journeys == s.journeys
    ensures Artifacts(s')
  {
    hide Artifacts;
    StillArtifacts(s, s');
  }

  lemma StepReported(cfg: Config, s: State, a: Action)
    requires Reported(s) && Queued(s) && Artifacts(s) && Unrepeated(s) && Fresh(s, a)
    ensures Reported(Step(cfg, s, a))
  {
    hide Begin, Observe, OpenArtifact, AppendArtifact, FinishArtifact, Close, Settle, Queued, Artifacts, Unrepeated,
         Reported, RuntimeEventOffered;
    match a
    case DoBegin(id, all, failed) => BeginReported(cfg, s, id, all, failed);
    case DoObserve(id, fact, reading) => ObserveReported(cfg, s, id, fact, reading);
    case DoOpen(id, artifact, reading, original) => OpenReported(cfg, s, id, artifact, reading, original);
    case DoAppend(id, artifact, bytes) => AppendReported(cfg, s, id, artifact, bytes);
    case DoFinish(id, artifact, finish) => FinishReported(cfg, s, id, artifact, finish);
    case DoClose(id, input, course) => CloseReported(cfg, s, id, input, course);
    case DoRuntimeEvent(clock) => RuntimeEventReported(cfg, s, clock);
    case DoSettle(g, key, accepted, classification) => SettleReported(s, g, key, accepted, classification);
    case DoReady(_) => WorkerReported(s, Step(cfg, s, a));
    case DoFail(_) => WorkerReported(s, Step(cfg, s, a));
    case DoStartupFailure(_) => WorkerReported(s, Step(cfg, s, a));
    case DoStart(_) => WorkerReported(s, Step(cfg, s, a));
    case DoBeginShutdown => WorkerReported(s, Step(cfg, s, a));
    case DoEndShutdown => WorkerReported(s, Step(cfg, s, a));
  }

  lemma {:induction false} RunReported(cfg: Config, actions: seq<Action>)
    requires Legal(cfg, actions)
    ensures Reported(After(cfg, actions))
  {
    hide Step, Queued, Artifacts, Unrepeated;
    if actions != [] {
      var front := actions[..|actions| - 1];
      RunReported(cfg, front);
      QueueIsOrdered(cfg, front);
      ArtifactsAreSound(cfg, front);
      RunUnrepeated(cfg, front);
      StepReported(cfg, After(cfg, front), actions[|actions| - 1]);
    }
  }

  /** What makes an artifact reported as captured. */
  ghost predicate CapturedWhole(s: State, id: RequestId, a: ArtifactId, outcome: Outcome)
    requires id in s.journeys
  {
    CaptureEnabled(s.journeys[id], outcome) && (FinishedWhole(s, id, a) || (BrokenOff(s, id, a) && Clean(s, id, a)))
  }

  /**
   What a close will report of an artifact, after any run: "captured" exactly when capture is enabled and either
   the finish of its recorder was admitted, says "complete" and nothing of the artifact was rejected after it; or
   the finish broke off, everything offered was admitted and nothing of it was ever rejected. In particular a
   rejection before a complete finish never reaches the report, and a finish that broke off may leave no trace in
   it. A report that says "captured" counts all bytes that were offered.
   */
  lemma ReportsAreExact(cfg: Config, actions: seq<Action>, id: RequestId, k: nat, outcome: Outcome)
    requires Legal(cfg, actions) && id in After(cfg, actions).journeys &&
               k < |After(cfg, actions).journeys[id].artifacts|
    ensures var s := After(cfg, actions); var f := s.journeys[id].artifacts[k];
            var a := f.descriptor.artifactId; var report := FinalDescriptor(s.journeys[id], f, outcome);
            && (report.state.Captured? <==> CapturedWhole(s, id, a, outcome))
            && (report.state.Captured? ==> report.capturedBytes == |AppendedTo(s, id, a)|)
  {
    hide After, Legal, Reported, Artifacts, Content, Chunks, Tiles;
    var s := After(cfg, actions);
    RunReported(cfg, actions);
    ArtifactsAreSound(cfg, actions);
    JudgedHere(s, id, k);
  }

  /** What a report says: nothing of an artifact that the journey was not opened to capture, or whose recorder never
      finished, and else what the recorder says. A journey captures all its artifacts, or those of a failure. */
  lemma ReportTells(j: Journey, f: Flight, outcome: Outcome)
    ensures var (d, told) := (FinalDescriptor(j, f, outcome), f.descriptor);
            var enabled := j.captureAll || (j.captureFailed && outcome != Success);
            && d.artifactId == told.artifactId && d.originalBytes.Some?
            && (d.state == Captured <==> enabled && f.finished && told.state == Captured && !told.truncated)
            && d.originalBytes.value == (if told.originalBytes.Some? then told.originalBytes.value else f.capturedBytes)
            && (!enabled ==>
                  d.capturedBytes == 0 && d.reason == Some(if outcome == Success then "full_journey_capture_disabled"
                                                           else "failed_journey_capture_disabled"))
            && (enabled && !f.finished ==>
                  d.capturedBytes == 0 && d.reason == Some("artifact_recorder_not_finished"))
            && (enabled && f.finished ==>
                  d.capturedBytes == (if told.state == Captured then f.capturedBytes else 0) && d.reason == told.reason)
  {
  }

  // ------------------------------------------------------- admitted reports

  function Refused(d: Descriptor): Descriptor { d.(state := Unavailable, reason := Some(QUEUE_EXHAUSTED)) }

  predicate ReportsOn(m: Message, j: Journey, f: Flight, outcome: Outcome) {
    m.Append? && m.payload.ArtifactPayload? &&
    var d := FinalDescriptor(j, f, outcome); (m.payload.descriptor == d || m.payload.descriptor == Refused(d))
  }

  /** A message of a close: a report on one of these recorders, or no report at all. */
  predicate IsReport(m: Message, j: Journey, flights: seq<Flight>, outcome: Outcome) {
    m.Append? && m.payload.ArtifactPayload? ==> exists k :: 0 <= k < |flights| && ReportsOn(m, j, flights[k], outcome)
  }

  ghost predicate AddsReports(s: State, s': State, j: Journey, flights: seq<Flight>, outcome: Outcome) {
    && s.history.log <= s'.history.log
    && forall i :: |s.history.log| <= i < |s'.history.log| ==> IsReport(s'.history.log[i].message, j, flights, outcome)
  }

  lemma AdmitAdds(cfg: Config, s: State, m: Message, j: Journey)
    ensures var log := AdmitFor(cfg, s, m, j).0.history.log;
            s.history.log <= log && forall i :: |s.history.log| <= i < |log| ==> log[i].message == m
    ensures AdmitFor(cfg, s, m, j).1 == j.(degraded := AdmitFor(cfg, s, m, j).1.degraded)
  {
    hide HasKey;
  }

  predicate SameCapture(j: Journey, j': Journey) {
    j'.captureAll == j.captureAll && j'.captureFailed == j.captureFailed
  }

  lemma FlushFlightReports(cfg: Config, s: State, id: RequestId, j: Journey, f: Flight, outcome: Outcome)
    ensures var (s', j') := FlushFlight(cfg, s, id, j, f, outcome);
            AddsReports(s, s', j, [f], outcome) && SameCapture(j, j')
  {
    hide AdmitFor, FinalDescriptor;
    var j0 := if f.finished then j else j.(degraded := true);
    SameFinal(j, j0, f, outcome);
    var d := FinalDescriptor(j0, f, outcome);
    var m := Append(id, f.sequence, ArtifactPayload(d));
    assert ReportsOn(m, j, [f][0], outcome);
    AdmitAdds(cfg, s, m, j0);
    RefusedAddsNothing(cfg, s, m, j0);
    var (s1, j1, _) := AdmitFor(cfg, s, m, j0);
    var m' := Append(id, f.sequence, ArtifactPayload(Refused(d)));
    assert ReportsOn(m', j, [f][0], outcome);
    AdmitAdds(cfg, s1, m', j1);
  }

  lemma SameFinal(j: Journey, j': Journey, f: Flight, outcome: Outcome)
    requires SameCapture(j, j')
    ensures FinalDescriptor(j', f, outcome) == FinalDescriptor(j, f, outcome)
  {
  }

  lemma {:induction false} FlushFlightsReport(cfg: Config, s: State, id: RequestId, j: Journey, flights: seq<Flight>,
      outcome: Outcome)
    ensures AddsReports(s, FlushFlights(cfg, s, id, j, flights, outcome).0, j, flights, outcome)
    decreases |flights|
  {
    hide FlushFlight, ReportsOn;
    if flights != [] {
      FlushFlightReports(cfg, s, id, j, flights[0], outcome);
      var (s', j') := FlushFlight(cfg, s, id, j, flights[0], outcome);
      FlushFlightsReport(cfg, s', id, j', flights[1..], outcome);
      ReportsTogether(s, s', FlushFlights(cfg, s', id, j', flights[1..], outcome).0, j, j', flights, outcome);
    }
  }

  lemma ReportsTogether(s: State, s1: State, s2: State, j: Journey, j': Journey, flights: seq<Flight>, outcome: Outcome)
    requires flights != [] && SameCapture(j, j')
    requires AddsReports(s, s1, j, [flights[0]], outcome) && AddsReports(s1, s2, j', flights[1..], outcome)
    ensures AddsReports(s, s2, j, flights, outcome)
  {
    hide FinalDescriptor;
    var log := s2.history.log;
    assert forall i :: 0 <= i < |s1.history.log| ==> log[i] == s1.history.log[i];
    forall i | |s.history.log| <= i < |log| && log[i].message.Append? && log[i].message.payload.ArtifactPayload?
      ensures exists k :: 0 <= k < |flights| && ReportsOn(log[i].message, j, flights[k], outcome)
    {
      if i < |s1.history.log| {
        assert IsReport(s1.history.log[i].message, j, [flights[0]], outcome);
        assert ReportsOn(log[i].message, j, flights[0], outcome);
      } else {
        assert IsReport(log[i].message, j', flights[1..], outcome);
        var k :| 0 <= k < |flights[1..]| && ReportsOn(log[i].message, j', flights[1..][k], outcome);
        SameFinal(j, j', flights[k + 1], outcome);
        assert ReportsOn(log[i].message, j, flights[k + 1], outcome);
      }
    }
  }

  lemma FallbackReports(cfg: Config, s: State, id: RequestId, j: Journey, seal: Seal, flights: seq<Flight>)
    ensures var (s', j', _) := RecordFallback(cfg, s, id, j, seal);
            AddsReports(s, s', j, flights, seal.outcome) && SameCapture(j, j')
  {
    hide HasKey, ProjectSeal, FallbackFact, ReportsOn;
  }

  lemma PreparedReports(cfg: Config, s: State, id: RequestId, input: CloseInput, course: Course)
    requires id in s.journeys && FlightsNumbered(s.journeys[id])
    ensures var j := s.journeys[id];
            AddsReports(s, PrepareClose(cfg, s, id, input, course).0, j, j.artifacts, ProjectSeal(input, j).outcome)
  {
    hide RecordFallback, FlushFlights, ProjectSeal, EndOfClose, AddsReports, Extends;
    var j := s.journeys[id];
    var seal0 := ProjectSeal(input, j);
    var j0 := j.(finalOutcome := Some(seal0.outcome));
    NoReports(s, j, j.artifacts, seal0.outcome);
    FallbackReports(cfg, s, id, j0, seal0, j.artifacts);
    FallbackExtends(cfg, s, id, j0, seal0);
    var (s1, j1, _) := RecordFallback(cfg, s, id, j0, seal0);
    var flights := j.artifacts[..ReportsOf(j.artifacts, course)];
    FlushFlightsReport(cfg, s1, id, j1, flights, seal0.outcome);
    MoreReports(s, s1, FlushFlights(cfg, s1, id, j1, flights, seal0.outcome).0, j, j0, j1, flights, seal0.outcome);
  }

  lemma NoReports(s: State, j: Journey, flights: seq<Flight>, outcome: Outcome)
    ensures AddsReports(s, s, j, flights, outcome)
  {
  }

  lemma MoreReports(s: State, s1: State, s2: State, j: Journey, j0: Journey, j1: Journey, flights: seq<Flight>,
      outcome: Outcome)
    requires SameCapture(j, j0) && SameCapture(j0, j1) && flights <= j.artifacts
    requires AddsReports(s, s1, j0, j.artifacts, outcome) && AddsReports(s1, s2, j1, flights, outcome)
    ensures AddsReports(s, s2, j, j.artifacts, outcome)
  {
    hide FinalDescriptor;
    var log := s2.history.log;
    assert forall i :: 0 <= i < |s1.history.log| ==> log[i] == s1.history.log[i];
    forall i | |s.history.log| <= i < |log| && log[i].message.Append? && log[i].message.payload.ArtifactPayload?
      ensures exists k :: 0 <= k < |j.artifacts| && ReportsOn(log[i].message, j, j.artifacts[k], outcome)
    {
      if i < |s1.history.log| {
        assert IsReport(s1.history.log[i].message, j0, j.artifacts, outcome);
        var k :| 0 <= k < |j.artifacts| && ReportsOn(log[i].message, j0, j.artifacts[k], outcome);
        SameFinal(j, j0, j.artifacts[k], outcome);
        assert ReportsOn(log[i].message, j, j.artifacts[k], outcome);
      } else {
        assert IsReport(log[i].message, j1, flights, outcome);
        var k :| 0 <= k < |flights| && ReportsOn(log[i].message, j1, flights[k], outcome);
        SameFinal(j, j1, j.artifacts[k], outcome);
        assert ReportsOn(log[i].message, j, j.artifacts[k], outcome);
      }
    }
  }

  lemma CloseReports(cfg: Config, s: State, id: RequestId, input: CloseInput, course: Course)
    requires Queued(s) && s.Serving() && id in s.journeys
    ensures var j := s.journeys[id];
            AddsReports(s, Close(cfg, s, id, input, course), j, j.artifacts, ProjectSeal(input, j).outcome)
  {
    hide Queued, PrepareClose, SealClose, CourseTaken, IsReport, ProjectSeal;
    var taken := CourseTaken(s.journeys[id], input, course);
    ExtractFlights(s, id);
    PreparedReports(cfg, s, id, input, taken);
    var (s1, j1, seal) := PrepareClose(cfg, s, id, input, taken);
    SealGrows(cfg, s1, id, j1, seal, taken);
    var (s2, j2, ok) := SealClose(cfg, s1, id, j1, seal, taken);
    SealIsNoReport(s1, s2, id, j1.sequence, ok, s.journeys[id], s.journeys[id].artifacts,
        ProjectSeal(input, s.journeys[id]).outcome);
    assert forall i :: 0 <= i < |s1.history.log| ==> s2.history.log[i] == s1.history.log[i];
  }

  lemma SealIsNoReport(s: State, s': State, id: RequestId, q: nat, ok: bool, j: Journey, flights: seq<Flight>,
      outcome: Outcome)
    requires SealedOnce(s, s', id, q, ok)
    ensures AddsReports(s, s', j, flights, outcome)
  {
    hide ReportsOn;
  }

  /**
   Every report that a close admits, whatever its course, is about one of the journey's artifacts; it says
   "captured" only if the artifact was captured whole, and says so of every such artifact unless the queue was full.
   */
  lemma AdmittedReportsAreExact(cfg: Config, actions: seq<Action>, id: RequestId, input: CloseInput, course: Course,
      i: nat)
    requires Legal(cfg, actions) && After(cfg, actions).Serving() && id in After(cfg, actions).journeys
    requires var s := After(cfg, actions); var log := Close(cfg, s, id, input, course).history.log;
             |s.history.log| <= i < |log| && log[i].message.Append? && log[i].message.payload.ArtifactPayload?
    ensures var s := After(cfg, actions); var j := s.journeys[id]; var outcome := ProjectSeal(input, j).outcome;
            var d := Close(cfg, s, id, input, course).history.log[i].message.payload.descriptor;
            && HasFlight(j.artifacts, d.artifactId)
            && (d.state.Captured? ==> CapturedWhole(s, id, d.artifactId, outcome))
            && (CapturedWhole(s, id, d.artifactId, outcome) ==> d.state.Captured? || d.reason == Some(QUEUE_EXHAUSTED))
  {
    hide After, Legal, Close, ProjectSeal, CapturedWhole, Queued, FlightIndex;
    var s := After(cfg, actions);
    QueueIsOrdered(cfg, actions);
    CloseReports(cfg, s, id, input, course);
    var j := s.journeys[id];
    var outcome := ProjectSeal(input, j).outcome;
    var m := Close(cfg, s, id, input, course).history.log[i].message;
    assert IsReport(m, j, j.artifacts, outcome);
    var k :| 0 <= k < |j.artifacts| && ReportsOn(m, j, j.artifacts[k], outcome);
    ReportsAreExact(cfg, actions, id, k, outcome);
    assert j.artifacts[k].descriptor.artifactId == m.payload.descriptor.artifactId;
  }
}
