/** Artifact bytes: what the admitted chunks of an artifact amount to. */
module LedgerArtifacts {
  import opened Options
  import opened Ledger
  import opened LedgerRuns
  import opened LedgerOrder

  predicate ChunkOf(m: Message, id: RequestId, a: ArtifactId) { m.ArtifactChunk? && m.id == id && m.artifact == a }
  predicate FinishOf(m: Message, id: RequestId, a: ArtifactId) { m.ArtifactFinish? && m.id == id && m.artifact == a }
  predicate Concerns(m: Message, id: RequestId, a: ArtifactId) { ChunkOf(m, id, a) || FinishOf(m, id, a) }

  /** The bytes of an artifact's chunks, put together in the order of admission. */
  function Content(log: seq<Entry>, id: RequestId, a: ArtifactId): seq<Byte> {
    if log == [] then []
    else Content(log[..|log| - 1], id, a) + (if ChunkOf(log[|log| - 1].message, id, a)
        then log[|log| - 1].message.bytes else [])
  }

  function Chunks(log: seq<Entry>, id: RequestId, a: ArtifactId): nat {
    if log == [] then 0
    else Chunks(log[..|log| - 1], id, a) + (if ChunkOf(log[|log| - 1].message, id, a) then 1 else 0)
  }

  /** Chunk n of an artifact carries index n, and starts where the chunks before it end. */
  predicate Tiles(log: seq<Entry>, id: RequestId, a: ArtifactId) {
    forall i :: 0 <= i < |log| && ChunkOf(log[i].message, id, a) ==>
      log[i].message.index == Chunks(log[..i], id, a) && log[i].message.offset == |Content(log[..i], id, a)|
  }

  /** A finish that says "complete" covers every byte offered before it. */
  ghost predicate FinishesWhole(s: State, id: RequestId, a: ArtifactId) {
    forall i ::
      0 <= i < |s.history.log| && FinishOf(s.history.log[i].message, id, a) && s.history.log[i].message.complete ==>
        Content(s.history.log, id, a) == AppendedTo(s, id, a) &&
        s.history.log[i].message.originalBytes == |AppendedTo(s, id, a)|
  }

  /** The admitted chunks of an artifact tile a prefix of the bytes offered for it. */
  ghost predicate Sound(s: State, id: RequestId, a: ArtifactId) {
    && Tiles(s.history.log, id, a)
    && Content(s.history.log, id, a) <= AppendedTo(s, id, a)
    && FinishesWhole(s, id, a)
  }

  /** A recorder's counters agree with the admitted chunks. */
  ghost predicate Recorded(s: State, id: RequestId, f: Flight) {
    var (log, a) := (s.history.log, f.descriptor.artifactId);
    && f.nextChunkIndex == Chunks(log, id, a)
    && f.capturedBytes == |Content(log, id, a)|
    && (f.accepting ==> Content(log, id, a) == AppendedTo(s, id, a))
    && (!f.finished ==> forall i :: 0 <= i < |log| ==> !FinishOf(log[i].message, id, a))
  }

  /** Nothing has happened yet for an artifact. */
  ghost predicate Untouched(s: State, id: RequestId, a: ArtifactId) {
    && AppendedTo(s, id, a) == []
    && forall i :: 0 <= i < |s.history.log| ==> !Concerns(s.history.log[i].message, id, a)
  }

  ghost predicate JourneyRecorded(s: State, id: RequestId, flights: seq<Flight>) {
    && (forall k :: 0 <= k < |flights| ==> Recorded(s, id, flights[k]))
    && (forall a :: !HasFlight(flights, a) ==> Untouched(s, id, a))
  }

  ghost predicate Artifacts(s: State) {
    && (forall id, a :: Sound(s, id, a))
    && (forall id :: id in s.journeys ==> JourneyRecorded(s, id, s.journeys[id].artifacts))
    && (forall id, a :: id !in s.history.used ==> Untouched(s, id, a))
    && (forall id :: id in s.journeys ==> id in s.history.used && Distinct(s.journeys[id].artifacts))
  }

  /** Recorders of a journey have different artifact identifiers. */
  predicate Distinct(flights: seq<Flight>) {
    forall i, k :: 0 <= i < k < |flights| ==> flights[i].descriptor.artifactId != flights[k].descriptor.artifactId
  }

  // --------------------------------------------------------------- the log

  lemma OneMore(log: seq<Entry>, e: Entry, id: RequestId, a: ArtifactId)
    ensures Content(log + [e], id, a) == Content(log, id, a) +
              (if ChunkOf(e.message, id, a) then e.message.bytes else [])
    ensures Chunks(log + [e], id, a) == Chunks(log, id, a) + (if ChunkOf(e.message, id, a) then 1 else 0)
  {
    assert (log + [e])[..|log + [e]| - 1] == log;
  }

  lemma TilesMore(log: seq<Entry>, e: Entry, id: RequestId, a: ArtifactId)
    requires Tiles(log, id, a)
    requires ChunkOf(e.message, id, a) ==>
               e.message.index == Chunks(log, id, a) && e.message.offset == |Content(log, id, a)|
    ensures Tiles(log + [e], id, a)
  {
    forall i | 0 <= i < |log + [e]| && ChunkOf((log + [e])[i].message, id, a)
      ensures (log + [e])[i].message.index == Chunks((log + [e])[..i], id, a) &&
                (log + [e])[i].message.offset == |Content((log + [e])[..i], id, a)|
    {
      assert (log + [e])[..i] == log[..i];
      if i == |log| { assert log[..i] == log; }
    }
  }

  lemma {:induction false} NoConcern(log: seq<Entry>, log': seq<Entry>, id: RequestId, a: ArtifactId)
    requires log <= log' && forall i :: |log| <= i < |log'| ==> !Concerns(log'[i].message, id, a)
    ensures Content(log', id, a) == Content(log, id, a) && Chunks(log', id, a) == Chunks(log, id, a)
    ensures Tiles(log, id, a) ==> Tiles(log', id, a)
    decreases |log'|
  {
    if |log| < |log'| {
      var n := |log'| - 1;
      NoConcern(log, log'[..n], id, a);
      assert log' == log'[..n] + [log'[n]];
      OneMore(log'[..n], log'[n], id, a);
      if Tiles(log, id, a) { TilesMore(log'[..n], log'[n], id, a); }
    } else {
      assert log == log';
    }
  }

  /** Messages that do not concern an artifact leave everything known about it in place. */
  lemma SoundUnconcerned(s: State, s': State, id: RequestId, a: ArtifactId)
    requires Sound(s, id, a) && s.history.log <= s'.history.log
    requires forall i :: |s.history.log| <= i < |s'.history.log| ==> !Concerns(s'.history.log[i].message, id, a)
    requires AppendedTo(s', id, a) == AppendedTo(s, id, a)
    ensures Sound(s', id, a)
    ensures Untouched(s, id, a) ==> Untouched(s', id, a)
  {
    var log, log' := s.history.log, s'.history.log;
    NoConcern(log, log', id, a);
    forall i | 0 <= i < |log'| && FinishOf(log'[i].message, id, a) && log'[i].message.complete
      ensures log'[i].message.originalBytes == |AppendedTo(s', id, a)| && Content(log', id, a) == AppendedTo(s', id, a)
    {
      assert log'[i] == log[i];
    }
    forall i | 0 <= i < |log'| && Untouched(s, id, a) ensures !Concerns(log'[i].message, id, a) {
      if i < |log| { assert log'[i] == log[i]; }
    }
  }

  lemma RecordedUnconcerned(s: State, s': State, id: RequestId, f: Flight)
    requires Recorded(s, id, f) && s.history.log <= s'.history.log
    requires forall i :: |s.history.log| <= i < |s'.history.log| ==>
               !Concerns(s'.history.log[i].message, id, f.descriptor.artifactId)
    requires AppendedTo(s', id, f.descriptor.artifactId) == AppendedTo(s, id, f.descriptor.artifactId)
    ensures Recorded(s', id, f)
  {
    var log, log' := s.history.log, s'.history.log;
    NoConcern(log, log', id, f.descriptor.artifactId);
    forall i | 0 <= i < |log'| && !f.finished ensures !FinishOf(log'[i].message, id, f.descriptor.artifactId) {
      if i < |log| { assert log'[i] == log[i]; }
    }
  }

  /** What an operation on artifact (`id`, `a`) may do: nothing to any other artifact. */
  ghost predicate Only(s: State, s': State, id: RequestId, a: ArtifactId) {
    && s.history.log <= s'.history.log
    && s'.history.used == s.history.used
    && forall id2, a2 :: (id2, a2) != (id, a) ==>
         && AppendedTo(s', id2, a2) == AppendedTo(s, id2, a2)
         && forall i :: |s.history.log| <= i < |s'.history.log| ==> !Concerns(s'.history.log[i].message, id2, a2)
  }

  lemma OthersUnconcerned(s: State, s': State, id: RequestId, a: ArtifactId, id2: RequestId, flights: seq<Flight>)
    requires Only(s, s', id, a) && JourneyRecorded(s, id2, flights) && (forall i, b :: Sound(s, i, b))
    requires id2 != id
    ensures JourneyRecorded(s', id2, flights)
  {
    forall k | 0 <= k < |flights| ensures Recorded(s', id2, flights[k]) {
      assert (id2, flights[k].descriptor.artifactId) != (id, a);
      RecordedUnconcerned(s, s', id2, flights[k]);
    }
    forall b | !HasFlight(flights, b) ensures Untouched(s', id2, b) {
      SoundUnconcerned(s, s', id2, b);
    }
  }

  /** An operation on one recorder keeps the invariant if it keeps it for that recorder. */
  lemma CarryArtifacts(s: State, s': State, id: RequestId, a: ArtifactId, flights: seq<Flight>)
    requires Artifacts(s) && Only(s, s', id, a)
    requires Sound(s', id, a)
    requires s'.journeys.Keys <= s.journeys.Keys
    requires forall id2 :: id2 in s'.journeys && id2 != id ==> s'.journeys[id2].artifacts == s.journeys[id2].artifacts
    requires id in s'.journeys ==>
               s'.journeys[id].artifacts == flights && Distinct(flights) && JourneyRecorded(s', id, flights)
    requires id in s.history.used || Untouched(s', id, a)
    ensures Artifacts(s')
  {
    hide Sound, Untouched, Recorded, Distinct;
    forall id2, a2 ensures Sound(s', id2, a2) {
      if (id2, a2) != (id, a) { SoundUnconcerned(s, s', id2, a2); }
    }
    forall id2, a2 | id2 !in s'.history.used ensures Untouched(s', id2, a2) {
      if (id2, a2) != (id, a) { SoundUnconcerned(s, s', id2, a2); }
    }
    forall id2 | id2 in s'.journeys ensures JourneyRecorded(s', id2, s'.journeys[id2].artifacts) {
      if id2 != id { OthersUnconcerned(s, s', id, a, id2, s.journeys[id2].artifacts); }
    }
  }

  /** No chunk and no finish was admitted, and no bytes were offered. */
  ghost predicate Quiet(s: State, s': State) {
    && s.history.log <= s'.history.log
    && (forall i :: |s.history.log| <= i < |s'.history.log| ==>
          !s'.history.log[i].message.ArtifactChunk? && !s'.history.log[i].message.ArtifactFinish?)
    && s'.history.appended == s.history.appended
    && s.history.used <= s'.history.used
  }

  /** The same recorders, up to their descriptors. */
  predicate SameBut(flights: seq<Flight>, flights': seq<Flight>) {
    && |flights| == |flights'|
    && forall k :: 0 <= k < |flights| ==>
         flights'[k] == flights[k].(descriptor := flights'[k].descriptor) &&
         flights'[k].descriptor.artifactId == flights[k].descriptor.artifactId
  }

  lemma JourneyQuiet(s: State, s': State, id: RequestId, flights: seq<Flight>, flights': seq<Flight>)
    requires Quiet(s, s') && Artifacts(s) && JourneyRecorded(s, id, flights) && SameBut(flights, flights')
    ensures JourneyRecorded(s', id, flights')
  {
    forall k | 0 <= k < |flights'| ensures Recorded(s', id, flights'[k]) {
      RecordedUnconcerned(s, s', id, flights[k]);
    }
    forall b | !HasFlight(flights', b) ensures Untouched(s', id, b) {
      assert !HasFlight(flights, b);
      SoundUnconcerned(s, s', id, b);
    }
  }

  lemma QuietArtifacts(s: State, s': State)
    requires Artifacts(s) && Quiet(s, s')
    requires forall id :: id in s'.journeys ==>
               && id in s'.history.used && Distinct(s'.journeys[id].artifacts)
               && JourneyRecorded(s', id, s'.journeys[id].artifacts)
    ensures Artifacts(s')
  {
    hide Sound, Untouched, JourneyRecorded, Distinct;
    forall id, a ensures Sound(s', id, a) { SoundUnconcerned(s, s', id, a); }
    forall id, a | id !in s'.history.used ensures Untouched(s', id, a) { SoundUnconcerned(s, s', id, a); }
  }

  /** Every open journey was open before, with the same recorders up to their descriptors. */
  ghost predicate SameRecorders(s: State, s': State) {
    forall id :: id in s'.journeys ==> id in s.journeys && SameBut(s.journeys[id].artifacts, s'.journeys[id].artifacts)
  }

  lemma StillArtifacts(s: State, s': State)
    requires Artifacts(s) && Quiet(s, s') && SameRecorders(s, s')
    ensures Artifacts(s')
  {
    hide JourneyRecorded, Sound, Untouched;
    forall id | id in s'.journeys ensures JourneyRecorded(s', id, s'.journeys[id].artifacts) {
      JourneyQuiet(s, s', id, s.journeys[id].artifacts, s'.journeys[id].artifacts);
    }
    QuietArtifacts(s, s');
  }

  // ------------------------------------------------------------- operations

  /** No chunk or finish is admitted by this message. */
  predicate Silent(m: Message) { !m.ArtifactChunk? && !m.ArtifactFinish? }

  lemma AdmitForQuiet(cfg: Config, s: State, m: Message, j: Journey)
    requires Silent(m)
    ensures Quiet(s, AdmitFor(cfg, s, m, j).0) && AdmitFor(cfg, s, m, j).1.artifacts == j.artifacts
    ensures AdmitFor(cfg, s, m, j).0.journeys == s.journeys
  {
  }

  lemma BeginArtifacts(cfg: Config, s: State, id: RequestId, captureAll: bool, captureFailed: bool)
    requires Artifacts(s) && (id in s.history.used ==> id in s.journeys)
    ensures Artifacts(Begin(cfg, s, id, captureAll, captureFailed).0)
  {
    hide JourneyRecorded, Sound, Untouched, Recorded;
    var s' := Begin(cfg, s, id, captureAll, captureFailed).0;
    if Begin(cfg, s, id, captureAll, captureFailed).1 {
      assert Quiet(s, s');
      forall other | other in s'.journeys ensures JourneyRecorded(s', other, s'.journeys[other].artifacts) {
        if other == id { NothingRecorded(s, s', id); }
        else { JourneyQuiet(s, s', other, s.journeys[other].artifacts, s.journeys[other].artifacts); }
      }
      QuietArtifacts(s, s');
    }
  }

  lemma NothingRecorded(s: State, s': State, id: RequestId)
    requires Artifacts(s) && Quiet(s, s') && id !in s.history.used
    ensures JourneyRecorded(s', id, [])
  {
    forall a ensures Untouched(s', id, a) { SoundUnconcerned(s, s', id, a); }
  }

  lemma ObserveArtifacts(cfg: Config, s: State, id: RequestId, fact: Fact, reading: Reading)
    requires Artifacts(s)
    ensures Artifacts(Observe(cfg, s, id, fact, reading))
  {
    hide Artifacts, AdmitFor;
    var s' := Observe(cfg, s, id, fact, reading);
    if s.Serving() && id in s.journeys {
      var j := Observed(s.journeys[id]);
      AdmitForQuiet(cfg, OfferFact(s, id, fact), Append(id, j.sequence, FactPayload(fact)), j);
    }
    StillArtifacts(s, s');
  }

  lemma OpenArtifacts(cfg: Config, s: State, id: RequestId, a: ArtifactId, reading: Reading, original: Option<nat>)
    requires Artifacts(s)
    ensures Artifacts(OpenArtifact(cfg, s, id, a, reading, original).0)
  {
    hide Artifacts, AdmitFor, FlightIndex;
    var (s', done) := OpenArtifact(cfg, s, id, a, reading, original);
    if s.Serving() && id in s.journeys {
      AdmitForQuiet(cfg, OfferArtifact(s, id, a), ArtifactBegin(id, a, OpenDescriptor(a, original)),
          Observed(s.journeys[id]));
    }
    if done {
      OpenedArtifacts(s, s', id, a, s'.journeys[id].artifacts[|s.journeys[id].artifacts|]);
    } else {
      StillArtifacts(s, s');
    }
  }

  lemma HasFlightAppend(flights: seq<Flight>, f: Flight, b: ArtifactId)
    ensures HasFlight(flights + [f], b) <==> HasFlight(flights, b) || f.descriptor.artifactId == b
  {
    assert (flights + [f])[|flights|] == f;
    if HasFlight(flights, b) { assert (flights + [f])[FlightIndex(flights, b)].descriptor.artifactId == b; }
  }

  lemma OpenedJourney(s: State, s': State, id: RequestId, flights: seq<Flight>, f: Flight)
    requires JourneyRecorded(s', id, flights) && Artifacts(s')
    requires !HasFlight(flights, f.descriptor.artifactId) && f.capturedBytes == 0 && f.nextChunkIndex == 0 &&
               !f.finished
    ensures JourneyRecorded(s', id, flights + [f])
  {
    hide Artifacts, FlightIndex;
    NoConcern([], s'.history.log, id, f.descriptor.artifactId);
    forall b | !HasFlight(flights + [f], b) ensures Untouched(s', id, b) { HasFlightAppend(flights, f, b); }
  }

  lemma OpenedArtifacts(s: State, s': State, id: RequestId, a: ArtifactId, f: Flight)
    requires Artifacts(s) && Quiet(s, s') && id in s.journeys && !HasFlight(s.journeys[id].artifacts, a)
    requires s'.journeys.Keys == s.journeys.Keys && s'.journeys[id].artifacts == s.journeys[id].artifacts + [f]
    requires forall other :: other in s.journeys && other != id ==> s'.journeys[other] == s.journeys[other]
    requires f.descriptor.artifactId == a && f.capturedBytes == 0 && f.nextChunkIndex == 0 && !f.finished
    ensures Artifacts(s')
  {
    hide Sound, Untouched, Recorded, JourneyRecorded, FlightIndex;
    var s0 := s'.(journeys := s.journeys);
    StillArtifacts(s, s0);
    OpenedJourney(s, s0, id, s.journeys[id].artifacts, f);
    forall other | other in s'.journeys ensures JourneyRecorded(s', other, s'.journeys[other].artifacts) {
      SameHistory(s0, s', other, s'.journeys[other].artifacts);
    }
    QuietArtifacts(s0, s');
  }

  lemma SameHistory(s: State, s': State, id: RequestId, flights: seq<Flight>)
    requires JourneyRecorded(s, id, flights) && s'.history == s.history
    ensures JourneyRecorded(s', id, flights)
  {
  }

  /** The chunks that a call of `append` admits, in order, are the bytes it took. */
  lemma {:induction false} AppendChunksContent(cfg: Config, s: State, id: RequestId, j: Journey, f: Flight,
      bytes: seq<Byte>)
    requires var (log, a) := (s.history.log, f.descriptor.artifactId);
             Tiles(log, id, a) && f.nextChunkIndex == Chunks(log, id, a) && f.capturedBytes == |Content(log, id, a)|
    ensures var (s', j', f', taken) := AppendChunks(cfg, s, id, j, f, bytes);
            var (log, a) := (s'.history.log, f.descriptor.artifactId);
            && taken <= |bytes|
            && Content(log, id, a) == Content(s.history.log, id, a) + bytes[..taken]
            && Tiles(log, id, a) && f'.nextChunkIndex == Chunks(log, id, a) && f'.capturedBytes == |Content(log, id, a)|
            && f' == f.(nextChunkIndex := f'.nextChunkIndex, capturedBytes := f'.capturedBytes,
                 accepting := f'.accepting)
            && (f'.accepting ==> f.accepting && taken == |bytes|)
            && s'.history.appended == s.history.appended && s'.history.used == s.history.used
            && s.history.log <= log
            && (forall i :: |s.history.log| <= i < |log| ==> ChunkOf(log[i].message, id, a))
    decreases |bytes|
  {
    hide Content, Chunks, Tiles, AppendChunk;
    if bytes != [] {
      var n := Min(|bytes|, MAX_ARTIFACT_WRITE_CHUNK_BYTES);
      AppendChunkContent(cfg, s, id, j, f, bytes[..n]);
      var (s', j', f', ok) := AppendChunk(cfg, s, id, j, f, bytes[..n]);
      if ok {
        AppendChunksContent(cfg, s', id, j', f', bytes[n..]);
        var taken := AppendChunks(cfg, s', id, j', f', bytes[n..]).3;
        assert bytes[..n] + bytes[n..][..taken] == bytes[..n + taken];
      }
    }
  }

  lemma AppendChunkContent(cfg: Config, s: State, id: RequestId, j: Journey, f: Flight, chunk: seq<Byte>)
    requires var (log, a) := (s.history.log, f.descriptor.artifactId);
             Tiles(log, id, a) && f.nextChunkIndex == Chunks(log, id, a) && f.capturedBytes == |Content(log, id, a)|
    ensures var (s', j', f', ok) := AppendChunk(cfg, s, id, j, f, chunk);
            var (log, a) := (s'.history.log, f.descriptor.artifactId);
            && Content(log, id, a) == Content(s.history.log, id, a) + (if ok then chunk else [])
            && Tiles(log, id, a) && f'.nextChunkIndex == Chunks(log, id, a) && f'.capturedBytes == |Content(log, id, a)|
            && f' == f.(nextChunkIndex := f'.nextChunkIndex, capturedBytes := f'.capturedBytes,
                 accepting := f'.accepting)
            && (f'.accepting ==> f.accepting && ok)
            && s'.history.appended == s.history.appended && s'.history.used == s.history.used
            && s.history.log <= log
            && (forall i :: |s.history.log| <= i < |log| ==> ChunkOf(log[i].message, id, a))
  {
    hide Content, Chunks, Tiles;
    var m := ArtifactChunk(id, f.descriptor.artifactId, f.nextChunkIndex, f.capturedBytes, chunk);
    if Admissible(cfg, s, m, j.finalOutcome).Some? {
      var e := Admissible(cfg, s, m, j.finalOutcome).value;
      OneMore(s.history.log, e, id, f.descriptor.artifactId);
      TilesMore(s.history.log, e, id, f.descriptor.artifactId);
    }
  }

  lemma HasFlightUpdate(flights: seq<Flight>, k: nat, f: Flight, b: ArtifactId)
    requires k < |flights| && f.descriptor.artifactId == flights[k].descriptor.artifactId
    ensures HasFlight(flights[k := f], b) <==> HasFlight(flights, b)
    ensures HasFlight(flights, f.descriptor.artifactId)
  {
    assert flights[k := f][k].descriptor.artifactId == flights[k].descriptor.artifactId;
    if HasFlight(flights, b) { assert flights[k := f][FlightIndex(flights, b)].descriptor.artifactId == b; }
    if HasFlight(flights[k := f], b) { assert flights[FlightIndex(flights[k := f], b)].descriptor.artifactId == b; }
  }

  lemma ReplaceFlight(s: State, s': State, id: RequestId, flights: seq<Flight>, k: nat, f: Flight)
    requires Artifacts(s) && JourneyRecorded(s, id, flights) && Distinct(flights) && k < |flights|
    requires Only(s, s', id, f.descriptor.artifactId) && f.descriptor.artifactId == flights[k].descriptor.artifactId
    requires Recorded(s', id, f)
    ensures JourneyRecorded(s', id, flights[k := f]) && Distinct(flights[k := f])
  {
    hide Sound, Untouched, Recorded, FlightIndex;
    var flights' := flights[k := f];
    forall i | 0 <= i < |flights'| ensures Recorded(s', id, flights'[i]) {
      if i != k {
        assert (id, flights[i].descriptor.artifactId) != (id, f.descriptor.artifactId);
        RecordedUnconcerned(s, s', id, flights[i]);
      }
    }
    forall b | !HasFlight(flights', b) ensures Untouched(s', id, b) {
      HasFlightUpdate(flights, k, f, b);
      assert (id, b) != (id, f.descriptor.artifactId);
      SoundUnconcerned(s, s', id, b);
    }
  }

  /** The recorder's own account after an append. */
  lemma AppendedRecorder(cfg: Config, s: State, id: RequestId, j: Journey, f: Flight, bytes: seq<Byte>, accepted: nat)
    requires Sound(s, id, f.descriptor.artifactId) && Recorded(s, id, f) && !f.finished && f.accepting &&
               accepted <= |bytes|
    ensures var a := f.descriptor.artifactId;
            var (s', j', f', taken) := AppendChunks(cfg, RecordAppend(s, id, a, bytes), id, j, f, bytes[..accepted]);
            && Only(s, s', id, a) && Sound(s', id, a) && Recorded(s', id, AfterAppend(f', |bytes|, accepted, taken))
  {
    hide Content, Chunks, Tiles;
    var a := f.descriptor.artifactId;
    var s1 := RecordAppend(s, id, a, bytes);
    AppendChunksContent(cfg, s1, id, j, f, bytes[..accepted]);
    var (s', j', f', taken) := AppendChunks(cfg, s1, id, j, f, bytes[..accepted]);
    assert bytes[..accepted][..taken] == bytes[..taken];
    if taken == |bytes| { assert bytes[..taken] == bytes; }
    assert Content(s'.history.log, id, a) == AppendedTo(s, id, a) + bytes[..taken];
    assert AppendedTo(s', id, a) == AppendedTo(s, id, a) + bytes;
    forall i | 0 <= i < |s'.history.log| ensures !FinishOf(s'.history.log[i].message, id, a) {
      if i < |s.history.log| { assert s'.history.log[i] == s.history.log[i]; }
    }
  }

  lemma RefusedRecorder(s: State, id: RequestId, f: Flight, bytes: seq<Byte>)
    requires Sound(s, id, f.descriptor.artifactId) && Recorded(s, id, f) && !f.finished && !f.accepting
    ensures var a := f.descriptor.artifactId; var s1 := RecordAppend(s, id, a, bytes);
            Only(s, s1, id, a) && Sound(s1, id, a) && Recorded(s1, id, f)
  {
    hide Content, Chunks, Tiles;
  }

  lemma AppendArtifacts(cfg: Config, s: State, id: RequestId, a: ArtifactId, bytes: seq<Byte>)
    requires Artifacts(s)
    ensures Artifacts(AppendArtifact(cfg, s, id, a, bytes))
  {
    hide Sound, Untouched, Recorded, Only, AppendChunks, FlightIndex;
    if id in s.journeys && HasFlight(s.journeys[id].artifacts, a) {
      var j := s.journeys[id];
      var k := FlightIndex(j.artifacts, a);
      var f := j.artifacts[k];
      var s' := AppendArtifact(cfg, s, id, a, bytes);
      if !f.finished {
        if f.accepting {
          var s1 := RecordAppend(s, id, a, bytes);
          var accepted := Accepted(cfg, s1, j, f, |bytes|);
          AppendedRecorder(cfg, s, id, j, f, bytes, accepted);
          AppendChunksExtends(cfg, s1, id, j, f, bytes[..accepted]);
          SameArtifact(cfg, s1, id, j, f, bytes[..accepted]);
          var (s2, j2, f2, taken) := AppendChunks(cfg, s1, id, j, f, bytes[..accepted]);
          RecorderArtifacts(s, s2, s', id, a, k, AfterAppend(f2, |bytes|, accepted, taken));
        } else {
          RefusedRecorder(s, id, f, bytes);
          assert j.artifacts[k := f] == j.artifacts;
          RecorderArtifacts(s, s', s', id, a, k, f);
        }
      }
    }
  }

  lemma SameArtifact(cfg: Config, s: State, id: RequestId, j: Journey, f: Flight, bytes: seq<Byte>)
    ensures AppendChunks(cfg, s, id, j, f, bytes).2.descriptor == f.descriptor
    decreases |bytes|
  {
    hide AdmitFor;
    if bytes != [] {
      var n := Min(|bytes|, MAX_ARTIFACT_WRITE_CHUNK_BYTES);
      var (s', j', f', ok) := AppendChunk(cfg, s, id, j, f, bytes[..n]);
      if ok { SameArtifact(cfg, s', id, j', f', bytes[n..]); }
    }
  }

  /** The invariant of one artifact does not depend on the open journeys. */
  lemma Rejourney(s: State, s1: State, s2: State, id: RequestId, a: ArtifactId, flights: seq<Flight>)
    requires s1.history == s2.history
    ensures Only(s, s1, id, a) ==> Only(s, s1.(journeys := s2.journeys), id, a)
    ensures Sound(s1, id, a) ==> Sound(s1.(journeys := s2.journeys), id, a)
    ensures JourneyRecorded(s1, id, flights) ==> JourneyRecorded(s1.(journeys := s2.journeys), id, flights)
  {
  }

  /** The recorder's own account after its finish. */
  lemma FinishedRecorder(cfg: Config, s: State, id: RequestId, j: Journey, f: Flight, input: FinishInput)
    requires Sound(s, id, f.descriptor.artifactId) && Recorded(s, id, f) && !f.finished && input.Finish?
    ensures var a := f.descriptor.artifactId; var m := FinishMessage(id, f, input);
            var (s', j', ok) := AdmitFor(cfg, s, m, j);
            && Only(s, s', id, a) && Sound(s', id, a) && Recorded(s', id, FinishedFlight(f, m, ok))
            && s'.journeys == s.journeys && j'.artifacts == j.artifacts
  {
    hide Content, Chunks, Tiles;
    var a := f.descriptor.artifactId;
    var m := FinishMessage(id, f, input);
    if Admissible(cfg, s, m, j.finalOutcome).Some? {
      var e := Admissible(cfg, s, m, j.finalOutcome).value;
      OneMore(s.history.log, e, id, a);
      if Tiles(s.history.log, id, a) { TilesMore(s.history.log, e, id, a); }
    }
  }

  /** And after a finish that broke off. */
  lemma BrokenRecorder(s: State, id: RequestId, a: ArtifactId, f: Flight)
    requires Sound(s, id, a) && Recorded(s, id, f) && f.descriptor.artifactId == a
    ensures var s' := RecordBreak(s, id, a); Only(s, s', id, a) && Sound(s', id, a) && Recorded(s', id, BrokenFlight(f))
  {
    hide Content, Chunks, Tiles;
  }

  lemma FinishArtifacts(cfg: Config, s: State, id: RequestId, a: ArtifactId, input: FinishInput)
    requires Artifacts(s)
    ensures Artifacts(FinishArtifact(cfg, s, id, a, input))
  {
    hide Sound, Untouched, Recorded, Only, AdmitFor, FlightIndex;
    if id in s.journeys && HasFlight(s.journeys[id].artifacts, a) {
      var j := s.journeys[id];
      var k := FlightIndex(j.artifacts, a);
      var f := j.artifacts[k];
      var s' := FinishArtifact(cfg, s, id, a, input);
      if !f.finished && input.BadFinish? {
        BrokenRecorder(s, id, a, f);
        RecorderArtifacts(s, RecordBreak(s, id, a), s', id, a, k, BrokenFlight(f));
      } else if !f.finished {
        var m := FinishMessage(id, f, input);
        FinishedRecorder(cfg, s, id, j, f, input);
        var (s1, j1, ok) := AdmitFor(cfg, s, m, j);
        RecorderArtifacts(s, s1, s', id, a, k, FinishedFlight(f, m, ok));
      }
    }
  }

  /** An operation on one recorder of an open journey. */
  lemma RecorderArtifacts(s: State, s1: State, s': State, id: RequestId, a: ArtifactId, k: nat, f: Flight)
    requires Artifacts(s) && id in s.journeys && k < |s.journeys[id].artifacts|
    requires Only(s, s1, id, a) && Sound(s1, id, a) && Recorded(s1, id, f)
    requires s.journeys[id].artifacts[k].descriptor.artifactId == f.descriptor.artifactId == a
    requires s'.history == s1.history && s'.journeys.Keys == s.journeys.Keys
    requires s'.journeys[id].artifacts == s.journeys[id].artifacts[k := f]
    requires forall other :: other in s.journeys && other != id ==>
               s'.journeys[other].artifacts == s.journeys[other].artifacts
    ensures Artifacts(s')
  {
    hide Sound, Untouched, Recorded, Only, FlightIndex;
    var flights := s.journeys[id].artifacts[k := f];
    ReplaceFlight(s, s1, id, s.journeys[id].artifacts, k, f);
    Rejourney(s, s1, s', id, a, flights);
    CarryArtifacts(s, s1.(journeys := s'.journeys), id, a, flights);
    SameInvariant(s1.(journeys := s'.journeys), s');
  }

  lemma SameInvariant(s: State, s': State)
    requires Artifacts(s) && s'.history == s.history && s'.journeys == s.journeys
    ensures Artifacts(s')
  {
    hide Artifacts;
    StillArtifacts(s, s');
  }

  lemma RejectArtifacts(s: State, e: Entry, classification: string)
    requires Artifacts(s)
    ensures Artifacts(Reject(s, e, classification))
  {
    hide Artifacts, FlightIndex;
    StillArtifacts(s, Reject(s, e, classification));
  }

  lemma SettleArtifacts(s: State, g: nat, key: Option<Key>, accepted: bool, classification: string)
    requires Artifacts(s)
    ensures Artifacts(Settle(s, g, key, accepted, classification))
  {
    hide Artifacts, Reject;
    if s.worker.current == Some(g) && key.Some? && EntryIndex(s.pending, key.value) < |s.pending| {
      var i := EntryIndex(s.pending, key.value);
      StillArtifacts(s, Remove(s, i));
      RejectArtifacts(Remove(s, i), s.pending[i], classification);
    } else {
      StillArtifacts(s, Settle(s, g, key, accepted, classification));
    }
  }

  // ------------------------------------------------------------------ close

  lemma {:induction false} FlushFlightsQuiet(cfg: Config, s: State, id: RequestId, j: Journey, flights: seq<Flight>,
      outcome: Outcome)
    ensures Quiet(s, FlushFlights(cfg, s, id, j, flights, outcome).0)
    ensures FlushFlights(cfg, s, id, j, flights, outcome).0.journeys == s.journeys
    decreases |flights|
  {
    hide AdmitFor, FinalDescriptor, FlushFlight;
    if flights != [] {
      FlushFlightQuiet(cfg, s, id, j, flights[0], outcome);
      var (s', j') := FlushFlight(cfg, s, id, j, flights[0], outcome);
      FlushFlightsQuiet(cfg, s', id, j', flights[1..], outcome);
    }
  }

  lemma FlushFlightQuiet(cfg: Config, s: State, id: RequestId, j: Journey, f: Flight, outcome: Outcome)
    ensures Quiet(s, FlushFlight(cfg, s, id, j, f, outcome).0)
    ensures FlushFlight(cfg, s, id, j, f, outcome).0.journeys == s.journeys
  {
    hide AdmitFor, FinalDescriptor;
    var j0 := if f.finished then j else j.(degraded := true);
    var d := FinalDescriptor(j0, f, outcome);
    var m := Append(id, f.sequence, ArtifactPayload(d));
    AdmitForQuiet(cfg, s, m, j0);
    var (s1, j1, _) := AdmitFor(cfg, s, m, j0);
    AdmitForQuiet(cfg, s1, Append(id, f.sequence, ArtifactPayload(d.(state := Unavailable,
        reason := Some(QUEUE_EXHAUSTED)))), j1);
  }

  lemma FallbackQuiet(cfg: Config, s: State, id: RequestId, j: Journey, seal: Seal)
    ensures Quiet(s, RecordFallback(cfg, s, id, j, seal).0)
    ensures RecordFallback(cfg, s, id, j, seal).0.journeys == s.journeys
  {
    hide ProjectSeal;
  }

  lemma SealQuiet(cfg: Config, s: State, id: RequestId, j: Journey, seal: Seal, course: Course)
    ensures Quiet(s, SealClose(cfg, s, id, j, seal, course).0)
    ensures SealClose(cfg, s, id, j, seal, course).0.journeys == s.journeys
  {
  }

  lemma CloseArtifacts(cfg: Config, s: State, id: RequestId, input: CloseInput, course: Course)
    requires Artifacts(s)
    ensures Artifacts(Close(cfg, s, id, input, course))
  {
    hide Artifacts, RecordFallback, FlushFlights, SealClose, ProjectSeal, CourseTaken;
    if s.Serving() && id in s.journeys {
      var taken := CourseTaken(s.journeys[id], input, course);
      var j := s.journeys[id];
      var seal0 := ProjectSeal(input, j);
      var j0 := j.(finalOutcome := Some(seal0.outcome));
      FallbackQuiet(cfg, s, id, j0, seal0);
      var (s1, j1, _) := RecordFallback(cfg, s, id, j0, seal0);
      FlushFlightsQuiet(cfg, s1, id, j1, j1.artifacts[..ReportsOf(j1.artifacts, taken)], seal0.outcome);
      var (s2, j2, seal) := PrepareClose(cfg, s, id, input, taken);
      SealQuiet(cfg, s2, id, j2, seal, taken);
    }
    StillArtifacts(s, Close(cfg, s, id, input, course));
  }

  lemma RuntimeEventArtifacts(cfg: Config, s: State, clock: bool)
    requires Artifacts(s)
    ensures Artifacts(RuntimeEventOffered(cfg, s, clock))
  {
    hide Artifacts;
    StillArtifacts(s, RuntimeEventOffered(cfg, s, clock));
  }

  lemma StepArtifacts(cfg: Config, s: State, a: Action)
    requires Artifacts(s) && Fresh(s, a)
    ensures Artifacts(Step(cfg, s, a))
  {
    hide Begin, Observe, OpenArtifact, AppendArtifact, FinishArtifact, Close, Settle, Artifacts, RuntimeEventOffered;
    match a
    case DoBegin(id, all, failed) => BeginArtifacts(cfg, s, id, all, failed);
    case DoObserve(id, fact, reading) => ObserveArtifacts(cfg, s, id, fact, reading);
    case DoOpen(id, artifact, reading, original) => OpenArtifacts(cfg, s, id, artifact, reading, original);
    case DoAppend(id, artifact, bytes) => AppendArtifacts(cfg, s, id, artifact, bytes);
    case DoFinish(id, artifact, finish) => FinishArtifacts(cfg, s, id, artifact, finish);
    case DoClose(id, input, course) => CloseArtifacts(cfg, s, id, input, course);
    case DoRuntimeEvent(clock) => RuntimeEventArtifacts(cfg, s, clock);
    case DoSettle(g, key, accepted, classification) => SettleArtifacts(s, g, key, accepted, classification);
    case DoReady(_) => StillArtifacts(s, Step(cfg, s, a));
    case DoFail(_) => StillArtifacts(s, Step(cfg, s, a));
    case DoStartupFailure(_) => StillArtifacts(s, Step(cfg, s, a));
    case DoStart(_) => StillArtifacts(s, Step(cfg, s, a));
    case DoBeginShutdown => StillArtifacts(s, Step(cfg, s, a));
    case DoEndShutdown => StillArtifacts(s, Step(cfg, s, a));
  }

  /** In every reachable state, the chunks admitted for an artifact are numbered from 0 and tile a prefix of
      the bytes offered for it; a finish that says "complete" covers all of them. */
  lemma {:induction false} ArtifactsAreSound(cfg: Config, actions: seq<Action>)
    requires Legal(cfg, actions)
    ensures Artifacts(After(cfg, actions))
  {
    hide Step;
    if actions != [] {
      ArtifactsAreSound(cfg, actions[..|actions| - 1]);
      StepArtifacts(cfg, After(cfg, actions[..|actions| - 1]), actions[|actions| - 1]);
    }
  }
}
