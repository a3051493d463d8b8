/** What a recorder takes of the bytes that it is offered: all that fit the caps, unless the queue refuses a chunk. */
module LedgerAppend {
  import opened Options
  import opened Ledger
  import opened LedgerRuns
  import opened LedgerBalance
  import opened LedgerOrder
  import opened LedgerArtifacts

  /** So many bytes more fit the cap of an artifact, and those of the journey and of all journeys together. */
  predicate FitsCaps(cfg: Config, s: State, id: RequestId, a: ArtifactId, n: nat)
    requires id in s.journeys
  {
    && |Content(s.history.log, id, a)| + n <= cfg.maxJsonArtifactBytes
    && s.journeys[id].artifactBytes + n <= cfg.maxJourneyArtifactBytes
    && s.flightBytes + n <= cfg.maxJourneyArtifactBytes
  }

  /** As many of the bytes as fit. */
  predicate IsRoom(cfg: Config, s: State, id: RequestId, a: ArtifactId, bytes: seq<Byte>, room: nat)
    requires id in s.journeys
  {
    room <= |bytes| && FitsCaps(cfg, s, id, a, room) && (room < |bytes| ==> !FitsCaps(cfg, s, id, a, room + 1))
  }

  /** The chunk that comes next. */
  function NextChunk(id: RequestId, f: Flight, bytes: seq<Byte>): Message {
    ArtifactChunk(id, f.descriptor.artifactId, f.nextChunkIndex, f.capturedBytes,
                  bytes[..Min(|bytes|, MAX_ARTIFACT_WRITE_CHUNK_BYTES)])
  }

  /** The queue does not take the next chunk, and the recorder has stopped for it. */
  predicate Refused(cfg: Config, s: State, id: RequestId, j: Journey, f: Flight, rest: seq<Byte>) {
    j.degraded && !f.accepting && Admissible(cfg, s, NextChunk(id, f, rest), j.finalOutcome).None?
  }

  lemma {:induction false} StopsAtRefusal(cfg: Config, s: State, id: RequestId, j: Journey, f: Flight, bytes: seq<Byte>)
    ensures var (s', j', f', taken) := AppendChunks(cfg, s, id, j, f, bytes);
            && taken <= |bytes| && j'.finalOutcome == j.finalOutcome
            && (taken == |bytes| ==> j'.degraded == j.degraded && f'.accepting == f.accepting)
            && (taken < |bytes| ==> Refused(cfg, s', id, j', f', bytes[taken..]))
    decreases |bytes|
  {
    hide Admissible;
    if bytes != [] {
      var n := Min(|bytes|, MAX_ARTIFACT_WRITE_CHUNK_BYTES);
      var (s', j', f', ok) := AppendChunk(cfg, s, id, j, f, bytes[..n]);
      if ok {
        StopsAtRefusal(cfg, s', id, j', f', bytes[n..]);
        var taken := AppendChunks(cfg, s', id, j', f', bytes[n..]).3;
        assert bytes[n..][taken..] == bytes[n + taken..];
      } else {
        assert bytes[0..] == bytes;
      }
    }
  }

  lemma CapsHold(cfg: Config, s: State, id: RequestId, k: nat)
    requires Exact(cfg, s) && Artifacts(s) && id in s.journeys && k < |s.journeys[id].artifacts|
    ensures s.journeys[id].artifacts[k].capturedBytes ==
              |Content(s.history.log, id, s.journeys[id].artifacts[k].descriptor.artifactId)|
    ensures FitsCaps(cfg, s, id, s.journeys[id].artifacts[k].descriptor.artifactId, 0)
  {
    hide Content, Sound, Untouched, Distinct, Chunks, SumHeld;
    assert Recorded(s, id, s.journeys[id].artifacts[k]) && Settled(cfg, s.journeys[id]);
    SumHeldRemove(s.journeys, id, HeldBytes);
    HoldingsNonNegative(cfg, s.journeys - {id});
  }

  /** The bytes that are accepted are all that fit. */
  lemma AcceptedIsRoom(cfg: Config, s: State, s1: State, id: RequestId, k: nat, bytes: seq<Byte>)
    requires id in s.journeys && k < |s.journeys[id].artifacts| && s1.flightBytes == s.flightBytes
    requires var f := s.journeys[id].artifacts[k];
             f.capturedBytes == |Content(s.history.log, id, f.descriptor.artifactId)| &&
             FitsCaps(cfg, s, id, f.descriptor.artifactId, 0)
    ensures var f := s.journeys[id].artifacts[k];
            IsRoom(cfg, s, id, f.descriptor.artifactId, bytes, Accepted(cfg, s1, s.journeys[id], f, |bytes|))
  {
    hide Content;
  }

  /** What became of an append: the bytes up to `taken` are in the log, and the recorder says what stopped it. */
  ghost predicate Taken(cfg: Config, s: State, s': State, id: RequestId, k: nat, bytes: seq<Byte>, room: nat,
      taken: nat)
    requires id in s.journeys && k < |s.journeys[id].artifacts|
  {
    var f := s.journeys[id].artifacts[k];
    var a := f.descriptor.artifactId;
    && taken <= room && id in s'.journeys && k < |s'.journeys[id].artifacts|
    && IsRoom(cfg, s, id, a, bytes, room)
    && Content(s'.history.log, id, a) == Content(s.history.log, id, a) + bytes[..taken]
    && var (j', f') := (s'.journeys[id], s'.journeys[id].artifacts[k]);
       && (taken == room ==> j'.degraded == s.journeys[id].degraded)
       && (taken < room ==> Refused(cfg, s', id, j', f', bytes[taken..room]))
       && (taken == |bytes| ==> f'.accepting && f'.descriptor == f.descriptor)
       && (taken < |bytes| ==>
             && !f'.accepting && f'.descriptor.state == Unavailable
             && f'.descriptor.reason == Some(if room < |bytes| then SIZE_LIMIT_EXCEEDED else QUEUE_EXHAUSTED))
  }

  /** In every run, a recorder that is still taking takes as many of the bytes as fit the caps, unless the queue refuses
      a chunk. Only that degrades the journey, and either stops the recorder, which says why. */
  lemma AppendTakesWhatFits(cfg: Config, actions: seq<Action>, id: RequestId, k: nat, bytes: seq<Byte>)
      returns (room: nat, taken: nat)
    requires Legal(cfg, actions) && id in After(cfg, actions).journeys &&
               k < |After(cfg, actions).journeys[id].artifacts|
    requires var f := After(cfg, actions).journeys[id].artifacts[k]; f.accepting && !f.finished
    ensures var s := After(cfg, actions);
            var s' := AppendArtifact(cfg, s, id, s.journeys[id].artifacts[k].descriptor.artifactId, bytes);
            Taken(cfg, s, s', id, k, bytes, room, taken)
  {
    hide After, Legal, Exact, Taken;
    var s := After(cfg, actions);
    LedgerIsExact(cfg, actions);
    ArtifactsAreSound(cfg, actions);
    room, taken := TakenNow(cfg, s, id, k, bytes);
  }

  lemma TakenNow(cfg: Config, s: State, id: RequestId, k: nat, bytes: seq<Byte>) returns (room: nat, taken: nat)
    requires Exact(cfg, s) && Artifacts(s) && id in s.journeys && k < |s.journeys[id].artifacts|
    requires var f := s.journeys[id].artifacts[k]; f.accepting && !f.finished
    ensures var s' := AppendArtifact(cfg, s, id, s.journeys[id].artifacts[k].descriptor.artifactId, bytes);
            Taken(cfg, s, s', id, k, bytes, room, taken)
  {
    hide Exact, Content, Chunks, Tiles, FinishesWhole, Untouched, AppendChunks, FlightIndex, FitsCaps, Accepted;
    var (j, f) := (s.journeys[id], s.journeys[id].artifacts[k]);
    var a := f.descriptor.artifactId;
    var s1 := RecordAppend(s, id, a, bytes);
    OnlyRecorder(s, id, k);
    CapsHold(cfg, s, id, k);
    AcceptedIsRoom(cfg, s, s1, id, k, bytes);
    room := Accepted(cfg, s1, j, f, |bytes|);
    assert Recorded(s, id, f) && Sound(s, id, a);
    AppendChunksContent(cfg, s1, id, j, f, bytes[..room]);
    AppendChunksExtends(cfg, s1, id, j, f, bytes[..room]);
    StopsAtRefusal(cfg, s1, id, j, f, bytes[..room]);
    var (s2, j2, f2, n) := AppendChunks(cfg, s1, id, j, f, bytes[..room]);
    taken := n;
    assert bytes[..room][..n] == bytes[..n] && bytes[..room][n..] == bytes[n..room];
  }

  lemma OnlyRecorder(s: State, id: RequestId, k: nat)
    requires Artifacts(s) && id in s.journeys && k < |s.journeys[id].artifacts|
    ensures FlightIndex(s.journeys[id].artifacts, s.journeys[id].artifacts[k].descriptor.artifactId) == k
  {
    hide Sound, Untouched, JourneyRecorded;
  }
}
