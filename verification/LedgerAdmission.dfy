/** Which messages the authority takes: all that can be printed and have room, where the least important kinds are
    refused first as the queue fills. */
module LedgerAdmission {
  import opened Options
  import opened Ledger
  import opened LedgerRuns
  import opened LedgerBalance

  const MIB := 1_048_576

  /** What a reader of the journey needs most: failures, usage, the outcome, the answer and its handoff, the end of an
      artifact, and that an artifact is not available. */
  predicate Essential(m: Message) {
    || m.ArtifactFinish?
    || (m.Append? && m.payload.ArtifactPayload? && m.payload.descriptor.state != Captured)
    || (m.Append? && m.payload.FactPayload? && var k := m.payload.fact.kind;
        !k.StepDetail? && !k.NoticeOrAttempt? && !k.OtherKind?)
  }

  /** How far the other messages may fill the ordinary budget, in MiB. */
  function Share(m: Message, outcome: Option<Outcome>): nat {
    if m.Append? && m.payload.ArtifactPayload? then if outcome == Some(Success) then 4 else 14
    else if m.Append? && m.payload.FactPayload? && m.payload.fact.kind.StepDetail? then 8
    else if m.Append? && m.payload.FactPayload? && m.payload.fact.kind.NoticeOrAttempt? then 12
    else 16
  }

  /** The message can be printed, is not pending, and its budget has room. */
  predicate HasRoom(cfg: Config, s: State, m: Message, outcome: Option<Outcome>) {
    && cfg.size(m).Some? && (forall i :: 0 <= i < |s.pending| ==> s.pending[i].Key() != KeyOf(m))
    && if Essential(m) then s.reserved + s.sealReserved + cfg.size(m).value <= 4 * MIB
       else s.ordinary + cfg.size(m).value <= Share(m, outcome) * MIB
  }

  /** Only the log and the queue have changed, by this message. */
  ghost predicate Logged(s: State, s': State, m: Message) {
    && |s'.history.log| == |s.history.log| + 1 && s.history.log <= s'.history.log
    && s'.history.log[|s.history.log|].message == m && s'.pending == s.pending + [s'.history.log[|s.history.log|]]
  }

  ghost predicate NotLogged(s: State, s': State) { s'.history.log == s.history.log && s'.pending == s.pending }

  /** A message that is no seal is admitted exactly if it can be taken. */
  lemma AdmissionIsByKind(cfg: Config, s: State, m: Message, outcome: Option<Outcome>)
    requires !IsSeal(m)
    ensures var (s', ok) := Admit(cfg, s, m, outcome);
            && (ok <==> HasRoom(cfg, s, m, outcome)) && s'.journeys == s.journeys && s'.nextEvent == s.nextEvent
            && if ok then Logged(s, s', m) else s' == s
  {
  }

  /** In every run, once the ordinary budget is used up, only essential messages and those of no size are admitted; and
      these are admitted whatever else has filled the queue, as long as their own budget has room. */
  lemma FullQueueTakesEssentials(cfg: Config, actions: seq<Action>, m: Message, outcome: Option<Outcome>)
    requires !IsSeal(m) && cfg.size(m).Some? && cfg.size(m).value > 0
    requires forall i :: 0 <= i < |After(cfg, actions).pending| ==> After(cfg, actions).pending[i].Key() != KeyOf(m)
    ensures var s := After(cfg, actions); var (s', ok) := Admit(cfg, s, m, outcome);
            && s.ordinary <= 16 * MIB && s.reserved + s.sealReserved <= 4 * MIB
            && (s.ordinary == 16 * MIB && ok ==> Essential(m))
            && (Essential(m) && s.reserved + s.sealReserved + cfg.size(m).value <= 4 * MIB ==>
                  ok && s'.pending == s.pending + [s'.history.log[|s.history.log|]] && s'.ordinary == s.ordinary)
  {
    hide After, Balanced, HasKey, KeyOf;
    LedgerIsExact(cfg, actions);
    WithinBudgets(cfg, After(cfg, actions));
    AdmissionIsByKind(cfg, After(cfg, actions), m, outcome);
    ReservedIsEssential(m);
  }

  lemma WithinBudgets(cfg: Config, s: State)
    requires Exact(cfg, s)
    ensures s.ordinary <= 16 * MIB && s.reserved + s.sealReserved <= 4 * MIB
  {
  }

  lemma ReservedIsEssential(m: Message)
    ensures !IsSeal(m) ==> (IsReserved(m) <==> Essential(m))
  {
  }

  // ------------------------------------------------------------ what is offered

  lemma AdmitForIsByKind(cfg: Config, s: State, m: Message, j: Journey)
    requires !IsSeal(m)
    ensures var (s', j', ok) := AdmitFor(cfg, s, m, j);
            && (ok <==> HasRoom(cfg, s, m, j.finalOutcome)) && s'.journeys == s.journeys
            && j' == (if ok then j else j.(degraded := true)) && if ok then Logged(s, s', m) else s' == s
  {
    hide Admit;
    AdmissionIsByKind(cfg, s, m, j.finalOutcome);
  }

  /** A journey is opened exactly if its seal can be reserved and its begin can be taken, and is otherwise left out. */
  lemma BeginIsAdmitted(cfg: Config, s: State, id: RequestId, captureAll: bool, captureFailed: bool)
    ensures var (s', ok) := Begin(cfg, s, id, captureAll, captureFailed); var m := Append(id, 0, BeginPayload);
            && (ok <==>
                  && s.Serving() && SafeId(id) && id !in s.journeys && HasRoom(cfg, s, m, None)
                  && s.reserved + s.sealReserved + 8192 <= 4 * MIB)
            && if ok then Logged(s, s', m) && s'.journeys.Keys == s.journeys.Keys + {id} else s' == s
  {
    hide HasKey;
    assert HasKey(s.pending, KeyOf(Append(id, 0, BeginPayload))) <==>
           exists i :: 0 <= i < |s.pending| && s.pending[i].Key() == KeyOf(Append(id, 0, BeginPayload)) by {
      KeyIsPending(s.pending, KeyOf(Append(id, 0, BeginPayload)));
    }
  }

  lemma KeyIsPending(entries: seq<Entry>, k: Key)
    ensures HasKey(entries, k) <==> exists i :: 0 <= i < |entries| && entries[i].Key() == k
  {
  }

  /** An observation of an open journey is admitted exactly if it is one of the first 512, it can be read and copied,
      the clock serves, and it can be taken. It takes the journey's next number, and counts, once it has been copied. */
  lemma ObservationIsAdmitted(cfg: Config, s: State, id: RequestId, fact: Fact, reading: Reading)
    requires s.Serving() && id in s.journeys
    ensures var (s', j) := (Observe(cfg, s, id, fact, reading), s.journeys[id]);
            var m := Append(id, j.sequence + 1, FactPayload(fact));
            && (if j.observations < 512 && reading.Copied? && HasRoom(cfg, s, m, j.finalOutcome) then Logged(s, s', m)
                else NotLogged(s, s'))
            && s'.journeys.Keys == s.journeys.Keys
            && s'.journeys[id].observations
               == j.observations + (if j.observations < 512 && (reading.Copied? || reading.ClockFailed?) then 1 else 0)
            && s'.journeys[id].sequence
               == j.sequence + (if j.observations < 512 && !reading.Unreadable? then 1 else 0)
  {
    hide AdmitFor, HasRoom;
    var (s1, j) := (OfferFact(s, id, fact), s.journeys[id]);
    var m := Append(id, j.sequence + 1, FactPayload(fact));
    AdmitForIsByKind(cfg, s1, m, Observed(j));
    RoomAlike(cfg, s, s1, m, j.finalOutcome);
  }

  lemma RoomAlike(cfg: Config, s: State, s1: State, m: Message, outcome: Option<Outcome>)
    requires s1 == s.(history := s1.history)
    ensures HasRoom(cfg, s1, m, outcome) <==> HasRoom(cfg, s, m, outcome)
  {
  }

  /** A new recorder, which takes bytes exactly if its begin was taken. */
  predicate IsNew(f: Flight, a: ArtifactId, original: Option<nat>, taken: bool) {
    && !f.finished && f.capturedBytes == 0 && f.nextChunkIndex == 0 && f.descriptor.artifactId == a
    && f.descriptor.originalBytes == original && (f.accepting <==> taken)
  }

  /** An artifact of an open journey gets a recorder exactly if it counts among the first 512 observations, can be read
      and copied, has none yet, and has metadata that fit, while the clock serves. The recorder takes bytes exactly if
      its begin, with these metadata, can be taken. */
  lemma OpenIsAdmitted(cfg: Config, s: State, id: RequestId, a: ArtifactId, reading: Reading, original: Option<nat>)
    requires s.Serving() && id in s.journeys
    ensures var ((s', done), j) := (OpenArtifact(cfg, s, id, a, reading, original), s.journeys[id]);
            var d := Descriptor(a, Captured, 0, original, false, None);
            var m := ArtifactBegin(id, a, d);
            && (done <==>
                  j.observations < 512 && reading.Copied? && !HasFlight(j.artifacts, a) && DescriptorFits(cfg, d))
            && (if done && HasRoom(cfg, s, m, j.finalOutcome) then Logged(s, s', m) else NotLogged(s, s'))
            && s'.journeys.Keys == s.journeys.Keys
            && (!done ==> s'.journeys[id].artifacts == j.artifacts)
            && (done ==>
                  && |s'.journeys[id].artifacts| == |j.artifacts| + 1 && j.artifacts <= s'.journeys[id].artifacts
                  && IsNew(s'.journeys[id].artifacts[|j.artifacts|], a, original, HasRoom(cfg, s, m, j.finalOutcome)))
  {
    hide AdmitFor, HasRoom, FlightIndex, DescriptorFits;
    var (s1, j) := (OfferArtifact(s, id, a), s.journeys[id]);
    var m := ArtifactBegin(id, a, Descriptor(a, Captured, 0, original, false, None));
    AdmitForIsByKind(cfg, s1, m, Observed(j));
    RoomAlike(cfg, s, s1, m, j.finalOutcome);
  }

  /** What a finish tells of its recorder: the bytes that were announced, or else those that were captured; and that the
      artifact is complete exactly if the caller says so, nothing was refused, and these are as many. */
  predicate FinishTells(m: Message, id: RequestId, f: Flight, input: FinishInput)
    requires input.Finish?
  {
    && m.ArtifactFinish? && m.id == id && m.artifact == f.descriptor.artifactId && m.reason == input.reason
    && (input.original.Some? ==> m.originalBytes == input.original.value)
    && (input.original.None? ==> m.originalBytes == f.capturedBytes)
    && (m.complete <==> input.complete && f.accepting && m.originalBytes == f.capturedBytes)
  }

  /** What the recorder says of its artifact after the finish. */
  predicate FinishedAs(f: Flight, f': Flight, m: Message, taken: bool)
    requires m.ArtifactFinish?
  {
    && f'.finished && f'.descriptor.originalBytes == Some(m.originalBytes)
    && (f'.descriptor.state.Captured? <==> taken && m.complete)
    && (!taken ==> f'.descriptor.reason == Some(QUEUE_EXHAUSTED))
    && (taken && m.complete ==> f'.descriptor.reason == f.descriptor.reason && !f'.descriptor.truncated)
    && (taken && !m.complete ==>
          f'.descriptor.truncated &&
          f'.descriptor.reason == (if m.reason.Some? then m.reason else if f.descriptor.reason.Some?
              then f.descriptor.reason else Some("artifact_capture_incomplete")))
  }

  /** The finish of a recorder that has not finished is admitted exactly if it can be read and taken. */
  lemma FinishIsAdmitted(cfg: Config, s: State, id: RequestId, a: ArtifactId, input: FinishInput) returns (m: Message)
    requires id in s.journeys && HasFlight(s.journeys[id].artifacts, a)
    requires !s.journeys[id].artifacts[FlightIndex(s.journeys[id].artifacts, a)].finished && input.Finish?
    ensures var (s', j) := (FinishArtifact(cfg, s, id, a, input), s.journeys[id]);
            var k := FlightIndex(j.artifacts, a);
            && FinishTells(m, id, j.artifacts[k], input)
            && (if HasRoom(cfg, s, m, j.finalOutcome) then Logged(s, s', m) else NotLogged(s, s'))
            && s'.journeys.Keys == s.journeys.Keys && |s'.journeys[id].artifacts| == |j.artifacts|
            && FinishedAs(j.artifacts[k], s'.journeys[id].artifacts[k], m, HasRoom(cfg, s, m, j.finalOutcome))
            && forall i :: 0 <= i < |j.artifacts| && i != k ==> s'.journeys[id].artifacts[i] == j.artifacts[i]
  {
    hide AdmitFor, HasRoom, FlightIndex;
    var j := s.journeys[id];
    m := FinishMessage(id, j.artifacts[FlightIndex(j.artifacts, a)], input);
    AdmitForIsByKind(cfg, s, m, j);
  }

  /** A runtime event takes the next number while the authority serves, and is admitted if the clock serves and it can
      be taken. */
  lemma RuntimeEventIsAdmitted(cfg: Config, s: State, clock: bool)
    ensures var s' := RuntimeEventOffered(cfg, s, clock); var m := RuntimeEvent(s.nextEvent);
            && s'.nextEvent == s.nextEvent + (if s.Serving() then 1 else 0)
            && if s.Serving() && clock && HasRoom(cfg, s, m, None) then Logged(s, s', m) else NotLogged(s, s')
  {
    hide Admit, HasRoom;
    var m := RuntimeEvent(s.nextEvent);
    AdmissionIsByKind(cfg, s.(nextEvent := s.nextEvent + 1), m, None);
    NumberAside(cfg, s, m);
  }

  lemma NumberAside(cfg: Config, s: State, m: Message)
    ensures HasRoom(cfg, s.(nextEvent := s.nextEvent + 1), m, None) <==> HasRoom(cfg, s, m, None)
  {
  }

  /** The recorder of an artifact after one of its messages was rejected. */
  predicate Spoilt(f: Flight, f': Flight, classification: string) {
    && f'.descriptor.state == Unavailable && f'.descriptor.capturedBytes == 0
    && f'.descriptor.reason == Some(classification) && f'.finished == f.finished && f'.accepting == f.accepting
    && f'.capturedBytes == f.capturedBytes && f'.descriptor.artifactId == f.descriptor.artifactId
  }

  /** A rejected message leaves the queue and degrades its journey, if that is open; if it was a message of an artifact
      that has a recorder, the recorder says so with the worker's reason. Nothing else is touched. */
  lemma RejectionTells(s: State, g: nat, i: nat, classification: string)
    requires s.worker.current == Some(g) && i < |s.pending|
    requires forall k :: 0 <= k < i ==> s.pending[k].Key() != s.pending[i].Key()
    ensures var (s', m) := (Settle(s, g, Some(s.pending[i].Key()), false, classification), s.pending[i].message);
            && s'.pending == s.pending[..i] + s.pending[i + 1..] && s'.journeys.Keys == s.journeys.Keys
            && (forall id :: id in s.journeys && (m.RuntimeEvent? || m.id != id) ==> s'.journeys[id] == s.journeys[id])
            && (!m.RuntimeEvent? && m.id in s.journeys ==>
                  var (j, j') := (s.journeys[m.id], s'.journeys[m.id]);
                  && j'.degraded && |j'.artifacts| == |j.artifacts|
                  && forall k :: 0 <= k < |j.artifacts| ==>
                       if !m.Append? && HasFlight(j.artifacts, m.artifact) && k == FlightIndex(j.artifacts, m.artifact)
                       then Spoilt(j.artifacts[k], j'.artifacts[k], classification)
                       else j'.artifacts[k] == j.artifacts[k])
  {
    hide FlightIndex, EntryIndex, KeyOf;
    assert EntryIndex(s.pending, s.pending[i].Key()) == i by { IndexIsFirst(s.pending, i); }
  }

  lemma IndexIsFirst(entries: seq<Entry>, i: nat)
    requires i < |entries| && forall k :: 0 <= k < i ==> entries[k].Key() != entries[i].Key()
    ensures EntryIndex(entries, entries[i].Key()) == i
  {
    hide KeyOf;
  }
}
