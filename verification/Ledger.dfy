/**
 The diagnostics admission ledger: the messages that pass between the request
 handlers and the diagnostics worker, the state that the authority keeps about
 them, and the effect of each of its operations as a function on that state.

 Message sizes are those of the runtime's JSON printer; they enter as an
 arbitrary function. Inputs that cannot be read and a clock that throws are
 part of the operations: each says what an interrupted call leaves behind.
 */
module Ledger {
  import opened Options

  const MAX_OBSERVATIONS_PER_JOURNEY: nat := 512
  const MAX_OBSERVATION_BYTES: nat := 64 * 1024
  const MAX_ARTIFACT_WRITE_CHUNK_BYTES: nat := 64 * 1024
  const MAX_ORDINARY_PENDING_BYTES: nat := 16 * 1024 * 1024
  const SUCCESS_ARTIFACT_PENDING_BYTES: nat := 4 * 1024 * 1024
  const STEP_DETAIL_PENDING_BYTES: nat := 8 * 1024 * 1024
  const NOTICE_ATTEMPT_PENDING_BYTES: nat := 12 * 1024 * 1024
  const FAILURE_ARTIFACT_PENDING_BYTES: nat := 14 * 1024 * 1024
  const MAX_RESERVED_PENDING_BYTES: nat := 4 * 1024 * 1024
  const CLOSE_SEAL_RESERVATION_BYTES: nat := 8 * 1024

  const UNSPECIFIC_FAILURE := "request_failed_without_specific_cause"
  const QUEUE_EXHAUSTED := "queue_capacity_exhausted"
  const SIZE_LIMIT_EXCEEDED := "artifact_size_limit_exceeded"
  const CAPTURE_INCOMPLETE := "artifact_capture_incomplete"
  const INVALID_CLOSE_INPUT := "invalid_close_input"
  const NOT_FINISHED := "artifact_recorder_not_finished"

  function OrElse<T>(first: Option<T>, second: Option<T>): Option<T> {
    if first.Some? then first else second
  }

  function Min(a: int, b: int): int { if a < b then a else b }
  function Max(a: int, b: int): int { if a < b then b else a }

  type Byte = b: int | 0 <= b < 256
  type RequestId = string
  type ArtifactId = string

  // ---------------------------------------------------------------- messages

  datatype Outcome = Success | Failure | Aborted | Interrupted

  /** A location in the request pipeline. `phaseKnown` and `tagsKnown` stand for
      membership of the phase, and of the lane, direction, subject and attempt, in
      the enumerations that a close seal may carry. */
  datatype Location = Location(phaseKnown: bool, tagsKnown: bool, step: string, sourcePath: Option<string>)

  datatype Kind =
    | StepDetail | NoticeOrAttempt | FailureDetected | TerminalUsage
    | WorkOutcome | ResponsePrepared | Handoff | OtherKind

  /** An observation other than an artifact. */
  datatype Fact = Fact(kind: Kind, primary: bool, failureId: string, classification: string, location: Location)

  /** How far an observation, or the metadata of an artifact, gets before its message is built: its first
      reading throws, no bounded and valid copy of it can be taken, the clock throws, or all went well. */
  datatype Reading = Unreadable | NotCopied | ClockFailed | Copied

  datatype ArtifactState = Captured | Unavailable

  datatype Descriptor = Descriptor(artifactId: ArtifactId, state: ArtifactState, capturedBytes: nat,
                                   originalBytes: Option<nat>, truncated: bool, reason: Option<string>)

  datatype Seal = Seal(outcome: Outcome, primaryFailureId: Option<string>, closeReason: Option<string>,
                       location: Option<Location>, complete: bool)

  datatype Payload =
    | BeginPayload
    | FactPayload(fact: Fact)
    | ArtifactPayload(descriptor: Descriptor)
    | SealPayload(seal: Seal)

  datatype Message =
    | RuntimeEvent(event: nat)
    | Append(id: RequestId, sequence: nat, payload: Payload)
    | ArtifactBegin(id: RequestId, artifact: ArtifactId, descriptor: Descriptor)
    | ArtifactChunk(id: RequestId, artifact: ArtifactId, index: nat, offset: nat, bytes: seq<Byte>)
    | ArtifactFinish(id: RequestId, artifact: ArtifactId, originalBytes: nat, complete: bool, reason: Option<string>)

  /** The identity under which a message is acknowledged. */
  datatype Key =
    | EventKey(event: nat)
    | JourneyKey(id: RequestId, sequence: nat)
    | ArtifactKey(id: RequestId, artifact: ArtifactId, index: int)

  function KeyOf(m: Message): Key {
    match m
    case RuntimeEvent(n) => EventKey(n)
    case Append(id, q, _) => JourneyKey(id, q)
    case ArtifactBegin(id, a, _) => ArtifactKey(id, a, -1)
    case ArtifactChunk(id, a, i, _, _) => ArtifactKey(id, a, i)
    case ArtifactFinish(id, a, _, _, _) => ArtifactKey(id, a, -2)
  }

  predicate IsSeal(m: Message) { m.Append? && m.payload.SealPayload? }

  /** `isReservedMessage`. */
  predicate IsReserved(m: Message) {
    match m
    case ArtifactFinish(_, _, _, _, _) => true
    case Append(_, _, SealPayload(_)) => true
    case Append(_, _, ArtifactPayload(d)) => d.state == Unavailable
    case Append(_, _, FactPayload(f)) =>
      f.kind in {FailureDetected, TerminalUsage, WorkOutcome, ResponsePrepared, Handoff}
    case _ => false
  }

  /** `ordinaryAdmissionLimit`. */
  function OrdinaryLimit(m: Message, outcome: Option<Outcome>): (limit: nat)
    ensures limit <= MAX_ORDINARY_PENDING_BYTES
  {
    match m
    case Append(_, _, ArtifactPayload(_)) =>
      if outcome == Some(Success) then SUCCESS_ARTIFACT_PENDING_BYTES else FAILURE_ARTIFACT_PENDING_BYTES
    case Append(_, _, FactPayload(f)) =>
      if f.kind == StepDetail then STEP_DETAIL_PENDING_BYTES
      else if f.kind == NoticeOrAttempt then NOTICE_ATTEMPT_PENDING_BYTES
      else MAX_ORDINARY_PENDING_BYTES
    case _ => MAX_ORDINARY_PENDING_BYTES
  }

  // ------------------------------------------------------------------- state

  datatype Capacity = Ordinary | Reserved | CloseFallback | CloseSeal

  /** An admitted message; `stamp` is its place in the order of admissions. */
  datatype Entry = Entry(stamp: nat, message: Message, bytes: nat, capacity: Capacity) {
    function Key(): Key { KeyOf(message) }
  }

  datatype Flight = Flight(sequence: nat, descriptor: Descriptor, capturedBytes: nat,
                           nextChunkIndex: nat, finished: bool, accepting: bool)

  datatype Journey = Journey(sequence: nat, observations: nat, degraded: bool, artifactBytes: int,
                             reservation: int, fallbackBytes: nat,
                             primaryFailureId: Option<string>, lastKnownLocation: Option<Location>,
                             finalOutcome: Option<Outcome>, captureAll: bool, captureFailed: bool,
                             artifacts: seq<Flight>)

  /** What request handlers offered to an open journey, in order. */
  datatype Offer = Offer(facts: seq<Fact>, artifacts: seq<ArtifactId>)

  /** History variables: what happened so far. No operation reads them. */
  datatype History = History(
    log: seq<Entry>,              // every admitted message, in order
    posted: seq<Entry>,           // what the current generation was handed since it last reported ready
    nacked: map<nat, nat>,        // stamps of rejected messages, and how many messages had been admitted by then
    used: set<RequestId>,         // identifiers of all journeys so far
    offers: map<RequestId, Offer>,
    appended: map<(RequestId, ArtifactId), seq<Byte>>,  // bytes offered to a recorder before its finish
    broken: set<(RequestId, ArtifactId)>)               // recorders whose finish broke off

  datatype Worker = Worker(current: Option<nat>, generations: nat, ready: bool, restartScheduled: bool)

  datatype State = State(
    pending: seq<Entry>,
    journeys: map<RequestId, Journey>,
    ordinary: int,
    reserved: int,
    sealReserved: int,
    flightBytes: int,
    worker: Worker,
    closed: bool,
    unavailable: bool,
    nextEvent: nat,
    history: History) {

    predicate Live() { worker.ready && worker.current.Some? }
    predicate Serving() { !closed && !unavailable }
  }

  datatype Config = Config(size: Message -> Option<nat>, descriptorSize: Descriptor -> Option<nat>,
                           maxJsonArtifactBytes: nat, maxJourneyArtifactBytes: nat)

  const Initial: State :=
    State([], map[], 0, 0, 0, 0, Worker(Some(0), 1, false, false), false, false, 0,
        History([], [], map[], {}, map[], map[], {}))

  predicate HasKey(entries: seq<Entry>, k: Key) { exists i :: 0 <= i < |entries| && entries[i].Key() == k }

  // --------------------------------------------------------------- admission

  /** The decision of `admit`: the capacity class and size, or a refusal. */
  function Admissible(cfg: Config, s: State, m: Message, outcome: Option<Outcome>): Option<Entry> {
    match cfg.size(m)
    case None => None
    case Some(bytes) =>
      if IsSeal(m) then None
      else if IsReserved(m) && s.reserved + s.sealReserved + bytes > MAX_RESERVED_PENDING_BYTES then None
      else if !IsReserved(m) && s.ordinary + bytes > OrdinaryLimit(m, outcome) then None
      else if HasKey(s.pending, KeyOf(m)) then None
      else Some(Entry(|s.history.log|, m, bytes, if IsReserved(m) then Reserved else Ordinary))
  }

  /** Adds an entry to the queue and hands it to the live worker. */
  function Push(s: State, e: Entry): State {
    s.(pending := s.pending + [e],
       history := s.history.(log := s.history.log + [e],
                             posted := if s.Live() then s.history.posted + [e] else s.history.posted),
       ordinary := if e.capacity == Ordinary then s.ordinary + e.bytes else s.ordinary,
       reserved := if e.capacity == Reserved then s.reserved + e.bytes else s.reserved)
  }

  function Admit(cfg: Config, s: State, m: Message, outcome: Option<Outcome>): (State, bool) {
    match Admissible(cfg, s, m, outcome)
    case None => (s, false)
    case Some(e) => (Push(s, e), true)
  }

  /** `admit` on behalf of a journey: a refusal degrades it. */
  function AdmitFor(cfg: Config, s: State, m: Message, j: Journey): (State, Journey, bool) {
    var (s', ok) := Admit(cfg, s, m, j.finalOutcome);
    (s', if ok then j else j.(degraded := true), ok)
  }

  /** `admitCloseSeal`. */
  function AdmitSeal(cfg: Config, s: State, id: RequestId, j: Journey, seal: Seal): (State, Journey, bool) {
    var m := Append(id, j.sequence, SealPayload(seal));
    if j.reservation != CLOSE_SEAL_RESERVATION_BYTES then (s, j.(degraded := true), false)
    else
      match cfg.size(m)
      case None => (s, j.(degraded := true), false)
      case Some(bytes) =>
        if bytes + j.fallbackBytes > CLOSE_SEAL_RESERVATION_BYTES || HasKey(s.pending, KeyOf(m)) then
          (s, j.(degraded := true), false)
        else
          (Push(s, Entry(|s.history.log|, m, bytes, CloseSeal)), j.(reservation := 0), true)
  }

  /** `admitCloseFallback`. */
  function AdmitFallback(cfg: Config, s: State, id: RequestId, j: Journey, fact: Fact): (State, Journey, bool) {
    var m := Append(id, j.sequence, FactPayload(fact));
    if j.reservation != CLOSE_SEAL_RESERVATION_BYTES || j.fallbackBytes != 0 then (s, j.(degraded := true), false)
    else
      match cfg.size(m)
      case None => (s, j.(degraded := true), false)
      case Some(bytes) =>
        if bytes >= CLOSE_SEAL_RESERVATION_BYTES || HasKey(s.pending, KeyOf(m)) then (s, j.(degraded := true), false)
        else (Push(s, Entry(|s.history.log|, m, bytes, CloseFallback)), j.(fallbackBytes := bytes), true)
  }

  // ---------------------------------------------------------------- journeys

  predicate SafeIdChar(c: char) {
    'A' <= c <= 'Z' || 'a' <= c <= 'z' || '0' <= c <= '9' || c == '_' || c == '.' || c == ':' || c == '-'
  }

  /** `SAFE_REQUEST_ID`. */
  predicate SafeId(id: RequestId) {
    1 <= |id| <= 128 && forall i :: 0 <= i < |id| ==> SafeIdChar(id[i])
  }

  function FreshJourney(captureAll: bool, captureFailed: bool): Journey {
    Journey(0, 0, false, 0, CLOSE_SEAL_RESERVATION_BYTES, 0, None, None, None, captureAll, captureFailed, [])
  }

  /** `begin`: a journey exists exactly when its seal is reserved and its begin message admitted. */
  function Begin(cfg: Config, s: State, id: RequestId, captureAll: bool, captureFailed: bool): (State, bool) {
    if !s.Serving() || !SafeId(id) || id in s.journeys then (s, false)
    else if s.reserved + s.sealReserved + CLOSE_SEAL_RESERVATION_BYTES > MAX_RESERVED_PENDING_BYTES then (s, false)
    else
      var s1 := s.(sealReserved := s.sealReserved + CLOSE_SEAL_RESERVATION_BYTES,
                   journeys := s.journeys[id := FreshJourney(captureAll, captureFailed)],
                   history := s.history.(used := s.history.used + {id},
                                         offers := s.history.offers[id := Offer([], [])]));
      var (s2, ok) := Admit(cfg, s1, Append(id, 0, BeginPayload), None);
      if ok then (s2, true) else (s, false)
  }

  function SetJourney(s: State, id: RequestId, j: Journey): State {
    s.(journeys := s.journeys[id := j])
  }

  /** The primary-failure bookkeeping after an admitted observation. */
  function NotePrimary(j: Journey, fact: Fact): Journey {
    if fact.kind != FailureDetected || !fact.primary then j
    else if j.primaryFailureId.Some? then j.(degraded := true)
    else j.(primaryFailureId := Some(fact.failureId),
            degraded := j.degraded || fact.classification == UNSPECIFIC_FAILURE)
  }

  /** `observe`, for an observation that is not an artifact. */
  function Observe(cfg: Config, s: State, id: RequestId, fact: Fact, reading: Reading): State {
    if !s.Serving() || id !in s.journeys then s
    else ObserveOpen(cfg, OfferFact(s, id, fact), id, s.journeys[id], fact, reading)
  }

  function ObserveOpen(cfg: Config, s: State, id: RequestId, j: Journey, fact: Fact, reading: Reading): State {
    if j.observations >= MAX_OBSERVATIONS_PER_JOURNEY || reading.Unreadable? then
      SetJourney(s, id, j.(degraded := true))
    else if reading.NotCopied? then SetJourney(s, id, j.(sequence := j.sequence + 1, degraded := true))
    else if reading.ClockFailed? then SetJourney(s, id, Observed(j).(degraded := true))
    else
      var j := Observed(j);
      var (s', j', ok) := AdmitFor(cfg, s, Append(id, j.sequence, FactPayload(fact)), j);
      SetJourney(s', id, if ok then NotePrimary(j'.(lastKnownLocation := Some(fact.location)), fact) else j')
  }

  /** One more observation takes the next number. */
  function Observed(j: Journey): Journey {
    j.(sequence := j.sequence + 1, observations := j.observations + 1)
  }

  function OfferOf(s: State, id: RequestId): Offer {
    if id in s.history.offers then s.history.offers[id] else Offer([], [])
  }

  function OfferFact(s: State, id: RequestId, fact: Fact): State {
    var o := OfferOf(s, id);
    s.(history := s.history.(offers := s.history.offers[id := o.(facts := o.facts + [fact])]))
  }

  function OfferArtifact(s: State, id: RequestId, a: ArtifactId): State {
    var o := OfferOf(s, id);
    s.(history := s.history.(offers := s.history.offers[id := o.(artifacts := o.artifacts + [a])]))
  }

  // --------------------------------------------------------------- artifacts

  /** The position of an artifact among a journey's recorders, or their number. */
  function FlightIndex(flights: seq<Flight>, a: ArtifactId): (k: nat)
    ensures k <= |flights|
    ensures k < |flights| ==> flights[k].descriptor.artifactId == a
    ensures forall i :: 0 <= i < k ==> flights[i].descriptor.artifactId != a
  {
    if flights == [] then 0
    else if flights[0].descriptor.artifactId == a then 0
    else 1 + FlightIndex(flights[1..], a)
  }

  predicate HasFlight(flights: seq<Flight>, a: ArtifactId) { FlightIndex(flights, a) < |flights| }

  /** `openArtifact`; metadata that cannot be read and metadata that fails its checks are refused alike. */
  function OpenArtifact(cfg: Config, s: State, id: RequestId, a: ArtifactId, reading: Reading, original: Option<nat>)
    : (State, bool)
  {
    if !s.Serving() || id !in s.journeys then (s, false)
    else OpenOpen(cfg, OfferArtifact(s, id, a), id, s.journeys[id], a, reading, original)
  }

  function OpenOpen(cfg: Config, s: State, id: RequestId, j: Journey, a: ArtifactId, reading: Reading,
      original: Option<nat>)
    : (State, bool)
  {
    if j.observations >= MAX_OBSERVATIONS_PER_JOURNEY || reading.Unreadable? || reading.NotCopied? then
      (SetJourney(s, id, j.(degraded := true)), false)
    else
      var j := Observed(j);
      var d := OpenDescriptor(a, original);
      if HasFlight(j.artifacts, a) || !DescriptorFits(cfg, d) || reading.ClockFailed? then
        (SetJourney(s, id, j.(degraded := true)), false)
      else
        var (s', j', ok) := AdmitFor(cfg, s, ArtifactBegin(id, a, d), j);
        (SetJourney(s', id, j'.(artifacts := j'.artifacts + [NewFlight(j.sequence, d, ok)])), true)
  }

  function OpenDescriptor(a: ArtifactId, original: Option<nat>): Descriptor {
    Descriptor(a, Captured, 0, original, false, None)
  }

  predicate DescriptorFits(cfg: Config, d: Descriptor) {
    cfg.descriptorSize(d).Some? && cfg.descriptorSize(d).value <= MAX_OBSERVATION_BYTES
  }

  function NewFlight(sequence: nat, d: Descriptor, admitted: bool): Flight {
    if admitted then Flight(sequence, d, 0, 0, false, true)
    else Flight(sequence, d.(state := Unavailable, reason := Some(QUEUE_EXHAUSTED)), 0, 0, false, false)
  }

  /** How many of the bytes offered to a recorder fit the configured caps. */
  function Accepted(cfg: Config, s: State, j: Journey, f: Flight, offeredBytes: nat): (n: nat)
    ensures n <= offeredBytes
  {
    Min(offeredBytes,
        Min(Max(0, cfg.maxJsonArtifactBytes - f.capturedBytes),
            Min(Max(0, cfg.maxJourneyArtifactBytes - j.artifactBytes),
                Max(0, cfg.maxJourneyArtifactBytes - s.flightBytes))))
  }

  /** One chunk: admitted, it counts for the recorder, the journey and the authority; refused, the recorder stops. */
  function AppendChunk(cfg: Config, s: State, id: RequestId, j: Journey, f: Flight, chunk: seq<Byte>)
    : (State, Journey, Flight, bool)
  {
    var m := ArtifactChunk(id, f.descriptor.artifactId, f.nextChunkIndex, f.capturedBytes, chunk);
    var (s', j', ok) := AdmitFor(cfg, s, m, j);
    if ok then
      (s'.(flightBytes := s'.flightBytes + |chunk|), j'.(artifactBytes := j'.artifactBytes + |chunk|),
       f.(nextChunkIndex := f.nextChunkIndex + 1, capturedBytes := f.capturedBytes + |chunk|), true)
    else
      (s', j', f.(accepting := false), false)
  }

  /** The chunking loop of `append`: admits `bytes` in chunks until one is refused.
      Returns the state, the journey, the recorder and the number of bytes taken. */
  function AppendChunks(cfg: Config, s: State, id: RequestId, j: Journey, f: Flight, bytes: seq<Byte>)
    : (State, Journey, Flight, nat)
    decreases |bytes|
  {
    if bytes == [] then (s, j, f, 0)
    else
      var n := Min(|bytes|, MAX_ARTIFACT_WRITE_CHUNK_BYTES);
      var (s', j', f', ok) := AppendChunk(cfg, s, id, j, f, bytes[..n]);
      if !ok then (s', j', f', 0)
      else var (s2, j2, f2, taken) := AppendChunks(cfg, s', id, j', f', bytes[n..]); (s2, j2, f2, n + taken)
  }

  /** `append` of a recorder. */
  function AppendArtifact(cfg: Config, s: State, id: RequestId, a: ArtifactId, bytes: seq<Byte>): State {
    if id !in s.journeys || !HasFlight(s.journeys[id].artifacts, a) then s
    else
      var j := s.journeys[id];
      var k := FlightIndex(j.artifacts, a);
      var f := j.artifacts[k];
      if f.finished then s
      else
        var s := RecordAppend(s, id, a, bytes);
        if !f.accepting then s
        else
          var accepted := Accepted(cfg, s, j, f, |bytes|);
          var (s', j', f', taken) := AppendChunks(cfg, s, id, j, f, bytes[..accepted]);
          SetJourney(s', id, j'.(artifacts := j.artifacts[k := AfterAppend(f', |bytes|, accepted, taken)]))
  }

  /** A recorder that could not take everything stops accepting. */
  function AfterAppend(f: Flight, offeredBytes: nat, accepted: nat, taken: nat): Flight {
    if taken < offeredBytes then
      f.(accepting := false,
         descriptor := f.descriptor.(state := Unavailable,
           reason := Some(if accepted < offeredBytes then SIZE_LIMIT_EXCEEDED else QUEUE_EXHAUSTED)))
    else f
  }

  function RecordAppend(s: State, id: RequestId, a: ArtifactId, bytes: seq<Byte>): State {
    s.(history := s.history.(appended := s.history.appended[(id, a) := AppendedTo(s, id, a) + bytes]))
  }

  function AppendedTo(s: State, id: RequestId, a: ArtifactId): seq<Byte> {
    if (id, a) in s.history.appended then s.history.appended[(id, a)] else []
  }

  /** The input of `finish`: missing, or throwing when it is read; `original` is absent when the caller's count
      is not a safe non-negative integer. */
  datatype FinishInput =
    | BadFinish
    | Finish(original: Option<nat>, complete: bool, reason: Option<string>)

  /** `finish` of a recorder. The recorder counts as finished before its input is read: a call that throws leaves
      it finished, with the descriptor it had, and without a finish message. */
  function FinishArtifact(cfg: Config, s: State, id: RequestId, a: ArtifactId, input: FinishInput): State {
    if id !in s.journeys || !HasFlight(s.journeys[id].artifacts, a) then s
    else
      var j := s.journeys[id];
      var k := FlightIndex(j.artifacts, a);
      var f := j.artifacts[k];
      if f.finished then s
      else if input.BadFinish? then
        SetJourney(RecordBreak(s, id, a), id, j.(degraded := true, artifacts := j.artifacts[k := BrokenFlight(f)]))
      else
        var m := FinishMessage(id, f, input);
        var (s', j', ok) := AdmitFor(cfg, s, m, j);
        SetJourney(s', id, j'.(artifacts := j.artifacts[k := FinishedFlight(f, m, ok)]))
  }

  function BrokenFlight(f: Flight): Flight { f.(finished := true, accepting := false) }

  function RecordBreak(s: State, id: RequestId, a: ArtifactId): State {
    s.(history := s.history.(broken := s.history.broken + {(id, a)}))
  }

  /** An artifact is complete when nothing was refused and every announced byte was captured. */
  function FinishMessage(id: RequestId, f: Flight, input: FinishInput): (m: Message)
    requires input.Finish?
    ensures m.ArtifactFinish?
  {
    var count := if input.original.Some? then input.original.value else f.capturedBytes;
    var whole := f.accepting && input.complete && f.capturedBytes == count;
    ArtifactFinish(id, f.descriptor.artifactId, count, whole, input.reason)
  }

  function FinishedFlight(f: Flight, m: Message, admitted: bool): Flight
    requires m.ArtifactFinish?
  {
    var d := f.descriptor.(state := if m.complete then Captured else Unavailable,
                           originalBytes := Some(m.originalBytes),
                           capturedBytes := f.capturedBytes, truncated := !m.complete,
                           reason := if m.complete then f.descriptor.reason
                                     else OrElse(m.reason, OrElse(f.descriptor.reason, Some(CAPTURE_INCOMPLETE))));
    f.(finished := true,
       descriptor := if admitted then d
                     else d.(state := Unavailable, capturedBytes := 0, reason := Some(QUEUE_EXHAUSTED)))
  }

  // ------------------------------------------------------------------- close

  /** A field of the close input: the runtime value may be of any type. */
  datatype Field = Missing | NotText | Text(value: string)
  /** `BadLocation`: the value is no record, or reading it throws. */
  datatype LocationField = NoLocation | BadLocation | At(location: Location)
  /** The input of `close`; `NotARecord` also stands for a record that throws when it is read. */
  datatype CloseInput =
    | NotARecord
    | CloseRecord(outcome: Option<Outcome>, complete: bool, primaryFailureId: Field, closeReason: Field,
        location: LocationField)

  function Utf8Size(c: char): (n: nat)
    ensures 1 <= n <= 4
  {
    if c as int < 0x80 then 1 else if c as int < 0x800 then 2 else if c as int < 0x1_0000 then 3 else 4
  }

  function Utf8Length(s: string): nat {
    if s == "" then 0 else Utf8Size(s[0]) + Utf8Length(s[1..])
  }

  /** The longest beginning of a text that takes at most `max` bytes. */
  predicate LongestWithin(p: string, s: string, max: nat) {
    p <= s && Utf8Length(p) <= max && (|p| < |s| ==> Utf8Length(s[..|p| + 1]) > max)
  }

  function PrefixWithin(s: string, max: nat): (p: string)
    ensures LongestWithin(p, s, max)
  {
    if s == "" || Utf8Size(s[0]) > max then ""
    else
      var rest := PrefixWithin(s[1..], max - Utf8Size(s[0]));
      assert ([s[0]] + rest)[1..] == rest;
      assert |rest| < |s[1..]| ==> s[..|rest| + 2][1..] == s[1..][..|rest| + 1];
      [s[0]] + rest
  }

  lemma {:induction false} Utf8AtMost(s: string)
    ensures Utf8Length(s) <= 4 * |s|
  {
    if s != "" { Utf8AtMost(s[1..]); }
  }

  /** The whole of a field. */
  predicate Carries(f: Field, o: Option<string>) { (f.Missing? && o.None?) || (f.Text? && o == Some(f.value)) }

  predicate Within(o: Option<string>, max: nat) { o.Some? ==> Utf8Length(o.value) <= max }

  /** The field can be taken over as it is. */
  predicate Takes(f: Field, max: nat) { f.Missing? || (f.Text? && Utf8Length(f.value) <= max) }

  /** `boundedUtf8`: the text cut to at most `max` bytes, and whether that lost anything. */
  function Bounded(f: Field, max: nat): (r: (Option<string>, bool))
    ensures Within(r.0, max)
    ensures !r.1 <==> Takes(f, max)
    ensures !r.1 ==> Carries(f, r.0)
    ensures f.Text? ==> r.0.Some? && LongestWithin(r.0.value, f.value, max)
  {
    match f
    case Missing => (None, false)
    case NotText => (None, true)
    case Text(v) => if Utf8Length(v) <= max then (Some(v), false) else (Some(PrefixWithin(v, max)), true)
  }

  function ToField(o: Option<string>): Field { if o.Some? then Text(o.value) else Missing }

  /** A location that a seal can take over as it is, or none. */
  predicate TakesLocation(f: LocationField) {
    match f
    case NoLocation => true
    case BadLocation => false
    case At(l) => l.phaseKnown && l.tagsKnown && l.step != "" && Takes(Text(l.step), 256) &&
                  Takes(ToField(l.sourcePath), 512)
  }

  /** `projectCloseLocation`. */
  function ProjectLocation(f: LocationField): (r: (Option<Location>, bool))
    ensures !r.1 <==> TakesLocation(f)
    ensures r.0.Some? ==> Within(Some(r.0.value.step), 256) && Within(r.0.value.sourcePath, 512)
    ensures !r.1 ==> (f.NoLocation? && r.0.None?) || (f.At? && r.0 == Some(f.location))
  {
    match f
    case NoLocation => (None, false)
    case BadLocation => (None, true)
    case At(l) =>
      var (step, cut) := Bounded(Text(l.step), 256);
      if !l.phaseKnown || step.value == "" then (None, true)
      else
        var (path, pathCut) := Bounded(ToField(l.sourcePath), 512);
        (Some(Location(true, true, step.value, path)), cut || pathCut || !l.tagsKnown)
  }

  /** The failure that a seal names: the one recorded, or else the one that the input names. */
  function FailureField(failure: Field, j: Journey): Field {
    if j.primaryFailureId.Some? then Text(j.primaryFailureId.value) else failure
  }

  /** The input is a record that calls the journey complete, and a seal can take over all of it. */
  predicate TakesAll(input: CloseInput, j: Journey) {
    && input.CloseRecord? && input.complete && input.outcome.Some?
    && Takes(input.closeReason, 512) && Takes(FailureField(input.primaryFailureId, j), 256)
    && TakesLocation(input.location)
  }

  /** Nothing of the input was cut, corrected or left out. */
  predicate CarriesAll(input: CloseInput, j: Journey, seal: Seal)
    requires input.CloseRecord?
  {
    && input.outcome == Some(seal.outcome)
    && Carries(input.closeReason, seal.closeReason)
    && Carries(FailureField(input.primaryFailureId, j), seal.primaryFailureId)
    && (if seal.location.Some? then input.location == At(seal.location.value) else input.location == NoLocation)
  }

  predicate SealFitsLimits(seal: Seal) {
    && Within(seal.primaryFailureId, 256) && Within(seal.closeReason, 512)
    && (seal.location.Some? ==>
          Within(Some(seal.location.value.step), 256) && Within(seal.location.value.sourcePath, 512))
  }

  function ProjectRecord(input: CloseInput, j: Journey): (seal: Seal)
    requires input.CloseRecord?
    ensures SealFitsLimits(seal)
    ensures seal.complete <==> !j.degraded && TakesAll(input, j)
    ensures seal.complete ==> CarriesAll(input, j, seal)
    ensures seal.outcome == if input.outcome.Some? then input.outcome.value else Interrupted
  {
    var (reason, reasonCut) := Bounded(input.closeReason, 512);
    var (failure, failureCut) := Bounded(FailureField(input.primaryFailureId, j), 256);
    var (location, locationCut) := ProjectLocation(input.location);
    Seal(if input.outcome.Some? then input.outcome.value else Interrupted, failure, reason, location,
         !(j.degraded || input.outcome.None? || !input.complete || reasonCut || failureCut || locationCut))
  }

  /** `projectCloseSeal`: a bounded seal, complete exactly if the journey is not degraded and the seal can carry all
      of an input that says so. */
  function ProjectSeal(input: CloseInput, j: Journey): (seal: Seal)
    ensures SealFitsLimits(seal)
    ensures seal.complete <==> !j.degraded && TakesAll(input, j)
    ensures seal.complete ==> CarriesAll(input, j, seal)
    ensures seal.outcome == if input.CloseRecord? && input.outcome.Some? then input.outcome.value else Interrupted
  {
    if input.CloseRecord? then ProjectRecord(input, j)
    else
      Utf8AtMost(INVALID_CLOSE_INPUT);
      Seal(Interrupted, None, Some(INVALID_CLOSE_INPUT), None, false)
  }

  function MinimalSeal(): Seal { Seal(Interrupted, None, Some("close_seal_projection_failed"), None, false) }

  function FallbackFailureId(id: RequestId): string { id + ":" + UNSPECIFIC_FAILURE }

  /** The unspecific failure record, located where the seal says, or else where the journey was seen last. */
  function FallbackFact(id: RequestId, lastKnown: Option<Location>, seal: Seal): (fact: Fact)
    ensures fact.failureId == FallbackFailureId(id)
  {
    Fact(FailureDetected, true, FallbackFailureId(id), UNSPECIFIC_FAILURE,
         if seal.location.Some? then seal.location.value
         else if lastKnown.Some? then lastKnown.value
         else Location(true, true, "commit_request_outcome", None))
  }

  predicate NeedsFallback(j: Journey, seal: Seal) { seal.outcome != Success && j.primaryFailureId.None? }

  /** An abnormal close without a recorded primary failure records an unspecific one. */
  function RecordFallback(cfg: Config, s: State, id: RequestId, j: Journey, seal: Seal): (State, Journey, Seal) {
    if !NeedsFallback(j, seal) then (s, j, seal)
    else
      var fact := FallbackFact(id, j.lastKnownLocation, seal);
      var j := j.(degraded := true, sequence := j.sequence + 1, observations := j.observations + 1);
      var (s', j', ok) := AdmitFallback(cfg, s, id, j, fact);
      if !ok then (s', j', seal)
      else
        var j2 := j'.(primaryFailureId := Some(fact.failureId), lastKnownLocation := Some(fact.location));
        var again := CloseRecord(Some(seal.outcome), false, Text(fact.failureId), ToField(seal.closeReason),
                                 if seal.location.Some? then At(seal.location.value) else NoLocation);
        (s', j2, ProjectSeal(again, j2))
  }

  predicate CaptureEnabled(j: Journey, outcome: Outcome) { j.captureAll || (outcome != Success && j.captureFailed) }

  /** The descriptor with which a recorder's artifact is reported at close. */
  function FinalDescriptor(j: Journey, f: Flight, outcome: Outcome): Descriptor {
    var d := if f.finished then f.descriptor else f.descriptor.(state := Unavailable, reason := Some(NOT_FINISHED));
    var captured := CaptureEnabled(j, outcome) && d.state == Captured && !d.truncated;
    d.(state := if captured then Captured else Unavailable,
       capturedBytes := if !CaptureEnabled(j, outcome) || d.state == Unavailable || !f.finished then 0
           else f.capturedBytes,
       originalBytes := Some(if d.originalBytes.Some? then d.originalBytes.value else f.capturedBytes),
       reason := if CaptureEnabled(j, outcome) then d.reason
                 else if outcome != Success then Some("failed_journey_capture_disabled")
                 else Some("full_journey_capture_disabled"))
  }

  /** The descriptor of one recorder, once as it is and, if refused, once as unavailable. */
  function FlushFlight(cfg: Config, s: State, id: RequestId, j: Journey, f: Flight, outcome: Outcome)
    : (State, Journey)
  {
    var j := if f.finished then j else j.(degraded := true);
    var d := FinalDescriptor(j, f, outcome);
    var (s1, j1, ok) := AdmitFor(cfg, s, Append(id, f.sequence, ArtifactPayload(d)), j);
    var d' := d.(state := Unavailable, reason := Some(QUEUE_EXHAUSTED));
    var (s2, j2) := if ok then (s1, j1)
                    else
                      var (s', j', _) := AdmitFor(cfg, s1, Append(id, f.sequence, ArtifactPayload(d')), j1);
                      (s', j');
    (s2.(flightBytes := Max(0, s2.flightBytes - f.capturedBytes)),
     j2.(artifactBytes := j2.artifactBytes - f.capturedBytes))
  }

  function FlushFlights(cfg: Config, s: State, id: RequestId, j: Journey, flights: seq<Flight>, outcome: Outcome)
    : (State, Journey)
    decreases |flights|
  {
    if flights == [] then (s, j)
    else
      var (s', j') := FlushFlight(cfg, s, id, j, flights[0], outcome);
      FlushFlights(cfg, s', id, j', flights[1..], outcome)
  }

  /** The seal, and in its place the minimal one if it is refused. */
  function SealJourney(cfg: Config, s: State, id: RequestId, j: Journey, seal: Seal): (State, Journey, bool) {
    var (s', j', ok) := AdmitSeal(cfg, s, id, j, seal);
    if ok then (s', j', true) else AdmitSeal(cfg, s', id, j', MinimalSeal())
  }

  /** `releaseJourneyFlight` and `releaseJourneyCloseSeal`, and the removal of the journey. */
  function Release(s: State, id: RequestId, j: Journey): State {
    s.(flightBytes := Max(0, s.flightBytes - j.artifactBytes),
       sealReserved := if j.reservation == 0 then s.sealReserved else Max(0, s.sealReserved - j.reservation),
       journeys := s.journeys - {id})
  }

  /** Where an exception may interrupt a close: at the clock of the failure record, after some of the artifacts
      have been reported, or at the clock of the seal. */
  datatype Point = AtFailureRecord | AfterReports(count: nat) | BeforeSeal

  /** The course of a close. If it breaks off, `clock` says whether the clock serves the minimal seal of the
      handler that catches the exception. */
  datatype Course = Smooth | Broken(point: Point, clock: bool)

  /** The clock of the failure record is read only when such a record is due. */
  function CourseTaken(j: Journey, input: CloseInput, course: Course): Course {
    if course.Broken? && course.point.AtFailureRecord? && !NeedsFallback(j, ProjectSeal(input, j))
    then Smooth
    else course
  }

  /** The number of recorders that a close reports. */
  function ReportsOf(flights: seq<Flight>, course: Course): (n: nat)
    ensures n <= |flights|
  {
    if course.Broken? && course.point.AfterReports? then Min(course.point.count, |flights|) else |flights|
  }

  /** The journey and its seal after the reports. Whatever breaks off is caught, and leaves the minimal seal. */
  function EndOfClose(j: Journey, seal: Seal, course: Course): (Journey, Seal) {
    var last := j.(sequence := j.sequence + 1);
    match course
    case Smooth => (last.(artifacts := [], artifactBytes := 0), if j.degraded then seal.(complete := false) else seal)
    case Broken(BeforeSeal, _) => (last.(artifacts := [], artifactBytes := 0, degraded := true), MinimalSeal())
    case Broken(_, _) => (last.(degraded := true), MinimalSeal())
  }

  /** What `close` does up to the seal: the state, the journey and the seal to admit. */
  function PrepareClose(cfg: Config, s: State, id: RequestId, input: CloseInput, course: Course): (State, Journey, Seal)
    requires id in s.journeys
  {
    var j := s.journeys[id];
    var seal0 := ProjectSeal(input, j);
    var j0 := j.(finalOutcome := Some(seal0.outcome));
    if course.Broken? && course.point.AtFailureRecord? then
      var (j', seal) := EndOfClose(Observed(j0), seal0, course);
      (s, j', seal)
    else
      var (s1, j1, seal1) := RecordFallback(cfg, s, id, j0, seal0);
      var (s2, j2) := FlushFlights(cfg, s1, id, j1, j1.artifacts[..ReportsOf(j1.artifacts, course)], seal0.outcome);
      var (j', seal) := EndOfClose(j2, seal1, course);
      (s2, j', seal)
  }

  /** The seal of a close, smooth or caught; without a clock there is none. */
  function SealClose(cfg: Config, s: State, id: RequestId, j: Journey, seal: Seal, course: Course)
    : (State, Journey, bool)
  {
    match course
    case Smooth => SealJourney(cfg, s, id, j, seal)
    case Broken(_, true) => AdmitSeal(cfg, s, id, j, seal)
    case Broken(_, false) => (s, j, false)
  }

  /** `close` of a journey. Whatever happens, the journey gives back what it still holds, and is forgotten. */
  function Close(cfg: Config, s: State, id: RequestId, input: CloseInput, course: Course): State {
    if !s.Serving() || id !in s.journeys then s
    else
      var taken := CourseTaken(s.journeys[id], input, course);
      var (s1, j1, seal) := PrepareClose(cfg, s, id, input, taken);
      var (s2, j2, _) := SealClose(cfg, s1, id, j1, seal, taken);
      Release(s2, id, j2)
  }

  // ------------------------------------------------------------------ worker

  /** `observeRuntime`: when the clock throws, the event's number is lost. */
  function RuntimeEventOffered(cfg: Config, s: State, clock: bool): State {
    if !s.Serving() then s
    else
      var s := s.(nextEvent := s.nextEvent + 1);
      if clock then Admit(cfg, s, RuntimeEvent(s.nextEvent - 1), None).0 else s
  }

  /** The position of the entry with a given key, or the number of entries. */
  function EntryIndex(entries: seq<Entry>, k: Key): (i: nat)
    ensures i <= |entries|
    ensures i < |entries| ==> entries[i].Key() == k
    ensures forall n :: 0 <= n < i ==> entries[n].Key() != k
  {
    if entries == [] then 0 else if entries[0].Key() == k then 0 else 1 + EntryIndex(entries[1..], k)
  }

  /** Removes an entry and gives its capacity back. */
  function Remove(s: State, i: nat): State
    requires i < |s.pending|
  {
    var e := s.pending[i];
    s.(pending := s.pending[..i] + s.pending[i + 1..],
       ordinary := if e.capacity == Ordinary then Max(0, s.ordinary - e.bytes) else s.ordinary,
       reserved := if e.capacity == Reserved then Max(0, s.reserved - e.bytes) else s.reserved,
       sealReserved := if e.capacity == CloseSeal then Max(0, s.sealReserved - CLOSE_SEAL_RESERVATION_BYTES)
           else s.sealReserved)
  }

  function RecordRejection(s: State, e: Entry): State {
    s.(history := s.history.(nacked := s.history.nacked[e.stamp := |s.history.log|]))
  }

  /** A rejected message degrades its journey; a rejected artifact message also marks the artifact. */
  function Reject(s: State, e: Entry, classification: string): State {
    var s := RecordRejection(s, e);
    if e.message.RuntimeEvent? || e.message.id !in s.journeys then s
    else
      var j := s.journeys[e.message.id].(degraded := true);
      if e.message.Append? || !HasFlight(j.artifacts, e.message.artifact) then SetJourney(s, e.message.id, j)
      else
        var k := FlightIndex(j.artifacts, e.message.artifact);
        var d := j.artifacts[k].descriptor.(state := Unavailable, capturedBytes := 0, reason := Some(classification));
        SetJourney(s, e.message.id, j.(artifacts := j.artifacts[k := j.artifacts[k].(descriptor := d)]))
  }

  /** An acknowledgement or a rejection from generation `g`; an unknown key is malformed output. */
  function Settle(s: State, g: nat, key: Option<Key>, accepted: bool, classification: string): State {
    if s.worker.current != Some(g) then s
    else if key.None? || EntryIndex(s.pending, key.value) == |s.pending| then Restart(s, g)
    else
      var i := EntryIndex(s.pending, key.value);
      if accepted then Remove(s, i) else Reject(Remove(s, i), s.pending[i], classification)
  }

  /** A change of the worker, and what its generation has been handed. */
  function WithWorker(s: State, w: Worker, posted: seq<Entry>): State {
    s.(worker := w, history := s.history.(posted := posted))
  }

  /** `scheduleWorkerRestart`. */
  function Restart(s: State, g: nat): State {
    if s.worker.current != Some(g) then s
    else
      var scheduled := s.worker.restartScheduled || s.Serving();
      WithWorker(s, s.worker.(current := None, ready := false, restartScheduled := scheduled), [])
  }

  /** The restart timer fires; `started` is false when the worker cannot be created. */
  ghost function StartWorker(s: State, started: bool): State {
    if !s.worker.restartScheduled then s
    else
      var idle := s.worker.(restartScheduled := false);
      if s.closed then s.(worker := idle)
      else if !started then BecomeUnavailable(s.(worker := idle.(ready := false)))
      else WithWorker(s, Worker(Some(idle.generations), idle.generations + 1, false, false), [])
  }

  /** The worker reports ready: everything pending is posted to it in order. */
  function Ready(s: State, g: nat): State {
    if s.worker.current != Some(g) then s else WithWorker(s, s.worker.(ready := true), s.pending)
  }

  ghost function StartupFailure(s: State, g: nat): State {
    if s.worker.current != Some(g) then s else BecomeUnavailable(s)
  }

  function ClearPending(s: State): State {
    s.(pending := [], ordinary := 0, reserved := 0, sealReserved := 0)
  }

  /** What an open journey holds of the shared budgets. */
  datatype Holding = HeldSeal | HeldBytes

  function Held(j: Journey, h: Holding): int {
    if h == HeldSeal then j.reservation else j.artifactBytes
  }

  ghost function SumHeld(m: map<RequestId, Journey>, h: Holding): int {
    if m == map[] then 0 else var id :| id in m; Held(m[id], h) + SumHeld(m - {id}, h)
  }

  /** Every open journey gives back its artifact bytes and its seal reservation. */
  ghost function ReleaseAll(s: State): State {
    s.(journeys := map[],
       flightBytes := Max(0, s.flightBytes - SumHeld(s.journeys, HeldBytes)),
       sealReserved := Max(0, s.sealReserved - SumHeld(s.journeys, HeldSeal)))
  }

  /** `becomePermanentlyUnavailable`. */
  ghost function BecomeUnavailable(s: State): State {
    if s.unavailable then s else ClearPending(ReleaseAll(s.(unavailable := true, worker := s.worker.(ready := false))))
  }

  /** The synchronous part of the authority's `close`. */
  ghost function BeginShutdown(s: State): State {
    if s.closed then s else ReleaseAll(s.(closed := true, worker := s.worker.(restartScheduled := false)))
  }

  /** Its last step, after the queue drained or the deadline passed. */
  function EndShutdown(s: State): State {
    if !s.closed then s else ClearPending(WithWorker(s, s.worker.(current := None), []))
  }
}
