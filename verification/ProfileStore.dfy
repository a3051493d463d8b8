/**
 The store of one provider's record and credential documents, with its two levels of locks: operations as
 threads that take one step at a time, between which other threads run or crash.

 Every thread takes the lock of its credential before the lock of the record. A managed document is rewritten
 by a callback that runs with only the lock of the credential.
 */
module ProfileStore {
  import opened Options
  import opened Profiles
  import opened ProfileRuns

  datatype Operation =
    | Manage(request: Request)
    | Publish(request: Request, content: string)
    | Rewrite(id: string)
    | Collect(id: string)

  datatype Phase =
    | Waiting
    | Locked
    | Reading
    | WriteDocument(record: Record)
    | WriteRecord(record: Record)
    | Calling(before: string)
    | Called(before: string, reply: Option<string>)
    | Rechecking(before: string, reply: Option<string>)
    | Rewriting(before: string, content: string)
    | Unlinking

  datatype Thread = Thread(op: Operation, phase: Phase)

  /** One rewrite of a document: what the callback was given, what was there, and what is there now. */
  datatype Rewritten = Rewritten(id: string, given: string, replaced: string, content: string, enabled: bool)

  /** The files, the locks and the threads; and, for the record, what has been committed and rewritten. */
  datatype Disk = Disk(
    record: Option<Record>, documents: map<string, string>, recordLock: Option<nat>, credentialLocks: map<string, nat>,
    threads: map<nat, Thread>, used: set<string>, committed: seq<Request>, rewritten: seq<Rewritten>)

  const BLANK := Disk(None, map[], None, map[], map[], {ABSENT}, [], [])

  // ------------------------------------------------------------- operations

  predicate TakesCredential(op: Operation) { !op.Manage? }

  function CredentialOf(op: Operation): string
    requires TakesCredential(op) && OperationOk(op)
  {
    match op
    case Publish(q, _) => q.action.profile.id
    case Rewrite(id) => id
    case Collect(id) => id
  }

  predicate OperationOk(op: Operation) {
    match op
    case Manage(q) => !q.action.DoAcquire?
    case Publish(q, _) => q.action.DoAcquire? && q.expected.None?
    case _ => true
  }

  function Ids(op: Operation): set<string> {
    if op.Manage? || op.Publish? then Made(op.request) else {}
  }

  predicate HoldsRecord(p: Phase) {
    p.Reading? || p.WriteDocument? || p.WriteRecord? || p.Rechecking? || p.Rewriting? || p.Unlinking?
  }

  predicate HoldsCredential(t: Thread) { TakesCredential(t.op) && !t.phase.Waiting? }

  predicate WantsRecord(t: Thread) {
    t.phase.Locked? || t.phase.Called? || (t.phase.Waiting? && t.op.Manage?)
  }

  predicate References(r: Option<Record>, id: string) {
    r.Some? &&
    exists i ::
      0 <= i < |r.value.profiles| && r.value.profiles[i].reference.owner == Managed && r.value.profiles[i].id == id
  }

  predicate EnabledManaged(r: Option<Record>, id: string) {
    r.Some? && exists i :: (0 <= i < |r.value.profiles| && r.value.profiles[i].reference.owner == Managed
                            && r.value.profiles[i].id == id && r.value.profiles[i].enabled)
  }

  // ------------------------------------------------------------------ steps

  datatype Step =
    | Spawn(thread: nat, op: Operation)
    | Go(thread: nat, reply: Option<string>)
    | Crash(thread: nat)

  predicate Can(d: Disk, s: Step) {
    match s
    case Spawn(t, op) =>
      && t !in d.threads && OperationOk(op) && Ids(op) !! d.used
      && ((op.Manage? || op.Publish?) ==> Fresh(EMPTY, op.request))
    case Crash(t) => t in d.threads
    case Go(t, _) =>
      && t in d.threads
      && OperationOk(d.threads[t].op)
      && (WantsRecord(d.threads[t]) ==> d.recordLock.None?)
      && (d.threads[t].phase.Waiting? && TakesCredential(d.threads[t].op) ==>
           CredentialOf(d.threads[t].op) !in d.credentialLocks)
  }

  function Release(locks: map<string, nat>, t: nat): map<string, nat> {
    map id | id in locks && locks[id] != t :: locks[id]
  }

  /** A thread that ends, for whatever reason, leaves its locks free. */
  function End(d: Disk, t: nat): Disk {
    d.(threads := d.threads - {t},
       recordLock := if d.recordLock == Some(t) then None else d.recordLock,
       credentialLocks := Release(d.credentialLocks, t))
  }

  function Enter(d: Disk, t: nat, phase: Phase): Disk
    requires t in d.threads
  {
    d.(threads := d.threads[t := d.threads[t].(phase := phase)])
  }

  /** A step that cannot be taken changes nothing. */
  function Next(cfg: Config, d: Disk, s: Step): Disk {
    if Can(d, s) then Taken(cfg, d, s) else d
  }

  function Taken(cfg: Config, d: Disk, s: Step): Disk
    requires Can(d, s)
  {
    match s
    case Spawn(t, op) => d.(threads := d.threads[t := Thread(op, Waiting)], used := d.used + Ids(op))
    case Crash(t) => End(d, t)
    case Go(t, reply) =>
      var (op, phase) := (d.threads[t].op, d.threads[t].phase);
      match phase
      case Waiting =>
        if op.Manage? then Enter(d, t, Reading).(recordLock := Some(t))
        else Enter(d, t, Locked).(credentialLocks := d.credentialLocks[CredentialOf(op) := t])
      case Locked => Enter(d, t, Reading).(recordLock := Some(t))
      case Reading => Read(cfg, d, t)
      case WriteDocument(next) =>
        if op.Publish? then Enter(d.(documents := d.documents[CredentialOf(op) := op.content]), t, WriteRecord(next))
            else End(d, t)
      case WriteRecord(next) =>
        if op.Manage? || op.Publish? then End(d.(record := Some(next), committed := d.committed + [op.request]), t)
            else End(d, t)
      case Calling(before) => Enter(d, t, Called(before, reply))
      case Called(before, result) => Enter(d, t, Rechecking(before, result)).(recordLock := Some(t))
      case Rechecking(before, result) =>
        if op.Rewrite? && EnabledManaged(d.record, op.id) &&
            result.Some? then Enter(d, t, Rewriting(before, result.value)) else End(d, t)
      case Rewriting(before, content) =>
        if op.Rewrite? && op.id in d.documents then
          var entry := Rewritten(op.id, before, d.documents[op.id], content, EnabledManaged(d.record, op.id));
          End(d.(documents := d.documents[op.id := content], rewritten := d.rewritten + [entry]), t)
        else End(d, t)
      case Unlinking => if op.Collect? then End(d.(documents := d.documents - {op.id}), t) else End(d, t)
  }

  /** With the lock of the record: read it, and decide. */
  function Read(cfg: Config, d: Disk, t: nat): Disk
    requires t in d.threads && OperationOk(d.threads[t].op)
  {
    var op := d.threads[t].op;
    match op
    case Manage(q) =>
      (match Attempt(cfg, d.record, q)
       case Committed(next, _) => Enter(d, t, WriteRecord(next))
       case _ => End(d, t))
    case Publish(q, _) =>
      (match Attempt(cfg, d.record, q)
       case Committed(next, _) =>
         if q.action.profile !in next.profiles then End(d, t)
         else Enter(d, t, if q.action.profile.reference.owner == Managed then WriteDocument(next)
             else WriteRecord(next))
       case _ => End(d, t))
    case Rewrite(id) =>
      if EnabledManaged(d.record, id) && id in d.documents
          then Enter(d, t, Calling(d.documents[id])).(recordLock := None)
      else End(d, t)
    case Collect(id) =>
      if id in d.documents && !References(d.record, id) then Enter(d, t, Unlinking) else End(d, t)
  }

  /** After any steps at all. */
  function Reached(cfg: Config, steps: seq<Step>): Disk {
    if steps == [] then BLANK else Next(cfg, Reached(cfg, steps[..|steps| - 1]), steps[|steps| - 1])
  }
}
