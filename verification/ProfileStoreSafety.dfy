/**
 What every interleaving of the store's operations keeps, crashes included: the record is that of the committed
 requests one after the other, every managed reference has its document, and no rewrite of a document is lost.
 */
module ProfileStoreSafety {
  import opened Options
  import opened Profiles
  import opened ProfileMutations
  import opened ProfileRuns
  import opened ProfileStore

  predicate PhaseOk(op: Operation, p: Phase) {
    match p
    case Waiting | Reading => true
    case Locked => !op.Manage?
    case WriteDocument(_) => op.Publish?
    case WriteRecord(_) => op.Manage? || op.Publish?
    case Calling(_) | Called(_, _) | Rechecking(_, _) | Rewriting(_, _) => op.Rewrite?
    case Unlinking => op.Collect?
  }

  predicate OpsOk(d: Disk) {
    forall t :: t in d.threads ==> OperationOk(d.threads[t].op) && PhaseOk(d.threads[t].op, d.threads[t].phase)
  }

  predicate RecordLockOk(d: Disk) {
    && (d.recordLock.Some? ==> d.recordLock.value in d.threads && HoldsRecord(d.threads[d.recordLock.value].phase))
    && forall t :: t in d.threads && HoldsRecord(d.threads[t].phase) ==> d.recordLock == Some(t)
  }

  predicate CredentialLocksOk(d: Disk)
    requires OpsOk(d)
  {
    && (forall id :: id in d.credentialLocks ==>
          d.credentialLocks[id] in d.threads && HoldsCredential(d.threads[d.credentialLocks[id]])
          && CredentialOf(d.threads[d.credentialLocks[id]].op) == id)
    && forall t :: t in d.threads && HoldsCredential(d.threads[t]) ==>
         CredentialOf(d.threads[t].op) in d.credentialLocks && d.credentialLocks[CredentialOf(d.threads[t].op)] == t
  }

  predicate LocksOk(d: Disk) { OpsOk(d) && RecordLockOk(d) && CredentialLocksOk(d) }

  // ------------------------------------------------------------------ locks

  lemma EndKeepsLocks(d: Disk, t: nat)
    requires LocksOk(d)
    ensures LocksOk(End(d, t))
  {
  }

  lemma EnterKeepsLocks(d: Disk, t: nat, phase: Phase)
    requires LocksOk(d) && t in d.threads && !d.threads[t].phase.Waiting? && !phase.Waiting?
    requires PhaseOk(d.threads[t].op, phase) && HoldsRecord(phase) == HoldsRecord(d.threads[t].phase)
    ensures LocksOk(Enter(d, t, phase))
  {
  }

  lemma TakeRecordKeepsLocks(d: Disk, t: nat, phase: Phase)
    requires LocksOk(d) && t in d.threads && WantsRecord(d.threads[t]) && d.recordLock.None?
    requires PhaseOk(d.threads[t].op, phase) && HoldsRecord(phase)
    ensures LocksOk(Enter(d, t, phase).(recordLock := Some(t)))
  {
  }

  lemma TakeCredentialKeepsLocks(d: Disk, t: nat)
    requires LocksOk(d) && t in d.threads && d.threads[t].phase.Waiting? && TakesCredential(d.threads[t].op)
    requires CredentialOf(d.threads[t].op) !in d.credentialLocks
    ensures LocksOk(Enter(d, t, Locked).(credentialLocks := d.credentialLocks[CredentialOf(d.threads[t].op) := t]))
  {
  }

  lemma DropRecordKeepsLocks(d: Disk, t: nat, before: string)
    requires LocksOk(d) && t in d.threads && d.threads[t].op.Rewrite? && d.threads[t].phase.Reading?
    ensures LocksOk(Enter(d, t, Calling(before)).(recordLock := None))
  {
  }

  /** The locks do not depend on what is on the disk. */
  lemma ContentAside(d: Disk, e: Disk)
    requires LocksOk(d) && d.threads == e.threads && d.recordLock == e.recordLock &&
               d.credentialLocks == e.credentialLocks
    ensures LocksOk(e)
  {
  }

  lemma ReadKeepsLocks(cfg: Config, d: Disk, t: nat)
    requires LocksOk(d) && t in d.threads && d.threads[t].phase.Reading? && OperationOk(d.threads[t].op)
    ensures LocksOk(Read(cfg, d, t))
  {
    hide LocksOk, Attempt, EnabledManaged, ProfileStore.References, End, Enter;
    EndKeepsLocks(d, t);
    var op := d.threads[t].op;
    match op
    case Manage(q) =>
      if Attempt(cfg, d.record, q).Committed? { EnterKeepsLocks(d, t, WriteRecord(Attempt(cfg, d.record, q).record)); }
    case Publish(q, _) =>
      if Attempt(cfg, d.record, q).Committed? {
        EnterKeepsLocks(d, t, WriteRecord(Attempt(cfg, d.record, q).record));
        EnterKeepsLocks(d, t, WriteDocument(Attempt(cfg, d.record, q).record));
      }
    case Rewrite(id) => if id in d.documents { DropRecordKeepsLocks(d, t, d.documents[id]); }
    case Collect(id) => EnterKeepsLocks(d, t, Unlinking);
  }

  lemma ContentOfEnd(d: Disk, e: Disk, t: nat)
    requires LocksOk(d) && d.threads == e.threads && d.recordLock == e.recordLock &&
               d.credentialLocks == e.credentialLocks
    ensures LocksOk(End(e, t))
  {
    hide LocksOk, End;
    ContentAside(d, e);
    EndKeepsLocks(e, t);
  }

  lemma OpOf(d: Disk, t: nat)
    requires LocksOk(d) && t in d.threads
    ensures OperationOk(d.threads[t].op) && PhaseOk(d.threads[t].op, d.threads[t].phase)
  {
  }

  lemma GoKeepsLocks(cfg: Config, d: Disk, t: nat, reply: Option<string>)
    requires LocksOk(d) && Can(d, Go(t, reply))
    ensures LocksOk(Next(cfg, d, Go(t, reply)))
  {
    hide LocksOk, Attempt, EnabledManaged, ProfileStore.References, End, Enter, Read;
    OpOf(d, t);
    var op := d.threads[t].op;
    EndKeepsLocks(d, t);
    match d.threads[t].phase
    case Waiting => if op.Manage? { TakeRecordKeepsLocks(d, t, Reading); } else { TakeCredentialKeepsLocks(d, t); }
    case Locked => TakeRecordKeepsLocks(d, t, Reading);
    case Reading => ReadKeepsLocks(cfg, d, t);
    case WriteDocument(next) =>
      var e := d.(documents := d.documents[CredentialOf(op) := op.content]);
      ContentAside(d, e);
      EnterKeepsLocks(e, t, WriteRecord(next));
    case WriteRecord(next) => ContentOfEnd(d, d.(record := Some(next), committed := d.committed + [op.request]), t);
    case Calling(before) => EnterKeepsLocks(d, t, Called(before, reply));
    case Called(before, result) => TakeRecordKeepsLocks(d, t, Rechecking(before, result));
    case Rechecking(before, result) => if result.Some? { EnterKeepsLocks(d, t, Rewriting(before, result.value)); }
    case Rewriting(before, content) =>
      if op.id in d.documents {
        var entry := Rewritten(op.id, before, d.documents[op.id], content, EnabledManaged(d.record, op.id));
        ContentOfEnd(d, d.(documents := d.documents[op.id := content], rewritten := d.rewritten + [entry]), t);
      }
    case Unlinking => ContentOfEnd(d, d.(documents := d.documents - {op.id}), t);
  }

  lemma StepKeepsLocks(cfg: Config, d: Disk, s: Step)
    requires LocksOk(d) && Can(d, s)
    ensures LocksOk(Next(cfg, d, s))
  {
    hide LocksOk;
    match s
    case Spawn(t, op) => SpawnKeepsLocks(cfg, d, t, op);
    case Crash(t) => EndKeepsLocks(d, t);
    case Go(t, reply) => GoKeepsLocks(cfg, d, t, reply);
  }

  lemma SpawnKeepsLocks(cfg: Config, d: Disk, t: nat, op: Operation)
    requires LocksOk(d) && Can(d, Spawn(t, op))
    ensures LocksOk(Next(cfg, d, Spawn(t, op)))
  {
  }

  // -------------------------------------------------- what a thread relies on

  predicate Decides(cfg: Config, r: Option<Record>, q: Request, next: Record) {
    Attempt(cfg, r, q).Committed? && Attempt(cfg, r, q).record == next
  }

  predicate Unchanged(d: Disk, id: string, before: string) { id in d.documents && d.documents[id] == before }

  /** What a thread has read is still so. */
  predicate Knows(cfg: Config, d: Disk, t: nat)
    requires t in d.threads && PhaseOk(d.threads[t].op, d.threads[t].phase) && OperationOk(d.threads[t].op)
  {
    var op := d.threads[t].op;
    match d.threads[t].phase
    case WriteDocument(next) =>
      Decides(cfg, d.record, op.request, next) && op.request.action.profile.reference.owner == Managed
    case WriteRecord(next) =>
      Decides(cfg, d.record, op.request, next) &&
      (op.Publish? && op.request.action.profile.reference.owner == Managed ==>
          op.request.action.profile.id in d.documents)
    case Calling(before) => Unchanged(d, op.id, before)
    case Called(before, _) => Unchanged(d, op.id, before)
    case Rechecking(before, _) => Unchanged(d, op.id, before)
    case Rewriting(before, _) => Unchanged(d, op.id, before) && EnabledManaged(d.record, op.id)
    case Unlinking => !ProfileStore.References(d.record, op.id)
    case _ => true
  }

  predicate Known(cfg: Config, d: Disk)
    requires LocksOk(d)
  {
    forall t :: t in d.threads ==> Knows(cfg, d, t)
  }

  /** One disk is another as far as the locks of a thread reach. */
  predicate SameFor(d: Disk, e: Disk, t: nat)
    requires t in d.threads && OperationOk(d.threads[t].op)
  {
    && t in e.threads && e.threads[t] == d.threads[t]
    && (HoldsRecord(d.threads[t].phase) ==> e.record == d.record)
    && (HoldsCredential(d.threads[t]) ==>
          var id := CredentialOf(d.threads[t].op);
          (id in d.documents <==> id in e.documents) && (id in d.documents ==> e.documents[id] == d.documents[id]))
  }

  lemma KnowsFrame(cfg: Config, d: Disk, e: Disk, t: nat)
    requires LocksOk(d) && t in d.threads && Knows(cfg, d, t) && SameFor(d, e, t)
    ensures OperationOk(e.threads[t].op) && PhaseOk(e.threads[t].op, e.threads[t].phase) && Knows(cfg, e, t)
  {
    hide EnabledManaged, ProfileStore.References, Decides;
  }

  /** A thread touches only what its locks cover. */
  lemma OthersSeeTheSame(cfg: Config, d: Disk, s: Step, u: nat)
    requires LocksOk(d) && Can(d, s) && u in d.threads && u != s.thread
    ensures SameFor(d, Next(cfg, d, s), u)
  {
    hide EnabledManaged, ProfileStore.References, Attempt, Read, LocksOk;
    OpOf(d, u);
    match s
    case Spawn(_, _) =>
    case Crash(_) =>
    case Go(t, _) =>
      OpOf(d, t);
      LocksExclude(d, t, u);
      if d.threads[t].phase.Reading? { ReadingChangesNothing(cfg, d, t, u); }
  }

  lemma LocksExclude(d: Disk, t: nat, u: nat)
    requires LocksOk(d) && t in d.threads && u in d.threads && t != u
    ensures !(HoldsRecord(d.threads[t].phase) && HoldsRecord(d.threads[u].phase))
    ensures HoldsCredential(d.threads[t]) && HoldsCredential(d.threads[u]) ==>
              CredentialOf(d.threads[t].op) != CredentialOf(d.threads[u].op)
  {
  }

  lemma ReadingChangesNothing(cfg: Config, d: Disk, t: nat, u: nat)
    requires t in d.threads && OperationOk(d.threads[t].op) && u in d.threads && u != t
    ensures var e := Read(cfg, d, t);
            e.record == d.record && e.documents == d.documents && u in e.threads && e.threads[u] == d.threads[u]
  {
    hide EnabledManaged, ProfileStore.References, Attempt;
  }

  lemma ReadTells(cfg: Config, d: Disk, t: nat)
    requires LocksOk(d) && t in d.threads && d.threads[t].phase.Reading? && OperationOk(d.threads[t].op)
    ensures var e := Read(cfg, d, t);
            t in e.threads ==>
                PhaseOk(e.threads[t].op, e.threads[t].phase) && OperationOk(e.threads[t].op) && Knows(cfg, e, t)
  {
    hide EnabledManaged, ProfileStore.References, Attempt, LocksOk;
  }

  lemma StepTells(cfg: Config, d: Disk, t: nat, reply: Option<string>)
    requires LocksOk(d) && Can(d, Go(t, reply)) && Knows(cfg, d, t)
    ensures var e := Next(cfg, d, Go(t, reply));
            t in e.threads ==>
                PhaseOk(e.threads[t].op, e.threads[t].phase) && OperationOk(e.threads[t].op) && Knows(cfg, e, t)
  {
    hide EnabledManaged, ProfileStore.References, Attempt, Read, LocksOk;
    OpOf(d, t);
    if d.threads[t].phase.Reading? { ReadTells(cfg, d, t); }
  }

  lemma StepKeepsKnown(cfg: Config, d: Disk, s: Step)
    requires LocksOk(d) && Known(cfg, d) && Can(d, s)
    ensures LocksOk(Next(cfg, d, s)) && Known(cfg, Next(cfg, d, s))
  {
    hide LocksOk, Knows, Next, Can;
    StepKeepsLocks(cfg, d, s);
    var e := Next(cfg, d, s);
    forall u | u in e.threads
      ensures PhaseOk(e.threads[u].op, e.threads[u].phase) && OperationOk(e.threads[u].op) && Knows(cfg, e, u)
    {
      OpOf(e, u);
      if u == s.thread {
        StepperKnows(cfg, d, s);
      } else {
        OnlyTheStepperComes(cfg, d, s, u);
        OthersSeeTheSame(cfg, d, s, u);
        KnowsFrame(cfg, d, e, u);
      }
    }
  }

  lemma StepperKnows(cfg: Config, d: Disk, s: Step)
    requires LocksOk(d) && Known(cfg, d) && Can(d, s) && s.thread in Next(cfg, d, s).threads && LocksOk(Next(cfg, d, s))
    ensures Knows(cfg, Next(cfg, d, s), s.thread)
  {
    hide LocksOk, EnabledManaged, ProfileStore.References, Attempt, Read;
    OpOf(Next(cfg, d, s), s.thread);
    match s
    case Spawn(_, _) =>
    case Crash(_) =>
    case Go(t, reply) =>
      hide Next, Knows;
      StepTells(cfg, d, t, reply);
  }

  lemma OnlyTheStepperComes(cfg: Config, d: Disk, s: Step, u: nat)
    requires LocksOk(d) && Can(d, s) && u in Next(cfg, d, s).threads && u != s.thread
    ensures u in d.threads
  {
    hide LocksOk, Can, Next;
    if s.Go? {
      GoerIsThere(d, s.thread, s.reply);
      if d.threads[s.thread].phase.WriteRecord? || d.threads[s.thread].phase.Rewriting? {
        WritersEnd(cfg, d, s.thread, s.reply);
      }
      else { MostStepsDoNotCommit(cfg, d, s); }
    } else if s.Crash? {
      MostStepsDoNotCommit(cfg, d, s);
    } else {
      SpawnAddsOne(cfg, d, s);
    }
  }

  lemma GoerIsThere(d: Disk, t: nat, reply: Option<string>)
    requires Can(d, Go(t, reply))
    ensures t in d.threads
  {
  }

  lemma WritersEnd(cfg: Config, d: Disk, t: nat, reply: Option<string>)
    requires Can(d, Go(t, reply)) && (d.threads[t].phase.WriteRecord? || d.threads[t].phase.Rewriting?)
    ensures Next(cfg, d, Go(t, reply)).threads == d.threads - {t}
  {
    hide EnabledManaged;
  }

  lemma SpawnAddsOne(cfg: Config, d: Disk, s: Step)
    requires Can(d, s) && s.Spawn?
    ensures Next(cfg, d, s).threads == d.threads[s.thread := Thread(s.op, Waiting)]
  {
    hide Fresh;
  }

  // ------------------------------------------------------------- refinement

  function IdsOfThread(d: Disk, t: nat): set<string>
    requires t in d.threads
  {
    Ids(d.threads[t].op)
  }

  predicate RequestFresh(op: Operation) {
    op.Manage? || op.Publish? ==> Fresh(EMPTY, op.request)
  }

  /** The identifiers made for different operations differ, and differ from all that were committed. */
  predicate IdsApart(cfg: Config, d: Disk) {
    && ABSENT in d.used
    && After(cfg, d.committed).made <= d.used
    && (forall t :: t in d.threads ==>
          IdsOfThread(d, t) <= d.used && IdsOfThread(d, t) !! After(cfg, d.committed).made &&
              RequestFresh(d.threads[t].op))
    && forall t, u :: t in d.threads && u in d.threads && t != u ==> IdsOfThread(d, t) !! IdsOfThread(d, u)
  }

  /** The record is what the committed requests give when they are performed one after the other. */
  predicate Refines(cfg: Config, d: Disk) {
    Legal(cfg, d.committed) && After(cfg, d.committed).record == d.record && IdsApart(cfg, d)
  }

  /** The step changes neither the record nor the requests, rewrites no document, and no operation comes in. */
  predicate NoCommit(d: Disk, e: Disk) {
    && e.record == d.record && e.committed == d.committed && e.used == d.used && e.rewritten == d.rewritten
    && forall t :: t in e.threads ==> t in d.threads && e.threads[t].op == d.threads[t].op
  }

  lemma NoCommitRefines(cfg: Config, d: Disk, e: Disk)
    requires Refines(cfg, d) && NoCommit(d, e)
    ensures Refines(cfg, e)
  {
    hide After, Legal, Ids;
  }

  lemma SpawnRefines(cfg: Config, d: Disk, t: nat, op: Operation)
    requires Refines(cfg, d) && Can(d, Spawn(t, op))
    ensures Refines(cfg, Next(cfg, d, Spawn(t, op)))
  {
    hide After, Legal, Ids;
  }

  lemma MostStepsDoNotCommit(cfg: Config, d: Disk, s: Step)
    requires LocksOk(d) && Can(d, s) && !s.Spawn?
    requires s.Go? ==> !d.threads[s.thread].phase.WriteRecord? && !d.threads[s.thread].phase.Rewriting?
    ensures NoCommit(d, Next(cfg, d, s))
  {
    hide EnabledManaged, ProfileStore.References, Attempt, LocksOk, Read;
    if s.Go? {
      OpOf(d, s.thread);
      if d.threads[s.thread].phase.Reading? { ReadingDoesNotCommit(cfg, d, s.thread); }
    }
  }

  lemma ReadingDoesNotCommit(cfg: Config, d: Disk, t: nat)
    requires t in d.threads && OperationOk(d.threads[t].op)
    ensures NoCommit(d, Read(cfg, d, t))
  {
    hide EnabledManaged, ProfileStore.References, Attempt;
  }

  lemma CommitRefines(cfg: Config, d: Disk, t: nat, reply: Option<string>)
    requires LocksOk(d) && Can(d, Go(t, reply)) && Known(cfg, d) && Refines(cfg, d) && d.threads[t].phase.WriteRecord?
    ensures Refines(cfg, Next(cfg, d, Go(t, reply)))
  {
    hide EnabledManaged, ProfileStore.References, Attempt, After, Legal, Perform, Knows, Fresh;
    OpOf(d, t);
    var q := d.threads[t].op.request;
    WriterDecides(cfg, d, t);
    CommitPerforms(cfg, d, t);
  }

  lemma WriterDecides(cfg: Config, d: Disk, t: nat)
    requires LocksOk(d) && t in d.threads && Known(cfg, d) && d.threads[t].phase.WriteRecord?
    ensures (d.threads[t].op.Manage? || d.threads[t].op.Publish?) &&
              Decides(cfg, d.record, d.threads[t].op.request, d.threads[t].phase.record)
  {
    hide LocksOk, Attempt;
    OpOf(d, t);
    assert Knows(cfg, d, t);
  }

  lemma CommitPerforms(cfg: Config, d: Disk, t: nat)
    requires t in d.threads && Refines(cfg, d) && (d.threads[t].op.Manage? || d.threads[t].op.Publish?)
    requires d.threads[t].phase.WriteRecord? && Decides(cfg, d.record, d.threads[t].op.request,
               d.threads[t].phase.record)
    ensures var all := d.committed + [d.threads[t].op.request];
            && Legal(cfg, all) && After(cfg, all).record == Some(d.threads[t].phase.record)
            && After(cfg, all).made == After(cfg, d.committed).made + IdsOfThread(d, t)
  {
    hide Attempt;
    var q := d.threads[t].op.request;
    assert (d.committed + [q])[..|d.committed|] == d.committed;
    assert IdsOfThread(d, t) == Made(q) && RequestFresh(d.threads[t].op);
    assert Fresh(After(cfg, d.committed), q);
  }

  lemma RewriteRefines(cfg: Config, d: Disk, t: nat, reply: Option<string>)
    requires Refines(cfg, d) && Can(d, Go(t, reply)) && d.threads[t].phase.Rewriting?
    ensures Refines(cfg, Next(cfg, d, Go(t, reply)))
  {
    hide After, Legal, Ids, EnabledManaged;
  }

  lemma StepRefines(cfg: Config, d: Disk, s: Step)
    requires LocksOk(d) && Known(cfg, d) && Refines(cfg, d) && Can(d, s)
    ensures Refines(cfg, Next(cfg, d, s))
  {
    hide LocksOk, Known, Refines, NoCommit, Next;
    if s.Spawn? { SpawnRefines(cfg, d, s.thread, s.op); }
    else if s.Go? && d.threads[s.thread].phase.WriteRecord? { CommitRefines(cfg, d, s.thread, s.reply); }
    else if s.Go? && d.threads[s.thread].phase.Rewriting? { RewriteRefines(cfg, d, s.thread, s.reply); }
    else {
      MostStepsDoNotCommit(cfg, d, s);
      NoCommitRefines(cfg, d, Next(cfg, d, s));
    }
  }

  // --------------------------------------------------------------- documents

  ghost predicate NoDangling(d: Disk) {
    forall id :: ProfileStore.References(d.record, id) ==> id in d.documents
  }

  lemma OwnerIsKind(cfg: Config, r: Option<Record>, i: nat)
    requires ValidOrAbsent(cfg, r) && r.Some? && i < |r.value.profiles|
    ensures r.value.profiles[i].reference.owner == Managed <==> r.value.profiles[i].kind != LocalOAuth
  {
    assert ProfileOk(cfg, r.value.profiles[i]);
  }

  /** A commit refers to no document that was not referred to, except the one that is published with it. */
  lemma CommitAddsOnlyTheAcquired(cfg: Config, r: Option<Record>, q: Request, id: string)
    requires ValidOrAbsent(cfg, r) && Attempt(cfg, r, q).Committed? &&
               ProfileStore.References(Some(Attempt(cfg, r, q).record), id)
    ensures ProfileStore.References(r, id) ||
            (q.action.DoAcquire? && q.action.profile.id == id && q.action.profile.reference.owner == Managed)
  {
    hide Mutate, ProfileOk, Distinct, OneLocal;
    var next := Attempt(cfg, r, q).record;
    var k :| 0 <= k < |next.profiles| && next.profiles[k].reference.owner == Managed && next.profiles[k].id == id;
    var i := ComesFrom(cfg, r, q, k);
    OwnerIsKind(cfg, Some(next), k);
    if !(q.action.DoAcquire? && next.profiles[k] == q.action.profile) { OwnerIsKind(cfg, r, i); }
  }

  lemma CurrentIsValid(cfg: Config, d: Disk)
    requires Refines(cfg, d)
    ensures ValidOrAbsent(cfg, d.record)
  {
    hide After, Legal, Valid;
    RunsKeep(cfg, d.committed);
  }

  /** The record or the documents change in one step only as far as the acting thread's locks allow. */
  predicate DocumentsStay(d: Disk, e: Disk) {
    e.record == d.record && forall id :: id in d.documents ==> id in e.documents
  }

  lemma MostStepsKeepDocuments(cfg: Config, d: Disk, s: Step)
    requires LocksOk(d) && Can(d, s)
    requires s.Go? ==> !d.threads[s.thread].phase.WriteRecord? && !d.threads[s.thread].phase.Unlinking?
    ensures DocumentsStay(d, Next(cfg, d, s))
  {
    hide EnabledManaged, ProfileStore.References, Attempt, LocksOk;
  }

  lemma StepKeepsNoDangling(cfg: Config, d: Disk, s: Step)
    requires LocksOk(d) && Known(cfg, d) && Refines(cfg, d) && NoDangling(d) && Can(d, s)
    ensures NoDangling(Next(cfg, d, s))
  {
    hide LocksOk, Known, Refines, Next, Attempt;
    if s.Go? && d.threads[s.thread].phase.WriteRecord? { CommitIsBacked(cfg, d, s.thread, s.reply); }
    else if s.Go? && d.threads[s.thread].phase.Unlinking? { UnlinkedIsOrphan(cfg, d, s.thread, s.reply); }
    else { MostStepsKeepDocuments(cfg, d, s); }
  }

  lemma CommitIsBacked(cfg: Config, d: Disk, t: nat, reply: Option<string>)
    requires LocksOk(d) && Known(cfg, d) && Refines(cfg, d) && NoDangling(d) && Can(d, Go(t, reply)) &&
               d.threads[t].phase.WriteRecord?
    ensures NoDangling(Next(cfg, d, Go(t, reply)))
  {
    hide LocksOk, Refines, Attempt, ProfileStore.References, EnabledManaged;
    OpOf(d, t);
    assert Knows(cfg, d, t);
    CurrentIsValid(cfg, d);
    var q := d.threads[t].op.request;
    forall id | ProfileStore.References(Some(d.threads[t].phase.record), id)
      ensures id in d.documents
    {
      CommitAddsOnlyTheAcquired(cfg, d.record, q, id);
    }
  }

  lemma UnlinkedIsOrphan(cfg: Config, d: Disk, t: nat, reply: Option<string>)
    requires LocksOk(d) && Known(cfg, d) && NoDangling(d) && Can(d, Go(t, reply)) && d.threads[t].phase.Unlinking?
    ensures NoDangling(Next(cfg, d, Go(t, reply)))
  {
    hide LocksOk, Attempt, ProfileStore.References, EnabledManaged;
    OpOf(d, t);
    assert Knows(cfg, d, t);
  }

  /** Each rewrite of a document replaced what its callback had been given, for a profile that was enabled. */
  predicate RewritesExact(d: Disk) {
    forall i :: 0 <= i < |d.rewritten| ==> d.rewritten[i].given == d.rewritten[i].replaced && d.rewritten[i].enabled
  }

  lemma MostStepsDoNotRewrite(cfg: Config, d: Disk, s: Step)
    requires LocksOk(d) && Can(d, s) && (s.Go? ==> !d.threads[s.thread].phase.Rewriting?)
    ensures Next(cfg, d, s).rewritten == d.rewritten
  {
    hide EnabledManaged, ProfileStore.References, Attempt, LocksOk, Read;
    if s.Go? {
      OpOf(d, s.thread);
      if d.threads[s.thread].phase.Reading? { ReadingDoesNotCommit(cfg, d, s.thread); }
    }
  }

  lemma StepKeepsRewrites(cfg: Config, d: Disk, s: Step)
    requires LocksOk(d) && Known(cfg, d) && RewritesExact(d) && Can(d, s)
    ensures RewritesExact(Next(cfg, d, s))
  {
    hide LocksOk, Known, Attempt, EnabledManaged, ProfileStore.References, Read;
    if s.Go? && d.threads[s.thread].phase.Rewriting? {
      OpOf(d, s.thread);
      RewriterKnows(cfg, d, s.thread);
    } else {
      MostStepsDoNotRewrite(cfg, d, s);
    }
  }

  lemma RewriterKnows(cfg: Config, d: Disk, t: nat)
    requires LocksOk(d) && Known(cfg, d) && t in d.threads && d.threads[t].phase.Rewriting?
    ensures d.threads[t].op.Rewrite? && Unchanged(d, d.threads[t].op.id, d.threads[t].phase.before) &&
              EnabledManaged(d.record, d.threads[t].op.id)
  {
    hide LocksOk;
    OpOf(d, t);
    assert Knows(cfg, d, t);
  }

  // ---------------------------------------------------------------- all runs

  ghost predicate Safe(cfg: Config, d: Disk) {
    LocksOk(d) && Known(cfg, d) && Refines(cfg, d) && NoDangling(d) && RewritesExact(d)
  }

  lemma UntakenChangesNothing(cfg: Config, d: Disk, s: Step)
    requires !Can(d, s)
    ensures Next(cfg, d, s) == d
  {
  }

  lemma BlankIsSafe(cfg: Config)
    ensures Safe(cfg, BLANK)
  {
  }

  lemma {:induction false} ReachedIsSafe(cfg: Config, steps: seq<Step>)
    ensures Safe(cfg, Reached(cfg, steps))
    decreases |steps|
  {
    hide LocksOk, Known, Refines, NoDangling, RewritesExact, Can, Next;
    if steps == [] {
      BlankIsSafe(cfg);
    } else {
      var (d, s) := (Reached(cfg, steps[..|steps| - 1]), steps[|steps| - 1]);
      ReachedIsSafe(cfg, steps[..|steps| - 1]);
      if !Can(d, s) {
        UntakenChangesNothing(cfg, d, s);
      } else {
        StepKeepsKnown(cfg, d, s);
        StepRefines(cfg, d, s);
        StepKeepsNoDangling(cfg, d, s);
        StepKeepsRewrites(cfg, d, s);
      }
    }
  }

  /** However operations interleave and crash, the record is that of the committed requests in their order; so
      all that holds of sequential runs holds of it. */
  lemma RecordIsSequential(cfg: Config, steps: seq<Step>)
    ensures var d := Reached(cfg, steps);
            Legal(cfg, d.committed) && After(cfg, d.committed).record == d.record && ValidOrAbsent(cfg, d.record)
  {
    hide LocksOk, Known, NoDangling, RewritesExact, Reached, After, Legal, Valid;
    ReachedIsSafe(cfg, steps);
    CurrentIsValid(cfg, Reached(cfg, steps));
  }

  /** No reachable record refers to a managed document that is not there. */
  lemma NoDanglingCredential(cfg: Config, steps: seq<Step>, id: string)
    requires ProfileStore.References(Reached(cfg, steps).record, id)
    ensures id in Reached(cfg, steps).documents
  {
    hide LocksOk, Known, Refines, RewritesExact, Reached;
    ReachedIsSafe(cfg, steps);
  }

  /** A rewrite of a document never overwrites content that its callback has not seen, nor the document of a
      profile that has been removed or disabled meanwhile. */
  lemma NoLostRewrite(cfg: Config, steps: seq<Step>, i: nat)
    requires i < |Reached(cfg, steps).rewritten|
    ensures var r := Reached(cfg, steps).rewritten[i]; r.given == r.replaced && r.enabled
  {
    hide LocksOk, Known, Refines, NoDangling, Reached;
    ReachedIsSafe(cfg, steps);
  }

  // --------------------------------------------------------------- progress

  /** As long as there are threads, some thread can go on. */
  lemma NoDeadlock(cfg: Config, steps: seq<Step>) returns (t: nat)
    requires Reached(cfg, steps).threads != map[]
    ensures Can(Reached(cfg, steps), Go(t, None))
  {
    hide Known, Refines, NoDangling, RewritesExact, Reached, LocksOk;
    ReachedIsSafe(cfg, steps);
    t := SomeoneCanGo(Reached(cfg, steps));
  }

  lemma SomeoneCanGo(d: Disk) returns (t: nat)
    requires LocksOk(d) && d.threads != map[]
    ensures Can(d, Go(t, None))
  {
    if d.recordLock.Some? {
      t := d.recordLock.value;
    } else {
      t :| t in d.threads;
      var thread := d.threads[t];
      if thread.phase.Waiting? && TakesCredential(thread.op) && CredentialOf(thread.op) in d.credentialLocks {
        t := d.credentialLocks[CredentialOf(thread.op)];
      }
    }
  }

  /** How many steps a thread has left at most. */
  function StepsLeft(p: Phase): nat {
    match p
    case Waiting => 7
    case Locked => 6
    case Reading => 5
    case Calling(_) => 4
    case Called(_, _) => 3
    case WriteDocument(_) | Rechecking(_, _) => 2
    case WriteRecord(_) | Rewriting(_, _) | Unlinking => 1
  }

  /** Every step of a thread brings it nearer to its end. */
  lemma StepsRunOut(cfg: Config, steps: seq<Step>, t: nat, reply: Option<string>)
    requires Can(Reached(cfg, steps), Go(t, reply))
    ensures var (d, e) := (Reached(cfg, steps), Next(cfg, Reached(cfg, steps), Go(t, reply)));
            t in e.threads ==> StepsLeft(e.threads[t].phase) < StepsLeft(d.threads[t].phase)
  {
    hide LocksOk, Known, Refines, NoDangling, RewritesExact, Reached, Attempt, EnabledManaged, ProfileStore.References;
    ReachedIsSafe(cfg, steps);
    OpOf(Reached(cfg, steps), t);
  }
}
