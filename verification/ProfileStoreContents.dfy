/**
 What the documents of the store hold, told from the steps that were taken: whatever interleaves or crashes, a
 document is what was published last or what the callback of its last rewrite replied. And what an operation does
 that nobody disturbs.
 */
module ProfileStoreContents {
  import opened Options
  import opened Profiles
  import opened ProfileRuns
  import opened ProfileStore
  import opened ProfileStoreSafety
  import ProfileMemoryStore

  // ------------------------------------------------------------- last writes

  /** What the callback of the operation that runs in this thread has replied. */
  function LastReply(cfg: Config, steps: seq<Step>, t: nat): Option<string> {
    if steps == [] then None
    else
      var (front, s) := (steps[..|steps| - 1], steps[|steps| - 1]);
      var d := Reached(cfg, front);
      if Can(d, s) && s.thread == t && s.Spawn? then None
      else if Can(d, s) && s.thread == t && s.Go? && d.threads[t].phase.Calling? then s.reply
      else LastReply(cfg, front, t)
  }

  /** What the step stores for the credential, if it is one that writes or deletes its document. */
  function Stores(cfg: Config, steps: seq<Step>, s: Step, id: string): Option<Option<string>> {
    var d := Reached(cfg, steps);
    if !s.Go? || !Can(d, s) then None
    else
      var (op, phase) := (d.threads[s.thread].op, d.threads[s.thread].phase);
      if !TakesCredential(op) || CredentialOf(op) != id then None
      else if op.Publish? && phase.WriteDocument? then Some(Some(op.content))
      else if op.Rewrite? && phase.Rewriting? then Some(LastReply(cfg, steps, s.thread))
      else if op.Collect? && phase.Unlinking? then Some(None)
      else None
  }

  /** What the last such step stored. */
  function LastStored(cfg: Config, steps: seq<Step>, id: string): Option<string> {
    if steps == [] then None
    else
      var (front, s) := (steps[..|steps| - 1], steps[|steps| - 1]);
      var stored := Stores(cfg, front, s, id);
      if stored.Some? then stored.value else LastStored(cfg, front, id)
  }

  /** A rewrite carries the reply along. */
  predicate Carries(th: Thread, reply: Option<string>) {
    match th.phase
    case Called(_, r) => r == reply
    case Rechecking(_, r) => r == reply
    case Rewriting(_, content) => reply == Some(content)
    case _ => true
  }

  lemma ReadingCarriesNothing(cfg: Config, d: Disk, t: nat, reply: Option<string>)
    requires t in d.threads && OperationOk(d.threads[t].op) && t in Read(cfg, d, t).threads
    ensures d.threads[t].phase.Reading? ==> Carries(Read(cfg, d, t).threads[t], reply)
  {
    hide Attempt, EnabledManaged, ProfileStore.References;
  }

  lemma GoCarries(cfg: Config, d: Disk, t: nat, r: Option<string>, reply: Option<string>)
    requires Can(d, Go(t, r)) && Carries(d.threads[t], reply) && t in Next(cfg, d, Go(t, r)).threads
    ensures Carries(Next(cfg, d, Go(t, r)).threads[t], if d.threads[t].phase.Calling? then r else reply)
  {
    hide Next, Carries;
    match d.threads[t].phase
    case Reading =>
      ReadingReads(cfg, d, t, r);
      ReadingCarriesNothing(cfg, d, t, reply);
    case Calling(_) | Called(_, _) | Rechecking(_, _) => RewriterCarries(cfg, d, t, r, reply);
    case Rewriting(_, _) | WriteRecord(_) | Unlinking => LastStepEnds(cfg, d, t, r);
    case Waiting | Locked | WriteDocument(_) => EarlyCarriesNothing(cfg, d, t, r, reply);
  }

  lemma ReadingReads(cfg: Config, d: Disk, t: nat, r: Option<string>)
    requires Can(d, Go(t, r)) && d.threads[t].phase.Reading?
    ensures Next(cfg, d, Go(t, r)) == Read(cfg, d, t)
  {
    hide Read;
  }

  lemma RewriterCarries(cfg: Config, d: Disk, t: nat, r: Option<string>, reply: Option<string>)
    requires Can(d, Go(t, r)) && Carries(d.threads[t], reply) && t in Next(cfg, d, Go(t, r)).threads
    requires d.threads[t].phase.Calling? || d.threads[t].phase.Called? || d.threads[t].phase.Rechecking?
    ensures Carries(Next(cfg, d, Go(t, r)).threads[t], if d.threads[t].phase.Calling? then r else reply)
  {
    hide Read, EnabledManaged, Release, CredentialOf, Ids;
  }

  lemma LastStepEnds(cfg: Config, d: Disk, t: nat, r: Option<string>)
    requires Can(d, Go(t, r))
    requires d.threads[t].phase.Rewriting? || d.threads[t].phase.WriteRecord? || d.threads[t].phase.Unlinking?
    ensures t !in Next(cfg, d, Go(t, r)).threads
  {
    hide Read, EnabledManaged, Release, CredentialOf, Ids;
  }

  lemma EarlyCarriesNothing(cfg: Config, d: Disk, t: nat, r: Option<string>, reply: Option<string>)
    requires Can(d, Go(t, r)) && t in Next(cfg, d, Go(t, r)).threads
    requires d.threads[t].phase.Waiting? || d.threads[t].phase.Locked? || d.threads[t].phase.WriteDocument?
    ensures Carries(Next(cfg, d, Go(t, r)).threads[t], reply)
  {
    hide Read, EnabledManaged, Release, Ids;
  }

  lemma OthersStay(cfg: Config, d: Disk, s: Step, t: nat)
    requires LocksOk(d) && t in Next(cfg, d, s).threads && (Can(d, s) ==> s.thread != t)
    ensures t in d.threads && Next(cfg, d, s).threads[t] == d.threads[t]
  {
    if Can(d, s) {
      hide LocksOk, Next, Can;
      OnlyTheStepperComes(cfg, d, s, t);
      OpOf(d, t);
      OthersSeeTheSame(cfg, d, s, t);
    }
  }

  lemma {:induction false} RepliesAreCarried(cfg: Config, steps: seq<Step>, t: nat)
    requires t in Reached(cfg, steps).threads
    ensures Carries(Reached(cfg, steps).threads[t], LastReply(cfg, steps, t))
    decreases |steps|
  {
    hide Read, EnabledManaged, LocksOk, Known, Refines, NoDangling, RewritesExact;
    if steps != [] {
      var (front, s) := (steps[..|steps| - 1], steps[|steps| - 1]);
      var d := Reached(cfg, front);
      if t in d.threads { RepliesAreCarried(cfg, front, t); }
      if Can(d, s) && s.thread == t {
        StepperCarries(cfg, d, s, LastReply(cfg, front, t));
      } else {
        ReachedIsSafe(cfg, front);
        OthersStay(cfg, d, s, t);
      }
    }
  }

  lemma StepperCarries(cfg: Config, d: Disk, s: Step, reply: Option<string>)
    requires Can(d, s) && s.thread in Next(cfg, d, s).threads
    requires s.thread in d.threads ==> Carries(d.threads[s.thread], reply)
    ensures s.thread in d.threads || s.Spawn?
    ensures Carries(Next(cfg, d, s).threads[s.thread],
                    if s.Spawn? then None else if s.Go? && d.threads[s.thread].phase.Calling? then s.reply else reply)
  {
    match s
    case Spawn(_, _) =>
    case Crash(_) =>
    case Go(t, r) =>
      hide Next;
      GoCarries(cfg, d, t, r, reply);
  }

  /** What the step leaves of the document. */
  lemma StepStores(cfg: Config, steps: seq<Step>, s: Step, id: string)
    ensures var (before, after) := (Reached(cfg, steps).documents, Next(cfg, Reached(cfg, steps), s).documents);
            var stored := Stores(cfg, steps, s, id);
            Held(after, id) == if stored.Some? then stored.value else Held(before, id)
  {
    hide Read, EnabledManaged, LocksOk, Known, Refines, NoDangling, RewritesExact, Reached, LastReply;
    var d := Reached(cfg, steps);
    ReachedIsSafe(cfg, steps);
    if s.Go? && Can(d, s) {
      var t := s.thread;
      OpOf(d, t);
      if d.threads[t].phase.Rewriting? {
        RewriterKnows(cfg, d, t);
        RepliesAreCarried(cfg, steps, t);
      }
      GoStores(cfg, d, t, s.reply, id);
    }
  }

  function Held(documents: map<string, string>, id: string): Option<string> {
    if id in documents then Some(documents[id]) else None
  }

  lemma ReadingStoresNothing(cfg: Config, d: Disk, t: nat)
    requires t in d.threads && OperationOk(d.threads[t].op)
    ensures Read(cfg, d, t).documents == d.documents
  {
    hide Attempt, EnabledManaged, ProfileStore.References;
  }

  lemma GoStores(cfg: Config, d: Disk, t: nat, r: Option<string>, id: string)
    requires Can(d, Go(t, r)) && OperationOk(d.threads[t].op) && PhaseOk(d.threads[t].op, d.threads[t].phase)
    requires d.threads[t].phase.Rewriting? ==> d.threads[t].op.Rewrite? && d.threads[t].op.id in d.documents
    ensures var (op, phase, after) := (d.threads[t].op, d.threads[t].phase, Next(cfg, d, Go(t, r)).documents);
            Held(after, id) ==
            if !TakesCredential(op) || CredentialOf(op) != id then Held(d.documents, id)
            else match phase
                 case WriteDocument(_) => Some(op.content)
                 case Rewriting(_, content) => Some(content)
                 case Unlinking => None
                 case _ => Held(d.documents, id)
  {
    hide Read, EnabledManaged;
    if d.threads[t].phase.Reading? { ReadingStoresNothing(cfg, d, t); }
  }

  /** In every reachable state a document is there exactly if the last step that stored or deleted it stored it, and
      holds what that step stored: the published content, or the reply of the callback. */
  lemma {:induction false} DocumentsHoldLastStored(cfg: Config, steps: seq<Step>, id: string)
    ensures var documents := Reached(cfg, steps).documents;
            (if id in documents then Some(documents[id]) else None) == LastStored(cfg, steps, id)
    decreases |steps|
  {
    hide Next, Stores;
    if steps != [] {
      DocumentsHoldLastStored(cfg, steps[..|steps| - 1], id);
      StepStores(cfg, steps[..|steps| - 1], steps[|steps| - 1], id);
    }
  }

  /** Every rewrite of a document was a step of a thread that rewrites that document, and stored what the callback
      of that thread had replied. */
  lemma {:induction false} RewritesStoreTheReply(cfg: Config, steps: seq<Step>, i: nat) returns (n: nat)
    requires i < |Reached(cfg, steps).rewritten|
    ensures n < |steps| && steps[n].Go? && Can(Reached(cfg, steps[..n]), steps[n])
    ensures var (r, th) := (Reached(cfg, steps).rewritten[i], Reached(cfg, steps[..n]).threads[steps[n].thread]);
            && th.op == Operation.Rewrite(r.id) && th.phase.Rewriting?
            && Some(r.content) == LastReply(cfg, steps[..n], steps[n].thread)
    decreases |steps|
  {
    hide Can, Next, LastReply;
    var (front, s) := (steps[..|steps| - 1], steps[|steps| - 1]);
    var d := Reached(cfg, front);
    RewriteIsLogged(cfg, front, s);
    if i < |d.rewritten| {
      n := RewritesStoreTheReply(cfg, front, i);
      assert front[..n] == steps[..n];
    } else {
      n := |steps| - 1;
    }
  }

  lemma RewriteIsLogged(cfg: Config, steps: seq<Step>, s: Step)
    ensures var (d, e) := (Reached(cfg, steps), Next(cfg, Reached(cfg, steps), s));
            || e.rewritten == d.rewritten
            || (s.Go? && Can(d, s) && |e.rewritten| == |d.rewritten| + 1 && e.rewritten[..|d.rewritten|] == d.rewritten
                && var (r, th) := (e.rewritten[|d.rewritten|], d.threads[s.thread]);
                   && th.op == Operation.Rewrite(r.id) && th.phase.Rewriting?
                   && Some(r.content) == LastReply(cfg, steps, s.thread))
  {
    hide LocksOk, Known, Refines, NoDangling, RewritesExact, Reached, LastReply, Read, EnabledManaged;
    var d := Reached(cfg, steps);
    ReachedIsSafe(cfg, steps);
    if Can(d, s) {
      if s.Go? && d.threads[s.thread].phase.Rewriting? {
        RepliesAreCarried(cfg, steps, s.thread);
      } else {
        MostStepsDoNotRewrite(cfg, d, s);
      }
    }
  }

  // ------------------------------------------------------ undisturbed operations

  /** The disk after `n` more steps of one thread, whose callback replies this. */
  function Alone(cfg: Config, d: Disk, t: nat, reply: Option<string>, n: nat): Disk
    decreases n
  {
    if n == 0 then d else Alone(cfg, Next(cfg, d, Go(t, reply)), t, reply, n - 1)
  }

  /** What an operation does to the record: a request that is accepted is stored. */
  function RecordAfter(cfg: Config, d: Disk, op: Operation): Option<Record> {
    if (op.Manage? || op.Publish?) && Attempt(cfg, d.record, op.request).Committed?
        then Some(Attempt(cfg, d.record, op.request).record)
    else d.record
  }

  /** What an operation does to the documents: it publishes with an accepted record, stores a reply for an enabled
      managed profile, or deletes what nothing refers to. */
  function DocumentsAfter(cfg: Config, d: Disk, op: Operation, reply: Option<string>): map<string, string> {
    match op
    case Manage(_) => d.documents
    case Publish(q, content) =>
      if Attempt(cfg, d.record, q).Committed? && q.action.DoAcquire? && q.action.profile.reference.owner == Managed
          then d.documents[q.action.profile.id := content]
      else d.documents
    case Rewrite(id) =>
      if EnabledManaged(d.record, id) && id in d.documents && reply.Some? then d.documents[id := reply.value]
      else d.documents
    case Collect(id) => if ProfileStore.References(d.record, id) then d.documents else d.documents - {id}
  }

  /** The thread could run, and finds its locks free. */
  predicate Begins(d: Disk, t: nat) {
    && t in d.threads && d.threads[t].phase.Waiting? && OperationOk(d.threads[t].op)
    && d.recordLock.None?
    && (TakesCredential(d.threads[t].op) ==> CredentialOf(d.threads[t].op) !in d.credentialLocks)
    && forall id :: id in d.credentialLocks ==> d.credentialLocks[id] != t
  }

  /** The disk once the thread has got to a phase, with the locks that belong to it. */
  function At(d: Disk, t: nat, phase: Phase): Disk
    requires t in d.threads && OperationOk(d.threads[t].op)
  {
    var op := d.threads[t].op;
    d.(threads := d.threads[t := Thread(op, phase)],
       recordLock := if HoldsRecord(phase) then Some(t) else None,
       credentialLocks := if TakesCredential(op) then d.credentialLocks[CredentialOf(op) := t] else d.credentialLocks)
  }

  function Gone(d: Disk, t: nat): Disk { d.(threads := d.threads - {t}) }

  lemma EndsFree(d: Disk, t: nat, phase: Phase)
    requires Begins(d, t)
    ensures End(At(d, t, phase), t) == Gone(d, t)
  {
    assert Release(At(d, t, phase).credentialLocks, t) == d.credentialLocks;
  }

  lemma {:induction false} GoneStays(cfg: Config, d: Disk, t: nat, reply: Option<string>, n: nat)
    requires t !in d.threads
    ensures Alone(cfg, d, t, reply, n) == d
    decreases n
  {
    if n > 0 { GoneStays(cfg, d, t, reply, n - 1); }
  }

  lemma ReachesReading(cfg: Config, d: Disk, t: nat, reply: Option<string>)
    requires Begins(d, t)
    ensures var n := if d.threads[t].op.Manage? then 6 else 5;
            Alone(cfg, d, t, reply, 7) == Alone(cfg, At(d, t, Reading), t, reply, n)
  {
    hide EnabledManaged, ProfileStore.References, Attempt, Read, Alone;
    OneStep(cfg, d, t, reply, 7);
    var e := Next(cfg, d, Go(t, reply));
    if d.threads[t].op.Manage? {
      assert e == At(d, t, Reading);
    } else {
      assert e == At(d, t, Locked);
      OneStep(cfg, e, t, reply, 6);
      assert Next(cfg, e, Go(t, reply)) == At(d, t, Reading);
    }
  }

  /** What is left of an operation that has read the record, and the disk that it leaves. */
  lemma WriterCompletes(cfg: Config, d: Disk, t: nat, reply: Option<string>, next: Record, n: nat)
    requires Begins(d, t) && (d.threads[t].op.Manage? || d.threads[t].op.Publish?) && n > 0
    ensures Alone(cfg, At(d, t, WriteRecord(next)), t, reply, n)
         == Gone(d.(record := Some(next), committed := d.committed + [d.threads[t].op.request]), t)
  {
    hide Alone;
    var e := d.(record := Some(next), committed := d.committed + [d.threads[t].op.request]);
    EndsFree(e, t, WriteRecord(next));
    assert Next(cfg, At(d, t, WriteRecord(next)), Go(t, reply)) == Gone(e, t);
    OneStep(cfg, At(d, t, WriteRecord(next)), t, reply, n);
    GoneStays(cfg, Gone(e, t), t, reply, n - 1);
  }

  lemma OneStep(cfg: Config, d: Disk, t: nat, reply: Option<string>, n: nat)
    requires n > 0
    ensures Alone(cfg, d, t, reply, n) == Alone(cfg, Next(cfg, d, Go(t, reply)), t, reply, n - 1)
  {
  }

  lemma DocumentCompletes(cfg: Config, d: Disk, t: nat, reply: Option<string>, next: Record, n: nat)
    requires Begins(d, t) && d.threads[t].op.Publish? && n > 1
    ensures var op := d.threads[t].op;
            var documents := d.documents[CredentialOf(op) := op.content];
            var e := d.(documents := documents, record := Some(next), committed := d.committed + [op.request]);
            Alone(cfg, At(d, t, WriteDocument(next)), t, reply, n) == Gone(e, t)
  {
    hide Alone;
    var op := d.threads[t].op;
    var e := d.(documents := d.documents[CredentialOf(op) := op.content]);
    assert Next(cfg, At(d, t, WriteDocument(next)), Go(t, reply)) == At(e, t, WriteRecord(next));
    OneStep(cfg, At(d, t, WriteDocument(next)), t, reply, n);
    WriterCompletes(cfg, e, t, reply, next, n - 1);
  }

  lemma CollectorCompletes(cfg: Config, d: Disk, t: nat, reply: Option<string>, n: nat)
    requires Begins(d, t) && d.threads[t].op.Collect? && n > 0
    ensures Alone(cfg, At(d, t, Unlinking), t, reply, n)
         == Gone(d.(documents := d.documents - {d.threads[t].op.id}), t)
  {
    hide Alone;
    var e := d.(documents := d.documents - {d.threads[t].op.id});
    EndsFree(e, t, Unlinking);
    assert Next(cfg, At(d, t, Unlinking), Go(t, reply)) == Gone(e, t);
    OneStep(cfg, At(d, t, Unlinking), t, reply, n);
    GoneStays(cfg, Gone(e, t), t, reply, n - 1);
  }

  /** The last steps of a rewrite, with the lock of the record again. */
  lemma RecheckerCompletes(cfg: Config, d: Disk, t: nat, reply: Option<string>, before: string)
    requires Begins(d, t) && d.threads[t].op.Rewrite? && EnabledManaged(d.record, d.threads[t].op.id)
    requires d.threads[t].op.id in d.documents
    ensures var e := Alone(cfg, At(d, t, Rechecking(before, reply)), t, reply, 2);
            e == Gone(d.(documents := e.documents, rewritten := e.rewritten), t) && e.documents ==
                if reply.Some? then d.documents[d.threads[t].op.id := reply.value] else d.documents
  {
    hide Alone, EnabledManaged;
    OneStep(cfg, At(d, t, Rechecking(before, reply)), t, reply, 2);
    if reply.None? {
      EndsFree(d, t, Rechecking(before, reply));
      assert Next(cfg, At(d, t, Rechecking(before, reply)), Go(t, reply)) == Gone(d, t);
      GoneStays(cfg, Gone(d, t), t, reply, 1);
    } else {
      assert Next(cfg, At(d, t, Rechecking(before, reply)), Go(t, reply)) == At(d, t, Rewriting(before, reply.value));
      RewriteEnds(cfg, d, t, reply, before, reply.value);
    }
  }

  lemma RewriteEnds(cfg: Config, d: Disk, t: nat, reply: Option<string>, before: string, content: string)
    requires Begins(d, t) && d.threads[t].op.Rewrite? && d.threads[t].op.id in d.documents
    ensures var (e, id) := (Alone(cfg, At(d, t, Rewriting(before, content)), t, reply, 1), d.threads[t].op.id);
            e == Gone(d.(documents := d.documents[id := content], rewritten := e.rewritten), t)
  {
    hide Alone, EnabledManaged;
    var id := d.threads[t].op.id;
    OneStep(cfg, At(d, t, Rewriting(before, content)), t, reply, 1);
    var entry := Rewritten(id, before, d.documents[id], content, EnabledManaged(d.record, id));
    var e := d.(documents := d.documents[id := content], rewritten := d.rewritten + [entry]);
    EndsFree(e, t, Rewriting(before, content));
    assert Next(cfg, At(d, t, Rewriting(before, content)), Go(t, reply)) == Gone(e, t);
    GoneStays(cfg, Gone(e, t), t, reply, 0);
  }

  /** The rewrite from its callback on. */
  lemma RewriterCompletes(cfg: Config, d: Disk, t: nat, reply: Option<string>, before: string)
    requires Begins(d, t) && d.threads[t].op.Rewrite? && EnabledManaged(d.record, d.threads[t].op.id)
    requires d.threads[t].op.id in d.documents
    ensures var e := Alone(cfg, At(d, t, Calling(before)), t, reply, 4);
            e == Gone(d.(documents := e.documents, rewritten := e.rewritten), t) && e.documents ==
                if reply.Some? then d.documents[d.threads[t].op.id := reply.value] else d.documents
  {
    hide Alone, EnabledManaged;
    OneStep(cfg, At(d, t, Calling(before)), t, reply, 4);
    assert Next(cfg, At(d, t, Calling(before)), Go(t, reply)) == At(d, t, Called(before, reply));
    OneStep(cfg, At(d, t, Called(before, reply)), t, reply, 3);
    assert Next(cfg, At(d, t, Called(before, reply)), Go(t, reply)) == At(d, t, Rechecking(before, reply));
    RecheckerCompletes(cfg, d, t, reply, before);
  }

  lemma ReadEnds(cfg: Config, d: Disk, t: nat, reply: Option<string>, n: nat)
    requires Begins(d, t) && n > 0 && Read(cfg, At(d, t, Reading), t) == End(At(d, t, Reading), t)
    ensures Alone(cfg, At(d, t, Reading), t, reply, n) == Gone(d, t)
  {
    hide Alone, Read;
    EndsFree(d, t, Reading);
    OneStep(cfg, At(d, t, Reading), t, reply, n);
    assert Next(cfg, At(d, t, Reading), Go(t, reply)) == Read(cfg, At(d, t, Reading), t);
    GoneStays(cfg, Gone(d, t), t, reply, n - 1);
  }

  lemma ReadGoesOn(cfg: Config, d: Disk, t: nat, reply: Option<string>, n: nat, phase: Phase)
    requires Begins(d, t) && n > 0 && Read(cfg, At(d, t, Reading), t) == At(d, t, phase)
    ensures Alone(cfg, At(d, t, Reading), t, reply, n) == Alone(cfg, At(d, t, phase), t, reply, n - 1)
  {
    hide Alone, Read;
    OneStep(cfg, At(d, t, Reading), t, reply, n);
    assert Next(cfg, At(d, t, Reading), Go(t, reply)) == Read(cfg, At(d, t, Reading), t);
  }

  /** The disk is another one without the thread, except for its record and documents and what is noted of them. */
  predicate Leaves(d: Disk, e: Disk, t: nat, record: Option<Record>, documents: map<string, string>) {
    && e.threads == d.threads - {t} && e.recordLock.None? && e.credentialLocks == d.credentialLocks
    && e.record == record && e.documents == documents
  }

  lemma ManageCompletes(cfg: Config, d: Disk, t: nat, reply: Option<string>)
    requires Begins(d, t) && d.threads[t].op.Manage?
    ensures Leaves(d, Alone(cfg, d, t, reply, 7), t, RecordAfter(cfg, d, d.threads[t].op), d.documents)
  {
    hide Alone, Attempt, EnabledManaged, ProfileStore.References;
    var v := Attempt(cfg, d.record, d.threads[t].op.request);
    ReachesReading(cfg, d, t, reply);
    if v.Committed? {
      ReadGoesOn(cfg, d, t, reply, 6, WriteRecord(v.record));
      WriterCompletes(cfg, d, t, reply, v.record, 5);
    } else {
      ReadEnds(cfg, d, t, reply, 6);
    }
  }

  lemma PublishCompletes(cfg: Config, d: Disk, t: nat, reply: Option<string>)
    requires Begins(d, t) && d.threads[t].op.Publish?
    ensures var op := d.threads[t].op;
            Leaves(d, Alone(cfg, d, t, reply, 7), t, RecordAfter(cfg, d, op), DocumentsAfter(cfg, d, op, reply))
  {
    hide Alone, Attempt, EnabledManaged, ProfileStore.References;
    var q := d.threads[t].op.request;
    var v := Attempt(cfg, d.record, q);
    ReachesReading(cfg, d, t, reply);
    if !v.Committed? {
      ReadEnds(cfg, d, t, reply, 5);
    } else {
      ProfileMemoryStore.PublishedIsCommitted(cfg, d.record, q);
      if q.action.profile.reference.owner == Managed {
        ReadGoesOn(cfg, d, t, reply, 5, WriteDocument(v.record));
        DocumentCompletes(cfg, d, t, reply, v.record, 4);
      } else {
        ReadGoesOn(cfg, d, t, reply, 5, WriteRecord(v.record));
        WriterCompletes(cfg, d, t, reply, v.record, 4);
      }
    }
  }

  lemma RewriteCompletes(cfg: Config, d: Disk, t: nat, reply: Option<string>)
    requires Begins(d, t) && d.threads[t].op.Rewrite?
    ensures var op := d.threads[t].op;
            Leaves(d, Alone(cfg, d, t, reply, 7), t, d.record, DocumentsAfter(cfg, d, op, reply))
  {
    hide Alone, Attempt, EnabledManaged, ProfileStore.References;
    var id := d.threads[t].op.id;
    ReachesReading(cfg, d, t, reply);
    if EnabledManaged(d.record, id) && id in d.documents {
      ReadGoesOn(cfg, d, t, reply, 5, Calling(d.documents[id]));
      RewriterCompletes(cfg, d, t, reply, d.documents[id]);
    } else {
      ReadEnds(cfg, d, t, reply, 5);
    }
  }

  lemma CollectCompletes(cfg: Config, d: Disk, t: nat, reply: Option<string>)
    requires Begins(d, t) && d.threads[t].op.Collect?
    ensures var op := d.threads[t].op;
            Leaves(d, Alone(cfg, d, t, reply, 7), t, d.record, DocumentsAfter(cfg, d, op, reply))
  {
    hide Alone, Attempt, EnabledManaged, ProfileStore.References;
    var id := d.threads[t].op.id;
    ReachesReading(cfg, d, t, reply);
    if id in d.documents && !ProfileStore.References(d.record, id) {
      ReadGoesOn(cfg, d, t, reply, 5, Unlinking);
      CollectorCompletes(cfg, d, t, reply, 4);
    } else {
      ReadEnds(cfg, d, t, reply, 5);
      assert id !in d.documents ==> d.documents - {id} == d.documents;
    }
  }

  /** An operation that finds its locks free and is not disturbed ends after at most seven steps, leaves all locks as
      they were, and has done what it is for. */
  lemma UndisturbedCompletes(cfg: Config, d: Disk, t: nat, reply: Option<string>)
    requires Begins(d, t)
    ensures var op := d.threads[t].op;
            Leaves(d, Alone(cfg, d, t, reply, 7), t, RecordAfter(cfg, d, op), DocumentsAfter(cfg, d, op, reply))
  {
    hide Alone, Attempt, EnabledManaged, ProfileStore.References, Leaves;
    match d.threads[t].op
    case Manage(_) => ManageCompletes(cfg, d, t, reply);
    case Publish(_, _) => PublishCompletes(cfg, d, t, reply);
    case Rewrite(_) => RewriteCompletes(cfg, d, t, reply);
    case Collect(_) => CollectCompletes(cfg, d, t, reply);
  }
}
