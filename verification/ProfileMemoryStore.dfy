/**
 The in-memory store of one provider, section by section: what runs under the locks updates the record and the
 documents in place. How sections of different operations interleave is the subject of the store's threads.
 */
module ProfileMemoryStore {
  import opened Options
  import opened Profiles
  import opened ProfileMutations
  import opened ProfileRuns

  datatype Document = Document(raw: string, publishedAt: int)

  predicate Referenced(r: Option<Record>, path: string) {
    r.Some? && exists i :: 0 <= i < |r.value.profiles| && r.value.profiles[i].reference == Reference(Managed, path)
  }

  /** The managed profile that may be rewritten. */
  predicate Rewritable(p: Profile) { p.enabled && p.reference.owner == Managed }

  predicate Orphan(r: Option<Record>, path: string, d: Document, grace: int, now: int) {
    !Referenced(r, path) && now - d.publishedAt >= (if grace > 0 then grace else 0)
  }

  /** A commit refers to no managed path that was not referred to, except the one that is published. */
  lemma CommitAddsOnlyThePublished(cfg: Config, r: Option<Record>, q: Request, path: string)
    requires ValidOrAbsent(cfg, r) && Attempt(cfg, r, q).Committed? && Referenced(Some(Attempt(cfg, r, q).record), path)
    ensures Referenced(r, path) || (q.action.DoAcquire? && q.action.profile.reference == Reference(Managed, path))
  {
    hide Mutate, ProfileOk, Distinct, OneLocal;
    var next := Attempt(cfg, r, q).record;
    var k :| 0 <= k < |next.profiles| && next.profiles[k].reference == Reference(Managed, path);
    var i := ComesFrom(cfg, r, q, k);
    ManagedByKind(cfg, next, k);
    if !(q.action.DoAcquire? && next.profiles[k] == q.action.profile) { ManagedByKind(cfg, r.value, i); }
  }

  lemma ManagedByKind(cfg: Config, r: Record, i: nat)
    requires Valid(cfg, r) && i < |r.profiles|
    ensures var p := r.profiles[i];
            if p.kind == LocalOAuth then p.reference.owner == External
                else p.reference == Reference(Managed, ManagedPath(cfg, p.id))
  {
    assert ProfileOk(cfg, r.profiles[i]);
  }

  /** The check that a commit refers to what was published never fails. */
  lemma PublishedIsCommitted(cfg: Config, r: Option<Record>, q: Request)
    requires q.action.DoAcquire? && Attempt(cfg, r, q).Committed?
    ensures q.action.profile in Attempt(cfg, r, q).record.profiles
  {
    hide Valid, NameTaken, DisplayNameOk;
    var ps := Attempt(cfg, r, q).record.profiles;
    assert ps[|ps| - 1] == q.action.profile;
  }

  class InMemoryStore {
    const cfg: Config
    var record: Option<Record>
    var documents: map<string, Document>

    /** The record is valid, and every managed reference in it has its document. */
    ghost predicate Consistent()
      reads this
    {
      ValidOrAbsent(cfg, record) && forall path :: Referenced(record, path) ==> path in documents
    }

    constructor (cfg: Config)
      ensures this.cfg == cfg && record == None && documents == map[] && Consistent()
    {
      this.cfg := cfg;
      record := None;
      documents := map[];
    }

    /** A management or a selection write. */
    method Modify(q: Request) returns (v: Verdict)
      requires Consistent() && !q.action.DoAcquire?
      modifies this
      ensures v == Attempt(cfg, old(record), q)
      ensures record == (if v.Committed? then Some(v.record) else old(record)) && documents == old(documents)
      ensures Consistent()
    {
      hide Valid, Mutate, Referenced;
      if Conflicts(record, q) { return Conflict; }
      var outcome := Mutate(cfg, record, q);
      if outcome.Unchanged? { return Kept(outcome.answer); }
      var committed := outcome.record.(revision := q.revision);
      var ok := ValidateRecord(cfg, committed);
      if !ok { return Rejected; }
      v := Committed(committed, outcome.answer);
      forall path | Referenced(Some(committed), path)
        ensures path in documents
      {
        CommitAddsOnlyThePublished(cfg, record, q, path);
      }
      record := Some(committed);
    }

    /** Publishing an acquired credential: the document before the record. */
    method Publish(q: Request, content: string, now: int) returns (v: Verdict)
      requires Consistent() && q.action.DoAcquire? && q.expected.None?
      modifies this
      ensures v == Attempt(cfg, old(record), q)
      ensures record == (if v.Committed? then Some(v.record) else old(record))
      ensures var reference := q.action.profile.reference;
              documents == if v.Committed? && reference.owner == Managed
                  then old(documents)[reference.path := Document(content, now)]
                           else old(documents)
      ensures Consistent()
    {
      hide Valid, Mutate, Referenced;
      var outcome := Mutate(cfg, record, q);
      if outcome.Unchanged? { return Kept(outcome.answer); }
      var committed := outcome.record.(revision := q.revision);
      var ok := ValidateRecord(cfg, committed);
      if !ok { return Rejected; }
      v := Committed(committed, outcome.answer);
      forall path | Referenced(Some(committed), path) && path !in documents
        ensures q.action.profile.reference == Reference(Managed, path)
      {
        CommitAddsOnlyThePublished(cfg, record, q, path);
      }
      var reference := q.action.profile.reference;
      if reference.owner == Managed { documents := documents[reference.path := Document(content, now)]; }
      record := Some(committed);
    }

    /** What a rewrite is given: the document of an enabled managed profile. */
    method ReadForRewrite(id: string) returns (path: string, raw: Option<string>)
      requires Consistent()
      ensures raw.Some? <==>
                record.Some? && exists i :: 0 <= i < |record.value.profiles| && record.value.profiles[i].id == id
                                                         && Rewritable(record.value.profiles[i])
      ensures raw.Some? ==> path in documents && documents[path].raw == raw.value && path == ManagedPath(cfg, id)
    {
      hide ProfileOk, Distinct;
      if record.None? { return "", None; }
      var ps := record.value.profiles;
      for i := 0 to |ps|
        invariant forall j :: 0 <= j < i ==> !(ps[j].id == id && Rewritable(ps[j]))
      {
        if ps[i].id == id && Rewritable(ps[i]) {
          path := ps[i].reference.path;
          ManagedByKind(cfg, record.value, i);
          assert Referenced(record, path);
          return path, Some(documents[path].raw);
        }
      }
      return "", None;
    }

    /** The end of a rewrite, which goes ahead only if the profile is still there, enabled, and refers to the path. */
    method FinishRewrite(id: string, path: string, reply: Option<string>) returns (written: Option<string>)
      requires Consistent()
      modifies this
      ensures record == old(record) && Consistent()
      ensures var i := if record.Some? then Find(record.value.profiles, id) else 0;
              var goes := record.Some? && i < |record.value.profiles| && Rewritable(record.value.profiles[i])
                          && record.value.profiles[i].reference.path == path;
              if !goes then written == None && documents == old(documents)
              else
                path in old(documents) &&
                if reply.None? then written == Some(old(documents)[path].raw) && documents == old(documents)
                else written == reply && documents == old(documents)[path :=
                    Document(reply.value, old(documents)[path].publishedAt)]
    {
      hide Valid;
      if record.None? { return None; }
      var i := Find(record.value.profiles, id);
      if i == |record.value.profiles| { return None; }
      var p := record.value.profiles[i];
      if !Rewritable(p) || p.reference.path != path { return None; }
      assert Referenced(record, path);
      if reply.None? { return Some(documents[path].raw); }
      documents := documents[path := Document(reply.value, documents[path].publishedAt)];
      return reply;
    }

    /** Deletes exactly the documents that no profile refers to and whose grace has run out. */
    method CollectOrphans(grace: int, now: int) returns (deleted: set<string>)
      requires Consistent()
      modifies this
      ensures deleted == (set path | path in old(documents) && Orphan(record, path, old(documents)[path], grace, now))
      ensures documents == old(documents) - deleted && record == old(record)
      ensures Consistent()
    {
      hide Valid;
      deleted := {};
      var entries := documents;
      var left := entries.Keys;
      while left != {}
        invariant record == old(record) && left <= entries.Keys
        invariant deleted == (set path | path in entries && path !in left &&
                    Orphan(record, path, entries[path], grace, now))
        invariant documents == entries - deleted
        decreases |left|
      {
        var path :| path in left;
        left := left - {path};
        if Orphan(record, path, entries[path], grace, now) {
          documents := documents - {path};
          deleted := deleted + {path};
        }
      }
    }
  }
}
