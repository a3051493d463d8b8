/** What the mutations keep: validity, the documents a record needs, and the tie between selection and generation. */
module ProfileMutations {
  import opened Options
  import opened Profiles
  import opened Trimming

  /** The identifiers and times that the authority supplies, made as it makes them. */
  predicate WellMade(cfg: Config, r: Option<Record>, q: Request) {
    && Bounded(q.generation, 256) && Bounded(q.revision, 256)
    && match q.action
       case DoUpdateMetadata(_, _, _, now) => SafeInteger(now)
       case DoSetEnabled(_, _, now) => SafeInteger(now)
       case DoAcquire(p) => JustAcquired(cfg, p) && (r.Some? ==> Find(r.value.profiles, p.id) == |r.value.profiles|)
       case _ => true
  }

  /** A profile as an acquisition makes it, for a provider with a safe identifier. */
  predicate JustAcquired(cfg: Config, p: Profile) {
    && p == Acquired(cfg, p.kind, p.id, p.reference.path, p.name, p.note, p.created)
    && SafeSegment(cfg.provider) && SafeSegment(p.id) && SafeInteger(p.created)
    && (p.kind == LocalOAuth ==> LocalPathOk(cfg, p.reference.path))
  }

  predicate LocalPathOk(cfg: Config, path: string) { Bounded(path, 4096) && Trim(path) == path && cfg.external(path) }

  /** An acquired profile refers to where its credential is. */
  lemma AcquiredReference(cfg: Config, p: Profile)
    requires JustAcquired(cfg, p)
    ensures ReferenceOk(cfg, p)
  {
    if p.kind != LocalOAuth {
      var path := ManagedPath(cfg, p.id);
      assert path[0] == cfg.provider[0] && path[|path| - 1] == MANAGED_DOCUMENT_NAME[|MANAGED_DOCUMENT_NAME| - 1];
    }
  }

  /** The name that an action gives to a profile has no white space around it. */
  predicate NameIsTrimmed(a: Action) {
    match a
    case DoUpdateMetadata(_, name, _, _) => Trim(name) == name
    case DoAcquire(p) => Trim(p.name) == p.name
    case _ => true
  }

  lemma FoundIfThere(ps: seq<Profile>, i: nat)
    requires i < |ps|
    ensures Find(ps, ps[i].id) <= i
  {
  }

  /** Changing one profile, but not its identity, keeps a record valid if the profile is. */
  lemma Replaced(cfg: Config, r: Record, i: nat, p: Profile)
    requires Valid(cfg, r) && i < |r.profiles| && p.id == r.profiles[i].id && p.kind == r.profiles[i].kind
    requires !NameTaken(cfg, r.profiles, p.name, Some(p.id)) || p.name == r.profiles[i].name
    requires r.active == Some(p.id) ==> p.enabled
    ensures Valid(cfg, r.(profiles := r.profiles[i := p])) <==> ProfileOk(cfg, p)
  {
    hide ProfileOk;
    var next := r.(profiles := r.profiles[i := p]);
    assert next.profiles[i] == p;
    ReplacedDistinct(cfg, r.profiles, i, p);
    if r.active.Some? {
      var k :| 0 <= k < |r.profiles| && r.profiles[k].id == r.active.value && r.profiles[k].enabled;
      assert next.profiles[k].id == r.active.value && next.profiles[k].enabled;
    }
  }

  lemma ReplacedDistinct(cfg: Config, ps: seq<Profile>, i: nat, p: Profile)
    requires Distinct(cfg, ps) && i < |ps| && p.id == ps[i].id
    requires !NameTaken(cfg, ps, p.name, Some(p.id)) || p.name == ps[i].name
    ensures Distinct(cfg, ps[i := p])
  {
    var qs := ps[i := p];
    forall j, k | 0 <= j < k < |qs|
      ensures qs[j].id != qs[k].id && cfg.fold(qs[j].name) != cfg.fold(qs[k].name)
    {
      assert ps[j].id != ps[k].id && cfg.fold(ps[j].name) != cfg.fold(ps[k].name);
    }
  }

  lemma UpdateKeepsValid(cfg: Config, r: Option<Record>, id: string, name: string, note: Option<string>, now: int)
    requires ValidOrAbsent(cfg, r) && SafeInteger(now) && UpdateMetadata(cfg, r, id, name, note, now).Commit?
    ensures Valid(cfg, UpdateMetadata(cfg, r, id, name, note, now).record) <==> Trim(name) == name
  {
    var i := Find(r.value.profiles, id);
    var p := r.value.profiles[i].(name := name, note := note, updated := now);
    assert ProfileOk(cfg, r.value.profiles[i]);
    if r.value.active == Some(id) { ActiveIsEnabled(cfg, r.value, i); }
    Replaced(cfg, r.value, i, p);
  }

  lemma ActiveIsEnabled(cfg: Config, r: Record, i: nat)
    requires Valid(cfg, r) && i < |r.profiles| && r.active == Some(r.profiles[i].id)
    ensures r.profiles[i].enabled
  {
    var k :| 0 <= k < |r.profiles| && r.profiles[k].id == r.active.value && r.profiles[k].enabled;
  }

  lemma SetEnabledKeepsValid(cfg: Config, r: Option<Record>, id: string, enabled: bool, now: int, generation: string)
    requires ValidOrAbsent(cfg, r) && SafeInteger(now) && Bounded(generation, 256)
    requires SetEnabled(r, id, enabled, now, generation).Commit?
    ensures Valid(cfg, SetEnabled(r, id, enabled, now, generation).record)
  {
    var i := Find(r.value.profiles, id);
    var p := r.value.profiles[i].(enabled := enabled, updated := now);
    assert ProfileOk(cfg, r.value.profiles[i]);
    if !enabled && r.value.active == Some(id) {
      var cleared := ClearActive(r.value, generation);
      Replaced(cfg, cleared, i, p);
    } else {
      Replaced(cfg, r.value, i, p);
    }
  }

  lemma ActivateKeepsValid(cfg: Config, r: Record, id: string, generation: string)
    requires Valid(cfg, r) && Bounded(generation, 256) && Find(r.profiles, id) < |r.profiles| &&
               r.profiles[Find(r.profiles, id)].enabled
    ensures Valid(cfg, r.(active := Some(id), generation := generation))
  {
    hide ProfileOk;
    var next := r.(active := Some(id), generation := generation);
    assert next.profiles[Find(r.profiles, id)].id == id;
  }

  // ---------------------------------------------------------------- removing

  lemma {:induction false} WithoutIs(ps: seq<Profile>, id: string, k: nat) returns (i: nat)
    requires k < |Without(ps, id)|
    ensures i < |ps| && ps[i] == Without(ps, id)[k] && ps[i].id != id
    decreases |ps|
  {
    if ps[0].id == id {
      i := WithoutIs(ps[1..], id, k);
      i := i + 1;
    } else if k == 0 {
      i := 0;
    } else {
      i := WithoutIs(ps[1..], id, k - 1);
      i := i + 1;
    }
  }

  lemma {:induction false} WithoutKeeps(ps: seq<Profile>, id: string, i: nat) returns (k: nat)
    requires i < |ps| && ps[i].id != id
    ensures k < |Without(ps, id)| && Without(ps, id)[k] == ps[i]
    decreases |ps|
  {
    if i == 0 {
      k := 0;
    } else {
      k := WithoutKeeps(ps[1..], id, i - 1);
      if ps[0].id != id { k := k + 1; }
    }
  }

  lemma {:induction false} WithoutDistinct(cfg: Config, ps: seq<Profile>, id: string)
    requires Distinct(cfg, ps) && OneLocal(ps)
    ensures Distinct(cfg, Without(ps, id)) && OneLocal(Without(ps, id))
    decreases |ps|
  {
    if ps != [] {
      WithoutDistinct(cfg, ps[1..], id);
      var rest := Without(ps[1..], id);
      forall k | 0 <= k < |rest|
        ensures ps[0].id != rest[k].id && cfg.fold(ps[0].name) != cfg.fold(rest[k].name)
        ensures !(ps[0].kind == LocalOAuth && rest[k].kind == LocalOAuth)
      {
        var i := WithoutIs(ps[1..], id, k);
        assert ps[i + 1] == rest[k];
      }
    }
  }

  lemma RemoveKeepsValid(cfg: Config, r: Option<Record>, id: string, generation: string)
    requires ValidOrAbsent(cfg, r) && Bounded(generation, 256) && RemoveProfile(r, id, generation).Commit?
    ensures Valid(cfg, RemoveProfile(r, id, generation).record)
  {
    hide ProfileOk, Distinct, OneLocal;
    var next := RemoveProfile(r, id, generation).record;
    WithoutDistinct(cfg, r.value.profiles, id);
    forall k | 0 <= k < |next.profiles|
      ensures ProfileOk(cfg, next.profiles[k])
    {
      var i := WithoutIs(r.value.profiles, id, k);
    }
    if next.active.Some? {
      var i :| 0 <= i < |r.value.profiles| && r.value.profiles[i].id == r.value.active.value &&
          r.value.profiles[i].enabled;
      var k := WithoutKeeps(r.value.profiles, id, i);
    }
  }

  // -------------------------------------------------------------- reordering

  function IdsOf(ps: seq<Profile>): (ids: seq<string>)
    ensures |ids| == |ps| && forall i :: 0 <= i < |ps| ==> ids[i] == ps[i].id
  {
    seq(|ps|, i requires 0 <= i < |ps| => ps[i].id)
  }

  function ToSet(s: seq<string>): set<string> { set x | x in s }

  lemma {:induction false} NoRepeatsCounts(s: seq<string>)
    requires NoRepeats(s)
    ensures |ToSet(s)| == |s|
    decreases |s|
  {
    if s != [] {
      var rest := s[..|s| - 1];
      NoRepeatsCounts(rest);
      assert s == rest + [s[|s| - 1]];
      assert ToSet(s) == ToSet(rest) + {s[|s| - 1]};
      assert s[|s| - 1] !in rest;
    }
  }

  lemma SubsetOfSameSize(a: set<string>, b: set<string>)
    requires a <= b && |a| == |b|
    ensures a == b
  {
    assert |b - a| == |b| - |a|;
  }

  /** As many different identifiers as there are profiles name every profile. */
  lemma AllAreNamed(cfg: Config, ps: seq<Profile>, ids: seq<string>, i: nat) returns (k: nat)
    requires Distinct(cfg, ps) && NoRepeats(ids) && |ids| == |ps| && i < |ps|
    requires forall k :: 0 <= k < |ids| ==> Find(ps, ids[k]) < |ps|
    ensures k < |ids| && ids[k] == ps[i].id
  {
    hide Find;
    assert NoRepeats(IdsOf(ps));
    NoRepeatsCounts(IdsOf(ps));
    NoRepeatsCounts(ids);
    forall id | id in ToSet(ids)
      ensures id in ToSet(IdsOf(ps))
    {
      var k :| 0 <= k < |ids| && ids[k] == id;
      assert IdsOf(ps)[Find(ps, id)] == id;
    }
    SubsetOfSameSize(ToSet(ids), ToSet(IdsOf(ps)));
    assert IdsOf(ps)[i] in ToSet(IdsOf(ps));
    k :| 0 <= k < |ids| && ids[k] == ps[i].id;
  }

  predicate PairDiffers(cfg: Config, p: Profile, q: Profile) {
    p.id != q.id && cfg.fold(p.name) != cfg.fold(q.name)
  }

  lemma TwoOfThem(cfg: Config, ps: seq<Profile>, a: nat, b: nat)
    requires Distinct(cfg, ps) && a < |ps| && b < |ps| && a != b
    ensures PairDiffers(cfg, ps[a], ps[b])
  {
    var (i, k) := if a < b then (a, b) else (b, a);
    assert ps[i].id != ps[k].id && cfg.fold(ps[i].name) != cfg.fold(ps[k].name);
  }

  lemma NotTwoLocal(ps: seq<Profile>, a: nat, b: nat)
    requires OneLocal(ps) && a < |ps| && b < |ps| && a != b
    ensures !(ps[a].kind == LocalOAuth && ps[b].kind == LocalOAuth)
  {
    if a < b { assert ps[a] == ps[a]; } else { assert ps[b] == ps[b]; }
  }

  /** Two different identifiers stand for two different profiles. */
  lemma ArrangedPair(cfg: Config, ps: seq<Profile>, ids: seq<string>, j: nat, k: nat)
    requires Distinct(cfg, ps) && OneLocal(ps) && j < |ids| && k < |ids| && ids[j] != ids[k]
    requires Find(ps, ids[j]) < |ps| && Find(ps, ids[k]) < |ps|
    ensures var (p, q) := (ps[Find(ps, ids[j])], ps[Find(ps, ids[k])]);
            PairDiffers(cfg, p, q) && !(p.kind == LocalOAuth && q.kind == LocalOAuth)
  {
    hide Find, Distinct, OneLocal, PairDiffers;
    TwoOfThem(cfg, ps, Find(ps, ids[j]), Find(ps, ids[k]));
    NotTwoLocal(ps, Find(ps, ids[j]), Find(ps, ids[k]));
  }

  lemma ArrangedDistinct(cfg: Config, ps: seq<Profile>, ids: seq<string>)
    requires Distinct(cfg, ps) && OneLocal(ps) && NoRepeats(ids)
    requires forall k :: 0 <= k < |ids| ==> Find(ps, ids[k]) < |ps|
    ensures Distinct(cfg, Arranged(ps, ids)) && OneLocal(Arranged(ps, ids))
  {
    hide Find, Distinct, OneLocal, Arranged;
    var sorted := Arranged(ps, ids);
    forall j, k | 0 <= j < k < |sorted|
      ensures PairDiffers(cfg, sorted[j], sorted[k]) && !(sorted[j].kind == LocalOAuth && sorted[k].kind == LocalOAuth)
    {
      assert sorted[j] == ps[Find(ps, ids[j])] && sorted[k] == ps[Find(ps, ids[k])];
      ArrangedPair(cfg, ps, ids, j, k);
    }
    PairsDistinct(cfg, sorted);
    PairsLocal(sorted);
  }

  lemma PairsDistinct(cfg: Config, ps: seq<Profile>)
    requires forall j, k :: 0 <= j < k < |ps| ==> PairDiffers(cfg, ps[j], ps[k])
    ensures Distinct(cfg, ps)
  {
    forall i, j | 0 <= i < j < |ps| ensures ps[i].id != ps[j].id && cfg.fold(ps[i].name) != cfg.fold(ps[j].name) {
      assert PairDiffers(cfg, ps[i], ps[j]);
    }
  }

  lemma PairsLocal(ps: seq<Profile>)
    requires forall j, k :: 0 <= j < k < |ps| ==> !(ps[j].kind == LocalOAuth && ps[k].kind == LocalOAuth)
    ensures OneLocal(ps)
  {
  }

  lemma ReorderKeepsValid(cfg: Config, r: Option<Record>, ids: seq<string>)
    requires ValidOrAbsent(cfg, r) && Reorder(r, ids).Commit?
    ensures Valid(cfg, Reorder(r, ids).record)
  {
    hide ProfileOk, Find, Distinct, OneLocal;
    var ps := r.value.profiles;
    var next := Reorder(r, ids).record;
    ArrangedDistinct(cfg, ps, ids);
    if r.value.active.Some? {
      var i :| 0 <= i < |ps| && ps[i].id == r.value.active.value && ps[i].enabled;
      var k := AllAreNamed(cfg, ps, ids, i);
      SameProfile(cfg, ps, ids[k], i);
      assert next.profiles[k] == ps[i];
    }
  }

  lemma SameProfile(cfg: Config, ps: seq<Profile>, id: string, i: nat)
    requires Distinct(cfg, ps) && i < |ps| && ps[i].id == id
    ensures Find(ps, id) == i
  {
    FoundIfThere(ps, i);
  }

  // --------------------------------------------------------------- acquiring

  lemma AcquiredIsOk(cfg: Config, p: Profile)
    requires JustAcquired(cfg, p) && DisplayNameOk(p.name) && NoteOk(p.note)
    ensures ProfileOk(cfg, p) <==> Trim(p.name) == p.name
    ensures p.enabled
  {
    hide ReferenceOk, SafeSegment;
    AcquiredReference(cfg, p);
  }

  lemma AcquireKeepsValid(cfg: Config, r: Option<Record>, p: Profile, generation: string, revision: string)
    requires ValidOrAbsent(cfg, r) && WellMade(cfg, r, Request(DoAcquire(p), None, generation, revision))
    requires Acquire(cfg, r, p, generation).Commit?
    ensures Valid(cfg, Acquire(cfg, r, p, generation).record.(revision := revision)) <==> Trim(p.name) == p.name
  {
    hide Find, JustAcquired, ReferenceOk, SafeSegment, Trim;
    AcquiredIsOk(cfg, p);
    var next := Acquire(cfg, r, p, generation).record.(revision := revision);
    if r.None? || r.value.profiles == [] {
      assert next.profiles == [p];
      assert next.profiles[0] == p;
    } else {
      AppendedIsValid(cfg, r.value, p, revision);
    }
  }

  lemma AppendedIsValid(cfg: Config, r: Record, p: Profile, revision: string)
    requires Valid(cfg, r) && Find(r.profiles, p.id) == |r.profiles| && Bounded(revision, 256)
    requires !NameTaken(cfg, r.profiles, p.name, None)
    requires p.kind == LocalOAuth ==> forall i :: 0 <= i < |r.profiles| ==> r.profiles[i].kind != LocalOAuth
    ensures Valid(cfg, r.(profiles := r.profiles + [p], revision := revision)) <==> ProfileOk(cfg, p)
  {
    hide ProfileOk, Find;
    var next := r.(profiles := r.profiles + [p], revision := revision);
    assert next.profiles[|r.profiles|] == p;
    if r.active.Some? {
      var i :| 0 <= i < |r.profiles| && r.profiles[i].id == r.active.value && r.profiles[i].enabled;
      assert next.profiles[i] == r.profiles[i];
    }
  }

  // --------------------------------------------------------------- theorems

  lemma AdvanceKeepsValid(cfg: Config, r: Option<Record>, q: Request)
    requires ValidOrAbsent(cfg, r) && WellMade(cfg, r, q) && q.action.DoAdvance? && Mutate(cfg, r, q).Commit?
    ensures Valid(cfg, Mutate(cfg, r, q).record)
  {
    hide ProfileOk, Find;
    var next := Mutate(cfg, r, q).record;
    var t := FirstCandidate(next.profiles, q.action.capture.kind, q.action.attempted + {q.action.capture.id},
        q.action.cooling);
    assert next.profiles[t].id == next.active.value && next.profiles[t].enabled;
  }

  lemma NewRevision(cfg: Config, r: Record, revision: string)
    requires Bounded(revision, 256) && Valid(cfg, r)
    ensures Valid(cfg, r.(revision := revision))
  {
    hide ProfileOk, Distinct;
  }

  /** The store rejects what the authority commits exactly when a name has white space around it. */
  lemma CommitsAreValid(cfg: Config, r: Option<Record>, q: Request)
    requires ValidOrAbsent(cfg, r) && WellMade(cfg, r, q) && Mutate(cfg, r, q).Commit?
    ensures !Conflicts(r, q) ==> (Attempt(cfg, r, q).Committed? <==> NameIsTrimmed(q.action))
  {
    hide Valid, UpdateMetadata, Activate, SetEnabled, Reorder, RemoveProfile, Acquire, JustAcquired, Trim, SafeSegment,
         Find;
    var next := Mutate(cfg, r, q).record;
    match q.action
    case DoUpdateMetadata(id, name, note, now) =>
      UpdateKeepsValid(cfg, r, id, name, note, now);
      RevisionAside(cfg, r, q);
    case DoActivate(id) =>
      ActivateCommits(cfg, r, id, q.generation);
      NewRevision(cfg, next, q.revision);
    case DoSetEnabled(id, enabled, now) =>
      SetEnabledKeepsValid(cfg, r, id, enabled, now, q.generation);
      NewRevision(cfg, next, q.revision);
    case DoReorder(ids) => ReorderKeepsValid(cfg, r, ids); NewRevision(cfg, next, q.revision);
    case DoRemove(id) => RemoveKeepsValid(cfg, r, id, q.generation); NewRevision(cfg, next, q.revision);
    case DoSetSwitchPolicy(_, _) => PolicyCommits(cfg, r, q); NewRevision(cfg, next, q.revision);
    case DoAcquire(p) => AcquireKeepsValid(cfg, r, p, q.generation, q.revision);
    case DoAdvance(_, _, _) => AdvanceKeepsValid(cfg, r, q); NewRevision(cfg, next, q.revision);
  }

  lemma RevisionAside(cfg: Config, r: Option<Record>, q: Request)
    requires ValidOrAbsent(cfg, r) && q.action.DoUpdateMetadata? && Bounded(q.revision, 256) &&
               Mutate(cfg, r, q).Commit?
    ensures var next := Mutate(cfg, r, q).record; Valid(cfg, next.(revision := q.revision)) <==> Valid(cfg, next)
  {
    hide ProfileOk, Distinct, Find, Trim;
    var next := Mutate(cfg, r, q).record;
    assert Bounded(next.revision, 256);
  }

  lemma ActivateCommits(cfg: Config, r: Option<Record>, id: string, generation: string)
    requires ValidOrAbsent(cfg, r) && Bounded(generation, 256) && Activate(r, id, generation).Commit?
    ensures Valid(cfg, Activate(r, id, generation).record)
  {
    hide Valid, Find;
    ActivateKeepsValid(cfg, r.value, id, generation);
  }

  lemma PolicyCommits(cfg: Config, r: Option<Record>, q: Request)
    requires ValidOrAbsent(cfg, r) && q.action.DoSetSwitchPolicy? && Mutate(cfg, r, q).Commit?
    ensures Valid(cfg, Mutate(cfg, r, q).record)
  {
    hide ProfileOk, Distinct;
  }

  // ------------------------------------------------------------ a rejection

  /** A provider without local logins, whose locale folds nothing. */
  const PLAIN: Config := Config("p", s => s, path => false)

  function Named(name: string): Profile { Acquired(PLAIN, ApiKey, "c", "", name, None, 0) }

  const ONE_PROFILE: Record := Record("r", "g", None, false, false, [Named("a")])
  const UNTRIMMED: string := " a"

  const RENAMING: Request := Request(DoUpdateMetadata("c", UNTRIMMED, None, 1), None, "g2", "r2")
  const ACQUISITION: Request := Request(DoAcquire(Named(UNTRIMMED)), None, "g2", "r2")

  lemma UntrimmedName()
    ensures Trim("a") == "a" && Trim(UNTRIMMED) == "a"
  {
    assert UNTRIMMED[1..] == "a";
  }

  lemma NamedIsAcquired(name: string)
    ensures JustAcquired(PLAIN, Named(name))
  {
    hide ManagedPath;
  }

  lemma OneProfileIsValid()
    ensures Valid(PLAIN, ONE_PROFILE)
  {
    hide Trim, JustAcquired;
    UntrimmedName();
    NamedIsAcquired("a");
    AcquiredIsOk(PLAIN, Named("a"));
  }

  /** The names that the authority lets through and the store rejects exist: here is one, for a renaming of a stored
      profile and for the acquisition of a first one. */
  lemma UntrimmedNamesAreRejected()
    ensures Valid(PLAIN, ONE_PROFILE) && DisplayNameOk(UNTRIMMED)
    ensures WellMade(PLAIN, Some(ONE_PROFILE), RENAMING) && Mutate(PLAIN, Some(ONE_PROFILE), RENAMING).Commit?
    ensures Attempt(PLAIN, Some(ONE_PROFILE), RENAMING) == Rejected
    ensures WellMade(PLAIN, None, ACQUISITION) && Mutate(PLAIN, None, ACQUISITION).Commit?
    ensures Attempt(PLAIN, None, ACQUISITION) == Rejected
  {
    hide Trim, Valid, JustAcquired;
    OneProfileIsValid();
    UntrimmedName();
    NamedIsAcquired(UNTRIMMED);
    assert Find(ONE_PROFILE.profiles, "c") == 0;
    CommitsAreValid(PLAIN, Some(ONE_PROFILE), RENAMING);
    CommitsAreValid(PLAIN, None, ACQUISITION);
  }
}
