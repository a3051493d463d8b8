/**
 Credential profile records of one provider: what a record must satisfy to be stored, and the mutations that
 the profile authority asks for.
 */
module Profiles {
  import opened Options
  import opened Trimming

  /** `fold` is the locale's lower casing; `external` tells absolute paths. */
  datatype Config = Config(provider: string, fold: string -> string, external: string -> bool)

  const ABSENT := "absent"
  const MANAGED_DOCUMENT_NAME := "credential.auth.json"

  datatype Kind = ApiKey | OAuth | LocalOAuth
  datatype Owner = Managed | External
  datatype Reference = Reference(owner: Owner, path: string)

  datatype Profile = Profile(
    id: string, kind: Kind, reference: Reference, name: string, note: Option<string>, enabled: bool, created: int,
        updated: int)

  datatype Record = Record(
    revision: string, generation: string, active: Option<string>, apiKeyOn429: bool, oauthOn429: bool,
        profiles: seq<Profile>)

  predicate UsesApiKey(k: Kind) { k == ApiKey }

  // ------------------------------------------------------ what may be stored

  predicate Bounded(s: string, most: nat) { 0 < |s| <= most }

  predicate IsAlphanumeric(c: char) { '0' <= c <= '9' || 'A' <= c <= 'Z' || 'a' <= c <= 'z' }

  predicate SafeSegment(s: string) {
    && 0 < |s| <= 256 && IsAlphanumeric(s[0]) && s[|s| - 1] != '.'
    && forall i :: 0 <= i < |s| ==> IsAlphanumeric(s[i]) || s[i] == '.' || s[i] == '_' || s[i] == '-'
  }

  function ManagedPath(cfg: Config, id: string): string { cfg.provider + "/" + (id + ("/" + MANAGED_DOCUMENT_NAME)) }

  predicate ReferenceOk(cfg: Config, p: Profile) {
    && Bounded(p.reference.path, 4096) && Trim(p.reference.path) == p.reference.path
    && if p.kind == LocalOAuth then p.reference.owner == External && cfg.external(p.reference.path)
       else p.reference == Reference(Managed, ManagedPath(cfg, p.id))
  }

  predicate SafeInteger(n: int) { 0 <= n < 0x20_0000_0000_0000 }

  predicate ProfileOk(cfg: Config, p: Profile) {
    && SafeSegment(p.id)
    && Bounded(p.name, 64) && Trim(p.name) == p.name
    && (p.note.Some? ==> |p.note.value| <= 200)
    && SafeInteger(p.created) && SafeInteger(p.updated)
    && ReferenceOk(cfg, p)
  }

  predicate Distinct(cfg: Config, profiles: seq<Profile>) {
    forall i, j :: 0 <= i < j < |profiles| ==>
      profiles[i].id != profiles[j].id && cfg.fold(profiles[i].name) != cfg.fold(profiles[j].name)
  }

  predicate OneLocal(profiles: seq<Profile>) {
    forall i, j :: 0 <= i < j < |profiles| ==> !(profiles[i].kind == LocalOAuth && profiles[j].kind == LocalOAuth)
  }

  predicate ActiveOk(r: Record) {
    r.active.Some? ==> exists i :: 0 <= i < |r.profiles| && r.profiles[i].id == r.active.value && r.profiles[i].enabled
  }

  /** A record that the store accepts: unique identifiers, unique case-folded names, at most one local login,
      and an active profile that is enabled. */
  predicate Valid(cfg: Config, r: Record) {
    && Bounded(r.revision, 256) && Bounded(r.generation, 256)
    && (forall i :: 0 <= i < |r.profiles| ==> ProfileOk(cfg, r.profiles[i]))
    && Distinct(cfg, r.profiles) && OneLocal(r.profiles) && ActiveOk(r)
  }

  predicate ValidOrAbsent(cfg: Config, r: Option<Record>) { r.Some? ==> Valid(cfg, r.value) }

  lemma DistinctGrows(cfg: Config, ps: seq<Profile>, i: nat)
    requires i < |ps|
    ensures Distinct(cfg, ps[..i + 1]) <==>
            Distinct(cfg, ps[..i]) && forall j :: 0 <= j < i ==>
                ps[j].id != ps[i].id && cfg.fold(ps[j].name) != cfg.fold(ps[i].name)
    ensures Distinct(cfg, ps) ==> Distinct(cfg, ps[..i + 1])
  {
    var qs := ps[..i + 1];
    if Distinct(cfg, ps[..i]) && forall j :: 0 <= j < i ==>
        ps[j].id != ps[i].id && cfg.fold(ps[j].name) != cfg.fold(ps[i].name) {
      forall j, k | 0 <= j < k < |qs|
        ensures qs[j].id != qs[k].id && cfg.fold(qs[j].name) != cfg.fold(qs[k].name)
      {
        if k < i { assert ps[..i][j] == ps[j] && ps[..i][k] == ps[k]; }
      }
    }
    if Distinct(cfg, ps[..i + 1]) {
      forall j, k | 0 <= j < k < i + 1
        ensures ps[j].id != ps[k].id && cfg.fold(ps[j].name) != cfg.fold(ps[k].name)
      {
        assert qs[j] == ps[j] && qs[k] == ps[k];
      }
    }
  }

  lemma OneLocalGrows(ps: seq<Profile>, i: nat)
    requires i < |ps|
    ensures OneLocal(ps[..i + 1]) <==>
              OneLocal(ps[..i]) && (ps[i].kind == LocalOAuth ==> forall j :: 0 <= j < i ==> ps[j].kind != LocalOAuth)
  {
    assert ps[..i + 1] == ps[..i] + [ps[i]];
    if OneLocal(ps[..i + 1]) {
      assert forall j :: 0 <= j < i ==> ps[..i + 1][j] == ps[j];
      assert ps[..i + 1][i] == ps[i];
    }
  }

  method CheckIdentities(cfg: Config, ps: seq<Profile>) returns (ok: bool)
    ensures ok <==> Distinct(cfg, ps) && OneLocal(ps)
  {
    hide Distinct, OneLocal;
    var credentialIds: set<string>, displayNames: set<string>, locals := {}, {}, 0;
    NoneYet(cfg);
    assert ps[..0] == [];
    for i := 0 to |ps|
      invariant credentialIds == (set j | 0 <= j < i :: ps[j].id)
      invariant displayNames == (set j | 0 <= j < i :: cfg.fold(ps[j].name))
      invariant Distinct(cfg, ps[..i])
      invariant 0 <= locals
      invariant locals == 0 <==> forall j :: 0 <= j < i ==> ps[j].kind != LocalOAuth
      invariant locals <= 1 <==> OneLocal(ps[..i])
    {
      var p := ps[i];
      DistinctGrows(cfg, ps, i);
      OneLocalGrows(ps, i);
      if p.kind == LocalOAuth { locals := locals + 1; }
      if p.id in credentialIds || cfg.fold(p.name) in displayNames { return false; }
      credentialIds := credentialIds + {p.id};
      displayNames := displayNames + {cfg.fold(p.name)};
    }
    assert ps[..|ps|] == ps;
    return locals <= 1;
  }

  lemma NoneYet(cfg: Config)
    ensures Distinct(cfg, []) && OneLocal([])
  {
  }

  /** The check that every read and every write makes. */
  method ValidateRecord(cfg: Config, r: Record) returns (ok: bool)
    ensures ok <==> Valid(cfg, r)
  {
    hide Distinct, OneLocal, ProfileOk;
    if !Bounded(r.revision, 256) || !Bounded(r.generation, 256) { return false; }
    for i := 0 to |r.profiles|
      invariant forall j :: 0 <= j < i ==> ProfileOk(cfg, r.profiles[j])
    {
      if !ProfileOk(cfg, r.profiles[i]) { return false; }
    }
    ok := CheckIdentities(cfg, r.profiles);
    if !ok { return; }
    return r.active.None? ||
      exists i :: 0 <= i < |r.profiles| && r.profiles[i].id == r.active.value && r.profiles[i].enabled;
  }

  // -------------------------------------------------------------- mutations

  datatype Answer = Ok | UnknownProfile | Duplicate | Invalid | Stale | Disabled | Exhausted | Switched(id: string)
  datatype Mutation = Commit(record: Record, answer: Answer) | Unchanged(answer: Answer)

  function Find(profiles: seq<Profile>, id: string): (i: nat)
    ensures i <= |profiles| && (i < |profiles| ==> profiles[i].id == id)
    ensures forall j :: 0 <= j < i ==> profiles[j].id != id
  {
    if profiles == [] || profiles[0].id == id then 0 else 1 + Find(profiles[1..], id)
  }

  predicate NameTaken(cfg: Config, profiles: seq<Profile>, name: string, except: Option<string>) {
    exists i :: 0 <= i < |profiles| && Some(profiles[i].id) != except && cfg.fold(profiles[i].name) == cfg.fold(name)
  }

  predicate DisplayNameOk(name: string) { 0 < |Trim(name)| <= 64 }
  predicate NoteOk(note: Option<string>) { note.Some? ==> |note.value| <= 200 }

  function UpdateMetadata(cfg: Config, r: Option<Record>, id: string, name: string, note: Option<string>,
      now: int): Mutation {
    if !DisplayNameOk(name) || !NoteOk(note) then Unchanged(Invalid)
    else if r.None? || Find(r.value.profiles, id) == |r.value.profiles| then Unchanged(UnknownProfile)
    else
      var (ps, i) := (r.value.profiles, Find(r.value.profiles, id));
      if NameTaken(cfg, ps, name, Some(id)) then Unchanged(Duplicate)
      else if ps[i].name == name && ps[i].note == note then Unchanged(Ok)
      else Commit(r.value.(profiles := ps[i := ps[i].(name := name, note := note, updated := now)]), Ok)
  }

  function Activate(r: Option<Record>, id: string, generation: string): Mutation {
    if r.None? || Find(r.value.profiles, id) == |r.value.profiles| then Unchanged(UnknownProfile)
    else if !r.value.profiles[Find(r.value.profiles, id)].enabled then Unchanged(Invalid)
    else if r.value.active == Some(id) then Unchanged(Ok)
    else Commit(r.value.(active := Some(id), generation := generation), Ok)
  }

  function ClearActive(r: Record, generation: string): Record { r.(active := None, generation := generation) }

  function SetEnabled(r: Option<Record>, id: string, enabled: bool, now: int, generation: string): Mutation {
    if r.None? || Find(r.value.profiles, id) == |r.value.profiles| then Unchanged(UnknownProfile)
    else
      var (ps, i) := (r.value.profiles, Find(r.value.profiles, id));
      if ps[i].enabled == enabled then Unchanged(Ok)
      else
        var next := r.value.(profiles := ps[i := ps[i].(enabled := enabled, updated := now)]);
        Commit(if !enabled && r.value.active == Some(id) then ClearActive(next, generation) else next, Ok)
  }

  predicate NoRepeats(ids: seq<string>) { forall i, j :: 0 <= i < j < |ids| ==> ids[i] != ids[j] }

  function Reorder(r: Option<Record>, ids: seq<string>): Mutation {
    if r.None? then Unchanged(UnknownProfile)
    else
      var ps := r.value.profiles;
      if |ids| != |ps| || !NoRepeats(ids) || exists k :: 0 <= k < |ids| && Find(ps, ids[k]) == |ps|
      then Unchanged(Invalid)
      else if forall k :: 0 <= k < |ids| ==> ids[k] == ps[k].id then Unchanged(Ok)
      else Commit(r.value.(profiles := Arranged(ps, ids)), Ok)
  }

  function Arranged(ps: seq<Profile>, ids: seq<string>): (sorted: seq<Profile>)
    requires forall k :: 0 <= k < |ids| ==> Find(ps, ids[k]) < |ps|
    ensures |sorted| == |ids| && forall k :: 0 <= k < |ids| ==> sorted[k] == ps[Find(ps, ids[k])]
  {
    seq(|ids|, k requires 0 <= k < |ids| && Find(ps, ids[k]) < |ps| => ps[Find(ps, ids[k])])
  }

  function Without(ps: seq<Profile>, id: string): (rest: seq<Profile>) {
    if ps == [] then []
    else if ps[0].id == id then Without(ps[1..], id)
    else [ps[0]] + Without(ps[1..], id)
  }

  function RemoveProfile(r: Option<Record>, id: string, generation: string): Mutation {
    if r.None? || Find(r.value.profiles, id) == |r.value.profiles| then Unchanged(UnknownProfile)
    else
      var next := r.value.(profiles := Without(r.value.profiles, id));
      Commit(if r.value.active == Some(id) then ClearActive(next, generation) else next, Ok)
  }

  function SetSwitchPolicy(r: Option<Record>, apiKeyOn429: bool, oauthOn429: bool): Mutation {
    if r.None? then Unchanged(UnknownProfile)
    else if r.value.apiKeyOn429 == apiKeyOn429 && r.value.oauthOn429 == oauthOn429 then Unchanged(Ok)
    else Commit(r.value.(apiKeyOn429 := apiKeyOn429, oauthOn429 := oauthOn429), Ok)
  }

  /** A profile that was just acquired; a local login refers to the file it was found in. */
  function Acquired(cfg: Config, kind: Kind, id: string, found: string, name: string, note: Option<string>,
      now: int): Profile {
    var reference := if kind == LocalOAuth then Reference(External, found)
        else Reference(Managed, ManagedPath(cfg, id));
    Profile(id, kind, reference, name, note, true, now, now)
  }

  function AppendAcquired(r: Option<Record>, p: Profile, generation: string): Record {
    if r.None? then Record(ABSENT, generation, Some(p.id), false, false, [p])
    else if r.value.profiles == [] then r.value.(active := Some(p.id), generation := generation, profiles := [p])
    else r.value.(profiles := r.value.profiles + [p])
  }

  function Acquire(cfg: Config, r: Option<Record>, p: Profile, generation: string): Mutation {
    if !DisplayNameOk(p.name) || !NoteOk(p.note) then Unchanged(Invalid)
    else if r.Some? && p.kind == LocalOAuth &&
            exists i :: 0 <= i < |r.value.profiles| && r.value.profiles[i].kind == LocalOAuth
    then Unchanged(Duplicate)
    else if r.Some? && NameTaken(cfg, r.value.profiles, p.name, None) then Unchanged(Duplicate)
    else Commit(AppendAcquired(r, p, generation), Ok)
  }

  /** What a request knows of the profile it was given. */
  datatype Capture = Capture(id: string, kind: Kind, generation: string)

  const MAX_PROFILE_ATTEMPTS_PER_REQUEST := 3

  predicate MaySwitch(r: Record, kind: Kind) { if UsesApiKey(kind) then r.apiKeyOn429 else r.oauthOn429 }

  predicate Candidate(p: Profile, kind: Kind, attempted: set<string>, cooling: set<string>) {
    p.enabled && UsesApiKey(p.kind) == UsesApiKey(kind) && p.id !in attempted && p.id !in cooling
  }

  function FirstCandidate(ps: seq<Profile>, kind: Kind, attempted: set<string>, cooling: set<string>): (i: nat)
    ensures i <= |ps| && (i < |ps| ==> Candidate(ps[i], kind, attempted, cooling))
    ensures forall j :: 0 <= j < i ==> !Candidate(ps[j], kind, attempted, cooling)
  {
    if ps == [] || Candidate(ps[0], kind, attempted, cooling) then 0
        else 1 + FirstCandidate(ps[1..], kind, attempted, cooling)
  }

  /** Moving the selection on after a final 429 response, if it is still the one that failed. */
  function Advance(r: Option<Record>, capture: Capture, attempted: set<string>, cooling: set<string>,
      generation: string): Mutation {
    var tried := attempted + {capture.id};
    if |tried| >= MAX_PROFILE_ATTEMPTS_PER_REQUEST then Unchanged(Exhausted)
    else if r.None? then Unchanged(Stale)
    else
      var (ps, i) := (r.value.profiles, Find(r.value.profiles, capture.id));
      if i == |ps| || r.value.generation != capture.generation || r.value.active != Some(capture.id) ||
          ps[i].kind != capture.kind
      then Unchanged(Stale)
      else if !MaySwitch(r.value, capture.kind) then Unchanged(Disabled)
      else
        var t := FirstCandidate(ps, capture.kind, tried, cooling);
        if t == |ps| then Unchanged(Exhausted)
        else Commit(r.value.(active := Some(ps[t].id), generation := generation), Switched(ps[t].id))
  }

  // ------------------------------------------------------------- the requests

  datatype Action =
    | DoUpdateMetadata(id: string, name: string, note: Option<string>, now: int)
    | DoActivate(id: string)
    | DoSetEnabled(id: string, enabled: bool, now: int)
    | DoReorder(ids: seq<string>)
    | DoRemove(id: string)
    | DoSetSwitchPolicy(apiKeyOn429: bool, oauthOn429: bool)
    | DoAcquire(profile: Profile)
    | DoAdvance(capture: Capture, attempted: set<string>, cooling: set<string>)

  /** An action, the revision it is based on where it is a management write, and the identifiers made for it. */
  datatype Request = Request(action: Action, expected: Option<string>, generation: string, revision: string)

  function Mutate(cfg: Config, r: Option<Record>, q: Request): Mutation {
    match q.action
    case DoUpdateMetadata(id, name, note, now) => UpdateMetadata(cfg, r, id, name, note, now)
    case DoActivate(id) => Activate(r, id, q.generation)
    case DoSetEnabled(id, enabled, now) => SetEnabled(r, id, enabled, now, q.generation)
    case DoReorder(ids) => Reorder(r, ids)
    case DoRemove(id) => RemoveProfile(r, id, q.generation)
    case DoSetSwitchPolicy(apiKey, oauth) => SetSwitchPolicy(r, apiKey, oauth)
    case DoAcquire(p) => Acquire(cfg, r, p, q.generation)
    case DoAdvance(capture, attempted, cooling) => Advance(r, capture, attempted, cooling, q.generation)
  }

  function RevisionOf(r: Option<Record>): string { if r.None? then ABSENT else r.value.revision }

  predicate Conflicts(r: Option<Record>, q: Request) { q.expected.Some? && q.expected.value != RevisionOf(r) }

  datatype Verdict = Committed(record: Record, answer: Answer) | Kept(answer: Answer) | Rejected | Conflict

  /** One operation on the stored record: compare, mutate, give a new revision, and check before the write. */
  function Attempt(cfg: Config, r: Option<Record>, q: Request): Verdict {
    if Conflicts(r, q) then Conflict
    else
      match Mutate(cfg, r, q)
      case Unchanged(answer) => Kept(answer)
      case Commit(record, answer) =>
        var next := record.(revision := q.revision);
        if Valid(cfg, next) then Committed(next, answer) else Rejected
  }
}
