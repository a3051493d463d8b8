/**
 What each request does to a provider's record, and exactly when it goes ahead: told profile by profile.
 */
module ProfileEffects {
  import opened Options
  import opened Profiles
  import opened ProfileMutations
  import opened Trimming

  function ProfilesOf(r: Option<Record>): seq<Profile> { if r.None? then [] else r.value.profiles }

  predicate HasId(ps: seq<Profile>, id: string) { exists i :: 0 <= i < |ps| && ps[i].id == id }

  /** Another profile has a name that is the same but for its case. */
  predicate OtherNamed(cfg: Config, ps: seq<Profile>, id: Option<string>, name: string) {
    exists i :: 0 <= i < |ps| && Some(ps[i].id) != id && cfg.fold(ps[i].name) == cfg.fold(name)
  }

  predicate MayBeNamed(name: string, note: Option<string>) {
    1 <= |Trim(name)| <= 64 && (note.Some? ==> |note.value| <= 200)
  }

  /** A profile to go on with after a final 429 response. */
  predicate MayFollow(p: Profile, capture: Capture, attempted: set<string>, cooling: set<string>) {
    p.enabled && (p.kind == ApiKey <==> capture.kind == ApiKey) && p.id != capture.id && p.id !in attempted &&
    p.id !in cooling
  }

  /** The first profile that may follow. */
  predicate FirstToFollow(ps: seq<Profile>, capture: Capture, attempted: set<string>, cooling: set<string>, t: nat) {
    && t < |ps| && MayFollow(ps[t], capture, attempted, cooling)
    && forall i :: 0 <= i < t ==> !MayFollow(ps[i], capture, attempted, cooling)
  }

  predicate StillSelected(r: Record, capture: Capture) {
    && r.active == Some(capture.id) && r.generation == capture.generation
    && exists i :: 0 <= i < |r.profiles| && r.profiles[i].id == capture.id && r.profiles[i].kind == capture.kind
  }

  /** The selection is still the one that failed, and its kind of profile is switched at 429. */
  predicate StillFailed(r: Record, capture: Capture) {
    StillSelected(r, capture) && if capture.kind == ApiKey then r.apiKeyOn429 else r.oauthOn429
  }

  /** The request can be met. */
  predicate Allowed(cfg: Config, r: Option<Record>, a: Action) {
    var ps := ProfilesOf(r);
    match a
    case DoUpdateMetadata(id, name, note, _) =>
      MayBeNamed(name, note) && HasId(ps, id) && !OtherNamed(cfg, ps, Some(id), name)
    case DoActivate(id) => exists i :: 0 <= i < |ps| && ps[i].id == id && ps[i].enabled
    case DoSetEnabled(id, _, _) => HasId(ps, id)
    case DoReorder(ids) =>
      r.Some? && |ids| == |ps| && NoRepeats(ids) && forall k :: 0 <= k < |ids| ==> HasId(ps, ids[k])
    case DoRemove(id) => HasId(ps, id)
    case DoSetSwitchPolicy(_, _) => r.Some?
    case DoAcquire(p) =>
      && MayBeNamed(p.name, p.note) && !OtherNamed(cfg, ps, None, p.name)
      && (p.kind == LocalOAuth ==> forall i :: 0 <= i < |ps| ==> ps[i].kind != LocalOAuth)
    case DoAdvance(capture, attempted, cooling) =>
      && |attempted + {capture.id}| < 3 && r.Some? && StillFailed(r.value, capture)
      && exists i :: 0 <= i < |ps| && MayFollow(ps[i], capture, attempted, cooling)
  }

  /** Only what is at hand changes: the profiles, or what is selected. */
  predicate OnlyProfiles(r: Record, n: Record) {
    n.active == r.active && n.apiKeyOn429 == r.apiKeyOn429 && n.oauthOn429 == r.oauthOn429
  }

  predicate OnlySelection(r: Record, n: Record) {
    n.profiles == r.profiles && n.apiKeyOn429 == r.apiKeyOn429 && n.oauthOn429 == r.oauthOn429
  }

  /** Each profile stays in its place, and all but one stay as they are. */
  predicate OthersSame(r: Record, n: Record, id: string) {
    |n.profiles| == |r.profiles| &&
    forall i :: 0 <= i < |r.profiles| ==>
      n.profiles[i].id == r.profiles[i].id && (r.profiles[i].id != id ==> n.profiles[i] == r.profiles[i])
  }

  /** The one profile is as it was but for its name, its note and its date. */
  predicate NamedSo(p: Profile, q: Profile, name: string, note: Option<string>, now: int) {
    q == p.(name := name, note := note, updated := if p.name == name && p.note == note then p.updated else now)
  }

  predicate EnabledSo(p: Profile, q: Profile, enabled: bool, now: int) {
    q == p.(enabled := enabled, updated := if p.enabled == enabled then p.updated else now)
  }

  /** The record `n` has what was asked for, and otherwise what was in the record. */
  predicate Done(r: Option<Record>, a: Action, n: Record) {
    match a
    case DoAcquire(p) =>
      && n.profiles == ProfilesOf(r) + [p]
      && (ProfilesOf(r) == [] ==> n.active == Some(p.id))
      && (ProfilesOf(r) != [] ==> OnlyProfiles(r.value, n))
      && (r.Some? ==> n.apiKeyOn429 == r.value.apiKeyOn429 && n.oauthOn429 == r.value.oauthOn429)
      && (r.None? ==> !n.apiKeyOn429 && !n.oauthOn429)
    case _ => r.Some? && DoneTo(r.value, a, n)
  }

  predicate DoneTo(r: Record, a: Action, n: Record)
    requires !a.DoAcquire?
  {
    match a
    case DoUpdateMetadata(id, name, note, now) =>
      && OnlyProfiles(r, n) && OthersSame(r, n, id)
      && forall i :: 0 <= i < |r.profiles| && r.profiles[i].id == id ==>
           NamedSo(r.profiles[i], n.profiles[i], name, note, now)
    case DoActivate(id) => OnlySelection(r, n) && n.active == Some(id)
    case DoSetEnabled(id, enabled, now) =>
      && OthersSame(r, n, id) && n.apiKeyOn429 == r.apiKeyOn429 && n.oauthOn429 == r.oauthOn429
      && n.active == (if !enabled && r.active == Some(id) then None else r.active)
      && forall i :: 0 <= i < |r.profiles| && r.profiles[i].id == id ==>
           EnabledSo(r.profiles[i], n.profiles[i], enabled, now)
    case DoReorder(ids) =>
      && OnlyProfiles(r, n) && |n.profiles| == |r.profiles| == |ids|
      && forall k :: 0 <= k < |ids| ==> n.profiles[k].id == ids[k] && n.profiles[k] in r.profiles
    case DoRemove(id) =>
      && n.apiKeyOn429 == r.apiKeyOn429 && n.oauthOn429 == r.oauthOn429
      && n.active == (if r.active == Some(id) then None else r.active)
      && exists i :: 0 <= i < |r.profiles| && r.profiles[i].id == id &&
                     n.profiles == r.profiles[..i] + r.profiles[i + 1..]
    case DoSetSwitchPolicy(apiKey, oauth) =>
      n.profiles == r.profiles && n.active == r.active && n.apiKeyOn429 == apiKey && n.oauthOn429 == oauth
    case DoAdvance(capture, attempted, cooling) =>
      && OnlySelection(r, n)
      && exists t :: 0 <= t < |r.profiles| && FirstToFollow(r.profiles, capture, attempted, cooling, t) &&
                     n.active == Some(r.profiles[t].id)
  }

  /** More than the revision has changed. */
  predicate Changed(r: Option<Record>, n: Record) { r.Some? ==> n.(revision := r.value.revision) != r.value }

  /** The answer names something that stands in the way of the request. */
  predicate StandsInTheWay(cfg: Config, r: Option<Record>, a: Action, answer: Answer) {
    var ps := ProfilesOf(r);
    match a
    case DoUpdateMetadata(id, name, note, _) =>
      || (answer == Invalid && !MayBeNamed(name, note)) || (answer == UnknownProfile && !HasId(ps, id))
      || (answer == Duplicate && OtherNamed(cfg, ps, Some(id), name))
    case DoActivate(id) =>
      || (answer == UnknownProfile && !HasId(ps, id))
      || (answer == Invalid && exists i :: 0 <= i < |ps| && ps[i].id == id && !ps[i].enabled)
    case DoSetEnabled(id, _, _) => answer == UnknownProfile && !HasId(ps, id)
    case DoReorder(ids) =>
      || (answer == UnknownProfile && r.None?)
      || (answer == Invalid &&
          (|ids| != |ps| || !NoRepeats(ids) || exists k :: 0 <= k < |ids| && !HasId(ps, ids[k])))
    case DoRemove(id) => answer == UnknownProfile && !HasId(ps, id)
    case DoSetSwitchPolicy(_, _) => answer == UnknownProfile && r.None?
    case DoAcquire(p) =>
      || (answer == Invalid && !MayBeNamed(p.name, p.note))
      || (answer == Duplicate && OtherNamed(cfg, ps, None, p.name))
      || (answer == Duplicate && p.kind == LocalOAuth && exists i :: 0 <= i < |ps| && ps[i].kind == LocalOAuth)
    case DoAdvance(capture, attempted, cooling) =>
      || (answer == Exhausted && |attempted + {capture.id}| >= 3)
      || (answer == Exhausted && forall i :: 0 <= i < |ps| ==> !MayFollow(ps[i], capture, attempted, cooling))
      || (answer == Stale && (r.None? || !StillSelected(r.value, capture)))
      || (answer == Disabled && r.Some? &&
          if capture.kind == ApiKey then !r.value.apiKeyOn429 else !r.value.oauthOn429)
  }

  // ------------------------------------------------------------ one by one

  function Outcome(r: Option<Record>, m: Mutation): Option<Record> {
    match m
    case Commit(n, _) => Some(n)
    case Unchanged(Ok) => r
    case Unchanged(_) => None
  }

  /** What is claimed of an action's mutation: it goes ahead exactly if it is allowed, and then does what was asked. */
  predicate Right(cfg: Config, r: Option<Record>, a: Action, m: Mutation) {
    && (m == Unchanged(Ok) ==> r.Some?)
    && (Outcome(r, m).Some? <==> Allowed(cfg, r, a)) && (Outcome(r, m).Some? ==> Done(r, a, Outcome(r, m).value))
    && match m case Commit(n, _) => Changed(r, n)
               case Unchanged(answer) => answer == Ok || StandsInTheWay(cfg, r, a, answer)
  }

  lemma IsFound(ps: seq<Profile>, id: string)
    ensures HasId(ps, id) <==> Find(ps, id) < |ps|
  {
    hide Find;
    if Find(ps, id) < |ps| { assert ps[Find(ps, id)].id == id; }
  }

  lemma OnlyOne(cfg: Config, r: Record, id: string, i: nat)
    requires Valid(cfg, r) && i < |r.profiles| && r.profiles[i].id == id
    ensures forall j :: 0 <= j < |r.profiles| && r.profiles[j].id == id ==> j == i
  {
    hide ProfileOk;
  }

  lemma DisabledIsNotActive(cfg: Config, r: Record, i: nat)
    requires Valid(cfg, r) && i < |r.profiles| && !r.profiles[i].enabled
    ensures r.active != Some(r.profiles[i].id)
  {
    OnlyOne(cfg, r, r.profiles[i].id, i);
  }

  lemma UpdatedOne(cfg: Config, r: Record, i: nat, name: string, note: Option<string>, now: int)
    requires Valid(cfg, r) && i < |r.profiles|
    ensures var p := r.profiles[i]; var a := DoUpdateMetadata(p.id, name, note, now);
            var n := r.(profiles := r.profiles[i := p.(name := name, note := note, updated := now)]);
            if p.name == name && p.note == note then DoneTo(r, a, r) else DoneTo(r, a, n) && Changed(Some(r), n)
  {
    hide Valid;
    OnlyOne(cfg, r, r.profiles[i].id, i);
    var n := r.(profiles := r.profiles[i := r.profiles[i].(name := name, note := note, updated := now)]);
    assert n.profiles[i].name == name && n.profiles[i].note == note;
  }

  lemma EnabledOne(cfg: Config, r: Record, i: nat, enabled: bool, now: int, generation: string)
    requires Valid(cfg, r) && i < |r.profiles|
    ensures var p := r.profiles[i]; var a := DoSetEnabled(p.id, enabled, now);
            var n := r.(profiles := r.profiles[i := p.(enabled := enabled, updated := now)]);
            var n' := if !enabled && r.active == Some(p.id) then ClearActive(n, generation) else n;
            if p.enabled == enabled then DoneTo(r, a, r) else DoneTo(r, a, n') && Changed(Some(r), n')
  {
    hide Valid;
    OnlyOne(cfg, r, r.profiles[i].id, i);
    if !r.profiles[i].enabled { DisabledIsNotActive(cfg, r, i); }
    var n := r.(profiles := r.profiles[i := r.profiles[i].(enabled := enabled, updated := now)]);
    assert n.profiles[i].enabled == enabled;
  }

  lemma UpdateIsRight(cfg: Config, r: Option<Record>, id: string, name: string, note: Option<string>, now: int)
    requires ValidOrAbsent(cfg, r)
    ensures Right(cfg, r, DoUpdateMetadata(id, name, note, now), UpdateMetadata(cfg, r, id, name, note, now))
  {
    hide Find, Trim, Valid, DoneTo, Changed;
    IsFound(ProfilesOf(r), id);
    if HasId(ProfilesOf(r), id) { UpdatedOne(cfg, r.value, Find(r.value.profiles, id), name, note, now); }
  }

  lemma ActivateIsRight(cfg: Config, r: Option<Record>, id: string, generation: string)
    requires ValidOrAbsent(cfg, r)
    ensures Right(cfg, r, DoActivate(id), Activate(r, id, generation))
  {
    hide Find, Valid;
    IsFound(ProfilesOf(r), id);
    if HasId(ProfilesOf(r), id) { OnlyOne(cfg, r.value, id, Find(r.value.profiles, id)); }
  }

  lemma SetEnabledIsRight(cfg: Config, r: Option<Record>, id: string, enabled: bool, now: int, generation: string)
    requires ValidOrAbsent(cfg, r)
    ensures Right(cfg, r, DoSetEnabled(id, enabled, now), SetEnabled(r, id, enabled, now, generation))
  {
    hide Find, Valid, DoneTo, Changed, ClearActive;
    IsFound(ProfilesOf(r), id);
    if HasId(ProfilesOf(r), id) { EnabledOne(cfg, r.value, Find(r.value.profiles, id), enabled, now, generation); }
  }

  lemma ReorderIsRight(cfg: Config, r: Option<Record>, ids: seq<string>)
    requires ValidOrAbsent(cfg, r)
    ensures Right(cfg, r, DoReorder(ids), Reorder(r, ids))
  {
    hide Find, Valid;
    forall k | 0 <= k < |ids| ensures HasId(ProfilesOf(r), ids[k]) <==> Find(ProfilesOf(r), ids[k]) < |ProfilesOf(r)| {
      IsFound(ProfilesOf(r), ids[k]);
    }
  }

  lemma {:induction false} WithoutOne(ps: seq<Profile>, id: string, i: nat)
    requires i < |ps| && ps[i].id == id && forall j :: 0 <= j < |ps| && ps[j].id == id ==> j == i
    ensures Without(ps, id) == ps[..i] + ps[i + 1..]
    decreases |ps|
  {
    if i == 0 {
      WithoutNone(ps[1..], id);
    } else {
      WithoutOne(ps[1..], id, i - 1);
      assert ps[..i] == [ps[0]] + ps[1..][..i - 1] && ps[1..][i..] == ps[i + 1..];
    }
  }

  lemma {:induction false} WithoutNone(ps: seq<Profile>, id: string)
    requires forall j :: 0 <= j < |ps| ==> ps[j].id != id
    ensures Without(ps, id) == ps
    decreases |ps|
  {
    if ps != [] { WithoutNone(ps[1..], id); }
  }

  lemma RemoveIsRight(cfg: Config, r: Option<Record>, id: string, generation: string)
    requires ValidOrAbsent(cfg, r)
    ensures Right(cfg, r, DoRemove(id), RemoveProfile(r, id, generation))
  {
    hide Find, Valid, Without;
    IsFound(ProfilesOf(r), id);
    if HasId(ProfilesOf(r), id) {
      var i := Find(r.value.profiles, id);
      OnlyOne(cfg, r.value, id, i);
      WithoutOne(r.value.profiles, id, i);
    }
  }

  lemma PolicyIsRight(cfg: Config, r: Option<Record>, apiKey: bool, oauth: bool)
    ensures Right(cfg, r, DoSetSwitchPolicy(apiKey, oauth), SetSwitchPolicy(r, apiKey, oauth))
  {
  }

  lemma AcquireIsRight(cfg: Config, r: Option<Record>, p: Profile, generation: string)
    ensures Right(cfg, r, DoAcquire(p), Acquire(cfg, r, p, generation))
  {
    hide Trim;
  }

  lemma AdvanceIsRight(cfg: Config, r: Option<Record>, capture: Capture, attempted: set<string>, cooling: set<string>,
      generation: string)
    requires ValidOrAbsent(cfg, r)
    ensures Right(cfg, r, DoAdvance(capture, attempted, cooling), Advance(r, capture, attempted, cooling, generation))
  {
    hide Find, Valid, FirstCandidate;
    IsFound(ProfilesOf(r), capture.id);
    if HasId(ProfilesOf(r), capture.id) { OnlyOne(cfg, r.value, capture.id, Find(r.value.profiles, capture.id)); }
    if r.Some? { SameCandidates(r.value.profiles, capture, attempted, cooling); }
  }

  lemma SameCandidates(ps: seq<Profile>, capture: Capture, attempted: set<string>, cooling: set<string>)
    ensures forall i :: 0 <= i < |ps| ==>
              (Candidate(ps[i], capture.kind, attempted + {capture.id}, cooling)
               <==> MayFollow(ps[i], capture, attempted, cooling))
  {
  }

  // ----------------------------------------------------------------- theorem

  lemma MutationIsRight(cfg: Config, r: Option<Record>, q: Request)
    requires ValidOrAbsent(cfg, r)
    ensures (match Mutate(cfg, r, q) case Commit(_, a) => a.Ok? || a.Switched? case Unchanged(a) => !a.Switched?)
    ensures Right(cfg, r, q.action, Mutate(cfg, r, q))
  {
    hide Right, ValidOrAbsent, Find, FirstCandidate, NameTaken, DisplayNameOk, NoteOk, Without;
    match q.action
    case DoUpdateMetadata(id, name, note, now) => UpdateIsRight(cfg, r, id, name, note, now);
    case DoActivate(id) => ActivateIsRight(cfg, r, id, q.generation);
    case DoSetEnabled(id, enabled, now) => SetEnabledIsRight(cfg, r, id, enabled, now, q.generation);
    case DoReorder(ids) => ReorderIsRight(cfg, r, ids);
    case DoRemove(id) => RemoveIsRight(cfg, r, id, q.generation);
    case DoSetSwitchPolicy(apiKey, oauth) => PolicyIsRight(cfg, r, apiKey, oauth);
    case DoAcquire(p) => AcquireIsRight(cfg, r, p, q.generation);
    case DoAdvance(capture, attempted, cooling) => AdvanceIsRight(cfg, r, capture, attempted, cooling, q.generation);
  }

  /** The revision does not matter to what was done. */
  lemma DoneWithRevision(r: Option<Record>, a: Action, n: Record, revision: string)
    ensures Done(r, a, n) <==> Done(r, a, n.(revision := revision))
  {
    hide MayFollow;
  }

  /** An update that changes nothing repeats a stored name, which is trimmed. */
  lemma KeptNameIsTrimmed(cfg: Config, r: Option<Record>, q: Request)
    requires ValidOrAbsent(cfg, r) && Mutate(cfg, r, q) == Unchanged(Ok)
    ensures NameIsTrimmed(q.action)
  {
    hide Find, Distinct, OneLocal, ActiveOk, Trim, ReferenceOk;
  }

  /** The answer means that the request has been met. */
  predicate Met(v: Verdict) { v.Committed? || v == Kept(Ok) }

  /**
   Every request, on every valid record or none. It meets a conflict exactly if it names another revision. Otherwise
   it is met exactly if the record allows it, and the name it gives, if any, has no white space around it; with such
   a name, the store rejects what would be allowed. A request that is met has done exactly what it asks for; a record is
   written, under its new revision, only if something else changes. The answer to a request that is not met names what
   stands in its way.
   */
  lemma RequestsAreRight(cfg: Config, r: Option<Record>, q: Request)
    requires ValidOrAbsent(cfg, r) && WellMade(cfg, r, q)
    ensures var v := Attempt(cfg, r, q);
            var current := if r.None? then "absent" else r.value.revision;
            && (v.Conflict? <==> q.expected.Some? && q.expected.value != current)
            && (!v.Conflict? ==>
                  && (Met(v) <==> Allowed(cfg, r, q.action) && NameIsTrimmed(q.action))
                  && (v.Rejected? <==> Allowed(cfg, r, q.action) && !NameIsTrimmed(q.action)))
            && (v.Committed? ==>
                  Done(r, q.action, v.record) && v.record.revision == q.revision && Changed(r, v.record))
            && (v.Kept? && v.answer != Ok ==> StandsInTheWay(cfg, r, q.action, v.answer))
            && (v == Kept(Ok) ==> r.Some? && Done(r, q.action, r.value))
  {
    hide Mutate, Done, Allowed, NameIsTrimmed, WellMade, Valid, StandsInTheWay;
    MutationIsRight(cfg, r, q);
    match Mutate(cfg, r, q)
    case Commit(n, _) =>
      CommitsAreValid(cfg, r, q);
      DoneWithRevision(r, q.action, n, q.revision);
    case Unchanged(a) =>
      if a.Ok? { KeptNameIsTrimmed(cfg, r, q); }
  }
}
