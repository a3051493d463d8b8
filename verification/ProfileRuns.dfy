/**
 Runs of operations on one provider's record, one after the other: every committed record is valid, revisions
 and selection generations never come back, and a generation stands for one selection.
 */
module ProfileRuns {
  import opened Options
  import opened Profiles
  import opened ProfileMutations

  /** The record, every record that was committed, and every identifier that was made. */
  datatype Book = Book(record: Option<Record>, log: seq<Record>, made: set<string>)

  const EMPTY := Book(None, [], {ABSENT})

  function Made(q: Request): set<string> {
    {q.generation, q.revision} + (if q.action.DoAcquire? then {q.action.profile.id} else {})
  }

  function Perform(cfg: Config, b: Book, q: Request): Book {
    match Attempt(cfg, b.record, q)
    case Committed(r, _) => Book(Some(r), b.log + [r], b.made + Made(q))
    case _ => b.(made := b.made + Made(q))
  }

  /** Identifiers are made once. */
  predicate Fresh(b: Book, q: Request) {
    && Made(q) !! b.made && q.generation != q.revision
    && (q.action.DoAcquire? ==> q.action.profile.id != q.generation && q.action.profile.id != q.revision)
  }

  function After(cfg: Config, qs: seq<Request>): Book {
    if qs == [] then EMPTY else Perform(cfg, After(cfg, qs[..|qs| - 1]), qs[|qs| - 1])
  }

  predicate Legal(cfg: Config, qs: seq<Request>) {
    qs != [] ==> Legal(cfg, qs[..|qs| - 1]) && Fresh(After(cfg, qs[..|qs| - 1]), qs[|qs| - 1])
  }

  // --------------------------------------------------------------- one step

  /** A commit gives a new generation when it changes the selection, and only then. */
  predicate Tracks(before: Record, now: Record) {
    now.generation == before.generation <==> now.active == before.active
  }

  lemma CommitTracks(cfg: Config, r: Record, q: Request)
    requires Valid(cfg, r) && Attempt(cfg, Some(r), q).Committed? && q.generation != r.generation
    ensures var next := Attempt(cfg, Some(r), q).record;
            Tracks(r, next) && (next.generation == r.generation || next.generation == q.generation) &&
                next.revision == q.revision
  {
    hide ProfileOk, Distinct, OneLocal, Mutate;
    MutationTracks(cfg, r, q);
  }

  lemma MutationTracks(cfg: Config, r: Record, q: Request)
    requires ActiveOk(r) && Mutate(cfg, Some(r), q).Commit? && q.generation != r.generation
    ensures var next := Mutate(cfg, Some(r), q).record;
            Tracks(r, next) && (next.generation == r.generation || next.generation == q.generation)
  {
    hide Tracks, ActiveOk, UpdateMetadata, Activate, SetEnabled, Reorder, RemoveProfile, SetSwitchPolicy, Acquire,
         Advance;
    match q.action
    case DoAcquire(_) => AcquireTracks(cfg, r, q);
    case DoAdvance(_, _, _) => AdvanceTracks(cfg, r, q);
    case DoSetEnabled(_, _, _) => DeselectionTracks(cfg, r, q);
    case DoRemove(_) => DeselectionTracks(cfg, r, q);
    case _ => OthersTrack(cfg, r, q);
  }

  lemma AcquireTracks(cfg: Config, r: Record, q: Request)
    requires ActiveOk(r) && q.action.DoAcquire? && Mutate(cfg, Some(r), q).Commit? && q.generation != r.generation
    ensures var next := Mutate(cfg, Some(r), q).record;
            Tracks(r, next) && (next.generation == r.generation || next.generation == q.generation)
  {
    hide NameTaken, DisplayNameOk, NoteOk;
    if r.profiles == [] { assert r.active.None?; }
  }

  lemma AdvanceTracks(cfg: Config, r: Record, q: Request)
    requires q.action.DoAdvance? && Mutate(cfg, Some(r), q).Commit? && q.generation != r.generation
    ensures var next := Mutate(cfg, Some(r), q).record; Tracks(r, next) && next.generation == q.generation
  {
    hide Find, FirstCandidate, MaySwitch;
  }

  lemma DeselectionTracks(cfg: Config, r: Record, q: Request)
    requires (q.action.DoSetEnabled? || q.action.DoRemove?) && Mutate(cfg, Some(r), q).Commit? &&
               q.generation != r.generation
    ensures var next := Mutate(cfg, Some(r), q).record;
            Tracks(r, next) && (next.generation == r.generation || next.generation == q.generation)
  {
    hide Find, Without;
  }

  lemma OthersTrack(cfg: Config, r: Record, q: Request)
    requires q.action.DoUpdateMetadata? || q.action.DoActivate? || q.action.DoReorder? || q.action.DoSetSwitchPolicy?
    requires Mutate(cfg, Some(r), q).Commit? && q.generation != r.generation
    ensures var next := Mutate(cfg, Some(r), q).record;
            Tracks(r, next) && (next.generation == r.generation || next.generation == q.generation)
  {
    hide Find, NameTaken, DisplayNameOk, NoteOk, Arranged, NoRepeats;
  }

  predicate IdsMade(r: Option<Record>, made: set<string>) {
    r.Some? ==> forall i :: 0 <= i < |r.value.profiles| ==> r.value.profiles[i].id in made
  }

  lemma CommitIdsMade(cfg: Config, r: Option<Record>, q: Request, made: set<string>)
    requires IdsMade(r, made) && Attempt(cfg, r, q).Committed?
    ensures IdsMade(Some(Attempt(cfg, r, q).record), made + Made(q))
  {
    hide Valid, Mutate;
    var next := Attempt(cfg, r, q).record;
    forall k | 0 <= k < |next.profiles|
      ensures next.profiles[k].id in made + Made(q)
    {
      var i := ComesFrom(cfg, r, q, k);
    }
  }

  /** A profile of a mutated record is the one that was acquired, or one with the same identifier was there. */
  lemma ComesFrom(cfg: Config, r: Option<Record>, q: Request, k: nat) returns (i: nat)
    requires Mutate(cfg, r, q).Commit? && k < |Mutate(cfg, r, q).record.profiles|
    ensures var p := Mutate(cfg, r, q).record.profiles[k];
            (q.action.DoAcquire? && p == q.action.profile) ||
            (r.Some? && i < |r.value.profiles| && r.value.profiles[i].id == p.id && r.value.profiles[i].kind == p.kind)
  {
    hide NameTaken, DisplayNameOk, NoteOk, NoRepeats, MaySwitch, FirstCandidate, Find;
    i := k;
    if q.action.DoRemove? { i := WithoutIs(r.value.profiles, q.action.id, k); }
    if q.action.DoReorder? { i := Find(r.value.profiles, q.action.ids[k]); }
  }

  // ---------------------------------------------------------- over all runs

  predicate LogIsMade(b: Book) {
    && (forall i :: 0 <= i < |b.log| ==>
         b.log[i].generation in b.made && b.log[i].revision in b.made && b.log[i].revision != ABSENT)
    && ABSENT in b.made
  }

  predicate LogTracks(log: seq<Record>) {
    forall i :: 0 < i < |log| ==> Tracks(log[i - 1], log[i])
  }

  /** A generation that was left is not seen again. */
  predicate NeverComesBack(log: seq<Record>) {
    forall i, j, k :: 0 <= i <= j <= k < |log| && log[i].generation == log[k].generation ==>
        log[j].generation == log[i].generation
  }

  predicate RevisionsDiffer(log: seq<Record>) {
    forall i, j :: 0 <= i < j < |log| ==> log[i].revision != log[j].revision
  }

  predicate LogIsValid(cfg: Config, log: seq<Record>) {
    forall i :: 0 <= i < |log| ==> Valid(cfg, log[i])
  }

  predicate Inv(cfg: Config, b: Book) {
    && b.record == (if b.log == [] then None else Some(b.log[|b.log| - 1]))
    && LogIsMade(b) && IdsMade(b.record, b.made)
    && LogTracks(b.log) && NeverComesBack(b.log) && RevisionsDiffer(b.log) && LogIsValid(cfg, b.log)
  }

  lemma LogGrows(cfg: Config, log: seq<Record>, next: Record, generation: string)
    requires LogTracks(log) && NeverComesBack(log) && RevisionsDiffer(log) && LogIsValid(cfg, log)
    requires Valid(cfg, next)
    requires forall i :: 0 <= i < |log| ==> log[i].revision != next.revision && log[i].generation != generation
    requires log != [] ==> Tracks(log[|log| - 1], next)
    requires next.generation == generation || (log != [] && next.generation == log[|log| - 1].generation)
    ensures LogTracks(log + [next]) && NeverComesBack(log + [next]) && RevisionsDiffer(log + [next]) &&
              LogIsValid(cfg, log + [next])
  {
    hide Valid, Tracks;
    var all := log + [next];
    forall i, j, k | 0 <= i <= j <= k < |all| && all[i].generation == all[k].generation
      ensures all[j].generation == all[i].generation
    {
      if k == |log| && j < k {
        assert next.generation == log[|log| - 1].generation;
        assert log[i].generation == log[|log| - 1].generation;
      }
    }
  }

  lemma PerformKeeps(cfg: Config, b: Book, q: Request)
    requires Inv(cfg, b) && Fresh(b, q)
    ensures Inv(cfg, Perform(cfg, b, q))
  {
    hide Valid, Mutate, NeverComesBack, RevisionsDiffer, LogTracks, IdsMade, Tracks;
    if Attempt(cfg, b.record, q).Committed? {
      var next := Attempt(cfg, b.record, q).record;
      CommitIdsMade(cfg, b.record, q, b.made);
      if b.record.Some? { CommitTracks(cfg, b.record.value, q); } else { FirstCommit(cfg, q); }
      LogGrows(cfg, b.log, next, q.generation);
    } else {
      MoreMade(b.record, b.made, Made(q));
    }
  }

  lemma MoreMade(r: Option<Record>, made: set<string>, more: set<string>)
    requires IdsMade(r, made)
    ensures IdsMade(r, made + more)
  {
  }

  lemma FirstCommit(cfg: Config, q: Request)
    requires Attempt(cfg, None, q).Committed?
    ensures Attempt(cfg, None, q).record.generation == q.generation &&
              Attempt(cfg, None, q).record.revision == q.revision
    ensures Valid(cfg, Attempt(cfg, None, q).record)
  {
    hide Valid, DisplayNameOk;
  }

  lemma {:induction false} RunsKeep(cfg: Config, qs: seq<Request>)
    requires Legal(cfg, qs)
    ensures Inv(cfg, After(cfg, qs))
    decreases |qs|
  {
    hide Perform, Inv, Fresh;
    if qs == [] {
      NothingCommitted(cfg);
    } else {
      RunsKeep(cfg, qs[..|qs| - 1]);
      PerformKeeps(cfg, After(cfg, qs[..|qs| - 1]), qs[|qs| - 1]);
    }
  }

  lemma NothingCommitted(cfg: Config)
    ensures Inv(cfg, EMPTY)
  {
  }

  // --------------------------------------------------------------- theorems

  /** Everything that was ever stored is valid. */
  lemma StoredRecordsAreValid(cfg: Config, qs: seq<Request>, i: nat)
    requires Legal(cfg, qs) && i < |After(cfg, qs).log|
    ensures Valid(cfg, After(cfg, qs).log[i])
  {
    hide Valid, After, Legal;
    RunsKeep(cfg, qs);
  }

  /** An equal generation means that the selection stayed as it was throughout: no ABA. */
  lemma EqualGenerationsMeanOneSelection(cfg: Config, qs: seq<Request>, i: nat, j: nat, k: nat)
    requires Legal(cfg, qs) && i <= j <= k < |After(cfg, qs).log|
    requires After(cfg, qs).log[i].generation == After(cfg, qs).log[k].generation
    ensures After(cfg, qs).log[j].generation == After(cfg, qs).log[i].generation
    ensures After(cfg, qs).log[j].active == After(cfg, qs).log[i].active
  {
    hide Valid, After, Legal;
    RunsKeep(cfg, qs);
    SameSelection(After(cfg, qs).log, i, j, k);
  }

  lemma {:induction false} SameSelection(log: seq<Record>, i: nat, j: nat, k: nat)
    requires LogTracks(log) && NeverComesBack(log) && i <= j <= k < |log| && log[i].generation == log[k].generation
    ensures log[j].generation == log[i].generation && log[j].active == log[i].active
    decreases j
  {
    if i < j {
      SameSelection(log, i, j - 1, k);
      assert Tracks(log[j - 1], log[j]);
    }
  }

  /** A management write is based on the record that was read: nothing was committed in between. */
  lemma NoLostUpdate(cfg: Config, qs: seq<Request>, q: Request, i: nat)
    requires Legal(cfg, qs + [q]) && i < |After(cfg, qs).log|
    requires q.expected == Some(After(cfg, qs).log[i].revision)
    ensures Attempt(cfg, After(cfg, qs).record, q) != Conflict <==> i == |After(cfg, qs).log| - 1
  {
    hide Valid, After, Mutate;
    assert (qs + [q])[..|qs|] == qs;
    RunsKeep(cfg, qs);
    var log := After(cfg, qs).log;
    assert i < |log| - 1 ==> log[i].revision != log[|log| - 1].revision;
  }

  // ---------------------------------------------------- advancing after 429

  predicate IsAdvance(q: Request, generation: string) {
    q.action.DoAdvance? && q.action.capture.generation == generation
  }

  /** A generation that was committed once and is not the current one. */
  predicate Left(b: Book, generation: string) {
    && (exists i :: 0 <= i < |b.log| && b.log[i].generation == generation)
    && (b.record.Some? && b.record.value.generation != generation)
  }

  lemma LeftForGood(cfg: Config, b: Book, q: Request, generation: string)
    requires Inv(cfg, b) && Fresh(b, q) && Left(b, generation)
    ensures Left(Perform(cfg, b, q), generation)
  {
    hide Valid, Mutate, NeverComesBack, RevisionsDiffer, LogTracks, IdsMade, Tracks;
    var i :| 0 <= i < |b.log| && b.log[i].generation == generation;
    if Attempt(cfg, b.record, q).Committed? {
      CommitTracks(cfg, b.record.value, q);
      assert Perform(cfg, b, q).log[i] == b.log[i];
    }
  }

  lemma {:induction false} LeftUntil(cfg: Config, qs: seq<Request>, n: nat, generation: string)
    requires Legal(cfg, qs) && n <= |qs| && Left(After(cfg, qs[..n]), generation)
    ensures Left(After(cfg, qs), generation)
    decreases |qs|
  {
    hide Perform, Inv, Left, Fresh;
    if n == |qs| {
      assert qs[..n] == qs;
    } else {
      var before := qs[..|qs| - 1];
      assert before[..n] == qs[..n];
      LeftUntil(cfg, before, n, generation);
      RunsKeep(cfg, before);
      LeftForGood(cfg, After(cfg, before), qs[|qs| - 1], generation);
    }
  }

  lemma AdvanceLeaves(cfg: Config, b: Book, q: Request)
    requires Inv(cfg, b) && Fresh(b, q) && q.action.DoAdvance? && Attempt(cfg, b.record, q).Committed?
    ensures Left(Perform(cfg, b, q), q.action.capture.generation)
  {
    hide Valid, NeverComesBack, RevisionsDiffer, LogTracks, IdsMade, Tracks, Find, FirstCandidate;
    var next := Perform(cfg, b, q);
    assert next.log[|b.log| - 1].generation == q.action.capture.generation;
  }

  /** Of all requests that hold the same generation at most one moves the selection on; those after it find it stale. */
  lemma OneAdvancePerGeneration(cfg: Config, qs: seq<Request>, i: nat, j: nat)
    requires Legal(cfg, qs) && i < j < |qs| && qs[i].action.DoAdvance? &&
               IsAdvance(qs[j], qs[i].action.capture.generation)
    requires Attempt(cfg, After(cfg, qs[..i]).record, qs[i]).Committed?
    ensures var second := Attempt(cfg, After(cfg, qs[..j]).record, qs[j]);
            second == Conflict || second == Kept(Stale) || second == Kept(Exhausted)
    ensures |qs[j].action.attempted + {qs[j].action.capture.id}| < MAX_PROFILE_ATTEMPTS_PER_REQUEST
            ==> Attempt(cfg, After(cfg, qs[..j]).record, qs[j]) in {Conflict, Kept(Stale)}
  {
    hide Valid, Inv, Fresh, Perform;
    var generation := qs[i].action.capture.generation;
    LegalPrefix(cfg, qs, i);
    LegalPrefix(cfg, qs, i + 1);
    LegalPrefix(cfg, qs, j);
    RunsKeep(cfg, qs[..i]);
    assert qs[..i + 1][..i] == qs[..i];
    AdvanceLeaves(cfg, After(cfg, qs[..i]), qs[i]);
    assert qs[..j][..i + 1] == qs[..i + 1];
    LeftUntil(cfg, qs[..j], i + 1, generation);
  }

  lemma {:induction false} LegalPrefix(cfg: Config, qs: seq<Request>, n: nat)
    requires Legal(cfg, qs) && n <= |qs|
    ensures Legal(cfg, qs[..n])
    decreases |qs|
  {
    hide Fresh, After;
    if n == |qs| {
      assert qs[..n] == qs;
    } else {
      LegalPrefix(cfg, qs[..|qs| - 1], n);
      assert qs[..|qs| - 1][..n] == qs[..n];
    }
  }
}
