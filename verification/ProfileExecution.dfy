/**
 Executing one request with credential profiles: the bounded loop that moves to another profile after a final
 429 response, while anything may happen to the profiles in between; and the cooldowns that it leaves.
 */
module ProfileExecution {
  import opened Options
  import opened Profiles
  import opened ProfileMutations
  import opened ProfileEffects

  /** What one execution came to; only a 429 response is tried again. */
  datatype Reply = Success | TooMany(retryAfter: Option<int>) | OtherFailure

  /** What the loop finds when it looks at the profiles for the `k`-th time. */
  datatype Moment = Moment(record: Option<Record>, cooling: set<string>, generation: string, revision: string)

  datatype Binding = Unbound | NoActiveProfile | Bound(capture: Capture)

  /** A provider that has profiles, but none of them active, refuses the request before it is executed. */
  datatype Ended = Refused | Ended(reply: Reply)

  /** The `i`-th profile is enabled and active. */
  predicate IsActive(r: Record, i: nat) {
    && i < |r.profiles| && r.profiles[i].enabled && r.active == Some(r.profiles[i].id)
    && forall j :: 0 <= j < i ==> r.profiles[j].id != r.profiles[i].id
  }

  /** The binding of a request: the active profile, if the provider has profiles at all; and a refusal if it has, but
      none of them is enabled and active. */
  function CaptureOf(r: Option<Record>): (b: Binding)
    ensures b.Unbound? <==> r.None? || r.value.profiles == []
    ensures b.NoActiveProfile? <==> !b.Unbound? && forall i :: 0 <= i < |r.value.profiles| ==> !IsActive(r.value, i)
    ensures b.Bound? ==> exists i :: 0 <= i < |r.value.profiles| && IsActive(r.value, i)
                                     && b.capture == Capture(r.value.profiles[i].id, r.value.profiles[i].kind,
                                          r.value.generation)
  {
    if r.None? || r.value.profiles == [] then Unbound
    else if r.value.active.None? then NoActiveProfile
    else
      var i := Find(r.value.profiles, r.value.active.value);
      if i == |r.value.profiles| || !r.value.profiles[i].enabled then NoActiveProfile
      else
        assert IsActive(r.value, i);
        Bound(Capture(r.value.profiles[i].id, r.value.profiles[i].kind, r.value.generation))
  }

  /** A provider with a valid record that has an active profile is always bound. */
  lemma ActiveIsBound(cfg: Config, r: Record)
    requires Valid(cfg, r) && r.active.Some?
    ensures CaptureOf(Some(r)).Bound? && CaptureOf(Some(r)).capture.id == r.active.value
  {
    hide ProfileOk;
    var i :| 0 <= i < |r.profiles| && r.profiles[i].id == r.active.value && r.profiles[i].enabled;
    SameProfile(cfg, r.profiles, r.active.value, i);
  }

  function Tried(trace: seq<Capture>): set<string> { set k | 0 <= k < |trace| :: trace[k].id }

  function AdvanceRequest(m: Moment, trace: seq<Capture>): Request
    requires trace != []
  {
    Request(DoAdvance(trace[|trace| - 1], Tried(trace), m.cooling), None, m.generation, m.revision)
  }

  /** The next capture, if the selection can be moved on after those in the trace. */
  function Switch(cfg: Config, m: Moment, trace: seq<Capture>): Option<Capture>
    requires trace != []
  {
    match Attempt(cfg, m.record, AdvanceRequest(m, trace))
    case Committed(next, Switched(id)) =>
      var i := Find(next.profiles, id);
      if i == |next.profiles| then None else Some(Capture(id, next.profiles[i].kind, next.generation))
    case _ => None
  }

  /** A profile that may be tried after those in the trace. */
  predicate Eligible(m: Moment, trace: seq<Capture>, next: Capture) {
    && m.record.Some? && next.generation == m.generation && next.id !in Tried(trace) && next.id !in m.cooling
    && exists i :: 0 <= i < |m.record.value.profiles| && m.record.value.profiles[i].id == next.id
                   && m.record.value.profiles[i].kind == next.kind && m.record.value.profiles[i].enabled
  }

  lemma SwitchIsEligible(cfg: Config, m: Moment, trace: seq<Capture>)
    requires trace != [] && ValidOrAbsent(cfg, m.record) && Switch(cfg, m, trace).Some?
    ensures var next := Switch(cfg, m, trace).value;
            && Eligible(m, trace, next)
            && UsesApiKey(next.kind) == UsesApiKey(trace[|trace| - 1].kind)
            && m.record.value.active == Some(trace[|trace| - 1].id) &&
                 m.record.value.generation == trace[|trace| - 1].generation
            && StillFailed(m.record.value, trace[|trace| - 1]) && |Tried(trace)| < MAX_PROFILE_ATTEMPTS_PER_REQUEST
  {
    hide Distinct, ProfileOk, Find, Valid;
    var (last, ps) := (trace[|trace| - 1], m.record.value.profiles);
    assert Tried(trace) + {last.id} == Tried(trace);
    var t := FirstCandidate(ps, last.kind, Tried(trace), m.cooling);
    DistinctProfiles(cfg, m.record.value);
    SameProfile(cfg, ps, ps[t].id, t);
  }

  /** The selection is moved on exactly if the record allows it, and then to the first profile that may follow. */
  lemma SwitchIsExact(cfg: Config, m: Moment, trace: seq<Capture>)
    requires trace != [] && ValidOrAbsent(cfg, m.record) && Profiles.Bounded(m.generation, 256) &&
               Profiles.Bounded(m.revision, 256)
    ensures var last := trace[|trace| - 1];
            Switch(cfg, m, trace).Some? <==> Allowed(cfg, m.record, DoAdvance(last, Tried(trace), m.cooling))
    ensures Switch(cfg, m, trace).Some? ==> SwitchesToFirst(m, trace, Switch(cfg, m, trace).value)
  {
    hide Valid, Find, FirstCandidate, Allowed, StillFailed, Tried, Attempt, FirstToFollow;
    var (q, last) := (AdvanceRequest(m, trace), trace[|trace| - 1]);
    RequestsAreRight(cfg, m.record, q);
    AdvanceAnswers(cfg, m.record, q);
    if Attempt(cfg, m.record, q).Committed? {
      var ps := m.record.value.profiles;
      var t :| 0 <= t < |ps| && FirstToFollow(ps, last, Tried(trace), m.cooling, t) &&
               Attempt(cfg, m.record, q).record.active == Some(ps[t].id);
      DistinctProfiles(cfg, m.record.value);
      SameProfile(cfg, ps, ps[t].id, t);
      assert Switch(cfg, m, trace) == Some(Capture(ps[t].id, ps[t].kind, m.generation));
      assert FirstToFollow(ProfilesOf(m.record), last, Tried(trace), m.cooling, t);
    }
  }

  /** The capture is that of the first profile that may follow. */
  predicate SwitchesToFirst(m: Moment, trace: seq<Capture>, next: Capture)
    requires trace != []
  {
    var ps := ProfilesOf(m.record);
    exists t :: 0 <= t < |ps| && FirstToFollow(ps, trace[|trace| - 1], Tried(trace), m.cooling, t) &&
                next == Capture(ps[t].id, ps[t].kind, m.generation)
  }

  /** An advance that is committed is answered with the profile that is active then; one that is not never is "ok". */
  lemma AdvanceAnswers(cfg: Config, r: Option<Record>, q: Request)
    requires q.action.DoAdvance?
    ensures var v := Attempt(cfg, r, q); v != Kept(Ok) && (v.Committed? ==> r.Some? && AnswersSwitch(r.value, q, v))
  {
    hide Valid, Find, FirstCandidate;
  }

  predicate AnswersSwitch(r: Record, q: Request, v: Verdict) {
    && v.Committed? && v.answer.Switched? && v.record.active == Some(v.answer.id)
    && v.record.profiles == r.profiles && v.record.generation == q.generation
  }

  lemma DistinctProfiles(cfg: Config, r: Record)
    requires Valid(cfg, r)
    ensures Distinct(cfg, r.profiles)
  {
  }

  // ---------------------------------------------------------------- the loop

  /** Execution `k` was made because the one before came to 429, with the profile switched to. */
  predicate FollowsAt(cfg: Config, world: nat -> Moment, replies: nat -> Reply, trace: seq<Capture>, k: nat)
    requires 0 < k < |trace|
  {
    replies(k - 1).TooMany? && Switch(cfg, world(k), trace[..k]) == Some(trace[k])
  }

  predicate Follows(cfg: Config, world: nat -> Moment, replies: nat -> Reply, trace: seq<Capture>) {
    forall k :: 0 < k < |trace| ==> FollowsAt(cfg, world, replies, trace, k)
  }

  predicate DifferentIds(trace: seq<Capture>) { forall j, k :: 0 <= j < k < |trace| ==> trace[j].id != trace[k].id }

  predicate OneAuthType(trace: seq<Capture>) {
    forall k :: 0 < k < |trace| ==> UsesApiKey(trace[k].kind) == UsesApiKey(trace[0].kind)
  }

  predicate EligibleAt(world: nat -> Moment, trace: seq<Capture>, k: nat)
    requires 0 < k < |trace|
  {
    Eligible(world(k), trace[..k], trace[k])
  }

  predicate AllEligible(world: nat -> Moment, trace: seq<Capture>) {
    forall k :: 0 < k < |trace| ==> EligibleAt(world, trace, k)
  }

  /** Why the loop stopped: another reply than 429, the limit on attempts, or no profile to switch to. */
  predicate StopsRightly(cfg: Config, world: nat -> Moment, replies: nat -> Reply, trace: seq<Capture>) {
    trace != [] && (replies(|trace| - 1).TooMany? ==>
      |trace| == MAX_PROFILE_ATTEMPTS_PER_REQUEST || Switch(cfg, world(|trace|), trace).None?)
  }

  /**
   Executes a request. Without profiles it is executed once, whatever comes of it; with an active profile it is
   executed once for each capture of the trace.
   */
  method Execute(cfg: Config, world: nat -> Moment, replies: nat -> Reply)
    returns (trace: seq<Capture>, executions: nat, ended: Ended)
    requires forall k :: ValidOrAbsent(cfg, world(k).record)
    ensures ended.Refused? <==> CaptureOf(world(0).record).NoActiveProfile?
    ensures executions == if ended.Refused? then 0 else if CaptureOf(world(0).record).Unbound? then 1 else |trace|
    ensures trace == [] <==> !CaptureOf(world(0).record).Bound?
    ensures ended.Ended? ==> executions >= 1 && ended.reply == replies(executions - 1)
    ensures trace != [] ==>
              trace[0] == CaptureOf(world(0).record).capture && |trace| <= MAX_PROFILE_ATTEMPTS_PER_REQUEST
    ensures trace != [] ==> StopsRightly(cfg, world, replies, trace)
    ensures Follows(cfg, world, replies, trace) && AllEligible(world, trace)
    ensures DifferentIds(trace) && OneAuthType(trace)
  {
    hide Valid, Switch, CaptureOf, Eligible, MaySwitch, Follows, AllEligible, DifferentIds, OneAuthType;
    TraceStarts(cfg, world, replies);
    trace, executions := [], 0;
    var binding := CaptureOf(world(0).record);
    match binding {
      case NoActiveProfile => return [], 0, Refused;
      case Unbound => return [], 1, Ended(replies(0));
      case Bound(capture) => trace := [capture];
    }
    var profileAttempt := 1;
    while true
      invariant 1 <= profileAttempt == |trace| <= MAX_PROFILE_ATTEMPTS_PER_REQUEST
      invariant trace[0] == binding.capture
      invariant Follows(cfg, world, replies, trace) && AllEligible(world, trace)
      invariant DifferentIds(trace) && OneAuthType(trace)
      decreases MAX_PROFILE_ATTEMPTS_PER_REQUEST - profileAttempt
    {
      var reply := replies(profileAttempt - 1);
      if !reply.TooMany? || profileAttempt >= MAX_PROFILE_ATTEMPTS_PER_REQUEST {
        return trace, profileAttempt, Ended(reply);
      }
      var transition := Switch(cfg, world(profileAttempt), trace);
      if transition.None? { return trace, profileAttempt, Ended(reply); }
      SwitchIsEligible(cfg, world(profileAttempt), trace);
      FollowsOneMore(cfg, world, replies, trace, transition.value);
      EligibleOneMore(world, trace, transition.value);
      DifferentOneMore(world(profileAttempt), trace, transition.value);
      SameTypeOneMore(trace, transition.value);
      trace := trace + [transition.value];
      profileAttempt := profileAttempt + 1;
    }
  }

  lemma TraceStarts(cfg: Config, world: nat -> Moment, replies: nat -> Reply)
    ensures Follows(cfg, world, replies, []) && AllEligible(world, []) && DifferentIds([]) && OneAuthType([])
    ensures forall c :: Follows(cfg, world, replies, [c]) && AllEligible(world, [c]) && DifferentIds([c]) &&
              OneAuthType([c])
  {
    hide Switch, Eligible;
  }

  lemma PrefixOfMore(trace: seq<Capture>, next: Capture, k: nat)
    requires k <= |trace|
    ensures (trace + [next])[..k] == trace[..k]
    ensures (trace + [next])[..|trace|] == trace
    ensures k < |trace| ==> (trace + [next])[k] == trace[k]
  {
  }

  lemma FollowsOneMore(cfg: Config, world: nat -> Moment, replies: nat -> Reply, trace: seq<Capture>, next: Capture)
    requires trace != [] && Follows(cfg, world, replies, trace)
    requires replies(|trace| - 1).TooMany? && Switch(cfg, world(|trace|), trace) == Some(next)
    ensures Follows(cfg, world, replies, trace + [next])
  {
    hide Switch;
    var all := trace + [next];
    forall k | 0 < k < |all| ensures FollowsAt(cfg, world, replies, all, k) {
      PrefixOfMore(trace, next, k);
      if k < |trace| { assert FollowsAt(cfg, world, replies, trace, k); }
    }
  }

  lemma EligibleOneMore(world: nat -> Moment, trace: seq<Capture>, next: Capture)
    requires AllEligible(world, trace) && Eligible(world(|trace|), trace, next)
    ensures AllEligible(world, trace + [next])
  {
    hide Eligible;
    var all := trace + [next];
    forall k | 0 < k < |all| ensures EligibleAt(world, all, k) {
      PrefixOfMore(trace, next, k);
      if k < |trace| { assert EligibleAt(world, trace, k); }
    }
  }

  lemma DifferentOneMore(m: Moment, trace: seq<Capture>, next: Capture)
    requires DifferentIds(trace) && Eligible(m, trace, next)
    ensures DifferentIds(trace + [next])
  {
    hide Eligible;
    EligibleIsNew(m, trace, next);
    NotTried(trace, next.id);
    var all := trace + [next];
    forall j, k | 0 <= j < k < |all| ensures all[j].id != all[k].id {
      if k < |trace| { assert trace[j].id != trace[k].id; } else { assert trace[j].id != next.id; }
    }
  }

  lemma SameTypeOneMore(trace: seq<Capture>, next: Capture)
    requires trace != [] && OneAuthType(trace) && UsesApiKey(next.kind) == UsesApiKey(trace[|trace| - 1].kind)
    ensures OneAuthType(trace + [next])
  {
    hide UsesApiKey;
    var all := trace + [next];
    forall k | 0 < k < |all| ensures UsesApiKey(all[k].kind) == UsesApiKey(all[0].kind) {
      if k < |trace| {
        assert UsesApiKey(trace[k].kind) == UsesApiKey(trace[0].kind);
      } else if |trace| > 1 {
        assert UsesApiKey(trace[|trace| - 1].kind) == UsesApiKey(trace[0].kind);
      }
    }
  }

  lemma EligibleIsNew(m: Moment, trace: seq<Capture>, next: Capture)
    requires Eligible(m, trace, next)
    ensures next.id !in Tried(trace)
  {
  }

  lemma NotTried(trace: seq<Capture>, id: string)
    requires id !in Tried(trace)
    ensures forall k :: 0 <= k < |trace| ==> trace[k].id != id
  {
    assert forall k :: 0 <= k < |trace| ==> trace[k].id in Tried(trace);
  }

  // --------------------------------------------------------------- cooldowns

  const LONGEST_RETRY_AFTER := 86_400_000

  function Cooling(until: map<string, int>, now: int): set<string> {
    set id | id in until && until[id] > now
  }

  /** The cooldowns that the authority remembers, of one provider. */
  class Cooldowns {
    var until: map<string, int>

    constructor ()
      ensures until == map[]
    {
      until := map[];
    }

    /** Entries that have run out are forgotten; that changes no later answer. */
    method IsCoolingDown(id: string, now: int) returns (cooling: bool)
      modifies this
      ensures cooling <==> id in Cooling(old(until), now)
      ensures forall later :: later >= now ==> Cooling(until, later) == Cooling(old(until), later)
      ensures until.Keys <= old(until.Keys) && forall x :: x in until ==> until[x] == old(until)[x]
    {
      if id !in until { return false; }
      if until[id] <= now {
        until := until - {id};
        return false;
      }
      return true;
    }

    /** The first profile that may be switched to. */
    method FirstEligible(ps: seq<Profile>, kind: Kind, tried: set<string>, now: int) returns (t: nat)
      modifies this
      ensures t == FirstCandidate(ps, kind, tried, Cooling(old(until), now))
      ensures forall later :: later >= now ==> Cooling(until, later) == Cooling(old(until), later)
    {
      t := 0;
      assert ps[0..] == ps;
      while t < |ps|
        invariant t <= |ps|
        invariant forall later :: later >= now ==> Cooling(until, later) == Cooling(old(until), later)
        invariant FirstCandidate(ps, kind, tried, Cooling(old(until), now))
               == t + FirstCandidate(ps[t..], kind, tried, Cooling(old(until), now))
      {
        assert ps[t..][1..] == ps[t + 1..];
        var p := ps[t];
        if p.enabled && UsesApiKey(p.kind) == UsesApiKey(kind) && p.id !in tried {
          var cooling := IsCoolingDown(p.id, now);
          if !cooling { return; }
        }
        t := t + 1;
      }
    }

    /** After a final 429 that was not stale, the credential cools down for as long as the provider asks. */
    method Remember(id: string, retryAfter: Option<int>, now: int)
      modifies this
      ensures forall x, later :: x != id ==> (x in Cooling(until, later) <==> x in Cooling(old(until), later))
      ensures retryAfter.Some? && 0 <= retryAfter.value <= LONGEST_RETRY_AFTER ==>
                forall later :: id in Cooling(until, later) <==> later < now + retryAfter.value
      ensures !(retryAfter.Some? && 0 <= retryAfter.value <= LONGEST_RETRY_AFTER) ==> until == old(until)
    {
      if retryAfter.Some? && 0 <= retryAfter.value <= LONGEST_RETRY_AFTER {
        until := until[id := now + retryAfter.value];
      }
    }
  }
}
