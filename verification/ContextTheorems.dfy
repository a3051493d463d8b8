/** The full specification of the rewrite: when it succeeds, what it moves and where, and that it is done once. */
module ContextTheorems {
  import opened ContextRelocation
  import opened ContextInvariant

  /** The result for a model that does not take mid-conversation system messages. */
  function Prepared(ms: seq<Message>): Result {
    WalkInv(ms, |ms|);
    match Walk(ms, |ms|)
    case Stopped(r) => Refused(r)
    case Going(_, _, deferred, placed) =>
      if deferred != [] then Refused(Unfinished) else Ready(Render(ms, placed), DegradedIndexes(placed))
  }

  function Placement(ms: seq<Message>): seq<Placed>
    requires Prepared(ms).Ready?
  {
    Walk(ms, |ms|).placed
  }

  lemma OpenNeverCompletes(ms: seq<Message>, n: nat, s: Progress)
    requires n <= |ms| && s.Going? && Inv(ms, n, s) && s.deferred != []
    requires n < |ms| ==> ms[n].User? || ms[n].Assistant?
    ensures !Relocatable(ms)
  {
    hide Pending, FirstClear, Mid;
    var d := s.deferred[0];
    assert FirstClear(ms, d) > n;
    assert !Completes(ms, d);
  }

  lemma {:induction false} StoppedIsNotRelocatable(ms: seq<Message>, n: nat)
    requires n <= |ms| && Walk(ms, n).Stopped?
    ensures !Relocatable(ms)
  {
    hide Relocatable, FirstClear, Pending, InOrder, AccountsFor, StillOpen, Fine, CallIds, AllDegraded;
    var before := Walk(ms, n - 1);
    if before.Stopped? {
      StoppedIsNotRelocatable(ms, n - 1);
    } else {
      WalkInv(ms, n - 1);
      if ms[n - 1].System? { ComplexIsNotRelocatable(ms, n - 1); }
      else { OpenNeverCompletes(ms, n - 1, before); }
    }
  }

  lemma ComplexIsNotRelocatable(ms: seq<Message>, n: nat)
    requires n < |ms| && ms[n].System? && ms[n].complex && exists j :: 0 <= j < n && !ms[j].System?
    ensures !Relocatable(ms)
  {
    hide Completes;
    assert Mid(ms, n);
  }

  /** A context is refused exactly when it is not relocatable. */
  lemma ReadyIffRelocatable(ms: seq<Message>)
    ensures Prepared(ms).Ready? <==> Relocatable(ms)
  {
    hide Completes, Mid, InOrder, AccountsFor, StillOpen;
    var n := |ms|;
    WalkInv(ms, n);
    match Walk(ms, n)
    case Stopped(_) => StoppedIsNotRelocatable(ms, n);
    case Going(_, _, deferred, placed) =>
      if deferred != [] { OpenNeverCompletes(ms, n, Walk(ms, n)); }
  }

  predicate RefusedFor(ms: seq<Message>, refusal: Refusal) {
    match refusal
    case ComplexSystem(i) => i < |ms| && Mid(ms, i) && ms[i].complex
    case Crossing(i) => i < |ms| && (ms[i].User? || ms[i].Assistant?) && Pending(ms, i) != {}
    case Unfinished => Pending(ms, |ms|) != {}
  }

  lemma {:induction false} RefusalAt(ms: seq<Message>, n: nat)
    requires n <= |ms| && Walk(ms, n).Stopped?
    ensures RefusedFor(ms, Walk(ms, n).refusal) && !Walk(ms, n).refusal.Unfinished?
  {
    hide Mid, Pending, InOrder, AccountsFor, StillOpen, Fine;
    WalkInv(ms, n - 1);
    if Walk(ms, n - 1).Stopped? {
      RefusalAt(ms, n - 1);
    } else if ms[n - 1].System? {
      assert Mid(ms, n - 1) by { IsMid(ms, n - 1); }
    }
  }

  lemma IsMid(ms: seq<Message>, n: nat)
    requires n < |ms| && ms[n].System? && exists j :: 0 <= j < n && !ms[j].System?
    ensures Mid(ms, n)
  {
  }

  /** What a refusal says is so. */
  lemma RefusalIsRight(ms: seq<Message>)
    requires Prepared(ms).Refused?
    ensures RefusedFor(ms, Prepared(ms).refusal)
  {
    hide Mid, Pending, InOrder, AccountsFor, StillOpen, Fine;
    var n := |ms|;
    WalkInv(ms, n);
    if Walk(ms, n).Stopped? { RefusalAt(ms, n); }
    else { OpenIsPending(ms, n, Walk(ms, n).placed, Walk(ms, n).deferred); }
  }

  /** The message is a copy of the one it comes from: as it was, or as a user's message of the same text and time. */
  predicate IsCopy(ms: seq<Message>, p: Placed, m: Message) {
    p.index < |ms| &&
    match p
    case Kept(i) => m == ms[i]
    case Degraded(i) => ms[i].System? && m == User(ms[i].content, ms[i].timestamp)
  }

  /** The result holds every message once, kept or degraded, in the order that the first clear slots give. */
  lemma ResultIsARearrangement(ms: seq<Message>)
    requires Prepared(ms).Ready?
    ensures var placed := Placement(ms);
            && InOrder(ms, placed) && AccountsFor(ms, |ms|, placed, [])
            && |Prepared(ms).messages| == |placed| == |ms|
            && forall p :: 0 <= p < |placed| ==> IsCopy(ms, placed[p], Prepared(ms).messages[p])
  {
    WalkInv(ms, |ms|);
  }

  lemma {:induction false} DegradedIndexesAre(ms: seq<Message>, placed: seq<Placed>)
    requires InOrder(ms, placed)
    ensures var all := DegradedIndexes(placed);
            && (forall i :: i in all <==> Degraded(i) in placed)
            && (forall c, d :: 0 <= c < d < |all| ==> all[c] < all[d])
    decreases |placed|
  {
    hide FirstClear;
    if placed != [] {
      var (rest, p) := (placed[..|placed| - 1], placed[|placed| - 1]);
      assert InOrder(ms, rest);
      DegradedIndexesAre(ms, rest);
      assert placed == rest + [p];
      forall i | i in DegradedIndexes(rest)
        ensures Precedes(ms, Degraded(i), p)
      {
        var q :| 0 <= q < |rest| && rest[q] == Degraded(i);
        assert placed[q] == Degraded(i);
      }
      var before := DegradedIndexes(rest);
      forall c | 0 <= c < |before|
        ensures p.Degraded? ==> before[c] < p.index
      {
        assert before[c] in before;
        assert Precedes(ms, Degraded(before[c]), p);
      }
    }
  }

  /** The outcomes name the mid-conversation system messages, each once, in order. */
  lemma OutcomesAreTheMids(ms: seq<Message>)
    requires Prepared(ms).Ready?
    ensures var outcomes := Prepared(ms).outcomes;
            && (forall i: nat :: i in outcomes <==> i < |ms| && Mid(ms, i))
            && (forall c, d :: 0 <= c < d < |outcomes| ==> outcomes[c] < outcomes[d])
  {
    hide Mid, InOrder;
    ResultIsARearrangement(ms);
    var placed := Placement(ms);
    DegradedIndexesAre(ms, placed);
    forall i: nat | i < |ms| && Mid(ms, i)
      ensures Degraded(i) in placed
    {
      assert forall p :: 0 <= p < |placed| && placed[p].index == i ==> placed[p].Degraded?;
    }
  }

  /** No system message follows a message that is not one. */
  lemma NoMidRemains(ms: seq<Message>, p: nat)
    requires Prepared(ms).Ready? && p < |Prepared(ms).messages|
    ensures !Mid(Prepared(ms).messages, p)
  {
    hide FirstClear, Walk;
    ResultIsARearrangement(ms);
    var (out, placed) := (Prepared(ms).messages, Placement(ms));
    if out[p].System? {
      forall q | 0 <= q < p
        ensures out[q].System?
      {
        assert Precedes(ms, placed[q], placed[p]);
        assert !Mid(ms, placed[p].index);
        assert placed[q].Degraded? <==> Mid(ms, placed[q].index);
      }
    }
  }

  lemma {:induction false} PendingOfPrefix(a: seq<Message>, b: seq<Message>, k: nat)
    requires k <= |a|
    ensures Pending(a + b, k) == Pending(a, k)
    decreases k
  {
    if k > 0 { PendingOfPrefix(a, b, k - 1); }
  }

  /** Degraded messages of a result, none of which comes while a tool call is pending. */
  predicate DegradedWhenClear(out: seq<Message>, placed: seq<Placed>)
    requires |out| == |placed|
  {
    forall p :: 0 <= p < |placed| && placed[p].Degraded? ==> Pending(out, p) == {}
  }

  /** Replaying what is placed so far leaves the tool calls pending that replaying the context does. */
  predicate ReplaysAlike(ms: seq<Message>, n: nat, placed: seq<Placed>)
    requires n <= |ms|
  {
    && AllExist(ms, placed)
    && Pending(Render(ms, placed), |placed|) == Pending(ms, n)
    && DegradedWhenClear(Render(ms, placed), placed)
  }

  lemma OneMoreReplayed(ms: seq<Message>, placed: seq<Placed>, next: Placed)
    requires AllExist(ms, placed) && Exists(ms, next) && DegradedWhenClear(Render(ms, placed), placed)
    requires next.Degraded? ==> Pending(Render(ms, placed), |placed|) == {}
    ensures var out := Render(ms, placed + [next]);
            && Pending(out, |placed| + 1) == PendingAfter(Pending(Render(ms, placed), |placed|), Copy(ms, next))
            && DegradedWhenClear(out, placed + [next])
  {
    hide PendingAfter, Copy;
    var out := Render(ms, placed);
    assert Render(ms, placed + [next]) == out + [Copy(ms, next)];
    forall p | 0 <= p <= |placed|
      ensures Pending(out + [Copy(ms, next)], p) == Pending(out, p)
    {
      PendingOfPrefix(out, [Copy(ms, next)], p);
    }
  }

  lemma {:induction false} FlushReplays(ms: seq<Message>, n: nat, placed: seq<Placed>, deferred: seq<nat>)
    requires n <= |ms| && ReplaysAlike(ms, n, placed) && Pending(ms, n) == {}
    requires forall d :: 0 <= d < |deferred| ==> deferred[d] < |ms| && ms[deferred[d]].System?
    ensures ReplaysAlike(ms, n, placed + AllDegraded(deferred))
    decreases |deferred|
  {
    hide Pending, DegradedWhenClear, Render;
    if deferred == [] {
      assert placed + AllDegraded(deferred) == placed;
    } else {
      OneMoreReplayed(ms, placed, Degraded(deferred[0]));
      FlushReplays(ms, n, placed + [Degraded(deferred[0])], deferred[1..]);
      AllDegradedSplits(placed, deferred);
    }
  }

  lemma VisitReplays(ms: seq<Message>, n: nat, s: Progress)
    requires n < |ms| && s.Going? && Inv(ms, n, s) && ReplaysAlike(ms, n, s.placed) && Visit(n, ms[n], s).Going?
    ensures ReplaysAlike(ms, n + 1, Visit(n, ms[n], s).placed)
  {
    hide Render, DegradedWhenClear, InOrder, StillOpen, Fine, FirstClear;
    var next := if ms[n].System? && s.seen then Degraded(n) else Kept(n);
    if !(next.Degraded? && s.pending != {}) {
      OneMoreReplayed(ms, s.placed, next);
      MidsAreSystem(ms, s.deferred);
      if ms[n].ToolResult? && Pending(ms, n + 1) == {} { FlushReplays(ms, n + 1, s.placed + [Kept(n)], s.deferred); }
    }
  }

  lemma {:induction false} WalkReplays(ms: seq<Message>, n: nat)
    requires n <= |ms| && Walk(ms, n).Going?
    ensures ReplaysAlike(ms, n, Walk(ms, n).placed)
  {
    if n > 0 {
      hide Inv, Visit, ReplaysAlike;
      WalkInv(ms, n - 1);
      WalkReplays(ms, n - 1);
      VisitReplays(ms, n - 1, Walk(ms, n - 1));
    }
  }

  /** In the result no degraded message stands inside a tool exchange. */
  lemma DegradedStandClear(ms: seq<Message>)
    requires Prepared(ms).Ready?
    ensures DegradedWhenClear(Prepared(ms).messages, Placement(ms))
  {
    hide Pending, DegradedWhenClear, InOrder, AccountsFor;
    WalkInv(ms, |ms|);
    WalkReplays(ms, |ms|);
  }

  lemma {:induction false} IndexesOfKept(ms: seq<Message>, placed: seq<Placed>, p: nat)
    requires InOrder(ms, placed) && p < |placed| && forall q :: 0 <= q < |placed| ==> placed[q].Kept?
    ensures placed[p].index >= p
    decreases p
  {
    hide FirstClear;
    if p > 0 {
      IndexesOfKept(ms, placed, p - 1);
      assert Precedes(ms, placed[p - 1], placed[p]);
    }
  }

  lemma {:induction false} IndexesOfAllKept(ms: seq<Message>, placed: seq<Placed>, p: nat)
    requires InOrder(ms, placed) && p < |placed| == |ms| && forall q :: 0 <= q < |placed| ==> placed[q].Kept?
    ensures placed[p] == Kept(p)
    decreases |placed| - p
  {
    hide FirstClear;
    IndexesOfKept(ms, placed, p);
    if p + 1 < |placed| {
      IndexesOfAllKept(ms, placed, p + 1);
      assert Precedes(ms, placed[p], placed[p + 1]);
    }
  }

  lemma NoElements(s: seq<nat>)
    ensures (forall i: nat :: i !in s) ==> s == []
  {
    assert |s| > 0 ==> s[0] in s;
  }

  /** A context without mid-conversation system messages is not changed. */
  lemma NothingToDegrade(ms: seq<Message>)
    requires forall i :: 0 <= i < |ms| ==> !Mid(ms, i)
    ensures Prepared(ms) == Ready(ms, [])
  {
    hide Mid, InOrder, Completes;
    ReadyIffRelocatable(ms);
    ResultIsARearrangement(ms);
    var placed := Placement(ms);
    forall p | 0 <= p < |placed|
      ensures placed[p] == Kept(p)
    {
      IndexesOfAllKept(ms, placed, p);
    }
    assert Render(ms, placed) == ms;
    OutcomesAreTheMids(ms);
    NoElements(Prepared(ms).outcomes);
  }

  /** Preparing a prepared context changes nothing. */
  lemma PreparingTwice(ms: seq<Message>)
    requires Prepared(ms).Ready?
    ensures Prepared(Prepared(ms).messages) == Ready(Prepared(ms).messages, [])
  {
    hide Mid, Prepared;
    forall p | 0 <= p < |Prepared(ms).messages|
      ensures !Mid(Prepared(ms).messages, p)
    {
      NoMidRemains(ms, p);
    }
    NothingToDegrade(Prepared(ms).messages);
  }
}
