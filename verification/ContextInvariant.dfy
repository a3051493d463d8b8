/** What holds of a context that has been visited up to some message: nothing is lost, and everything is in order. */
module ContextInvariant {
  import opened ContextRelocation

  /** The order of the result: kept messages and degraded messages as they were, and each degraded message at
      the first clear slot. */
  predicate Precedes(ms: seq<Message>, a: Placed, b: Placed)
    requires Exists(ms, a) && Exists(ms, b)
  {
    match (a, b)
    case (Kept(i), Kept(j)) => i < j
    case (Degraded(i), Degraded(j)) => i < j
    case (Kept(i), Degraded(j)) => i < FirstClear(ms, j)
    case (Degraded(i), Kept(j)) => FirstClear(ms, i) <= j
  }

  predicate InOrder(ms: seq<Message>, placed: seq<Placed>) {
    && AllExist(ms, placed)
    && forall p, q :: 0 <= p < q < |placed| ==> Precedes(ms, placed[p], placed[q])
  }

  /** Every one of the first `n` messages is placed once, as kept or degraded, or is still deferred. */
  predicate AccountsFor(ms: seq<Message>, n: nat, placed: seq<Placed>, deferred: seq<nat>)
    requires n <= |ms|
  {
    && |placed| + |deferred| == n
    && (forall p :: 0 <= p < |placed| ==> placed[p].index < n && (placed[p].Degraded? <==> Mid(ms, placed[p].index)))
    && (forall d :: 0 <= d < |deferred| ==> deferred[d] < n && Mid(ms, deferred[d]))
    && (forall i :: 0 <= i < n ==> Kept(i) in placed || Degraded(i) in placed || i in deferred)
  }

  /** What is deferred: plain messages inside the exchange that is still open, in order, after all that was degraded. */
  predicate StillOpen(ms: seq<Message>, n: nat, placed: seq<Placed>, deferred: seq<nat>)
    requires n <= |ms| && forall p :: 0 <= p < |placed| ==> placed[p].index < n
    requires forall d :: 0 <= d < |deferred| ==> deferred[d] < n
  {
    && (forall c, d :: 0 <= c < d < |deferred| ==> deferred[c] < deferred[d])
    && (forall p, d :: 0 <= p < |placed| && placed[p].Degraded? && 0 <= d < |deferred| ==>
         placed[p].index < deferred[d])
    && (forall p :: 0 <= p < |placed| && placed[p].Degraded? ==> FirstClear(ms, placed[p].index) <= n)
    && (forall d :: 0 <= d < |deferred| ==> FirstClear(ms, deferred[d]) > n)
  }

  /** Nothing refuses the first `n` messages. */
  predicate Fine(ms: seq<Message>, n: nat, deferred: seq<nat>)
    requires n <= |ms|
  {
    && (forall i :: 0 <= i < n && Mid(ms, i) ==> !ms[i].complex && (i !in deferred ==> Completes(ms, i)))
    && (forall d, j :: 0 <= d < |deferred| && deferred[d] <= j < n ==> !ms[j].User? && !ms[j].Assistant?)
  }

  predicate Inv(ms: seq<Message>, n: nat, s: Progress)
    requires n <= |ms|
  {
    s.Going? ==>
      && s.seen == (exists j :: 0 <= j < n && !ms[j].System?)
      && s.pending == Pending(ms, n)
      && InOrder(ms, s.placed)
      && AccountsFor(ms, n, s.placed, s.deferred)
      && StillOpen(ms, n, s.placed, s.deferred)
      && Fine(ms, n, s.deferred)
  }

  lemma OrderGrows(ms: seq<Message>, placed: seq<Placed>, next: Placed)
    requires InOrder(ms, placed) && Exists(ms, next)
    requires forall p :: 0 <= p < |placed| ==> Precedes(ms, placed[p], next)
    ensures InOrder(ms, placed + [next])
  {
    hide FirstClear, Precedes;
    var all := placed + [next];
    forall p, q | 0 <= p < q < |all|
      ensures Precedes(ms, all[p], all[q])
    {
      if q < |placed| { assert Precedes(ms, placed[p], placed[q]); }
    }
  }

  lemma KeptInOrder(ms: seq<Message>, n: nat, placed: seq<Placed>, deferred: seq<nat>)
    requires n < |ms| && InOrder(ms, placed) && AccountsFor(ms, n, placed, deferred) &&
               StillOpen(ms, n, placed, deferred)
    ensures InOrder(ms, placed + [Kept(n)])
  {
    hide FirstClear, Mid;
    OrderGrows(ms, placed, Kept(n));
  }

  lemma DegradedInOrder(ms: seq<Message>, n: nat, placed: seq<Placed>, deferred: seq<nat>)
    requires n < |ms| && InOrder(ms, placed) && AccountsFor(ms, n, placed, deferred)
    requires ms[n].System? && FirstClear(ms, n) == n
    ensures InOrder(ms, placed + [Degraded(n)])
  {
    hide FirstClear, Mid;
    OrderGrows(ms, placed, Degraded(n));
  }

  /** What is deferred belongs at slot `n`, behind all that is placed. */
  predicate Flushable(ms: seq<Message>, n: nat, placed: seq<Placed>, deferred: seq<nat>)
    requires n <= |ms|
  {
    && (forall p :: 0 <= p < |placed| ==> placed[p].index < n)
    && (forall d :: 0 <= d < |deferred| ==>
         deferred[d] < n && ms[deferred[d]].System? && FirstClear(ms, deferred[d]) == n)
    && (forall c, d :: 0 <= c < d < |deferred| ==> deferred[c] < deferred[d])
    && (forall p, d :: 0 <= p < |placed| && placed[p].Degraded? && 0 <= d < |deferred| ==>
         placed[p].index < deferred[d])
    && (forall p :: 0 <= p < |placed| && placed[p].Degraded? ==> FirstClear(ms, placed[p].index) <= n)
  }

  lemma FirstIsFlushable(ms: seq<Message>, n: nat, placed: seq<Placed>, deferred: seq<nat>)
    requires n <= |ms| && InOrder(ms, placed) && Flushable(ms, n, placed, deferred) && deferred != []
    ensures var first := Degraded(deferred[0]);
            && InOrder(ms, placed + [first]) && Flushable(ms, n, placed + [first], deferred[1..])
  {
    hide FirstClear, InOrder;
    FirstFlushed(ms, n, placed, deferred);
  }

  lemma FirstFlushed(ms: seq<Message>, n: nat, placed: seq<Placed>, deferred: seq<nat>)
    requires n <= |ms| && InOrder(ms, placed) && Flushable(ms, n, placed, deferred) && deferred != []
    ensures InOrder(ms, placed + [Degraded(deferred[0])])
  {
    hide FirstClear;
    OrderGrows(ms, placed, Degraded(deferred[0]));
  }

  lemma AllDegradedSplits(placed: seq<Placed>, deferred: seq<nat>)
    requires deferred != []
    ensures placed + AllDegraded(deferred) == placed + [Degraded(deferred[0])] + AllDegraded(deferred[1..])
  {
  }

  /** The deferred messages go behind the tool result that completes their exchange. */
  lemma {:induction false} FlushedInOrder(ms: seq<Message>, n: nat, placed: seq<Placed>, deferred: seq<nat>)
    requires n <= |ms| && InOrder(ms, placed) && Flushable(ms, n, placed, deferred)
    ensures InOrder(ms, placed + AllDegraded(deferred))
    decreases |deferred|
  {
    hide FirstClear, InOrder, Flushable;
    if deferred == [] {
      assert placed + AllDegraded(deferred) == placed;
    } else {
      FirstIsFlushable(ms, n, placed, deferred);
      FlushedInOrder(ms, n, placed + [Degraded(deferred[0])], deferred[1..]);
      AllDegradedSplits(placed, deferred);
    }
  }

  lemma Grown(ms: seq<Message>, n: nat, placed: seq<Placed>, deferred: seq<nat>, next: Placed)
    requires n < |ms| && AccountsFor(ms, n, placed, deferred) && next.index == n && (next.Degraded? <==> Mid(ms, n))
    ensures AccountsFor(ms, n + 1, placed + [next], deferred)
  {
    hide Mid;
    forall i | 0 <= i < n + 1
      ensures Kept(i) in placed + [next] || Degraded(i) in placed + [next] || i in deferred
    {
      if i == n { assert (placed + [next])[|placed|] == next; }
    }
  }

  lemma Deferred(ms: seq<Message>, n: nat, placed: seq<Placed>, deferred: seq<nat>)
    requires n < |ms| && AccountsFor(ms, n, placed, deferred) && Mid(ms, n)
    ensures AccountsFor(ms, n + 1, placed, deferred + [n])
  {
    hide Mid;
    assert (deferred + [n])[|deferred|] == n;
  }

  lemma Flushed(ms: seq<Message>, n: nat, placed: seq<Placed>, deferred: seq<nat>)
    requires n <= |ms| && AccountsFor(ms, n, placed, deferred)
    ensures AccountsFor(ms, n, placed + AllDegraded(deferred), [])
  {
    hide Mid;
    var all := placed + AllDegraded(deferred);
    forall i | 0 <= i < n
      ensures Kept(i) in all || Degraded(i) in all
    {
      if i in deferred {
        var d :| 0 <= d < |deferred| && deferred[d] == i;
        assert all[|placed| + d] == Degraded(i);
      }
    }
  }

  lemma OpenAfterKeep(ms: seq<Message>, n: nat, placed: seq<Placed>, deferred: seq<nat>)
    requires n < |ms| && AccountsFor(ms, n, placed, deferred) && StillOpen(ms, n, placed, deferred)
    requires deferred != [] ==> Pending(ms, n + 1) != {}
    ensures AccountsFor(ms, n + 1, placed + [Kept(n)], deferred) ==> StillOpen(ms, n + 1, placed + [Kept(n)], deferred)
  {
    hide Pending, FirstClear, Mid;
  }

  lemma OpenAfterDegrade(ms: seq<Message>, n: nat, placed: seq<Placed>)
    requires n < |ms| && AccountsFor(ms, n, placed, []) && StillOpen(ms, n, placed, []) && FirstClear(ms, n) == n
    ensures AccountsFor(ms, n + 1, placed + [Degraded(n)], []) ==> StillOpen(ms, n + 1, placed + [Degraded(n)], [])
  {
    hide Pending, FirstClear, Mid;
  }

  lemma OpenAfterDefer(ms: seq<Message>, n: nat, placed: seq<Placed>, deferred: seq<nat>)
    requires n < |ms| && AccountsFor(ms, n, placed, deferred) && StillOpen(ms, n, placed, deferred)
    requires Pending(ms, n) != {} && Pending(ms, n + 1) != {}
    ensures AccountsFor(ms, n + 1, placed, deferred + [n]) ==> StillOpen(ms, n + 1, placed, deferred + [n])
  {
    hide Pending, FirstClear, Mid;
  }

  lemma OpenAfterFlush(ms: seq<Message>, n: nat, placed: seq<Placed>, deferred: seq<nat>)
    requires n <= |ms| && AccountsFor(ms, n, placed, deferred) && Flushable(ms, n, placed, deferred)
    ensures AccountsFor(ms, n, placed + AllDegraded(deferred), []) ==>
              StillOpen(ms, n, placed + AllDegraded(deferred), [])
  {
    hide Pending, FirstClear, Mid;
  }

  lemma FineAfterKeep(ms: seq<Message>, n: nat, deferred: seq<nat>)
    requires n < |ms| && Fine(ms, n, deferred) && !Mid(ms, n)
    requires deferred != [] ==> !ms[n].User? && !ms[n].Assistant?
    ensures Fine(ms, n + 1, deferred)
  {
    hide Mid, Completes;
  }

  lemma FineAfterDegrade(ms: seq<Message>, n: nat)
    requires n < |ms| && Fine(ms, n, []) && ms[n].System? && !ms[n].complex && FirstClear(ms, n) == n
    ensures Fine(ms, n + 1, [])
  {
    hide Mid, FirstClear;
  }

  lemma FineAfterDefer(ms: seq<Message>, n: nat, deferred: seq<nat>)
    requires n < |ms| && Fine(ms, n, deferred) && Mid(ms, n) && ms[n].System? && !ms[n].complex
    ensures Fine(ms, n + 1, deferred + [n])
  {
    hide Mid, Completes;
    assert (deferred + [n])[|deferred|] == n;
    assert forall i :: i !in deferred + [n] ==> i !in deferred;
  }

  lemma FineAfterFlush(ms: seq<Message>, n: nat, placed: seq<Placed>, deferred: seq<nat>)
    requires n <= |ms| && Fine(ms, n, deferred) && Flushable(ms, n, placed, deferred)
    ensures Fine(ms, n, [])
  {
    hide Mid, FirstClear;
    forall i | 0 <= i < n && Mid(ms, i)
      ensures Completes(ms, i)
    {
      if i in deferred { var d :| 0 <= d < |deferred| && deferred[d] == i; }
    }
  }

  /** A message that is kept where it is, with nothing flushed. */
  lemma KeepStep(ms: seq<Message>, n: nat, s: Progress, pending: set<string>)
    requires n < |ms| && s.Going? && Inv(ms, n, s) && !Mid(ms, n) && pending == Pending(ms, n + 1)
    requires s.deferred != [] ==> pending != {} && !ms[n].User? && !ms[n].Assistant?
    ensures Inv(ms, n + 1, Going(s.seen || !ms[n].System?, pending, s.deferred, s.placed + [Kept(n)]))
  {
    hide Pending, FirstClear, Mid, InOrder, AccountsFor, StillOpen, Fine;
    KeptInOrder(ms, n, s.placed, s.deferred);
    Grown(ms, n, s.placed, s.deferred, Kept(n));
    OpenAfterKeep(ms, n, s.placed, s.deferred);
    FineAfterKeep(ms, n, s.deferred);
  }

  lemma DegradeStep(ms: seq<Message>, n: nat, s: Progress)
    requires n < |ms| && s.Going? && Inv(ms, n, s) && Mid(ms, n) && ms[n].System? && !ms[n].complex && s.pending == {}
    ensures s.deferred == [] && Inv(ms, n + 1, s.(placed := s.placed + [Degraded(n)]))
  {
    hide FirstClear, Mid, InOrder, AccountsFor, StillOpen, Fine;
    if s.deferred != [] { OpenIsPending(ms, n, s.placed, s.deferred); }
    DegradedInOrder(ms, n, s.placed, []);
    Grown(ms, n, s.placed, [], Degraded(n));
    OpenAfterDegrade(ms, n, s.placed);
    FineAfterDegrade(ms, n);
  }

  lemma OpenIsPending(ms: seq<Message>, n: nat, placed: seq<Placed>, deferred: seq<nat>)
    requires n <= |ms| && AccountsFor(ms, n, placed, deferred) && StillOpen(ms, n, placed, deferred) && deferred != []
    ensures Pending(ms, n) != {}
  {
    hide Pending, FirstClear, Mid;
    assert FirstClear(ms, deferred[0]) > n;
  }

  lemma DeferStep(ms: seq<Message>, n: nat, s: Progress)
    requires n < |ms| && s.Going? && Inv(ms, n, s) && Mid(ms, n) && ms[n].System? && !ms[n].complex && s.pending != {}
    ensures Inv(ms, n + 1, s.(deferred := s.deferred + [n]))
  {
    hide FirstClear, Mid, InOrder, AccountsFor, StillOpen, Fine;
    Deferred(ms, n, s.placed, s.deferred);
    OpenAfterDefer(ms, n, s.placed, s.deferred);
    FineAfterDefer(ms, n, s.deferred);
  }

  lemma DeferredIsFlushable(ms: seq<Message>, n: nat, placed: seq<Placed>, deferred: seq<nat>)
    requires n < |ms| && AccountsFor(ms, n, placed, deferred) && StillOpen(ms, n, placed, deferred)
    requires Pending(ms, n + 1) == {}
    ensures Flushable(ms, n + 1, placed + [Kept(n)], deferred)
  {
    hide Pending, FirstClear, Mid;
    MidsAreSystem(ms, deferred);
  }

  /** A tool result that completes the exchange: it is kept, and the deferred messages follow it. */
  lemma FlushStep(ms: seq<Message>, n: nat, s: Progress)
    requires n < |ms| && s.Going? && Inv(ms, n, s) && ms[n].ToolResult? && Pending(ms, n + 1) == {}
    ensures Inv(ms, n + 1, Going(true, {}, [], s.placed + [Kept(n)] + AllDegraded(s.deferred)))
  {
    hide Pending, FirstClear, Mid, InOrder, StillOpen, AccountsFor, Flushable, AllDegraded, Fine;
    var kept := s.placed + [Kept(n)];
    NotMid(ms, n);
    KeptInOrder(ms, n, s.placed, s.deferred);
    Grown(ms, n, s.placed, s.deferred, Kept(n));
    DeferredIsFlushable(ms, n, s.placed, s.deferred);
    FlushedInOrder(ms, n + 1, kept, s.deferred);
    Flushed(ms, n + 1, kept, s.deferred);
    OpenAfterFlush(ms, n + 1, kept, s.deferred);
    FineAfterKeep(ms, n, s.deferred);
    FineAfterFlush(ms, n + 1, kept, s.deferred);
    assert !ms[n].System?;
  }

  lemma NotMid(ms: seq<Message>, n: nat)
    requires n < |ms| && !ms[n].System?
    ensures !Mid(ms, n)
  {
  }

  lemma MidsAreSystem(ms: seq<Message>, indexes: seq<nat>)
    requires forall d :: 0 <= d < |indexes| ==> indexes[d] < |ms| && Mid(ms, indexes[d])
    ensures forall d :: 0 <= d < |indexes| ==> ms[indexes[d]].System?
  {
  }

  lemma VisitInv(ms: seq<Message>, n: nat, s: Progress)
    requires n < |ms| && s.Going? && Inv(ms, n, s)
    ensures Inv(ms, n + 1, Visit(n, ms[n], s))
  {
    hide FirstClear, InOrder, StillOpen, Fine;
    var m := ms[n];
    if m.System? && Mid(ms, n) {
      if !m.complex {
        if s.pending == {} { DegradeStep(ms, n, s); } else { DeferStep(ms, n, s); }
      }
    } else if m.ToolResult? && Pending(ms, n + 1) == {} {
      FlushStep(ms, n, s);
    } else {
      if s.deferred != [] { OpenIsPending(ms, n, s.placed, s.deferred); }
      if Visit(n, m, s).Going? { KeepStep(ms, n, s, PendingAfter(s.pending, m)); }
    }
  }

  lemma {:induction false} WalkInv(ms: seq<Message>, n: nat)
    requires n <= |ms|
    ensures Inv(ms, n, Walk(ms, n))
  {
    if n > 0 {
      hide Inv, Visit;
      WalkInv(ms, n - 1);
      if Walk(ms, n - 1).Going? { VisitInv(ms, n - 1, Walk(ms, n - 1)); }
    }
  }
}
