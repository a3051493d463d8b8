/** The loop that rewrites a context, proved to compute the specified result. */
module ContextLoop {
  import opened ContextRelocation
  import opened ContextInvariant
  import opened ContextTheorems

  method CollectCallIds(blocks: seq<Block>) returns (ids: set<string>)
    ensures ids == CallIds(blocks)
    ensures forall id :: id in ids <==> ToolCall(id) in blocks
  {
    ids := {};
    for i := 0 to |blocks|
      invariant ids == CallIds(blocks[..i])
      invariant forall id :: id in ids <==> ToolCall(id) in blocks[..i]
    {
      assert blocks[..i + 1][..i] == blocks[..i];
      if blocks[i].ToolCall? { ids := ids + {blocks[i].id}; }
    }
    assert blocks[..|blocks|] == blocks;
  }

  lemma RenderGrows(ms: seq<Message>, placed: seq<Placed>, next: Placed)
    requires AllExist(ms, placed) && Exists(ms, next)
    ensures Render(ms, placed + [next]) == Render(ms, placed) + [Copy(ms, next)]
    ensures DegradedIndexes(placed + [next]) == DegradedIndexes(placed) + (if next.Degraded? then [next.index] else [])
  {
    assert (placed + [next])[..|placed|] == placed;
  }

  datatype Held = Held(message: Message, messageIndex: nat)

  function Holds(ms: seq<Message>, deferred: seq<nat>): (held: seq<Held>)
    requires forall d :: 0 <= d < |deferred| ==> deferred[d] < |ms|
    ensures |held| == |deferred| && forall d :: 0 <= d < |deferred| ==> held[d] == Held(ms[deferred[d]], deferred[d])
  {
    seq(|deferred|, d requires 0 <= d < |deferred| && deferred[d] < |ms| => Held(ms[deferred[d]], deferred[d]))
  }

  /** Whether the local variables of the loop stand for the progress. */
  predicate Stands(ms: seq<Message>, s: Progress, seen: bool, repaired: bool, messages: seq<Message>,
      outcomes: seq<nat>, pending: set<string>, deferred: seq<Held>)
  {
    && s.Going? && AllExist(ms, s.placed) && (forall d :: 0 <= d < |s.deferred| ==> s.deferred[d] < |ms|)
    && seen == s.seen && pending == s.pending
    && messages == Render(ms, s.placed) && outcomes == DegradedIndexes(s.placed) && deferred == Holds(ms, s.deferred)
    && (!repaired ==> s.deferred == [] && outcomes == [])
  }

  lemma AllDegradedGrows(placed: seq<Placed>, indexes: seq<nat>, d: nat)
    requires d < |indexes|
    ensures placed + AllDegraded(indexes[..d + 1]) == placed + AllDegraded(indexes[..d]) + [Degraded(indexes[d])]
  {
  }

  /** The deferred messages, degraded, behind what is repaired so far. */
  method FlushDeferredSystems(ghost ms: seq<Message>, ghost placed: seq<Placed>, ghost indexes: seq<nat>,
      deferred: seq<Held>, messages: seq<Message>, outcomes: seq<nat>)
    returns (repaired: seq<Message>, reported: seq<nat>)
    requires AllExist(ms, placed) && messages == Render(ms, placed) && outcomes == DegradedIndexes(placed)
    requires (forall d :: 0 <= d < |indexes| ==> indexes[d] < |ms| && ms[indexes[d]].System?) &&
               deferred == Holds(ms, indexes)
    ensures AllExist(ms, placed + AllDegraded(indexes))
    ensures repaired == Render(ms, placed + AllDegraded(indexes))
    ensures reported == DegradedIndexes(placed + AllDegraded(indexes))
  {
    hide Render, DegradedIndexes, AllDegraded;
    repaired, reported := messages, outcomes;
    assert placed + AllDegraded(indexes[..0]) == placed;
    for d := 0 to |deferred|
      invariant AllExist(ms, placed + AllDegraded(indexes[..d]))
      invariant repaired == Render(ms, placed + AllDegraded(indexes[..d]))
      invariant reported == DegradedIndexes(placed + AllDegraded(indexes[..d]))
    {
      ghost var next := Degraded(indexes[d]);
      RenderGrows(ms, placed + AllDegraded(indexes[..d]), next);
      AllDegradedGrows(placed, indexes, d);
      repaired := repaired + [DegradedUser(deferred[d].message)];
      reported := reported + [deferred[d].messageIndex];
    }
    assert indexes[..|indexes|] == indexes;
  }

  lemma {:induction false} StoppedStays(ms: seq<Message>, i: nat, n: nat)
    requires i <= n <= |ms| && Walk(ms, i).Stopped?
    ensures Walk(ms, n) == Walk(ms, i)
    decreases n
  {
    if i < n { StoppedStays(ms, i, n - 1); }
  }

  lemma KeepStands(ms: seq<Message>, i: nat, s: Progress, seen: bool, repaired: bool, messages: seq<Message>,
      outcomes: seq<nat>, pending: set<string>, deferred: seq<Held>, seenNow: bool, pendingNow: set<string>)
    requires i < |ms| && Stands(ms, s, seen, repaired, messages, outcomes, pending, deferred)
    ensures Stands(ms, Going(seenNow, pendingNow, s.deferred, s.placed + [Kept(i)]),
                   seenNow, repaired, messages + [ms[i]], outcomes, pendingNow, deferred)
  {
    RenderGrows(ms, s.placed, Kept(i));
  }

  lemma DegradeStands(ms: seq<Message>, i: nat, s: Progress, seen: bool, repaired: bool, messages: seq<Message>,
      outcomes: seq<nat>, pending: set<string>, deferred: seq<Held>)
    requires i < |ms| && ms[i].System? && Stands(ms, s, seen, repaired, messages, outcomes, pending, deferred)
    ensures Stands(ms, s.(placed := s.placed + [Degraded(i)]), seen, true, messages + [DegradedUser(ms[i])],
              outcomes + [i], pending, deferred)
  {
    RenderGrows(ms, s.placed, Degraded(i));
  }

  lemma DeferStands(ms: seq<Message>, i: nat, s: Progress, seen: bool, repaired: bool, messages: seq<Message>,
      outcomes: seq<nat>, pending: set<string>, deferred: seq<Held>)
    requires i < |ms| && Stands(ms, s, seen, repaired, messages, outcomes, pending, deferred)
    ensures Stands(ms, s.(deferred := s.deferred + [i]), seen, true, messages, outcomes, pending,
              deferred + [Held(ms[i], i)])
  {
    hide Render, DegradedIndexes;
  }

  lemma NothingDeferred(ms: seq<Message>, s: Progress, seen: bool, repaired: bool, messages: seq<Message>,
      outcomes: seq<nat>, pending: set<string>, deferred: seq<Held>)
    requires Stands(ms, s, seen, repaired, messages, outcomes, pending, deferred)
    ensures s.Going? && seen == s.seen && pending == s.pending && AllExist(ms, s.placed)
    ensures (forall d :: 0 <= d < |s.deferred| ==> s.deferred[d] < |ms|) && deferred == Holds(ms, s.deferred)
    ensures messages == Render(ms, s.placed) && outcomes == DegradedIndexes(s.placed)
    ensures deferred == [] <==> s.deferred == []
    ensures s.deferred == [] ==> AllDegraded(s.deferred) == []
  {
  }

  lemma DeferredAreSystem(ms: seq<Message>, n: nat, s: Progress)
    requires n <= |ms| && s.Going? && Inv(ms, n, s)
    ensures forall d :: 0 <= d < |s.deferred| ==> s.deferred[d] < |ms| && ms[s.deferred[d]].System?
  {
    hide Mid, InOrder, StillOpen, Fine;
    MidsAreSystem(ms, s.deferred);
  }

  lemma ReadyAtEnd(ms: seq<Message>, seen: bool, repaired: bool, messages: seq<Message>, outcomes: seq<nat>,
      pending: set<string>)
    requires Stands(ms, Walk(ms, |ms|), seen, repaired, messages, outcomes, pending, [])
    ensures Prepared(ms) == Ready(messages, outcomes) && (!repaired ==> Prepared(ms) == Ready(ms, []))
  {
    hide InOrder, AccountsFor, StillOpen, Fine;
    if !repaired {
      OutcomesAreTheMids(ms);
      NothingToDegrade(ms);
    }
  }

  lemma StopsHere(ms: seq<Message>, i: nat, r: Refusal)
    requires i <= |ms| && Walk(ms, i) == Stopped(r)
    ensures Prepared(ms) == Refused(r)
  {
    hide Walk, Inv;
    StoppedStays(ms, i, |ms|);
    WalkInv(ms, |ms|);
  }

  method PreparePiContextForModel(supportsMidConversation: bool, ms: seq<Message>) returns (r: Result)
    ensures r == if supportsMidConversation then Ready(ms, []) else Prepared(ms)
    ensures r.Ready? <==> supportsMidConversation || Relocatable(ms)
  {
    hide Prepared, Relocatable, Stands, Render, DegradedIndexes, Holds, AllDegraded, CallIds, AllExist, Inv;
    ReadyIffRelocatable(ms);
    if supportsMidConversation { return Ready(ms, []); }
    var seen, repaired := false, false;
    var messages: seq<Message>, outcomes: seq<nat>, pending: set<string>, deferred: seq<Held> := [], [], {}, [];
    NothingYet(ms);
    for i := 0 to |ms|
      invariant Stands(ms, Walk(ms, i), seen, repaired, messages, outcomes, pending, deferred)
    {
      ghost var s := Walk(ms, i);
      NothingDeferred(ms, s, seen, repaired, messages, outcomes, pending, deferred);
      var m := ms[i];
      if m.System? {
        if !seen {
          KeepStands(ms, i, s, seen, repaired, messages, outcomes, pending, deferred, seen, pending);
          messages := messages + [m];
        } else if m.complex {
          StopsHere(ms, i + 1, ComplexSystem(i));
          return Refused(ComplexSystem(i));
        } else {
          if pending != {} {
            DeferStands(ms, i, s, seen, repaired, messages, outcomes, pending, deferred);
            deferred := deferred + [Held(m, i)];
          } else {
            DegradeStands(ms, i, s, seen, repaired, messages, outcomes, pending, deferred);
            messages := messages + [DegradedUser(m)];
            outcomes := outcomes + [i];
          }
          repaired := true;
        }
      } else if m.ToolResult? {
        KeepStands(ms, i, s, seen, repaired, messages, outcomes, pending, deferred, true, pending - {m.toolCallId});
        seen := true;
        messages := messages + [m];
        pending := pending - {m.toolCallId};
        assert s.placed + [Kept(i)] + [] == s.placed + [Kept(i)];
        if pending == {} && deferred != [] {
          ghost var kept := Going(true, pending, s.deferred, s.placed + [Kept(i)]);
          NothingDeferred(ms, kept, seen, repaired, messages, outcomes, pending, deferred);
          WalkInv(ms, i);
          DeferredAreSystem(ms, i, s);
          RepairedBefore(ms, kept, seen, repaired, messages, outcomes, pending, deferred);
          messages, outcomes := FlushDeferredSystems(ms, kept.placed, s.deferred, deferred, messages, outcomes);
          deferred := [];
          FlushedStands(ms, kept, seen, repaired, messages, outcomes);
        }
      } else {
        if (m.User? || m.Assistant?) && deferred != [] && pending != {} {
          StopsHere(ms, i + 1, Crossing(i));
          return Refused(Crossing(i));
        }
        var now := pending;
        if m.User? { now := {}; } else if m.Assistant? { now := CollectCallIds(m.blocks); }
        KeepStands(ms, i, s, seen, repaired, messages, outcomes, pending, deferred, true, now);
        seen := true;
        pending := now;
        messages := messages + [m];
      }
    }
    if deferred != [] {
      UnfinishedAtEnd(ms, seen, repaired, messages, outcomes, pending, deferred);
      return Refused(Unfinished);
    }
    ReadyAtEnd(ms, seen, repaired, messages, outcomes, pending);
    if !repaired { return Ready(ms, []); }
    return Ready(messages, outcomes);
  }

  lemma NothingYet(ms: seq<Message>)
    ensures Stands(ms, Walk(ms, 0), false, false, [], [], {}, [])
  {
  }

  lemma RepairedBefore(ms: seq<Message>, s: Progress, seen: bool, repaired: bool, messages: seq<Message>,
      outcomes: seq<nat>, pending: set<string>, deferred: seq<Held>)
    requires Stands(ms, s, seen, repaired, messages, outcomes, pending, deferred) && deferred != []
    ensures repaired
  {
  }

  lemma FlushedStands(ms: seq<Message>, s: Progress, seen: bool, repaired: bool, messages: seq<Message>,
      outcomes: seq<nat>)
    requires s.Going? && seen == s.seen && repaired && AllExist(ms, s.placed + AllDegraded(s.deferred))
    requires messages == Render(ms, s.placed + AllDegraded(s.deferred))
    requires outcomes == DegradedIndexes(s.placed + AllDegraded(s.deferred))
    ensures Stands(ms, Going(s.seen, s.pending, [], s.placed + AllDegraded(s.deferred)), seen, repaired, messages,
              outcomes, s.pending, [])
  {
    hide Render, DegradedIndexes, AllDegraded;
  }

  lemma UnfinishedAtEnd(ms: seq<Message>, seen: bool, repaired: bool, messages: seq<Message>, outcomes: seq<nat>,
      pending: set<string>, deferred: seq<Held>)
    requires Stands(ms, Walk(ms, |ms|), seen, repaired, messages, outcomes, pending, deferred) && deferred != []
    ensures Prepared(ms) == Refused(Unfinished)
  {
    hide Render, DegradedIndexes;
  }
}
