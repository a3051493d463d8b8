/**
 Shutting down the gateway: the HTTP boundary, which stops admission and waits until what it has admitted is
 over, and the listener, which finalises the data plane after that. Events come in any order.
 */
module Shutdown {
  import opened Options

  type Id = nat

  datatype DrainState =
    | NotDraining
    | DrainWaiting(captured: set<Id>)
    | DrainForced(captured: set<Id>)
    | DrainOver(timedOut: bool)

  datatype CloseState = NotClosing | CloseWaiting(captured: set<Id>) | CloseOver

  /** What the listener's memoised promises have come to. `DrainRejected` is a drain whose timeout was refused. */
  datatype Promised = NoPromise | ToClose | ToDrain | DrainRejected | Settled

  /** `requests` and `upgrades` are admitted and not over; `connectionsClosed` is when the socket server has ended. */
  datatype State = State(
    accepting: bool, closed: bool, closing: CloseState, draining: DrainState, requests: set<Id>, upgrades: set<Id>,
    connectionsClosed: bool, promised: Promised, finalised: nat, admitted: nat)

  const SERVING := State(true, false, NotClosing, NotDraining, {}, {}, false, NoPromise, 0, 0)

  function Active(s: State): set<Id> { s.requests + s.upgrades }

  /** Everything that was captured has completed, and the socket server has ended. */
  predicate Quiescent(s: State, captured: set<Id>) { s.connectionsClosed && captured !! Active(s) }

  datatype Event =
    | Request(id: Id) | RequestDone(id: Id)
    | Upgrade(id: Id, matched: bool) | UpgradeDone(id: Id)
    | ConnectionsClosed
    | CallClose | CallDrain(validTimeout: bool)
    | Quiet | TimerFires | Continue

  predicate MayBe(s: State, e: Event) {
    match e
    case Request(id) => id !in Active(s)
    case RequestDone(id) => id in s.requests
    case Upgrade(id, _) => id !in Active(s)
    case UpgradeDone(id) => id in s.upgrades
    case ConnectionsClosed => !s.accepting
    case CallClose => true
    case CallDrain(_) => true
    case Quiet =>
      (s.draining.DrainWaiting? && Quiescent(s, s.draining.captured))
      || (s.draining.DrainForced? && Quiescent(s, s.draining.captured))
      || (s.closing.CloseWaiting? && Quiescent(s, s.closing.captured))
    case TimerFires => s.draining.DrainWaiting?
    case Continue =>
      (s.promised == ToClose && ServerCloseResolved(s)) || (s.promised == ToDrain && s.draining.DrainOver?)
  }

  predicate ServerCloseResolved(s: State) { s.closed || s.closing.CloseOver? || s.draining.DrainOver? }

  /** `server.close()`. */
  function ServerClose(s: State): State {
    if s.closed || !s.closing.NotClosing? || !s.draining.NotDraining? then s
    else s.(accepting := false, closing := CloseWaiting(Active(s)))
  }

  /** `server.drain(timeout)`, with a timeout that it takes. */
  function ServerDrain(s: State): State {
    if s.closed || !s.draining.NotDraining? || !s.closing.NotClosing? then s
    else s.(accepting := false, draining := DrainWaiting(Active(s)))
  }

  /** The end of a wait: the server is closed. */
  function Quieted(s: State): State {
    if s.draining.DrainWaiting? && Quiescent(s, s.draining.captured)
        then s.(draining := DrainOver(false), closed := true)
    else if s.draining.DrainForced? && Quiescent(s, s.draining.captured)
        then s.(draining := DrainOver(true), closed := true)
    else s.(closing := CloseOver, closed := true)
  }

  function Next(s: State, e: Event): State {
    match e
    case Request(id) => if s.accepting then s.(requests := s.requests + {id}, admitted := s.admitted + 1) else s
    case RequestDone(id) => s.(requests := s.requests - {id})
    case Upgrade(id, matched) =>
      if s.accepting && matched then s.(upgrades := s.upgrades + {id}, admitted := s.admitted + 1) else s
    case UpgradeDone(id) => s.(upgrades := s.upgrades - {id})
    case ConnectionsClosed => s.(connectionsClosed := true)
    case CallClose => if s.promised == NoPromise then ServerClose(s).(promised := ToClose) else s
    case CallDrain(valid) =>
      if s.promised != NoPromise then s
      else if !valid then s.(promised := DrainRejected)
      else ServerDrain(s).(promised := ToDrain)
    case Quiet => Quieted(s)
    case TimerFires => if s.draining.DrainWaiting? then s.(draining := DrainForced(s.draining.captured)) else s
    case Continue => s.(promised := Settled, finalised := s.finalised + 1)
  }

  /** After any events; one that cannot happen changes nothing. */
  function After(events: seq<Event>): State {
    if events == [] then SERVING
    else
      var (before, e) := (After(events[..|events| - 1]), events[|events| - 1]);
      if MayBe(before, e) then Next(before, e) else before
  }

  // -------------------------------------------------------------- invariant

  predicate Started(s: State) { !s.closing.NotClosing? || !s.draining.NotDraining? }

  /** A wait covers everything that is active, because admission ended before it began. */
  predicate Covers(s: State) {
    && (s.draining.DrainWaiting? ==> Active(s) <= s.draining.captured)
    && (s.draining.DrainForced? ==> Active(s) <= s.draining.captured)
    && (s.closing.CloseWaiting? ==> Active(s) <= s.closing.captured)
    && (s.draining.DrainOver? || s.closing.CloseOver? || s.closed ==> Active(s) == {})
  }

  predicate Inv(s: State) {
    && Covers(s)
    && (s.accepting <==> !Started(s))
    && (s.closed <==> s.draining.DrainOver? || s.closing.CloseOver?)
    && (s.draining.NotDraining? || s.closing.NotClosing?)
    && (s.promised in {NoPromise, DrainRejected} ==> s.accepting && s.finalised == 0)
    && (s.promised == ToClose ==> !s.closing.NotClosing? && s.finalised == 0)
    && (s.promised == ToDrain ==> !s.draining.NotDraining? && s.finalised == 0)
    && (s.promised == Settled ==> s.closed && s.finalised == 1)
  }

  lemma EventKeepsInv(s: State, e: Event)
    requires Inv(s) && MayBe(s, e)
    ensures Inv(Next(s, e))
  {
  }

  lemma {:induction false} AlwaysInv(events: seq<Event>)
    ensures Inv(After(events))
    decreases |events|
  {
    if events != [] {
      hide Inv, MayBe, Next;
      AlwaysInv(events[..|events| - 1]);
      var (before, e) := (After(events[..|events| - 1]), events[|events| - 1]);
      if MayBe(before, e) { EventKeepsInv(before, e); }
    } else {
      ServingIsFine();
    }
  }

  lemma ServingIsFine()
    ensures Inv(SERVING)
  {
  }

  // --------------------------------------------------------------- theorems

  /** The data plane is finalised at most once, and only when admission is over and nothing that was admitted is
      still active. */
  lemma FinalisedOnlyAtQuiescence(events: seq<Event>)
    ensures var s := After(events);
            s.finalised <= 1 && (s.finalised == 1 ==> !s.accepting && s.closed && Active(s) == {})
  {
    hide After;
    AlwaysInv(events);
  }

  lemma {:induction false} AdmissionIsOver(events: seq<Event>, more: seq<Event>)
    requires !After(events).accepting
    ensures !After(events + more).accepting && After(events + more).admitted == After(events).admitted
    ensures Active(After(events + more)) <= Active(After(events))
    decreases |more|
  {
    if more == [] {
      assert events + more == events;
    } else {
      hide Inv, MayBe, After;
      var shorter := more[..|more| - 1];
      AdmissionIsOver(events, shorter);
      AlwaysInv(events + shorter);
      assert events + more == (events + shorter) + [more[|more| - 1]];
      OneMoreEvent(events + shorter, more[|more| - 1]);
      if MayBe(After(events + shorter), more[|more| - 1]) {
        NothingAdmitted(After(events + shorter), more[|more| - 1]);
      }
    }
  }

  lemma OneMoreEvent(events: seq<Event>, e: Event)
    ensures After(events + [e]) == if MayBe(After(events), e) then Next(After(events), e) else After(events)
  {
    hide MayBe, Next;
    assert (events + [e])[..|events|] == events;
  }

  lemma NothingAdmitted(s: State, e: Event)
    requires Inv(s) && !s.accepting && MayBe(s, e)
    ensures !Next(s, e).accepting && Next(s, e).admitted == s.admitted && Active(Next(s, e)) <= Active(s)
  {
  }

  /** Nothing is admitted once the data plane has been finalised, whatever happens then. */
  lemma NothingAfterFinalisation(events: seq<Event>, more: seq<Event>)
    requires After(events).finalised == 1
    ensures var s := After(events + more); s.finalised == 1 && Active(s) == {} && s.admitted == After(events).admitted
    decreases |more|
  {
    hide After;
    FinalisedOnlyAtQuiescence(events);
    AdmissionIsOver(events, more);
    FinalisedOnlyAtQuiescence(events + more);
    FinalisationStays(events, more);
  }

  lemma {:induction false} FinalisationStays(events: seq<Event>, more: seq<Event>)
    ensures After(events + more).finalised >= After(events).finalised
    decreases |more|
  {
    if more == [] {
      assert events + more == events;
    } else {
      hide MayBe, After;
      FinalisationStays(events, more[..|more| - 1]);
      assert events + more == (events + more[..|more| - 1]) + [more[|more| - 1]];
      OneMoreEvent(events + more[..|more| - 1], more[|more| - 1]);
    }
  }

  /** A shutdown that has begun can always be brought to its end: once everything admitted is over and the
      connections are closed, at most two more events finalise the data plane. */
  lemma ShutdownCompletes(events: seq<Event>)
    requires var s := After(events);
             (s.promised == ToClose || s.promised == ToDrain) && s.connectionsClosed && Active(s) == {}
    ensures After(events + [Quiet] + [Continue]).finalised == 1
  {
    hide After;
    AlwaysInv(events);
    OneMoreEvent(events, Quiet);
    OneMoreEvent(events + [Quiet], Continue);
  }

  /** A drain whose timeout is refused is remembered as such: from then on neither drain nor close ends admission
      or finalises anything. */
  lemma RefusedDrainBlocksShutdown(events: seq<Event>, more: seq<Event>)
    requires After(events).promised == NoPromise
    ensures var s := After(events + [CallDrain(false)] + more);
            s.accepting && s.finalised == 0 && s.promised == DrainRejected
    decreases |more|
  {
    hide After;
    OneMoreEvent(events, CallDrain(false));
    StaysRejected(events + [CallDrain(false)], more);
    AlwaysInv(events + [CallDrain(false)] + more);
  }

  lemma {:induction false} StaysRejected(events: seq<Event>, more: seq<Event>)
    requires After(events).promised == DrainRejected
    ensures After(events + more).promised == DrainRejected
    decreases |more|
  {
    if more == [] {
      assert events + more == events;
    } else {
      hide After;
      var shorter := more[..|more| - 1];
      StaysRejected(events, shorter);
      AlwaysInv(events + shorter);
      assert events + more == (events + shorter) + [more[|more| - 1]];
      OneMoreEvent(events + shorter, more[|more| - 1]);
    }
  }

  /** The first call to close or drain. */
  function FirstCall(events: seq<Event>): Option<Event> {
    if events == [] then None
    else
      var (before, e) := (FirstCall(events[..|events| - 1]), events[|events| - 1]);
      if before.Some? then before else if e.CallClose? || e.CallDrain? then Some(e) else None
  }

  /** The first call decides: shutdown has begun exactly if it was a close, or a drain with a timeout that is taken. */
  lemma {:induction false} FirstCallDecides(events: seq<Event>)
    ensures var (s, first) := (After(events), FirstCall(events));
            && (s.accepting <==> first == None || first == Some(CallDrain(false)))
            && (s.promised == NoPromise <==> first == None)
            && (s.promised == DrainRejected <==> first == Some(CallDrain(false)))
    decreases |events|
  {
    if events != [] {
      hide After;
      var (before, e) := (events[..|events| - 1], events[|events| - 1]);
      FirstCallDecides(before);
      AlwaysInv(before);
      AlwaysInv(events);
      assert events == before + [e];
      OneMoreEvent(before, e);
    }
  }

  // ------------------------------------------------------ what the events say

  datatype Kind = AsRequest | AsUpgrade

  /** Whether admission is on: no close, and no drain with a timeout that is taken, came as the first call. */
  predicate Admitting(events: seq<Event>) { FirstCall(events) == None || FirstCall(events) == Some(CallDrain(false)) }

  /** As what an identifier is active, told by the events alone: it was admitted, and is not over since. */
  function ActiveAs(events: seq<Event>, id: Id): Option<Kind> {
    if events == [] then None
    else
      var (front, e) := (events[..|events| - 1], events[|events| - 1]);
      var before := ActiveAs(front, id);
      if before.None? && Admitting(front) && e == Request(id) then Some(AsRequest)
      else if before.None? && Admitting(front) && e == Upgrade(id, true) then Some(AsUpgrade)
      else if before == Some(AsRequest) && e == RequestDone(id) then None
      else if before == Some(AsUpgrade) && e == UpgradeDone(id) then None
      else before
  }

  /** Exactly what was admitted and is not over is active: while admission is on every request is admitted, and every
      upgrade that matches. */
  lemma {:induction false} ActiveIsWhatWasAdmitted(events: seq<Event>, id: Id)
    ensures id in After(events).requests <==> ActiveAs(events, id) == Some(AsRequest)
    ensures id in After(events).upgrades <==> ActiveAs(events, id) == Some(AsUpgrade)
    decreases |events|
  {
    if events != [] {
      hide FirstCall, MayBe, Next, Admitting;
      var (front, e) := (events[..|events| - 1], events[|events| - 1]);
      ActiveIsWhatWasAdmitted(front, id);
      AdmittingIsAccepting(front);
      ActiveNext(After(front), e, id);
      var before := ActiveAs(front, id);
      assert before.Some? ==> before.value.AsRequest? || before.value.AsUpgrade?;
    }
  }

  lemma AdmittingIsAccepting(events: seq<Event>)
    ensures Admitting(events) <==> After(events).accepting
  {
    FirstCallDecides(events);
  }

  lemma ActiveNext(s: State, e: Event, id: Id)
    ensures var t := if MayBe(s, e) then Next(s, e) else s; var free := id !in s.requests && id !in s.upgrades;
            && (id in t.requests <==>
                  if id in s.requests then e != RequestDone(id) else e == Request(id) && free && s.accepting)
            && (id in t.upgrades <==>
                  if id in s.upgrades then e != UpgradeDone(id) else e == Upgrade(id, true) && free && s.accepting)
  {
    hide Quiescent;
  }

  /** The timer fired while the drain waited. */
  predicate TimedOut(events: seq<Event>) {
    events != [] &&
    var (front, e) := (events[..|events| - 1], events[|events| - 1]);
    TimedOut(front) || (e == TimerFires && After(front).draining.DrainWaiting?)
  }

  /** A drain is forced, and says so when it is over, exactly if the timer fired while it waited. */
  lemma {:induction false} ForcedByTimer(events: seq<Event>)
    ensures var d := After(events).draining; d.DrainForced? || d == DrainOver(true) <==> TimedOut(events)
    decreases |events|
  {
    if events != [] {
      hide Quiescent, Active;
      ForcedByTimer(events[..|events| - 1]);
      AlwaysInv(events[..|events| - 1]);
    }
  }

  // ------------------------------------------------------------ the listener

  /** The server and its listener, updated in place by event handlers. */
  class RunningDataPlane {
    var accepting: bool
    var closed: bool
    var closing: CloseState
    var draining: DrainState
    var activeRequests: set<Id>
    var activeWebSocketUpgrades: set<Id>
    var connectionsClosed: bool
    var promised: Promised
    var finalised: nat
    ghost var admitted: nat

    constructor ()
      ensures Contents() == SERVING
    {
      accepting, closed := true, false;
      closing, draining := NotClosing, NotDraining;
      activeRequests, activeWebSocketUpgrades := {}, {};
      connectionsClosed, promised := false, NoPromise;
      finalised, admitted := 0, 0;
    }

    ghost function Contents(): State
      reads this
    {
      State(accepting, closed, closing, draining, activeRequests, activeWebSocketUpgrades, connectionsClosed, promised,
          finalised, admitted)
    }

    method OnRequest(id: Id) returns (refused: bool)
      modifies this
      ensures Contents() == Next(old(Contents()), Request(id)) && refused == !old(accepting)
    {
      if !accepting { return true; }
      activeRequests := activeRequests + {id};
      admitted := admitted + 1;
      return false;
    }

    method OnRequestDone(id: Id)
      modifies this
      ensures Contents() == Next(old(Contents()), RequestDone(id))
    {
      activeRequests := activeRequests - {id};
    }

    method OnUpgrade(id: Id, matched: bool)
      modifies this
      ensures Contents() == Next(old(Contents()), Upgrade(id, matched))
    {
      if !accepting || !matched { return; }
      activeWebSocketUpgrades := activeWebSocketUpgrades + {id};
      admitted := admitted + 1;
    }

    method OnUpgradeDone(id: Id)
      modifies this
      ensures Contents() == Next(old(Contents()), UpgradeDone(id))
    {
      activeWebSocketUpgrades := activeWebSocketUpgrades - {id};
    }

    method Close()
      modifies this
      ensures Contents() == Next(old(Contents()), CallClose)
    {
      if promised != NoPromise { return; }
      promised := ToClose;
      if closed || !closing.NotClosing? || !draining.NotDraining? { return; }
      accepting := false;
      closing := CloseWaiting(activeRequests + activeWebSocketUpgrades);
    }

    method Drain(validTimeout: bool)
      modifies this
      ensures Contents() == Next(old(Contents()), CallDrain(validTimeout))
    {
      if promised != NoPromise { return; }
      if !validTimeout {
        promised := DrainRejected;
        return;
      }
      promised := ToDrain;
      if closed || !draining.NotDraining? || !closing.NotClosing? { return; }
      accepting := false;
      draining := DrainWaiting(activeRequests + activeWebSocketUpgrades);
    }

    method OnQuiet()
      requires MayBe(Contents(), Quiet)
      modifies this
      ensures Contents() == Next(old(Contents()), Quiet)
    {
      var active := activeRequests + activeWebSocketUpgrades;
      if draining.DrainWaiting? && connectionsClosed && draining.captured !! active { draining := DrainOver(false); }
      else if draining.DrainForced? && connectionsClosed && draining.captured !! active { draining := DrainOver(true); }
      else { closing := CloseOver; }
      closed := true;
    }

    method OnTimer()
      requires MayBe(Contents(), TimerFires)
      modifies this
      ensures Contents() == Next(old(Contents()), TimerFires)
    {
      draining := DrainForced(draining.captured);
    }

    method FinaliseDataPlane()
      requires MayBe(Contents(), Continue)
      modifies this
      ensures Contents() == Next(old(Contents()), Continue)
    {
      promised := Settled;
      finalised := finalised + 1;
    }
  }
}
