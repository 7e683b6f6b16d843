/**
 The timer of synchronous calls: it runs in the loops of the calls that asked for
 it, and a call without one waits until it is answered or the connection is lost.
 */
module Timeouts {
  import opened Endpoint
  import opened EndpointInvariants
  import opened Framing
  import opened Messages
  import opened Outcomes

  /** The latest call was made with a timeout. */
  predicate LastTimed(es: seq<Event>) {
    es != [] && if es[|es| - 1].SendSync? then es[|es| - 1].timed else LastTimed(es[..|es| - 1])
  }

  /** A call on its way to its loop was made with a timeout or without. */
  predicate CallingAs(k: Stack, timed: bool) {
    k.Push? ==> (k.top.Calling? ==> k.top.timed == timed)
                && (k.below.Push? && k.below.top.Calling? ==> k.below.top.timed == timed)
  }

  /** In the loop the timer runs until it fires, if there is one; outside there is none. */
  predicate TimerRuns(s: State, timed: bool) {
    if s.sock.nestedSource then s.call.timer == (timed && !s.call.timedOut) && (s.call.timedOut ==> timed)
    else !s.call.timer
  }

  predicate SameTimer(s: State, t: State) {
    t.sock.nestedSource == s.sock.nestedSource && t.call.timer == s.call.timer && t.call.timedOut == s.call.timedOut
  }

  // ---- one step ---------------------------------------------------------------------

  /** Nothing stands on top of a call that enters its loop but its first flush. */
  lemma CallingNearTop(k: Stack, timed: bool)
    requires Nested(k) && k.Push? && CallingAs(k, timed)
    ensures CallingAs(k.below, timed) && (k.below.Push? ==> CallingAs(k.below.below, timed))
  {}

  lemma NoneCalling(k: Stack)
    requires Nested(k) && UserTurn(k)
    ensures forall timed :: CallingAs(k, timed)
  {}

  lemma CallingApplication(s: State, e: Event, timed: bool)
    requires StackInv(s) && Can(s, e) && CallingAs(s.stack, timed)
    ensures CallingAs(ByApplication(s, e).stack, if e.SendSync? then e.timed else timed)
  {
    hide KindOf, WellFormed, Partial, IsWhole, Missing, Frame, Has, Mark, Id, Marked, HasCall, HasWaiting;
    if UserTurn(s.stack) { NoneCalling(s.stack); }
    hide Nested;
  }

  lemma CallingMoving(s: State, e: Event, timed: bool)
    requires StackInv(s) && Can(s, e) && CallingAs(s.stack, timed)
    ensures CallingAs(ByLoop(s, e).stack, timed) && CallingAs(BySending(s, e).stack, timed) && CallingAs(ByReading(s, e).stack, timed)
  {
    hide KindOf, WellFormed, Partial, IsWhole, Missing, Frame, Has, Mark, Id, Marked, HasCall, HasWaiting;
    if s.stack.Push? { CallingNearTop(s.stack, timed); }
    hide Nested;
  }

  lemma CallingElse(s: State, e: Event, timed: bool)
    requires StackInv(s) && Can(s, e) && CallingAs(s.stack, timed)
    ensures CallingAs(ByDispatch(s, e).stack, timed) && CallingAs(ByCall(s, e).stack, timed)
  {
    hide KindOf, WellFormed, Partial, IsWhole, Missing, Frame, Has, Finish, Mark, Id, IsReplyError, Marked, HasCall, HasWaiting;
    if s.stack.Push? { CallingNearTop(s.stack, timed); }
    hide Nested;
  }

  lemma CallingStep(s: State, e: Event, timed: bool)
    requires StackInv(s) && Can(s, e) && CallingAs(s.stack, timed)
    ensures CallingAs(Do(s, e).stack, if e.SendSync? then e.timed else timed)
  {
    hide Can, StackInv, ByApplication, ByLoop, BySending, ByReading, ByDispatch, ByCall, CallingAs;
    CallingApplication(s, e, timed);
    CallingMoving(s, e, timed);
    CallingElse(s, e, timed);
  }

  lemma TimerElsewhere(s: State, e: Event)
    requires Can(s, e)
    ensures SameTimer(s, ByApplication(s, e)) && SameTimer(s, ByDispatch(s, e))
  {
    hide KindOf, WellFormed, Partial, IsWhole, Missing, Frame, Has, Finish, Mark, Id, Marked;
  }

  lemma TimerMoving(s: State, e: Event)
    requires Can(s, e)
    ensures SameTimer(s, BySending(s, e)) && SameTimer(s, ByReading(s, e))
  {
    hide KindOf, WellFormed, Partial, IsWhole, Missing, Frame, Has, Id, Marked;
  }

  /** A call is made outside the loop of another. */
  lemma NotWaiting(s: State, e: Event)
    requires StackInv(s) && Can(s, e) && e.SendSync?
    ensures !s.sock.nestedSource
  {
    hide KindOf, WellFormed, Partial, IsWhole, Missing, Frame, Has, Id, Nested;
    WaitingIsCall(s.stack);
  }

  lemma TimerByLoop(s: State, e: Event, timed: bool)
    requires StackInv(s) && Can(s, e) && TimerRuns(s, timed)
    ensures TimerRuns(ByLoop(s, e), timed)
  {
    hide KindOf, WellFormed, Partial, IsWhole, Missing, Frame, Has, Id, Marked, Nested;
  }

  lemma TimerByCall(s: State, e: Event, timed: bool)
    requires Can(s, e) && CallingAs(s.stack, timed) && TimerRuns(s, timed)
    ensures TimerRuns(ByCall(s, e), timed)
  {
    hide KindOf, WellFormed, Partial, IsWhole, Missing, Frame, Has, Id, IsReplyError, Marked;
  }

  lemma TimerStep(s: State, e: Event, timed: bool)
    requires StackInv(s) && Can(s, e) && CallingAs(s.stack, timed) && TimerRuns(s, timed)
    ensures TimerRuns(Do(s, e), if e.SendSync? then e.timed else timed)
  {
    hide Can, StackInv, ByApplication, ByLoop, BySending, ByReading, ByDispatch, ByCall, CallingAs;
    TimerElsewhere(s, e);
    TimerMoving(s, e);
    TimerByLoop(s, e, timed);
    TimerByCall(s, e, timed);
    if e.SendSync? { NotWaiting(s, e); }
  }

  // ---- every run -----------------------------------------------------------------

  lemma {:induction false} TimerInRuns(es: seq<Event>)
    requires ValidRun(es)
    ensures CallingAs(After(es).stack, LastTimed(es)) && TimerRuns(After(es), LastTimed(es))
  {
    hide Can, Do, StackInv, CallingAs, TimerRuns;
    if es == [] {
      AtStart();
    } else {
      var k := |es| - 1;
      TimerInRuns(es[..k]);
      RunInv(es[..k]);
      CallingStep(After(es[..k]), es[k], LastTimed(es[..k]));
      TimerStep(After(es[..k]), es[k], LastTimed(es[..k]));
    }
  }

  lemma AtStart()
    ensures CallingAs(Start().stack, false) && TimerRuns(Start(), false)
  {}

  /** In every run the timer of a call runs from the start of its loop until it fires, and only if the call asked for one. */
  lemma TimerRunsForTimedCalls(es: seq<Event>)
    requires ValidRun(es)
    ensures After(es).sock.nestedSource ==> (After(es).call.timer <==> LastTimed(es) && !TimerFired(es))
    ensures !After(es).sock.nestedSource ==> !After(es).call.timer
  {
    TimerInRuns(es);
    TimedOutIffFired(es);
    hide ValidRun, After, LastTimed, TimerFired;
  }

  /** The loop of a call without a timeout ends exactly when a reply is accepted or the connection is lost. */
  lemma UntimedCallWaits(es: seq<Event>)
    requires ValidRun(es) && After(es).sock.nestedSource && !LastTimed(es)
    ensures !TimerFired(es) && (After(es).call.quit <==> After(es).call.curReply.Some? || !After(es).sock.open)
  {
    TimerInRuns(es);
    TimedOutIffFired(es);
    RunInv(es);
    LoopEnds(After(es));
    hide ValidRun, After, LastTimed, TimerFired, Inv;
  }

  lemma LoopEnds(s: State)
    requires Inv(s) && s.sock.nestedSource
    ensures s.call.quit <==> s.call.curReply.Some? || s.call.timedOut || !s.sock.open
  {
    hide StackInv, OutputInv, SlotInv, SendInv, ReceiveInv, OrderInv, QueueInv, LossInv, DispatchInv, OutcomeInv, ServiceInv;
  }
}
