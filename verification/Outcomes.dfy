/**
 What synchronous calls give their callers: each call returns once, and it
 returns a reply exactly when its loop ended with one in time.
 */
module Outcomes {
  import opened Endpoint
  import opened EndpointInvariants
  import opened Framing
  import opened Link
  import opened Messages
  import opened Options

  /** A call is between its loop and its return. */
  predicate InHand(k: Stack) {
    k.Push? && (k.top.Returning? || (k.top.Flushing? && k.below.Push? && k.below.top.Returning?))
  }

  /** The loop ends in time: on an open socket, its timer not fired, with an accepted reply that is no error. */
  predicate Succeeds(s: State) {
    s.sock.open && !s.call.timedOut && s.call.curReply.Some? && !IsReplyError(s.call.curReply.value)
  }

  /** A reply or nothing, as `s` at the end of a loop deserves it. */
  predicate Deserved(s: State, reply: Option<Msg>) {
    if Succeeds(s) then reply == s.call.curReply else reply == None
  }

  // ---- one step ---------------------------------------------------------------

  /** The outcomes a step records. */
  function Recorded(s: State, e: Event): seq<Outcome>
    requires Can(s, e)
  {
    if e.CallFail? || (e.LeaveLoop? && !s.sock.open) then [Outcome(s.h.call, None, s.h.acceptedAt)]
    else if e.CallReturn? then [Outcome(s.h.call, s.stack.top.reply, s.h.acceptedAt)]
    else []
  }

  predicate SameOutcomes(s: State, t: State) {
    t.h.outcomes == s.h.outcomes
  }

  lemma OutcomesElsewhere(s: State, e: Event)
    requires Can(s, e)
    ensures SameOutcomes(s, ByApplication(s, e)) && SameOutcomes(s, ByLoop(s, e)) && SameOutcomes(s, ByDispatch(s, e))
  {
    hide KindOf, WellFormed, Partial, IsWhole, Missing, Frame, Finish, Mark, Id, Marked, Has;
  }

  lemma OutcomesWhenMoving(s: State, e: Event)
    requires Can(s, e)
    ensures SameOutcomes(s, BySending(s, e)) && SameOutcomes(s, ByReading(s, e))
  {
    hide KindOf, WellFormed, Partial, IsWhole, Missing, Frame, Id, Marked, Has;
  }

  lemma OutcomesByCall(s: State, e: Event)
    requires Can(s, e)
    ensures ByCall(s, e).h.outcomes == s.h.outcomes + Recorded(s, e)
  {
    hide KindOf, WellFormed, Partial, IsWhole, Missing, Frame, Mark, Id, IsReplyError, Has;
  }

  lemma OutcomesStep(s: State, e: Event)
    requires Can(s, e)
    ensures Do(s, e).h.outcomes == s.h.outcomes + Recorded(s, e)
  {
    hide Can, ByApplication, ByLoop, BySending, ByReading, ByDispatch, ByCall;
    OutcomesElsewhere(s, e);
    OutcomesWhenMoving(s, e);
    OutcomesByCall(s, e);
  }

  /** The call that `t` has in hand was in hand already. */
  predicate StillInHand(s: State, t: State) {
    InHand(t.stack) ==> InHand(s.stack) && ReplyInHand(t.stack) == ReplyInHand(s.stack) && t.h.call == s.h.call && t.h.acceptedAt == s.h.acceptedAt
  }

  lemma HandKeptSending(s: State, e: Event)
    requires StackInv(s) && Can(s, e)
    ensures StillInHand(s, BySending(s, e)) && StillInHand(s, ByLoop(s, e))
  {
    hide KindOf, WellFormed, Partial, IsWhole, Missing, Frame, Marked, Has, Nested, HasCall, HasWaiting;
    Popped(s.stack);
    if s.stack.Push? { Popped(s.stack.below); }
  }

  lemma HandKeptReading(s: State, e: Event)
    requires StackInv(s) && Can(s, e)
    ensures e.Got? || e.Complete? || e.RecvAgain? || e.RecvErr? ==> StillInHand(s, ByReading(s, e))
  {
    hide KindOf, WellFormed, Partial, IsWhole, Missing, Frame, Id, Marked, Has, Nested, HasCall, HasWaiting;
    Popped(s.stack);
  }

  lemma HandKeptElse(s: State, e: Event)
    requires StackInv(s) && Can(s, e)
    ensures StillInHand(s, ByApplication(s, e)) && StillInHand(s, ByDispatch(s, e))
  {
    hide KindOf, WellFormed, Partial, IsWhole, Missing, Frame, Finish, Mark, Id, Marked, Has, Nested, HasCall, HasWaiting;
    Popped(s.stack);
    if s.stack.Push? { Popped(s.stack.below); }
  }

  lemma HandByCall(s: State, e: Event)
    requires StackInv(s) && Can(s, e)
    ensures e.EnterLoop? || e.CallFail? || e.CallReturn? ==> !InHand(ByCall(s, e).stack)
    ensures e.LeaveLoop? && InHand(ByCall(s, e).stack) ==>
      s.sock.open && Deserved(s, ReplyInHand(ByCall(s, e).stack)) && ByCall(s, e).h == s.h
    ensures e.LeaveLoop? && s.sock.open ==> InHand(ByCall(s, e).stack)
  {
    hide KindOf, WellFormed, Partial, IsWhole, Missing, Frame, Id, IsReplyError, Marked, Has, Nested, HasCall, HasWaiting;
    Popped(s.stack);
  }

  /** A call comes to hand at the end of its loop, with the reply it deserves, and stays until it returns. */
  lemma HandStepExact(s: State, e: Event)
    requires StackInv(s) && Can(s, e)
    ensures var t := Do(s, e);
      InHand(t.stack) ==> if e.LeaveLoop? then s.sock.open && Deserved(s, ReplyInHand(t.stack)) && t.h == s.h
                          else StillInHand(s, t)
    ensures e.LeaveLoop? && s.sock.open ==> InHand(Do(s, e).stack)
  {
    hide Can, StackInv, ByApplication, ByLoop, BySending, ByReading, ByDispatch, ByCall, Deserved, InHand, ReplyInHand;
    HandKeptSending(s, e);
    HandKeptReading(s, e);
    HandKeptElse(s, e);
    HandByCall(s, e);
  }

  // ---- every run -----------------------------------------------------------------

  /** The timer fired since the latest nested loop began. */
  predicate TimerFired(es: seq<Event>) {
    es != [] && (es[|es| - 1].WakeTimeout? || (!es[|es| - 1].EnterLoop? && TimerFired(es[..|es| - 1])))
  }

  lemma TimedOutStep(s: State, e: Event)
    requires Can(s, e)
    ensures Do(s, e).call.timedOut == (e.WakeTimeout? || (!e.EnterLoop? && s.call.timedOut))
  {
    hide KindOf, WellFormed, Partial, IsWhole, Missing, Frame, Finish, Mark, Id, IsReplyError, Marked, Has;
  }

  lemma {:induction false} TimedOutIffFired(es: seq<Event>)
    requires ValidRun(es)
    ensures After(es).call.timedOut <==> TimerFired(es)
  {
    hide Can, Do;
    if es != [] {
      TimedOutIffFired(es[..|es| - 1]);
      TimedOutStep(After(es[..|es| - 1]), es[|es| - 1]);
    }
  }

  /** Step `n` of `es` ended call `o.call`, and gave it what it deserved. */
  ghost predicate Decides(es: seq<Event>, n: nat, o: Outcome)
    requires ValidRun(es)
  {
    && n < |es| && ValidRun(es[..n])
    && var s := After(es[..n]);
       && o.call == s.h.call && o.acceptedAt == s.h.acceptedAt
       && if es[n].LeaveLoop? then Deserved(s, o.reply) else es[n].CallFail? && !s.sock.open && o.reply == None
  }

  lemma DecidesLater(es: seq<Event>, n: nat, o: Outcome)
    requires ValidRun(es) && es != [] && ValidRun(es[..|es| - 1]) && Decides(es[..|es| - 1], n, o)
    ensures Decides(es, n, o)
  {
    assert es[..|es| - 1][..n] == es[..n];
  }

  lemma NothingInHand()
    ensures !InHand(Start().stack)
  {}

  lemma {:induction false} HandDecided(es: seq<Event>) returns (n: nat)
    requires ValidRun(es) && InHand(After(es).stack)
    ensures var s := After(es); Decides(es, n, Outcome(s.h.call, ReplyInHand(s.stack), s.h.acceptedAt))
  {
    hide Can, Do, InHand, ReplyInHand, StackInv, Deserved;
    if es == [] {
      NothingInHand();
      assert false;
    } else {
      var k := |es| - 1;
      RunInv(es[..k]);
      HandStepExact(After(es[..k]), es[k]);
      if es[k].LeaveLoop? {
        n := k;
      } else {
        n := HandDecided(es[..k]);
        DecidesLater(es, n, Outcome(After(es).h.call, ReplyInHand(After(es).stack), After(es).h.acceptedAt));
      }
    }
  }

  lemma ReturnedWasInHand(s: State)
    requires Can(s, CallReturn)
    ensures InHand(s.stack) && ReplyInHand(s.stack) == s.stack.top.reply
  {}

  lemma FailedWhenClosed(s: State)
    requires Can(s, CallFail)
    ensures !s.sock.open
  {}

  lemma ClosedDeservesNothing(s: State)
    requires !s.sock.open
    ensures Deserved(s, None)
  {}

  /**
   Every call in every run: it returns a reply if and only if its nested loop
   ended on an open socket, with its timer not fired, after a reply that is no
   error was accepted; and the reply is that one.
   */
  lemma OutcomeDecided(es: seq<Event>, k: nat) returns (n: nat)
    requires ValidRun(es) && k < |After(es).h.outcomes|
    ensures n < |es| && ValidRun(es[..n]) && (es[n].LeaveLoop? || es[n].CallFail?)
    ensures var s, o := After(es[..n]), After(es).h.outcomes[k];
      && o.call == s.h.call && o.acceptedAt == s.h.acceptedAt
      && (o.reply.Some? <==> es[n].LeaveLoop? && s.sock.open && !TimerFired(es[..n])
                             && s.call.curReply.Some? && !IsReplyError(s.call.curReply.value))
      && (o.reply.Some? ==> o.reply == s.call.curReply)
  {
    n := OutcomeOrigin(es, k);
    TimedOutIffFired(es[..n]);
    hide ValidRun, After, IsReplyError, TimerFired;
  }

  lemma {:induction false} OutcomeOrigin(es: seq<Event>, k: nat) returns (n: nat)
    requires ValidRun(es) && k < |After(es).h.outcomes|
    ensures Decides(es, n, After(es).h.outcomes[k])
  {
    hide Can, Do, Deserved, InHand, ReplyInHand;
    if es == [] {
      assert false;
    } else {
      var j := |es| - 1;
      var s := After(es[..j]);
      OutcomesStep(s, es[j]);
      if k < |s.h.outcomes| {
        n := OutcomeOrigin(es[..j], k);
        DecidesLater(es, n, After(es).h.outcomes[k]);
      } else if es[j].CallReturn? {
        ReturnedWasInHand(s);
        n := HandDecided(es[..j]);
        DecidesLater(es, n, After(es).h.outcomes[k]);
      } else {
        n := j;
        if es[j].CallFail? { FailedWhenClosed(s); } else { ClosedDeservesNothing(s); }
      }
    }
  }

  // ---- each call returns once ------------------------------------------------------

  /** No call is in progress or about to return. */
  predicate Over(s: State) {
    !s.call.inNested && !InHand(s.stack)
  }

  ghost predicate HasReturned(h: History, i: nat) {
    exists o :: o in h.outcomes && o.call == i
  }

  /**
   Calls are numbered by the messages that make them; all but the latest have
   returned, each of them once and in order, and the latest has when it is over.
   */
  ghost predicate CallsOk(h: History, over: bool) {
    && (forall i: nat :: IsRequest(h.pushed, i) ==> i <= h.call)
    && (forall j, k :: 0 <= j < k < |h.outcomes| ==> h.outcomes[j].call < h.outcomes[k].call)
    && (forall o :: o in h.outcomes ==> IsRequest(h.pushed, o.call) && (o.call == h.call ==> over))
    && (!over ==> IsRequest(h.pushed, h.call))
    && (forall i: nat :: IsRequest(h.pushed, i) && (over || i != h.call) ==> HasReturned(h, i))
  }

  ghost predicate CallsInv(s: State) {
    CallsOk(s.h, Over(s))
  }

  lemma OverElsewhere(s: State, e: Event)
    requires StackInv(s) && Can(s, e) && !e.SendSync?
    ensures Over(ByApplication(s, e)) == Over(ByLoop(s, e)) == Over(ByDispatch(s, e)) == Over(s)
  {
    hide KindOf, WellFormed, Partial, IsWhole, Missing, Frame, Finish, Mark, Id, Marked, Has, Nested, HasCall, HasWaiting;
    Popped(s.stack);
    if s.stack.Push? { Popped(s.stack.below); }
  }

  lemma OverTransfers(s: State, e: Event)
    requires StackInv(s) && Can(s, e)
    ensures Over(BySending(s, e)) == Over(s)
    ensures e.Got? || e.Complete? || e.RecvAgain? || e.RecvErr? ==> Over(ByReading(s, e)) == Over(s)
  {
    hide KindOf, WellFormed, Partial, IsWhole, Missing, Frame, Finish, Id, Marked, Has, Nested, HasCall, HasWaiting;
    Popped(s.stack);
    if s.stack.Push? { Popped(s.stack.below); }
  }

  lemma OverByCall(s: State, e: Event)
    requires StackInv(s) && Can(s, e) && (e.EnterLoop? || e.CallFail? || e.LeaveLoop? || e.CallReturn?)
    ensures !Over(s) && Over(ByCall(s, e)) == (Recorded(s, e) != [])
  {
    hide KindOf, WellFormed, Partial, IsWhole, Missing, Frame, Id, IsReplyError, Marked, Has, Nested, HasCall, HasWaiting;
    Popped(s.stack);
    if s.stack.Push? { Popped(s.stack.below); }
  }

  lemma OverStep(s: State, e: Event)
    requires StackInv(s) && Can(s, e) && !e.SendSync?
    ensures Over(Do(s, e)) == (Over(s) || Recorded(s, e) != []) && (Recorded(s, e) != [] ==> !Over(s))
  {
    hide Can, StackInv, ByApplication, ByLoop, BySending, ByReading, ByDispatch, ByCall, Over;
    OverElsewhere(s, e);
    OverTransfers(s, e);
    if e.EnterLoop? || e.CallFail? || e.LeaveLoop? || e.CallReturn? { OverByCall(s, e); }
  }

  lemma LatestCall(s: State, e: Event)
    requires Can(s, e) && !e.SendSync?
    ensures Do(s, e).h.call == s.h.call
  {
    hide KindOf, WellFormed, Partial, IsWhole, Missing, Frame, Finish, Mark, Id, IsReplyError, Marked, Has;
  }

  lemma CallMarked(s: State, e: Event)
    requires StackInv(s) && Can(s, e) && e.SendSync?
    ensures Over(s) && !Over(Do(s, e)) && Do(s, e).h.call == |s.h.pushed| && Do(s, e).h.outcomes == s.h.outcomes
    ensures Do(s, e).h.pushed == s.h.pushed + [Mark(e.msg, SyncBit)] && KindOf(Mark(e.msg, SyncBit)) == Request
  {
    MarkKeepsForm(e.msg);
    hide KindOf, WellFormed, Mark, Id, Nested, HasCall, HasWaiting;
  }

  lemma Returned(h: History, h': History, over: bool, o: Outcome)
    requires CallsOk(h, over) && !over && o.call == h.call && h'.call == h.call && h'.outcomes == h.outcomes + [o]
    requires h'.pushed == h.pushed
    ensures CallsOk(h', true)
  {
    hide KindOf;
    assert o in h'.outcomes;
    forall i: nat | IsRequest(h'.pushed, i)
      ensures HasReturned(h', i)
    {
      if i != h.call {
        var p :| p in h.outcomes && p.call == i;
        assert p in h'.outcomes;
      }
    }
  }

  lemma NothingReturned(h: History, h': History, over: bool)
    requires CallsOk(h, over) && h'.call == h.call && h'.outcomes == h.outcomes && h.pushed <= h'.pushed
    requires forall i: nat :: IsRequest(h'.pushed, i) ==> IsRequest(h.pushed, i)
    ensures CallsOk(h', over)
  {
    hide KindOf;
    assert forall i: nat :: HasReturned(h, i) ==> HasReturned(h', i);
    assert forall i: nat :: IsRequest(h.pushed, i) ==> IsRequest(h'.pushed, i);
  }

  lemma CallBegan(h: History, h': History, m: Msg)
    requires CallsOk(h, true) && h'.call == |h.pushed| && h'.outcomes == h.outcomes && h'.pushed == h.pushed + [m] && KindOf(m) == Request
    ensures CallsOk(h', false)
  {
    hide KindOf;
    assert forall i: nat :: HasReturned(h, i) ==> HasReturned(h', i);
    assert forall i: nat :: IsRequest(h'.pushed, i) && i != h'.call ==> IsRequest(h.pushed, i);
    assert forall i: nat :: IsRequest(h.pushed, i) ==> IsRequest(h'.pushed, i);
    assert IsRequest(h'.pushed, h'.call);
  }

  lemma CallsStep(s: State, e: Event)
    requires Inv(s) && CallsInv(s) && Can(s, e)
    ensures CallsInv(Do(s, e))
  {
    hide Can, Do, Inv, Over, CallsOk, KindOf, Mark, Recorded;
    InvParts(s);
    if e.SendSync? {
      CallMarked(s, e);
      CallBegan(s.h, Do(s, e).h, Mark(e.msg, SyncBit));
    } else {
      OverStep(s, e);
      OutcomesStep(s, e);
      LatestCall(s, e);
      PushedNoRequest(s, e);
      if Recorded(s, e) == [] {
        NothingReturned(s.h, Do(s, e).h, Over(s));
      } else {
        RecordsThisCall(s, e);
        Returned(s.h, Do(s, e).h, Over(s), Recorded(s, e)[0]);
      }
    }
  }

  lemma RecordsThisCall(s: State, e: Event)
    requires Can(s, e) && Recorded(s, e) != []
    ensures Recorded(s, e) == [Recorded(s, e)[0]] && Recorded(s, e)[0].call == s.h.call && Do(s, e).h.pushed == s.h.pushed
  {
    LedgerStep(s, e);
    hide Can, Do;
  }

  /** In every run each call has returned once when the next is made, and in the order in which they were made. */
  lemma {:induction false} EachCallReturnsOnce(es: seq<Event>)
    requires ValidRun(es)
    ensures CallsInv(After(es))
  {
    hide Can, Do, Inv;
    if es != [] {
      EachCallReturnsOnce(es[..|es| - 1]);
      RunInv(es[..|es| - 1]);
      hide CallsInv;
      CallsStep(After(es[..|es| - 1]), es[|es| - 1]);
    }
  }
}
