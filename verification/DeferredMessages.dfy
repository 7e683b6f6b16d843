/**
 What becomes of asynchronous messages that arrive during a call: the idle source
 delivers them afterwards, unless the connection is lost first.
 */
module DeferredMessages {
  import opened Endpoint
  import opened EndpointEffects
  import opened EndpointInvariants
  import opened Framing
  import opened Messages
  import opened Protocol

  /** Back in the main loop with messages deferred, the idle source is armed, unless it has reported a loss. */
  lemma DeferredHaveDispatcher(s: State)
    requires Inv(s) && s.stack.Empty? && s.queue != []
    ensures s.dispatcher == Armed || s.dispatcher == Spent
    ensures s.sock.open ==> s.dispatcher == Armed
  {
    IdleFacts(s);
    hide Nested, SendOk, ReceiveOk, Ledger, OutcomeInv, OrderInv, Has;
  }

  // ---- before and behind the marker of a loss --------------------------------------

  predicate HasMarker(q: seq<Msg>) {
    q != [] && (Has(q[0], DisconnectBit) || HasMarker(q[1..]))
  }

  function Before(q: seq<Msg>): seq<Msg> {
    if q == [] || Has(q[0], DisconnectBit) then [] else [q[0]] + Before(q[1..])
  }

  function Behind(q: seq<Msg>): seq<Msg> {
    if q == [] then [] else if Has(q[0], DisconnectBit) then q[1..] else Behind(q[1..])
  }

  lemma {:induction false} NoneBehind(q: seq<Msg>)
    requires forall m :: m in q ==> !Has(m, DisconnectBit)
    ensures !HasMarker(q) && Before(q) == q && Behind(q) == []
  {
    hide Has;
    if q != [] {
      assert q == [q[0]] + q[1..];
      NoneBehind(q[1..]);
    }
  }

  // ---- the idle source delivers -----------------------------------------------------

  /** `t` is `s` after its idle source ran to the end, each handler returning at once. */
  predicate Dispatched(s: State, t: State) {
    && t.stack.Empty? && t.h.delivered == s.h.delivered + Before(s.queue) && t.queue == Behind(s.queue)
    && t.dispatcher == if HasMarker(s.queue) then Spent else NoSource
  }

  /** Everything in front of a loss is delivered, in order. */
  lemma IdleSourceDelivers(s: State) returns (es: seq<Event>)
    requires s.stack.Empty? && s.dispatcher == Armed
    ensures Follow(s, es) && Dispatched(s, Finally(s, es))
  {
    OnWakeIdle(s);
    hide Can, Do;
    var rest := DispatchQueue(Do(s, WakeIdle));
    es := [WakeIdle] + rest;
    assert es[1..] == rest;
  }

  lemma {:induction false} DispatchQueue(s: State) returns (es: seq<Event>)
    requires s.stack == Push(Dispatching(true), Empty)
    ensures Follow(s, es) && Dispatched(s, Finally(s, es))
    decreases |s.queue|
  {
    hide Can, Do, Has;
    if s.queue == [] {
      OnDispatchEnd(s, true);
      es := [DispatchEnd];
      assert es[1..] == [];
      assert Follow(Do(s, DispatchEnd), []);
    } else if Has(s.queue[0], DisconnectBit) {
      OnReportLoss(s, true);
      es := [ReportLoss];
      assert es[1..] == [];
      assert Follow(Do(s, ReportLoss), []);
    } else {
      OnDeliver(s);
      var s1 := Do(s, Deliver);
      OnDeliverEnd(s1);
      var s2 := Do(s1, DeliverEnd);
      var rest := DispatchQueue(s2);
      es := [Deliver, DeliverEnd] + rest;
      assert es[1..] == [DeliverEnd] + rest && es[1..][1..] == rest;
      var q := s.queue;
      assert s.h.delivered + ([q[0]] + Before(q[1..])) == (s.h.delivered + [q[0]]) + Before(q[1..]);
    }
  }

  // ---- what a loss leaves behind ------------------------------------------------------

  predicate NoReading(k: Stack) {
    k.Push? ==> !k.top.Reading? && NoReading(k.below)
  }

  /**
   The connection is lost and no read loop is on: of what was deferred, `mine`
   will have been delivered in the end and `rest` stays behind.
   */
  ghost predicate Sealed(s: State, mine: seq<Msg>, rest: seq<Msg>) {
    && !s.sock.open && NoReading(s.stack)
    && if s.dispatcher == Spent then s.h.delivered == mine && s.queue == rest
       else HasMarker(s.queue) && s.h.delivered + Before(s.queue) == mine && Behind(s.queue) == rest
  }

  lemma NotReading(a: Activity, k: Stack)
    ensures NoReading(Push(a, k)) == (!a.Reading? && NoReading(k))
  {}

  predicate SameQueue(s: State, t: State) {
    t.queue == s.queue && t.h.delivered == s.h.delivered && t.dispatcher == s.dispatcher
  }

  lemma QuietWhenLost(s: State, e: Event)
    requires Can(s, e) && !s.sock.open && NoReading(s.stack)
    ensures var t := ByApplication(s, e); SameQueue(s, t) && NoReading(t.stack) && !t.sock.open
    ensures var t := ByLoop(s, e); SameQueue(s, t) && NoReading(t.stack) && !t.sock.open
    ensures var t := BySending(s, e); SameQueue(s, t) && NoReading(t.stack) && !t.sock.open
    ensures var t := ByCall(s, e); SameQueue(s, t) && NoReading(t.stack) && !t.sock.open
  {
    hide KindOf, WellFormed, Partial, IsWhole, Missing, Frame, Mark, Id, IsReplyError, Marked, Has, NoReading;
    if s.stack.Push? {
      NotReading(s.stack.top, s.stack.below);
      NotReading(Waiting, s.stack.below);
      if s.stack.below.Push? { NotReading(s.stack.below.top, s.stack.below.below); }
    }
    NotReading(Flushing, s.stack);
    NotReading(Dispatching(true), s.stack);
    if e.SendSync? {
      NotReading(Calling(e.timed), s.stack);
      NotReading(Flushing, Push(Calling(e.timed), s.stack));
    }
  }

  lemma NoReadsWhenLost(s: State, e: Event)
    requires Can(s, e) && NoReading(s.stack)
    ensures !e.Got? && !e.Complete? && !e.RecvAgain? && !e.RecvErr?
  {
    hide IsWhole, Missing, Partial, WellFormed, KindOf, Has, Frame;
  }

  lemma QuietHandling(s: State, e: Event)
    requires Can(s, e) && !s.sock.open && NoReading(s.stack) && (e.ServeEnd? || e.DeliverEnd?)
    ensures var t := ByDispatch(s, e); SameQueue(s, t) && NoReading(t.stack) && !t.sock.open
  {
    NotReading(s.stack.top, s.stack.below);
    NotReading(Flushing, s.stack.below);
    hide NoReading, Finish, WellFormed, KindOf, Has, Frame, IsWhole, Missing, Partial;
  }

  lemma SealedDelivery(s: State, mine: seq<Msg>, rest: seq<Msg>)
    requires Inv(s) && Can(s, Deliver) && Sealed(s, mine, rest)
    ensures Sealed(ByDispatch(s, Deliver), mine, rest)
  {
    if s.dispatcher == Spent { SpentOnlySends(s); }
    NotReading(Delivering, s.stack);
    var q, d := s.queue, s.h.delivered;
    assert d + ([q[0]] + Before(q[1..])) == (d + [q[0]]) + Before(q[1..]);
    hide Inv, NoReading, Finish, WellFormed, KindOf, Has, Frame, IsWhole, Missing, Partial;
  }

  lemma SealedEnd(s: State, e: Event, mine: seq<Msg>, rest: seq<Msg>)
    requires Inv(s) && Can(s, e) && Sealed(s, mine, rest) && (e.ReportLoss? || e.DispatchEnd?)
    ensures Sealed(ByDispatch(s, e), mine, rest)
  {
    IdleOnly(s);
    if s.dispatcher == Spent { SpentOnlySends(s); }
    NotReading(s.stack.top, s.stack.below);
    assert s.h.delivered + [] == s.h.delivered;
    hide Inv, NoReading, Finish, WellFormed, KindOf, Has, Frame, IsWhole, Missing, Partial;
  }

  /** Without a read loop only the idle source dispatches. */
  lemma IdleOnly(s: State)
    requires Inv(s) && NoReading(s.stack) && s.stack.Push? && s.stack.top.Dispatching?
    ensures s.stack.top.idle
  {
    Popped(s.stack);
    hide Inv, Nested, HasCall, HasWaiting;
  }

  lemma SpentOnlySends(s: State)
    requires Inv(s) && s.dispatcher == Spent
    ensures OnlySends(s.stack)
  {}

  lemma SealedStep(s: State, e: Event, mine: seq<Msg>, rest: seq<Msg>)
    requires Inv(s) && Can(s, e) && Sealed(s, mine, rest)
    ensures Sealed(Do(s, e), mine, rest)
  {
    hide Can, Inv, ByApplication, ByLoop, BySending, ByReading, ByDispatch, ByCall, NoReading, HasMarker, Before, Behind;
    NoReadsWhenLost(s, e);
    if e.Deliver? {
      SealedDelivery(s, mine, rest);
    } else if e.ReportLoss? || e.DispatchEnd? {
      SealedEnd(s, e, mine, rest);
    } else if e.ServeEnd? || e.DeliverEnd? {
      QuietHandling(s, e);
    } else {
      QuietWhenLost(s, e);
    }
  }

  /**
   Once the connection is lost and no read loop is on, exactly the messages
   queued in front of the loss can still reach the listener: whatever happens,
   those behind it never do.  (IdleSourceDelivers brings the others.)
   */
  lemma {:induction false} BehindLossNeverDelivered(s: State, es: seq<Event>, mine: seq<Msg>, rest: seq<Msg>)
    requires Inv(s) && Sealed(s, mine, rest) && Follow(s, es)
    ensures Sealed(Finally(s, es), mine, rest)
    ensures Finally(s, es).h.delivered <= mine
    decreases |es|
  {
    hide Can, Do, Inv, NoReading, HasMarker, Before, Behind;
    if es != [] {
      InvStep(s, es[0]);
      SealedStep(s, es[0], mine, rest);
      BehindLossNeverDelivered(Do(s, es[0]), es[1..], mine, rest);
    }
  }

  /**
   A loss divides what is deferred: back in the main loop, the messages in
   front of it are delivered by the idle source, and no run delivers more.
   */
  lemma LossDividesQueue(s: State) returns (es: seq<Event>)
    requires Inv(s) && s.stack.Empty? && !s.sock.open && s.dispatcher == Armed && HasMarker(s.queue)
    ensures Follow(s, es) && Finally(s, es).h.delivered == s.h.delivered + Before(s.queue)
    ensures forall fs: seq<Event> :: Follow(s, fs) ==> Finally(s, fs).h.delivered <= s.h.delivered + Before(s.queue)
  {
    es := IdleSourceDelivers(s);
    forall fs: seq<Event> | Follow(s, fs)
      ensures Finally(s, fs).h.delivered <= s.h.delivered + Before(s.queue)
    {
      BehindLossNeverDelivered(s, fs, s.h.delivered + Before(s.queue), Behind(s.queue));
    }
  }

  /** A loss found outside the read loop leaves all deferred messages behind. */
  lemma LossLeavesAllBehind(s: State, e: Event)
    requires Inv(s) && NoReading(s.stack) && s.sock.open && Can(s, e) && (e.WakeHup? || e.SendErr?)
    ensures Sealed(Do(s, e), s.h.delivered, s.queue)
  {
    if s.stack.Push? { NotReading(s.stack.top, s.stack.below); }
    MarkerInFront(s.queue);
    OpenNotSpent(s);
    hide Inv, NoReading, Has, Frame, WellFormed, KindOf, Partial, IsWhole, Missing, Before, Behind, HasMarker;
    assert s.h.delivered + [] == s.h.delivered;
  }

  lemma MarkerInFront(q: seq<Msg>)
    ensures HasMarker(Marked(q)) && Before(Marked(q)) == [] && Behind(Marked(q)) == q
  {
    assert Marked(q)[1..] == q;
  }
}
