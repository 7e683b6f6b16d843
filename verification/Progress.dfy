/**
 Everything gets done: from every reachable state of two open ends, any schedule
 of the pipes, the event loops and returning handlers comes to an end, and it can
 only end with both ends at rest, all messages delivered and all calls returned.
 A measure of what is left to do falls with every step.
 */
module Progress {
  import opened Endpoint
  import opened EndpointEffects
  import opened EndpointInvariants
  import opened Framing
  import opened Link
  import opened Messages
  import opened Options
  import opened Outcomes
  import opened Protocol

  // ---- steps that count -------------------------------------------------------

  /**
   Steps that need no new work from the application, no timeout and no error.
   ServeEnd and DeliverEnd are among them: handlers are taken to return.
   */
  predicate Unaided(e: Event) {
    && !e.SendAsync? && !e.SendSync? && !e.SendReply? && !e.Drain?
    && !e.WakeHup? && !e.WakeTimeout? && !e.SendErr? && !e.RecvErr?
  }

  /** The sockets tell the truth: loops wake only for what is there, and only an empty or full pipe would block. */
  predicate Genuine(me: State, peer: State, e: Event, capacity: nat) {
    match e
    case WakeIn => |me.h.got| < |peer.h.sent|
    case RecvAgain => |me.h.got| == |peer.h.sent|
    case WakeOut => |me.h.sent| < |peer.h.got| + capacity
    case SendAgain => |me.h.sent| >= |peer.h.got| + capacity
    case _ => true
  }

  predicate Advance(l: Link, t: Turn, capacity: nat) {
    CanMove(l, t.side, t.event, capacity) && Unaided(t.event) && Genuine(At(l, t.side), At(l, Other(t.side)), t.event, capacity)
  }

  // ---- what is left to do --------------------------------------------------------

  /** The requests of `x` that `y` has not answered. */
  function Asked(x: State, y: State): set<nat> {
    set i: nat | i < |x.h.pushed| && IsRequest(x.h.pushed, i) && i !in y.h.replyTo
  }

  /** The thread of `x` is about to move a byte. */
  predicate Moving(x: State, y: State, capacity: nat) {
    || (ReadUnfinished(x) && |x.h.got| < |y.h.sent|)
    || (SendUnfinished(x) && |x.h.sent| < |y.h.got| + capacity)
  }

  function Rest(x: State, y: State, capacity: nat): nat {
    if Moving(x, y, capacity) then 0 else 1
  }

  /** Bytes to send count twice as much as bytes to read, and a thread about to move one counts as ahead. */
  function ByteWork(x: State, y: State, capacity: nat): int {
    4 * (|Frames(x.h.pushed)| - |x.h.sent|) + 4 * (|Frames(y.h.pushed)| - |y.h.sent|)
    + 2 * (|x.h.sent| - |y.h.got|) + 2 * (|y.h.sent| - |x.h.got|)
    + Rest(x, y, capacity) + Rest(y, x, capacity)
  }

  /** Messages to take off the queues and to complete. */
  function MessageWork(x: State, y: State): int {
    |x.outgoing| + |y.outgoing| + (|x.h.pushed| - |y.h.completed|) + (|y.h.pushed| - |x.h.completed|)
  }

  function Weight(a: Activity): nat {
    match a
    case Calling(_) => 7
    case Waiting => 6
    case _ => 1
  }

  function StackWork(k: Stack): nat {
    if k.Empty? then 0 else Weight(k.top) + StackWork(k.below)
  }

  predicate HasIdle(k: Stack) {
    k.Push? && (k.top == Dispatching(true) || HasIdle(k.below))
  }

  /** Calls to return from, and an idle source that has yet to run. */
  function TaskWork(s: State): nat {
    StackWork(s.stack) + if s.dispatcher == Armed && !HasIdle(s.stack) then 2 else 0
  }

  /** The pair with less to do comes first: requests to answer, then bytes, messages, deferred messages, and calls to return from. */
  predicate Less(x': State, y': State, x: State, y: State, capacity: nat) {
    var a, b, a', b' := Asked(x, y), Asked(y, x), Asked(x', y'), Asked(y', x');
    || (a' <= a && b' <= b && (a' != a || b' != b))
    || (a' == a && b' == b &&
        (|| ByteWork(x', y', capacity) < ByteWork(x, y, capacity)
         || (ByteWork(x', y', capacity) == ByteWork(x, y, capacity) &&
             (|| MessageWork(x', y') < MessageWork(x, y)
              || (MessageWork(x', y') == MessageWork(x, y) &&
                  (|| |x'.queue| + |y'.queue| < |x.queue| + |y.queue|
                   || (|x'.queue| + |y'.queue| == |x.queue| + |y.queue|
                       && TaskWork(x') + TaskWork(y') < TaskWork(x) + TaskWork(y))))))))
  }

  /** The first two components, on which most steps agree or improve. */
  predicate NoMoreBytes(x': State, y': State, x: State, y: State, capacity: nat) {
    Asked(x', y') == Asked(x, y) && Asked(y', x') == Asked(y, x) && ByteWork(x', y', capacity) <= ByteWork(x, y, capacity)
  }

  predicate LessThen(x': State, y': State, x: State, y: State) {
    || MessageWork(x', y') < MessageWork(x, y)
    || (MessageWork(x', y') == MessageWork(x, y) &&
        (|| |x'.queue| + |y'.queue| < |x.queue| + |y.queue|
         || (|x'.queue| + |y'.queue| == |x.queue| + |y.queue| && TaskWork(x') + TaskWork(y') < TaskWork(x) + TaskWork(y))))
  }

  lemma LessWhen(x': State, y': State, x: State, y: State, capacity: nat)
    requires NoMoreBytes(x', y', x, y, capacity)
    requires ByteWork(x', y', capacity) < ByteWork(x, y, capacity) || LessThen(x', y', x, y)
    ensures Less(x', y', x, y, capacity)
  {
    hide Asked, ByteWork, MessageWork, TaskWork;
  }

  lemma LessSymmetric(x': State, y': State, x: State, y: State, capacity: nat)
    requires Less(x', y', x, y, capacity)
    ensures Less(y', x', y, x, capacity)
  {
    hide Asked, TaskWork, Frames, Rest;
  }

  lemma SentWithinFrames(s: State)
    requires SendInv(s)
    ensures |s.h.sent| <= |Frames(s.h.pushed)|
  {
    hide Frame, Frames, WellFormed, MaySend;
    if s.outgoing != [] {
      var k := |s.h.pushed| - |s.outgoing|;
      FramesConcat(s.h.pushed[..k], s.outgoing);
      assert s.h.pushed == s.h.pushed[..k] + s.outgoing;
      HeadFrame(s.outgoing);
    }
  }

  lemma WorkIsBounded(x: State, y: State, capacity: nat)
    requires Paired(x, y)
    ensures ByteWork(x, y, capacity) >= 0 && MessageWork(x, y) >= 0
  {
    SentWithinFrames(x);
    SentWithinFrames(y);
    PairSymmetric(x, y);
    CompletedIsPrefixOfPushed(x, y);
    CompletedIsPrefixOfPushed(y, x);
    PipesHold(x, y);
    hide Paired, Frames, Rest;
  }

  lemma PipesHold(x: State, y: State)
    requires Paired(x, y)
    ensures |x.h.got| <= |y.h.sent| && |y.h.got| <= |x.h.sent|
  {
    hide Inv, NotCrossed, Awaited;
  }

  // ---- each step leaves less to do ---------------------------------------------------

  lemma StackWorkPushed(a: Activity, k: Stack)
    ensures StackWork(Push(a, k)) == Weight(a) + StackWork(k)
    ensures HasIdle(Push(a, k)) == (a == Dispatching(true) || HasIdle(k))
  {}

  /** Steps that only return from something, and the idle source. */
  predicate Returns(e: Event) {
    || e.SendAgain? || e.FlushEnd? || e.RecvAgain? || e.DeliverEnd? || e.DispatchEnd? || e.EnterLoop? || e.LeaveLoop? || e.CallReturn?
    || e.WakeIdle?
  }

  predicate SameWork(s: State, t: State) {
    t.h.pushed == s.h.pushed && t.h.sent == s.h.sent && t.h.got == s.h.got && t.h.completed == s.h.completed
    && t.h.replyTo == s.h.replyTo && t.outgoing == s.outgoing && t.queue == s.queue
  }

  lemma ReturnsFromSending(s: State, e: Event)
    requires Can(s, e) && (e.SendAgain? || e.FlushEnd?)
    ensures SameWork(s, BySending(s, e)) && TaskWork(BySending(s, e)) < TaskWork(s)
  {
    hide Frame, StackWork, HasIdle;
    StackWorkPushed(s.stack.top, s.stack.below);
  }

  lemma ReturnsFromHandling(s: State, e: Event)
    requires Can(s, e) && (e.DeliverEnd? || e.DispatchEnd?)
    ensures SameWork(s, ByDispatch(s, e)) && TaskWork(ByDispatch(s, e)) < TaskWork(s)
  {
    hide Has, StackWork, HasIdle, Finish;
    StackWorkPushed(s.stack.top, s.stack.below);
  }

  lemma ReturnsFromCall(s: State, e: Event)
    requires Can(s, e) && (e.EnterLoop? || e.CallReturn?)
    ensures SameWork(s, ByCall(s, e)) && TaskWork(ByCall(s, e)) < TaskWork(s)
  {
    hide StackWork, HasIdle, IsReplyError;
    StackWorkPushed(s.stack.top, s.stack.below);
    StackWorkPushed(Waiting, s.stack.below);
  }

  lemma ReturnsFromLoop(s: State)
    requires Can(s, LeaveLoop)
    ensures SameWork(s, ByCall(s, LeaveLoop)) && TaskWork(ByCall(s, LeaveLoop)) < TaskWork(s)
  {
    hide StackWork, HasIdle, Result;
    StackWorkPushed(s.stack.top, s.stack.below);
    StackWorkPushed(Returning(Result(s)), s.stack.below);
    StackWorkPushed(Flushing, Push(Returning(Result(s)), s.stack.below));
  }

  lemma ReturnsFromReading(s: State)
    requires Can(s, RecvAgain)
    ensures SameWork(s, ByReading(s, RecvAgain)) && TaskWork(ByReading(s, RecvAgain)) < TaskWork(s)
  {
    hide StackWork, HasIdle, IsWhole;
    StackWorkPushed(s.stack.top, s.stack.below);
  }

  lemma IdleRuns(s: State)
    requires Can(s, WakeIdle)
    ensures SameWork(s, ByLoop(s, WakeIdle)) && TaskWork(ByLoop(s, WakeIdle)) < TaskWork(s)
  {
    StackWorkPushed(Dispatching(true), s.stack);
  }

  lemma ReturningStep(s: State, e: Event)
    requires Can(s, e) && Returns(e)
    ensures SameWork(s, Do(s, e)) && TaskWork(Do(s, e)) < TaskWork(s)
  {
    hide Can, ByApplication, ByLoop, BySending, ByReading, ByDispatch, ByCall, TaskWork, SameWork;
    if e.SendAgain? || e.FlushEnd? {
      ReturnsFromSending(s, e);
    } else if e.DeliverEnd? || e.DispatchEnd? {
      ReturnsFromHandling(s, e);
    } else if e.RecvAgain? {
      ReturnsFromReading(s);
    } else if e.WakeIdle? {
      IdleRuns(s);
    } else if e.LeaveLoop? {
      ReturnsFromLoop(s);
    } else {
      ReturnsFromCall(s, e);
    }
  }

  /** Only moving a byte ends being about to move one. */
  lemma MovingMoves(x: State, y: State, e: Event, capacity: nat)
    requires Can(x, e) && Unaided(e) && Genuine(x, y, e, capacity) && Moving(x, y, capacity)
    ensures e.Sent? || e.Got?
  {
    hide Frame, IsWhole, Missing, Partial, Has;
  }

  /** A step with the same bytes does not undo what moves are ahead. */
  lemma BytesStay(x: State, y: State, e: Event, t: State, capacity: nat)
    requires Can(x, e) && Unaided(e) && Genuine(x, y, e, capacity) && !e.Sent? && !e.Got?
    requires t.h.pushed == x.h.pushed && t.h.sent == x.h.sent && t.h.got == x.h.got
    requires Asked(t, y) == Asked(x, y) && Asked(y, t) == Asked(y, x)
    ensures NoMoreBytes(t, y, x, y, capacity)
    ensures Moving(t, y, capacity) && !Moving(x, y, capacity) ==> ByteWork(t, y, capacity) < ByteWork(x, y, capacity)
  {
    if Moving(x, y, capacity) { MovingMoves(x, y, e, capacity); }
    assert Moving(y, t, capacity) == Moving(y, x, capacity) by { hide IsWhole, MaySend, Frame; }
    hide Asked, Moving, Frames, Can, Genuine;
  }

  lemma ReturningLess(x: State, y: State, e: Event, capacity: nat)
    requires Can(x, e) && Unaided(e) && Genuine(x, y, e, capacity) && Returns(e)
    ensures Less(Do(x, e), y, x, y, capacity)
  {
    ReturningStep(x, e);
    SameAsked(x, y, Do(x, e));
    hide Do, Can, Asked, ByteWork, TaskWork, Unaided, Genuine, Less;
    BytesStay(x, y, e, Do(x, e), capacity);
    LessWhen(Do(x, e), y, x, y, capacity);
  }

  lemma SameAsked(x: State, y: State, t: State)
    requires t.h.pushed == x.h.pushed && t.h.replyTo == x.h.replyTo
    ensures Asked(t, y) == Asked(x, y) && Asked(y, t) == Asked(y, x)
  {}

  /** A step that answers nothing asks nothing: the open requests stay the same. */
  lemma AskedStays(x: State, y: State, e: Event)
    requires Inv(x) && Can(x, e) && Unaided(e) && !e.ServeEnd?
    ensures Asked(Do(x, e), y) == Asked(x, y) && Asked(y, Do(x, e)) == Asked(y, x)
    ensures Do(x, e).h.pushed == x.h.pushed
  {
    LedgerStep(x, e);
    hide Do, Can, Inv, KindOf;
    SameAsked(x, y, Do(x, e));
  }

  lemma GotSome(s: State, e: Event)
    requires Can(s, e)
    ensures e.Sent? ==> e.n > 0
    ensures e.Got? ==> |e.data| > 0
  {
    hide Frame, IsWhole, Missing, Partial;
  }

  /** More bytes sent or read on this side only help the other. */
  lemma MovingStays(x: State, y: State, t: State, capacity: nat)
    requires |t.h.sent| >= |x.h.sent| && |t.h.got| >= |x.h.got|
    ensures Moving(y, x, capacity) ==> Moving(y, t, capacity)
  {
    hide ReadUnfinished, SendUnfinished;
  }

  lemma BytesMoved(x: State, y: State, e: Event, capacity: nat)
    requires Inv(x) && Can(x, e) && (e.Sent? || e.Got?)
    ensures Less(Do(x, e), y, x, y, capacity)
  {
    AskedStays(x, y, e);
    StreamStep(x, e);
    GotSome(x, e);
    hide Do, Can, Inv, Asked, Frames, Moving, TaskWork;
    MovingStays(x, y, Do(x, e), capacity);
  }

  lemma MessageLess(x: State, y: State, e: Event, capacity: nat)
    requires Inv(x) && Can(x, e) && (e.FrameDone? || e.Complete?)
    ensures Less(Do(x, e), y, x, y, capacity)
  {
    AskedStays(x, y, e);
    StreamStep(x, e);
    LedgerStep(x, e);
    DepartedStep(x, e);
    hide Do, Can, Inv, Asked, IsWhole, ByteWork, TaskWork, Less;
    BytesStay(x, y, e, Do(x, e), capacity);
    LessWhen(Do(x, e), y, x, y, capacity);
  }

  lemma DeliverLess(x: State, y: State, capacity: nat)
    requires Inv(x) && Can(x, Deliver)
    ensures Less(Do(x, Deliver), y, x, y, capacity)
  {
    AskedStays(x, y, Deliver);
    DeliverTakes(x);
    StreamStep(x, Deliver);
    LedgerStep(x, Deliver);
    hide Do, Can, Inv, Asked, ByteWork, TaskWork, Less;
    BytesStay(x, y, Deliver, Do(x, Deliver), capacity);
    LessWhen(Do(x, Deliver), y, x, y, capacity);
  }

  lemma DeliverTakes(s: State)
    requires Can(s, Deliver)
    ensures |Do(s, Deliver).queue| == |s.queue| - 1 && Do(s, Deliver).outgoing == s.outgoing
  {
    hide Has, Finish;
  }

  lemma ServedEffect(s: State)
    requires Inv(s) && Can(s, ServeEnd)
    ensures var t := Do(s, ServeEnd);
      |t.h.pushed| == |s.h.pushed| + 1 && s.h.pushed <= t.h.pushed && KindOf(t.h.pushed[|s.h.pushed|]) == Answer
      && t.h.replyTo == s.h.replyTo[s.stack.top.request := |s.h.pushed|]
    ensures s.stack.top.request in InService(s.stack)
  {
    InvParts(s);
    hide Do, Inv, KindOf, Finish, InService, WellFormed, Has, Id, IsReplyError, IsWhole, Frame, Missing, Partial, StackInv;
    FinishIsAnswer(s.slot, s.h.completed[s.stack.top.request]);
    ServingPushed(s.stack.top, s.stack.below);
    OnServeEnd(s);
  }

  lemma AnsweredLess(x: State, y: State, t: State, i: nat, capacity: nat)
    requires |t.h.pushed| == |x.h.pushed| + 1 && x.h.pushed <= t.h.pushed && KindOf(t.h.pushed[|x.h.pushed|]) == Answer
    requires IsRequest(y.h.pushed, i) && i !in x.h.replyTo && t.h.replyTo == x.h.replyTo[i := |x.h.pushed|]
    ensures Less(t, y, x, y, capacity)
  {
    hide KindOf, Frames, TaskWork, ByteWork;
    assert i in Asked(y, x) && i !in Asked(y, t);
    assert Asked(y, t) <= Asked(y, x) && Asked(t, y) == Asked(x, y);
  }

  /** The end of a service answers one more request of the peer. */
  lemma ServedLess(x: State, y: State, capacity: nat)
    requires Paired(x, y) && Can(x, ServeEnd)
    ensures Less(Do(x, ServeEnd), y, x, y, capacity)
  {
    OwnInv(x, y);
    ServedEffect(x);
    hide Do, Can, Paired, Inv, InService, Less, KindOf, IsRequest;
    BusyIsAsked(x, y, x.stack.top.request);
    AnsweredLess(x, y, Do(x, ServeEnd), x.stack.top.request, capacity);
  }

  lemma OwnInv(me: State, peer: State)
    requires Paired(me, peer)
    ensures Inv(me)
  {
    hide Inv;
  }

  lemma BusyIsAsked(x: State, y: State, i: nat)
    requires Paired(x, y) && i in InService(x.stack)
    ensures IsRequest(y.h.pushed, i) && i !in x.h.replyTo
  {
    CompletedIsPrefixOfPushed(x, y);
    BusyRequest(x.h, InService(x.stack), i);
    hide Paired, KindOf, InService;
  }

  lemma BusyRequest(h: History, busy: set<nat>, i: nat)
    requires Ledger(h, busy) && i in busy
    ensures IsRequest(h.completed, i) && i !in h.replyTo
  {
    hide KindOf, Id;
  }

  /** Who wakes for bytes has bytes to move. */
  lemma WakesToMove(x: State, y: State, e: Event, capacity: nat)
    requires Inv(x) && Can(x, e) && (e.WakeIn? || e.WakeOut?) && Genuine(x, y, e, capacity)
    ensures Moving(Do(x, e), y, capacity) && !Moving(x, y, capacity)
  {
    WakingFacts(x);
    if x.outgoing != [] { UnsentRemains(x); }
    hide Inv, IsWhole, Frame;
  }

  lemma WakingFacts(s: State)
    requires Inv(s) && AtLoop(s.stack)
    ensures !IsWhole(s.inBuf) && !MaySend(s)
    ensures s.sock.open && ActiveOut(s) ==> s.outgoing != []
  {
    hide IsWhole, Accepted, KindOf, Id, WellFormed, SendOk, ReceiveOk, Ledger, OutcomeInv, OrderInv, QueueInv, LossInv, SlotInv, Nested;
    Popped(s.stack);
  }

  lemma WakeLess(x: State, y: State, e: Event, capacity: nat)
    requires Inv(x) && Can(x, e) && (e.WakeIn? || e.WakeOut?) && Genuine(x, y, e, capacity)
    ensures Less(Do(x, e), y, x, y, capacity)
  {
    WakesToMove(x, y, e, capacity);
    AskedStays(x, y, e);
    StreamStep(x, e);
    hide Do, Can, Inv, Asked, ByteWork, TaskWork, Less, Moving, Genuine;
    BytesStay(x, y, e, Do(x, e), capacity);
    LessWhen(Do(x, e), y, x, y, capacity);
  }

  lemma NotWhenOpen(s: State, e: Event)
    requires Inv(s) && s.sock.open && Can(s, e)
    ensures !e.ReportLoss? && !e.CallFail?
  {
    if e.ReportLoss? { MarkerMeansClosed(s); }
    hide Inv, Has, WellFormed, KindOf, Frame, IsWhole, Missing, Partial;
  }

  /**
   Every step leaves less to do, whoever takes it: it answers a request, moves
   a byte or gets ready to, finishes a message, delivers one, or returns.
   */
  lemma StepLess(x: State, y: State, e: Event, capacity: nat)
    requires Paired(x, y) && x.sock.open && Can(x, e) && Unaided(e) && Genuine(x, y, e, capacity)
    ensures Less(Do(x, e), y, x, y, capacity)
  {
    NotWhenOpen(x, e);
    hide Do, Can, Inv, Less, Genuine;
    if e.ServeEnd? {
      ServedLess(x, y, capacity);
    } else if e.Sent? || e.Got? {
      BytesMoved(x, y, e, capacity);
    } else if e.FrameDone? || e.Complete? {
      MessageLess(x, y, e, capacity);
    } else if e.WakeIn? || e.WakeOut? {
      WakeLess(x, y, e, capacity);
    } else if e.Deliver? {
      DeliverLess(x, y, capacity);
    } else {
      ReturningLess(x, y, e, capacity);
    }
  }

  // ---- the schedule ---------------------------------------------------------------------

  /** What a thread outside its loops does next when its sockets answer truthfully and its handlers return. */
  function Next(x: State, y: State, capacity: nat): Event
    requires x.stack.Push?
  {
    match x.stack.top
    case Flushing =>
      if !MaySend(x) then FlushEnd
      else if x.outDone >= |Frame(x.outgoing[0])| then FrameDone
      else if |x.h.sent| < |y.h.got| + capacity then Sent(1)
      else SendAgain
    case Reading =>
      if IsWhole(x.inBuf) then Complete
      else if |x.h.got| < |y.h.sent| then Got([y.h.sent[|x.h.got|]])
      else RecvAgain
    case Serving(_) => ServeEnd
    case Dispatching(_) => if x.queue == [] then DispatchEnd else Deliver
    case Delivering => DeliverEnd
    case Calling(_) => EnterLoop
    case Waiting => LeaveLoop
    case Returning(_) => CallReturn
  }

  lemma NextFlushing(x: State, y: State, capacity: nat)
    requires Inv(x) && Top(x, Flushing)
    ensures Can(x, Next(x, y, capacity))
  {
    Protocol.FrontFits(x);
    hide Has, IsWhole, Frame, WellFormed, KindOf, Partial, Missing, Inv;
  }

  lemma NextByte(x: State, y: State)
    requires Paired(x, y) && x.sock.open && Top(x, Reading) && !IsWhole(x.inBuf) && |x.h.got| < |y.h.sent|
    ensures var data := [y.h.sent[|x.h.got|]]; InPipe(x, y, data) && Can(x, Got(data))
  {
    var data := [y.h.sent[|x.h.got|]];
    UnfinishedNeeds(x);
    hide Paired, Partial, IsWhole, Missing, Can;
    assert data <= y.h.sent[|x.h.got|..];
    PipedBytesAreAcceptable(x, y, data);
  }

  lemma NextReading(x: State, y: State, capacity: nat)
    requires Paired(x, y) && x.sock.open && Top(x, Reading)
    ensures Can(x, Next(x, y, capacity))
    ensures Next(x, y, capacity).Got? ==> InPipe(x, y, Next(x, y, capacity).data)
  {
    PipesHold(x, y);
    if !IsWhole(x.inBuf) && |x.h.got| < |y.h.sent| { NextByte(x, y); }
    hide *;
    ReadingOn(x, y, capacity);
  }

  lemma ReadingOn(x: State, y: State, capacity: nat)
    requires x.sock.open && Top(x, Reading) && |x.h.got| <= |y.h.sent|
    requires !IsWhole(x.inBuf) && |x.h.got| < |y.h.sent| ==>
      InPipe(x, y, [y.h.sent[|x.h.got|]]) && Can(x, Got([y.h.sent[|x.h.got|]]))
    ensures Can(x, Next(x, y, capacity))
    ensures Next(x, y, capacity).Got? ==> InPipe(x, y, Next(x, y, capacity).data)
  {
    hide Partial, IsWhole, Missing, InPipe, Frame, Has, WellFormed, KindOf;
  }

  lemma UnfinishedNeeds(x: State)
    requires Inv(x) && !IsWhole(x.inBuf)
    ensures Missing(x.inBuf) >= 1
  {
    UnfinishedNeedsBytes(x.h.completed, x.h.got, x.inBuf);
    hide Missing, IsWhole;
  }

  lemma NextHandling(x: State, y: State, capacity: nat)
    requires Inv(x) && x.sock.open && x.stack.Push? && (x.stack.top.Serving? || x.stack.top.Dispatching? || x.stack.top.Delivering?)
    ensures Can(x, Next(x, y, capacity))
  {
    if x.stack.top.Serving? { ServingIsReceived(x); }
    if x.queue != [] { assert x.queue[0] in x.queue; }
    hide Has, IsWhole, Frame, WellFormed, KindOf, Partial, Missing, SendOk, ReceiveOk, Ledger, Nested, OutcomeInv, OrderInv;
  }

  lemma NextCalling(x: State, y: State, capacity: nat)
    requires x.sock.open && x.stack.Push? && (x.stack.top.Calling? || x.stack.top.Returning? || (x.stack.top.Waiting? && x.call.quit))
    ensures Can(x, Next(x, y, capacity))
  {
    hide Has, IsWhole, Frame, WellFormed, KindOf, Partial, Missing;
  }

  lemma NextIsGenuine(x: State, y: State, capacity: nat)
    requires x.stack.Push? && |x.h.got| <= |y.h.sent|
    ensures var e := Next(x, y, capacity); Unaided(e) && Genuine(x, y, e, capacity)
    ensures var e := Next(x, y, capacity); e.Sent? ==> |x.h.sent| + e.n <= |y.h.got| + capacity
    ensures x.stack.top != Reading ==> !Next(x, y, capacity).Got?
  {
    hide IsWhole, MaySend, Frame;
  }

  /** A thread outside its loops has a step that a truthful socket allows. */
  lemma RunningThreadAdvances(l: Link, side: Side, capacity: nat)
    requires LinkInv(l) && !Sleeping(At(l, side)) && At(l, side).sock.open
    ensures At(l, side).stack.Push? && Advance(l, Turn(side, Next(At(l, side), At(l, Other(side)), capacity)), capacity)
  {
    var x, y := At(l, side), At(l, Other(side));
    PairSymmetric(l.left, l.right);
    PipesHold(x, y);
    NextIsGenuine(x, y, capacity);
    hide Can, Do, Inv, Next, Unaided, Genuine, InPipe, Piped, NotCrossed, Awaited;
    match x.stack.top {
      case Flushing => NextFlushing(x, y, capacity);
      case Reading => NextReading(x, y, capacity);
      case Serving(_) => NextHandling(x, y, capacity);
      case Dispatching(_) => NextHandling(x, y, capacity);
      case Delivering => NextHandling(x, y, capacity);
      case _ => NextCalling(x, y, capacity);
    }
  }

  predicate BothOpen(l: Link) {
    l.left.sock.open && l.right.sock.open
  }

  /** This end is in its main loop with everything received and delivered. */
  predicate AtRest(me: State, peer: State) {
    me.stack.Empty? && me.h.completed == peer.h.pushed && me.queue == []
  }

  predicate Done(l: Link) {
    AtRest(l.left, l.right) && AtRest(l.right, l.left)
  }

  lemma SleeperFacts(s: State)
    requires Inv(s) && Sleeping(s) && s.sock.open && !s.call.inNested
    ensures s.stack.Empty? && (s.queue != [] ==> s.dispatcher == Armed)
  {
    Popped(s.stack);
    hide Accepted, KindOf, Id, WellFormed, SendOk, ReceiveOk, Ledger, OutcomeInv, OrderInv, QueueInv, SlotInv, Nested, Partial, IsWhole;
  }

  lemma MoverAdvances(l: Link, side: Side, capacity: nat) returns (e: Event)
    requires LinkInv(l)
    requires var x, y := At(l, side), At(l, Other(side)); MayRead(x, y) || MayWrite(x, y, capacity)
    ensures Advance(l, Turn(side, e), capacity)
  {
    hide LinkInv, CanMove, Sleeping, ActiveOut;
    if MayRead(At(l, side), At(l, Other(side))) {
      var data := MayReadReads(l, side, capacity);
      e := WakeIn;
    } else {
      MayWriteWrites(l, side, capacity);
      e := WakeOut;
    }
  }

  lemma IdleAdvances(l: Link, side: Side, capacity: nat)
    requires At(l, side).stack.Empty? && At(l, side).dispatcher == Armed
    ensures Advance(l, Turn(side, WakeIdle), capacity)
  {
    hide WellFormed, KindOf, Has, Frame, IsWhole, Missing, Partial;
  }

  /** Two sleeping ends that are not done have bytes to move or messages to deliver. */
  lemma SleepersAdvance(l: Link, capacity: nat) returns (t: Turn)
    requires LinkInv(l) && BothOpen(l) && capacity >= 1 && Sleeping(l.left) && Sleeping(l.right) && !Done(l)
    ensures Advance(l, t, capacity)
  {
    var x, y := l.left, l.right;
    PairSymmetric(x, y);
    CompletedIsPrefixOfPushed(x, y);
    CompletedIsPrefixOfPushed(y, x);
    if x.call.inNested {
      CallInProgressIsLive(l, Left, capacity);
    } else if y.call.inNested {
      CallInProgressIsLive(l, Right, capacity);
    } else {
      SleeperFacts(x);
      SleeperFacts(y);
      if |y.h.completed| < |x.h.pushed| {
        UndeliveredMoves(x, y, capacity);
      } else if |x.h.completed| < |y.h.pushed| {
        UndeliveredMoves(y, x, capacity);
      }
    }
    hide Paired, Sleeping, Advance, MayRead, MayWrite;
    if MayRead(x, y) || MayWrite(x, y, capacity) {
      var e := MoverAdvances(l, Left, capacity);
      t := Turn(Left, e);
    } else if MayRead(y, x) || MayWrite(y, x, capacity) {
      var e := MoverAdvances(l, Right, capacity);
      t := Turn(Right, e);
    } else {
      t := Turn(if x.queue != [] then Left else Right, WakeIdle);
      IdleAdvances(l, t.side, capacity);
    }
  }

  /** Nothing deadlocks: two open ends with anything left to do have a step, however small the pipes. */
  lemma SomethingAdvances(l: Link, capacity: nat) returns (t: Turn)
    requires LinkInv(l) && BothOpen(l) && capacity >= 1 && !Done(l)
    ensures Advance(l, t, capacity)
  {
    hide LinkInv, Advance, Sleeping, Next, Done;
    if !Sleeping(l.left) {
      RunningThreadAdvances(l, Left, capacity);
      t := Turn(Left, Next(l.left, l.right, capacity));
    } else if !Sleeping(l.right) {
      RunningThreadAdvances(l, Right, capacity);
      t := Turn(Right, Next(l.right, l.left, capacity));
    } else {
      t := SleepersAdvance(l, capacity);
    }
  }

  // ---- schedules ------------------------------------------------------------------------------

  predicate LinkLess(l': Link, l: Link, capacity: nat) {
    Less(l'.left, l'.right, l.left, l.right, capacity)
  }

  lemma AdvanceMoves(l: Link, side: Side, e: Event, capacity: nat)
    requires Advance(l, Turn(side, e), capacity)
    ensures CanMove(l, side, e, capacity) && Can(At(l, side), e) && Unaided(e) && Genuine(At(l, side), At(l, Other(side)), e, capacity)
  {
    hide Can, Unaided, Genuine, InPipe;
  }

  lemma StaysOpen(s: State, e: Event)
    requires Can(s, e) && Unaided(e) && s.sock.open
    ensures Do(s, e).sock.open
  {
    hide KindOf, WellFormed, Partial, IsWhole, Missing, Frame, Finish, Mark, Id, IsReplyError, Marker, Marked, Has;
  }

  /** A step keeps both ends open and leaves less to do. */
  lemma AdvanceLess(l: Link, t: Turn, capacity: nat)
    requires LinkInv(l) && BothOpen(l) && Advance(l, t, capacity)
    ensures CanMove(l, t.side, t.event, capacity)
    ensures var l' := Move(l, t.side, t.event, capacity); LinkInv(l') && BothOpen(l') && LinkLess(l', l, capacity)
  {
    AdvanceMoves(l, t.side, t.event, capacity);
    LinkStep(l, t.side, t.event, capacity);
    PairSymmetric(l.left, l.right);
    var x, y := At(l, t.side), At(l, Other(t.side));
    hide Paired, Can, Do, Unaided, Genuine, Less, InPipe, Advance;
    StaysOpen(x, t.event);
    StepLess(x, y, t.event, capacity);
    if t.side == Right { LessSymmetric(Do(x, t.event), y, x, y, capacity); }
  }

  /** `us` continues the run `ts` by steps that count. */
  ghost predicate Continues(ts: seq<Turn>, us: seq<Turn>, capacity: nat)
    decreases |us|
  {
    && LinkRun(us, capacity)
    && (us == ts ||
        (us != [] && Continues(ts, us[..|us| - 1], capacity)
         && Advance(LinkAfter(us[..|us| - 1], capacity), us[|us| - 1], capacity)))
  }

  lemma {:induction false} ContinuesOn(ts: seq<Turn>, us: seq<Turn>, vs: seq<Turn>, capacity: nat)
    requires Continues(ts, us, capacity) && Continues(us, vs, capacity)
    ensures Continues(ts, vs, capacity) && LinkRun(vs, capacity)
    decreases |vs|
  {
    hide LinkRun, LinkAfter, Advance;
    if vs != us {
      ContinuesOn(ts, us, vs[..|vs| - 1], capacity);
    }
  }

  lemma ContinuesHere(ts: seq<Turn>, capacity: nat)
    requires LinkRun(ts, capacity)
    ensures Continues(ts, ts, capacity)
  {}

  lemma ContinuesBy(ts: seq<Turn>, t: Turn, capacity: nat)
    requires LinkRun(ts, capacity) && Advance(LinkAfter(ts, capacity), t, capacity)
    ensures Continues(ts, ts + [t], capacity) && LinkRun(ts + [t], capacity)
    ensures LinkAfter(ts + [t], capacity) == Move(LinkAfter(ts, capacity), t.side, t.event, capacity)
  {
    hide CanMove, Move, Unaided, Genuine;
    var us := ts + [t];
    assert us[..|us| - 1] == ts;
    assert Continues(ts, ts, capacity);
  }

  lemma WorkLeft(l: Link, capacity: nat)
    requires LinkInv(l)
    ensures ByteWork(l.left, l.right, capacity) >= 0 && MessageWork(l.left, l.right) >= 0
  {
    WorkIsBounded(l.left, l.right, capacity);
    hide Paired, ByteWork;
  }

  /** What one more step gives. */
  lemma OneMore(ts: seq<Turn>, l: Link, t: Turn, capacity: nat) returns (us: seq<Turn>, l': Link)
    requires LinkRun(ts, capacity) && l == LinkAfter(ts, capacity) && BothOpen(l) && Advance(l, t, capacity)
    ensures us == ts + [t] && Continues(ts, us, capacity) && LinkRun(us, capacity) && l' == LinkAfter(us, capacity)
    ensures BothOpen(l') && LinkLess(l', l, capacity)
    ensures ByteWork(l.left, l.right, capacity) >= 0 && MessageWork(l.left, l.right) >= 0
  {
    LinkRunInv(ts, capacity);
    WorkLeft(l, capacity);
    AdvanceLess(l, t, capacity);
    us := ts + [t];
    ContinuesBy(ts, t, capacity);
    l' := LinkAfter(us, capacity);
    hide LinkRun, LinkAfter, LinkInv, Advance, Continues, Less, ByteWork;
  }

  /** The first `n` turns of a scheduler. */
  function Taken(f: nat -> Turn, n: nat): seq<Turn> {
    if n == 0 then [] else Taken(f, n - 1) + [f(n - 1)]
  }

  /**
   No schedule goes on for ever: whatever a scheduler picks, turn after turn,
   one of its turns is none that counts, because nothing is left to do or
   because it needs the application, a timeout, an error or a lying socket.
   */
  lemma NoEndlessSchedule(ts: seq<Turn>, capacity: nat, f: nat -> Turn) returns (n: nat)
    requires LinkRun(ts, capacity) && BothOpen(LinkAfter(ts, capacity))
    ensures Continues(ts, ts + Taken(f, n), capacity)
    ensures !Advance(LinkAfter(ts + Taken(f, n), capacity), f(n), capacity)
  {
    ContinuesHere(ts, capacity);
    assert ts + Taken(f, 0) == ts;
    n := ScheduleEnds(ts, ts, LinkAfter(ts, capacity), capacity, f, 0);
  }

  lemma {:induction false} ScheduleEnds(ts: seq<Turn>, us: seq<Turn>, l: Link, capacity: nat, f: nat -> Turn, k: nat) returns (n: nat)
    requires LinkRun(us, capacity) && l == LinkAfter(us, capacity) && BothOpen(l)
    requires us == ts + Taken(f, k) && Continues(ts, us, capacity)
    ensures Continues(ts, ts + Taken(f, n), capacity) && LinkRun(ts + Taken(f, n), capacity)
    ensures !Advance(LinkAfter(ts + Taken(f, n), capacity), f(n), capacity)
    decreases Asked(l.left, l.right), Asked(l.right, l.left), ByteWork(l.left, l.right, capacity), MessageWork(l.left, l.right),
              |l.left.queue| + |l.right.queue|, TaskWork(l.left) + TaskWork(l.right)
  {
    hide LinkRun, LinkAfter, Asked, ByteWork, MessageWork, TaskWork, BothOpen, Advance;
    if !Advance(l, f(k), capacity) {
      n := k;
    } else {
      var us', l' := OneMore(us, l, f(k), capacity);
      assert us' == ts + Taken(f, k + 1);
      ContinuesOn(ts, us, us', capacity);
      n := ScheduleEnds(ts, us', l', capacity, f, k + 1);
    }
  }

  /** A schedule that cannot be continued has left both ends at rest. */
  lemma StuckIsDone(ts: seq<Turn>, capacity: nat)
    requires LinkRun(ts, capacity) && BothOpen(LinkAfter(ts, capacity)) && capacity >= 1
    requires forall t: Turn :: !Advance(LinkAfter(ts, capacity), t, capacity)
    ensures Done(LinkAfter(ts, capacity))
  {
    var l := LinkAfter(ts, capacity);
    LinkRunInv(ts, capacity);
    if !Done(l) {
      hide LinkInv, LinkRun, LinkAfter, Advance, Done;
      var t := SomethingAdvances(l, capacity);
    }
  }

  /** And some schedule gets there. */
  lemma RestIsReached(ts: seq<Turn>, capacity: nat) returns (us: seq<Turn>)
    requires LinkRun(ts, capacity) && BothOpen(LinkAfter(ts, capacity)) && capacity >= 1
    ensures Continues(ts, us, capacity) && Done(LinkAfter(us, capacity))
  {
    us := RestFrom(ts, LinkAfter(ts, capacity), capacity);
  }

  lemma {:induction false} RestFrom(ts: seq<Turn>, l: Link, capacity: nat) returns (us: seq<Turn>)
    requires LinkRun(ts, capacity) && l == LinkAfter(ts, capacity) && BothOpen(l) && capacity >= 1
    ensures Continues(ts, us, capacity) && LinkRun(us, capacity) && Done(LinkAfter(us, capacity))
    decreases Asked(l.left, l.right), Asked(l.right, l.left), ByteWork(l.left, l.right, capacity), MessageWork(l.left, l.right),
              |l.left.queue| + |l.right.queue|, TaskWork(l.left) + TaskWork(l.right)
  {
    LinkRunInv(ts, capacity);
    hide LinkRun, LinkAfter, LinkInv, Asked, ByteWork, MessageWork, TaskWork, BothOpen, Advance, Continues, Done;
    if Done(l) {
      us := ts;
      ContinuesHere(ts, capacity);
    } else {
      var t := SomethingAdvances(l, capacity);
      var ts', l' := OneMore(ts, l, t, capacity);
      us := RestFrom(ts', l', capacity);
      ContinuesOn(ts, ts', us, capacity);
    }
  }

  lemma {:induction false} ContinuedStaysOpen(ts: seq<Turn>, us: seq<Turn>, capacity: nat)
    requires Continues(ts, us, capacity) && LinkRun(ts, capacity) && BothOpen(LinkAfter(ts, capacity))
    ensures BothOpen(LinkAfter(us, capacity))
    decreases |us|
  {
    if us != ts {
      var n := |us| - 1;
      ContinuedStaysOpen(ts, us[..n], capacity);
      LinkRunInv(us[..n], capacity);
      hide LinkInv, Advance, Move, CanMove, Less;
      AdvanceLess(LinkAfter(us[..n], capacity), us[n], capacity);
    }
  }

  /** Calls never deadlock: while an end is in a call on open sockets some end has a step, and every step leaves less to do. */
  lemma CallsNeverDeadlock(ts: seq<Turn>, capacity: nat, side: Side) returns (t: Turn)
    requires LinkRun(ts, capacity) && capacity >= 1
    requires BothOpen(LinkAfter(ts, capacity)) && At(LinkAfter(ts, capacity), side).call.inNested
    ensures var l := LinkAfter(ts, capacity);
      Advance(l, t, capacity) && CanMove(l, t.side, t.event, capacity) && LinkLess(Move(l, t.side, t.event, capacity), l, capacity)
  {
    var l := LinkAfter(ts, capacity);
    LinkRunInv(ts, capacity);
    if Done(l) { RestMeansNoCall(l, side); }
    hide LinkRun, LinkAfter, LinkInv, Advance, LinkLess;
    t := SomethingAdvances(l, capacity);
    AdvanceLess(l, t, capacity);
  }

  lemma RestMeansNoCall(l: Link, side: Side)
    requires LinkInv(l) && Done(l)
    ensures !At(l, side).call.inNested
  {
    IdleFacts(At(l, side));
    hide Inv;
  }

  // ---- the call goes on --------------------------------------------------------------------

  /** Call `i` of this end is in progress and did not time out. */
  predicate InCall(s: State, i: nat) {
    s.call.inNested && s.h.call == i && (s.sock.nestedSource ==> !s.call.timedOut)
  }

  lemma CallGoesOn(s: State, e: Event, i: nat)
    requires Inv(s) && Can(s, e) && Unaided(e) && s.sock.open && InCall(s, i) && !e.LeaveLoop?
    ensures InCall(Do(s, e), i)
  {
    NotWhenOpen(s, e);
    StillInCall(s, e);
    CallKeptStep(s, e);
    TimerUntouched(s, e);
    hide Can, Do, Inv, Postponed;
  }

  lemma StillInCall(s: State, e: Event)
    requires Can(s, e) && s.call.inNested && !e.LeaveLoop? && !e.CallFail?
    ensures Do(s, e).call.inNested
  {
    hide Can, ByApplication, ByLoop, BySending, ByReading, ByDispatch, ByCall;
    NestedInLoops(s, e);
    NestedElsewhere(s, e);
  }

  lemma NestedInLoops(s: State, e: Event)
    requires Can(s, e) && s.call.inNested
    ensures ByLoop(s, e).call.inNested && BySending(s, e).call.inNested && ByReading(s, e).call.inNested
  {
    hide KindOf, WellFormed, Partial, IsWhole, Missing, Frame, Id, Marked, Has;
  }

  lemma NestedElsewhere(s: State, e: Event)
    requires Can(s, e) && s.call.inNested && !e.LeaveLoop? && !e.CallFail?
    ensures ByApplication(s, e).call.inNested && ByDispatch(s, e).call.inNested && ByCall(s, e).call.inNested
  {
    hide KindOf, WellFormed, Frame, Finish, Mark, Id, Has, AfterLoop;
  }

  /** The loop of a call in time on an open socket only ends with a reply. */
  lemma LeavesWithReply(s: State, i: nat)
    requires Inv(s) && Can(s, LeaveLoop) && s.sock.open && InCall(s, i)
    ensures s.call.curReply.Some? && !s.call.timedOut
  {
    Popped(s.stack);
    assert WaitInv(s) && StackInv(s);
    hide Inv, Nested, HasCall, Accepted, KindOf, WellFormed, Partial, IsWhole, Missing, Frame, Id, Has;
  }

  lemma TimerUntouched(s: State, e: Event)
    requires Inv(s) && Can(s, e) && Unaided(e) && (s.sock.nestedSource ==> !s.call.timedOut)
    ensures Do(s, e).sock.nestedSource ==> !Do(s, e).call.timedOut
  {
    TimedOutStep(s, e);
    NestedSourceStep(s, e);
    hide Do, Can, Inv;
  }

  /** Only the start of a loop adds the nested source. */
  lemma NestedSourceStep(s: State, e: Event)
    requires Can(s, e)
    ensures Do(s, e).sock.nestedSource ==> s.sock.nestedSource || e.EnterLoop?
  {
    hide Can, ByApplication, ByLoop, BySending, ByReading, ByDispatch, ByCall;
    NestedSourceInLoops(s, e);
    if !e.EnterLoop? { NestedSourceElsewhere(s, e); }
  }

  lemma NestedSourceInLoops(s: State, e: Event)
    requires Can(s, e)
    ensures ByLoop(s, e).sock.nestedSource == BySending(s, e).sock.nestedSource == ByReading(s, e).sock.nestedSource == s.sock.nestedSource
  {
    hide KindOf, WellFormed, Partial, IsWhole, Missing, Frame, Id, Marked, Has;
  }

  lemma NestedSourceElsewhere(s: State, e: Event)
    requires Can(s, e) && !e.EnterLoop?
    ensures ByApplication(s, e).sock.nestedSource == ByDispatch(s, e).sock.nestedSource == s.sock.nestedSource
    ensures ByCall(s, e).sock.nestedSource ==> s.sock.nestedSource
  {
    hide KindOf, WellFormed, Frame, Finish, Mark, Id, Has, IsReplyError;
  }
}
