/** What holds of every run of two channels, whatever the pipes' capacity. */
module Runs {
  import opened Bytes
  import opened Calls
  import opened Endpoint
  import opened EndpointEffects
  import opened EndpointInvariants
  import opened Framing
  import opened Handlers
  import opened Link
  import opened Messages
  import opened Options
  import opened Outcomes
  import opened Params
  import opened Progress
  import opened Protocol
  import opened Replies
  import opened TypedMessages
  import opened Variables

  // ---- bytes in pipes behave as a queue of messages -------------------------------

  /** The messages pushed at `x` that `y` has not received. */
  function InFlight(x: State, y: State): seq<Msg>
    requires |y.h.completed| <= |x.h.pushed|
  {
    x.h.pushed[|y.h.completed|..]
  }

  /** The bytes that `x` has still to give to its socket. */
  function Unsent(x: State): seq<byte> {
    if x.outgoing == [] || x.outDone > |Frame(x.outgoing[0])| then []
    else Frame(x.outgoing[0])[x.outDone..] + Frames(x.outgoing[1..])
  }

  /** The bytes between the two ends: partly read, in the pipe, partly sent and queued. */
  function InTransit(x: State, y: State): seq<byte> {
    y.inBuf + (if |y.h.got| <= |x.h.sent| then x.h.sent[|y.h.got|..] else []) + Unsent(x)
  }

  lemma AllBytes(x: State)
    requires SendInv(x)
    ensures x.h.sent + Unsent(x) == Frames(x.h.pushed)
  {
    hide Frame, Frames, WellFormed, MaySend;
    if x.outgoing != [] {
      var k := |x.h.pushed| - |x.outgoing|;
      FramesConcat(x.h.pushed[..k], x.outgoing);
      assert x.h.pushed == x.h.pushed[..k] + x.outgoing;
      HeadFrame(x.outgoing);
      var f := Frame(x.outgoing[0]);
      assert f == f[..x.outDone] + f[x.outDone..];
    }
  }

  lemma Rest(sent: seq<byte>, got: seq<byte>, unsent: seq<byte>, done: seq<byte>, buf: seq<byte>, rest: seq<byte>)
    requires got <= sent && got == done + buf && sent + unsent == done + rest
    ensures buf + sent[|got|..] + unsent == rest
  {
    assert sent == done + (buf + sent[|got|..]);
    assert done + (buf + sent[|got|..] + unsent) == done + rest;
    assert rest == (done + rest)[|done|..];
  }

  lemma ReceivedPart(x: State, y: State)
    requires Paired(x, y)
    ensures y.h.completed <= x.h.pushed && Frames(x.h.pushed) == Frames(y.h.completed) + Frames(InFlight(x, y))
  {
    CompletedIsPrefixOfPushed(y, x);
    FramesConcat(y.h.completed, InFlight(x, y));
    hide Paired, Frames;
    assert y.h.completed + InFlight(x, y) == x.h.pushed;
  }

  /** The bytes between the ends are the frames of the messages in flight, whatever was cut where. */
  lemma TransitIsFrames(x: State, y: State)
    requires Paired(x, y)
    ensures |y.h.completed| <= |x.h.pushed| && InTransit(x, y) == Frames(InFlight(x, y))
  {
    ReceivedPart(x, y);
    AllBytes(x);
    Received(y);
    ReadWasSent(x, y);
    hide Paired, Unsent, Frames;
    Rest(x.h.sent, y.h.got, Unsent(x), Frames(y.h.completed), y.inBuf, Frames(InFlight(x, y)));
  }

  lemma Received(y: State)
    requires ReceiveInv(y)
    ensures y.h.got == Frames(y.h.completed) + y.inBuf
  {}

  lemma ReadWasSent(x: State, y: State)
    requires Piped(y, x)
    ensures y.h.got <= x.h.sent
  {}

  /** The messages a step pushes. */
  function PushedBy(s: State, e: Event): seq<Msg>
    requires Can(s, e)
  {
    match e
    case SendAsync(m) => [m]
    case SendSync(m, _) => [Mark(m, SyncBit)]
    case Drain(ms) => ms
    case ServeEnd => [Finish(s.slot, s.h.completed[s.stack.top.request])]
    case _ => []
  }

  lemma PushedGrows(s: State, e: Event)
    requires Can(s, e)
    ensures Do(s, e).h.pushed == s.h.pushed + PushedBy(s, e)
    ensures !e.Complete? ==> Do(s, e).h.completed == s.h.completed
  {
    LedgerStep(s, e);
    hide Can, Do, Finish, Mark;
  }

  lemma TailAppends(pushed: seq<Msg>, n: nat, ms: seq<Msg>)
    requires n <= |pushed|
    ensures (pushed + ms)[n..] == pushed[n..] + ms
  {}

  /**
   One step of the sender only appends to the messages in flight: partial
   sends, blocked sends and errors leave the queue, and the bytes that carry
   it, as they are.
   */
  lemma SenderAppends(x: State, y: State, e: Event)
    requires Paired(x, y) && Can(x, e) && (e.Got? ==> InPipe(x, y, e.data))
    ensures |y.h.completed| <= |x.h.pushed|
    ensures InTransit(x, y) == Frames(InFlight(x, y))
    ensures InTransit(Do(x, e), y) == Frames(InFlight(x, y) + PushedBy(x, e))
  {
    TransitIsFrames(x, y);
    PairStep(x, y, e);
    TransitIsFrames(Do(x, e), y);
    PushedGrows(x, e);
    hide Do, Can, Paired, PushedBy, InTransit, Frames;
    TailAppends(x.h.pushed, |y.h.completed|, PushedBy(x, e));
  }

  lemma CompletedGrows(s: State, e: Event)
    requires Can(s, e)
    ensures !e.Complete? ==> Do(s, e).h.completed == s.h.completed
    ensures e.Complete? ==> |s.inBuf| >= LENGTH_SIZE && Do(s, e).h.completed == s.h.completed + [s.inBuf[LENGTH_SIZE..]]
  {
    LedgerStep(s, e);
    if e.Complete? { CompleteHasLength(s); }
    hide Can, Do, Finish, Mark;
  }

  /**
   One step of the receiver takes the front message, byte for byte, when it
   completes one, and nothing otherwise.
   */
  lemma ReceiverTakesFront(x: State, y: State, e: Event)
    requires Paired(x, y) && Can(y, e) && (e.Got? ==> InPipe(y, x, e.data))
    ensures |y.h.completed| <= |x.h.pushed|
    ensures InTransit(x, y) == Frames(InFlight(x, y))
    ensures if e.Complete? then
              InFlight(x, y) != [] && Do(y, e).h.completed == y.h.completed + [InFlight(x, y)[0]]
              && InTransit(x, Do(y, e)) == Frames(InFlight(x, y)[1..])
            else Do(y, e).h.completed == y.h.completed && InTransit(x, Do(y, e)) == Frames(InFlight(x, y))
  {
    TransitIsFrames(x, y);
    PairSymmetric(x, y);
    PairStep(y, x, e);
    PairSymmetric(Do(y, e), x);
    TransitIsFrames(x, Do(y, e));
    CompletedGrows(y, e);
    if e.Complete? { CompletingIsNextPushed(y, x); }
    hide Do, Can, Paired, InTransit, Frames;
  }

  // ---- runs of the pair -------------------------------------------------------------

  lemma RunPairs(ts: seq<Turn>, capacity: nat, side: Side)
    requires LinkRun(ts, capacity)
    ensures Paired(At(LinkAfter(ts, capacity), side), At(LinkAfter(ts, capacity), Other(side)))
  {
    LinkRunInv(ts, capacity);
    hide Paired;
    PairSymmetric(LinkAfter(ts, capacity).left, LinkAfter(ts, capacity).right);
  }

  /**
   In every run each end has received, in order, the first messages the other
   queued, and given the asynchronous ones of them to its listener in order.
   */
  lemma MessagesArriveInOrder(ts: seq<Turn>, capacity: nat, side: Side)
    requires LinkRun(ts, capacity)
    ensures var me, peer := At(LinkAfter(ts, capacity), side), At(LinkAfter(ts, capacity), Other(side));
      me.h.completed <= peer.h.pushed && me.h.delivered <= Select(peer.h.pushed, Oneway)
  {
    var me, peer := At(LinkAfter(ts, capacity), side), At(LinkAfter(ts, capacity), Other(side));
    RunPairs(ts, capacity, side);
    CompletedIsPrefixOfPushed(me, peer);
    DeliveredIsPrefixOfSent(me, peer);
  }

  /** No step of a run moves a request back. */
  lemma TurnAdvances(l: Link, t: Turn, capacity: nat, side: Side, i: nat)
    requires LinkInv(l) && CanMove(l, t.side, t.event, capacity) && IsRequest(At(l, side).h.pushed, i)
    ensures var l' := Move(l, t.side, t.event, capacity);
      IsRequest(At(l', side).h.pushed, i)
      && Rank(PlaceOf(At(l', side), At(l', Other(side)), i)) >= Rank(PlaceOf(At(l, side), At(l, Other(side)), i))
  {
    var me, peer := At(l, side), At(l, Other(side));
    PairSymmetric(l.left, l.right);
    hide Paired, Can, Do, KindOf, PlaceOf, InPipe;
    if t.side == side {
      OwnStepAdvances(me, peer, t.event, i);
      GrowsStep(me, t.event);
    } else {
      PeerStepAdvances(me, peer, t.event, i);
    }
  }

  /**
   Through every continuation of every run a request only moves forward: queue,
   wire, handler, reply queued, reply on the wire, consumed.
   */
  lemma {:induction false} RequestsOnlyAdvance(ts: seq<Turn>, n: nat, capacity: nat, side: Side, i: nat)
    requires n <= |ts| && LinkRun(ts, capacity) && LinkRun(ts[..n], capacity)
    requires IsRequest(At(LinkAfter(ts[..n], capacity), side).h.pushed, i)
    ensures var l, l' := LinkAfter(ts[..n], capacity), LinkAfter(ts, capacity);
      IsRequest(At(l', side).h.pushed, i)
      && Rank(PlaceOf(At(l', side), At(l', Other(side)), i)) >= Rank(PlaceOf(At(l, side), At(l, Other(side)), i))
    decreases |ts|
  {
    hide LinkInv, CanMove, Move, PlaceOf, IsRequest;
    if n == |ts| {
      assert ts[..n] == ts;
    } else {
      var k := |ts| - 1;
      assert ts[..k][..n] == ts[..n];
      RequestsOnlyAdvance(ts[..k], n, capacity, side, i);
      LinkRunInv(ts[..k], capacity);
      TurnAdvances(LinkAfter(ts[..k], capacity), ts[k], capacity, side, i);
    }
  }

  /** In every run a call that returned a reply returned the peer's one answer to it; calls may reuse an id once its earlier requests are settled. */
  lemma RepliesReachTheirCalls(ts: seq<Turn>, capacity: nat, side: Side, o: Outcome)
    requires FreshRun(ts, capacity, side)
    requires o in At(LinkAfter(ts, capacity), side).h.outcomes && o.reply.Some?
    ensures var peer := At(LinkAfter(ts, capacity), Other(side));
      o.call in peer.h.replyTo && peer.h.replyTo[o.call] < |peer.h.pushed|
      && peer.h.pushed[peer.h.replyTo[o.call]] == o.reply.value && !IsReplyError(o.reply.value)
  {
    RunPairs(ts, capacity, side);
    FreshRunMatches(ts, capacity, side);
    hide Paired, Matched, LinkRun, LinkAfter;
    ReturnedReplyAnswersItsCall(At(LinkAfter(ts, capacity), side), At(LinkAfter(ts, capacity), Other(side)), o);
  }

  /** Steps that start no call keep a run fresh. */
  lemma {:induction false} ContinuedRunIsFresh(ts: seq<Turn>, us: seq<Turn>, capacity: nat, side: Side)
    requires FreshRun(ts, capacity, side) && Continues(ts, us, capacity)
    ensures FreshRun(us, capacity, side)
    decreases |us|
  {
    hide LinkAfter, CanMove, Genuine;
    if us != ts {
      ContinuedRunIsFresh(ts, us[..|us| - 1], capacity, side);
    }
  }

  // ---- every call returns -------------------------------------------------------------

  /** `reply` is what the peer's answer to request `i` means to its caller: the answer, or nothing if it is an error. */
  predicate AnswerOr(peer: State, i: nat, reply: Option<Msg>) {
    && i in peer.h.replyTo && peer.h.replyTo[i] < |peer.h.pushed|
    && var answer := peer.h.pushed[peer.h.replyTo[i]];
       reply == if IsReplyError(answer) then None else Some(answer)
  }

  /** Call `i` has returned with that. */
  ghost predicate ReturnedAnswer(me: State, peer: State, i: nat) {
    exists o :: o in me.h.outcomes && o.call == i && AnswerOr(peer, i, o.reply)
  }

  /** Call `i` waits in time, is about to return the answer, or has returned it. */
  ghost predicate Underway(me: State, peer: State, i: nat) {
    || InCall(me, i)
    || (InHand(me.stack) && me.h.call == i && AnswerOr(peer, i, ReplyInHand(me.stack)))
    || ReturnedAnswer(me, peer, i)
  }

  lemma LeavesWithAnswer(me: State, peer: State, i: nat)
    requires Paired(me, peer) && Matched(me, peer) && Can(me, LeaveLoop) && me.sock.open && InCall(me, i)
    ensures Underway(Do(me, LeaveLoop), peer, i)
  {
    LeavesWithReply(me, i);
    AcceptedIsTheAnswer(me, peer);
    HandStepExact(me, LeaveLoop);
    hide Do, Can, Inv, Piped, NotCrossed, Awaited, Matched, InHand, ReplyInHand, IsReplyError;
  }

  lemma HandIsNoCall(s: State)
    requires Inv(s) && InHand(s.stack)
    ensures !s.call.inNested && !Can(s, LeaveLoop)
  {
    Popped(s.stack);
    Popped(s.stack.below);
    assert StackInv(s);
    hide Inv, Nested, HasCall, HasWaiting, Has, WellFormed, KindOf, Frame, IsWhole;
  }

  lemma HandGoesOn(s: State, e: Event)
    requires Inv(s) && Can(s, e) && InHand(s.stack) && !e.CallReturn? && !e.SendSync?
    ensures InHand(Do(s, e).stack) && ReplyInHand(Do(s, e).stack) == ReplyInHand(s.stack) && Do(s, e).h.call == s.h.call
  {
    HandIsNoCall(s);
    InvParts(s);
    OverStep(s, e);
    if Recorded(s, e) != [] { RecordsFromCall(s, e); }
    CallKeptStep(s, e);
    HandStepExact(s, e);
    hide Do, Can, Inv, InHand, ReplyInHand, Recorded, StackInv, Deserved, Postponed;
  }

  lemma RecordsFromCall(s: State, e: Event)
    requires Inv(s) && Can(s, e) && Recorded(s, e) != [] && !e.CallReturn?
    ensures s.call.inNested
  {
    Popped(s.stack);
    assert StackInv(s);
    hide Inv, Nested, HasCall, HasWaiting, Has, WellFormed, KindOf, Frame, IsWhole;
  }

  lemma HandReturns(me: State, peer: State, i: nat)
    requires Can(me, CallReturn) && me.h.call == i && AnswerOr(peer, i, ReplyInHand(me.stack))
    ensures ReturnedAnswer(Do(me, CallReturn), peer, i)
  {
    OutcomesStep(me, CallReturn);
    ReturnedWasInHand(me);
    hide Do, ReplyInHand, AnswerOr;
    assert Recorded(me, CallReturn)[0] in Do(me, CallReturn).h.outcomes;
  }

  lemma ReturnedStays(me: State, peer: State, e: Event, i: nat)
    requires Can(me, e) && ReturnedAnswer(me, peer, i)
    ensures ReturnedAnswer(Do(me, e), peer, i)
  {
    OutcomesStep(me, e);
    hide Do, Can, AnswerOr, Recorded;
    var o :| o in me.h.outcomes && o.call == i && AnswerOr(peer, i, o.reply);
    assert o in Do(me, e).h.outcomes;
  }

  lemma UnderwayOwnStep(me: State, peer: State, e: Event, i: nat)
    requires Paired(me, peer) && Matched(me, peer) && Can(me, e) && Unaided(e) && me.sock.open && Underway(me, peer, i)
    ensures Underway(Do(me, e), peer, i)
  {
    hide Do, Can, Inv, Piped, NotCrossed, Awaited, Matched, InHand, ReplyInHand, ReturnedAnswer, AnswerOr, InCall;
    if InCall(me, i) {
      if e.LeaveLoop? {
        LeavesWithAnswer(me, peer, i);
      } else {
        CallGoesOn(me, e, i);
      }
    } else if ReturnedAnswer(me, peer, i) {
      ReturnedStays(me, peer, e, i);
    } else if e.CallReturn? {
      HandReturns(me, peer, i);
    } else {
      HandGoesOn(me, e);
    }
  }

  lemma UnderwayPeerStep(me: State, peer: State, e: Event, i: nat)
    requires Inv(peer) && Can(peer, e) && Underway(me, peer, i)
    ensures Underway(me, Do(peer, e), i)
  {
    RepliesGrow(peer, e);
    GrowsStep(peer, e);
    hide Do, Can, Inv, InHand, ReplyInHand, IsReplyError;
    forall reply | AnswerOr(peer, i, reply)
      ensures AnswerOr(Do(peer, e), i, reply)
    {
    }
  }

  lemma {:induction false} UnderwayThroughout(ts: seq<Turn>, us: seq<Turn>, capacity: nat, side: Side, i: nat)
    requires FreshRun(ts, capacity, side) && Continues(ts, us, capacity) && BothOpen(LinkAfter(ts, capacity))
    requires Underway(At(LinkAfter(ts, capacity), side), At(LinkAfter(ts, capacity), Other(side)), i)
    ensures LinkRun(us, capacity) && Underway(At(LinkAfter(us, capacity), side), At(LinkAfter(us, capacity), Other(side)), i)
    decreases |us|
  {
    hide Paired, Matched, Underway, FreshRun, Do, Can, InPipe, Unaided, Genuine;
    FreshIsRun(ts, capacity, side);
    if us != ts {
      var n := |us| - 1;
      UnderwayThroughout(ts, us[..n], capacity, side, i);
      ContinuedStaysOpen(ts, us[..n], capacity);
      ContinuedRunIsFresh(ts, us[..n], capacity, side);
      FreshRunMatches(us[..n], capacity, side);
      RunPairs(us[..n], capacity, side);
      var l := LinkAfter(us[..n], capacity);
      if us[n].side == side {
        UnderwayOwnStep(At(l, side), At(l, Other(side)), us[n].event, i);
      } else {
        PeerSound(At(l, side), At(l, Other(side)));
        UnderwayPeerStep(At(l, side), At(l, Other(side)), us[n].event, i);
      }
    }
  }

  lemma FreshIsRun(ts: seq<Turn>, capacity: nat, side: Side)
    requires FreshRun(ts, capacity, side)
    ensures LinkRun(ts, capacity)
  {}

  lemma PeerSound(me: State, peer: State)
    requires Paired(me, peer)
    ensures Inv(peer)
  {}

  /**
   Every call returns its answer: a call in progress on open sockets that has
   not timed out has returned, under every schedule without new work of the
   application, timeouts and errors, by the time both ends are at rest; and it
   has returned the peer's one answer to it, or nothing if that is an error.
   */
  lemma CallGetsItsAnswer(ts: seq<Turn>, us: seq<Turn>, capacity: nat, side: Side, i: nat) returns (o: Outcome)
    requires FreshRun(ts, capacity, side) && Continues(ts, us, capacity)
    requires BothOpen(LinkAfter(ts, capacity)) && InCall(At(LinkAfter(ts, capacity), side), i)
    requires Done(LinkAfter(us, capacity))
    ensures o in At(LinkAfter(us, capacity), side).h.outcomes && o.call == i
    ensures AnswerOr(At(LinkAfter(us, capacity), Other(side)), i, o.reply)
  {
    UnderwayThroughout(ts, us, capacity, side, i);
    RunPairs(us, capacity, side);
    var me, peer := At(LinkAfter(us, capacity), side), At(LinkAfter(us, capacity), Other(side));
    hide FreshRun, LinkRun, LinkAfter, Continues, Paired, AnswerOr;
    NothingAtRest(me, peer, i);
    o :| o in me.h.outcomes && o.call == i && AnswerOr(peer, i, o.reply);
  }

  lemma NothingAtRest(me: State, peer: State, i: nat)
    requires Paired(me, peer) && AtRest(me, peer)
    ensures !InCall(me, i) && !InHand(me.stack)
  {
    IdleFacts(me);
    hide Paired;
  }

  /**
   At rest everything is done: each end has delivered every asynchronous
   message of the other, and every call has returned and has had its answer read.
   */
  lemma RestIsComplete(ts: seq<Turn>, capacity: nat, side: Side)
    requires LinkRun(ts, capacity) && Done(LinkAfter(ts, capacity))
    ensures var me, peer := At(LinkAfter(ts, capacity), side), At(LinkAfter(ts, capacity), Other(side));
      me.h.delivered == Select(peer.h.pushed, Oneway)
      && forall i: nat :: IsRequest(me.h.pushed, i) ==> Settled(me, peer, i) && HasReturned(me.h, i)
  {
    var me, peer := At(LinkAfter(ts, capacity), side), At(LinkAfter(ts, capacity), Other(side));
    RunPairs(ts, capacity, side);
    EachEndRuns(ts, capacity, side);
    EachCallReturnsOnce(EventsOf(ts, side));
    hide LinkRun, LinkAfter, ValidRun, After;
    NothingAtRest(me, peer, 0);
    DeliveredAtRest(me, peer);
    forall i: nat | IsRequest(me.h.pushed, i)
      ensures Settled(me, peer, i)
    {
      SettledAtRest(me, peer, i);
    }
    hide Paired, KindOf;
  }

  lemma DeliveredAtRest(me: State, peer: State)
    requires Paired(me, peer) && AtRest(me, peer)
    ensures me.h.delivered == Select(peer.h.pushed, Oneway)
  {
    InvSends(me);
    hide Paired, Select, SendOk;
  }

  lemma SettledAtRest(me: State, peer: State, i: nat)
    requires Paired(me, peer) && AtRest(me, peer) && AtRest(peer, me) && IsRequest(me.h.pushed, i)
    ensures Settled(me, peer, i)
  {
    CompletedIsPrefixOfPushed(peer, me);
    NothingInEmptyStack(peer.stack);
    Partition(peer.h, InService(peer.stack), me.h.pushed, i);
    if i in peer.h.replyTo { AnswerOf(me, peer, i); }
    hide Paired, KindOf, InService;
  }

  lemma AcceptedIsTheAnswer(me: State, peer: State)
    requires Paired(me, peer) && Matched(me, peer) && me.call.curReply.Some?
    ensures me.h.call in peer.h.replyTo && peer.h.replyTo[me.h.call] < |peer.h.pushed|
    ensures me.call.curReply.value == peer.h.pushed[peer.h.replyTo[me.h.call]]
  {
    CompletedIsPrefixOfPushed(me, peer);
    AcceptedWasRead(me);
    hide Paired, FreshId, ReplyInHand;
  }

  lemma AcceptedWasRead(s: State)
    requires WaitInv(s) && s.call.curReply.Some?
    ensures s.h.acceptedAt < |s.h.completed| && s.h.completed[s.h.acceptedAt] == s.call.curReply.value
  {
    hide KindOf, Id;
  }

  /**
   Remote calls compute: if the peer's handlers of one type answer by
   dispatching to `f`, a typed call of that type with arguments `args` that
   returns a reply leaves f(args) in its caller's variables.
   */
  lemma RemoteCallComputes(ts: seq<Turn>, capacity: nat, side: Side, o: Outcome,
                           routing: int, ty: nat, id: nat, args: Value, f: Value -> Value, held: Value)
    requires FreshRun(ts, capacity, side)
    requires DispatchedTo(EventsOf(ts, Other(side)), ty, TypeOf(args), f)
    requires var me := At(LinkAfter(ts, capacity), side);
      CalledWith(me, o.call, routing, ty, id, args) && o in me.h.outcomes && o.reply.Some?
    requires TypeOf(held) == TypeOf(f(args))
    ensures WellSized(|o.reply.value|) && AfterReply(o.reply.value, held) == f(args)
  {
    RunPairs(ts, capacity, side);
    FreshRunMatches(ts, capacity, side);
    EachEndRuns(ts, capacity, Other(side));
    HandlersImplement(EventsOf(ts, Other(side)), ty, TypeOf(args), f);
    hide Paired, Matched, LinkRun, LinkAfter, CalledWith, Implements, DispatchedTo, AfterReply, TypeOf;
    ImplementedCallComputes(At(LinkAfter(ts, capacity), side), At(LinkAfter(ts, capacity), Other(side)), o, routing, ty, id, args, f);
    ReadReplySets(o.reply.value, f(args), held);
  }

  lemma ImplementedCallComputes(me: State, peer: State, o: Outcome,
                                routing: int, ty: nat, id: nat, args: Value, f: Value -> Value)
    requires Implements(peer, ty, TypeOf(args), f)
    requires CalledWith(me, o.call, routing, ty, id, args) && o in me.h.outcomes && o.reply.Some?
    requires Paired(me, peer) && Matched(me, peer)
    ensures ReadsAs(o.reply.value, f(args))
  {
    RequestOfType(me, peer, o, routing, ty, id, args);
    hide *;
    var p := HowComputed(peer, o.call, ty, TypeOf(args), f);
    TypedCallIsAnsweredForItsArguments(me, peer, o, routing, ty, id, args, p);
    AppliedToArguments(peer.h.completed[o.call], args, f, p.value.out);
  }

  lemma AppliedToArguments(m: Msg, args: Value, f: Value -> Value, out: Value)
    requires ReadsAs(m, args) && Applies(m, TypeOf(args), f, out)
    ensures out == f(args)
  {
    hide Get, TypeOf;
  }

  lemma RequestOfType(me: State, peer: State, o: Outcome, routing: int, ty: nat, id: nat, args: Value)
    requires CalledWith(me, o.call, routing, ty, id, args) && o in me.h.outcomes && o.reply.Some?
    requires Paired(me, peer) && Matched(me, peer)
    ensures o.call in peer.h.replyTo && o.call < |peer.h.completed| && TypeField(peer.h.completed[o.call]) == ty
  {
    ReturnedReplyAnswersItsCall(me, peer, o);
    RequestArrived(me, peer, o.call);
    RequestHasType(routing, ty, id, args);
    hide Paired, Matched, TypeField, Mark, RequestImage;
  }
}
