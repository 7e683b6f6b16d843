/**
 Two channels joined by two byte pipes.  A pipe holds what one end has sent and
 the other has not yet read, at most `capacity` bytes of it; every interleaving
 of the two ends is a run.
 */
module Link {
  import opened Bytes
  import opened Endpoint
  import opened EndpointInvariants
  import opened Framing
  import opened Messages
  import opened Options

  datatype Side = Left | Right

  datatype Link = Link(left: State, right: State)

  function Other(side: Side): Side {
    if side == Left then Right else Left
  }

  function At(l: Link, side: Side): State {
    if side == Left then l.left else l.right
  }

  function Put(l: Link, side: Side, s: State): Link {
    if side == Left then l.(left := s) else l.(right := s)
  }

  /** The bytes on their way to `side`. */
  predicate InPipe(me: State, peer: State, data: seq<byte>) {
    |me.h.got| <= |peer.h.sent| && data <= peer.h.sent[|me.h.got|..]
  }

  predicate CanMove(l: Link, side: Side, e: Event, capacity: nat) {
    var me, peer := At(l, side), At(l, Other(side));
    && Can(me, e)
    && (e.Got? ==> InPipe(me, peer, e.data))
    && (e.Sent? ==> |me.h.sent| + e.n <= |peer.h.got| + capacity)
  }

  function Move(l: Link, side: Side, e: Event, capacity: nat): Link
    requires CanMove(l, side, e, capacity)
  {
    Put(l, side, Do(At(l, side), e))
  }

  // ---- framing --------------------------------------------------------------

  /** The bytes one end read are the first bytes the other sent. */
  ghost predicate Piped(me: State, peer: State) {
    me.h.got <= peer.h.sent
  }

  lemma EmptyStart(m: Msg)
    ensures Frame(m)[..0] == [] && |Frame(m)| > 0
  {}

  /** Some well-formed message. */
  function Filler(): (m: Msg)
    ensures WellFormed(m)
  {
    NewMessage(0, 0, 0, 0)
  }

  /** What an end has sent, split into whole messages and the start of the next. */
  lemma SentShape(s: State) returns (put: seq<Msg>, next: Msg, done: nat)
    requires SendInv(s)
    ensures put <= s.h.pushed && AllWellFormed(put) && WellFormed(next) && done < |Frame(next)|
    ensures s.h.sent == Frames(put) + Frame(next)[..done]
    ensures s.outgoing == [] ==> put == s.h.pushed
    ensures put == s.h.pushed ==> done == 0
    ensures put != s.h.pushed ==> next == s.h.pushed[|put|]
  {
    hide Frame, Frames, WellFormed, MaySend;
    var p, o := s.h.pushed, s.outgoing;
    var k := |p| - |o|;
    if o == [] {
      put, next, done := p, Filler(), 0;
      EmptyStart(next);
    } else if s.outDone < |Frame(o[0])| {
      put, next, done := p[..k], o[0], s.outDone;
      assert o[0] == p[k];
    } else {
      SendWhole(p, s.h.sent, o, s.outDone);
      put, next, done := p[..k + 1], if k + 1 < |p| then p[k + 1] else Filler(), 0;
      EmptyStart(next);
      assert k + 1 == |p| - |o[1..]|;
      if o[1..] == [] { assert p[..k + 1] == p; } else { assert o[1..][0] == p[k + 1]; }
    }
  }

  /**
   Framing: the messages completed at one end are the first ones pushed at the
   other, and the unfinished frame starts the next of them.
   */
  lemma CompletedIsPrefixOfPushed(me: State, peer: State)
    requires ReceiveInv(me) && SendInv(peer) && Piped(me, peer)
    ensures me.h.completed <= peer.h.pushed
    ensures me.inBuf != [] ==> |me.h.completed| < |peer.h.pushed| && me.inBuf <= Frame(peer.h.pushed[|me.h.completed|])
  {
    hide Frame, Frames, WellFormed, MaySend, SendInv, Partial, IsWhole;
    var put, next, done := SentShape(peer);
    StreamDeterminesMessages(put, next, done, me.h.completed, me.inBuf);
    if me.h.completed == peer.h.pushed {
      EmptyStart(next);
      assert |me.h.got| <= |peer.h.sent|;
    }
  }

  /** Nothing is lost: with both pipes drained and nothing queued, everything pushed has been completed. */
  lemma DrainedMeansCompleted(me: State, peer: State)
    requires ReceiveInv(me) && SendInv(peer) && me.h.got == peer.h.sent
    requires peer.outgoing == [] && !IsWhole(me.inBuf)
    ensures me.h.completed == peer.h.pushed
  {
    hide Frame, Frames, WellFormed, MaySend, SendInv, Partial, IsWhole;
    var put, next, done := SentShape(peer);
    StreamDeterminesMessages(put, next, done, me.h.completed, me.inBuf);
  }

  // ---- every run of the pair ---------------------------------------------------

  /** The requests in service that wait for the call in progress to end. */
  function Postponed(k: Stack): set<nat> {
    if k.Empty? then {}
    else if IsCall(k.top) then InService(k.below)
    else Postponed(k.below)
  }

  /** The reply to the call of `me` has been read. */
  predicate ReplyRead(me: State, peer: State) {
    me.h.call in peer.h.replyTo && peer.h.replyTo[me.h.call] < |me.h.completed|
  }

  /** Of two calls in progress, at most one waits for the other. */
  predicate NotCrossed(x: State, y: State) {
    x.call.inNested && y.call.inNested ==> x.h.call !in Postponed(y.stack) || y.h.call !in Postponed(x.stack)
  }

  /** A call whose reply was read has accepted it. */
  predicate Awaited(x: State, y: State) {
    x.call.inNested && ReplyRead(x, y) ==> x.call.curReply.Some?
  }

  ghost predicate Paired(x: State, y: State) {
    && Inv(x) && Inv(y)
    && Piped(x, y) && Piped(y, x)
    && NotCrossed(x, y)
    && Awaited(x, y) && Awaited(y, x)
  }

  ghost predicate LinkInv(l: Link) {
    Paired(l.left, l.right)
  }

  // ---- steps -----------------------------------------------------------------------

  lemma PostponedPushed(a: Activity, k: Stack)
    ensures Postponed(Push(a, k)) == if IsCall(a) then InService(k) else Postponed(k)
  {}

  lemma {:induction false} PostponedInService(k: Stack)
    ensures Postponed(k) <= InService(k)
  {
    if k.Push? {
      PostponedInService(k.below);
    }
  }

  /** What a step does to the call in progress. */
  predicate CallKept(s: State, t: State) {
    t.call.inNested ==>
      s.call.inNested && t.h.call == s.h.call && Postponed(t.stack) == Postponed(s.stack)
      && (s.call.curReply.Some? ==> t.call.curReply.Some?)
  }

  lemma CallKeptSending(s: State, e: Event)
    requires Can(s, e)
    ensures CallKept(s, BySending(s, e))
  {
    hide KindOf, WellFormed, Partial, IsWhole, Missing, Frame, Finish, Mark, Id, IsReplyError, Marker, Marked, Has;
    hide Postponed;
    if s.stack.Push? { PostponedPushed(s.stack.top, s.stack.below); }
  }

  lemma CallKeptReading(s: State, e: Event)
    requires Can(s, e)
    ensures CallKept(s, ByReading(s, e))
  {
    hide KindOf, WellFormed, Partial, IsWhole, Missing, Frame, Finish, Mark, Id, IsReplyError, Marker, Marked, Has;
    hide Postponed;
    if s.stack.Push? { PostponedPushed(s.stack.top, s.stack.below); }
    PostponedPushed(Serving(|s.h.completed|), s.stack);
    PostponedPushed(Dispatching(false), s.stack);
  }

  lemma CallKeptDispatch(s: State, e: Event)
    requires Can(s, e)
    ensures CallKept(s, ByDispatch(s, e))
  {
    hide KindOf, WellFormed, Partial, IsWhole, Missing, Frame, Finish, Mark, Id, IsReplyError, Marker, Marked, Has;
    hide Postponed;
    if s.stack.Push? {
      PostponedPushed(s.stack.top, s.stack.below);
      PostponedPushed(Flushing, s.stack.below);
    }
    PostponedPushed(Delivering, s.stack);
  }

  lemma CallKeptCall(s: State, e: Event)
    requires Can(s, e)
    ensures CallKept(s, ByCall(s, e))
  {
    hide KindOf, WellFormed, Partial, IsWhole, Missing, Frame, Finish, Mark, Id, IsReplyError, Marker, Marked, Has;
    hide Postponed;
    if s.stack.Push? {
      PostponedPushed(s.stack.top, s.stack.below);
      PostponedPushed(Waiting, s.stack.below);
    }
  }

  lemma CallKeptElse(s: State, e: Event)
    requires Can(s, e) && !e.SendSync?
    ensures CallKept(s, ByApplication(s, e)) && CallKept(s, ByLoop(s, e))
  {
    hide KindOf, WellFormed, Partial, IsWhole, Missing, Frame, Finish, Mark, Id, IsReplyError, Marker, Marked, Has;
    hide Postponed;
    PostponedPushed(Flushing, s.stack);
    PostponedPushed(Reading, s.stack);
    PostponedPushed(Dispatching(true), s.stack);
  }

  lemma CallKeptStep(s: State, e: Event)
    requires Can(s, e) && !e.SendSync?
    ensures CallKept(s, Do(s, e))
  {
    hide Can, ByApplication, ByLoop, BySending, ByReading, ByDispatch, ByCall, CallKept;
    CallKeptElse(s, e);
    CallKeptSending(s, e);
    CallKeptReading(s, e);
    CallKeptDispatch(s, e);
    CallKeptCall(s, e);
  }

  lemma CallMade(s: State, m: Msg, timed: bool)
    requires Can(s, SendSync(m, timed))
    ensures var t := Do(s, SendSync(m, timed)); t.h.call == |s.h.pushed| && Postponed(t.stack) == InService(s.stack)
  {
    hide KindOf, WellFormed, Partial, IsWhole, Missing, Frame, Finish, Mark, Id, IsReplyError, Marker, Marked, Has;
    hide Postponed, InService;
    PostponedPushed(Calling(timed), s.stack);
    PostponedPushed(Flushing, Push(Calling(timed), s.stack));
  }

  lemma StepPiped(me: State, peer: State, e: Event)
    requires Piped(me, peer) && Piped(peer, me) && Can(me, e) && (e.Got? ==> InPipe(me, peer, e.data))
    ensures Piped(Do(me, e), peer) && Piped(peer, Do(me, e))
  {
    StreamStep(me, e);
    hide Can, Do;
    if e.Got? {
      assert peer.h.sent == peer.h.sent[..|me.h.got|] + peer.h.sent[|me.h.got|..];
    }
  }

  /** Indices of requests and answers at one end are indices of what the other pushed. */
  lemma ServedWasPushed(me: State, peer: State)
    requires Inv(me) && Inv(peer) && Piped(peer, me)
    ensures forall i :: i in InService(peer.stack) || i in peer.h.replyTo ==> i < |me.h.pushed|
    ensures forall i :: i in Postponed(peer.stack) ==> i < |me.h.pushed|
  {
    CompletedIsPrefixOfPushed(peer, me);
    PostponedInService(peer.stack);
    hide KindOf, Id, InService, Postponed, SendInv, ReceiveInv, StackInv, OutputInv, OrderInv, WaitInv, OutcomeInv, LossInv;
  }

  lemma StepNotCrossed(me: State, peer: State, e: Event)
    requires Paired(me, peer) && Can(me, e)
    ensures NotCrossed(Do(me, e), peer)
  {
    ServedWasPushed(me, peer);
    if e.SendSync? {
      CallMade(me, e.msg, e.timed);
    } else {
      CallKeptStep(me, e);
    }
    hide Can, Do, Inv, Postponed, InService, Piped, Awaited;
  }

  /** The answer kept for request `i` answers it with its id. */
  lemma AnswerOf(me: State, peer: State, i: nat)
    requires Inv(me) && Inv(peer) && Piped(peer, me) && i in peer.h.replyTo
    ensures i < |me.h.pushed| && KindOf(me.h.pushed[i]) == Request
    ensures var j := peer.h.replyTo[i];
      j < |peer.h.pushed| && KindOf(peer.h.pushed[j]) == Answer && Id(peer.h.pushed[j]) == Id(me.h.pushed[i])
      && j in peer.h.requestOf && peer.h.requestOf[j] == i
  {
    CompletedIsPrefixOfPushed(peer, me);
    RepliedTo(peer.h, InService(peer.stack), i);
    hide *;
    SameAt(peer.h.completed, me.h.pushed, i);
  }

  lemma RepliedTo(h: History, busy: set<nat>, i: nat)
    requires Ledger(h, busy) && i in h.replyTo
    ensures i < |h.completed| && KindOf(h.completed[i]) == Request
    ensures var j := h.replyTo[i];
      j < |h.pushed| && KindOf(h.pushed[j]) == Answer && Id(h.pushed[j]) == Id(h.completed[i])
      && j in h.requestOf && h.requestOf[j] == i
  {
    hide KindOf, Id;
  }

  lemma SameAt(p: seq<Msg>, q: seq<Msg>, i: nat)
    requires p <= q && i < |p|
    ensures i < |q| && q[i] == p[i]
  {}

  /** The message about to complete is the next one the peer pushed. */
  lemma CompletingIsNextPushed(me: State, peer: State)
    requires Inv(me) && Inv(peer) && Piped(me, peer) && Can(me, Complete)
    ensures |me.inBuf| >= LENGTH_SIZE && |me.h.completed| < |peer.h.pushed|
    ensures peer.h.pushed[|me.h.completed|] == me.inBuf[LENGTH_SIZE..]
  {
    CompleteHasLength(me);
    CompletedIsPrefixOfPushed(me, peer);
    var n := peer.h.pushed[|me.h.completed|];
    ReceiveWhole(me.h.completed, me.h.got, me.inBuf);
    PushedIsWellFormed(peer, |me.h.completed|);
    PrefixIsPartial(me.inBuf, n);
    FrameLength(n);
  }

  lemma PushedIsWellFormed(s: State, i: nat)
    requires SendInv(s) && i < |s.h.pushed|
    ensures WellFormed(s.h.pushed[i])
  {}

  lemma AnswerAccepted(s: State)
    requires Can(s, Complete) && |s.inBuf| >= LENGTH_SIZE
    requires s.call.inNested && KindOf(s.inBuf[LENGTH_SIZE..]) == Answer && Id(s.inBuf[LENGTH_SIZE..]) == s.call.curId
    ensures Do(s, Complete).call.curReply == Some(s.inBuf[LENGTH_SIZE..])
    ensures Do(s, Complete).call.inNested
  {
    hide KindOf, Id, IsWhole;
  }

  lemma AwaitedWhenCalling(me: State, peer: State, e: Event)
    requires Paired(me, peer) && Can(me, e) && e.SendSync?
    ensures Awaited(Do(me, e), peer)
  {
    hide Can, Do, Inv, Postponed, InService, Piped, NotCrossed;
    ServedWasPushed(me, peer);
    CallMade(me, e.msg, e.timed);
  }

  lemma AwaitedWhenReading(me: State, peer: State)
    requires Paired(me, peer) && Can(me, Complete)
    ensures Awaited(Do(me, Complete), peer)
  {
    hide Can, Do, Inv, Postponed, Piped, NotCrossed, Id, KindOf;
    CallKeptStep(me, Complete);
    CompletedByOne(me);
    if me.call.inNested && me.h.call in peer.h.replyTo && peer.h.replyTo[me.h.call] == |me.h.completed| {
      CompletedAnswersCall(me, peer);
    }
  }

  lemma CompletedByOne(s: State)
    requires Can(s, Complete)
    ensures |Do(s, Complete).h.completed| == |s.h.completed| + 1
  {
    LedgerStep(s, Complete);
    hide Can, Do;
  }

  lemma AwaitedElse(me: State, peer: State, e: Event)
    requires Awaited(me, peer) && Can(me, e) && !e.SendSync? && !e.Complete?
    ensures Awaited(Do(me, e), peer)
  {
    hide Can, Do, Postponed, Mark, Finish;
    CallKeptStep(me, e);
    LedgerStep(me, e);
  }

  lemma StepAwaited(me: State, peer: State, e: Event)
    requires Paired(me, peer) && Can(me, e)
    ensures Awaited(Do(me, e), peer)
  {
    hide Can, Do, Inv, Piped, NotCrossed, Awaited;
    if e.SendSync? {
      AwaitedWhenCalling(me, peer, e);
    } else if e.Complete? {
      AwaitedWhenReading(me, peer);
    } else {
      AwaitedElse(me, peer, e);
    }
  }

  lemma CompletedAnswersCall(me: State, peer: State)
    requires Paired(me, peer) && Can(me, Complete)
    requires me.call.inNested && me.h.call in peer.h.replyTo && peer.h.replyTo[me.h.call] == |me.h.completed|
    ensures Do(me, Complete).call.curReply.Some?
  {
    CompletingIsNextPushed(me, peer);
    AnswerOf(me, peer, me.h.call);
    assert me.call.curId == Id(me.h.pushed[me.h.call]);
    AnswerAccepted(me);
  }

  lemma StepPeerAwaited(me: State, peer: State, e: Event)
    requires Paired(me, peer) && Can(me, e)
    ensures Awaited(peer, Do(me, e))
  {
    CompletedIsPrefixOfPushed(peer, me);
    RepliesEntered(me, e);
    hide Can, Do, Inv, Piped, NotCrossed;
  }

  lemma PairStep(me: State, peer: State, e: Event)
    requires Paired(me, peer) && Can(me, e) && (e.Got? ==> InPipe(me, peer, e.data))
    ensures Paired(Do(me, e), peer)
  {
    hide Can, Do, Inv, Piped, NotCrossed, Awaited, InPipe;
    InvStep(me, e);
    StepPiped(me, peer, e);
    StepNotCrossed(me, peer, e);
    StepAwaited(me, peer, e);
    StepPeerAwaited(me, peer, e);
  }

  lemma PairSymmetric(x: State, y: State)
    requires Paired(x, y)
    ensures Paired(y, x)
  {
    hide Inv, Piped, Awaited, Postponed;
  }

  lemma LinkStep(l: Link, side: Side, e: Event, capacity: nat)
    requires LinkInv(l) && CanMove(l, side, e, capacity)
    ensures LinkInv(Move(l, side, e, capacity))
  {
    hide Paired, Do, Can, InPipe;
    var me, peer := At(l, side), At(l, Other(side));
    PairSymmetric(l.left, l.right);
    PairStep(me, peer, e);
    PairSymmetric(Do(me, e), peer);
  }

  datatype Turn = Turn(side: Side, event: Event)

  /** `ts` is a run of the pair from the start, with pipes of this capacity. */
  ghost predicate LinkRun(ts: seq<Turn>, capacity: nat)
    decreases |ts|, 0
  {
    ts == [] ||
    (LinkRun(ts[..|ts| - 1], capacity)
     && CanMove(LinkAfter(ts[..|ts| - 1], capacity), ts[|ts| - 1].side, ts[|ts| - 1].event, capacity))
  }

  ghost function LinkAfter(ts: seq<Turn>, capacity: nat): Link
    requires LinkRun(ts, capacity)
    decreases |ts|, 1
  {
    if ts == [] then Link(Start(), Start())
    else Move(LinkAfter(ts[..|ts| - 1], capacity), ts[|ts| - 1].side, ts[|ts| - 1].event, capacity)
  }

  lemma LinkStart()
    ensures LinkInv(Link(Start(), Start()))
  {
    InvStart();
    hide Inv;
  }

  /** Every state of every interleaving of the two ends satisfies the invariant. */
  lemma {:induction false} LinkRunInv(ts: seq<Turn>, capacity: nat)
    requires LinkRun(ts, capacity)
    ensures LinkInv(LinkAfter(ts, capacity))
  {
    hide LinkInv, CanMove, Move, Start;
    if ts == [] {
      LinkStart();
    } else {
      var n := |ts| - 1;
      LinkRunInv(ts[..n], capacity);
      LinkStep(LinkAfter(ts[..n], capacity), ts[n].side, ts[n].event, capacity);
    }
  }

  // ---- the two ends on their own -------------------------------------------------

  /** What one end did in a run of the pair. */
  function EventsOf(ts: seq<Turn>, side: Side): seq<Event> {
    if ts == [] then []
    else EventsOf(ts[..|ts| - 1], side) + if ts[|ts| - 1].side == side then [ts[|ts| - 1].event] else []
  }

  /** Each end of a run of the pair goes through a run of its own. */
  lemma {:induction false} EachEndRuns(ts: seq<Turn>, capacity: nat, side: Side)
    requires LinkRun(ts, capacity)
    ensures ValidRun(EventsOf(ts, side)) && After(EventsOf(ts, side)) == At(LinkAfter(ts, capacity), side)
    decreases |ts|
  {
    hide Can, Do, Start, InPipe;
    if ts != [] {
      var n := |ts| - 1;
      EachEndRuns(ts[..n], capacity, side);
      var es := EventsOf(ts[..n], side);
      if ts[n].side == side {
        assert EventsOf(ts, side) == es + [ts[n].event];
        assert (es + [ts[n].event])[..|es|] == es;
      } else {
        assert EventsOf(ts, side) == es;
      }
    }
  }
}
