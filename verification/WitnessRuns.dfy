/** Runs of two channels in which a reply or a message does not arrive. */
module WitnessRuns {
  import opened Bytes
  import opened DeferredMessages
  import opened Endpoint
  import opened EndpointEffects
  import opened EndpointInvariants
  import opened Framing
  import opened Link
  import opened Messages
  import opened Options
  import opened Protocol

  /** Room in the pipes for the messages below. */
  const ROOM: nat := 100

  ghost predicate Along(ts: seq<Turn>, l: Link) {
    LinkRun(ts, ROOM) && LinkAfter(ts, ROOM) == l
  }

  lemma TakeTurn(ts: seq<Turn>, l: Link, side: Side, e: Event) returns (ts': seq<Turn>, l': Link)
    requires Along(ts, l) && CanMove(l, side, e, ROOM)
    ensures ts' == ts + [Turn(side, e)] && l' == Put(l, side, Do(At(l, side), e)) && Along(ts', l')
  {
    ts', l' := ts + [Turn(side, e)], Put(l, side, Do(At(l, side), e));
    assert ts'[..|ts'| - 1] == ts;
    hide Can, Do, InPipe;
  }

  /** A step of the right end that moves no bytes. */
  lemma TakeRight(ts: seq<Turn>, l: Link, e: Event) returns (ts': seq<Turn>, l': Link)
    requires Along(ts, l) && Can(l.right, e) && !e.Sent? && !e.Got?
    ensures ts' == ts + [Turn(Right, e)] && l' == Link(l.left, Do(l.right, e)) && Along(ts', l')
  {
    hide Can, Do, Along;
    ts', l' := TakeTurn(ts, l, Right, e);
  }

  lemma TakeLeft(ts: seq<Turn>, l: Link, e: Event) returns (ts': seq<Turn>, l': Link)
    requires Along(ts, l) && Can(l.left, e) && !e.Sent? && !e.Got?
    ensures ts' == ts + [Turn(Left, e)] && l' == Link(Do(l.left, e), l.right) && Along(ts', l')
  {
    hide Can, Do, Along;
    ts', l' := TakeTurn(ts, l, Left, e);
  }

  /** The turns after `ts` are the right end's, and none of them is a sendReply. */
  predicate Silent(ts: seq<Turn>, ts': seq<Turn>) {
    ts <= ts' && forall n :: |ts| <= n < |ts'| ==> ts'[n].side == Right && !ts'[n].event.SendReply?
  }

  /** A request with no parameters. */
  function Ask(id: nat): (m: Msg)
    requires id < TWO_TO_32
    ensures WellFormed(m) && KindOf(m) == Request && |m| == HEADER_SIZE
  {
    Mark(NewMessage(0, 0, id, 0), SyncBit)
  }

  /** A message with neither flags nor parameters. */
  function Plain(id: nat): (m: Msg)
    requires id < TWO_TO_32
    ensures WellFormed(m) && !Has(m, SyncBit) && !IsReplyError(m) && Id(m) == id && KindOf(m) == Oneway && |m| == HEADER_SIZE
    ensures Mark(m, SyncBit) == Ask(id)
  {
    NewMessage(0, 0, id, 0)
  }

  /** A frame arrives in two reads. */
  lemma ReadFrame(ts: seq<Turn>, l: Link, m: Msg) returns (ts': seq<Turn>, l': Link)
    requires Along(ts, l) && Top(l.right, Reading) && l.right.sock.open && l.right.inBuf == [] && WellFormed(m)
    requires l.right.h.got + Frame(m) <= l.left.h.sent
    ensures Silent(ts, ts') && |ts'| == |ts| + 2 && Along(ts', l') && l'.left == l.left
    ensures l'.right == l.right.(inBuf := Frame(m), h := l.right.h.(got := l.right.h.got + Frame(m)))
  {
    var s := l.right;
    hide Can, Do, Along, Frame, WellFormed, Partial, IsWhole, Missing;
    FrameParts(m);
    var f := Frame(m);
    var x, y := f[..LENGTH_SIZE], f[LENGTH_SIZE..];
    TwoReads(s.h.got, f, l.left.h.sent);
    assert [] + x == x;
    OnGot(s, x);
    var ts1, l1 := TakeTurn(ts, l, Right, Got(x));
    OnGot(l1.right, y);
    ts', l' := TakeTurn(ts1, l1, Right, Got(y));
  }

  lemma TwoReads(got: seq<byte>, f: seq<byte>, sent: seq<byte>)
    requires |f| >= LENGTH_SIZE && got + f <= sent
    ensures f[..LENGTH_SIZE] + f[LENGTH_SIZE..] == f
    ensures (got + f[..LENGTH_SIZE]) + f[LENGTH_SIZE..] == got + f
    ensures f[..LENGTH_SIZE] <= sent[|got|..] && f[LENGTH_SIZE..] <= sent[|got + f[..LENGTH_SIZE]|..]
  {
    assert f[..LENGTH_SIZE] + f[LENGTH_SIZE..] == f;
    assert sent == got + f + sent[|got| + |f|..];
    assert sent[|got|..] == f + sent[|got| + |f|..];
    assert sent[|got| + LENGTH_SIZE..] == f[LENGTH_SIZE..] + sent[|got| + |f|..];
  }

  lemma FrameParts(m: Msg)
    requires WellFormed(m)
    ensures |Frame(m)[..LENGTH_SIZE]| == LENGTH_SIZE == Missing([]) && !IsWhole([]) && Partial(Frame(m)[..LENGTH_SIZE])
    ensures Missing(Frame(m)[..LENGTH_SIZE]) == |m| == |Frame(m)[LENGTH_SIZE..]| && |m| > 0
    ensures !IsWhole(Frame(m)[..LENGTH_SIZE]) && Partial(Frame(m)) && IsWhole(Frame(m)) && Frame(m)[LENGTH_SIZE..] == m
  {
    FrameLength(m);
    PrefixIsPartial(Frame(m)[..LENGTH_SIZE], m);
    PrefixIsPartial(Frame(m), m);
    assert Frame(m)[..LENGTH_SIZE][..LENGTH_SIZE] == Frame(m)[..LENGTH_SIZE];
  }

  /** The sleeping loop of the right end wakes and takes a message to be handled. */
  lemma Receive(ts: seq<Turn>, l: Link, m: Msg) returns (ts': seq<Turn>, l': Link)
    requires Along(ts, l) && AtLoop(l.right.stack) && l.right.sock.open && l.right.inBuf == [] && WellFormed(m)
    requires l.right.h.got + Frame(m) <= l.left.h.sent
    ensures Silent(ts, ts') && |ts'| == |ts| + 4 && Along(ts', l') && l'.left == l.left
    ensures var s := l.right.(stack := Push(Reading, l.right.stack), inBuf := Frame(m), h := l.right.h.(got := l.right.h.got + Frame(m)));
      && (KindOf(m) == Request ==> l'.right == HandleRequest(s, m))
      && (KindOf(m) == Oneway ==> l'.right == HandleOneway(s, m))
  {
    FrameParts(m);
    var f := Frame(m);
    assert f == f[..LENGTH_SIZE] + m;
    hide Can, Do, Along, Frame, WellFormed, Partial, IsWhole, Missing, KindOf, HandleRequest, HandleOneway;
    OnWakeIn(l.right);
    var ts1, l1 := TakeRight(ts, l, WakeIn);
    var ts2, l2 := ReadFrame(ts1, l1, m);
    OnComplete(l2.right, m);
    ts', l' := TakeRight(ts2, l2, Complete);
  }

  /** The right end makes a call, its flush is blocked, and its nested loop starts. */
  lemma CallOut(ts: seq<Turn>, l: Link, m: Msg) returns (ts': seq<Turn>, l': Link)
    requires Along(ts, l) && UserTurn(l.right.stack) && !l.right.call.inNested && l.right.sock.open && !l.right.sock.blocked
    requires l.right.outgoing == [] && l.right.outDone == 0 && WellFormed(m) && Id(m) != 0
    ensures Silent(ts, ts') && |ts'| == |ts| + 3 && ts'[|ts|] == Turn(Right, SendSync(m, true)) && Along(ts', l') && l'.left == l.left
    ensures var s, s' := l.right, l'.right;
      && s'.stack == Push(Waiting, s.stack) && s'.sock.open && s'.sock.blocked && s'.call.timer && s'.call.inNested && s'.inBuf == s.inBuf
      && s'.h.completed == s.h.completed && s'.outgoing != [] && s'.outDone == 0 && s'.h.replyTo == s.h.replyTo && s'.h.got == s.h.got
      && s'.queue == s.queue && s'.dispatcher == s.dispatcher && s'.h.delivered == s.h.delivered
  {
    hide Can, Do, Along, Frame, WellFormed, Id, Mark;
    OnSendSync(l.right, m, true);
    var ts1, l1 := TakeRight(ts, l, SendSync(m, true));
    Unstarted(l1.right);
    OnSendAgain(l1.right);
    var ts2, l2 := TakeRight(ts1, l1, SendAgain);
    OnEnterLoop(l2.right, true);
    ts', l' := TakeRight(ts2, l2, EnterLoop);
  }

  lemma Unstarted(s: State)
    requires MaySend(s) && s.outDone == 0
    ensures SendUnfinished(s)
  {}

  lemma NothingRead()
    ensures !IsWhole([])
  {}

  // ---- what the left end sends -----------------------------------------------------------------

  /** The left end sends the one message it has queued. */
  lemma FlushOne(ts: seq<Turn>, l: Link, m: Msg) returns (ts': seq<Turn>, l': Link)
    requires Along(ts, l) && Top(l.left, Flushing) && l.left.sock.open && !l.left.sock.blocked && l.left.outgoing == [m] && l.left.outDone == 0
    requires |l.left.h.sent| + |Frame(m)| <= |l.right.h.got| + ROOM
    ensures |ts'| == |ts| + 3 && ts <= ts' && Along(ts', l') && l'.right == l.right
    ensures l'.left == l.left.(outgoing := [], stack := l.left.stack.below, h := l.left.h.(sent := l.left.h.sent + Frame(m)))
  {
    hide Can, Do, Along, Frame;
    var ts1, l1 := SendsFrame(ts, l, m);
    assert l.left.outgoing[1..] == [];
    OnFrameDone(l1.left);
    var ts2, l2 := TakeLeft(ts1, l1, FrameDone);
    OnFlushEnd(l2.left);
    ts', l' := TakeLeft(ts2, l2, FlushEnd);
  }

  lemma SendsFrame(ts: seq<Turn>, l: Link, m: Msg) returns (ts': seq<Turn>, l': Link)
    requires Along(ts, l) && MaySend(l.left) && l.left.outgoing == [m] && l.left.outDone == 0
    requires |l.left.h.sent| + |Frame(m)| <= |l.right.h.got| + ROOM
    ensures |ts'| == |ts| + 1 && ts <= ts' && Along(ts', l') && l'.right == l.right
    ensures l'.left == l.left.(outDone := |Frame(m)|, h := l.left.h.(sent := l.left.h.sent + Frame(m)))
  {
    var n := |Frame(m)|;
    assert Frame(m)[0..0 + n] == Frame(m);
    OnSent(l.left, n);
    hide Can, Do, Along, Frame, MaySend;
    ts', l' := TakeTurn(ts, l, Left, Sent(n));
  }

  /** The left end is in its main loop with nothing to send. */
  predicate Idle(s: State) {
    s.stack.Empty? && s.sock.open && !s.sock.blocked && s.outgoing == [] && s.outDone == 0 && !s.call.inNested
  }

  /** It calls, and waits for its reply. */
  lemma Asks(ts: seq<Turn>, l: Link, id: nat) returns (ts': seq<Turn>, l': Link)
    requires Along(ts, l) && Idle(l.left) && 0 < id < TWO_TO_32 && |l.left.h.sent| + 16 <= |l.right.h.got| + ROOM
    ensures |ts'| == |ts| + 5 && ts <= ts' && Along(ts', l') && l'.right == l.right
    ensures l'.left.stack == Push(Waiting, Empty) && l'.left.sock.open && l'.left.outgoing == [] && l'.left.outDone == 0
    ensures l'.left.call.timer && l'.left.call.inNested && l'.left.h.call == |l.left.h.pushed|
    ensures l'.left.h.pushed == l.left.h.pushed + [Ask(id)] && l'.left.h.sent == l.left.h.sent + Frame(Ask(id))
    ensures l'.left.h.outcomes == l.left.h.outcomes
  {
    var m := Plain(id);
    hide Can, Do, Along, WellFormed, Id, Mark, KindOf, Has;
    OnSendSync(l.left, m, true);
    var ts1, l1 := TakeLeft(ts, l, SendSync(m, true));
    var ts2, l2 := FlushOne(ts1, l1, Ask(id));
    hide Frame;
    OnEnterLoop(l2.left, true);
    ts', l' := TakeLeft(ts2, l2, EnterLoop);
  }

  /** Its timer fires, and the call returns nothing. */
  lemma TimesOut(ts: seq<Turn>, l: Link) returns (ts': seq<Turn>, l': Link)
    requires Along(ts, l) && l.left.stack == Push(Waiting, Empty) && l.left.sock.open && l.left.outgoing == [] && l.left.outDone == 0
    requires l.left.call.timer
    ensures |ts'| == |ts| + 4 && ts <= ts' && Along(ts', l') && l'.right == l.right && Idle(l'.left)
    ensures l'.left.h.pushed == l.left.h.pushed && l'.left.h.sent == l.left.h.sent
    ensures l'.left.h.outcomes == l.left.h.outcomes + [Outcome(l.left.h.call, None, l.left.h.acceptedAt)]
  {
    hide Can, Do, Along, IsReplyError;
    OnWakeTimeout(l.left);
    var ts1, l1 := TakeLeft(ts, l, WakeTimeout);
    OnLeaveLoop(l1.left);
    var ts2, l2 := TakeLeft(ts1, l1, LeaveLoop);
    OnFlushEnd(l2.left);
    var ts3, l3 := TakeLeft(ts2, l2, FlushEnd);
    OnCallReturn(l3.left);
    ts', l' := TakeLeft(ts3, l3, CallReturn);
  }

  lemma StartIsAlong()
    ensures Along([], Link(Start(), Start())) && Idle(Start())
  {}

  /** Its first call has returned nothing, and it is in its second. */
  predicate GaveUp(s: State) {
    s.call.inNested && s.h.call == 1 && |s.h.outcomes| == 1 && s.h.outcomes[0].call == 0 && s.h.outcomes[0].reply == None
  }

  /** The caller gives up its first call and makes a second. */
  lemma AsksTwice() returns (ts: seq<Turn>, l: Link)
    ensures |ts| == 14 && Along(ts, l) && l.right == Start()
    ensures l.left.h.sent == Frame(Ask(1)) + Frame(Ask(2)) && GaveUp(l.left)
  {
    StartIsAlong();
    hide Along, Idle, Frame, Ask;
    var ts1, l1 := Asks([], Link(Start(), Start()), 1);
    assert [] + Frame(Ask(1)) == Frame(Ask(1)) && |Frame(Ask(1))| == 16 by { FrameOfAsk(1); }
    var ts2, l2 := TimesOut(ts1, l1);
    ts, l := Asks(ts2, l2, 2);
  }

  lemma FrameOfAsk(id: nat)
    requires id < TWO_TO_32
    ensures |Frame(Ask(id))| == 16
  {}

  // ---- a reply that is lost --------------------------------------------------------------

  /** The request served inside is answered, and the call of the handler times out. */
  lemma Returns(ts: seq<Turn>, l: Link, j: nat, k: Stack) returns (ts': seq<Turn>, l': Link)
    requires Along(ts, l) && l.right.stack == Push(Serving(j), Push(Reading, Push(Waiting, k))) && j < |l.right.h.completed|
    requires var s := l.right; s.sock.open && s.sock.blocked && s.call.timer && s.outgoing != [] && s.outDone == 0 && s.inBuf == []
    ensures Silent(ts, ts') && |ts'| == |ts| + 7 && Turn(Right, WakeTimeout) in ts' && Along(ts', l') && l'.left == l.left
    ensures l'.right.stack == k && l'.right.slot == None && l'.right.h.completed == l.right.h.completed
  {
    NothingRead();
    hide Can, Do, Along, Frame, IsWhole, Finish, IsReplyError;
    OnServeEnd(l.right);
    var ts1, l1 := TakeRight(ts, l, ServeEnd);
    OnFlushEnd(l1.right);
    var ts2, l2 := TakeRight(ts1, l1, FlushEnd);
    OnRecvAgain(l2.right);
    var ts3, l3 := TakeRight(ts2, l2, RecvAgain);
    ts', l' := GivesUp(ts3, l3, k);
  }

  /** The timer fires, and the call returns after a blocked flush. */
  lemma GivesUp(ts: seq<Turn>, l: Link, k: Stack) returns (ts': seq<Turn>, l': Link)
    requires Along(ts, l) && l.right.stack == Push(Waiting, k)
    requires l.right.sock.open && l.right.call.timer && l.right.outgoing != [] && l.right.outDone == 0
    ensures Silent(ts, ts') && |ts'| == |ts| + 4 && ts'[|ts|] == Turn(Right, WakeTimeout) && Along(ts', l') && l'.left == l.left
    ensures l'.right.stack == k && l'.right.slot == l.right.slot && l'.right.h.completed == l.right.h.completed
  {
    hide Can, Do, Along, Frame, IsReplyError;
    OnWakeTimeout(l.right);
    var ts1, l1 := TakeRight(ts, l, WakeTimeout);
    OnLeaveLoop(l1.right);
    var ts2, l2 := TakeRight(ts1, l1, LeaveLoop);
    Unstarted(l2.right);
    OnSendAgain(l2.right);
    var ts3, l3 := TakeRight(ts2, l2, SendAgain);
    OnCallReturn(l3.right);
    ts', l' := TakeRight(ts3, l3, CallReturn);
  }

  /** The handler of the first request replies. */
  lemma Replied(r: Msg) returns (ts1: seq<Turn>, ts2: seq<Turn>, l2: Link)
    requires WellFormed(r) && !Has(r, SyncBit)
    ensures |ts1| == 18 && LinkRun(ts1, ROOM) && Top(LinkAfter(ts1, ROOM).right, Serving(0)) && ts2 == ts1 + [Turn(Right, SendReply(r))]
    ensures Along(ts2, l2) && l2.right.stack == Push(Serving(0), Push(Reading, Empty)) && |l2.right.h.completed| == 1
    ensures var s := l2.right; s.sock == Start().sock && s.call == Start().call && s.outgoing == [] && s.outDone == 0 && s.inBuf == []
    ensures l2.right.h.got == Frame(Ask(1)) && l2.left.h.sent == Frame(Ask(1)) + Frame(Ask(2))
    ensures GaveUp(l2.left)
  {
    hide Can, Do, Along, WellFormed, Has, KindOf, Frame, Ask;
    var ts0, l0 := AsksTwice();
    assert [] + Frame(Ask(1)) == Frame(Ask(1));
    var l1: Link;
    ts1, l1 := Receive(ts0, l0, Ask(1));
    OnSendReply(l1.right, r);
    ts2, l2 := TakeRight(ts1, l1, SendReply(r));
    IsAlong(ts1, l1);
  }

  lemma IsAlong(ts: seq<Turn>, l: Link)
    requires Along(ts, l)
    ensures LinkRun(ts, ROOM) && LinkAfter(ts, ROOM) == l
  {}

  /** It then makes a call that times out while the second request is served. */
  lemma CalledInVain(ts: seq<Turn>, l: Link) returns (ts': seq<Turn>, l': Link)
    requires Along(ts, l) && l.right.stack == Push(Serving(0), Push(Reading, Empty)) && |l.right.h.completed| == 1
    requires var s := l.right; s.sock == Start().sock && s.call == Start().call && s.outgoing == [] && s.outDone == 0 && s.inBuf == []
    requires l.right.h.got == Frame(Ask(1)) && l.left.h.sent == Frame(Ask(1)) + Frame(Ask(2))
    ensures Silent(ts, ts') && |ts'| == |ts| + 14 && Along(ts', l') && l'.left == l.left
    ensures ts'[|ts|] == Turn(Right, SendSync(Plain(9), true)) && Turn(Right, WakeTimeout) in ts'
    ensures l'.right.stack == l.right.stack && l'.right.slot == None && |l'.right.h.completed| == 2
  {
    hide Can, Do, Along, WellFormed, Has, KindOf, Id, Frame, Ask, Plain;
    var ts1, l1 := CallOut(ts, l, Plain(9));
    var ts2, l2 := Receive(ts1, l1, Ask(2));
    ts', l' := Returns(ts2, l2, 1, l.right.stack);
  }

  predicate AnsweredByError(s: State, i: nat) {
    i in s.h.replyTo && s.h.replyTo[i] < |s.h.pushed| && IsReplyError(s.h.pushed[s.h.replyTo[i]])
  }

  /**
   The caller gives up its first call and makes a second.  The handler of the
   first request replies, then makes a call that times out while the second
   request is served: the answer that leaves is an error.
   */
  lemma ReplyIsLost() returns (ts: seq<Turn>, r: Msg)
    ensures LinkRun(ts, ROOM) && |ts| == 34 && !IsReplyError(r)
    ensures LinkRun(ts[..18], ROOM) && Top(LinkAfter(ts[..18], ROOM).right, Serving(0)) && ts[18] == Turn(Right, SendReply(r))
    ensures ts[19] == Turn(Right, SendSync(Plain(9), true)) && Turn(Right, WakeTimeout) in ts
    ensures Silent(ts[..19], ts)
    ensures ts[33] == Turn(Right, ServeEnd) && AnsweredByError(LinkAfter(ts, ROOM).right, 0)
    ensures GaveUp(LinkAfter(ts, ROOM).left)
  {
    r := Plain(3);
    hide *;
    var ts1, ts2, l2 := Replied(r);
    var ts3, l3 := CalledInVain(ts2, l2);
    ts := EndsInError(ts3, l3);
    SilentMore(ts1, ts2, ts3, Turn(Right, SendReply(r)), Turn(Right, ServeEnd));
  }

  /** The handler ends with nothing in the slot. */
  lemma EndsInError(ts: seq<Turn>, l: Link) returns (ts': seq<Turn>)
    requires Along(ts, l) && l.right.stack == Push(Serving(0), Push(Reading, Empty)) && l.right.slot == None && |l.right.h.completed| == 2
    ensures ts' == ts + [Turn(Right, ServeEnd)] && LinkRun(ts', ROOM)
    ensures AnsweredByError(LinkAfter(ts', ROOM).right, 0) && LinkAfter(ts', ROOM).left == l.left
  {
    hide Can, Do, Along, LinkRun, LinkAfter, IsReplyError, Finish;
    OnServeEnd(l.right);
    var l': Link;
    ts', l' := TakeRight(ts, l, ServeEnd);
    IsAlong(ts', l');
    UnansweredIsError(l.right.h.completed[0]);
  }

  lemma SilentMore(ts1: seq<Turn>, ts2: seq<Turn>, ts3: seq<Turn>, t: Turn, t': Turn)
    requires |ts1| == 18 && ts2 == ts1 + [t] && Silent(ts2, ts3) && |ts3| == 33 && t'.side == Right && !t'.event.SendReply?
    ensures var ts := ts3 + [t']; ts[..18] == ts1 && ts[..19] == ts2 && ts[18] == t && ts[19] == ts3[19] && Silent(ts[..19], ts)
  {}

  lemma UnansweredIsError(req: Msg)
    ensures IsReplyError(Finish(None, req))
  {
    FinishIsAnswer(None, req);
  }

  // ---- a message that is stranded ------------------------------------------------------------

  /** The left end sends a message. */
  lemma Tells(id: nat) returns (ts: seq<Turn>, l: Link)
    requires 0 < id < TWO_TO_32
    ensures |ts| == 4 && Along(ts, l) && l.right == Start() && l.left.h.sent == Frame(Plain(id))
  {
    StartIsAlong();
    hide Can, Do, Along, WellFormed, Id, KindOf, Has, Plain, Mark, Idle;
    OnSendAsync(Start(), Plain(id));
    var ts1, l1 := TakeLeft([], Link(Start(), Start()), SendAsync(Plain(id)));
    ts, l := FlushOne(ts1, l1, Plain(id));
    assert [] + Frame(Plain(id)) == Frame(Plain(id));
  }

  /** The connection goes while the right end waits, and its call ends. */
  lemma HangsUp(ts: seq<Turn>, l: Link, m: Msg) returns (ts': seq<Turn>, l': Link)
    requires Along(ts, l) && l.right.stack == Push(Reading, Push(Waiting, Empty)) && l.right.sock.open && l.right.inBuf == []
    requires l.right.queue == [m] && l.right.dispatcher == NoSource && l.right.call.inNested
    ensures ts <= ts' && |ts'| == |ts| + 3 && Along(ts', l') && l'.right.dispatcher == Armed && l'.right.queue == [Marker(), m]
    ensures l'.right.h.delivered == l.right.h.delivered && l'.right.h.completed == l.right.h.completed
    ensures l'.right.stack == Empty && !l'.right.sock.open
  {
    NothingRead();
    hide Can, Do, Along, Frame, IsWhole, Has, IsReplyError, Marker;
    OnRecvAgain(l.right);
    var ts1, l1 := TakeRight(ts, l, RecvAgain);
    OnWakeHup(l1.right);
    var ts2, l2 := TakeRight(ts1, l1, WakeHup);
    OnLeaveLoop(l2.right);
    ts', l' := TakeRight(ts2, l2, LeaveLoop);
  }

  /** The idle source then reports the loss. */
  lemma LosesConnection(ts: seq<Turn>, l: Link, m: Msg) returns (ts': seq<Turn>, l': Link)
    requires Along(ts, l) && l.right.stack == Push(Reading, Push(Waiting, Empty)) && l.right.sock.open && l.right.inBuf == []
    requires l.right.queue == [m] && l.right.dispatcher == NoSource && l.right.call.inNested
    ensures ts <= ts' && |ts'| == |ts| + 5 && Along(ts', l') && l'.right.dispatcher == Spent && l'.right.queue == [m]
    ensures l'.right.h.delivered == l.right.h.delivered && l'.right.h.completed == l.right.h.completed
    ensures l'.right.stack == Empty && !l'.right.sock.open
  {
    hide Can, Do, Along, Has;
    var ts1, l1 := HangsUp(ts, l, m);
    OnWakeIdle(l1.right);
    var ts2, l2 := TakeRight(ts1, l1, WakeIdle);
    assert l2.right.queue[1..] == [m];
    OnReportLoss(l2.right, true);
    ts', l' := TakeRight(ts2, l2, ReportLoss);
  }

  /** A message received in full while a call waits never reaches the listener, because the connection is lost before the call ends. */
  lemma MessageIsStranded() returns (ts: seq<Turn>, m: Msg)
    ensures LinkRun(ts, ROOM) && |ts| == 16
    ensures var s := LinkAfter(ts, ROOM).right;
      && s.h.completed == [m] && KindOf(m) == Oneway && s.queue == [m] && s.h.delivered == [] && s.dispatcher == Spent
      && forall es: seq<Event> :: Follow(s, es) ==> Finally(s, es).h.delivered == []
  {
    m := Plain(5);
    var ts2, l2 := ToldDuringCall(m);
    hide Can, Do, Along, LinkRun, LinkAfter, WellFormed, Has, KindOf, Id, Plain, Frame, Inv, Sealed, Follow, Finally;
    var l3: Link;
    ts, l3 := LosesConnection(ts2, l2, m);
    IsAlong(ts, l3);
    RightInv(ts, l3);
    StrandedIsSealed(l3.right, [m]);
    forall es: seq<Event> | Follow(l3.right, es)
      ensures Finally(l3.right, es).h.delivered == []
    {
      BehindLossNeverDelivered(l3.right, es, [], [m]);
    }
  }

  /** The message arrives while the right end waits. */
  lemma ToldDuringCall(m: Msg) returns (ts: seq<Turn>, l: Link)
    requires m == Plain(5)
    ensures |ts| == 11 && Along(ts, l) && l.right.stack == Push(Reading, Push(Waiting, Empty)) && l.right.sock.open && l.right.inBuf == []
    ensures l.right.queue == [m] && l.right.dispatcher == NoSource && l.right.call.inNested
    ensures l.right.h.delivered == [] && l.right.h.completed == [m]
  {
    hide Can, Do, Along, WellFormed, Has, KindOf, Id, Plain, Frame;
    var ts0, l0 := Tells(5);
    var ts1, l1 := CallOut(ts0, l0, Plain(9));
    assert [] + Frame(m) == Frame(m) && [] + [m] == [m];
    ts, l := Receive(ts1, l1, m);
  }

  lemma RightInv(ts: seq<Turn>, l: Link)
    requires Along(ts, l)
    ensures Inv(l.right)
  {
    LinkRunInv(ts, ROOM);
    hide Inv;
  }

  lemma StrandedIsSealed(s: State, rest: seq<Msg>)
    requires !s.sock.open && s.stack.Empty? && s.dispatcher == Spent && s.h.delivered == [] && s.queue == rest
    ensures Sealed(s, [], rest)
  {}
}
