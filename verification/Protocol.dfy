/** What the pair of channels guarantees in every reachable state. */
module Protocol {
  import opened Bytes
  import opened Endpoint
  import opened EndpointInvariants
  import opened Framing
  import opened Link
  import opened Messages
  import opened Options

  // ---- received bytes are always acceptable --------------------------------------

  /** The frame that the peer's stream continues with. */
  lemma ContinuedFrame(me: State, peer: State, data: seq<byte>) returns (n: Msg)
    requires ReceiveInv(me) && SendInv(peer) && Piped(me, peer) && InPipe(me, peer, data)
    ensures WellFormed(n) && me.inBuf <= Frame(n)
    ensures |me.inBuf + data| <= |Frame(n)| ==> me.inBuf + data <= Frame(n)
  {
    hide Frame, Frames, WellFormed, SendInv, Partial, IsWhole;
    var put, next, done := SentShape(peer);
    StreamDeterminesMessages(put, next, done, me.h.completed, me.inBuf);
    var c := |me.h.completed|;
    n := (put + [next])[c];
    if |me.inBuf + data| <= |Frame(n)| {
      assert put[..c] == me.h.completed;
      Follows(me.h.got, data, peer.h.sent);
      assert me.h.got + data == Frames(put[..c]) + (me.inBuf + data);
      NextBytes(put, next, done, c, me.inBuf + data);
    }
  }

  /**
   Whatever part of the pipe a read returns, up to the current segment's end,
   starts or continues a well-formed frame: what an endpoint assumes of its
   peer holds when the peer is such an endpoint.
   */
  lemma PipedBytesAreAcceptable(me: State, peer: State, data: seq<byte>)
    requires Paired(me, peer) && ReadUnfinished(me) && me.sock.open
    requires 0 < |data| <= Missing(me.inBuf) && InPipe(me, peer, data)
    ensures Can(me, Got(data))
  {
    var n := ContinuedFrame(me, peer, data);
    PrefixIsPartial(me.inBuf, n);
    PrefixIsPartial(me.inBuf + data, n);
    hide Inv, Piped, NotCrossed, Awaited, InPipe, WellFormed, Frame, Partial, IsWhole, Missing;
  }

  lemma Follows(got: seq<byte>, data: seq<byte>, sent: seq<byte>)
    requires got <= sent && data <= sent[|got|..]
    ensures got + data <= sent
  {
    assert sent == got + sent[|got|..];
  }

  // ---- every request is in exactly one place -----------------------------------------

  /** The life of a synchronous request, in order. */
  datatype Place = Queued | OnWire | Served | ReplyQueued | ReplyOnWire | Consumed

  function Rank(p: Place): nat {
    match p
    case Queued => 0
    case OnWire => 1
    case Served => 2
    case ReplyQueued => 3
    case ReplyOnWire => 4
    case Consumed => 5
  }

  /** How many pushed messages have left the queue. */
  function Departed(s: State): int {
    |s.h.pushed| - |s.outgoing|
  }

  /**
   Where request `i` is, given how many messages left the sender's queue, how
   many arrived, the replies given, how many left the peer's queue and how
   many the sender has read.
   */
  function Locate(i: nat, departed: int, arrived: nat, replyTo: map<nat, nat>, replied: int, read: nat): Place {
    if i >= arrived then (if i >= departed then Queued else OnWire)
    else if i !in replyTo then Served
    else if replyTo[i] < read then Consumed
    else if replyTo[i] >= replied then ReplyQueued
    else ReplyOnWire
  }

  function PlaceOf(me: State, peer: State, i: nat): Place {
    Locate(i, Departed(me), |peer.h.completed|, peer.h.replyTo, Departed(peer), |me.h.completed|)
  }

  lemma Partition(h: History, busy: set<nat>, pushed: seq<Msg>, i: nat)
    requires Ledger(h, busy) && h.completed <= pushed && IsRequest(pushed, i)
    ensures i >= |h.completed| ==> i !in busy && i !in h.replyTo
    ensures i < |h.completed| ==> (i in busy <==> i !in h.replyTo)
  {
    hide KindOf, Id;
    if i < |h.completed| { assert IsRequest(h.completed, i); }
  }

  /**
   A request pushed at one end is in exactly one place: still queued, on the
   wire, in the hands of one handler of the peer, or answered by exactly one
   message, itself queued, on the wire or read.
   */
  lemma RequestIsInOnePlace(me: State, peer: State, i: nat)
    requires Paired(me, peer) && IsRequest(me.h.pushed, i)
    ensures Rank(PlaceOf(me, peer, i)) <= 1 <==> i >= |peer.h.completed|
    ensures PlaceOf(me, peer, i) == Served <==> i in InService(peer.stack)
    ensures Rank(PlaceOf(me, peer, i)) >= 3 <==> i in peer.h.replyTo
  {
    CompletedIsPrefixOfPushed(peer, me);
    Partition(peer.h, InService(peer.stack), me.h.pushed, i);
    hide *;
    Located(me, peer, i);
  }

  lemma Located(me: State, peer: State, i: nat)
    ensures PlaceOf(me, peer, i) == Locate(i, Departed(me), |peer.h.completed|, peer.h.replyTo, Departed(peer), |me.h.completed|)
    ensures Rank(PlaceOf(me, peer, i)) <= 1 <==> i >= |peer.h.completed|
    ensures PlaceOf(me, peer, i) == Served <==> i < |peer.h.completed| && i !in peer.h.replyTo
    ensures Rank(PlaceOf(me, peer, i)) >= 3 <==> i < |peer.h.completed| && i in peer.h.replyTo
  {}

  /** What is found there is the request itself... */
  lemma PlaceHoldsRequest(me: State, peer: State, i: nat)
    requires Paired(me, peer) && IsRequest(me.h.pushed, i)
    ensures PlaceOf(me, peer, i) == Queued ==> 0 <= i - Departed(me) < |me.outgoing| && me.outgoing[i - Departed(me)] == me.h.pushed[i]
    ensures PlaceOf(me, peer, i) == Served ==> peer.h.completed[i] == me.h.pushed[i]
  {
    CompletedIsPrefixOfPushed(peer, me);
    QueueHolds(me);
    hide KindOf, Inv, Piped, NotCrossed, Awaited;
  }

  /** ...or an answer with its id. */
  lemma PlaceHoldsReply(me: State, peer: State, i: nat)
    requires Paired(me, peer) && IsRequest(me.h.pushed, i)
    ensures PlaceOf(me, peer, i) == ReplyQueued ==>
              var k := peer.h.replyTo[i] - Departed(peer);
              0 <= k < |peer.outgoing| && KindOf(peer.outgoing[k]) == Answer && Id(peer.outgoing[k]) == Id(me.h.pushed[i])
    ensures PlaceOf(me, peer, i) == Consumed ==>
              var m := me.h.completed[peer.h.replyTo[i]];
              KindOf(m) == Answer && Id(m) == Id(me.h.pushed[i])
  {
    CompletedIsPrefixOfPushed(me, peer);
    QueueHolds(peer);
    if i in peer.h.replyTo { AnswerOf(me, peer, i); }
    LocatedReply(me, peer, i);
    hide *;
    KeptAt(peer.h.pushed, peer.outgoing, Departed(peer), if i in peer.h.replyTo then peer.h.replyTo[i] else 0);
  }

  lemma LocatedReply(me: State, peer: State, i: nat)
    ensures PlaceOf(me, peer, i) == ReplyQueued ==> i in peer.h.replyTo && peer.h.replyTo[i] >= Departed(peer)
    ensures PlaceOf(me, peer, i) == Consumed ==> i in peer.h.replyTo && peer.h.replyTo[i] < |me.h.completed|
  {}

  lemma KeptAt(pushed: seq<Msg>, outgoing: seq<Msg>, departed: int, j: nat)
    requires 0 <= departed <= |pushed| && outgoing == pushed[departed..]
    ensures departed <= j < |pushed| ==> 0 <= j - departed < |outgoing| && outgoing[j - departed] == pushed[j]
  {}

  lemma QueueHolds(s: State)
    requires SendInv(s)
    ensures 0 <= Departed(s) <= |s.h.pushed| && s.outgoing == s.h.pushed[Departed(s)..]
  {}

  lemma DepartedQuiet(s: State, e: Event)
    requires Can(s, e) && !e.FrameDone?
    ensures Departed(ByLoop(s, e)) == Departed(BySending(s, e)) == Departed(ByReading(s, e)) == Departed(ByCall(s, e)) == Departed(s)
  {
    hide KindOf, WellFormed, Partial, IsWhole, Missing, Frame, Finish, Mark, Id, IsReplyError, Marker, Marked, Has;
  }

  lemma DepartedPushing(s: State, e: Event)
    requires Can(s, e)
    ensures Departed(ByApplication(s, e)) == Departed(ByDispatch(s, e)) == Departed(s)
  {
    hide KindOf, WellFormed, Partial, IsWhole, Missing, Frame, Finish, Mark, Id, IsReplyError, Marker, Marked, Has;
  }

  /** Messages leave the queue only by being sent in full. */
  lemma DepartedStep(s: State, e: Event)
    requires Can(s, e)
    ensures Departed(Do(s, e)) == Departed(s) + if e.FrameDone? then 1 else 0
  {
    if e.FrameDone? {
      hide Frame;
    } else {
      DepartedQuiet(s, e);
      DepartedPushing(s, e);
      hide Can, ByApplication, ByLoop, BySending, ByReading, ByDispatch, ByCall;
    }
  }

  /** Progress of the counters only moves a request forward. */
  lemma LocateAdvances(i: nat, departed: int, arrived: nat, replyTo: map<nat, nat>, replied: int, read: nat,
                       departed': int, arrived': nat, replyTo': map<nat, nat>, replied': int, read': nat)
    requires departed <= departed' && arrived <= arrived' && replied <= replied' && read <= read'
    requires i in replyTo ==> i in replyTo' && replyTo'[i] == replyTo[i]
    requires i < arrived || (i in replyTo' ==> i in replyTo)
    requires i in replyTo ==> i < arrived
    ensures Rank(Locate(i, departed', arrived', replyTo', replied', read')) >= Rank(Locate(i, departed, arrived, replyTo, replied, read))
  {}

  /** A step of the end that sent a request never moves the request back. */
  lemma OwnStepAdvances(me: State, peer: State, e: Event, i: nat)
    requires Paired(me, peer) && Can(me, e) && IsRequest(me.h.pushed, i)
    ensures Rank(PlaceOf(Do(me, e), peer, i)) >= Rank(PlaceOf(me, peer, i))
  {
    CompletedIsPrefixOfPushed(peer, me);
    Partition(peer.h, InService(peer.stack), me.h.pushed, i);
    DepartedStep(me, e);
    GrowsStep(me, e);
    var t := Do(me, e);
    Located(me, peer, i);
    Located(t, peer, i);
    hide *;
    LocateAdvances(i, Departed(me), |peer.h.completed|, peer.h.replyTo, Departed(peer), |me.h.completed|,
                   Departed(t), |peer.h.completed|, peer.h.replyTo, Departed(peer), |t.h.completed|);
  }

  /** Nor does a step of its peer. */
  lemma PeerStepAdvances(me: State, peer: State, e: Event, i: nat)
    requires Paired(me, peer) && Can(peer, e) && IsRequest(me.h.pushed, i)
    ensures Rank(PlaceOf(me, Do(peer, e), i)) >= Rank(PlaceOf(me, peer, i))
  {
    CompletedIsPrefixOfPushed(peer, me);
    Partition(peer.h, InService(peer.stack), me.h.pushed, i);
    DepartedStep(peer, e);
    GrowsStep(peer, e);
    RepliesGrow(peer, e);
    var t := Do(peer, e);
    Located(me, peer, i);
    Located(me, t, i);
    hide *;
    LocateAdvances(i, Departed(me), |peer.h.completed|, peer.h.replyTo, Departed(peer), |me.h.completed|,
                   Departed(me), |t.h.completed|, t.h.replyTo, Departed(t), |me.h.completed|);
  }

  /** A reply once given stays, and only a request already received gets one. */
  lemma RepliesGrow(s: State, e: Event)
    requires ServiceInv(s) && Can(s, e)
    ensures forall i :: i in s.h.replyTo ==> i in Do(s, e).h.replyTo && Do(s, e).h.replyTo[i] == s.h.replyTo[i]
    ensures forall i :: i in Do(s, e).h.replyTo ==> i in s.h.replyTo || i < |s.h.completed|
  {
    hide Can, Do, KindOf, Id, InService;
    RepliesEntered(s, e);
    if e.ServeEnd? {
      ServedIsNew(s);
    }
  }

  lemma ServedIsNew(s: State)
    requires ServiceInv(s) && Can(s, ServeEnd)
    ensures s.stack.top.request !in s.h.replyTo && s.stack.top.request < |s.h.completed|
  {
    ServingPushed(s.stack.top, s.stack.below);
    hide KindOf, Id, InService, Finish;
    }

  // ---- no deadlock ------------------------------------------------------------------

  /** The thread is in an event loop that nobody told to quit. */
  predicate Sleeping(s: State) {
    AtLoop(s.stack) && !(Top(s, Waiting) && s.call.quit)
  }

  /** The loop of `x` watches IN and there is something to read. */
  predicate MayRead(x: State, y: State) {
    Sleeping(x) && x.sock.open && |x.h.got| < |y.h.sent|
  }

  /** The loop of `x` watches OUT, has something to write and room to write it. */
  predicate MayWrite(x: State, y: State, capacity: nat) {
    Sleeping(x) && x.sock.open && ActiveOut(x) && x.outgoing != [] && |x.h.sent| < |y.h.got| + capacity
  }

  /** Some end can move bytes between the two. */
  predicate BytesCanMove(x: State, y: State, capacity: nat) {
    MayRead(x, y) || MayRead(y, x) || MayWrite(x, y, capacity) || MayWrite(y, x, capacity)
  }

  lemma SleepingFacts(s: State)
    requires Inv(s) && Sleeping(s)
    ensures !IsWhole(s.inBuf) && !Top(s, Flushing) && !MaySend(s)
    ensures s.sock.open && s.outgoing != [] ==> ActiveOut(s)
    ensures s.stack.Empty? ==> !s.call.inNested
    ensures s.stack.Push? ==> s.call.inNested && s.call.curReply.None? && InService(s.stack) == Postponed(s.stack)
  {
    hide IsWhole, Accepted, KindOf, Id, WellFormed, SendOk, ReceiveOk, Ledger, OutcomeInv, OrderInv, QueueInv, LossInv, SlotInv;
    Popped(s.stack);
  }

  /** A pushed message that has not arrived can be brought nearer. */
  lemma UndeliveredMoves(x: State, y: State, capacity: nat)
    requires Paired(x, y) && Sleeping(x) && Sleeping(y) && x.sock.open && y.sock.open && capacity >= 1
    requires |y.h.completed| < |x.h.pushed|
    ensures BytesCanMove(x, y, capacity)
  {
    SleepingFacts(x);
    SleepingFacts(y);
    if |y.h.got| == |x.h.sent| && x.outgoing == [] {
      DrainedMeansCompleted(y, x);
    }
    hide Inv, Awaited, NotCrossed, IsWhole, MaySend;
  }

  /** So can a request, or its reply, unless a handler of the peer holds it. */
  lemma UnservedMoves(x: State, y: State, capacity: nat)
    requires Paired(x, y) && Sleeping(x) && Sleeping(y) && x.sock.open && y.sock.open && capacity >= 1
    requires x.call.inNested && x.h.call !in InService(y.stack)
    ensures BytesCanMove(x, y, capacity)
  {
    var i := x.h.call;
    CallIsRequest(x);
    CompletedIsPrefixOfPushed(y, x);
    Partition(y.h, InService(y.stack), x.h.pushed, i);
    SleepingFacts(x);
    if i in y.h.replyTo { AnswerOf(x, y, i); }
    PairSymmetric(x, y);
    hide Inv, InService, KindOf, Id, Sleeping, MaySend, IsWhole, Piped, NotCrossed;
    if i < |y.h.completed| {
      UndeliveredMoves(y, x, capacity);
    } else {
      UndeliveredMoves(x, y, capacity);
    }
  }

  lemma CallIsRequest(s: State)
    requires WaitInv(s) && s.call.inNested
    ensures IsRequest(s.h.pushed, s.h.call)
  {}

  /**
   A caller that waits is never waited for in vain: when both ends sleep in
   their event loops on open sockets, bytes can move, however small the pipes.
   In particular two ends that call each other at once both get on.
   */
  lemma WaitingIsNotDeadlock(x: State, y: State, capacity: nat)
    requires Paired(x, y) && Sleeping(x) && Sleeping(y) && x.sock.open && y.sock.open && capacity >= 1
    requires Top(x, Waiting)
    ensures BytesCanMove(x, y, capacity)
  {
    SleepingFacts(x);
    SleepingFacts(y);
    PairSymmetric(x, y);
    hide Inv, Postponed, Sleeping, MaySend, IsWhole, Awaited, Piped;
    if x.h.call !in InService(y.stack) {
      UnservedMoves(x, y, capacity);
    } else {
      NothingInEmptyStack(y.stack);
      UnservedMoves(y, x, capacity);
    }
  }

  lemma NothingInEmptyStack(k: Stack)
    ensures k.Empty? ==> InService(k) == {}
  {}

  lemma SleepingCaller(s: State)
    requires Inv(s) && Sleeping(s) && s.call.inNested
    ensures Top(s, Waiting)
  {
    hide Accepted, KindOf, Id, WellFormed, SendOk, ReceiveOk, Ledger, OutcomeInv, OrderInv, QueueInv, LossInv, SlotInv;
    Popped(s.stack);
  }

  /** A call in progress on open sockets always leaves a thread running, a loop about to end, or bytes to move. */
  lemma CallInProgressIsLive(l: Link, side: Side, capacity: nat)
    requires LinkInv(l) && capacity >= 1 && l.left.sock.open && l.right.sock.open
    requires At(l, side).call.inNested
    ensures !Sleeping(l.left) || !Sleeping(l.right) || BytesCanMove(l.left, l.right, capacity)
  {
    PairSymmetric(l.left, l.right);
    var x, y := At(l, side), At(l, Other(side));
    if Sleeping(x) && Sleeping(y) {
      SleepingCaller(x);
      WaitingIsNotDeadlock(x, y, capacity);
    }
  }

  lemma WokenReads(s: State)
    requires Inv(s) && Sleeping(s) && s.sock.open
    ensures Can(s, WakeIn)
    ensures var t := Do(s, WakeIn); ReadUnfinished(t) && t.sock.open && Missing(t.inBuf) >= 1 && t.h == s.h
  {
    SleepingFacts(s);
    UnfinishedNeedsBytes(s.h.completed, s.h.got, s.inBuf);
    hide IsWhole, Inv, Missing;
  }

  lemma UnfinishedNeedsBytes(completed: seq<Msg>, got: seq<byte>, buf: seq<byte>)
    requires ReceiveOk(completed, got, buf) && !IsWhole(buf)
    ensures Missing(buf) >= 1
  {}

  lemma WokenWrites(s: State)
    requires Inv(s) && Sleeping(s) && s.sock.open && ActiveOut(s) && s.outgoing != []
    ensures Can(s, WakeOut) && Can(Do(s, WakeOut), Sent(1)) && Do(s, WakeOut).h == s.h
  {
    SleepingFacts(s);
    UnsentRemains(s);
    hide IsWhole, Inv, Frame;
    WokenFlushes(s);
  }

  lemma WokenFlushes(s: State)
    requires AtLoop(s.stack) && s.sock.open && ActiveOut(s) && s.outgoing != [] && s.outDone < |Frame(s.outgoing[0])|
    ensures Can(s, WakeOut) && Can(Do(s, WakeOut), Sent(1)) && Do(s, WakeOut).h == s.h
  {
    hide Frame, WellFormed, KindOf, Has, IsWhole, Missing, Partial;
  }

  lemma UnsentRemains(s: State)
    requires SendInv(s) && !MaySend(s) && s.outgoing != []
    ensures s.outDone < |Frame(s.outgoing[0])|
  {
    hide Frame, SendOk;
  }

  lemma NextOfPipe(me: State, y: State) returns (data: seq<byte>)
    requires Paired(me, y) && ReadUnfinished(me) && me.sock.open && Missing(me.inBuf) >= 1 && |me.h.got| < |y.h.sent|
    ensures Can(me, Got(data)) && InPipe(me, y, data)
  {
    data := y.h.sent[|me.h.got|..|me.h.got| + 1];
    hide Paired, Partial, IsWhole, Missing, ReadUnfinished, Can;
    PipedBytesAreAcceptable(me, y, data);
  }

  /** A loop that may read does read when it wakes. */
  lemma MayReadReads(l: Link, side: Side, capacity: nat) returns (data: seq<byte>)
    requires LinkInv(l) && MayRead(At(l, side), At(l, Other(side)))
    ensures CanMove(l, side, WakeIn, capacity)
    ensures CanMove(Move(l, side, WakeIn, capacity), side, Got(data), capacity)
  {
    var x, y := At(l, side), At(l, Other(side));
    PairSymmetric(l.left, l.right);
    WokenReads(x);
    PairStep(x, y, WakeIn);
    hide Paired, Partial, IsWhole, Missing, ReadUnfinished, Can, Do, Sleeping, InPipe;
    data := NextOfPipe(Do(x, WakeIn), y);
  }

  /** A loop that may write does write when it wakes. */
  lemma MayWriteWrites(l: Link, side: Side, capacity: nat)
    requires LinkInv(l) && MayWrite(At(l, side), At(l, Other(side)), capacity)
    ensures CanMove(l, side, WakeOut, capacity)
    ensures CanMove(Move(l, side, WakeOut, capacity), side, Sent(1), capacity)
  {
    WokenWrites(At(l, side));
    hide Paired, Can, Do, Sleeping;
  }

  lemma FrontFits(s: State)
    requires SendInv(s)
    ensures s.outgoing != [] ==> s.outDone <= |Frame(s.outgoing[0])|
  {
    hide Frame, AllWellFormed;
  }

  lemma ServingIsReceived(s: State)
    requires ServiceInv(s) && s.stack.Push? && s.stack.top.Serving?
    ensures s.stack.top.request < |s.h.completed|
  {
    ServingPushed(s.stack.top, s.stack.below);
  }

  // ---- replies reach their calls -----------------------------------------------------

  /** Every answer read is the one the peer gave to some request of this end. */
  lemma AnswerReadAnswersRequest(me: State, peer: State, at: nat)
    requires Paired(me, peer) && IsAnswer(me.h.completed, at)
    ensures at in peer.h.requestOf && me.h.completed[at] == peer.h.pushed[at]
    ensures var i := peer.h.requestOf[at];
      IsRequest(me.h.pushed, i) && i in peer.h.replyTo && peer.h.replyTo[i] == at && Id(me.h.completed[at]) == Id(me.h.pushed[i])
  {
    CompletedIsPrefixOfPushed(me, peer);
    CompletedIsPrefixOfPushed(peer, me);
    AnswersAreKept(peer.h, InService(peer.stack), at);
    hide *;
  }

  lemma AnswersAreKept(h: History, busy: set<nat>, at: nat)
    requires Ledger(h, busy)
    ensures IsAnswer(h.pushed, at) ==> at in h.requestOf
    ensures at in h.requestOf ==>
              var i := h.requestOf[at];
              i in h.replyTo && h.replyTo[i] == at && IsRequest(h.completed, i) && IsAnswer(h.pushed, at)
              && Id(h.pushed[at]) == Id(h.completed[i])
  {
    hide KindOf, Id;
  }

  lemma AnswerHandled(me: State)
    requires Can(me, Complete) && |me.inBuf| >= LENGTH_SIZE && KindOf(me.inBuf[LENGTH_SIZE..]) == Answer
    ensures Do(me, Complete) == HandleAnswer(me, me.inBuf[LENGTH_SIZE..])
  {
    hide KindOf, IsWhole, HandleAnswer;
  }

  // ---- asynchronous messages ------------------------------------------------------------

  /** The listener gets the peer's asynchronous messages in the order they were pushed, none skipped and none repeated. */
  lemma DeliveredIsPrefixOfSent(me: State, peer: State)
    requires Paired(me, peer)
    ensures me.h.delivered + Unmarked(me.queue) <= Select(peer.h.pushed, Oneway)
    ensures me.h.delivered <= Select(peer.h.pushed, Oneway)
  {
    CompletedIsPrefixOfPushed(me, peer);
    SelectPrefix(me.h.completed, peer.h.pushed, Oneway);
    hide Select, Unmarked;
  }

  // ---- the loss of a connection --------------------------------------------------------

  /** `es` can follow in state `s`. */
  ghost predicate Follow(s: State, es: seq<Event>)
    decreases |es|
  {
    es == [] || (Can(s, es[0]) && Follow(Do(s, es[0]), es[1..]))
  }

  ghost function Finally(s: State, es: seq<Event>): State
    requires Follow(s, es)
    decreases |es|
  {
    if es == [] then s else Finally(Do(s, es[0]), es[1..])
  }

  /** From a loss until it is reported nothing more is received and no deferred message reaches the listener. */
  lemma {:induction false} LossPreemptsDeferredMessages(s: State, es: seq<Event>)
    requires Inv(s) && s.h.lossPending && Follow(s, es)
    requires forall e :: e in es ==> !e.ReportLoss?
    ensures var t := Finally(s, es);
      Inv(t) && t.h.lossPending && !t.sock.open && t.h.completed == s.h.completed && t.h.delivered == s.h.delivered
      && t.queue != [] && Has(t.queue[0], DisconnectBit) && t.dispatcher == Armed
    decreases |es|
  {
    hide Can, Do, Inv, Has;
    LossFacts(s);
    if es != [] {
      assert es[0] in es;
      InvStep(s, es[0]);
      LossStaysPending(s, es[0]);
      LossPreemptsDeferredMessages(Do(s, es[0]), es[1..]);
    }
  }

  lemma LossStaysPending(s: State, e: Event)
    requires Inv(s) && s.h.lossPending && Can(s, e) && !e.ReportLoss?
    ensures Do(s, e).h.lossPending
    ensures Do(s, e).h.completed == s.h.completed && Do(s, e).h.delivered == s.h.delivered
  {
    assert !s.sock.open && Has(s.queue[0], DisconnectBit);
    assert !e.Complete? && !e.Deliver?;
    PendingStep(s, e);
  }

  lemma PendingQuiet(s: State, e: Event)
    requires s.h.lossPending && Can(s, e) && !e.ReportLoss? && !e.Complete? && !e.Deliver?
    ensures SameDeliveries(s.h, ByApplication(s, e).h) && SameDeliveries(s.h, ByLoop(s, e).h) && SameDeliveries(s.h, BySending(s, e).h)
  {
    hide KindOf, WellFormed, Partial, IsWhole, Missing, Frame, Finish, Mark, Id, IsReplyError, Marker, Marked, Has;
  }

  lemma PendingStep(s: State, e: Event)
    requires s.h.lossPending && Can(s, e) && !e.ReportLoss? && !e.Complete? && !e.Deliver?
    ensures SameDeliveries(s.h, Do(s, e).h)
  {
    PendingQuiet(s, e);
    hide ByApplication, ByLoop, BySending;
    hide KindOf, WellFormed, Partial, IsWhole, Missing, Frame, Finish, Mark, Id, IsReplyError, Marker, Marked, Has;
  }

  predicate SameDeliveries(h: History, h': History) {
    h'.lossPending && h'.completed == h.completed && h'.delivered == h.delivered
  }

  lemma LossFacts(s: State)
    requires Inv(s)
    ensures s.h.lossPending ==> !s.sock.open && s.queue != [] && Has(s.queue[0], DisconnectBit) && s.dispatcher == Armed
  {}
}
