/** What every run of one endpoint keeps. */
module EndpointInvariants {
  import opened Bytes
  import opened Endpoint
  import opened Framing
  import opened Messages
  import opened Options

  // ---- the control stack ------------------------------------------------

  predicate IsCall(a: Activity) {
    a.Calling? || a.Waiting?
  }

  predicate HasCall(k: Stack) {
    k.Push? && (IsCall(k.top) || HasCall(k.below))
  }

  predicate HasWaiting(k: Stack) {
    k.Push? && (k.top.Waiting? || HasWaiting(k.below))
  }

  /** Which call may be made from which. */
  predicate MayEnter(a: Activity, b: Stack) {
    match a
    case Flushing => b.Empty? || !b.top.Flushing?
    case Reading => AtLoop(b)
    case Serving(_) => b.Push? && b.top.Reading?
    case Dispatching(idle) => if idle then b.Empty? else b.Push? && b.top.Reading? && b.below.Empty?
    case Delivering => b.Push? && b.top.Dispatching?
    case Calling(_) => UserTurn(b) && !HasCall(b)
    case Waiting => UserTurn(b) && !HasCall(b)
    case Returning(_) => UserTurn(b) && !HasCall(b)
  }

  predicate Nested(k: Stack) {
    k.Push? ==> Nested(k.below) && MayEnter(k.top, k.below)
  }

  ghost predicate StackInv(s: State) {
    && Nested(s.stack)
    && s.call.inNested == HasCall(s.stack)
    && s.sock.nestedSource == HasWaiting(s.stack)
  }

  lemma {:induction false} WaitingIsCall(k: Stack)
    ensures HasWaiting(k) ==> HasCall(k)
  {
    if k.Push? {
      WaitingIsCall(k.below);
    }
  }

  lemma Pushed(a: Activity, k: Stack)
    requires Nested(k) && MayEnter(a, k)
    ensures Nested(Push(a, k))
    ensures HasCall(Push(a, k)) == (IsCall(a) || HasCall(k))
    ensures HasWaiting(Push(a, k)) == (a.Waiting? || HasWaiting(k))
  {}

  lemma Popped(k: Stack)
    requires Nested(k)
    ensures k.Push? ==> Nested(k.below) && MayEnter(k.top, k.below)
    ensures k.Push? ==> HasCall(k) == (IsCall(k.top) || HasCall(k.below))
    ensures k.Push? ==> HasWaiting(k) == (k.top.Waiting? || HasWaiting(k.below))
    ensures k.Empty? ==> !HasCall(k) && !HasWaiting(k)
    ensures HasWaiting(k) ==> HasCall(k)
  {
    WaitingIsCall(k);
  }

  function HandledStack(s: State, m: Msg): Stack {
    match KindOf(m)
    case Request => Push(Serving(|s.h.completed|), s.stack)
    case Answer => s.stack
    case Oneway => if s.call.inNested then s.stack else Push(Dispatching(false), s.stack)
  }

  lemma HandleEffect(s: State, m: Msg)
    ensures Handle(s, m).stack == HandledStack(s, m)
    ensures Handle(s, m).call.inNested == s.call.inNested && Handle(s, m).sock.nestedSource == s.sock.nestedSource
  {
    hide KindOf, Id;
  }

  lemma StackHandle(s: State, m: Msg)
    requires StackInv(s) && Top(s, Reading)
    ensures StackInv(Handle(s, m))
  {
    hide Handle, KindOf, Id, Nested, HasCall, HasWaiting;
    HandleEffect(s, m);
    Popped(s.stack);
    Popped(s.stack.below);
    Pushed(Serving(|s.h.completed|), s.stack);
    if !s.call.inNested { Pushed(Dispatching(false), s.stack); }
  }

  lemma StackApplication(s: State, e: Event)
    requires StackInv(s) && Can(s, e)
    ensures StackInv(ByApplication(s, e))
  {
    hide KindOf, WellFormed, Partial, IsWhole, Missing, Frame, Has, Finish, Mark, Id, IsReplyError, Marker, Marked;
    hide Nested, HasCall, HasWaiting;
    Popped(s.stack);
    match e {
      case SendAsync(_) => Pushed(Flushing, s.stack);
      case Drain(_) => Pushed(Flushing, s.stack);
      case SendSync(_, timed) =>
        Pushed(Calling(timed), s.stack);
        Pushed(Flushing, Push(Calling(timed), s.stack));
      case _ =>
    }
  }

  lemma StackSending(s: State, e: Event)
    requires StackInv(s) && Can(s, e)
    ensures StackInv(BySending(s, e))
  {
    hide KindOf, WellFormed, Partial, IsWhole, Missing, Frame, Has, Finish, Mark, Id, IsReplyError, Marker, Marked;
    hide Nested, HasCall, HasWaiting;
    Popped(s.stack);
  }

  lemma StackDispatch(s: State, e: Event)
    requires StackInv(s) && Can(s, e)
    ensures StackInv(ByDispatch(s, e))
  {
    hide KindOf, WellFormed, Partial, IsWhole, Missing, Frame, Has, Finish, Mark, Id, IsReplyError, Marker, Marked;
    hide Nested, HasCall, HasWaiting;
    Popped(s.stack);
    match e {
      case ServeEnd => Pushed(Flushing, s.stack.below);
      case Deliver => Pushed(Delivering, s.stack);
      case _ =>
    }
  }

  lemma StackCall(s: State, e: Event)
    requires StackInv(s) && Can(s, e)
    ensures StackInv(ByCall(s, e))
  {
    hide KindOf, WellFormed, Partial, IsWhole, Missing, Frame, Has, Finish, Mark, Id, IsReplyError, Marker, Marked;
    hide Nested, HasCall, HasWaiting;
    Popped(s.stack);
    if s.stack.Push? { Popped(s.stack.below); }
    match e {
      case EnterLoop => Pushed(Waiting, s.stack.below);
      case LeaveLoop =>
        var r := AfterLoop(s).stack;
        if s.sock.open {
          Pushed(r.below.top, s.stack.below);
          Pushed(Flushing, r.below);
        }
      case _ =>
    }
  }

  lemma StackStep(s: State, e: Event)
    requires StackInv(s) && Can(s, e)
    ensures StackInv(Do(s, e))
  {
    hide Handle, ByApplication, BySending, ByDispatch, ByCall;
    hide KindOf, WellFormed, Partial, IsWhole, Missing, Frame, Has, Finish, Mark, Id, IsReplyError, Marker, Marked;
    hide Nested, HasCall, HasWaiting;
    Popped(s.stack);
    StackApplication(s, e);
    StackSending(s, e);
    StackDispatch(s, e);
    StackCall(s, e);
    match e {
      case WakeOut => Pushed(Flushing, s.stack);
      case WakeIn => Pushed(Reading, s.stack);
      case WakeIdle => Pushed(Dispatching(true), s.stack);
      case Complete =>
        WholeHasLength(s.inBuf);
        StackHandle(s, s.inBuf[LENGTH_SIZE..]);
      case _ =>
    }
  }

  lemma WholeHasLength(buf: seq<byte>)
    requires IsWhole(buf)
    ensures |buf| >= LENGTH_SIZE
  {}

  // ---- output is never stalled ------------------------------------------

  /** The source of the loop in charge is not yet created while sendSyncMessage flushes. */
  predicate SourceExists(s: State) {
    s.call.inNested ==> s.sock.nestedSource
  }

  predicate OutputInv(s: State) {
    && (s.sock.open && SourceExists(s) ==> ActiveOut(s) == s.sock.blocked)
    && (s.sock.open && s.outgoing != [] && !Top(s, Flushing) ==> s.sock.blocked)
    && (s.sock.blocked ==> s.outgoing != [])
  }

  lemma OutputSending(s: State, e: Event)
    requires StackInv(s) && OutputInv(s) && Can(s, e)
    ensures OutputInv(BySending(s, e))
  {
    hide KindOf, WellFormed, Partial, IsWhole, Missing, Frame, Has, Finish, Mark, Id, IsReplyError, Marker, Marked;
    hide Nested, HasCall, HasWaiting;
    Popped(s.stack);
  }

  lemma OutputCall(s: State, e: Event)
    requires StackInv(s) && OutputInv(s) && Can(s, e)
    ensures OutputInv(ByCall(s, e))
  {
    hide KindOf, WellFormed, Partial, IsWhole, Missing, Frame, Has, Finish, Mark, Id, IsReplyError, Marker, Marked;
    hide Nested, HasCall, HasWaiting;
    Popped(s.stack);
    if s.stack.Push? { Popped(s.stack.below); }
  }

  lemma OutputReading(s: State, e: Event)
    requires OutputInv(s) && Can(s, e)
    ensures OutputInv(ByReading(s, e))
  {
    hide KindOf, WellFormed, Partial, IsWhole, Missing, Frame, Has, Finish, Mark, Id, IsReplyError, Marker, Marked;
  }

  lemma OutputStep(s: State, e: Event)
    requires StackInv(s) && OutputInv(s) && Can(s, e)
    ensures OutputInv(Do(s, e))
  {
    hide KindOf, WellFormed, Partial, IsWhole, Missing, Frame, Has, Finish, Mark, Id, IsReplyError, Marker, Marked;
    hide Nested, HasCall, HasWaiting, BySending, ByCall, ByReading;
    Popped(s.stack);
    OutputSending(s, e);
    OutputCall(s, e);
    OutputReading(s, e);
  }

  // ---- the byte streams --------------------------------------------------

  /** What was sent is the frames of the messages that left the queue and the start of the front one. */
  ghost predicate SendOk(pushed: seq<Msg>, sent: seq<byte>, outgoing: seq<Msg>, done: nat) {
    && AllWellFormed(pushed)
    && |outgoing| <= |pushed|
    && outgoing == pushed[|pushed| - |outgoing|..]
    && (if outgoing == [] then done == 0 && sent == Frames(pushed)
        else done <= |Frame(outgoing[0])|
             && sent == Frames(pushed[..|pushed| - |outgoing|]) + Frame(outgoing[0])[..done])
  }

  ghost predicate SendInv(s: State) {
    && SendOk(s.h.pushed, s.h.sent, s.outgoing, s.outDone)
    && (s.outgoing != [] && !MaySend(s) ==> s.outDone < |Frame(s.outgoing[0])|)
  }

  lemma SendMore(pushed: seq<Msg>, sent: seq<byte>, outgoing: seq<Msg>, done: nat, n: nat)
    requires SendOk(pushed, sent, outgoing, done) && outgoing != [] && done + n <= |Frame(outgoing[0])|
    ensures SendOk(pushed, sent + Frame(outgoing[0])[done..done + n], outgoing, done + n)
  {
    hide Frame, Frames, WellFormed;
    var f := Frame(outgoing[0]);
    assert f[..done + n] == f[..done] + f[done..done + n];
  }

  lemma SendWhole(pushed: seq<Msg>, sent: seq<byte>, outgoing: seq<Msg>, done: nat)
    requires SendOk(pushed, sent, outgoing, done) && outgoing != [] && done == |Frame(outgoing[0])|
    ensures SendOk(pushed, sent, outgoing[1..], 0)
  {
    hide Frame, Frames, WellFormed;
    var k := |pushed| - |outgoing|;
    var f := Frame(outgoing[0]);
    FramesAppend(pushed[..k], pushed[k]);
    assert pushed[..k + 1] == pushed[..k] + [pushed[k]];
    assert f[..done] == f;
    assert sent == Frames(pushed[..k + 1]);
    if |outgoing| == 1 {
      assert pushed[..k + 1] == pushed;
    } else {
      assert Frame(outgoing[1..][0])[..0] == [];
    }
  }

  lemma SendPush(pushed: seq<Msg>, sent: seq<byte>, outgoing: seq<Msg>, done: nat, ms: seq<Msg>)
    requires SendOk(pushed, sent, outgoing, done) && AllWellFormed(ms)
    ensures SendOk(pushed + ms, sent, outgoing + ms, done)
    ensures outgoing != [] ==> (outgoing + ms)[0] == outgoing[0]
  {
    hide Frame, Frames, WellFormed;
    var k := |pushed| - |outgoing|;
    assert (pushed + ms)[..k] == pushed[..k];
    assert AllWellFormed(pushed + ms);
    assert (pushed + ms)[k..] == outgoing + ms;
    if ms == [] {
      assert pushed + ms == pushed && outgoing + ms == outgoing;
    } else if outgoing == [] {
      assert (outgoing + ms)[0] == ms[0];
      assert pushed[..k] == pushed;
      assert Frame(ms[0])[..0] == [];
      assert sent == Frames(pushed) + Frame(ms[0])[..0];
    }
  }

  /** What was read is the frames of the completed messages and the start of the next. */
  ghost predicate ReceiveOk(completed: seq<Msg>, got: seq<byte>, buf: seq<byte>) {
    && AllWellFormed(completed)
    && got == Frames(completed) + buf
    && Partial(buf)
  }

  ghost predicate ReceiveInv(s: State) {
    && ReceiveOk(s.h.completed, s.h.got, s.inBuf)
    && (IsWhole(s.inBuf) ==> Top(s, Reading) && s.sock.open)
  }

  lemma ReceiveWhole(completed: seq<Msg>, got: seq<byte>, buf: seq<byte>)
    requires ReceiveOk(completed, got, buf) && IsWhole(buf)
    ensures |buf| >= LENGTH_SIZE && WellFormed(buf[LENGTH_SIZE..])
    ensures ReceiveOk(completed + [buf[LENGTH_SIZE..]], got, [])
  {
    WholeIsFrame(buf);
    FramesAppend(completed, buf[LENGTH_SIZE..]);
    hide Frame, Frames, WellFormed;
  }

  lemma MarkKeepsForm(m: Msg)
    requires WellFormed(m)
    ensures WellFormed(Mark(m, SyncBit)) && KindOf(Mark(m, SyncBit)) == Request && Id(Mark(m, SyncBit)) == Id(m)
  {}

  /** Whatever a handler leaves in the slot, what leaves the channel is a well-formed answer with the request's id. */
  lemma FinishIsAnswer(slot: Option<Msg>, req: Msg)
    requires slot.Some? ==> WellFormed(slot.value) && !Has(slot.value, SyncBit)
    ensures WellFormed(Finish(slot, req)) && KindOf(Finish(slot, req)) == Answer
    ensures Id(Finish(slot, req)) == Id(req)
    ensures IsReplyError(Finish(slot, req)) == (slot.None? || IsReplyError(slot.value))
  {
    IdRange(req);
  }

  /** The slot only ever holds what a handler may reply with. */
  predicate SlotInv(s: State) {
    s.slot.Some? ==> WellFormed(s.slot.value) && !Has(s.slot.value, SyncBit)
  }

  lemma SlotStep(s: State, e: Event)
    requires SlotInv(s) && Can(s, e)
    ensures SlotInv(Do(s, e))
  {
    hide KindOf, WellFormed, Partial, IsWhole, Missing, Frame, Has, Finish, Mark, Id, IsReplyError, Marker, Marked;
  }

  lemma OneWellFormed(m: Msg)
    requires WellFormed(m)
    ensures AllWellFormed([m])
  {}

  lemma SendStep(s: State, e: Event)
    requires SlotInv(s) && SendInv(s) && Can(s, e)
    ensures SendInv(Do(s, e))
  {
    hide KindOf, WellFormed, Partial, IsWhole, Missing, Frame, Has, Finish, Mark, Id, IsReplyError, Marker, Marked, SendOk;
    var p, t, o, d := s.h.pushed, s.h.sent, s.outgoing, s.outDone;
    QueueShape(p, t, o, d);
    match e {
      case SendAsync(m) =>
        OneWellFormed(m);
        SendPush(p, t, o, d, [m]);
      case SendSync(m, _) =>
        MarkKeepsForm(m);
        OneWellFormed(Mark(m, SyncBit));
        SendPush(p, t, o, d, [Mark(m, SyncBit)]);
      case Drain(ms) => SendPush(p, t, o, d, ms);
      case ServeEnd =>
        var r := Finish(s.slot, s.h.completed[s.stack.top.request]);
        FinishIsAnswer(s.slot, s.h.completed[s.stack.top.request]);
        OneWellFormed(r);
        SendPush(p, t, o, d, [r]);
      case Sent(n) => SendMore(p, t, o, d, n);
      case FrameDone =>
        SendWhole(p, t, o, d);
        if o[1..] != [] { QueueShape(p, t, o[1..], 0); }
      case _ =>
    }
  }

  lemma QueueShape(pushed: seq<Msg>, sent: seq<byte>, outgoing: seq<Msg>, done: nat)
    requires SendOk(pushed, sent, outgoing, done)
    ensures outgoing != [] ==> done <= |Frame(outgoing[0])| && 0 < |Frame(outgoing[0])|
    ensures outgoing == [] ==> done == 0
  {
    hide Frames, WellFormed;
  }

  lemma ReceiveStep(s: State, e: Event)
    requires ReceiveInv(s) && Can(s, e)
    ensures ReceiveInv(Do(s, e))
  {
    hide KindOf, WellFormed, Frame, Has, Finish, Mark, Id, IsReplyError, Marker, Marked, ReceiveOk, Partial, IsWhole, Missing;
    match e {
      case Got(data) => ReceiveMore(s.h.completed, s.h.got, s.inBuf, data);
      case Complete =>
        ReceiveWhole(s.h.completed, s.h.got, s.inBuf);
        EmptyNotWhole();
      case _ =>
    }
  }

  lemma EmptyNotWhole()
    ensures !IsWhole([])
  {}

  lemma ReceiveMore(completed: seq<Msg>, got: seq<byte>, buf: seq<byte>, data: seq<byte>)
    requires ReceiveOk(completed, got, buf) && Partial(buf + data)
    ensures ReceiveOk(completed, got + data, buf + data)
  {
    hide Frames, WellFormed, Partial;
    assert (Frames(completed) + buf) + data == Frames(completed) + (buf + data);
  }

  // ---- asynchronous messages ------------------------------------------------

  /** Delivered and still queued messages are the asynchronous ones received, in order of arrival. */
  ghost predicate OrderInv(s: State) {
    s.h.delivered + Unmarked(s.queue) == Select(s.h.completed, Oneway)
  }

  lemma OrderStep(s: State, e: Event)
    requires ReceiveInv(s) && OrderInv(s) && Can(s, e)
    ensures OrderInv(Do(s, e))
  {
    hide WellFormed, Frame, Has, Finish, Mark, Id, IsReplyError, Partial, IsWhole, Missing, KindOf, Select, Unmarked, ReceiveOk, Marker;
    var q := s.queue;
    MarkerUnmarked(q);
    match e {
      case Complete =>
        ReceiveWhole(s.h.completed, s.h.got, s.inBuf);
        var m := s.inBuf[LENGTH_SIZE..];
        SelectAppend(s.h.completed, m, Oneway);
        UnmarkedAppend(q, m);
        NotDisconnect(m);
        assert s.h.delivered + (Unmarked(q) + [m]) == (s.h.delivered + Unmarked(q)) + [m];
      case Deliver =>
        UnmarkedHead(q);
        assert s.h.delivered + ([q[0]] + Unmarked(q[1..])) == (s.h.delivered + [q[0]]) + Unmarked(q[1..]);
      case ReportLoss => UnmarkedHead(q);
      case _ =>
    }
  }

  lemma NotDisconnect(m: Msg)
    requires WellFormed(m)
    ensures !Has(m, DisconnectBit)
  {}

  lemma UnmarkedHead(q: seq<Msg>)
    requires q != []
    ensures Unmarked(q) == (if Has(q[0], DisconnectBit) then [] else [q[0]]) + Unmarked(q[1..])
  {}

  lemma MarkerUnmarked(q: seq<Msg>)
    ensures Unmarked([Marker()] + q) == Unmarked(q)
  {
    assert ([Marker()] + q)[1..] == q;
  }

  // ---- loss of the connection -----------------------------------------------

  /** Nothing on the stack reads, waits or dispatches. */
  predicate OnlySends(k: Stack) {
    || k.Empty?
    || (k.top.Flushing? && (k.below.Empty? || (k.below.top.Calling? && k.below.below.Empty?)))
    || (k.top.Calling? && k.below.Empty?)
  }

  /**
   An unreported loss stays at the front of the queue with a live source that
   will report it; once the idle source has reported one, none is pending.
   */
  predicate LossInv(s: State) {
    && (s.h.lossPending ==> !s.sock.open && s.dispatcher == Armed && s.queue != [] && Has(s.queue[0], DisconnectBit))
    && (s.dispatcher == Spent ==> !s.sock.open && !s.h.lossPending && OnlySends(s.stack))
  }

  /** Disconnect markers are only queued once the connection is lost. */
  ghost predicate QueueInv(s: State) {
    s.sock.open ==> forall m :: m in s.queue ==> !Has(m, DisconnectBit)
  }

  lemma QueueStep(s: State, e: Event)
    requires ReceiveInv(s) && QueueInv(s) && Can(s, e)
    ensures QueueInv(Do(s, e))
  {
    hide KindOf, WellFormed, Partial, IsWhole, Missing, Frame, Finish, Mark, Id, IsReplyError, Marker, Has, ReceiveOk;
    if e.Complete? {
      ReceiveWhole(s.h.completed, s.h.got, s.inBuf);
      NotDisconnect(s.inBuf[LENGTH_SIZE..]);
    }
  }

  lemma MarkerIsMarked()
    ensures Has(Marker(), DisconnectBit)
  {}

  lemma LossSending(s: State, e: Event)
    requires StackInv(s) && LossInv(s) && Can(s, e)
    ensures LossInv(BySending(s, e))
  {
    hide KindOf, WellFormed, Partial, IsWhole, Missing, Frame, Finish, Mark, Id, IsReplyError, Marker, Has;
    hide Nested, HasCall, HasWaiting;
    Popped(s.stack);
    MarkerIsMarked();
  }

  lemma LossReading(s: State, e: Event)
    requires StackInv(s) && LossInv(s) && Can(s, e)
    ensures LossInv(ByReading(s, e))
  {
    hide KindOf, WellFormed, Partial, IsWhole, Missing, Frame, Finish, Mark, Id, IsReplyError, Marker, Has;
    hide Nested, HasCall, HasWaiting;
    Popped(s.stack);
    MarkerIsMarked();
  }

  lemma LossDispatch(s: State, e: Event)
    requires StackInv(s) && QueueInv(s) && LossInv(s) && Can(s, e)
    ensures LossInv(ByDispatch(s, e))
  {
    hide KindOf, WellFormed, Partial, IsWhole, Missing, Frame, Finish, Mark, Id, IsReplyError, Marker, Marked, Has;
    hide Nested, HasCall, HasWaiting;
    Popped(s.stack);
    MarkerIsMarked();
  }

  lemma LossCall(s: State, e: Event)
    requires StackInv(s) && LossInv(s) && Can(s, e)
    ensures LossInv(ByCall(s, e))
  {
    hide KindOf, WellFormed, Partial, IsWhole, Missing, Frame, Finish, Mark, Id, IsReplyError, Marker, Marked, Has;
    hide Nested, HasCall, HasWaiting;
    Popped(s.stack);
    MarkerIsMarked();
  }

  lemma LossStep(s: State, e: Event)
    requires StackInv(s) && QueueInv(s) && LossInv(s) && Can(s, e)
    ensures LossInv(Do(s, e))
  {
    hide BySending, ByReading, ByDispatch, ByCall;
    hide KindOf, WellFormed, Partial, IsWhole, Missing, Frame, Finish, Mark, Id, IsReplyError, Marker, Has;
    hide Nested, HasCall, HasWaiting;
    Popped(s.stack);
    MarkerIsMarked();
    LossSending(s, e);
    LossReading(s, e);
    LossDispatch(s, e);
    LossCall(s, e);
  }

  // ---- deferred messages have a dispatcher --------------------------------------

  predicate HasDispatching(k: Stack) {
    k.Push? && (k.top.Dispatching? || HasDispatching(k.below))
  }

  /**
   Queued messages without an idle source are on an open socket, where a
   dispatcher is at work already or the end of the call in progress arms one.
   */
  predicate DispatchInv(s: State) {
    s.queue != [] && s.dispatcher.NoSource? ==> s.sock.open && (s.call.inNested || HasDispatching(s.stack))
  }

  lemma DispatchingPushed(a: Activity, k: Stack)
    ensures HasDispatching(Push(a, k)) == (a.Dispatching? || HasDispatching(k))
  {}

  lemma DispatchSending(s: State, e: Event)
    requires DispatchInv(s) && Can(s, e)
    ensures DispatchInv(BySending(s, e)) && DispatchInv(ByLoop(s, e)) && DispatchInv(ByApplication(s, e))
  {
    hide KindOf, WellFormed, Partial, IsWhole, Missing, Frame, Finish, Mark, Id, IsReplyError, Marker, Marked, Has, HasDispatching;
    if s.stack.Push? { DispatchingPushed(s.stack.top, s.stack.below); }
    DispatchingPushed(Flushing, s.stack);
    DispatchingPushed(Reading, s.stack);
    DispatchingPushed(Dispatching(true), s.stack);
    if e.SendSync? {
      DispatchingPushed(Calling(e.timed), s.stack);
      DispatchingPushed(Flushing, Push(Calling(e.timed), s.stack));
    }
  }

  lemma DispatchReading(s: State, e: Event)
    requires ReceiveInv(s) && DispatchInv(s) && Can(s, e)
    ensures DispatchInv(ByReading(s, e))
  {
    hide KindOf, WellFormed, Partial, Missing, IsWhole, Id, Marker, Marked, Has, HasDispatching, ReceiveOk;
    if s.stack.Push? { DispatchingPushed(s.stack.top, s.stack.below); }
    DispatchingPushed(Serving(|s.h.completed|), s.stack);
    DispatchingPushed(Dispatching(false), s.stack);
  }

  lemma DispatchHandling(s: State, e: Event)
    requires QueueInv(s) && DispatchInv(s) && Can(s, e)
    ensures DispatchInv(ByDispatch(s, e)) && DispatchInv(ByCall(s, e))
  {
    hide KindOf, WellFormed, Finish, Mark, Id, IsReplyError, Has, HasDispatching;
    if s.stack.Push? {
      DispatchingPushed(s.stack.top, s.stack.below);
      DispatchingPushed(Flushing, s.stack.below);
      DispatchingPushed(Waiting, s.stack.below);
    }
    DispatchingPushed(Delivering, s.stack);
    if e.ReportLoss? { assert s.queue[0] in s.queue; }
  }

  lemma DispatchStep(s: State, e: Event)
    requires ReceiveInv(s) && QueueInv(s) && DispatchInv(s) && Can(s, e)
    ensures DispatchInv(Do(s, e))
  {
    hide Can, ByApplication, ByLoop, BySending, ByReading, ByDispatch, ByCall, DispatchInv, ReceiveInv, QueueInv;
    DispatchSending(s, e);
    DispatchReading(s, e);
    DispatchHandling(s, e);
  }

  // ---- synchronous calls -----------------------------------------------------

  /** The reply a finished wait is about to return. */
  function ReplyInHand(k: Stack): Option<Msg> {
    if k.Push? && k.top.Returning? then k.top.reply
    else if k.Push? && k.top.Flushing? && k.below.Push? && k.below.top.Returning? then k.below.top.reply
    else None
  }

  /** `m`, found at `at` among the received messages, is an answer with the id of call number `call`. */
  predicate Accepted(h: History, call: nat, at: nat, m: Msg) {
    && call < |h.pushed| && KindOf(h.pushed[call]) == Request
    && at < |h.completed| && h.completed[at] == m
    && KindOf(m) == Answer && Id(m) == Id(h.pushed[call])
  }

  predicate Good(h: History, o: Outcome) {
    o.reply.Some? ==> Accepted(h, o.call, o.acceptedAt, o.reply.value) && !IsReplyError(o.reply.value)
  }

  /** The call in progress and the reasons for its loop to end. */
  predicate WaitInv(s: State) {
    && (s.call.inNested ==>
          s.h.call < |s.h.pushed| && KindOf(s.h.pushed[s.h.call]) == Request
          && s.call.curId == Id(s.h.pushed[s.h.call]) && s.call.curId != 0)
    && (!s.call.inNested ==> s.call.curId == 0)
    && (s.call.curReply.Some? ==>
          s.sock.nestedSource && s.call.quit && Accepted(s.h, s.h.call, s.h.acceptedAt, s.call.curReply.value))
    && (s.sock.nestedSource ==> s.call.inNested)
    && (s.sock.nestedSource ==> (s.call.quit <==> s.call.curReply.Some? || s.call.timedOut || !s.sock.open))
  }

  ghost predicate OutcomeInv(s: State) {
    && (ReplyInHand(s.stack).Some? ==> Good(s.h, Outcome(s.h.call, ReplyInHand(s.stack), s.h.acceptedAt)))
    && forall o :: o in s.h.outcomes ==> Good(s.h, o)
  }

  lemma WaitSending(s: State, e: Event)
    requires WaitInv(s) && Can(s, e)
    ensures WaitInv(BySending(s, e))
  {
    hide KindOf, WellFormed, Partial, IsWhole, Missing, Frame, Finish, Mark, Id, IsReplyError, Marker, Marked, Has;
  }

  lemma WaitReading(s: State, e: Event)
    requires StackInv(s) && WaitInv(s) && Can(s, e)
    ensures WaitInv(ByReading(s, e))
  {
    hide KindOf, WellFormed, Partial, Missing, Frame, Finish, Mark, Id, IsReplyError, Marker, Marked, Has;
    hide Nested, HasCall, HasWaiting;
    Popped(s.stack);
    if s.stack.Push? { Popped(s.stack.below); }
  }

  lemma WaitCall(s: State, e: Event)
    requires StackInv(s) && WaitInv(s) && Can(s, e)
    ensures WaitInv(ByCall(s, e))
  {
    hide KindOf, WellFormed, Partial, IsWhole, Missing, Frame, Finish, Mark, Id, IsReplyError, Marker, Marked, Has;
    hide Nested, HasCall, HasWaiting;
    Popped(s.stack);
    if s.stack.Push? { Popped(s.stack.below); }
  }

  lemma WaitStep(s: State, e: Event)
    requires StackInv(s) && WaitInv(s) && Can(s, e)
    ensures WaitInv(Do(s, e))
  {
    hide KindOf, WellFormed, Partial, IsWhole, Missing, Frame, Finish, Mark, Id, IsReplyError, Marker, Marked, Has;
    hide Nested, HasCall, HasWaiting, BySending, ByReading, ByCall;
    Popped(s.stack);
    if e.SendSync? { MarkKeepsForm(e.msg); }
    WaitSending(s, e);
    WaitReading(s, e);
    WaitCall(s, e);
  }

  /** The part of the history that requests and answers are counted in. */
  predicate SameLedger(h: History, h': History) {
    h'.pushed == h.pushed && h'.completed == h.completed && h'.replyTo == h.replyTo && h'.requestOf == h.requestOf
  }

  predicate Pushed1(h: History, h': History, ms: seq<Msg>) {
    h'.pushed == h.pushed + ms && h'.completed == h.completed && h'.replyTo == h.replyTo && h'.requestOf == h.requestOf
  }

  /** What a step enters into that part. */
  predicate Entered(s: State, e: Event, h': History)
    requires Can(s, e)
  {
    match e
    case SendAsync(m) => Pushed1(s.h, h', [m])
    case SendSync(m, _) => Pushed1(s.h, h', [Mark(m, SyncBit)])
    case Drain(ms) => Pushed1(s.h, h', ms)
    case Complete =>
      h'.pushed == s.h.pushed && h'.completed == s.h.completed + [s.inBuf[LENGTH_SIZE..]]
      && h'.replyTo == s.h.replyTo && h'.requestOf == s.h.requestOf
    case ServeEnd =>
      var i := s.stack.top.request;
      h'.pushed == s.h.pushed + [Finish(s.slot, s.h.completed[i])] && h'.completed == s.h.completed
      && h'.replyTo == s.h.replyTo[i := |s.h.pushed|] && h'.requestOf == s.h.requestOf[|s.h.pushed| := i]
    case _ => SameLedger(s.h, h')
  }

  lemma LedgerLoop(s: State, e: Event)
    requires Can(s, e)
    ensures SameLedger(s.h, ByLoop(s, e).h)
  {
    hide KindOf, WellFormed, Partial, IsWhole, Missing, Frame, Finish, Mark, Id, IsReplyError, Marker, Marked, Has;
  }

  lemma LedgerSending(s: State, e: Event)
    requires Can(s, e)
    ensures SameLedger(s.h, BySending(s, e).h)
  {
    hide KindOf, WellFormed, Partial, IsWhole, Missing, Frame, Finish, Mark, Id, IsReplyError, Marker, Marked, Has;
  }

  lemma LedgerCall(s: State, e: Event)
    requires Can(s, e)
    ensures SameLedger(s.h, ByCall(s, e).h)
  {
    hide KindOf, WellFormed, Partial, IsWhole, Missing, Frame, Finish, Mark, Id, IsReplyError, Marker, Marked, Has;
  }

  lemma LedgerApplication(s: State, e: Event)
    requires Can(s, e) && (e.SendAsync? || e.SendSync? || e.SendReply? || e.Drain?)
    ensures Entered(s, e, ByApplication(s, e).h)
  {
    hide KindOf, WellFormed, Frame, Finish, Mark, Id, Has;
  }

  lemma LedgerReading(s: State, e: Event)
    requires Can(s, e) && (e.Got? || e.Complete? || e.RecvAgain? || e.RecvErr?)
    ensures Entered(s, e, ByReading(s, e).h)
  {
    hide KindOf, WellFormed, Partial, Missing, Frame, Finish, Mark, Id, IsReplyError, Marked, Has;
  }

  lemma LedgerDispatch(s: State, e: Event)
    requires Can(s, e) && (e.ServeEnd? || e.Deliver? || e.DeliverEnd? || e.ReportLoss? || e.DispatchEnd?)
    ensures Entered(s, e, ByDispatch(s, e).h)
  {
    hide KindOf, WellFormed, Frame, Finish, Mark, Id, IsReplyError, Has;
  }

  lemma LedgerStep(s: State, e: Event)
    requires Can(s, e)
    ensures Entered(s, e, Do(s, e).h)
  {
    hide Can, ByApplication, ByLoop, BySending, ByReading, ByDispatch, ByCall, Finish, Mark, IsWhole;
    if e.SendAsync? || e.SendSync? || e.SendReply? || e.Drain? {
      LedgerApplication(s, e);
    } else if e.Got? || e.Complete? || e.RecvAgain? || e.RecvErr? {
      LedgerReading(s, e);
    } else if e.ServeEnd? || e.Deliver? || e.DeliverEnd? || e.ReportLoss? || e.DispatchEnd? {
      LedgerDispatch(s, e);
    } else {
      LedgerLoop(s, e);
      LedgerSending(s, e);
      LedgerCall(s, e);
    }
  }

  /** A step gives a reply only at the end of a service, and under a fresh index. */
  lemma RepliesEntered(s: State, e: Event)
    requires Can(s, e)
    ensures Do(s, e).h.replyTo == if e.ServeEnd? then s.h.replyTo[s.stack.top.request := |s.h.pushed|] else s.h.replyTo
  {
    LedgerStep(s, e);
    hide Do, Finish, Mark;
  }

  /** Only a call pushes a request. */
  lemma PushedNoRequest(s: State, e: Event)
    requires SlotInv(s) && Can(s, e) && !e.SendSync?
    ensures s.h.pushed <= Do(s, e).h.pushed
    ensures forall i: nat :: IsRequest(Do(s, e).h.pushed, i) ==> IsRequest(s.h.pushed, i)
  {
    LedgerStep(s, e);
    if e.ServeEnd? { FinishIsAnswer(s.slot, s.h.completed[s.stack.top.request]); }
    hide Do, WellFormed, Finish, Mark, Id, Has, IsReplyError;
  }

  /** History only grows, and what was accepted stays accepted. */
  predicate Grows(h: History, h': History) {
    h.pushed <= h'.pushed && h.completed <= h'.completed
  }

  lemma GrowsStep(s: State, e: Event)
    requires Can(s, e)
    ensures Grows(s.h, Do(s, e).h)
  {
    hide Can, Do, Finish, Mark, IsWhole;
    LedgerStep(s, e);
  }

  predicate SameStreams(h: History, h': History) {
    h'.sent == h.sent && h'.got == h.got
  }

  lemma QuietApplication(s: State, e: Event)
    requires Can(s, e)
    ensures SameStreams(s.h, ByApplication(s, e).h)
  {
    hide KindOf, WellFormed, Partial, IsWhole, Missing, Frame, Finish, Mark, Id, IsReplyError, Marker, Marked, Has;
  }

  lemma QuietLoop(s: State, e: Event)
    requires Can(s, e)
    ensures SameStreams(s.h, ByLoop(s, e).h)
  {
    hide KindOf, WellFormed, Partial, IsWhole, Missing, Frame, Finish, Mark, Id, IsReplyError, Marker, Marked, Has;
  }

  lemma QuietSending(s: State, e: Event)
    requires Can(s, e) && !e.Sent?
    ensures SameStreams(s.h, BySending(s, e).h)
  {
    hide KindOf, WellFormed, Partial, IsWhole, Missing, Frame, Finish, Mark, Id, IsReplyError, Marker, Marked, Has;
  }

  lemma QuietReading(s: State, e: Event)
    requires Can(s, e) && !e.Got?
    ensures SameStreams(s.h, ByReading(s, e).h)
  {
    hide KindOf, WellFormed, Partial, IsWhole, Missing, Frame, Finish, Mark, Id, IsReplyError, Marker, Marked, Has;
  }

  lemma QuietDispatch(s: State, e: Event)
    requires Can(s, e)
    ensures SameStreams(s.h, ByDispatch(s, e).h)
  {
    hide KindOf, WellFormed, Partial, IsWhole, Missing, Frame, Finish, Mark, Id, IsReplyError, Marker, Marked, Has;
  }

  lemma QuietCall(s: State, e: Event)
    requires Can(s, e)
    ensures SameStreams(s.h, ByCall(s, e).h)
  {
    hide KindOf, WellFormed, Partial, IsWhole, Missing, Frame, Finish, Mark, Id, IsReplyError, Marker, Marked, Has;
  }

  /** Only a send adds to what was sent, and only a receive to what was read. */
  predicate Streamed(h: History, e: Event, h': History) {
    match e
    case Sent(n) => h.sent <= h'.sent && |h'.sent| == |h.sent| + n && h'.got == h.got
    case Got(data) => h'.sent == h.sent && h'.got == h.got + data
    case _ => SameStreams(h, h')
  }

  lemma StreamStep(s: State, e: Event)
    requires Can(s, e)
    ensures Streamed(s.h, e, Do(s, e).h)
  {
    if e.Sent? || e.Got? {
      hide WellFormed, Partial, IsWhole, Missing, Frame;
    } else {
      hide Can, ByApplication, ByLoop, ByDispatch, ByCall, BySending, ByReading;
      QuietApplication(s, e);
      QuietLoop(s, e);
      QuietSending(s, e);
      QuietReading(s, e);
      QuietDispatch(s, e);
      QuietCall(s, e);
    }
  }

  /** A reply in hand comes from the accepted one, and is what the call returns. */
  ghost predicate HandedOn(s: State, t: State) {
    && (ReplyInHand(t.stack).Some? ==>
          t.h.call == s.h.call && t.h.acceptedAt == s.h.acceptedAt
          && (ReplyInHand(t.stack) == ReplyInHand(s.stack)
              || (s.call.curReply.Some? && Good(s.h, Outcome(s.h.call, ReplyInHand(t.stack), s.h.acceptedAt)))))
    && (forall o :: o in t.h.outcomes && o !in s.h.outcomes ==>
          o.reply.None? || o == Outcome(s.h.call, ReplyInHand(s.stack), s.h.acceptedAt))
  }

  lemma HandSending(s: State, e: Event)
    requires StackInv(s) && WaitInv(s) && Can(s, e)
    ensures HandedOn(s, BySending(s, e))
  {
    hide KindOf, WellFormed, Partial, IsWhole, Missing, Frame, Finish, Mark, Id, IsReplyError, Marker, Marked, Has;
    hide Nested, HasCall, HasWaiting, Accepted;
    Popped(s.stack);
    if s.stack.Push? { Popped(s.stack.below); }
  }

  lemma HandReading(s: State, e: Event)
    requires StackInv(s) && WaitInv(s) && Can(s, e)
    ensures HandedOn(s, ByReading(s, e))
  {
    hide KindOf, WellFormed, Partial, IsWhole, Missing, Frame, Finish, Mark, Id, IsReplyError, Marker, Marked, Has;
    hide Nested, HasCall, HasWaiting, Accepted;
    Popped(s.stack);
  }

  lemma HandDispatch(s: State, e: Event)
    requires StackInv(s) && WaitInv(s) && Can(s, e)
    ensures HandedOn(s, ByDispatch(s, e))
  {
    hide KindOf, WellFormed, Partial, IsWhole, Missing, Frame, Finish, Mark, Id, IsReplyError, Marker, Marked, Has;
    hide Nested, HasCall, HasWaiting, Accepted;
    Popped(s.stack);
    if s.stack.Push? { Popped(s.stack.below); }
  }

  lemma HandCall(s: State, e: Event)
    requires StackInv(s) && WaitInv(s) && Can(s, e)
    ensures HandedOn(s, ByCall(s, e))
  {
    hide KindOf, WellFormed, Partial, IsWhole, Missing, Frame, Finish, Mark, Id, IsReplyError, Marker, Marked, Has;
    hide Nested, HasCall, HasWaiting, Accepted;
    Popped(s.stack);
    if s.stack.Push? { Popped(s.stack.below); }
  }

  lemma HandStep(s: State, e: Event)
    requires StackInv(s) && WaitInv(s) && Can(s, e)
    ensures HandedOn(s, Do(s, e))
  {
    hide BySending, ByReading, ByDispatch, ByCall;
    hide KindOf, WellFormed, Partial, IsWhole, Missing, Frame, Finish, Mark, Id, IsReplyError, Marker, Marked, Has;
    hide Nested, HasCall, HasWaiting, Accepted;
    Popped(s.stack);
    HandSending(s, e);
    HandReading(s, e);
    HandDispatch(s, e);
    HandCall(s, e);
  }

  lemma OutcomeStep(s: State, e: Event)
    requires StackInv(s) && WaitInv(s) && OutcomeInv(s) && Can(s, e)
    ensures OutcomeInv(Do(s, e))
  {
    var t := Do(s, e);
    GrowsStep(s, e);
    HandStep(s, e);
    hide *;
    GoodOutcomes(s, t);
  }

  lemma GoodOutcomes(s: State, t: State)
    requires OutcomeInv(s) && Grows(s.h, t.h) && HandedOn(s, t)
    ensures OutcomeInv(t)
  {
    hide KindOf, Id, IsReplyError, ReplyInHand, Accepted, Grows;
    var hand := Outcome(s.h.call, ReplyInHand(s.stack), s.h.acceptedAt);
    if Good(s.h, hand) { GoodLasts(s.h, t.h, hand); }
    var hand' := Outcome(s.h.call, ReplyInHand(t.stack), s.h.acceptedAt);
    if Good(s.h, hand') { GoodLasts(s.h, t.h, hand'); }
    forall o | o in t.h.outcomes
      ensures Good(t.h, o)
    {
      if o in s.h.outcomes { GoodLasts(s.h, t.h, o); }
    }
  }

  lemma GoodLasts(h: History, h': History, o: Outcome)
    requires Grows(h, h') && Good(h, o)
    ensures Good(h', o)
  {
    hide KindOf, Id, IsReplyError;
  }

  // ---- requests and their answers ------------------------------------------------

  /** The requests whose handlers are on the stack. */
  function InService(k: Stack): set<nat> {
    if k.Empty? then {}
    else (if k.top.Serving? then {k.top.request} else {}) + InService(k.below)
  }

  predicate ServedOnce(k: Stack) {
    k.Push? ==> ServedOnce(k.below) && (k.top.Serving? ==> k.top.request !in InService(k.below))
  }

  /** Every request received is in service or answered, never both, and the answers sent are exactly theirs. */
  ghost predicate ServiceOk(pushed: seq<Msg>, completed: seq<Msg>, replyTo: map<nat, nat>, requestOf: map<nat, nat>, busy: set<nat>) {
    && (forall i: nat :: i in busy ==> i !in replyTo && IsRequest(completed, i))
    && (forall i: nat :: i in replyTo ==>
          IsRequest(completed, i) && replyTo[i] in requestOf && requestOf[replyTo[i]] == i)
    && (forall i: nat :: IsRequest(completed, i) ==> i in replyTo || i in busy)
    && (forall j: nat :: j in requestOf ==>
          requestOf[j] in replyTo && replyTo[requestOf[j]] == j
          && IsAnswer(pushed, j) && IsRequest(completed, requestOf[j]) && Id(pushed[j]) == Id(completed[requestOf[j]]))
    && (forall j: nat :: IsAnswer(pushed, j) ==> j in requestOf)
  }

  predicate IsRequest(ms: seq<Msg>, i: nat) {
    i < |ms| && KindOf(ms[i]) == Request
  }

  predicate IsAnswer(ms: seq<Msg>, j: nat) {
    j < |ms| && KindOf(ms[j]) == Answer
  }

  ghost predicate ServiceInv(s: State) {
    ServedOnce(s.stack) && Ledger(s.h, InService(s.stack))
  }

  lemma ServiceSends(pushed: seq<Msg>, completed: seq<Msg>, replyTo: map<nat, nat>, requestOf: map<nat, nat>, busy: set<nat>, ms: seq<Msg>)
    requires ServiceOk(pushed, completed, replyTo, requestOf, busy)
    requires forall m :: m in ms ==> KindOf(m) != Answer
    ensures ServiceOk(pushed + ms, completed, replyTo, requestOf, busy)
  {
    hide KindOf, Id;
    assert forall j: nat :: IsAnswer(pushed + ms, j) ==> IsAnswer(pushed, j);
    assert forall j: nat :: IsAnswer(pushed, j) ==> IsAnswer(pushed + ms, j) && (pushed + ms)[j] == pushed[j];
  }

  lemma ServiceReceives(pushed: seq<Msg>, completed: seq<Msg>, replyTo: map<nat, nat>, requestOf: map<nat, nat>, busy: set<nat>, m: Msg)
    requires ServiceOk(pushed, completed, replyTo, requestOf, busy)
    ensures |completed| !in busy
    ensures ServiceOk(pushed, completed + [m], replyTo, requestOf, busy + if KindOf(m) == Request then {|completed|} else {})
  {
    hide KindOf, Id;
    assert forall i: nat :: IsRequest(completed + [m], i) ==> IsRequest(completed, i) || (i == |completed| && KindOf(m) == Request);
    assert forall i: nat :: IsRequest(completed, i) ==> IsRequest(completed + [m], i) && (completed + [m])[i] == completed[i];
    if KindOf(m) == Request { assert IsRequest(completed + [m], |completed|); }
  }

  lemma ServiceAnswers(pushed: seq<Msg>, completed: seq<Msg>, replyTo: map<nat, nat>, requestOf: map<nat, nat>, busy: set<nat>, i: nat, r: Msg)
    requires ServiceOk(pushed, completed, replyTo, requestOf, busy)
    requires i in busy && i < |completed| && KindOf(r) == Answer && Id(r) == Id(completed[i])
    ensures ServiceOk(pushed + [r], completed, replyTo[i := |pushed|], requestOf[|pushed| := i], busy - {i})
  {
    hide KindOf, Id;
    var j := |pushed|;
    assert forall k: nat :: IsAnswer(pushed + [r], k) ==> IsAnswer(pushed, k) || k == j;
    assert forall k: nat :: IsAnswer(pushed, k) ==> IsAnswer(pushed + [r], k) && (pushed + [r])[k] == pushed[k];
    assert IsAnswer(pushed + [r], j) && (pushed + [r])[j] == r;
    assert j !in requestOf;
  }

  /** How one step changes the set of requests in service. */
  function ServiceAfter(s: State, e: Event): set<nat> {
    if e.Complete? && |s.inBuf| >= LENGTH_SIZE && KindOf(s.inBuf[LENGTH_SIZE..]) == Request then
      InService(s.stack) + {|s.h.completed|}
    else if e.ServeEnd? && s.stack.Push? && s.stack.top.Serving? then
      InService(s.stack) - {s.stack.top.request}
    else
      InService(s.stack)
  }

  lemma ServingPushed(a: Activity, k: Stack)
    ensures InService(Push(a, k)) == (if a.Serving? then {a.request} else {}) + InService(k)
    ensures ServedOnce(Push(a, k)) == (ServedOnce(k) && (a.Serving? ==> a.request !in InService(k)))
  {}

  lemma ServingStep(s: State, e: Event)
    requires Can(s, e) && ServedOnce(s.stack) && |s.h.completed| !in InService(s.stack)
    ensures ServedOnce(Do(s, e).stack) && InService(Do(s, e).stack) == ServiceAfter(s, e)
  {
    hide KindOf, WellFormed, Partial, IsWhole, Missing, Frame, Finish, Mark, Id, IsReplyError, Marker, Marked, Has;
    hide InService, ServedOnce;
    var k := s.stack;
    if k.Push? { ServingPushed(k.top, k.below); }
    forall a: Activity { ServingPushed(a, k); }
    if k.Push? {
      forall a: Activity { ServingPushed(a, k.below); }
    }
    match e {
      case SendSync(_, timed) => ServingPushed(Flushing, Push(Calling(timed), k));
      case LeaveLoop => ServingPushed(Flushing, Push(Returning(Result(s)), k.below));
      case Complete => CompleteHasLength(s);
      case _ =>
    }
  }

  lemma CompleteHasLength(s: State)
    requires Can(s, Complete)
    ensures |s.inBuf| >= LENGTH_SIZE
  {}

  ghost predicate Ledger(h: History, busy: set<nat>) {
    ServiceOk(h.pushed, h.completed, h.replyTo, h.requestOf, busy)
  }

  lemma LedgerSends(h: History, h': History, busy: set<nat>, ms: seq<Msg>)
    requires Ledger(h, busy) && Pushed1(h, h', ms)
    requires forall m :: m in ms ==> KindOf(m) != Answer
    ensures Ledger(h', busy)
  {
    hide ServiceOk, KindOf;
    ServiceSends(h.pushed, h.completed, h.replyTo, h.requestOf, busy, ms);
  }

  lemma LedgerReceives(h: History, h': History, busy: set<nat>, m: Msg)
    requires Ledger(h, busy)
    requires h'.pushed == h.pushed && h'.completed == h.completed + [m] && h'.replyTo == h.replyTo && h'.requestOf == h.requestOf
    ensures Ledger(h', busy + if KindOf(m) == Request then {|h.completed|} else {})
  {
    hide ServiceOk, KindOf;
    ServiceReceives(h.pushed, h.completed, h.replyTo, h.requestOf, busy, m);
  }

  lemma LedgerAnswers(h: History, h': History, busy: set<nat>, i: nat, slot: Option<Msg>)
    requires Ledger(h, busy) && i in busy && i < |h.completed|
    requires slot.Some? ==> WellFormed(slot.value) && !Has(slot.value, SyncBit)
    requires h'.pushed == h.pushed + [Finish(slot, h.completed[i])] && h'.completed == h.completed
    requires h'.replyTo == h.replyTo[i := |h.pushed|] && h'.requestOf == h.requestOf[|h.pushed| := i]
    ensures Ledger(h', busy - {i})
  {
    FinishIsAnswer(slot, h.completed[i]);
    hide ServiceOk, KindOf, Finish, Id;
    ServiceAnswers(h.pushed, h.completed, h.replyTo, h.requestOf, busy, i, Finish(slot, h.completed[i]));
  }

  lemma SetPlusNothing(a: set<nat>)
    ensures a + {} == a
  {}

  lemma LedgerServed(s: State, h': History)
    requires ServiceInv(s) && SlotInv(s) && Can(s, ServeEnd) && Entered(s, ServeEnd, h')
    ensures Ledger(h', ServiceAfter(s, ServeEnd))
  {
    hide Ledger, KindOf, InService, Finish, Mark, Id, WellFormed, Has;
    ServingPushed(s.stack.top, s.stack.below);
    LedgerAnswers(s.h, h', InService(s.stack), s.stack.top.request, s.slot);
  }

  lemma LedgerCompleted(s: State, h': History)
    requires ServiceInv(s) && Can(s, Complete) && Entered(s, Complete, h')
    ensures Ledger(h', ServiceAfter(s, Complete))
  {
    CompleteHasLength(s);
    hide Ledger, KindOf, InService, IsWhole, Has;
    LedgerReceives(s.h, h', InService(s.stack), s.inBuf[LENGTH_SIZE..]);
    SetPlusNothing(InService(s.stack));
  }

  lemma LedgerSent(s: State, e: Event, h': History)
    requires ServiceInv(s) && Can(s, e) && Entered(s, e, h') && (e.SendAsync? || e.SendSync? || e.Drain?)
    ensures Ledger(h', InService(s.stack))
  {
    if e.SendSync? { MarkKeepsForm(e.msg); }
    hide Ledger, KindOf, InService, Mark, Id, Has, WellFormed;
    LedgerSends(s.h, h', InService(s.stack), if e.SendAsync? then [e.msg] else if e.SendSync? then [Mark(e.msg, SyncBit)] else e.msgs);
  }

  lemma ServiceStep(s: State, e: Event)
    requires ServiceInv(s) && SlotInv(s) && Can(s, e)
    ensures ServiceInv(Do(s, e))
  {
    var t := Do(s, e);
    BusyIsReceived(s.h, InService(s.stack));
    ServingStep(s, e);
    LedgerStep(s, e);
    if e.ServeEnd? { LedgerServed(s, t.h); }
    if e.Complete? { LedgerCompleted(s, t.h); }
    if e.SendAsync? || e.SendSync? || e.Drain? { LedgerSent(s, e, t.h); }
    hide Do, Can, KindOf, InService, ServedOnce, Finish, Mark, Has, ServiceOk;
  }

  lemma BusyIsReceived(h: History, busy: set<nat>)
    requires Ledger(h, busy)
    ensures |h.completed| !in busy
  {}

  // ---- every run --------------------------------------------------------------------

  ghost predicate Inv(s: State) {
    && StackInv(s) && OutputInv(s) && SlotInv(s) && SendInv(s) && ReceiveInv(s) && OrderInv(s)
    && QueueInv(s) && LossInv(s) && DispatchInv(s) && WaitInv(s) && OutcomeInv(s) && ServiceInv(s)
  }

  lemma InvParts(s: State)
    requires Inv(s)
    ensures StackInv(s) && SlotInv(s)
  {}

  lemma InvStart()
    ensures Inv(Start())
  {
    assert Start().h.completed == [] && Frames([]) == [];
  }

  lemma InvStep(s: State, e: Event)
    requires Inv(s) && Can(s, e)
    ensures Inv(Do(s, e))
  {
    hide Can, Do, StackInv, OutputInv, SlotInv, SendInv, ReceiveInv, OrderInv, QueueInv, LossInv, DispatchInv, WaitInv, OutcomeInv, ServiceInv;
    StackStep(s, e);
    OutputStep(s, e);
    SlotStep(s, e);
    SendStep(s, e);
    ReceiveStep(s, e);
    OrderStep(s, e);
    QueueStep(s, e);
    LossStep(s, e);
    DispatchStep(s, e);
    WaitStep(s, e);
    OutcomeStep(s, e);
    ServiceStep(s, e);
  }

  /** Every state of every run of an endpoint satisfies the invariant. */
  lemma {:induction false} RunInv(es: seq<Event>)
    requires ValidRun(es)
    ensures Inv(After(es))
  {
    hide Can, Do, Inv, Start;
    if es == [] {
      InvStart();
    } else {
      RunInv(es[..|es| - 1]);
      InvStep(After(es[..|es| - 1]), es[|es| - 1]);
    }
  }
}
