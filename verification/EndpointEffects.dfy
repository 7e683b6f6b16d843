/** Each event of the machine by its effect, and what later states keep of earlier ones. */
module EndpointEffects {
  import opened Bytes
  import opened Endpoint
  import opened EndpointInvariants
  import opened Framing
  import opened Link
  import opened Messages
  import opened Options
  import opened Scripts

  /** A point of a run: the steps so far, the state they led to, the log that tells them, and the inputs still to come. */
  datatype Moment = Moment(now: State, trace: seq<Event>, log: seq<Entry>, rest: seq<Input>)

  /** All inputs, those taken and those to come. */
  function Story(a: Moment): seq<Input> {
    Inputs(a.log) + a.rest
  }

  /** `b` is `a` some steps later; inputs are taken in order, and none is missed before all were. */
  ghost predicate WentOn(a: Moment, b: Moment) {
    a.trace <= b.trace && a.log <= b.log && Story(b) == Story(a) && EndsLast(b.log, |a.log|, Story(b))
  }

  lemma WentFurther(a: Moment, b: Moment, c: Moment)
    requires WentOn(a, b) && WentOn(b, c)
    ensures WentOn(a, c)
  {
    hide Story;
    EndsLastJoin(b.log, c.log, |a.log|, Story(c));
  }

  /** What a later state keeps of an earlier one. */
  ghost predicate Keeps(s: State, t: State) {
    && Grows(s.h, t.h)
    && (t.call.inNested ==> s.call.inNested && t.h.call == s.h.call)
    && (s.sock.open || !t.sock.open)
  }

  /** The run went on from one point to the other by taking inputs in order, with no new call left in progress. */
  ghost predicate Later(a: Moment, b: Moment) {
    WentOn(a, b) && Keeps(a.now, b.now)
  }

  /** `b` is `a` after one more entry. */
  ghost predicate Entered1(a: Moment, entry: Entry, b: Moment) {
    && b.log == a.log + [entry] && a.rest == (if entry.Took? then [entry.input] else []) + b.rest
    && (entry.Exhausted? ==> a.rest == []) && !entry.Suspends?
    && match EventOf(entry)
       case Some(e) => Can(a.now, e) && b.now == Do(a.now, e) && b.trace == a.trace + [e]
       case None => b.now == a.now && b.trace == a.trace
  }

  lemma SameStory(a: Moment, entry: Entry, b: Moment)
    requires Entered1(a, entry, b)
    ensures WentOn(a, b)
  {
    hide Can, Do;
    InputsAppend(a.log, entry);
    assert Inputs(a.log) + ((if entry.Took? then [entry.input] else []) + b.rest)
        == (Inputs(a.log) + (if entry.Took? then [entry.input] else [])) + b.rest;
    assert b.log[..|a.log|] == a.log;
  }

  lemma LaterSelf(a: Moment)
    ensures Later(a, a)
  {}

  lemma LaterStill(a: Moment, b: Moment, c: Moment)
    requires Later(a, b) && Later(b, c)
    ensures Later(a, c)
  {
    WentFurther(a, b, c);
    hide WentOn;
  }

  lemma StaysClosed(s: State, e: Event)
    requires Can(s, e) && !s.sock.open
    ensures !Do(s, e).sock.open
  {
    hide KindOf, WellFormed, Partial, IsWhole, Missing, Frame, Finish, Mark, Id, IsReplyError, Marker, Marked, Has;
  }

  lemma LaterStep(a: Moment, entry: Entry, b: Moment)
    requires Entered1(a, entry, b) && EventOf(entry) != None && !EventOf(entry).value.SendSync?
    ensures Later(a, b)
  {
    var e := EventOf(entry).value;
    GrowsStep(a.now, e);
    CallKeptStep(a.now, e);
    if !a.now.sock.open { StaysClosed(a.now, e); }
    hide Can, Do, Postponed, WentOn;
    SameStory(a, entry, b);
  }

  /** So it is when an entry leads to no step. */
  lemma LaterNote(a: Moment, entry: Entry, b: Moment)
    requires Entered1(a, entry, b) && EventOf(entry) == None
    ensures Later(a, b) && Flushed(a, b)
  {
    SameStory(a, entry, b);
    hide WentOn;
  }

  /** A finished call counts as a whole. */
  lemma LaterCall(a: Moment, b: Moment, c: Moment)
    requires WentOn(a, b) && Grows(a.now.h, b.now.h) && (a.now.sock.open || !b.now.sock.open)
    requires Later(b, c) && !c.now.call.inNested
    ensures Later(a, c)
  {
    WentFurther(a, b, c);
    hide WentOn;
  }

  lemma Remembered(a: Moment, b: Moment, i: nat)
    requires Later(a, b) && i < |a.now.h.completed|
    ensures i < |b.now.h.completed| && b.now.h.completed[i] == a.now.h.completed[i]
  {}

  lemma StillPushed(a: Moment, b: Moment, j: nat)
    requires Later(a, b) && j < |a.now.h.pushed|
    ensures j < |b.now.h.pushed| && b.now.h.pushed[j] == a.now.h.pushed[j]
  {}

  lemma LaterMore(a: Moment, b: Moment)
    requires Later(a, b)
    ensures a.trace <= b.trace && a.log <= b.log && |a.now.h.completed| <= |b.now.h.completed|
  {}

  lemma LaterStory(a: Moment, b: Moment)
    requires Later(a, b)
    ensures Story(b) == Story(a) && EndsLast(b.log, |a.log|, Story(b))
  {}

  lemma RunStep(es: seq<Event>, s: State, e: Event)
    requires ValidRun(es) && After(es) == s && Can(s, e)
    ensures ValidRun(es + [e]) && After(es + [e]) == Do(s, e)
  {
    hide Can, Do;
    var next := es + [e];
    assert next[..|next| - 1] == es;
  }

  predicate IsSending(e: Event) {
    e.Sent? || e.FrameDone? || e.SendAgain? || e.SendErr? || e.FlushEnd?
  }

  predicate CallUntouched(s: State, t: State) {
    && t.h.call == s.h.call && t.h.acceptedAt == s.h.acceptedAt && t.h.outcomes == s.h.outcomes
    && t.h.pushed == s.h.pushed && t.h.replyTo == s.h.replyTo
    && t.call == s.call.(quit := t.call.quit)
  }

  /** The run went on by sending alone, which leaves calls and what was queued as they are. */
  ghost predicate Flushed(a: Moment, b: Moment) {
    Later(a, b) && CallUntouched(a.now, b.now)
  }

  lemma SendingEffect(s: State, e: Event)
    requires Can(s, e) && IsSending(e)
    ensures CallUntouched(s, BySending(s, e))
  {
    hide Frame, Marked;
  }

  lemma FlushedWhen(a: Moment, b: Moment)
    requires Later(a, b) && CallUntouched(a.now, b.now)
    ensures Flushed(a, b)
  {}

  lemma FlushedStep(a: Moment, entry: Entry, b: Moment)
    requires Entered1(a, entry, b) && EventOf(entry) != None && IsSending(EventOf(entry).value)
    ensures Flushed(a, b)
  {
    var e := EventOf(entry).value;
    LaterStep(a, entry, b);
    assert Do(a.now, e) == BySending(a.now, e) by {
      hide Can, BySending;
    }
    SendingEffect(a.now, e);
    hide *;
    StepsTo(a, entry, b);
    FlushedWhen(a, b);
  }

  lemma StepsTo(a: Moment, entry: Entry, b: Moment)
    requires Entered1(a, entry, b) && EventOf(entry) != None
    ensures Can(a.now, EventOf(entry).value) && b.now == Do(a.now, EventOf(entry).value)
  {
    hide Can, Do;
  }

  lemma FlushedSelf(a: Moment)
    ensures Flushed(a, a)
  {}

  lemma FlushedStill(a: Moment, b: Moment, c: Moment)
    requires Flushed(a, b) && Flushed(b, c)
    ensures Flushed(a, c)
  {
    LaterStill(a, b, c);
    hide Later;
  }

  lemma FlushedLater(a: Moment, b: Moment)
    requires Flushed(a, b)
    ensures Later(a, b) && b.now.h.pushed == a.now.h.pushed && b.now.h.replyTo == a.now.h.replyTo
  {}

  lemma FlushedCall(a: Moment, b: Moment)
    requires Flushed(a, b)
    ensures Later(a, b) && b.now.h.call == a.now.h.call && b.now.h.acceptedAt == a.now.h.acceptedAt
    ensures b.now.h.outcomes == a.now.h.outcomes && b.now.call == a.now.call.(quit := b.now.call.quit)
  {}

  lemma PushedStays(a: Moment, b: Moment)
    requires Flushed(a, b)
    ensures Later(a, b) && b.now.h.call == a.now.h.call && Grows(a.now.h, b.now.h)
  {}

  /** What other threads queue. */
  ghost predicate Deferred(msgs: seq<Msg>) {
    forall x :: x in msgs ==> WellFormed(x) && KindOf(x) == Oneway
  }

  lemma OnSent(s: State, n: nat)
    requires MaySend(s) && s.outDone + n <= |Frame(s.outgoing[0])| && n > 0
    ensures Can(s, Sent(n))
    ensures Do(s, Sent(n)) == s.(outDone := s.outDone + n, h := s.h.(sent := s.h.sent + Frame(s.outgoing[0])[s.outDone..s.outDone + n]))
  {
    hide Frame, KindOf, WellFormed, Has, Partial, IsWhole, Missing;
  }

  lemma OnSendAgain(s: State)
    requires SendUnfinished(s)
    ensures Can(s, SendAgain)
    ensures Do(s, SendAgain) == s.(stack := s.stack.below, sock := Do(s, SendAgain).sock)
    ensures Do(s, SendAgain).sock == if s.call.inNested then s.sock.(blocked := true, nestedOut := s.sock.nestedSource)
                 else s.sock.(blocked := true, mainOut := true)
  {
    hide Frame;
  }

  lemma OnFrameDone(s: State)
    requires MaySend(s) && s.outDone == |Frame(s.outgoing[0])|
    ensures Can(s, FrameDone) && Do(s, FrameDone) == s.(outgoing := s.outgoing[1..], outDone := 0)
  {
    hide Frame;
  }

  lemma OnSendErr(s: State)
    requires SendUnfinished(s)
    ensures Can(s, SendErr) && Do(s, SendErr) == Disconnect(s, s.stack.below)
  {
    hide Frame, Disconnect;
  }

  lemma OnFlushEnd(s: State)
    requires Top(s, Flushing) && (!s.sock.open || s.sock.blocked || s.outgoing == [])
    ensures Can(s, FlushEnd) && Do(s, FlushEnd) == s.(stack := s.stack.below)
  {}

  lemma OnGot(s: State, data: seq<byte>)
    requires ReadUnfinished(s) && s.sock.open && 0 < |data| <= Missing(s.inBuf) && Partial(s.inBuf + data)
    ensures Can(s, Got(data)) && Do(s, Got(data)) == s.(inBuf := s.inBuf + data, h := s.h.(got := s.h.got + data))
  {
    hide IsWhole, Missing, Partial;
  }

  lemma InvReceives(s: State)
    requires Inv(s)
    ensures ReceiveOk(s.h.completed, s.h.got, s.inBuf)
  {}

  lemma ReadingUnfinished(s: State, len: nat)
    requires Inv(s) && Top(s, Reading) && len > 0 && (s.sock.open ==> Missing(s.inBuf) == len)
    ensures ReadUnfinished(s)
  {
    hide Missing, ReceiveOk;
  }

  lemma OnRecvAgain(s: State)
    requires ReadUnfinished(s) && s.sock.open
    ensures Can(s, RecvAgain) && Do(s, RecvAgain) == s.(stack := s.stack.below)
  {
    hide IsWhole;
  }

  lemma OnRecvErr(s: State)
    requires ReadUnfinished(s)
    ensures Can(s, RecvErr) && Do(s, RecvErr) == Disconnect(s, s.stack.below)
  {
    hide IsWhole, Disconnect;
  }

  lemma OnComplete(s: State, msg: Msg)
    requires Top(s, Reading) && IsWhole(s.inBuf) && s.inBuf == s.inBuf[..LENGTH_SIZE] + msg
    ensures Can(s, Complete)
    ensures KindOf(msg) == Request ==> Do(s, Complete) == HandleRequest(s, msg)
    ensures KindOf(msg) == Answer ==> Do(s, Complete) == HandleAnswer(s, msg)
    ensures KindOf(msg) == Oneway ==> Do(s, Complete) == HandleOneway(s, msg)
  {
    assert s.inBuf[LENGTH_SIZE..] == msg;
    hide IsWhole, KindOf, HandleRequest, HandleAnswer, HandleOneway;
  }

  lemma Sorted(msg: Msg)
    ensures KindOf(msg) == if Has(msg, SyncBit) then Request else if Has(msg, ReplyBit) || IsReplyError(msg) then Answer else Oneway
  {}

  lemma OnServeEnd(s: State)
    requires s.stack.Push? && s.stack.top.Serving? && s.stack.top.request < |s.h.completed|
    ensures Can(s, ServeEnd)
    ensures Do(s, ServeEnd) == Answered(s, s.stack.top.request, Finish(s.slot, s.h.completed[s.stack.top.request]))
  {
    hide Finish, Answered;
  }

  lemma OnDeliver(s: State)
    requires s.stack.Push? && s.stack.top.Dispatching? && s.queue != [] && !Has(s.queue[0], DisconnectBit)
    ensures Can(s, Deliver)
    ensures Do(s, Deliver) == s.(queue := s.queue[1..], stack := Push(Delivering, s.stack), h := s.h.(delivered := s.h.delivered + [s.queue[0]]))
  {
    hide Has, KindOf, WellFormed, Finish, Frame, IsWhole, Missing, Partial;
  }

  lemma OnDeliverEnd(s: State)
    requires Top(s, Delivering)
    ensures Can(s, DeliverEnd) && Do(s, DeliverEnd) == s.(stack := s.stack.below)
  {}

  lemma OnReportLoss(s: State, idle: bool)
    requires Top(s, Dispatching(idle)) && s.queue != [] && Has(s.queue[0], DisconnectBit)
    ensures Can(s, ReportLoss)
    ensures Do(s, ReportLoss) == s.(queue := s.queue[1..], dispatcher := if idle then Spent else s.dispatcher,
         stack := s.stack.below, h := s.h.(lossPending := false))
  {
    hide Has, KindOf, WellFormed, Finish, Frame, IsWhole, Missing, Partial;
  }

  lemma OpenNotSpent(s: State)
    requires Inv(s)
    ensures s.sock.open ==> s.dispatcher != Spent
  {}

  lemma MarkerMeansClosed(s: State)
    requires Inv(s) && s.queue != [] && Has(s.queue[0], DisconnectBit)
    ensures !s.sock.open
  {
    hide Has;
  }

  lemma OnDispatchEnd(s: State, idle: bool)
    requires Top(s, Dispatching(idle)) && s.queue == []
    ensures Can(s, DispatchEnd)
    ensures Do(s, DispatchEnd) == s.(dispatcher := if idle then NoSource else s.dispatcher, stack := s.stack.below)
  {
    hide Has, KindOf, WellFormed, Finish, Frame, IsWhole, Missing, Partial;
  }

  lemma OnSendAsync(s: State, msg: Msg)
    requires UserTurn(s.stack) && WellFormed(msg) && KindOf(msg) == Oneway
    ensures Can(s, SendAsync(msg))
    ensures Do(s, SendAsync(msg)) == s.(outgoing := s.outgoing + [msg], stack := Push(Flushing, s.stack), h := s.h.(pushed := s.h.pushed + [msg]))
  {
    hide WellFormed, KindOf;
  }

  lemma OnSendReply(s: State, msg: Msg)
    requires UserTurn(s.stack) && WellFormed(msg) && !Has(msg, SyncBit)
    ensures Can(s, SendReply(msg)) && Do(s, SendReply(msg)) == s.(slot := Some(msg))
  {
    hide WellFormed, Has;
  }

  lemma OnSendSync(s: State, msg: Msg, timed: bool)
    requires UserTurn(s.stack) && !s.call.inNested && WellFormed(msg) && Id(msg) != 0
    ensures Can(s, SendSync(msg, timed)) && Id(Mark(msg, SyncBit)) == Id(msg)
    ensures Do(s, SendSync(msg, timed)) == s.(call := s.call.(inNested := true, curId := Id(msg), curReply := None),
        outgoing := s.outgoing + [Mark(msg, SyncBit)], stack := Push(Flushing, Push(Calling(timed), s.stack)),
        h := s.h.(pushed := s.h.pushed + [Mark(msg, SyncBit)], call := |s.h.pushed|))
    ensures Grows(s.h, Do(s, SendSync(msg, timed)).h)
  {
    hide WellFormed, Id, Mark;
  }

  lemma OnEnterLoop(s: State, timed: bool)
    requires Top(s, Calling(timed)) && s.sock.open
    ensures Can(s, EnterLoop)
    ensures Do(s, EnterLoop) == s.(call := s.call.(timedOut := false, timer := timed, quit := false),
        sock := s.sock.(nestedSource := true, nestedOut := s.sock.blocked), stack := Push(Waiting, s.stack.below))
  {}

  lemma OnWakeHup(s: State)
    requires AtLoop(s.stack) && s.sock.open
    ensures Can(s, WakeHup) && Do(s, WakeHup) == Disconnect(s, s.stack)
  {
    hide Disconnect;
  }

  lemma OnWakeOut(s: State)
    requires AtLoop(s.stack) && s.sock.open && ActiveOut(s)
    ensures Can(s, WakeOut)
    ensures Do(s, WakeOut) == s.(sock := if s.call.inNested then s.sock.(blocked := false, nestedOut := false) else s.sock.(blocked := false, mainOut := false),
         stack := Push(Flushing, s.stack))
  {}

  lemma OnWakeIn(s: State)
    requires AtLoop(s.stack) && s.sock.open
    ensures Can(s, WakeIn) && Do(s, WakeIn) == s.(stack := Push(Reading, s.stack))
  {}

  lemma OnWakeTimeout(s: State)
    requires Top(s, Waiting) && s.call.timer
    ensures Can(s, WakeTimeout) && Do(s, WakeTimeout) == s.(call := s.call.(timer := false, timedOut := true, quit := true))
  {}

  lemma WaitingFacts(s: State)
    requires Inv(s) && Top(s, Waiting)
    ensures s.call.inNested && s.sock.nestedSource
    ensures !s.sock.open ==> s.call.quit
  {
    hide Nested, Accepted, SendOk, ReceiveOk, Ledger, OutcomeInv, OrderInv;
    Popped(s.stack);
  }

  lemma OnCallFail(s: State, timed: bool)
    requires Top(s, Calling(timed)) && !s.sock.open
    ensures Can(s, CallFail)
    ensures Do(s, CallFail) == s.(call := s.call.(inNested := false, curId := 0, curReply := None), stack := s.stack.below, h := WithOutcome(s.h, None))
  {}

  lemma LeavingLoop(s: State)
    requires Top(s, Waiting) && s.call.quit
    ensures Can(s, LeaveLoop) && Do(s, LeaveLoop) == AfterLoop(s)
  {
    hide AfterLoop;
  }

  lemma OnLeaveLoop(s: State)
    requires Top(s, Waiting) && s.call.quit
    ensures Can(s, LeaveLoop)
    ensures !s.sock.open ==>
      Do(s, LeaveLoop) == s.(call := EndCall(s.call), sock := s.sock.(nestedSource := false, nestedOut := false),
         stack := s.stack.below, h := WithOutcome(s.h, None))
    ensures s.sock.open ==>
      Do(s, LeaveLoop) == s.(call := EndCall(s.call),
         sock := s.sock.(nestedSource := false, nestedOut := false, blocked := false, mainOut := false),
         dispatcher := if s.queue != [] && s.dispatcher.NoSource? then Armed else s.dispatcher,
         stack := Push(Flushing, Push(Returning(Result(s)), s.stack.below)))
  {
    LeavingLoop(s);
    hide Can, Do, EndCall, WithOutcome, Result;
  }

  lemma OnLeaveOpen(s: State, reply: Option<Msg>)
    requires Top(s, Waiting) && s.call.quit && s.sock.open
    requires reply == if s.call.curReply.Some? && IsReplyError(s.call.curReply.value) then None else s.call.curReply
    ensures Can(s, LeaveLoop)
    ensures Do(s, LeaveLoop) == s.(call := EndCall(s.call),
         sock := s.sock.(nestedSource := false, nestedOut := false, blocked := false, mainOut := false),
         dispatcher := if s.queue != [] && s.dispatcher.NoSource? then Armed else s.dispatcher,
         stack := Push(Flushing, Push(Returning(if s.call.timedOut then None else reply), s.stack.below)))
  {
    OnLeaveLoop(s);
    hide Can, Do, EndCall, IsReplyError;
  }

  lemma OnCallReturn(s: State)
    requires s.stack.Push? && s.stack.top.Returning?
    ensures Can(s, CallReturn) && Do(s, CallReturn) == s.(stack := s.stack.below, h := WithOutcome(s.h, s.stack.top.reply))
  {}

  /** What the nested loop accepted answers the request it was started for. */
  lemma CallAnswered(a: Moment, b: Moment, msg: Msg)
    requires Inv(b.now) && Top(b.now, Waiting) && Later(a, b)
    requires var h := a.now.h; h.call < |h.pushed| && h.pushed[h.call] == Mark(msg, SyncBit) && Id(Mark(msg, SyncBit)) == Id(msg)
    ensures b.now.h.call == a.now.h.call
    ensures var r := b.now.call.curReply; r.Some? ==> KindOf(r.value) == Answer && Id(r.value) == Id(msg)
  {
    WaitingFacts(b.now);
    assert WaitInv(b.now);
    hide Inv, KindOf, Id, Mark, IsReplyError;
  }

  lemma OnWakeIdle(s: State)
    requires s.stack.Empty? && s.dispatcher == Armed
    ensures Can(s, WakeIdle) && Do(s, WakeIdle) == s.(stack := Push(Dispatching(true), s.stack))
  {}

  lemma OnDrain(s: State, msgs: seq<Msg>)
    requires s.stack.Empty? && Deferred(msgs)
    ensures Can(s, Drain(msgs))
    ensures Do(s, Drain(msgs)) == s.(outgoing := s.outgoing + msgs, stack := Push(Flushing, s.stack), h := s.h.(pushed := s.h.pushed + msgs))
  {
    hide WellFormed, KindOf;
  }

  lemma NoneDeferred()
    ensures Deferred([])
  {}

  lemma IdleFacts(s: State)
    requires Inv(s) && s.stack.Empty?
    ensures !s.call.inNested
  {}

  lemma InvSends(s: State)
    requires Inv(s)
    ensures SendOk(s.h.pushed, s.h.sent, s.outgoing, s.outDone)
    ensures s.h.delivered + Unmarked(s.queue) == Select(s.h.completed, Oneway)
  {}

  lemma NotStalled(s: State)
    requires Inv(s)
    ensures AtLoop(s.stack) && s.sock.open && s.outgoing != [] ==> s.sock.blocked && ActiveOut(s)
  {
    Popped(s.stack);
    hide Nested, SendOk, ReceiveOk, Ledger, OutcomeInv, OrderInv;
  }

  lemma FrontFits(s: State)
    requires Inv(s) && s.outgoing != []
    ensures s.outDone <= LENGTH_SIZE + |s.outgoing[0]|
  {
    QueueShape(s.h.pushed, s.h.sent, s.outgoing, s.outDone);
  }
}
