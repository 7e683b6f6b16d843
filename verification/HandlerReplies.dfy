/**
 What becomes of a reply that a handler gives to sendReply.  The channel keeps it
 in one slot, which every request it starts to serve empties.
 */
module HandlerReplies {
  import opened Bytes
  import opened Endpoint
  import opened EndpointEffects
  import opened EndpointInvariants
  import opened Framing
  import opened Messages
  import opened Options
  import opened Protocol

  // ---- calls above a handler ---------------------------------------------------

  /** `k` is `base` with calls entered from it. */
  predicate Extends(k: Stack, base: Stack) {
    k == base || (k.Push? && Extends(k.below, base))
  }

  /** No other handler of a request is above `base`. */
  predicate Alone(k: Stack, base: Stack) {
    k != base ==> k.Push? && !k.top.Serving? && Alone(k.below, base)
  }

  /** Nothing above `base` dispatches asynchronous messages. */
  predicate Undispatched(k: Stack, base: Stack) {
    k != base ==> k.Push? && !k.top.Dispatching? && !k.top.Delivering? && Undispatched(k.below, base)
  }

  function Height(k: Stack): nat {
    if k.Empty? then 0 else 1 + Height(k.below)
  }

  lemma {:induction false} ExtendsIsHigher(k: Stack, base: Stack)
    requires Extends(k, base)
    ensures Height(k) >= Height(base)
  {
    if k != base {
      ExtendsIsHigher(k.below, base);
    }
  }

  lemma Above(a: Activity, k: Stack, base: Stack)
    requires Extends(k, base)
    ensures Push(a, k) != base && Extends(Push(a, k), base)
    ensures Alone(Push(a, k), base) == (!a.Serving? && Alone(k, base))
    ensures Undispatched(Push(a, k), base) == (!a.Dispatching? && !a.Delivering? && Undispatched(k, base))
  {
    ExtendsIsHigher(k, base);
  }

  lemma Below(k: Stack, base: Stack)
    requires Extends(k, base) && k != base
    ensures k.Push? && Extends(k.below, base)
    ensures Alone(k, base) == (!k.top.Serving? && Alone(k.below, base))
    ensures Undispatched(k, base) == (!k.top.Dispatching? && !k.top.Delivering? && Undispatched(k.below, base))
  {}

  /** The step does not belong to the handler at `base`: it neither ends it nor replies for it. */
  predicate Foreign(s: State, e: Event, base: Stack) {
    s.stack == base ==> !e.ServeEnd? && !e.SendReply?
  }

  predicate ReceivesRequest(s: State, e: Event) {
    e.Complete? && |s.inBuf| >= LENGTH_SIZE && KindOf(s.inBuf[LENGTH_SIZE..]) == Request
  }

  /** What a step does to the calls above `base`. */
  predicate StillAbove(s: State, e: Event, t: State, base: Stack) {
    && Extends(t.stack, base) && Undispatched(t.stack, base)
    && (if Alone(t.stack, base) then !ReceivesRequest(s, e) && (e.ServeEnd? || Alone(s.stack, base))
        else ReceivesRequest(s, e) || !Alone(s.stack, base))
  }

  lemma AboveApplication(s: State, e: Event, base: Stack)
    requires Can(s, e) && Foreign(s, e, base) && Extends(s.stack, base) && Undispatched(s.stack, base) && base.Push? && base.top.Serving?
    ensures (e.SendAsync? || e.SendSync? || e.SendReply? || e.Drain?) ==> StillAbove(s, e, ByApplication(s, e), base)
  {
    hide WellFormed, KindOf, Has, Mark, Id, Extends, Alone, Undispatched;
    Above(Flushing, s.stack, base);
    if e.SendSync? {
      Above(Calling(e.timed), s.stack, base);
      Above(Flushing, Push(Calling(e.timed), s.stack), base);
    }
    NotEmpty(s.stack, base);
  }

  lemma AboveLoop(s: State, e: Event, base: Stack)
    requires Can(s, e) && Extends(s.stack, base) && Undispatched(s.stack, base) && base.Push? && base.top.Serving?
    ensures (e.WakeHup? || e.WakeOut? || e.WakeIn? || e.WakeTimeout? || e.WakeIdle?) ==> StillAbove(s, e, ByLoop(s, e), base)
  {
    hide WellFormed, KindOf, Has, Mark, Id, Frame, IsWhole, Missing, Partial, Finish, Marked, IsReplyError, Extends, Alone, Undispatched;
    Above(Flushing, s.stack, base);
    Above(Reading, s.stack, base);
    NotEmpty(s.stack, base);
  }

  lemma AboveSending(s: State, e: Event, base: Stack)
    requires Can(s, e) && Extends(s.stack, base) && Undispatched(s.stack, base) && base.Push? && base.top.Serving?
    ensures IsSending(e) ==> StillAbove(s, e, BySending(s, e), base)
  {
    hide WellFormed, KindOf, Has, Mark, Id, Frame, IsWhole, Missing, Partial, Finish, Marked, IsReplyError, Extends, Alone, Undispatched;
    if IsSending(e) { Below(s.stack, base); }
  }

  lemma AboveReading(s: State, e: Event, base: Stack)
    requires Inv(s) && Can(s, e) && Extends(s.stack, base) && Undispatched(s.stack, base) && base.Push? && base.top.Serving?
    ensures (e.Got? || e.Complete? || e.RecvAgain? || e.RecvErr?) ==> StillAbove(s, e, ByReading(s, e), base)
  {
    hide Inv, WellFormed, KindOf, Has, Id, IsWhole, Missing, Partial, Marked, Extends, Alone, Undispatched;
    if e.Got? || e.Complete? || e.RecvAgain? || e.RecvErr? {
      Below(s.stack, base);
      NotEmpty(s.stack.below, base);
      ReadingInCall(s, base);
      if e.Complete? { CompleteHasLength(s); }
      Above(Serving(|s.h.completed|), s.stack, base);
    }
  }

  /** A handler that reads does so in the nested loop of a call it made. */
  lemma ReadingInCall(s: State, base: Stack)
    requires Inv(s) && Top(s, Reading) && s.stack.below.Push? && Extends(s.stack.below, base) && base.Push? && base.top.Serving?
    ensures s.call.inNested
  {
    Popped(s.stack);
    Popped(s.stack.below);
    assert StackInv(s);
    hide Inv, Nested, HasCall, HasWaiting, Extends;
  }

  lemma AboveDispatch(s: State, e: Event, base: Stack)
    requires Can(s, e) && Foreign(s, e, base) && Extends(s.stack, base) && Undispatched(s.stack, base) && base.Push? && base.top.Serving?
    ensures (e.ServeEnd? || e.Deliver? || e.DeliverEnd? || e.ReportLoss? || e.DispatchEnd?) ==> StillAbove(s, e, ByDispatch(s, e), base)
  {
    hide WellFormed, KindOf, Has, Mark, Id, Frame, IsWhole, Missing, Partial, Finish, Marked, IsReplyError, Extends, Alone, Undispatched;
    if s.stack != base {
      Below(s.stack, base);
      Above(Flushing, s.stack.below, base);
    }
  }

  lemma AboveCall(s: State, e: Event, base: Stack)
    requires Can(s, e) && Extends(s.stack, base) && Undispatched(s.stack, base) && base.Push? && base.top.Serving?
    ensures (e.EnterLoop? || e.CallFail? || e.LeaveLoop? || e.CallReturn?) ==> StillAbove(s, e, ByCall(s, e), base)
  {
    hide WellFormed, KindOf, Has, Mark, Id, Frame, IsWhole, Missing, Partial, Finish, Marked, IsReplyError, Extends, Alone, Undispatched;
    hide Result;
    if s.stack != base {
      Below(s.stack, base);
      Above(Waiting, s.stack.below, base);
      Above(Returning(Result(s)), s.stack.below, base);
      Above(Flushing, Push(Returning(Result(s)), s.stack.below), base);
    }
  }

  lemma AboveStep(s: State, e: Event, base: Stack)
    requires Inv(s) && Can(s, e) && Foreign(s, e, base) && Extends(s.stack, base) && Undispatched(s.stack, base) && base.Push? && base.top.Serving?
    ensures StillAbove(s, e, Do(s, e), base)
  {
    hide Can, Inv, ByApplication, ByLoop, BySending, ByReading, ByDispatch, ByCall, Extends, Alone, Undispatched, StillAbove;
    AboveApplication(s, e, base);
    AboveLoop(s, e, base);
    AboveSending(s, e, base);
    AboveReading(s, e, base);
    AboveDispatch(s, e, base);
    AboveCall(s, e, base);
  }

  lemma NotEmpty(k: Stack, base: Stack)
    requires Extends(k, base) && base.Push?
    ensures k.Push?
  {}

  // ---- the slot ---------------------------------------------------------------------

  /** The slot as the handler at `base` left it with `r`, unless another request was served since. */
  predicate Kept(s: State, base: Stack, r: Msg, served: bool) {
    && Extends(s.stack, base) && Undispatched(s.stack, base)
    && (if Alone(s.stack, base) then s.slot == if served then None else Some(r) else served)
  }

  lemma SlotByReading(s: State, e: Event)
    requires Can(s, e)
    ensures ByReading(s, e).slot == if ReceivesRequest(s, e) then None else s.slot
  {
    if e.Complete? { CompleteHasLength(s); }
    hide KindOf, Partial, IsWhole, Missing, Id, Marked;
  }

  lemma SlotByDispatch(s: State, e: Event)
    requires Can(s, e)
    ensures ByDispatch(s, e).slot == if e.ServeEnd? then None else s.slot
  {
    hide Finish, Has;
  }

  lemma SlotElsewhere(s: State, e: Event)
    requires Can(s, e) && !e.SendReply?
    ensures ByApplication(s, e).slot == ByLoop(s, e).slot == BySending(s, e).slot == ByCall(s, e).slot == s.slot
  {
    hide KindOf, WellFormed, Frame, Mark, Id, IsReplyError, Marked, Has;
  }

  /** The slot changes only by sendReply and by the service of a request, which empties it. */
  lemma SlotAfterStep(s: State, e: Event)
    requires Can(s, e) && !e.SendReply?
    ensures Do(s, e).slot == if e.ServeEnd? || ReceivesRequest(s, e) then None else s.slot
  {
    hide Can, ByApplication, ByLoop, BySending, ByReading, ByDispatch, ByCall, KindOf;
    SlotByReading(s, e);
    SlotByDispatch(s, e);
    SlotElsewhere(s, e);
  }

  lemma ServingAbove(s: State, e: Event, base: Stack)
    requires Can(s, e) && Foreign(s, e, base) && Extends(s.stack, base) && Undispatched(s.stack, base) && base.Push? && base.top.Serving?
    ensures e.ServeEnd? || e.SendReply? ==> !Alone(s.stack, base)
  {
    if s.stack != base {
      Below(s.stack, base);
    }
    NotEmpty(s.stack, base);
    hide Extends, Alone, Undispatched, WellFormed, Has;
  }

  lemma KeptStep(s: State, e: Event, base: Stack, r: Msg, served: bool)
    requires Inv(s) && Can(s, e) && Foreign(s, e, base) && base.Push? && base.top.Serving? && Kept(s, base, r, served)
    ensures Kept(Do(s, e), base, r, served || ReceivesRequest(s, e))
  {
    hide Can, Do, Inv, Extends, Alone, Undispatched, KindOf;
    AboveStep(s, e, base);
    ServingAbove(s, e, base);
    if e.SendReply? {
      ReplyOnly(s, e);
    } else {
      SlotAfterStep(s, e);
    }
  }

  lemma ReplyOnly(s: State, e: Event)
    requires Can(s, e) && e.SendReply?
    ensures Do(s, e).stack == s.stack && !ReceivesRequest(s, e)
  {
    hide WellFormed, Has;
  }

  // ---- runs of a handler --------------------------------------------------------------

  /** The handler at `base` neither ends nor replies again. */
  ghost predicate Unfinished(s: State, es: seq<Event>, base: Stack)
    requires Follow(s, es)
    decreases |es|
  {
    es == [] || (Foreign(s, es[0], base) && Unfinished(Do(s, es[0]), es[1..], base))
  }

  /** Another request is served. */
  ghost predicate ServesAnother(s: State, es: seq<Event>)
    requires Follow(s, es)
    decreases |es|
  {
    es != [] && (ReceivesRequest(s, es[0]) || ServesAnother(Do(s, es[0]), es[1..]))
  }

  /** The handler at `base` makes a synchronous call. */
  ghost predicate CallsOut(s: State, es: seq<Event>, base: Stack)
    requires Follow(s, es)
    decreases |es|
  {
    es != [] && ((s.stack == base && es[0].SendSync?) || CallsOut(Do(s, es[0]), es[1..], base))
  }

  lemma {:induction false} KeptThroughout(s: State, es: seq<Event>, base: Stack, r: Msg, served: bool)
    requires Inv(s) && Follow(s, es) && base.Push? && base.top.Serving? && Unfinished(s, es, base) && Kept(s, base, r, served)
    ensures Inv(Finally(s, es)) && Kept(Finally(s, es), base, r, served || ServesAnother(s, es))
    decreases |es|
  {
    hide Inv, Can, Do, Kept, Foreign, ReceivesRequest;
    if es != [] {
      InvStep(s, es[0]);
      KeptStep(s, es[0], base, r, served);
      KeptThroughout(Do(s, es[0]), es[1..], base, r, served || ReceivesRequest(s, es[0]));
    }
  }

  /** Without a call of its own a handler only ever sends. */
  lemma SendingHandlerStep(s: State, e: Event, base: Stack)
    requires Can(s, e) && Foreign(s, e, base) && base.Push? && base.top.Serving?
    requires s.stack == base || s.stack == Push(Flushing, base)
    requires s.stack == base ==> !e.SendSync?
    ensures !ReceivesRequest(s, e) && (Do(s, e).stack == base || Do(s, e).stack == Push(Flushing, base))
  {
    hide KindOf, WellFormed, Partial, IsWhole, Missing, Frame, Finish, Mark, Id, IsReplyError, Marked, Has;
  }

  lemma {:induction false} SendingHandlerServesNobody(s: State, es: seq<Event>, base: Stack)
    requires Follow(s, es) && base.Push? && base.top.Serving? && Unfinished(s, es, base) && !CallsOut(s, es, base)
    requires s.stack == base || s.stack == Push(Flushing, base)
    ensures !ServesAnother(s, es)
    decreases |es|
  {
    hide Can, Do, Foreign, ReceivesRequest;
    if es != [] {
      SendingHandlerStep(s, es[0], base);
      SendingHandlerServesNobody(Do(s, es[0]), es[1..], base);
    }
  }

  /** The messages completed stay. */
  lemma {:induction false} CompletedStays(s: State, es: seq<Event>)
    requires Follow(s, es)
    ensures s.h.completed <= Finally(s, es).h.completed
    decreases |es|
  {
    hide Can, Do;
    if es != [] {
      GrowsStep(s, es[0]);
      CompletedStays(Do(s, es[0]), es[1..]);
    }
  }

  /** The handler of request `i`, on top in `u`, returns now, and `answer` is what answers the request. */
  predicate ReturnsWith(u: State, i: nat, answer: Msg) {
    && Can(u, ServeEnd) && u.stack.top == Serving(i)
    && var v := Do(u, ServeEnd);
       v.h.pushed == u.h.pushed + [answer] && i in v.h.replyTo && v.h.replyTo[i] == |u.h.pushed|
  }

  lemma ReturnAnswers(u: State, i: nat, k: Stack)
    requires ServiceInv(u) && u.stack == Push(Serving(i), k)
    ensures i < |u.h.completed| && ReturnsWith(u, i, Finish(u.slot, u.h.completed[i]))
  {
    ServingIsReceived(u);
    hide ServiceInv, Do, Finish;
    OnServeEnd(u);
  }

  /**
   A reply `r` given by the handler of request `i`, which then neither replies
   again nor ends until the end of `es`, is what answers the request if and only
   if no other request was served meanwhile; if one was, the answer is an error.
   A handler that makes no synchronous call after its reply serves none.
   */
  lemma ReplyLeavesIffLastAct(s: State, r: Msg, t: State, es: seq<Event>, u: State, i: nat, k: Stack) returns (answer: Msg)
    requires s.stack == Push(Serving(i), k) && Can(s, SendReply(r)) && t == Do(s, SendReply(r)) && !IsReplyError(r)
    requires Follow(t, es) && u == Finally(t, es) && Unfinished(t, es, s.stack) && u.stack == s.stack
    requires Inv(s)
    ensures i < |s.h.completed| && ReturnsWith(u, i, answer)
    ensures IsReplyError(answer) <==> ServesAnother(t, es)
    ensures !ServesAnother(t, es) ==> Id(s.h.completed[i]) < TWO_TO_32 && answer == WithId(Mark(r, ReplyBit), Id(s.h.completed[i]))
    ensures ServesAnother(t, es) ==> CallsOut(t, es, s.stack)
  {
    InvStep(s, SendReply(r));
    OnSendReply(s, r);
    StartsKept(t, s.stack, r);
    ServingIsReceived(s);
    hide Can, Do, Inv, Kept, WellFormed, Has, IsReplyError, ServesAnother, CallsOut, Unfinished, ReturnsWith, Finish, Mark;
    KeptThroughout(t, es, s.stack, r, false);
    if !CallsOut(t, es, s.stack) { SendingHandlerServesNobody(t, es, s.stack); }
    EndsKept(u, s.stack, r, ServesAnother(t, es));
    InvServes(u);
    ReturnAnswers(u, i, k);
    CompletedStays(t, es);
    answer := Finish(u.slot, u.h.completed[i]);
    ReplyOrError(u.slot, r, ServesAnother(t, es), s.h.completed[i]);
  }

  lemma InvServes(s: State)
    requires Inv(s)
    ensures ServiceInv(s)
  {}

  lemma StartsKept(t: State, base: Stack, r: Msg)
    requires t.stack == base && t.slot == Some(r)
    ensures Kept(t, base, r, false)
  {}

  lemma EndsKept(u: State, base: Stack, r: Msg, served: bool)
    requires u.stack == base && Kept(u, base, r, served)
    ensures u.slot == if served then None else Some(r)
  {}

  lemma ReplyOrError(slot: Option<Msg>, r: Msg, served: bool, req: Msg)
    requires slot == (if served then None else Some(r)) && WellFormed(r) && !Has(r, SyncBit) && !IsReplyError(r)
    ensures Id(req) < TWO_TO_32
    ensures IsReplyError(Finish(slot, req)) <==> served
    ensures !served ==> Finish(slot, req) == WithId(Mark(r, ReplyBit), Id(req))
  {
    IdRange(req);
    FinishIsAnswer(slot, req);
  }
}
