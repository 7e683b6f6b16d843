/**
 Handlers that answer requests of one type by dispatching them to a function, and
 what the answers of their channel then are.
 */
module Handlers {
  import opened Bytes
  import opened Calls
  import opened Endpoint
  import opened EndpointEffects
  import opened EndpointInvariants
  import opened Framing
  import opened Messages
  import opened Options
  import opened Params
  import opened TypedMessages

  /** The handler of a request with arguments of type `t` applied `f` to them. */
  predicate Applies(m: Msg, t: Type, f: Value -> Value, out: Value) {
    WellSized(|m|) ==> match Get(Body(m), t).value
      case Some(a) => out == f(a)
      case None => true
  }

  /** `r` is what the dispatcher makes of the request: a reply that carries f of its arguments, or an error. */
  ghost predicate DispatchReply(req: Msg, r: Msg, t: Type, f: Value -> Value) {
    IsReplyError(r) || exists p: Production ::
      Transportable(p.out) && p.id < TWO_TO_32 && r == ReplyImage(p.routing, p.id, p.out) && Applies(req, t, f, p.out)
  }

  /** What the dispatcher builds, as its contract says, is such a reply. */
  lemma DispatchGivesReply(req: Msg, r: Msg, t: Type, f: Value -> Value, id: nat, size: nat)
    requires WellSized(|req|) && id < TWO_TO_32
    requires match Get(Body(req), t).value
      case Some(args) => Transportable(f(args)) && r == ReplyImage(Routing(req), id, f(args))
      case None => r == Mark(NewMessage(Routing(req), REPLY_TYPE, id, size), ReplyErrorBit)
    ensures DispatchReply(req, r, t, f)
  {
    hide Get, ReplyImage, WellTyped, Symmetric, Encode, ParamLength, Buildable, OrMask;
    match Get(Body(req), t).value {
      case Some(args) =>
        var p := Production(f(args), Routing(req), id);
        assert Transportable(p.out) && r == ReplyImage(p.routing, p.id, p.out) && Applies(req, t, f, p.out);
      case None =>
    }
  }

  /** Every handler of a request of type `ty` replies only with what dispatching to `f` gives. */
  ghost predicate DispatchedTo(es: seq<Event>, ty: nat, t: Type, f: Value -> Value)
    decreases |es|
  {
    && ValidRun(es)
    && (es != [] ==>
          && DispatchedTo(es[..|es| - 1], ty, t, f)
          && DispatchStep(After(es[..|es| - 1]), es[|es| - 1], ty, t, f))
  }

  ghost predicate DispatchStep(s: State, e: Event, ty: nat, t: Type, f: Value -> Value) {
    e.SendReply? && s.stack.Push? && s.stack.top.Serving? ==>
      var i := s.stack.top.request;
      i < |s.h.completed| && TypeField(s.h.completed[i]) == ty ==> DispatchReply(s.h.completed[i], e.msg, t, f)
  }

  // ---- the slot belongs to the innermost handler -----------------------------------

  /** The application's code that runs, or waits for a call it made. */
  function Innermost(k: Stack): Option<Activity> {
    if k.Empty? then None
    else if k.top.Serving? || k.top.Delivering? then Some(k.top)
    else Innermost(k.below)
  }

  /** A reply in the slot comes from the innermost handler. */
  ghost predicate SlotDispatched(s: State, ty: nat, t: Type, f: Value -> Value) {
    match Innermost(s.stack)
    case Some(Serving(i)) =>
      s.slot.Some? && i < |s.h.completed| && TypeField(s.h.completed[i]) == ty ==> DispatchReply(s.h.completed[i], s.slot.value, t, f)
    case _ => true
  }

  lemma InnermostPushed(a: Activity, k: Stack)
    ensures Innermost(Push(a, k)) == if a.Serving? || a.Delivering? then Some(a) else Innermost(k)
  {}

  /** How a step changes the innermost handler and the slot: it keeps both, or empties the slot, or no handler of a request is left. */
  predicate HandlerKept(s: State, t: State) {
    || t.slot == None
    || Innermost(t.stack).None? || Innermost(t.stack).value.Delivering?
    || (t.slot == s.slot && Innermost(t.stack) == Innermost(s.stack))
  }

  lemma KeptByApplication(s: State, e: Event)
    requires Can(s, e) && !e.SendReply?
    ensures HandlerKept(s, ByApplication(s, e)) && HandlerKept(s, ByLoop(s, e))
  {
    hide KindOf, WellFormed, Mark, Id, Has, Frame, IsWhole, Missing, Partial, Marked, Innermost;
    InnermostPushed(Flushing, s.stack);
    InnermostPushed(Reading, s.stack);
    InnermostPushed(Dispatching(true), s.stack);
    if e.SendSync? {
      InnermostPushed(Calling(e.timed), s.stack);
      InnermostPushed(Flushing, Push(Calling(e.timed), s.stack));
    }
  }

  lemma KeptByMoving(s: State, e: Event)
    requires Can(s, e)
    ensures HandlerKept(s, BySending(s, e)) && HandlerKept(s, ByReading(s, e))
  {
    hide KindOf, WellFormed, Id, Has, Frame, IsWhole, Missing, Partial, Marked, Innermost;
    if s.stack.Push? { InnermostPushed(s.stack.top, s.stack.below); }
    InnermostPushed(Dispatching(false), s.stack);
  }

  lemma KeptByHandling(s: State, e: Event)
    requires StackInv(s) && Can(s, e)
    ensures HandlerKept(s, ByDispatch(s, e))
  {
    hide KindOf, WellFormed, Finish, Has, Frame, IsWhole, Missing, Partial, Innermost, Nested, HasCall, HasWaiting;
    if s.stack.Push? {
      InnermostPushed(s.stack.top, s.stack.below);
      InnermostPushed(Delivering, s.stack);
    }
    if e.DeliverEnd? { NobodyBelowDispatch(s.stack); }
  }

  /** Below the handler of an asynchronous message there is no other. */
  lemma NobodyBelowDispatch(k: Stack)
    requires Nested(k) && k.Push? && k.top.Delivering?
    ensures Innermost(k.below).None?
  {}

  lemma KeptByCall(s: State, e: Event)
    requires Can(s, e)
    ensures HandlerKept(s, ByCall(s, e))
  {
    hide KindOf, WellFormed, Has, Frame, IsWhole, Missing, Partial, Innermost, IsReplyError;
    if s.stack.Push? {
      InnermostPushed(s.stack.top, s.stack.below);
      InnermostPushed(Waiting, s.stack.below);
      InnermostPushed(Returning(Result(s)), s.stack.below);
      InnermostPushed(Flushing, Push(Returning(Result(s)), s.stack.below));
    }
  }

  lemma HandlerStep(s: State, e: Event)
    requires StackInv(s) && Can(s, e) && !e.SendReply?
    ensures HandlerKept(s, Do(s, e))
  {
    hide Can, StackInv, ByApplication, ByLoop, BySending, ByReading, ByDispatch, ByCall, HandlerKept;
    KeptByApplication(s, e);
    KeptByMoving(s, e);
    KeptByHandling(s, e);
    KeptByCall(s, e);
  }

  lemma {:induction false} InnermostServes(k: Stack)
    ensures Innermost(k).Some? && Innermost(k).value.Serving? ==> Innermost(k).value.request in InService(k)
  {
    if k.Push? {
      InnermostServes(k.below);
    }
  }

  lemma BusyIsCompleted(s: State)
    requires ServiceInv(s)
    ensures forall i :: i in InService(s.stack) ==> i < |s.h.completed|
  {
    hide KindOf, Id;
  }

  lemma SlotKept(s: State, t: State, ty: nat, ts: Type, f: Value -> Value)
    requires SlotDispatched(s, ty, ts, f) && HandlerKept(s, t) && s.h.completed <= t.h.completed
    requires Innermost(s.stack).Some? && Innermost(s.stack).value.Serving? ==> Innermost(s.stack).value.request < |s.h.completed|
    ensures SlotDispatched(t, ty, ts, f)
  {
    hide DispatchReply, TypeField;
  }

  lemma SlotStep(s: State, e: Event, ty: nat, t: Type, f: Value -> Value)
    requires Inv(s) && Can(s, e) && SlotDispatched(s, ty, t, f) && DispatchStep(s, e, ty, t, f)
    ensures SlotDispatched(Do(s, e), ty, t, f)
  {
    InvParts(s);
    InnermostServes(s.stack);
    ServiceOf(s);
    BusyIsCompleted(s);
    GrowsStep(s, e);
    hide Can, Do, Inv, InService, Innermost, ServiceInv, StackInv, DispatchReply, TypeField;
    if e.SendReply? {
      Replying(s, e, ty, t, f);
    } else {
      HandlerStep(s, e);
      SlotKept(s, Do(s, e), ty, t, f);
    }
  }

  lemma ServiceOf(s: State)
    requires Inv(s)
    ensures ServiceInv(s)
  {}

  lemma Replying(s: State, e: Event, ty: nat, t: Type, f: Value -> Value)
    requires Can(s, e) && e.SendReply? && DispatchStep(s, e, ty, t, f)
    ensures SlotDispatched(Do(s, e), ty, t, f)
  {
    OnSendReply(s, e.msg);
    hide Do, WellFormed, Has, DispatchReply, TypeField;
  }

  // ---- the answers -------------------------------------------------------------------

  /** The answer to request `i` is a reply with f of its arguments, or an error. */
  ghost predicate Computed(s: State, i: nat, t: Type, f: Value -> Value) {
    i < |s.h.completed| && exists p: Option<Production> :: AnsweredBy(s, i, p) && (p.Some? ==> Applies(s.h.completed[i], t, f, p.value.out))
  }

  /** So is every answer to a request of type `ty`; other types are free. */
  ghost predicate Implements(s: State, ty: nat, t: Type, f: Value -> Value) {
    forall i: nat :: i in s.h.replyTo && i < |s.h.completed| && TypeField(s.h.completed[i]) == ty ==> Computed(s, i, t, f)
  }

  lemma HowComputed(s: State, i: nat, ty: nat, t: Type, f: Value -> Value) returns (p: Option<Production>)
    requires Implements(s, ty, t, f) && i in s.h.replyTo && i < |s.h.completed| && TypeField(s.h.completed[i]) == ty
    ensures AnsweredBy(s, i, p) && (p.Some? ==> Applies(s.h.completed[i], t, f, p.value.out))
  {
    hide AnsweredBy, Applies, TypeField;
    assert Computed(s, i, t, f);
    p :| AnsweredBy(s, i, p) && (p.Some? ==> Applies(s.h.completed[i], t, f, p.value.out));
  }

  lemma AnsweredStays(s: State, t: State, i: nat, p: Option<Production>)
    requires AnsweredBy(s, i, p) && i < |s.h.completed| && Grows(s.h, t.h) && i in t.h.replyTo && t.h.replyTo[i] == s.h.replyTo[i]
    ensures AnsweredBy(t, i, p)
  {
    hide Finish, ReplyImage, Transportable, IsReplyError;
  }

  lemma ComputedStays(s: State, u: State, i: nat, t: Type, f: Value -> Value)
    requires Computed(s, i, t, f) && Grows(s.h, u.h) && i in s.h.replyTo && i in u.h.replyTo && u.h.replyTo[i] == s.h.replyTo[i]
    ensures Computed(u, i, t, f)
  {
    hide AnsweredBy, Applies;
    var p: Option<Production> :| AnsweredBy(s, i, p) && (p.Some? ==> Applies(s.h.completed[i], t, f, p.value.out));
    AnsweredStays(s, u, i, p);
  }

  lemma AnswerComputed(s: State, ty: nat, t: Type, f: Value -> Value)
    requires Inv(s) && Can(s, ServeEnd) && SlotDispatched(s, ty, t, f)
    requires TypeField(s.h.completed[s.stack.top.request]) == ty
    ensures Computed(Do(s, ServeEnd), s.stack.top.request, t, f)
  {
    var i := s.stack.top.request;
    InnermostPushed(s.stack.top, s.stack.below);
    InvParts(s);
    OnServeEnd(s);
    hide Do, Inv, Finish, DispatchReply, Computed, WellFormed, Has, TypeField, IsWhole, Frame, KindOf, Missing, Partial;
    AnswerFrom(Do(s, ServeEnd), i, s.slot, t, f);
  }

  lemma AnswerFrom(u: State, i: nat, slot: Option<Msg>, t: Type, f: Value -> Value)
    requires i < |u.h.completed| && i in u.h.replyTo && u.h.replyTo[i] < |u.h.pushed|
    requires u.h.pushed[u.h.replyTo[i]] == Finish(slot, u.h.completed[i])
    requires slot.Some? ==> WellFormed(slot.value) && !Has(slot.value, SyncBit) && DispatchReply(u.h.completed[i], slot.value, t, f)
    ensures Computed(u, i, t, f)
  {
    FinishIsAnswer(slot, u.h.completed[i]);
    hide Finish, ReplyImage, Transportable, IsReplyError, Applies, KindOf, WellFormed, Has, Id;
    if slot.Some? && !IsReplyError(slot.value) {
      var p: Production :| Transportable(p.out) && p.id < TWO_TO_32 && slot.value == ReplyImage(p.routing, p.id, p.out)
                           && Applies(u.h.completed[i], t, f, p.out);
      assert AnsweredBy(u, i, Some(p));
    } else {
      assert AnsweredBy(u, i, None);
    }
  }

  lemma ImplementsStep(s: State, e: Event, ty: nat, t: Type, f: Value -> Value)
    requires Inv(s) && Can(s, e) && SlotDispatched(s, ty, t, f) && Implements(s, ty, t, f)
    ensures Implements(Do(s, e), ty, t, f)
  {
    GrowsStep(s, e);
    RepliesEntered(s, e);
    ServiceOf(s);
    AnsweredArrived(s);
    if e.ServeEnd? && TypeField(s.h.completed[s.stack.top.request]) == ty { AnswerComputed(s, ty, t, f); }
    var u := Do(s, e);
    hide Do, Can, Inv, Computed, TypeField, SlotDispatched, ServiceInv;
    forall i: nat | i in u.h.replyTo && i < |u.h.completed| && TypeField(u.h.completed[i]) == ty
      ensures Computed(u, i, t, f)
    {
      if !e.ServeEnd? || i != s.stack.top.request {
        ComputedStays(s, u, i, t, f);
      }
    }
  }

  lemma AnsweredArrived(s: State)
    requires ServiceInv(s)
    ensures forall i: nat :: i in s.h.replyTo ==> i < |s.h.completed|
    ensures forall i :: i in InService(s.stack) ==> i < |s.h.completed|
  {
    hide KindOf, Id;
  }

  /**
   If every handler of a type replies only with what dispatching to `f` gives,
   then whatever else the handlers and the channel do, every answer to a request
   of that type carries f of the request's arguments, or is an error.
   */
  lemma {:induction false} HandlersImplement(es: seq<Event>, ty: nat, t: Type, f: Value -> Value)
    requires DispatchedTo(es, ty, t, f)
    ensures SlotDispatched(After(es), ty, t, f) && Implements(After(es), ty, t, f)
    decreases |es|
  {
    hide Can, Do, Inv, SlotDispatched, Implements, DispatchStep;
    if es == [] {
      NothingAnswered(ty, t, f);
    } else {
      var n := |es| - 1;
      HandlersImplement(es[..n], ty, t, f);
      RunInv(es[..n]);
      SlotStep(After(es[..n]), es[n], ty, t, f);
      ImplementsStep(After(es[..n]), es[n], ty, t, f);
    }
  }

  lemma NothingAnswered(ty: nat, t: Type, f: Value -> Value)
    ensures SlotDispatched(Start(), ty, t, f) && Implements(Start(), ty, t, f)
  {}
}
