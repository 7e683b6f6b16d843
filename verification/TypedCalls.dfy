/** The typed synchronous call of a channel, which reads the reply into its caller's variables. */
module TypedCalls {
  import opened ChannelBuffers
  import opened Channels
  import opened Endpoint
  import opened EndpointEffects
  import opened EndpointInvariants
  import opened Framing
  import opened Messages
  import opened Options
  import opened Params
  import opened Scripts
  import opened TypedMessages
  import opened Variables

  /** The variables that the reply tuple of a request refers to. */
  class Reply {
    var held: Value

    constructor (held: Value)
      ensures this.held == held
    {
      this.held := held;
    }
  }

  lemma AcceptedIsWellSized(es: seq<Event>)
    requires ValidRun(es)
    requires After(es).call.curReply.Some?
    ensures WellSized(|After(es).call.curReply.value|)
  {
    RunInv(es);
    hide *;
    AcceptedInRun(After(es));
  }

  lemma AcceptedInRun(s: State)
    requires Inv(s) && s.call.curReply.Some?
    ensures WellSized(|s.call.curReply.value|)
  {
    hide StackInv, OutputInv, SlotInv, SendInv, OrderInv, QueueInv, LossInv, DispatchInv, OutcomeInv, ServiceInv, WaitInv, ReceiveInv;
    AcceptedIsReceived(s);
  }

  lemma AcceptedIsReceived(s: State)
    requires WaitInv(s) && ReceiveInv(s) && s.call.curReply.Some?
    ensures WellSized(|s.call.curReply.value|)
  {
    assert s.call.curReply.value in s.h.completed;
    hide KindOf, Id, Partial, Frames;
  }

  /**
   The typed call: true exactly when the untyped one, which queues this request,
   gave a reply, readable or not.  The variables then hold what ReadInto makes of
   them: all of them the reply's if it is readable, those up to the first failing
   read if it is not.
   */
  method SendTyped(c: Channel, msg: Msg, timed: bool, ownThread: bool, reply: Reply)
    returns (ok: bool, ghost answer: Option<Msg>, ghost end: Moment)
    requires c.Valid() && WellFormed(msg) && Id(msg) != 0
    requires ownThread && !c.remoteIsSuspended ==> UserTurn(c.m.stack) && !c.call.inNested
    modifies c, c.lengthBytes, c.payload, reply
    ensures c.Valid() && c.m.stack == old(c.m.stack)
    ensures if ownThread && !old(c.remoteIsSuspended) then
              && c.Called(old(c.trace), old(|c.m.h.pushed|), msg, timed) && c.EndedAt(end, old(|c.m.h.pushed|), ok, answer)
              && Later(old(c.Asking(Sync(msg, timed))), c.Now())
            else !ok && c.trace == old(c.trace) && c.wire == old(c.wire)
    ensures if ok then answer.Some? && WellSized(|answer.value|) && Id(answer.value) == Id(msg)
                       && reply.held == AfterReply(answer.value, old(reply.held))
            else reply.held == old(reply.held)
  {
    hide Inv, ValidRun, After, Later, Promised, Deferred, Arriving, AfterReply, ReadInto, Told, EnvAfter, Silent, React, Select, WentOn;
    if ownThread && !c.remoteIsSuspended {
      c.Ask(Sync(msg, timed));
    }
    var r: Option<Msg>;
    ok, r, end := c.SendSyncMessage(msg, timed, ownThread);
    answer := r;
    if ok && r.Some? {
      AcceptedIsWellSized(end.trace);
      reply.held := AfterReply(r.value, reply.held);
    }
  }

  /** `pushed` asks the peer to suspend and is `msg` otherwise: same id and, if any, same parameters. */
  predicate AsksToSuspend(pushed: Msg, msg: Msg) {
    && HasHeader(pushed) && HasHeader(msg) && Id(pushed) == Id(msg)
    && Has(pushed, SuspendBit) && Has(pushed, SyncBit)
    && pushed[HEADER_SIZE..] == msg[HEADER_SIZE..]
  }

  lemma SuspendMarked(msg: Msg)
    requires HasHeader(msg)
    ensures AsksToSuspend(Mark(Mark(msg, SuspendBit), SyncBit), msg)
  {
    assert Mark(Mark(msg, SuspendBit), SyncBit)[HEADER_SIZE..] == msg[HEADER_SIZE..];
    hide OrMask, HasMask;
  }

  /** What the request carried it still carries, for the same routing and of the same type. */
  lemma SuspendingRequestCarries(pushed: Msg, msg: Msg, v: Value)
    requires pushed == Mark(Mark(msg, SuspendBit), SyncBit) && Carries(msg, v)
    ensures AsksToSuspend(pushed, msg) && Carries(pushed, v) && For(pushed, Routing(msg), TypeField(msg))
  {
    SuspendMarked(msg);
    HeaderEditsKeepParameters(msg, v, SuspendBit, 0);
    HeaderEditsKeepParameters(Mark(msg, SuspendBit), v, SyncBit, 0);
    HeaderEditsKeepAddress(msg, SuspendBit, 0);
    HeaderEditsKeepAddress(Mark(msg, SuspendBit), SyncBit, 0);
    hide Mark, Carries, Routing, TypeField, AsksToSuspend;
  }

  /**
   The same for a request to suspend: what is queued is the caller's request, with
   the flag that asks for it, and after the call the peer counts as suspended
   whatever came back.
   */
  method SendTypedSuspend(c: Channel, msg: Msg, timed: bool, ownThread: bool, reply: Reply)
    returns (ok: bool, ghost answer: Option<Msg>, ghost end: Moment)
    requires c.Valid() && WellFormed(msg) && Id(msg) != 0
    requires ownThread && !c.remoteIsSuspended ==> UserTurn(c.m.stack) && !c.call.inNested
    modifies c, c.lengthBytes, c.payload, reply
    ensures c.Valid() && c.remoteIsSuspended && c.m.stack == old(c.m.stack)
    ensures if ownThread && !old(c.remoteIsSuspended) then
              && old(|c.m.h.pushed|) < |c.m.h.pushed| && AsksToSuspend(c.m.h.pushed[old(|c.m.h.pushed|)], msg)
              && (forall v :: Carries(msg, v) ==> Carries(c.m.h.pushed[old(|c.m.h.pushed|)], v))
              && c.Called(old(c.trace), old(|c.m.h.pushed|), Mark(msg, SuspendBit), timed)
              && c.EndedAt(end, old(|c.m.h.pushed|), ok, answer)
            else !ok && c.trace == old(c.trace) && c.wire == old(c.wire)
    ensures if ok then answer.Some? && WellSized(|answer.value|) && Id(answer.value) == Id(msg)
                       && reply.held == AfterReply(answer.value, old(reply.held))
            else reply.held == old(reply.held)
  {
    hide Inv, ValidRun, After, Later, Promised, Deferred, Arriving, AfterReply, ReadInto, HasMask, OrMask;
    hide Told, EnvAfter, Silent, React, Select, WentOn, Carries, AsksToSuspend;
    ok, answer, end := SendTyped(c, Mark(msg, SuspendBit), timed, ownThread, reply);
    SuspendMarked(msg);
    forall v | Carries(msg, v)
      ensures Carries(Mark(Mark(msg, SuspendBit), SyncBit), v)
    {
      SuspendingRequestCarries(Mark(Mark(msg, SuspendBit), SyncBit), msg, v);
    }
    c.SetRemoteIsSuspended(true, false);
  }
}
