/** Typed synchronous calls from end to end: codec, framing and reply matching together. */
module Calls {
  import opened Bytes
  import opened Endpoint
  import opened EndpointInvariants
  import opened Link
  import opened Messages
  import opened Options
  import opened Params
  import opened Replies
  import opened TypedMessages
  import opened Variables

  /** Values that a message can carry and that are read back as they were. */
  predicate Transportable(v: Value) {
    WellTyped(v) && Symmetric(v) && |Encode(v)| < TWO_TO_32 && Buildable(ParamLength(v))
  }

  /** What a dispatcher put into its answer. */
  datatype Production = Production(out: Value, routing: int, id: nat)

  /** The answer to request `i` is the dispatcher's reply with this value. */
  ghost predicate Produced(s: State, i: nat, p: Production) {
    && Transportable(p.out) && p.id < TWO_TO_32
    && i in s.h.replyTo && s.h.replyTo[i] < |s.h.pushed| && i < |s.h.completed|
    && s.h.pushed[s.h.replyTo[i]] == Finish(Some(ReplyImage(p.routing, p.id, p.out)), s.h.completed[i])
  }

  /** The answer to request `i` is a dispatcher's reply with the value produced, or an error if none was. */
  ghost predicate AnsweredBy(s: State, i: nat, p: Option<Production>) {
    match p
    case Some(q) => Produced(s, i, q)
    case None => i in s.h.replyTo && s.h.replyTo[i] < |s.h.pushed| && IsReplyError(s.h.pushed[s.h.replyTo[i]])
  }

  lemma FinishCarries(p: Production, req: Msg)
    requires Transportable(p.out) && p.id < TWO_TO_32
    ensures Carries(Finish(Some(ReplyImage(p.routing, p.id, p.out)), req), p.out)
  {
    var r := ReplyImage(p.routing, p.id, p.out);
    ReplyCarries(p.routing, p.id, p.out);
    IdRange(req);
    hide Encode, Carries;
    HeaderEditsKeepParameters(r, p.out, ReplyBit, Id(req));
    HeaderEditsKeepParameters(Mark(r, ReplyBit), p.out, ReplyBit, Id(req));
  }

  /** The parameters of `m` read as `v`. */
  predicate ReadsAs(m: Msg, v: Value) {
    WellSized(|m|) && Get(Body(m), TypeOf(v)).value == Some(v)
  }

  /** Such a message sets variables of that type to the value. */
  lemma ReadReplySets(m: Msg, v: Value, held: Value)
    requires ReadsAs(m, v) && TypeOf(held) == TypeOf(v)
    ensures AfterReply(m, held) == v
  {
    hide Get, AfterReply, TypeOf;
    ReadableReplySetsAll(m, held);
  }

  /** Call `i` of this end is the typed request with these arguments. */
  predicate CalledWith(s: State, i: nat, routing: int, ty: nat, id: nat, args: Value) {
    && Transportable(args) && id < TWO_TO_32 && ty < 0x1_0000
    && i < |s.h.pushed| && s.h.pushed[i] == Mark(RequestImage(routing, ty, id, args), SyncBit)
  }

  /**
   End to end: a typed call that returns a reply hands its caller exactly the
   value that the peer's handler produced for this call, and that handler was
   given exactly the caller's arguments, whatever else the two ends did.
   */
  lemma TypedCallIsAnsweredForItsArguments(me: State, peer: State, o: Outcome,
                                           routing: int, ty: nat, id: nat, args: Value, p: Option<Production>)
    requires o in me.h.outcomes && o.reply.Some?
    requires CalledWith(me, o.call, routing, ty, id, args) && AnsweredBy(peer, o.call, p)
    requires Paired(me, peer) && Matched(me, peer)
    ensures o.call < |peer.h.completed| && TypeField(peer.h.completed[o.call]) == ty && ReadsAs(peer.h.completed[o.call], args)
    ensures p.Some? && ReadsAs(o.reply.value, p.value.out)
  {
    ReturnedReplyAnswersItsCall(me, peer, o);
    AnswerOf(me, peer, o.call);
    RequestArrived(me, peer, o.call);
    RequestCarries(routing, ty, id, args);
    RequestHasType(routing, ty, id, args);
    hide Paired, Matched, Encode, KindOf, Id, Get, Finish, Carries, WellTyped, IsReplyError, Buildable, Symmetric, TypeField, Mark, RequestImage;
    HeaderEditsKeepParameters(RequestImage(routing, ty, id, args), args, SyncBit, 0);
    CarriedIsRead(me.h.pushed[o.call], args);
    FinishCarries(p.value, peer.h.completed[o.call]);
    CarriedIsRead(o.reply.value, p.value.out);
  }

  lemma RequestArrived(me: State, peer: State, i: nat)
    requires Paired(me, peer) && i in peer.h.replyTo
    ensures i < |peer.h.completed| && i < |me.h.pushed| && peer.h.completed[i] == me.h.pushed[i]
  {
    CompletedIsPrefixOfPushed(peer, me);
    AnsweredWasReceived(peer, i);
    hide Paired;
  }

  lemma AnsweredWasReceived(s: State, i: nat)
    requires ServiceInv(s) && i in s.h.replyTo
    ensures i < |s.h.completed|
  {
    hide KindOf, Id, InService;
  }
}
