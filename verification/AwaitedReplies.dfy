/**
 Between two channels a reply that somebody waits for is never lost.  A handler
 serves another request only after the call that it answers has returned.
 */
module AwaitedReplies {
  import opened Bytes
  import opened Endpoint
  import opened EndpointInvariants
  import opened HandlerReplies
  import opened Link
  import opened Messages
  import opened Options
  import opened Outcomes
  import opened Progress

  /** The requests in service below are in service above. */
  lemma {:induction false} ServedAbove(k: Stack, base: Stack)
    requires Extends(k, base)
    ensures InService(base) <= InService(k)
  {
    if k != base {
      ServedAbove(k.below, base);
    }
  }

  lemma LaterRequest(h: History, over: bool, i: nat, n: nat)
    requires CallsOk(h, over) && IsRequest(h.pushed, i) && IsRequest(h.pushed, n) && i < n
    ensures HasReturned(h, i)
  {
    hide KindOf, HasReturned;
  }

  /** When `me` is about to serve a request while it serves request `i`, its peer's call `i` has returned. */
  lemma ServingMeansReturned(me: State, peer: State, i: nat)
    requires Paired(me, peer) && CallsInv(peer) && Can(me, Complete) && ReceivesRequest(me, Complete) && i in InService(me.stack)
    ensures HasReturned(peer.h, i)
  {
    CompletingIsNextPushed(me, peer);
    BusyIsAsked(me, peer, i);
    BusyRequest(me.h, InService(me.stack), i);
    assert IsRequest(peer.h.pushed, |me.h.completed|);
    hide Paired, KindOf, InService, CallsOk, Can, HasReturned;
    LaterRequest(peer.h, Over(peer), i, |me.h.completed|);
  }

  lemma ReturnedForGood(s: State, e: Event, i: nat)
    requires Can(s, e) && HasReturned(s.h, i)
    ensures HasReturned(Do(s, e).h, i)
  {
    OutcomesStep(s, e);
    hide Do, Can, Recorded;
    var o :| o in s.h.outcomes && o.call == i;
    assert o in Do(s, e).h.outcomes;
  }

  /** From `ts` to `us` the handler at `base` neither ends nor replies again. */
  ghost predicate Undisturbed(ts: seq<Turn>, us: seq<Turn>, capacity: nat, side: Side, base: Stack)
    decreases |us|
  {
    && LinkRun(us, capacity)
    && (us == ts ||
        (us != [] && Undisturbed(ts, us[..|us| - 1], capacity, side, base)
         && (us[|us| - 1].side == side ==> Foreign(At(LinkAfter(us[..|us| - 1], capacity), side), us[|us| - 1].event, base))))
  }

  /** The slot holds the reply of the handler at `base`, or the call it was for has returned. */
  ghost predicate KeptOrReturned(me: State, peer: State, base: Stack, r: Msg) {
    base.Push? && base.top.Serving? && (Kept(me, base, r, false) || (Kept(me, base, r, true) && HasReturned(peer.h, base.top.request)))
  }

  lemma KeptOwnStep(me: State, peer: State, e: Event, base: Stack, r: Msg)
    requires Paired(me, peer) && CallsInv(peer) && Can(me, e) && Foreign(me, e, base) && KeptOrReturned(me, peer, base, r)
    ensures KeptOrReturned(Do(me, e), peer, base, r)
  {
    var served := !Kept(me, base, r, false);
    OwnInv(me, peer);
    hide Can, Do, Paired, CallsInv, Foreign, Inv, Kept, HasReturned, ReceivesRequest;
    KeptStep(me, e, base, r, served);
    if ReceivesRequest(me, e) { ServingOnTop(me, peer, e, base, r, served); }
  }

  lemma ServingOnTop(me: State, peer: State, e: Event, base: Stack, r: Msg, served: bool)
    requires Paired(me, peer) && CallsInv(peer) && Can(me, e) && ReceivesRequest(me, e)
    requires Kept(me, base, r, served) && base.Push? && base.top.Serving?
    ensures HasReturned(peer.h, base.top.request)
  {
    hide Can, Paired, CallsInv, Extends, Undispatched, Alone, HasReturned, KindOf, InService;
    ServedAbove(me.stack, base);
    InServiceAtTop(base);
    ServingMeansReturned(me, peer, base.top.request);
  }

  lemma InServiceAtTop(k: Stack)
    requires k.Push? && k.top.Serving?
    ensures k.top.request in InService(k)
  {}

  lemma KeptPeerStep(me: State, peer: State, e: Event, base: Stack, r: Msg)
    requires Can(peer, e) && KeptOrReturned(me, peer, base, r)
    ensures KeptOrReturned(me, Do(peer, e), base, r)
  {
    hide Can, Do, Kept, HasReturned;
    if HasReturned(peer.h, base.top.request) { ReturnedForGood(peer, e, base.top.request); }
  }

  lemma {:induction false} KeptUntilReturned(ts: seq<Turn>, us: seq<Turn>, capacity: nat, side: Side, base: Stack, r: Msg)
    requires LinkRun(ts, capacity) && Undisturbed(ts, us, capacity, side, base)
    requires KeptOrReturned(At(LinkAfter(ts, capacity), side), At(LinkAfter(ts, capacity), Other(side)), base, r)
    ensures KeptOrReturned(At(LinkAfter(us, capacity), side), At(LinkAfter(us, capacity), Other(side)), base, r)
    decreases |us|
  {
    hide Can, Do, Paired, CallsInv, KeptOrReturned, InPipe, Foreign;
    if us != ts {
      var n := |us| - 1;
      KeptUntilReturned(ts, us[..n], capacity, side, base, r);
      var l := LinkAfter(us[..n], capacity);
      LinkRunInv(us[..n], capacity);
      PairSymmetric(l.left, l.right);
      EachEndRuns(us[..n], capacity, Other(side));
      EachCallReturnsOnce(EventsOf(us[..n], Other(side)));
      if us[n].side == side {
        KeptOwnStep(At(l, side), At(l, Other(side)), us[n].event, base, r);
      } else {
        KeptPeerStep(At(l, side), At(l, Other(side)), us[n].event, base, r);
      }
    }
  }

  /**
   A reply `r` given by the handler of request `i`, which neither replies again
   nor ends until the end of `us`, leaves for its caller when the handler returns,
   whatever calls the handler made in between, unless the caller's call has
   returned before; so it does when the caller still waits.
   */
  lemma AwaitedReplyLeaves(ts: seq<Turn>, us: seq<Turn>, capacity: nat, side: Side, r: Msg, i: nat, k: Stack) returns (answer: Msg)
    requires LinkRun(ts, capacity) && ts != [] && ts[|ts| - 1] == Turn(side, SendReply(r))
    requires At(LinkAfter(ts, capacity), side).stack == Push(Serving(i), k)
    requires Undisturbed(ts, us, capacity, side, Push(Serving(i), k)) && At(LinkAfter(us, capacity), side).stack == Push(Serving(i), k)
    ensures var me, peer := At(LinkAfter(us, capacity), side), At(LinkAfter(us, capacity), Other(side));
      && i < |me.h.completed| && ReturnsWith(me, i, answer)
      && (HasReturned(peer.h, i) || (Id(me.h.completed[i]) < TWO_TO_32 && answer == WithId(Mark(r, ReplyBit), Id(me.h.completed[i]))))
      && (peer.call.inNested && peer.h.call == i ==> !HasReturned(peer.h, i))
  {
    var base := Push(Serving(i), k);
    var me, peer := At(LinkAfter(us, capacity), side), At(LinkAfter(us, capacity), Other(side));
    JustReplied(ts, capacity, side, r, base);
    KeptUntilReturned(ts, us, capacity, side, base, r);
    LinkRunInv(us, capacity);
    PairSymmetric(LinkAfter(us, capacity).left, LinkAfter(us, capacity).right);
    EachEndRuns(us, capacity, Other(side));
    EachCallReturnsOnce(EventsOf(us, Other(side)));
    hide LinkRun, LinkAfter, Undisturbed, CallsOk, Inv, Kept, ValidRun, After, ReturnsWith, Finish, Mark, HasReturned, Piped, NotCrossed, Awaited;
    InvServes(me);
    ReturnAnswers(me, i, k);
    answer := Finish(me.slot, me.h.completed[i]);
    IdRange(me.h.completed[i]);
    if Kept(me, base, r, false) { EndsKept(me, base, r, false); }
    FinishedWith(me.slot, r, me.h.completed[i]);
    if peer.call.inNested && peer.h.call == i { InProgressHasNotReturned(peer); }
  }

  lemma FinishedWith(slot: Option<Msg>, r: Msg, req: Msg)
    requires Id(req) < TWO_TO_32
    ensures slot == Some(r) ==> Finish(slot, req) == WithId(Mark(r, ReplyBit), Id(req))
  {}

  lemma InProgressHasNotReturned(s: State)
    requires CallsInv(s) && s.call.inNested
    ensures !HasReturned(s.h, s.h.call)
  {
    hide KindOf, InHand;
  }

  lemma JustReplied(ts: seq<Turn>, capacity: nat, side: Side, r: Msg, base: Stack)
    requires LinkRun(ts, capacity) && ts != [] && ts[|ts| - 1] == Turn(side, SendReply(r))
    requires At(LinkAfter(ts, capacity), side).stack == base && base.Push? && base.top.Serving?
    ensures KeptOrReturned(At(LinkAfter(ts, capacity), side), At(LinkAfter(ts, capacity), Other(side)), base, r)
  {
    hide WellFormed, Has, InPipe;
    StartsKept(At(LinkAfter(ts, capacity), side), base, r);
  }
}
