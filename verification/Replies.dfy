/**
 Replies reach their calls, even though ids repeat.  A new call needs an id that
 no request still on its way to an answer carries; earlier requests with that id
 do no harm once their answers were read.
 */
module Replies {
  import opened Endpoint
  import opened EndpointInvariants
  import opened Framing
  import opened Link
  import MessageIds
  import opened Messages
  import opened Options
  import opened Protocol

  /** The answer to request `i` of `me` was read. */
  predicate Settled(me: State, peer: State, i: nat) {
    i in peer.h.replyTo && peer.h.replyTo[i] < |me.h.completed|
  }

  /** Settled is the last place of a request's life. */
  lemma SettledIsConsumed(me: State, peer: State, i: nat)
    requires Paired(me, peer) && IsRequest(me.h.pushed, i)
    ensures Settled(me, peer, i) <==> PlaceOf(me, peer, i) == Consumed
  {
    RequestIsInOnePlace(me, peer, i);
    CompletedIsPrefixOfPushed(peer, me);
    if i in peer.h.replyTo { AnswerOf(me, peer, i); }
    hide Paired, KindOf, Id, InService, IsRequest;
  }

  /** Of the requests with the current id only the current one may still be answered. */
  ghost predicate FreshId(me: State, peer: State) {
    me.call.inNested ==>
      forall i: nat :: IsRequest(me.h.pushed, i) && Id(me.h.pushed[i]) == me.call.curId && i != me.h.call ==> Settled(me, peer, i)
  }

  /** The answer about to complete at `me` answers the call in progress. */
  predicate AnswersCurrentCall(me: State, peer: State) {
    me.call.inNested && me.h.call in peer.h.replyTo && peer.h.replyTo[me.h.call] == |me.h.completed|
  }

  /** An answer that carries the current id answers the call in progress, and the other way round. */
  lemma CurrentIdMeansCurrentCall(me: State, peer: State)
    requires Paired(me, peer) && FreshId(me, peer)
    requires Can(me, Complete) && |me.inBuf| >= LENGTH_SIZE && KindOf(me.inBuf[LENGTH_SIZE..]) == Answer
    ensures me.call.inNested && Id(me.inBuf[LENGTH_SIZE..]) == me.call.curId <==> AnswersCurrentCall(me, peer)
  {
    var m, at := me.inBuf[LENGTH_SIZE..], |me.h.completed|;
    CompletingIsNextPushed(me, peer);
    CompletedIsPrefixOfPushed(peer, me);
    AnswersAreKept(peer.h, InService(peer.stack), at);
    assert IsAnswer(peer.h.pushed, at);
    var i := peer.h.requestOf[at];
    assert IsRequest(me.h.pushed, i) && Id(m) == Id(me.h.pushed[i]);
    if me.call.inNested {
      CurrentId(me);
      if me.h.call in peer.h.replyTo { AnswerOf(me, peer, me.h.call); }
    }
    hide KindOf, Id, Paired, Can, InService;
  }

  lemma CurrentId(s: State)
    requires WaitInv(s) && s.call.inNested
    ensures IsRequest(s.h.pushed, s.h.call) && s.call.curId == Id(s.h.pushed[s.h.call])
  {
    hide KindOf, Id;
  }

  /**
   An answer is accepted exactly when it answers the call in progress; every
   other one, such as the late reply to a call that timed out, changes nothing
   but the messages read.
   */
  lemma AnswerAcceptedIffCurrent(me: State, peer: State)
    requires Paired(me, peer) && FreshId(me, peer)
    requires Can(me, Complete) && |me.inBuf| >= LENGTH_SIZE && KindOf(me.inBuf[LENGTH_SIZE..]) == Answer
    ensures var t, m := Do(me, Complete), me.inBuf[LENGTH_SIZE..];
      if AnswersCurrentCall(me, peer) then t.call == me.call.(curReply := Some(m), quit := true)
      else t == me.(inBuf := [], h := me.h.(completed := me.h.completed + [m]))
  {
    CurrentIdMeansCurrentCall(me, peer);
    AnswerHandled(me);
    hide KindOf, Id, Paired, FreshId, Do, Can;
  }

  // ---- what every run keeps -----------------------------------------------------

  /** Message `at` of the peer is its one answer to call `call`. */
  predicate Matches(peer: State, call: nat, at: nat) {
    call in peer.h.replyTo && peer.h.replyTo[call] == at
  }

  /** Every reply accepted, in hand or returned answers the call it was accepted for. */
  ghost predicate Matched(me: State, peer: State) {
    && FreshId(me, peer)
    && (me.call.curReply.Some? || ReplyInHand(me.stack).Some? ==> Matches(peer, me.h.call, me.h.acceptedAt))
    && forall o :: o in me.h.outcomes && o.reply.Some? ==> Matches(peer, o.call, o.acceptedAt)
  }

  /** A call may only reuse an id whose earlier requests are settled. */
  ghost predicate FreshCall(me: State, peer: State, e: Event) {
    e.SendSync? ==>
      forall i: nat :: IsRequest(me.h.pushed, i) && Id(me.h.pushed[i]) == Id(e.msg) ==> Settled(me, peer, i)
  }

  lemma FreshStays(me: State, peer: State, e: Event)
    requires Paired(me, peer) && FreshId(me, peer) && Can(me, e) && !e.SendSync?
    ensures FreshId(Do(me, e), peer)
  {
    PushedNoRequest(me, e);
    CallKeptStep(me, e);
    GrowsStep(me, e);
    CurrentIdKept(me, e);
    hide Do, Can, Paired, KindOf, Id, Postponed;
  }

  lemma CurrentIdKept(s: State, e: Event)
    requires Inv(s) && Can(s, e) && !e.SendSync?
    ensures Do(s, e).call.inNested ==> Do(s, e).call.curId == s.call.curId
  {
    InvStep(s, e);
    CallKeptStep(s, e);
    GrowsStep(s, e);
    CurrentIdIsOfCall(s);
    CurrentIdIsOfCall(Do(s, e));
    hide Do, Can, Inv, Id, Postponed;
  }

  lemma CurrentIdIsOfCall(s: State)
    requires Inv(s)
    ensures s.call.inNested ==> s.h.call < |s.h.pushed| && s.call.curId == Id(s.h.pushed[s.h.call])
  {
    hide KindOf, Id;
  }

  lemma FreshStarts(me: State, peer: State, e: Event)
    requires Paired(me, peer) && Can(me, e) && e.SendSync? && FreshCall(me, peer, e)
    ensures FreshId(Do(me, e), peer)
  {
    LedgerStep(me, e);
    CallStarted(me, e);
    MarkKeepsForm(e.msg);
    hide Do, Can, Paired, KindOf, Id, Mark, WellFormed;
  }

  lemma CallStarted(s: State, e: Event)
    requires Can(s, e) && e.SendSync?
    ensures var t := Do(s, e); t.h.call == |s.h.pushed| && t.call.curId == Id(e.msg) && t.call.curReply.None?
    ensures ReplyInHand(Do(s, e).stack).None? && Do(s, e).h.outcomes == s.h.outcomes && Do(s, e).h.completed == s.h.completed
  {
    hide KindOf, Id, Mark, WellFormed;
  }

  /** Where a reply accepted after a step comes from: it was there, or the step accepted it. */
  predicate AcceptedFrom(s: State, e: Event, t: State) {
    t.call.curReply.Some? ==>
      || (s.call.curReply.Some? && t.h.call == s.h.call && t.h.acceptedAt == s.h.acceptedAt)
      || (e.Complete? && s.call.inNested && |s.inBuf| >= LENGTH_SIZE && KindOf(s.inBuf[LENGTH_SIZE..]) == Answer
          && Id(s.inBuf[LENGTH_SIZE..]) == s.call.curId && t.h.call == s.h.call && t.h.acceptedAt == |s.h.completed|)
  }

  lemma AcceptedByReading(s: State, e: Event)
    requires Can(s, e)
    ensures AcceptedFrom(s, e, ByReading(s, e))
  {
    if e.Complete? { CompleteHasLength(s); }
    hide KindOf, Id, IsWhole, Missing, Partial, Marked, Has;
  }

  lemma AcceptedBySending(s: State, e: Event)
    requires Can(s, e)
    ensures AcceptedFrom(s, e, BySending(s, e)) && AcceptedFrom(s, e, ByLoop(s, e))
  {
    hide KindOf, Id, IsWhole, Missing, Partial, Marked, Has, Frame;
  }

  lemma AcceptedElse(s: State, e: Event)
    requires Can(s, e)
    ensures AcceptedFrom(s, e, ByApplication(s, e)) && AcceptedFrom(s, e, ByDispatch(s, e)) && AcceptedFrom(s, e, ByCall(s, e))
  {
    hide KindOf, Id, IsWhole, Missing, Partial, Marked, Has, Finish, Mark, WellFormed, IsReplyError;
  }

  lemma AcceptedStep(s: State, e: Event)
    requires Can(s, e)
    ensures AcceptedFrom(s, e, Do(s, e))
  {
    hide Can, ByApplication, ByLoop, BySending, ByReading, ByDispatch, ByCall, AcceptedFrom;
    AcceptedByReading(s, e);
    AcceptedBySending(s, e);
    AcceptedElse(s, e);
  }

  /** An answer accepted by this step is the answer to the call. */
  ghost predicate AcceptsOwn(me: State, peer: State, e: Event) {
    (e.Complete? && me.call.inNested && |me.inBuf| >= LENGTH_SIZE && KindOf(me.inBuf[LENGTH_SIZE..]) == Answer
     && Id(me.inBuf[LENGTH_SIZE..]) == me.call.curId) ==> Matches(peer, me.h.call, |me.h.completed|)
  }

  lemma AcceptingOwn(me: State, peer: State, e: Event)
    requires Paired(me, peer) && FreshId(me, peer) && Can(me, e)
    ensures AcceptsOwn(me, peer, e)
  {
    if e.Complete? && |me.inBuf| >= LENGTH_SIZE && KindOf(me.inBuf[LENGTH_SIZE..]) == Answer {
      CurrentIdMeansCurrentCall(me, peer);
    }
    hide Can, Paired, FreshId, KindOf, Id;
  }

  lemma MatchedWhen(me: State, peer: State, e: Event, t: State)
    requires Matched(me, peer) && FreshId(t, peer)
    requires AcceptedFrom(me, e, t) && AcceptsOwn(me, peer, e) && HandedOn(me, t)
    ensures Matched(t, peer)
  {
    hide FreshId, KindOf, Id, Good, ReplyInHand;
  }

  lemma MatchedOwnStep(me: State, peer: State, e: Event)
    requires Paired(me, peer) && Matched(me, peer) && Can(me, e) && FreshCall(me, peer, e)
    ensures Matched(Do(me, e), peer)
  {
    hide Do, Can, Inv, FreshId, FreshCall, KindOf, Id, ReplyInHand, HandedOn, AcceptedFrom, AcceptsOwn;
    if e.SendSync? {
      FreshStarts(me, peer, e);
      CallStarted(me, e);
    } else {
      FreshStays(me, peer, e);
      AcceptedStep(me, e);
      InvHandsOn(me, e);
      AcceptingOwn(me, peer, e);
      MatchedWhen(me, peer, e, Do(me, e));
    }
  }

  lemma InvHandsOn(s: State, e: Event)
    requires Inv(s) && Can(s, e)
    ensures HandedOn(s, Do(s, e))
  {
    HandStep(s, e);
    hide *;
  }

  lemma MatchedPeerStep(me: State, peer: State, e: Event)
    requires Paired(me, peer) && Matched(me, peer) && Can(peer, e)
    ensures Matched(me, Do(peer, e))
  {
    RepliesGrow(peer, e);
    hide Do, Can, Paired, KindOf, Id, ReplyInHand;
  }

  lemma MatchedStart()
    ensures Matched(Start(), Start())
  {}

  /** A run in which the calls of `side` only use fresh ids. */
  ghost predicate FreshRun(ts: seq<Turn>, capacity: nat, side: Side)
    decreases |ts|
  {
    && LinkRun(ts, capacity)
    && (ts != [] ==>
          && FreshRun(ts[..|ts| - 1], capacity, side)
          && (ts[|ts| - 1].side == side ==>
                var l := LinkAfter(ts[..|ts| - 1], capacity);
                FreshCall(At(l, side), At(l, Other(side)), ts[|ts| - 1].event)))
  }

  /** In every such run each reply belongs to its call. */
  lemma {:induction false} FreshRunMatches(ts: seq<Turn>, capacity: nat, side: Side)
    requires FreshRun(ts, capacity, side)
    ensures Matched(At(LinkAfter(ts, capacity), side), At(LinkAfter(ts, capacity), Other(side)))
    decreases |ts|
  {
    hide Paired, Matched, FreshCall, Do, Can, Start, InPipe;
    if ts == [] {
      MatchedStart();
    } else {
      var n := |ts| - 1;
      var l, t := LinkAfter(ts[..n], capacity), ts[n];
      FreshRunMatches(ts[..n], capacity, side);
      LinkRunInv(ts[..n], capacity);
      PairSymmetric(l.left, l.right);
      if t.side == side {
        MatchedOwnStep(At(l, side), At(l, Other(side)), t.event);
      } else {
        MatchedPeerStep(At(l, side), At(l, Other(side)), t.event);
      }
    }
  }

  /** Reply matching: a reply that a call returned is the one message the peer queued in answer to this very call. */
  lemma ReturnedReplyAnswersItsCall(me: State, peer: State, o: Outcome)
    requires Paired(me, peer) && Matched(me, peer)
    requires o in me.h.outcomes && o.reply.Some?
    ensures Matches(peer, o.call, o.acceptedAt)
    ensures o.acceptedAt < |peer.h.pushed| && peer.h.pushed[o.acceptedAt] == o.reply.value && !IsReplyError(o.reply.value)
  {
    assert Good(me.h, o);
    CompletedIsPrefixOfPushed(me, peer);
    hide KindOf, Id, Inv, Piped, NotCrossed, Awaited, InService, FreshId;
  }

  // ---- ids drawn from the generator -----------------------------------------------

  /** Request `i` carries the id of draw `draw[i]`. */
  ghost predicate Drawn(s: State, draw: map<nat, nat>, i: nat) {
    i in draw && i < |s.h.pushed| && Id(s.h.pushed[i]) == MessageIds.IdAt(draw[i])
  }

  /** The call about to start was drawn less than a period after every earlier request that is not settled. */
  ghost predicate RecentCall(me: State, peer: State, e: Event, draw: map<nat, nat>) {
    e.SendSync? ==>
      var j := |me.h.pushed|;
      && j in draw && Id(e.msg) == MessageIds.IdAt(draw[j])
      && forall i: nat :: IsRequest(me.h.pushed, i) && !Settled(me, peer, i) ==>
           Drawn(me, draw, i) && draw[i] != draw[j] && -MessageIds.LAST_ID < draw[j] - draw[i] < MessageIds.LAST_ID
  }

  lemma RecentIsFresh(me: State, peer: State, e: Event, draw: map<nat, nat>)
    requires RecentCall(me, peer, e, draw)
    ensures FreshCall(me, peer, e)
  {
    hide KindOf, Id, Settled;
    if e.SendSync? {
      var j := |me.h.pushed|;
      forall i: nat | IsRequest(me.h.pushed, i) && Id(me.h.pushed[i]) == Id(e.msg)
        ensures Settled(me, peer, i)
      {
        if !Settled(me, peer, i) {
          assert Drawn(me, draw, i);
          MessageIds.DistinctWithinPeriod(draw[i], draw[j]);
        }
      }
    }
  }

  /** A run in which every call of `side` is recent in that sense. */
  ghost predicate RecentRun(ts: seq<Turn>, capacity: nat, side: Side, draw: map<nat, nat>)
    decreases |ts|
  {
    && LinkRun(ts, capacity)
    && (ts != [] ==>
          && RecentRun(ts[..|ts| - 1], capacity, side, draw)
          && (ts[|ts| - 1].side == side ==>
                var l := LinkAfter(ts[..|ts| - 1], capacity);
                RecentCall(At(l, side), At(l, Other(side)), ts[|ts| - 1].event, draw)))
  }

  /**
   Ids from the generator are fresh, however often it wrapped: fewer than
   2^31 - 1 draws since any request not yet settled are enough.
   */
  lemma {:induction false} RecentRunIsFresh(ts: seq<Turn>, capacity: nat, side: Side, draw: map<nat, nat>)
    requires RecentRun(ts, capacity, side, draw)
    ensures FreshRun(ts, capacity, side)
    decreases |ts|
  {
    hide FreshCall, RecentCall, LinkAfter;
    if ts != [] {
      var n := |ts| - 1;
      RecentRunIsFresh(ts[..n], capacity, side, draw);
      var l := LinkAfter(ts[..n], capacity);
      if ts[n].side == side { RecentIsFresh(At(l, side), At(l, Other(side)), ts[n].event, draw); }
    }
  }
}
