/**
 What a channel does with what happens outside.  A script is a list of inputs:
 what send and recv answer, what wakes the event loops, what the application
 does.  Each step of a channel either takes the next input and reacts to it, or
 needs none; the log of a channel is the list of its steps, and the inputs alone
 decide what it is.
 */
module Scripts {
  import opened Bytes
  import opened Endpoint
  import opened Framing
  import opened Messages
  import opened Options

  datatype Input =
    | Count(n: nat) | Interrupted | WouldBlock | Failed
    | HangUp | Writable | Readable | TimerFired | IdleTurn
    | Async(msg: Msg) | Sync(msg: Msg, timed: bool) | Reply(msg: Msg) | OtherThread(msg: Msg) | CallerByte | Suspended(val: bool) | Done

  /** What an input leads to: nothing, a message in the queue of the other threads, a word on the peer, or a step of the machine. */
  datatype Reaction = Nothing | Queue(msg: Msg) | Suspend(val: bool) | Then(event: Event)

  datatype Entry =
    | Took(input: Input, reaction: Reaction)   // the next input and what it led to
    | Silently(event: Event)                   // a step that needs no input
    | Exhausted(event: Event)                  // a step that needs one when there is none
    | Suspends(val: bool)                      // setRemoteIsSuspended beside the script

  /** All that decides the next step: the machine, the messages of other threads, and whether the peer is suspended. */
  datatype Env = Env(s: State, others: seq<Msg>, suspended: bool)

  // ---- steps that need no input -----------------------------------------------------

  function Silent(s: State): Option<Event> {
    if s.stack.Empty? then None
    else match s.stack.top
      case Flushing =>
        if !MaySend(s) then Some(FlushEnd) else if s.outDone >= |Frame(s.outgoing[0])| then Some(FrameDone) else None
      case Reading =>
        if IsWhole(s.inBuf) then Some(Complete) else if !s.sock.open then Some(RecvErr) else None
      case Dispatching(_) =>
        Some(if s.queue == [] then DispatchEnd else if Has(s.queue[0], DisconnectBit) then ReportLoss else Deliver)
      case Calling(_) => Some(if s.sock.open then EnterLoop else CallFail)
      case Waiting => if s.call.quit then Some(LeaveLoop) else None
      case Returning(_) => Some(CallReturn)
      case _ => None
  }

  // ---- reactions ----------------------------------------------------------------------

  /** What send or recv answers when at most `limit` bytes can move; anything unexpected counts as EAGAIN. */
  function SocketAnswer(next: Option<Input>, limit: nat): (r: Input)
    ensures r.Count? || r.Interrupted? || r.WouldBlock? || r.Failed?
    ensures r.Count? ==> 0 < r.n <= limit
  {
    match next
    case Some(Count(n)) => if n == 0 || limit == 0 then WouldBlock else Count(if n < limit then n else limit)
    case Some(Interrupted) => Interrupted
    case Some(Failed) => Failed
    case _ => WouldBlock
  }

  /** Bytes moved, or an interruption: the loop goes on. */
  predicate Proceeds(i: Input) {
    i.Interrupted? || (i.Count? && i.n > 0)
  }

  /**
   From `before` to `after` a loop took inputs that let it go on; if it ended
   `early`, it took one more that is no interruption, unless none was left.
   */
  predicate Used(before: seq<Input>, after: seq<Input>, early: bool) {
    && |after| <= |before| && after == before[|before| - |after|..]
    && var n := |before| - |after|;
       if GoOn(before, n) && (early ==> after == []) then true
       else early && n > 0 && GoOn(before, n - 1) && !before[n - 1].Interrupted?
  }

  predicate GoOn(script: seq<Input>, n: nat)
    requires n <= |script|
  {
    forall k :: 0 <= k < n ==> Proceeds(script[k])
  }

  /** The last input taken was a failure. */
  predicate FailedLast(before: seq<Input>, after: seq<Input>) {
    |after| < |before| && before[|before| - |after| - 1].Failed?
  }

  lemma UsedNone(before: seq<Input>)
    ensures Used(before, before, false)
  {}

  lemma UsedMore(before: seq<Input>, s: seq<Input>)
    requires Used(before, s, false) && s != []
    ensures Proceeds(s[0]) ==> Used(before, s[1..], false)
    ensures !s[0].Interrupted? ==> Used(before, s[1..], true)
    ensures FailedLast(before, s[1..]) == s[0].Failed?
  {
    assert before[|before| - |s|] == s[0];
  }

  lemma UsedUp(before: seq<Input>, s: seq<Input>)
    requires Used(before, s, false)
    ensures !FailedLast(before, s) && (s == [] ==> Used(before, s, true))
  {
    if |s| < |before| { assert Proceeds(before[|before| - |s| - 1]); }
  }

  /** Length and payload are sent apart: the bytes left of the part in progress. */
  function SegmentLeft(s: State): nat
    requires s.outgoing != []
  {
    var f := |Frame(s.outgoing[0])|;
    if s.outDone < LENGTH_SIZE then LENGTH_SIZE - s.outDone else if s.outDone <= f then f - s.outDone else 0
  }

  /** The next input of a script, if any. */
  function First(script: seq<Input>): Option<Input> {
    if script == [] then None else Some(script[0])
  }

  lemma SegmentShrinks(s: State, t: State, n: nat)
    requires s.outgoing != [] && t.outgoing == s.outgoing && s.outDone <= |Frame(s.outgoing[0])| && t.outDone == s.outDone + n
    requires n < SegmentLeft(s)
    ensures SegmentLeft(t) == SegmentLeft(s) - n && t.outDone < |Frame(t.outgoing[0])|
  {}

  function SendReaction(s: State, next: Option<Input>): Reaction
    requires s.outgoing != []
  {
    match SocketAnswer(next, SegmentLeft(s))
    case Count(n) => Then(Sent(n))
    case Interrupted => Nothing
    case Failed => Then(SendErr)
    case _ => Then(SendAgain)
  }

  /** How many bytes recv can give: what the segment misses and the peer has sent. */
  function ReadLimit(s: State, inbound: seq<byte>): (n: nat)
    ensures |s.h.got| <= |inbound| ==> |s.h.got| + n <= |inbound|
  {
    var left := |inbound| - |s.h.got|;
    var missing := Missing(s.inBuf);
    if left <= 0 || missing <= 0 then 0 else if missing <= left then missing else left
  }

  function ReadReaction(s: State, inbound: seq<byte>, next: Option<Input>): Reaction {
    var at := |s.h.got|;
    match SocketAnswer(next, ReadLimit(s, inbound))
    case Count(n) => if at + n <= |inbound| then Then(Got(inbound[at..at + n])) else Nothing
    case Interrupted => Nothing
    case Failed => Then(RecvErr)
    case _ => Then(RecvAgain)
  }

  lemma ReadsAs(s: State, inbound: seq<byte>, next: Option<Input>, r: Input)
    requires r == SocketAnswer(next, ReadLimit(s, inbound)) && |s.h.got| <= |inbound|
    ensures var reaction := ReadReaction(s, inbound, next);
      match r
      case Count(n) => |s.h.got| + n <= |inbound| && reaction == Then(Got(inbound[|s.h.got|..|s.h.got| + n]))
      case WouldBlock => reaction == Then(RecvAgain)
      case Failed => reaction == Then(RecvErr)
      case _ => next == Some(r) && r.Interrupted? && reaction == Nothing
  {
    hide ReadLimit;
  }

  function QueueReaction(msg: Msg): Reaction {
    if WellFormed(msg) && KindOf(msg) == Oneway then Queue(msg) else Nothing
  }

  /** The application's code acts; what it may not do is left undone. */
  function UserReaction(env: Env, i: Input): Reaction {
    match i
    case Async(m) => if WellFormed(m) && KindOf(m) == Oneway then Then(SendAsync(m)) else Nothing
    case Reply(m) => if WellFormed(m) && !Has(m, SyncBit) then Then(SendReply(m)) else Nothing
    case Sync(m, timed) =>
      if WellFormed(m) && Id(m) != 0 && !env.s.call.inNested && !env.suspended then Then(SendSync(m, timed)) else Nothing
    case OtherThread(m) => QueueReaction(m)
    case Suspended(val) => Suspend(val)
    case _ => Nothing
  }

  /** A handler ends with Done, or with the script. */
  function HandlerReaction(env: Env, next: Option<Input>, end: Event): Reaction {
    match next
    case None => Then(end)
    case Some(Done) => Then(end)
    case Some(i) => UserReaction(env, i)
  }

  // ---- handlers that only reply ----------------------------------------------------------

  /** Up to its end the handler does nothing but reply. */
  predicate OnlyReplies(script: seq<Input>) {
    script == [] || script[0].Done? || (script[0].Reply? && OnlyReplies(script[1..]))
  }

  /** The reply such a handler leaves: the last one that may be given. */
  function SlotAfter(script: seq<Input>, slot: Option<Msg>): Option<Msg> {
    if script == [] || !script[0].Reply? then slot
    else SlotAfter(script[1..], if WellFormed(script[0].msg) && !Has(script[0].msg, SyncBit) then Some(script[0].msg) else slot)
  }

  /** A handler that replies once and ends gives that reply as the answer, and one that ends at once an error. */
  lemma AnswerGiven(r: Msg, rest: seq<Input>, req: Msg)
    requires WellFormed(r) && !Has(r, SyncBit)
    ensures var script := [Reply(r), Done] + rest;
      OnlyReplies(script) && Finish(SlotAfter(script, None), req) == WithId(Mark(r, ReplyBit), Id(req))
    ensures var script := [Done] + rest;
      OnlyReplies(script) && var m := Finish(SlotAfter(script, None), req); IsReplyError(m) && Id(m) == Id(req)
  {
    hide WellFormed, Mark, NewMessage, WithId;
    assert ([Reply(r), Done] + rest)[1..] == [Done] + rest;
    IdRange(req);
    var m := Mark(NewMessage(ROUTING_NONE, 0, 0, 0), ReplyErrorBit);
    assert Has(WithId(m, Id(req)), ReplyErrorBit);
  }

  /** The nested loop; when nothing else happens any more the connection goes. */
  function NestedReaction(s: State, next: Option<Input>): Reaction {
    match next
    case None => Then(WakeHup)
    case Some(HangUp) => Then(WakeHup)
    case Some(Readable) => Then(WakeIn)
    case Some(Writable) => if s.sock.nestedOut then Then(WakeOut) else Nothing
    case Some(TimerFired) => if s.call.timer then Then(WakeTimeout) else Nothing
    case Some(OtherThread(m)) => QueueReaction(m)
    case _ => Nothing
  }

  function MainReaction(env: Env, next: Option<Input>): Reaction {
    match next
    case None => Nothing
    case Some(HangUp) => if env.s.sock.open then Then(WakeHup) else Nothing
    case Some(Readable) => if env.s.sock.open then Then(WakeIn) else Nothing
    case Some(Writable) => if env.s.sock.open && env.s.sock.mainOut then Then(WakeOut) else Nothing
    case Some(IdleTurn) => if env.s.dispatcher == Armed then Then(WakeIdle) else Nothing
    case Some(CallerByte) => Then(Drain(env.others))
    case Some(i) => UserReaction(env, i)
  }

  function React(env: Env, inbound: seq<byte>, next: Option<Input>): Reaction {
    var s := env.s;
    if s.stack.Empty? then MainReaction(env, next)
    else match s.stack.top
      case Flushing => if s.outgoing != [] then SendReaction(s, next) else Nothing
      case Reading => ReadReaction(s, inbound, next)
      case Serving(_) => HandlerReaction(env, next, ServeEnd)
      case Delivering => HandlerReaction(env, next, DeliverEnd)
      case Waiting => NestedReaction(s, next)
      case _ => Nothing
  }

  // ---- the same by what the thread is in the middle of --------------------------------

  lemma SilentSending(s: State)
    requires Top(s, Flushing)
    ensures !MaySend(s) ==> Silent(s) == Some(FlushEnd)
    ensures MaySend(s) && s.outDone == |Frame(s.outgoing[0])| ==> Silent(s) == Some(FrameDone)
    ensures MaySend(s) && s.outDone < |Frame(s.outgoing[0])| ==> Silent(s) == None
  {
    hide Frame;
  }

  lemma SilentReading(s: State)
    requires Top(s, Reading)
    ensures IsWhole(s.inBuf) ==> Silent(s) == Some(Complete)
    ensures !IsWhole(s.inBuf) ==> Silent(s) == if s.sock.open then None else Some(RecvErr)
  {
    hide IsWhole;
  }

  lemma SilentDispatching(s: State)
    requires s.stack.Push? && s.stack.top.Dispatching?
    ensures Silent(s) == Some(if s.queue == [] then DispatchEnd else if Has(s.queue[0], DisconnectBit) then ReportLoss else Deliver)
  {
    hide Has;
  }

  lemma SilentCalling(s: State)
    requires s.stack.Push?
    ensures s.stack.top.Calling? ==> Silent(s) == Some(if s.sock.open then EnterLoop else CallFail)
    ensures s.stack.top.Waiting? ==> Silent(s) == if s.call.quit then Some(LeaveLoop) else None
    ensures s.stack.top.Returning? ==> Silent(s) == Some(CallReturn)
  {}

  lemma SilentUser(s: State)
    requires UserTurn(s.stack)
    ensures Silent(s) == None
  {}

  lemma SendReacts(env: Env, inbound: seq<byte>, next: Option<Input>)
    requires MaySend(env.s)
    ensures React(env, inbound, next) == SendReaction(env.s, next)
  {
    hide SendReaction;
  }

  lemma ReadReacts(env: Env, inbound: seq<byte>, next: Option<Input>)
    requires Top(env.s, Reading)
    ensures React(env, inbound, next) == ReadReaction(env.s, inbound, next)
  {
    hide ReadReaction;
  }

  lemma HandlerReacts(env: Env, inbound: seq<byte>, next: Option<Input>)
    requires UserTurn(env.s.stack) && env.s.stack.Push?
    ensures React(env, inbound, next) == HandlerReaction(env, next, if env.s.stack.top.Serving? then ServeEnd else DeliverEnd)
  {
    hide HandlerReaction;
  }

  lemma UserReacts(env: Env, inbound: seq<byte>, i: Input)
    requires UserTurn(env.s.stack) && (i.Async? || i.Sync? || i.Reply? || i.OtherThread? || i.Suspended?)
    ensures React(env, inbound, Some(i)) == UserReaction(env, i)
  {
    hide UserReaction;
  }

  lemma NestedReacts(env: Env, inbound: seq<byte>, next: Option<Input>)
    requires Top(env.s, Waiting)
    ensures React(env, inbound, next) == NestedReaction(env.s, next)
  {
    hide NestedReaction;
  }

  lemma MainReacts(env: Env, inbound: seq<byte>, next: Option<Input>)
    requires env.s.stack.Empty?
    ensures React(env, inbound, next) == MainReaction(env, next)
  {
    hide MainReaction;
  }

  // ---- logs -----------------------------------------------------------------------------

  /** The entry is the one step that its input, or the lack of one, leads to. */
  predicate Fits(env: Env, inbound: seq<byte>, entry: Entry) {
    match entry
    case Took(i, r) => Silent(env.s).None? && r == React(env, inbound, Some(i))
    case Silently(e) => Silent(env.s) == Some(e)
    case Exhausted(e) => Silent(env.s).None? && React(env, inbound, None) == Then(e)
    case Suspends(_) => true
  }

  /** The entry for a step in this state, `held` being the input taken for it, if any. */
  function EntryFor(s: State, held: seq<Input>, e: Event): Entry {
    if Silent(s).Some? then Silently(e) else if held != [] then Took(held[0], Then(e)) else Exhausted(e)
  }

  function EventOf(entry: Entry): Option<Event> {
    match entry
    case Took(_, Then(e)) => Some(e)
    case Silently(e) => Some(e)
    case Exhausted(e) => Some(e)
    case _ => None
  }

  /** What an entry makes of the environment. */
  function NextEnv(env: Env, entry: Entry): Env
    requires EventOf(entry).Some? ==> Can(env.s, EventOf(entry).value)
  {
    var e := EventOf(entry);
    if e.Some? then Env(Do(env.s, e.value), if e.value.Drain? then [] else env.others, env.suspended)
    else if entry.Took? && entry.reaction.Queue? then env.(others := env.others + [entry.reaction.msg])
    else if entry.Suspends? then env.(suspended := entry.val)
    else if entry.Took? && entry.reaction.Suspend? then env.(suspended := entry.reaction.val)
    else env
  }

  /** `log` is what a channel can do from the start. */
  ghost predicate Told(log: seq<Entry>, inbound: seq<byte>)
    decreases |log|, 0
  {
    log == [] ||
    (Told(log[..|log| - 1], inbound)
     && var env, entry := EnvAfter(log[..|log| - 1], inbound), log[|log| - 1];
        Fits(env, inbound, entry) && (EventOf(entry).Some? ==> Can(env.s, EventOf(entry).value)))
  }

  ghost function EnvAfter(log: seq<Entry>, inbound: seq<byte>): Env
    requires Told(log, inbound)
    decreases |log|, 1
  {
    if log == [] then Env(Start(), [], false)
    else NextEnv(EnvAfter(log[..|log| - 1], inbound), log[|log| - 1])
  }

  function Inputs(log: seq<Entry>): seq<Input> {
    if log == [] then []
    else Inputs(log[..|log| - 1]) + if log[|log| - 1].Took? then [log[|log| - 1].input] else []
  }

  lemma InputsAppend(log: seq<Entry>, entry: Entry)
    ensures Inputs(log + [entry]) == Inputs(log) + if entry.Took? then [entry.input] else []
  {
    assert (log + [entry])[..|log|] == log;
  }

  lemma ToldStep(log: seq<Entry>, inbound: seq<byte>, entry: Entry)
    requires Told(log, inbound) && Fits(EnvAfter(log, inbound), inbound, entry)
    requires EventOf(entry).Some? ==> Can(EnvAfter(log, inbound).s, EventOf(entry).value)
    ensures Told(log + [entry], inbound) && EnvAfter(log + [entry], inbound) == NextEnv(EnvAfter(log, inbound), entry)
  {
    hide Fits, Can, NextEnv;
    assert (log + [entry])[..|log|] == log;
  }

  // ---- the inputs decide --------------------------------------------------------------------

  /** In the same situation, and given the same input, there is one step. */
  lemma OneStep(env: Env, inbound: seq<byte>, a: Entry, b: Entry)
    requires Fits(env, inbound, a) && Fits(env, inbound, b) && !a.Suspends? && !b.Suspends?
    requires a.Took? && b.Took? ==> a.input == b.input
    requires !(a.Took? && b.Exhausted?) && !(a.Exhausted? && b.Took?)
    ensures a == b
  {
    hide Silent, React;
  }

  /** From entry `n` on only the script decides, and there is no input only when all of `story` was taken. */
  predicate EndsLast(log: seq<Entry>, n: nat, story: seq<Input>) {
    forall k :: n <= k < |log| ==> !log[k].Suspends? && (log[k].Exhausted? ==> Inputs(log[..k]) == story)
  }

  lemma EndsLastJoin(a: seq<Entry>, b: seq<Entry>, n: nat, story: seq<Input>)
    requires a <= b && EndsLast(a, n, story) && EndsLast(b, |a|, story)
    ensures EndsLast(b, n, story)
  {
    forall k | n <= k < |b|
      ensures !b[k].Suspends? && (b[k].Exhausted? ==> Inputs(b[..k]) == story)
    {
      if k < |a| { assert b[..k] == a[..k] && a[k] == b[k]; }
    }
  }

  lemma {:induction false} InputsPrefix(log: seq<Entry>, n: nat)
    requires n <= |log|
    ensures Inputs(log[..n]) <= Inputs(log)
    ensures (exists k :: n <= k < |log| && log[k].Took?) <==> |Inputs(log[..n])| < |Inputs(log)|
    ensures n < |log| && log[n].Took? ==> Inputs(log)[|Inputs(log[..n])|] == log[n].input
    decreases |log| - n
  {
    if n == |log| {
      assert log[..n] == log;
    } else {
      InputsPrefix(log, n + 1);
      assert log[..n + 1] == log[..n] + [log[n]];
      InputsAppend(log[..n], log[n]);
    }
  }

  /** Two runs on the same inputs agree step by step. */
  lemma {:induction false} AgreeUpTo(a: seq<Entry>, b: seq<Entry>, inbound: seq<byte>, n: nat)
    requires Told(a, inbound) && Told(b, inbound) && Inputs(a) == Inputs(b)
    requires EndsLast(a, 0, Inputs(a)) && EndsLast(b, 0, Inputs(b)) && n <= |a| && n <= |b|
    ensures a[..n] == b[..n]
  {
    hide Fits, Can, NextEnv;
    if n > 0 {
      var k := n - 1;
      AgreeUpTo(a, b, inbound, k);
      ToldPrefix(a, inbound, n);
      ToldPrefix(b, inbound, n);
      InputsPrefix(a, k);
      InputsPrefix(b, k);
      assert a[..n][..k] == a[..k] && b[..n][..k] == b[..k];
      OneStep(EnvAfter(a[..k], inbound), inbound, a[k], b[k]);
    }
  }

  /** In the main loop nothing happens without an input. */
  lemma MainTakes(env: Env, inbound: seq<byte>, entry: Entry)
    requires Fits(env, inbound, entry) && env.s.stack.Empty? && !entry.Suspends?
    ensures entry.Took?
  {}

  lemma NothingMore(a: seq<Entry>, b: seq<Entry>, inbound: seq<byte>)
    requires Told(a, inbound) && Told(b, inbound) && a <= b && Inputs(a) == Inputs(b) && EnvAfter(a, inbound).s.stack.Empty?
    requires EndsLast(b, 0, Inputs(b))
    ensures a == b
  {
    hide Can, NextEnv, Fits, EnvAfter;
    var n := |a|;
    if n < |b| {
      ToldPrefix(b, inbound, n + 1);
      var c := b[..n + 1];
      assert c[..n] == a && c[n] == b[n] && b[..n] == a;
      MainTakes(EnvAfter(a, inbound), inbound, b[n]);
      InputsPrefix(b, n);
    }
  }

  /**
   The script decides the whole life of a channel: two lives on the same inputs
   and the same stream, each at rest in its main loop, are the same step by step.
   */
  lemma ScriptDecides(a: seq<Entry>, b: seq<Entry>, inbound: seq<byte>)
    requires Told(a, inbound) && Told(b, inbound) && Inputs(a) == Inputs(b)
    requires EndsLast(a, 0, Inputs(a)) && EndsLast(b, 0, Inputs(b))
    requires EnvAfter(a, inbound).s.stack.Empty? && EnvAfter(b, inbound).s.stack.Empty?
    ensures a == b
  {
    hide Told, EnvAfter, Inputs, EndsLast;
    var n := if |a| <= |b| then |a| else |b|;
    AgreeUpTo(a, b, inbound, n);
    assert a[..|a|] == a && b[..|b|] == b;
    if |a| <= |b| {
      NothingMore(a, b, inbound);
    } else {
      NothingMore(b, a, inbound);
    }
  }

  lemma {:induction false} ToldPrefix(log: seq<Entry>, inbound: seq<byte>, n: nat)
    requires Told(log, inbound) && n <= |log|
    ensures Told(log[..n], inbound)
    decreases |log|
  {
    hide Fits, Can, NextEnv;
    if n == |log| {
      assert log[..n] == log;
    } else {
      ToldPrefix(log[..|log| - 1], inbound, n);
      assert log[..|log| - 1][..n] == log[..n];
    }
  }

  // ---- losses have a reason --------------------------------------------------------------------

  /** The outside took the connection: send or recv failed, the peer hung up, or the script ended in a nested loop. */
  predicate Losing(entry: Entry) {
    || (entry.Took? && (entry.input.Failed? || entry.input.HangUp?))
    || entry == Exhausted(WakeHup)
  }

  ghost predicate LossIn(log: seq<Entry>, log': seq<Entry>) {
    exists k :: |log| <= k < |log'| && Losing(log'[k])
  }

  lemma Closes(s: State, e: Event)
    requires Can(s, e) && s.sock.open && !Do(s, e).sock.open
    ensures e.WakeHup? || e.SendErr? || e.RecvErr?
  {
    hide KindOf, WellFormed, Partial, IsWhole, Missing, Frame, Finish, Mark, Id, IsReplyError, Marker, Marked, Has;
  }

  lemma ClosedByOutside(env: Env, inbound: seq<byte>, entry: Entry)
    requires Fits(env, inbound, entry) && env.s.sock.open
    requires EventOf(entry) == Some(WakeHup) || EventOf(entry) == Some(SendErr) || EventOf(entry) == Some(RecvErr)
    ensures Losing(entry)
  {
    hide KindOf, WellFormed, Partial, IsWhole, Missing, Frame, Id, Has;
  }

  /** An open socket stays open unless the outside takes it. */
  lemma {:induction false} LostOnlyByOutside(log: seq<Entry>, log': seq<Entry>, inbound: seq<byte>)
    requires Told(log', inbound) && log <= log' && Told(log, inbound) && EnvAfter(log, inbound).s.sock.open
    ensures EnvAfter(log', inbound).s.sock.open || LossIn(log, log')
    decreases |log'|
  {
    hide Fits, Can, Do, Losing;
    if log != log' {
      var n := |log'| - 1;
      var entry := log'[n];
      LostOnlyByOutside(log, log'[..n], inbound);
      var env := EnvAfter(log'[..n], inbound);
      if env.s.sock.open {
        if !EnvAfter(log', inbound).s.sock.open {
          Closes(env.s, EventOf(entry).value);
          ClosedByOutside(env, inbound, entry);
        }
      } else {
        var k :| |log| <= k < n && Losing(log'[..n][k]);
        assert Losing(log'[k]);
      }
    }
  }
}
