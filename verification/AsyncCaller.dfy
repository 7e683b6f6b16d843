/**
 Sending from other threads, one atomic step at a time: a sender queues its
 message under one mutex and then writes a byte to a pipe under another; the
 channel's thread, woken by a byte, takes everything queued.
 */
module AsyncCaller {
  import opened Messages
  import opened Options

  /** The channel's own thread, or another one. */
  datatype Who = Owner | Other(thread: nat)

  datatype Item = Item(from: Who, msg: Msg)

  /** How far a thread is in queueAsyncMessage and call. */
  datatype Sender =
    | Ready
    | Queueing(msg: Msg)     // waits for the queue's mutex
    | Adding(msg: Msg)       // holds it
    | Added                  // has pushed, still holds it
    | Calling                // waits for the pipe's mutex
    | Writing                // holds it
    | Written                // has written its byte, still holds it

  /** How far the channel's thread is in callback and asyncCallerDispatch. */
  datatype Receiver =
    | Asleep                 // in its main loop, which watches the pipe
    | Busy                   // in a handler or a nested loop, which do not
    | Woken                  // has read a byte
    | Draining               // holds the queue's mutex

  datatype State = State(
    senders: map<nat, Sender>,
    receiver: Receiver,
    queueLock: Option<Who>,
    pipeLock: Option<nat>,
    pipe: nat,                        // bytes in the pipe
    queued: seq<Item>,                // m_otherThreadOutgoingMessages
    outgoing: seq<Item>,              // all that ever entered m_outgoingMessages
    asked: map<Who, seq<Msg>>)        // what each thread asked to send

  datatype Event =
    | Send(t: nat, msg: Msg) | LockQueue(t: nat) | Add(t: nat) | UnlockQueue(t: nat)
    | LockPipe(t: nat) | Write(t: nat) | UnlockPipe(t: nat)
    | SendOwn(msg: Msg) | Depart | Return | Read | LockOwn | Take | UnlockOwn

  function At(s: State, t: nat): Sender {
    if t in s.senders then s.senders[t] else Ready
  }

  function Asked(s: State, w: Who): seq<Msg> {
    if w in s.asked then s.asked[w] else []
  }

  function Start(): State {
    State(map[], Asleep, None, None, 0, [], [], map[])
  }

  predicate Can(s: State, e: Event, capacity: nat) {
    match e
    case Send(t, _) => At(s, t) == Ready
    case LockQueue(t) => At(s, t).Queueing? && s.queueLock.None?
    case Add(t) => At(s, t).Adding?
    case UnlockQueue(t) => At(s, t) == Added
    case LockPipe(t) => At(s, t) == Calling && s.pipeLock.None?
    case Write(t) => At(s, t) == Writing && s.pipe < capacity
    case UnlockPipe(t) => At(s, t) == Written
    case SendOwn(_) => s.receiver == Asleep || s.receiver == Busy
    case Depart => s.receiver == Asleep
    case Return => s.receiver == Busy
    case Read => s.receiver == Asleep && s.pipe > 0
    case LockOwn => s.receiver == Woken && s.queueLock.None?
    case Take => s.receiver == Draining && s.queued != []
    case UnlockOwn => s.receiver == Draining && s.queued == []
  }

  function Step(s: State, t: nat, a: Sender): State {
    s.(senders := s.senders[t := a])
  }

  function Ask(s: State, w: Who, msg: Msg): State {
    s.(asked := s.asked[w := Asked(s, w) + [msg]])
  }

  function Do(s: State, e: Event, capacity: nat): State
    requires Can(s, e, capacity)
  {
    match e
    case Send(t, msg) => Ask(Step(s, t, Queueing(msg)), Other(t), msg)
    case LockQueue(t) => Step(s, t, Adding(At(s, t).msg)).(queueLock := Some(Other(t)))
    case Add(t) => Step(s, t, Added).(queued := s.queued + [Item(Other(t), At(s, t).msg)])
    case UnlockQueue(t) => Step(s, t, Calling).(queueLock := None)
    case LockPipe(t) => Step(s, t, Writing).(pipeLock := Some(t))
    case Write(t) => Step(s, t, Written).(pipe := s.pipe + 1)
    case UnlockPipe(t) => Step(s, t, Ready).(pipeLock := None)
    case SendOwn(msg) => Ask(s, Owner, msg).(outgoing := s.outgoing + [Item(Owner, msg)])
    case Depart => s.(receiver := Busy)
    case Return => s.(receiver := Asleep)
    case Read => s.(pipe := s.pipe - 1, receiver := Woken)
    case LockOwn => s.(receiver := Draining, queueLock := Some(Owner))
    case Take => s.(queued := s.queued[1..], outgoing := s.outgoing + [s.queued[0]])
    case UnlockOwn => s.(receiver := Asleep, queueLock := None)
  }

  // ---- invariants -----------------------------------------------------------

  predicate HoldsQueue(a: Sender) {
    a.Adding? || a.Added?
  }

  predicate HoldsPipe(a: Sender) {
    a.Writing? || a.Written?
  }

  /** Each mutex is held by the one thread between its lock and its unlock. */
  ghost predicate LockInv(s: State) {
    && (forall t: nat :: HoldsQueue(At(s, t)) <==> s.queueLock == Some(Other(t)))
    && (s.receiver == Draining <==> s.queueLock == Some(Owner))
    && (forall t: nat :: HoldsPipe(At(s, t)) <==> s.pipeLock == Some(t))
  }

  /** The thread has queued a message and has yet to write its byte. */
  predicate WillWake(a: Sender) {
    a.Added? || a.Calling? || a.Writing?
  }

  /** No lost wake-up: what is queued has a byte in the pipe, a thread about to write one, or a receiver about to take it. */
  ghost predicate WakeInv(s: State) {
    s.queued != [] ==> s.pipe > 0 || s.receiver == Woken || s.receiver == Draining || exists t: nat :: WillWake(At(s, t))
  }

  /** The messages of one thread, in order. */
  function Of(items: seq<Item>, w: Who): seq<Msg> {
    if items == [] then []
    else
      var last := items[|items| - 1];
      Of(items[..|items| - 1], w) + if last.from == w then [last.msg] else []
  }

  /** The message a thread is about to queue. */
  function InHand(s: State, w: Who): seq<Msg> {
    match w
    case Owner => []
    case Other(t) => match At(s, t)
      case Queueing(msg) => [msg]
      case Adding(msg) => [msg]
      case _ => []
  }

  /** Per-thread order: what a thread asked to send has left in its order, waits in the queue, or is in its hand. */
  predicate InOrder(s: State, w: Who) {
    Of(s.outgoing, w) + Of(s.queued, w) + InHand(s, w) == Asked(s, w)
  }

  ghost predicate OrderInv(s: State) {
    (forall w: Who :: InOrder(s, w)) && Of(s.queued, Owner) == []
  }

  ghost predicate Inv(s: State) {
    LockInv(s) && WakeInv(s) && OrderInv(s)
  }

  lemma OfAppend(items: seq<Item>, x: Item, w: Who)
    ensures Of(items + [x], w) == Of(items, w) + if x.from == w then [x.msg] else []
  {
    assert (items + [x])[..|items|] == items;
  }

  lemma {:induction false} OfConcat(p: seq<Item>, q: seq<Item>, w: Who)
    ensures Of(p + q, w) == Of(p, w) + Of(q, w)
  {
    if q == [] {
      assert p + q == p;
    } else {
      var n := |q| - 1;
      OfConcat(p, q[..n], w);
      assert p + q == (p + q[..n]) + [q[n]] && q == q[..n] + [q[n]];
      OfAppend(p + q[..n], q[n], w);
      OfAppend(q[..n], q[n], w);
    }
  }

  lemma LockStep(s: State, e: Event, capacity: nat)
    requires LockInv(s) && Can(s, e, capacity)
    ensures LockInv(Do(s, e, capacity))
  {
  }

  lemma WakeStep(s: State, e: Event, capacity: nat)
    requires LockInv(s) && WakeInv(s) && Can(s, e, capacity)
    ensures WakeInv(Do(s, e, capacity))
  {
    var s' := Do(s, e, capacity);
    if s'.queued != [] && s'.pipe == 0 && (s'.receiver == Asleep || s'.receiver == Busy) {
      if e.Add? {
        assert WillWake(At(s', e.t));
      } else {
        var t: nat :| WillWake(At(s, t));
        assert WillWake(At(s', t));
      }
    }
  }

  lemma OfTake(items: seq<Item>, w: Who)
    requires items != []
    ensures Of(items, w) == (if items[0].from == w then [items[0].msg] else []) + Of(items[1..], w)
  {
    OfConcat([items[0]], items[1..], w);
    OfAppend([], items[0], w);
    assert items == [items[0]] + items[1..] && [] + [items[0]] == [items[0]];
  }

  lemma OrderQueued(s: State, e: Event, capacity: nat, w: Who)
    requires InOrder(s, w) && Can(s, e, capacity) && (e.Add? || e.Take?)
    ensures InOrder(Do(s, e, capacity), w)
  {
    hide Of;
    if e.Add? {
      OfAppend(s.queued, Item(Other(e.t), At(s, e.t).msg), w);
    } else {
      OfTake(s.queued, w);
      OfAppend(s.outgoing, s.queued[0], w);
    }
  }

  lemma OrderAskedByOther(s: State, t: nat, msg: Msg, capacity: nat, w: Who)
    requires InOrder(s, w) && Can(s, Send(t, msg), capacity)
    ensures InOrder(Do(s, Send(t, msg), capacity), w)
  {
    hide Of;
    var s' := Do(s, Send(t, msg), capacity);
    assert InHand(s', w) == if w == Other(t) then [msg] else InHand(s, w);
    assert Asked(s', w) == Asked(s, w) + if w == Other(t) then [msg] else [];
  }

  lemma OrderAskedByOwner(s: State, msg: Msg, capacity: nat, w: Who)
    requires InOrder(s, w) && Can(s, SendOwn(msg), capacity) && Of(s.queued, Owner) == []
    ensures InOrder(Do(s, SendOwn(msg), capacity), w)
  {
    hide Of;
    OfAppend(s.outgoing, Item(Owner, msg), w);
    var s' := Do(s, SendOwn(msg), capacity);
    assert InHand(s', w) == InHand(s, w);
    assert Asked(s', w) == Asked(s, w) + if w == Owner then [msg] else [];
  }

  lemma OrderQuiet(s: State, e: Event, capacity: nat, w: Who)
    requires InOrder(s, w) && Can(s, e, capacity) && !e.Send? && !e.SendOwn? && !e.Add? && !e.Take?
    ensures InOrder(Do(s, e, capacity), w)
  {
    hide Of, Asked;
    var t := Do(s, e, capacity);
    assert t.queued == s.queued && t.outgoing == s.outgoing && t.asked == s.asked;
    assert InHand(t, w) == InHand(s, w);
    SameAsked(s, t, w);
  }

  lemma SameAsked(s: State, t: State, w: Who)
    requires t.asked == s.asked
    ensures Asked(t, w) == Asked(s, w)
  {}

  /** How a step changes what is on its way from one thread. */
  lemma OrderFor(s: State, e: Event, capacity: nat, w: Who)
    requires InOrder(s, w) && Can(s, e, capacity) && Of(s.queued, Owner) == []
    ensures InOrder(Do(s, e, capacity), w)
  {
    hide Of, Can, Do, InOrder;
    if e.Add? || e.Take? {
      OrderQueued(s, e, capacity, w);
    } else if e.Send? {
      OrderAskedByOther(s, e.t, e.msg, capacity, w);
    } else if e.SendOwn? {
      OrderAskedByOwner(s, e.msg, capacity, w);
    } else {
      OrderQuiet(s, e, capacity, w);
    }
  }

  lemma OrderStep(s: State, e: Event, capacity: nat)
    requires OrderInv(s) && Can(s, e, capacity)
    ensures OrderInv(Do(s, e, capacity))
  {
    forall w: Who
      ensures InOrder(Do(s, e, capacity), w)
    {
      OrderFor(s, e, capacity, w);
    }
    hide Of, InOrder;
    match e {
      case Add(t) => OfAppend(s.queued, Item(Other(t), At(s, t).msg), Owner);
      case Take => OfTake(s.queued, Owner);
      case _ =>
    }
  }

  /** `es` is a run from the start, with a pipe of this capacity. */
  ghost predicate ValidRun(es: seq<Event>, capacity: nat)
    decreases |es|, 0
  {
    es == [] || (ValidRun(es[..|es| - 1], capacity) && Can(After(es[..|es| - 1], capacity), es[|es| - 1], capacity))
  }

  ghost function After(es: seq<Event>, capacity: nat): State
    requires ValidRun(es, capacity)
    decreases |es|, 1
  {
    if es == [] then Start() else Do(After(es[..|es| - 1], capacity), es[|es| - 1], capacity)
  }

  /** Every interleaving keeps mutual exclusion, wake-ups and per-thread order. */
  lemma {:induction false} RunInv(es: seq<Event>, capacity: nat)
    requires ValidRun(es, capacity)
    ensures Inv(After(es, capacity))
  {
    if es == [] {
    } else {
      var n := |es| - 1;
      RunInv(es[..n], capacity);
      hide Can, Do, LockInv, WakeInv, OrderInv;
      LockStep(After(es[..n], capacity), es[n], capacity);
      WakeStep(After(es[..n], capacity), es[n], capacity);
      OrderStep(After(es[..n], capacity), es[n], capacity);
    }
  }

  /** What each thread asked to send enters the channel's queue in that thread's order, without loss or repetition. */
  lemma LeavesInOrder(s: State, w: Who)
    requires Inv(s)
    ensures Of(s.outgoing, w) <= Asked(s, w)
    ensures w == Owner ==> Of(s.outgoing, w) == Asked(s, w)
  {
    assert InOrder(s, w);
    hide Of;
  }

  /** Once the pipe is empty and every thread is done, nothing waits. */
  lemma QuietMeansSent(s: State, w: Who)
    requires Inv(s) && s.pipe == 0 && (s.receiver == Asleep || s.receiver == Busy) && forall t: nat :: At(s, t) == Ready
    ensures s.queued == [] && Of(s.outgoing, w) == Asked(s, w)
  {
    assert InOrder(s, w);
    assert s.queued == [];
  }

  /** The step a thread takes next on its own. */
  function NextOf(s: State, t: nat): Event {
    match At(s, t)
    case Ready => UnlockPipe(t)
    case Queueing(_) => LockQueue(t)
    case Adding(_) => Add(t)
    case Added => UnlockQueue(t)
    case Calling => LockPipe(t)
    case Writing => Write(t)
    case Written => UnlockPipe(t)
  }

  function NextOfReceiver(s: State): Event {
    match s.receiver
    case Asleep => Read
    case Busy => Return
    case Woken => LockOwn
    case Draining => if s.queued != [] then Take else UnlockOwn
  }

  /**
   A message queued is never stuck: without any new request some thread can
   move, whatever the pipe's capacity.  While the channel's thread is busy and
   the pipe already holds a byte, all that is asked of it is to return.
   */
  lemma QueuedMoves(s: State, capacity: nat) returns (e: Event)
    requires Inv(s) && capacity > 0 && (s.queued != [] || s.receiver == Woken || s.receiver == Draining)
    ensures Can(s, e, capacity) && !e.Send? && !e.SendOwn? && !e.Depart?
    ensures e.Return? ==> s.receiver == Busy && s.pipe > 0
  {
    if s.receiver == Draining || (s.receiver == Woken && s.queueLock.None?)
       || ((s.receiver == Asleep || s.receiver == Busy) && s.pipe > 0) {
      e := NextOfReceiver(s);
    } else if s.receiver == Woken {
      var t := s.queueLock.value.thread;
      assert HoldsQueue(At(s, t));
      e := NextOf(s, t);
    } else {
      var t: nat :| WillWake(At(s, t));
      if At(s, t).Calling? && s.pipeLock.Some? {
        assert HoldsPipe(At(s, s.pipeLock.value));
        e := NextOf(s, s.pipeLock.value);
      } else {
        e := NextOf(s, t);
      }
    }
  }

  // ---- everything leaves ------------------------------------------------------------

  /** A step that asks for nothing new; handlers and nested loops of the channel's thread are taken to return. */
  predicate Unasked(e: Event) {
    !e.Send? && !e.SendOwn? && !e.Depart?
  }

  /** How much a thread has left to do; what it will queue and write counts with it. */
  function SenderWork(a: Sender): nat {
    match a
    case Ready => 0
    case Queueing(_) => 11
    case Adding(_) => 10
    case Added => 8
    case Calling => 7
    case Writing => 6
    case Written => 1
  }

  function ReceiverWork(r: Receiver): nat {
    match r
    case Asleep => 0
    case Busy => 1
    case Woken => 3
    case Draining => 2
  }

  /** The work of the threads below `n`. */
  function SendersWork(s: State, n: nat): nat {
    if n == 0 then 0 else SenderWork(At(s, n - 1)) + SendersWork(s, n - 1)
  }

  function Work(s: State, n: nat): nat {
    SendersWork(s, n) + ReceiverWork(s.receiver) + 4 * s.pipe + |s.queued|
  }

  /** All threads that ever sent are below `n`. */
  ghost predicate Within(s: State, n: nat) {
    forall t: nat :: t in s.senders ==> t < n
  }

  lemma {:induction false} SameSenders(s: State, s': State, n: nat)
    requires forall t: nat :: t < n ==> At(s', t) == At(s, t)
    ensures SendersWork(s', n) == SendersWork(s, n)
  {
    if n > 0 {
      SameSenders(s, s', n - 1);
    }
  }

  lemma {:induction false} OneSender(s: State, s': State, n: nat, t: nat)
    requires t < n && forall u: nat :: u != t ==> At(s', u) == At(s, u)
    ensures SendersWork(s', n) - SenderWork(At(s', t)) == SendersWork(s, n) - SenderWork(At(s, t))
  {
    if t == n - 1 {
      SameSenders(s, s', n - 1);
    } else {
      OneSender(s, s', n - 1, t);
    }
  }

  /** Every step without a new request leaves less to do, so that every schedule of them ends. */
  lemma StepLess(s: State, e: Event, capacity: nat, n: nat)
    requires Can(s, e, capacity) && Unasked(e) && Within(s, n)
    ensures Within(Do(s, e, capacity), n) && Work(Do(s, e, capacity), n) < Work(s, n)
  {
    var s' := Do(s, e, capacity);
    if e.Return? || e.Read? || e.LockOwn? || e.Take? || e.UnlockOwn? {
      SameSenders(s, s', n);
    } else {
      OneSender(s, s', n, e.t);
    }
  }

  /** Nothing is on its way. */
  ghost predicate Quiet(s: State) {
    s.pipe == 0 && s.receiver == Asleep && s.queued == [] && forall t: nat :: At(s, t) == Ready
  }

  lemma SenderMoves(s: State, capacity: nat, t: nat) returns (e: Event)
    requires Inv(s) && capacity > 0 && At(s, t) != Ready && s.receiver == Asleep && s.pipe == 0
    ensures Can(s, e, capacity) && Unasked(e)
  {
    if At(s, t).Queueing? && s.queueLock.Some? {
      var u := s.queueLock.value.thread;
      assert HoldsQueue(At(s, u));
      e := NextOf(s, u);
    } else if At(s, t).Calling? && s.pipeLock.Some? {
      assert HoldsPipe(At(s, s.pipeLock.value));
      e := NextOf(s, s.pipeLock.value);
    } else {
      e := NextOf(s, t);
    }
  }

  /** While anything is on its way some thread can move. */
  lemma UnquietMoves(s: State, capacity: nat) returns (e: Event)
    requires Inv(s) && capacity > 0 && !Quiet(s)
    ensures Can(s, e, capacity) && Unasked(e)
  {
    if s.receiver == Busy || (s.receiver == Asleep && s.pipe > 0) {
      e := NextOfReceiver(s);
    } else if s.receiver == Asleep {
      if s.queued != [] {
        e := QueuedMoves(s, capacity);
      } else {
        var t: nat :| At(s, t) != Ready;
        e := SenderMoves(s, capacity, t);
      }
    } else {
      e := QueuedMoves(s, capacity);
    }
  }

  /** `es'` continues the run `es` without new requests. */
  ghost predicate Continues(es: seq<Event>, es': seq<Event>, capacity: nat) {
    ValidRun(es', capacity) && es <= es' && forall i :: |es| <= i < |es'| ==> Unasked(es'[i])
  }

  lemma {:induction false} RunWithin(es: seq<Event>, capacity: nat) returns (n: nat)
    requires ValidRun(es, capacity)
    ensures Within(After(es, capacity), n)
  {
    if es == [] {
      n := 0;
    } else {
      var k := |es| - 1;
      n := RunWithin(es[..k], capacity);
      if es[k].Send? && es[k].t >= n { n := es[k].t + 1; }
      SendersStep(After(es[..k], capacity), es[k], capacity);
    }
  }

  lemma SendersStep(s: State, e: Event, capacity: nat)
    requires Can(s, e, capacity)
    ensures forall t: nat :: t in Do(s, e, capacity).senders ==> t in s.senders || (e.Send? && e.t == t)
  {}

  /** Every run can go on, without new requests, to where all that was asked for has left, in each thread's order. */
  lemma EverythingLeaves(es: seq<Event>, capacity: nat) returns (es': seq<Event>)
    requires ValidRun(es, capacity) && capacity > 0
    ensures Continues(es, es', capacity) && Quiet(After(es', capacity))
    ensures forall w: Who :: Of(After(es', capacity).outgoing, w) == Asked(After(es', capacity), w)
  {
    var n := RunWithin(es, capacity);
    es' := LeavesFrom(es, es, capacity, n);
    RunInv(es', capacity);
    hide ValidRun, After, Of;
    forall w: Who
      ensures Of(After(es', capacity).outgoing, w) == Asked(After(es', capacity), w)
    {
      QuietMeansSent(After(es', capacity), w);
    }
  }

  lemma {:induction false} LeavesFrom(es: seq<Event>, fs: seq<Event>, capacity: nat, n: nat) returns (es': seq<Event>)
    requires Continues(es, fs, capacity) && capacity > 0 && Within(After(fs, capacity), n)
    ensures Continues(es, es', capacity) && Quiet(After(es', capacity))
    decreases Work(After(fs, capacity), n)
  {
    RunInv(fs, capacity);
    hide Can, Do, Inv, Quiet, Work, Within;
    if Quiet(After(fs, capacity)) {
      es' := fs;
    } else {
      var e := UnquietMoves(After(fs, capacity), capacity);
      StepLess(After(fs, capacity), e, capacity, n);
      var next := fs + [e];
      assert next[..|next| - 1] == fs;
      es' := LeavesFrom(es, next, capacity, n);
    }
  }
}
