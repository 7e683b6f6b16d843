/**
 One end of a channel as a state machine.  The state holds the channel's fields
 and a stack naming the calls its thread is inside of, so that handlers which
 call back into the channel, the nested loop of a synchronous call and the
 messages it serves meanwhile are all ordinary states.  An event is one system
 call, one wake-up of an event loop or one action of the application.
 */
module Endpoint {
  import opened Bytes
  import opened Framing
  import opened Messages
  import opened Options

  /** The idle source that dispatches deferred messages; Spent once it reported a loss and was never cleared. */
  datatype Dispatcher = NoSource | Armed | Spent

  /** What the thread is in the middle of. */
  datatype Activity =
    | Flushing                          // processOutgoingMessages
    | Reading                           // the read loop of socketCallback
    | Serving(request: nat)             // the handler of the request with this index among the completed messages
    | Dispatching(idle: bool)           // dispatchIncomingAsyncMessages, from the idle source or directly
    | Delivering                        // the handler of an asynchronous message
    | Calling(timed: bool)              // sendSyncMessage before its loop
    | Waiting                           // sendSyncMessage in its loop
    | Returning(reply: Option<Msg>)     // sendSyncMessage after its loop

  datatype Stack = Empty | Push(top: Activity, below: Stack)

  /** What a synchronous call gave its caller: the call's index among the pushed messages and the reply, if any. */
  datatype Outcome = Outcome(call: nat, reply: Option<Msg>, acceptedAt: nat)

  /** What happened so far; no step reads it. */
  datatype History = History(
    pushed: seq<Msg>,                   // every message ever queued for sending
    sent: seq<byte>,                    // every byte given to the socket
    got: seq<byte>,                     // every byte taken from the socket
    completed: seq<Msg>,                // every message received in full
    delivered: seq<Msg>,                // every asynchronous message given to the listener
    replyTo: map<nat, nat>,             // completed request -> the pushed message that answers it
    requestOf: map<nat, nat>,           // pushed answer -> the completed request it answers
    call: nat,                          // the latest synchronous call, as an index into pushed
    acceptedAt: nat,                    // where in completed its reply was found
    lossPending: bool,                  // a loss not yet reported
    outcomes: seq<Outcome>)

  /** The socket and the sources that watch it. */
  datatype Socket = Socket(
    open: bool,                         // m_socketFd >= 0
    blocked: bool,                      // m_blockedOnWrite
    mainOut: bool,                      // the main source watches OUT
    nestedSource: bool,                 // m_nestedSocketSource != 0
    nestedOut: bool)                    // it watches OUT

  /** The synchronous call in progress. */
  datatype Call = Call(
    inNested: bool,                     // m_inNestedLoop
    quit: bool,                         // the nested loop was told to quit
    timer: bool,                        // m_nestedTimeoutSource != 0
    timedOut: bool,                     // m_syncCallTimedOut
    curId: nat,                         // m_currSyncMessageId
    curReply: Option<Msg>)              // m_currSyncReply

  datatype State = State(
    sock: Socket,
    call: Call,
    slot: Option<Msg>,                  // m_replyForIncomingSyncMessage
    outgoing: seq<Msg>,                 // m_outgoingMessages
    outDone: nat,                       // bytes of the front frame already sent
    inBuf: seq<byte>,                   // bytes of the frame being received
    queue: seq<Msg>,                    // m_incomingAsyncMessages
    dispatcher: Dispatcher,             // m_incomingAsyncMessagesDispatcherSrc
    stack: Stack,
    h: History)

  datatype Event =
    // the application, on the channel's thread
    | SendAsync(msg: Msg) | SendSync(msg: Msg, timed: bool) | SendReply(msg: Msg) | Drain(msgs: seq<Msg>)
    // wake-ups of the active event loop
    | WakeHup | WakeOut | WakeIn | WakeTimeout | WakeIdle
    // processOutgoingMessages
    | Sent(n: nat) | FrameDone | SendAgain | SendErr | FlushEnd
    // the read loop
    | Got(data: seq<byte>) | Complete | RecvAgain | RecvErr
    // handlers and their return
    | ServeEnd | Deliver | DeliverEnd | ReportLoss | DispatchEnd
    // sendSyncMessage
    | EnterLoop | CallFail | LeaveLoop | CallReturn

  function Start(): State {
    State(Socket(true, false, false, false, false), Call(false, false, false, false, 0, None), None, [], 0, [], [], NoSource, Empty,
          History([], [], [], [], [], map[], map[], 0, 0, false, []))
  }

  predicate Top(s: State, a: Activity) {
    s.stack.Push? && s.stack.top == a
  }

  /** The application runs on this thread: from the main loop or inside a handler. */
  predicate UserTurn(k: Stack) {
    k.Empty? || k.top.Serving? || k.top.Delivering?
  }

  predicate AtLoop(k: Stack) {
    k.Empty? || k.top.Waiting?
  }

  /** Whether the source of the loop in charge watches for OUT. */
  predicate ActiveOut(s: State) {
    if s.call.inNested then s.sock.nestedOut else s.sock.mainOut
  }

  /** processOneOutgoingMessage has something to do. */
  predicate MaySend(s: State) {
    Top(s, Flushing) && s.sock.open && !s.sock.blocked && s.outgoing != []
  }

  predicate SendUnfinished(s: State) {
    MaySend(s) && s.outDone < |Frame(s.outgoing[0])|
  }

  predicate ReadUnfinished(s: State) {
    Top(s, Reading) && !IsWhole(s.inBuf)
  }

  predicate Can(s: State, e: Event) {
    match e
    case SendAsync(m) => UserTurn(s.stack) && WellFormed(m) && KindOf(m) == Oneway
    case SendSync(m, timed) => UserTurn(s.stack) && !s.call.inNested && WellFormed(m) && Id(m) != 0
    case SendReply(m) => UserTurn(s.stack) && WellFormed(m) && !Has(m, SyncBit)
    case Drain(ms) => s.stack.Empty? && forall m :: m in ms ==> WellFormed(m) && KindOf(m) == Oneway
    case WakeHup => AtLoop(s.stack) && s.sock.open
    case WakeOut => AtLoop(s.stack) && s.sock.open && ActiveOut(s)
    case WakeIn => AtLoop(s.stack) && s.sock.open
    case WakeTimeout => Top(s, Waiting) && s.call.timer
    case WakeIdle => s.stack.Empty? && s.dispatcher == Armed
    case Sent(n) => SendUnfinished(s) && 0 < n <= |Frame(s.outgoing[0])| - s.outDone
    case FrameDone => MaySend(s) && s.outDone == |Frame(s.outgoing[0])|
    case SendAgain => SendUnfinished(s)
    case SendErr => SendUnfinished(s)
    case FlushEnd => Top(s, Flushing) && (!s.sock.open || s.sock.blocked || s.outgoing == [])
    case Got(data) => ReadUnfinished(s) && s.sock.open && 0 < |data| <= Missing(s.inBuf) && Partial(s.inBuf + data)
    case Complete => Top(s, Reading) && IsWhole(s.inBuf)
    case RecvAgain => ReadUnfinished(s) && s.sock.open
    case RecvErr => ReadUnfinished(s)
    case ServeEnd => s.stack.Push? && s.stack.top.Serving? && s.stack.top.request < |s.h.completed|
    case Deliver => s.stack.Push? && s.stack.top.Dispatching? && s.queue != [] && !Has(s.queue[0], DisconnectBit)
    case DeliverEnd => Top(s, Delivering)
    case ReportLoss => s.stack.Push? && s.stack.top.Dispatching? && s.queue != [] && Has(s.queue[0], DisconnectBit)
    case DispatchEnd => s.stack.Push? && s.stack.top.Dispatching? && s.queue == []
    case EnterLoop => s.stack.Push? && s.stack.top.Calling? && s.sock.open
    case CallFail => s.stack.Push? && s.stack.top.Calling? && !s.sock.open
    case LeaveLoop => Top(s, Waiting) && s.call.quit
    case CallReturn => s.stack.Push? && s.stack.top.Returning?
  }

  /** The queue once the loss of the connection is noted at its front. */
  function Marked(queue: seq<Msg>): seq<Msg> {
    [Marker()] + queue
  }

  /** The disconnected() method, continuing with `k`. */
  function Disconnect(s: State, k: Stack): State {
    s.(sock := s.sock.(open := false, mainOut := false), call := s.call.(quit := s.call.quit || s.call.inNested), queue := Marked(s.queue),
       dispatcher := if s.dispatcher.NoSource? then Armed else s.dispatcher,
       stack := k, h := s.h.(lossPending := true))
  }

  function Enter(s: State, a: Activity): State {
    s.(stack := Push(a, s.stack))
  }

  function Leave(s: State): State
    requires s.stack.Push?
  {
    s.(stack := s.stack.below)
  }

  /** The application sends. */
  function ByApplication(s: State, e: Event): State
    requires Can(s, e)
  {
    match e
    case SendAsync(m) =>
      s.(outgoing := s.outgoing + [m], stack := Push(Flushing, s.stack), h := s.h.(pushed := s.h.pushed + [m]))
    case SendSync(m, timed) =>
      var r := Mark(m, SyncBit);
      s.(call := s.call.(inNested := true, curId := Id(m), curReply := None), outgoing := s.outgoing + [r],
         stack := Push(Flushing, Push(Calling(timed), s.stack)),
         h := s.h.(pushed := s.h.pushed + [r], call := |s.h.pushed|))
    case SendReply(m) => s.(slot := Some(m))
    case Drain(ms) =>
      s.(outgoing := s.outgoing + ms, stack := Push(Flushing, s.stack), h := s.h.(pushed := s.h.pushed + ms))
    case _ => s
  }

  /** An event loop dispatches a source. */
  function ByLoop(s: State, e: Event): State
    requires Can(s, e)
  {
    match e
    case WakeHup => Disconnect(s, s.stack)
    case WakeOut =>
      s.(sock := if s.call.inNested then s.sock.(blocked := false, nestedOut := false) else s.sock.(blocked := false, mainOut := false),
         stack := Push(Flushing, s.stack))
    case WakeIn => Enter(s, Reading)
    case WakeTimeout => s.(call := s.call.(timer := false, timedOut := true, quit := true))
    case WakeIdle => Enter(s, Dispatching(true))
    case _ => s
  }

  /** processOutgoingMessages, one send at a time. */
  function BySending(s: State, e: Event): State
    requires Can(s, e)
  {
    hide IsWhole, Missing, Partial, WellFormed, KindOf, Has, Id, Frame;
    match e
    case Sent(n) => s.(outDone := s.outDone + n, h := s.h.(sent := s.h.sent + Frame(s.outgoing[0])[s.outDone..s.outDone + n]))
    case FrameDone => s.(outgoing := s.outgoing[1..], outDone := 0)
    case SendAgain =>
      s.(sock := if s.call.inNested then s.sock.(blocked := true, nestedOut := s.sock.nestedSource)
                 else s.sock.(blocked := true, mainOut := true),
         stack := s.stack.below)
    case SendErr => Disconnect(s, s.stack.below)
    case FlushEnd => Leave(s)
    case _ => s
  }

  /** A request is handed to the listener. */
  function HandleRequest(s: State, m: Msg): State {
    s.(inBuf := [], slot := None, stack := Push(Serving(|s.h.completed|), s.stack), h := s.h.(completed := s.h.completed + [m]))
  }

  /** An answer is accepted by the call that waits for it, and dropped otherwise. */
  function HandleAnswer(s: State, m: Msg): State {
    if s.call.inNested && Id(m) == s.call.curId then
      s.(inBuf := [], call := s.call.(curReply := Some(m), quit := true),
         h := s.h.(completed := s.h.completed + [m], acceptedAt := |s.h.completed|))
    else
      s.(inBuf := [], h := s.h.(completed := s.h.completed + [m]))
  }

  /** Any other message is queued, and in normal mode dispatched at once. */
  function HandleOneway(s: State, m: Msg): State {
    s.(inBuf := [], queue := s.queue + [m], stack := if s.call.inNested then s.stack else Push(Dispatching(false), s.stack),
       h := s.h.(completed := s.h.completed + [m]))
  }

  /** handleIncomingMessageInNestedMode and handleIncomingMessageInNormalMode. */
  function Handle(s: State, m: Msg): State {
    match KindOf(m)
    case Request => HandleRequest(s, m)
    case Answer => HandleAnswer(s, m)
    case Oneway => HandleOneway(s, m)
  }

  /** The read loop, one recv at a time. */
  function ByReading(s: State, e: Event): State
    requires Can(s, e)
  {
    match e
    case Got(data) => s.(inBuf := s.inBuf + data, h := s.h.(got := s.h.got + data))
    case Complete => Handle(s, s.inBuf[LENGTH_SIZE..])
    case RecvAgain => Leave(s)
    case RecvErr => Disconnect(s, s.stack.below)
    case _ => s
  }

  /** The reply that leaves the channel for the request `req`, given what the handler left in the slot. */
  function Finish(slot: Option<Msg>, req: Msg): Msg {
    IdRange(req);
    match slot
    case Some(r) => WithId(Mark(r, ReplyBit), Id(req))
    case None => WithId(Mark(NewMessage(ROUTING_NONE, 0, 0, 0), ReplyErrorBit), Id(req))
  }

  /** handleIncomingSyncMessage after its handler: the answer is queued and remembered. */
  function Answered(s: State, i: nat, r: Msg): State
    requires s.stack.Push?
  {
    var j := |s.h.pushed|;
    s.(slot := None, outgoing := s.outgoing + [r], stack := Push(Flushing, s.stack.below),
       h := s.h.(pushed := s.h.pushed + [r], replyTo := s.h.replyTo[i := j], requestOf := s.h.requestOf[j := i]))
  }

  /** Handlers start and end. */
  function ByDispatch(s: State, e: Event): State
    requires Can(s, e)
  {
    match e
    case ServeEnd => Answered(s, s.stack.top.request, Finish(s.slot, s.h.completed[s.stack.top.request]))
    case Deliver =>
      s.(queue := s.queue[1..], stack := Push(Delivering, s.stack), h := s.h.(delivered := s.h.delivered + [s.queue[0]]))
    case DeliverEnd => Leave(s)
    case ReportLoss =>
      s.(queue := s.queue[1..], dispatcher := if s.stack.top.idle then Spent else s.dispatcher,
         stack := s.stack.below, h := s.h.(lossPending := false))
    case DispatchEnd => s.(dispatcher := if s.stack.top.idle then NoSource else s.dispatcher, stack := s.stack.below)
    case _ => s
  }

  /** sendSyncMessage gives its caller `reply`. */
  function WithOutcome(h: History, reply: Option<Msg>): History {
    h.(outcomes := h.outcomes + [Outcome(h.call, reply, h.acceptedAt)])
  }

  /** The reply that sendSyncMessage is about to return when its loop ends. */
  function Result(s: State): Option<Msg> {
    if s.call.timedOut || s.call.curReply.None? || IsReplyError(s.call.curReply.value) then None else s.call.curReply
  }

  function EndCall(c: Call): Call {
    c.(timer := false, inNested := false, curId := 0, curReply := None)
  }

  /** The end of sendSyncMessage up to its last flush. */
  function AfterLoop(s: State): State
    requires s.stack.Push?
  {
    if !s.sock.open then
      s.(call := EndCall(s.call), sock := s.sock.(nestedSource := false, nestedOut := false),
         stack := s.stack.below, h := WithOutcome(s.h, None))
    else
      s.(call := EndCall(s.call),
         sock := s.sock.(nestedSource := false, nestedOut := false, blocked := false, mainOut := false),
         dispatcher := if s.queue != [] && s.dispatcher.NoSource? then Armed else s.dispatcher,
         stack := Push(Flushing, Push(Returning(Result(s)), s.stack.below)))
  }

  /** sendSyncMessage around its nested loop. */
  function ByCall(s: State, e: Event): State
    requires Can(s, e)
  {
    match e
    case EnterLoop =>
      s.(call := s.call.(timedOut := false, timer := s.stack.top.timed, quit := false),
         sock := s.sock.(nestedSource := true, nestedOut := s.sock.blocked),
         stack := Push(Waiting, s.stack.below))
    case CallFail =>
      s.(call := s.call.(inNested := false, curId := 0, curReply := None), stack := s.stack.below, h := WithOutcome(s.h, None))
    case LeaveLoop => AfterLoop(s)
    case CallReturn => s.(stack := s.stack.below, h := WithOutcome(s.h, s.stack.top.reply))
    case _ => s
  }

  function Do(s: State, e: Event): State
    requires Can(s, e)
  {
    if e.SendAsync? || e.SendSync? || e.SendReply? || e.Drain? then ByApplication(s, e)
    else if e.WakeHup? || e.WakeOut? || e.WakeIn? || e.WakeTimeout? || e.WakeIdle? then ByLoop(s, e)
    else if e.Sent? || e.FrameDone? || e.SendAgain? || e.SendErr? || e.FlushEnd? then BySending(s, e)
    else if e.Got? || e.Complete? || e.RecvAgain? || e.RecvErr? then ByReading(s, e)
    else if e.ServeEnd? || e.Deliver? || e.DeliverEnd? || e.ReportLoss? || e.DispatchEnd? then ByDispatch(s, e)
    else ByCall(s, e)
  }

  /** `es` is a run from the start. */
  ghost predicate ValidRun(es: seq<Event>)
    decreases |es|, 0
  {
    es == [] || (ValidRun(es[..|es| - 1]) && Can(After(es[..|es| - 1]), es[|es| - 1]))
  }

  ghost function After(es: seq<Event>): State
    requires ValidRun(es)
    decreases |es|, 1
  {
    if es == [] then Start() else Do(After(es[..|es| - 1]), es[|es| - 1])
  }
}
