# PIpc verified

A Dafny model of the IPC library in `src/ipc` and the pickle in `src/base`, with
proofs of what they promise. `dafny verify dfyconfig.toml` checks all of it.

The library joins two processes by a socket pair. Each end is a channel: it
sends asynchronous messages, makes synchronous calls that wait in a nested event
loop while they go on serving the requests of the other end, answers requests,
and reports the loss of the connection. A message is a pickle, a buffer with a
cursor whose size is computed before anything is written. Other threads hand
messages to the channel through a queue and a wake-up pipe. Beside this stands a
shared-memory buffer with a recursive lock over a robust mutex.

## Files

| file | what it holds |
|---|---|
| `Options.dfy`, `Bytes.dfy` | optional values; bytes, little-endian integers, alignment, bits |
| `Messages.dfy` | a message as its bytes: header, flags, id, kinds of message |
| `Framing.dfy` | length-prefixed frames and what a received prefix of a stream determines |
| `Endpoint.dfy` | one end of a channel as a state machine |
| `EndpointInvariants.dfy` | what every run of one end keeps |
| `Link.dfy` | two ends over two byte pipes of any capacity, and what every run of the pair keeps |
| `Protocol.dfy` | what follows in every reachable state of the pair: conservation, no deadlock, order, loss |
| `Progress.dfy` | every truthful schedule ends, and only with both ends at rest, by a measure that each of its steps lowers |
| `Outcomes.dfy`, `Timeouts.dfy` | what calls return, that each returns once, and which of them time out |
| `DeferredMessages.dfy` | messages deferred during a call, and what a loss leaves of them |
| `Replies.dfy` | replies reach their calls although ids repeat |
| `HandlerReplies.dfy`, `AwaitedReplies.dfy` | what becomes of a reply given by a handler, at one end and between two |
| `Handlers.dfy` | handlers that dispatch requests of one type to a function |
| `Runs.dfy` | the main results, stated over whole runs |
| `Scripts.dfy` | what a channel does with what happens outside, one step for each situation |
| `EndpointEffects.dfy`, `ChannelBuffers.dfy`, `Channel.dfy` | the channel object with its fields, buffers and loops, proved to follow the machine |
| `Pickles.dfy`, `Params.dfy` | the pickle and the parameter codec |
| `MessageIds.dfy`, `MessageObjects.dfy`, `TypedMessages.dfy`, `Calls.dfy` | ids, message objects in place, messages with parameters, typed calls from end to end |
| `Variables.dfy`, `TypedCalls.dfy` | reading a reply into variables, and the typed call of the channel object |
| `AsyncCaller.dfy` | sending from other threads, step by step |
| `SharedBuffer.dfy` | the lock and the layout of a shared buffer |
| `Witnesses.dfy`, `WitnessRuns.dfy` | concrete inputs on which the code does not do what it is meant to |

## How the machine follows the program

A state of `Endpoint` holds the fields of the channel and an explicit stack that
names the calls its thread is inside of, so that re-entrant calls are ordinary
states. An event is one system call, one wake-up or one action of the
application:

| events | source |
|---|---|
| SendAsync, SendSync, SendReply, Drain | src/ipc/PIpcChannel.cpp:208-251, 668-671, 690-703 |
| WakeHup, WakeOut, WakeIn, WakeTimeout, WakeIdle | src/ipc/PIpcChannel.cpp:161-184, 655-666, 673-688 |
| Sent, FrameDone, SendAgain, SendErr, FlushEnd | src/ipc/PIpcChannel.cpp:364-433, 498-528 |
| Got, Complete, RecvAgain, RecvErr | src/ipc/PIpcChannel.cpp:437-496, 530-602 |
| ServeEnd, Deliver, DeliverEnd, ReportLoss, DispatchEnd | src/ipc/PIpcChannel.cpp:604-666 |
| EnterLoop, CallFail, LeaveLoop, CallReturn | src/ipc/PIpcChannel.cpp:254-331 |

The class `Channels.Channel` is the object itself: its methods are the
program's, with the outside world as a script of what send and recv answer, what
wakes the loops and what the application does. Each method extends a ghost run
of the machine and proves that the fields are those of the run's last state, so
what is proved of all runs holds of the object; `Channel.Guarantees` says so in
terms of its fields. A ghost log keeps the input that each step took, and every
entry is the one step that `Scripts` allows in its situation, so that the methods
can neither skip a step nor take another: `Scripts.ScriptDecides` with the
contract of `Channel.Run`. The two structures `sock` and `call` group the fields
m_socketFd, m_blockedOnWrite and the watched conditions, and the m_inNestedLoop,
m_sync* and m_currSync* fields with the state of the nested loop.

## Assumptions

* sendSyncMessage is not called inside itself: leaving an inner call clears the
  fields of the outer one (src/ipc/PIpcChannel.cpp:303-305). A handler that runs
  outside a call may make one.
* A peer's messages are at least a header long, a multiple of four bytes, shorter
  than 2^31 bytes, and without the disconnect bit. For two linked channels this is
  proved (`Protocol.PipedBytesAreAcceptable`).
* A request has a nonzero id, and handlers reply with messages that are not
  requests. Where fresh ids are needed, a call may reuse an id once the answers to
  its earlier requests were read; fewer than 2^31 - 1 draws since any request not
  yet answered are enough (`Replies.RecentRunIsFresh`).
* In `Progress` handlers return, and sockets answer truthfully: a loop wakes only
  for a byte to read or room to write, and only an empty or full pipe would block.
* While sendSyncMessage flushes before its nested source exists
  (src/ipc/PIpcChannel.cpp:251 against 272), a blocked send is modelled as lines
  272-275 intend: only m_blockedOnWrite is recorded, and the source is then created
  watching OUT. The code there sets a condition on a null source (lines 510-513).
* The increment of the id counter is modelled as the jump that its comment
  intends, from 2^31 - 1 past the negative numbers to 1; in C++ it overflows.

## Where code and intent differ

* The reader of 8-tuples takes the last two fields in the wrong order
  (src/ipc/PIpcMessageUtils.h:420-421). `Params.RoundTrip` says for every value when
  it survives nevertheless; `Witnesses.EightTupleIsMisread` is one that does not.
* A reply given to sendReply is discarded when the same handler afterwards makes a
  call in which another request is served (`HandlerReplies.ReplyLeavesIffLastAct`).
  Between two channels that happens only after the call which the reply was for
  has returned (`AwaitedReplies.AwaitedReplyLeaves`): what then travels is a late
  error that nobody waits for, as in `WitnessRuns.ReplyIsLost`.
* Messages deferred during a call never reach the listener, though they were
  received in full, when the connection is lost before the idle source ran: the
  loss goes in front of them, and the idle source stops at the loss and is never
  armed again, since its field is not cleared (src/ipc/PIpcChannel.cpp:334-362,
  658-663). `DeferredMessages.LossDividesQueue` says exactly which messages are
  lost, and `WitnessRuns.MessageIsStranded` is a run with one.
* writeBytes checks its int32_t length without looking at its sign
  (src/base/pickle.cpp:150): `Pickles.ChecksAgree` says for which lengths that
  matters, and `Witnesses.NegativeLengthPasses` gives one. Strings of 2^31 bytes and
  more reach it with such a length.
* The destructor of a buffer releases a lock held more than once only when its
  thread dies (`SharedBuffer.DropReleasesOnce`, `SharedBuffer.LeakedUntilDeath`,
  `Witnesses.TwiceLockedLeaks`).
* The sum of parameter sizes is a uint32_t; `TypedMessages.ExactSizing` says what
  a wrap breaks, and `Witnesses.MeasureWraps` gives a value that wraps.
* The typed sendSyncMessage ignores whether the reply could be read
  (src/ipc/PIpcChannel.h:66). It returns true for every reply
  (`TypedCalls.SendTyped`); an unreadable one has by then overwritten the
  variables in front of the first failing read and left those behind it
  (`Variables.UnreadableReplySetsSome`, `Witnesses.HalfReadReply`).
* The rounding of the user's address adds the size of the handle object, not of
  the header (src/ipc/PIpcBuffer.cpp:114, 148); `SharedBuffer.UserRegionFits` gives
  the exact condition, which holds when both are smaller than a page.

## Model

| member | source | states |
|---|---|---|
| `Runs.TransitIsFrames` | src/ipc/PIpcChannel.cpp:379-496 | In every linked state the bytes between the two ends, partly read, in the pipe, partly sent and queued, are exactly the frames of the messages in flight. |
| `Runs.SenderAppends` | src/ipc/PIpcChannel.cpp:364-433 | Whatever the sender does (partial sends, blocked sends, errors, calls), its step only appends the frames of what it pushed to the bytes between the ends. |
| `Runs.ReceiverTakesFront` | src/ipc/PIpcChannel.cpp:437-496 | The receiver's step completes the front message in flight, byte for byte, and leaves the frames of the rest, or completes none and leaves all: with the row above, the byte level refines an atomic FIFO. |
| `Runs.CallGetsItsAnswer` | src/ipc/PIpcChannel.cpp:272-331 | From every reachable state of two open ends whose calls use fresh ids: whatever schedule follows without new work, timeouts and errors, once both ends are at rest a call that had not timed out has returned, and what it returned is the one answer the peer gave to it, or nothing if that is an error. |
| `Runs.RestIsComplete` | src/ipc/PIpcChannel.cpp:588-626 | With both ends at rest every asynchronous message of either was delivered, in order, and every request was answered, its answer read and its call returned. |
| `Outcomes.OutcomeDecided` | src/ipc/PIpcChannel.cpp:281-331 | In every run every call returns a reply if and only if its nested loop ended on an open socket, its timer had not fired since the loop began, and a reply had been accepted that is no error; and it returns that reply. |
| `Outcomes.EachCallReturnsOnce` | src/ipc/PIpcChannel.cpp:229-332 | In every run each call returns exactly once, in the order in which calls were made, and before the next one starts. |
| `Timeouts.TimerRunsForTimedCalls` | src/ipc/PIpcChannel.cpp:260-268 | In every run the timer is on exactly in the loop of a call made with a timeout, until it fires. |
| `Timeouts.UntimedCallWaits` | src/ipc/PIpcChannel.cpp:260-279 | In every run the loop of a call made without a timeout is told to quit exactly when a reply was accepted or the connection was lost. |
| `Outcomes.HandStepExact` | src/ipc/PIpcChannel.cpp:303-331 | At the end of its loop a call on an open socket gets the reply it deserves, or none, and nothing until its return changes that. |
| `Runs.RepliesReachTheirCalls` | src/ipc/PIpcChannel.cpp:568-579 | In every run a reply returned by a call is the one message the peer queued in answer to that call; ids may repeat, as long as a new call does not carry the id of an earlier one whose answer is still to be read. |
| `Runs.RemoteCallComputes` | src/ipc/PIpcChannel.h:61-71 | If the handlers of one type at the peer reply only by dispatching to `f`, a typed call of that type with arguments `args` that returns a reply leaves `f(args)` in the variables of its caller, whatever the handlers of other types, other answers and other calls do. |
| `Handlers.HandlersImplement` | src/ipc/PIpcChannel.cpp:604-626 | If every handler of a type replies only with what dispatching to `f` gives, every answer to a request of that type carries `f` of its arguments or is an error, through nested calls, lost replies and re-entrant handlers. |
| `Handlers.DispatchGivesReply` | src/ipc/PIpcMessageUtils.h:570-592 | What the dispatcher is proved to build is such a reply. |
| `Progress.CallsNeverDeadlock` | src/ipc/PIpcChannel.cpp:272-279 | While an end is in a call on open sockets some end has a step that counts, and it leaves strictly less to do; crossed calls and one-byte pipes included. |
| `Progress.RunningThreadAdvances` | src/ipc/PIpcChannel.cpp:364-377 | A thread outside its loops always has a step with a truthful socket. |
| `Progress.StepLess` | src/ipc/PIpcChannel.cpp:161-703 | Every step that counts, wake-ups included, answers a request, moves a byte or gets ready to, finishes a message, delivers one or returns, and never adds to what comes before it in that order. |
| `Progress.NoEndlessSchedule` | src/ipc/PIpcChannel.cpp:161-703 | Whatever two open ends are in the middle of, no schedule of returning handlers, truthful sockets and event loops goes on for ever without new work, timeouts or errors. |
| `Progress.StuckIsDone` | src/ipc/PIpcChannel.cpp:161-703 | Where such a schedule cannot be continued both ends are at rest: in their main loops, with everything received and delivered. |
| `Progress.RestIsReached` | src/ipc/PIpcChannel.cpp:161-703 | From every reachable state of two open ends rest is reached. |
| `Progress.SomethingAdvances` | src/ipc/PIpcChannel.cpp:161-703 | Two open ends with anything left to do always have a step, for every capacity of the pipes. |
| `Replies.CurrentIdMeansCurrentCall` | src/ipc/PIpcChannel.cpp:568-579 | When earlier requests with the current id are settled, an answer read during a call carries that id if and only if it answers that call. |
| `Replies.AnswerAcceptedIffCurrent` | src/ipc/PIpcChannel.cpp:568-579 | Under the same condition an answer is accepted if and only if it answers the call in progress; every other, such as a late one, changes nothing else. |
| `Replies.FreshRunMatches` | src/ipc/PIpcChannel.cpp:243-331 | In every run whose calls use fresh ids, every reply accepted, in hand or returned is the answer of the peer to the call it was accepted for. |
| `Replies.RecentRunIsFresh` | src/ipc/PIpcMessage.cpp:41-50 | Ids from the generator are fresh across any number of wraps if each call is drawn fewer than 2^31 - 1 draws after every earlier request whose answer was not yet read. |
| `Replies.ReturnedReplyAnswersItsCall` | src/ipc/PIpcChannel.cpp:281-331 | In every run whose calls use fresh ids a returned reply is the answer of the peer to this very call, whatever calls timed out before. |
| `Replies.SettledIsConsumed` | src/ipc/PIpcChannel.cpp:568-579 | A request no longer stands in the way of its id exactly when it has reached the last place of its life. |
| `HandlerReplies.ReplyLeavesIffLastAct` | src/ipc/PIpcChannel.cpp:604-626 | A reply that the handler of a request gives answers that request if and only if no other request is served before the handler returns, otherwise an error does; and a handler that makes no synchronous call after its reply serves no other. |
| `HandlerReplies.KeptThroughout` | src/ipc/PIpcChannel.cpp:607-626 | Through everything that happens above a handler the slot holds its reply until another request is served, and nothing when only that handler is left. |
| `HandlerReplies.SlotAfterStep` | src/ipc/PIpcChannel.cpp:607-626 | Without sendReply the slot changes only by being emptied, exactly when a request starts or ends being served. |
| `HandlerReplies.SendingHandlerServesNobody` | src/ipc/PIpcChannel.cpp:208-213 | A handler that makes no synchronous call never reads, so no other request is served above it. |
| `AwaitedReplies.AwaitedReplyLeaves` | src/ipc/PIpcChannel.cpp:604-626 | Between two channels the last reply a handler gives is what leaves when it returns, whatever calls it makes in between, unless the call it answers has already returned; so no reply that somebody waits for is lost. |
| `AwaitedReplies.ServingMeansReturned` | src/ipc/PIpcChannel.cpp:604-611 | A channel serves another request on top of a handler only after the call which that handler answers has returned at the other end. |
| `Link.EachEndRuns` | src/ipc/PIpcChannel.cpp:161-703 | Each end of a run of the pair goes through a run of its own, so that what holds of all runs of one end holds here. |
| `DeferredMessages.DeferredHaveDispatcher` | src/ipc/PIpcChannel.cpp:312-319 | Back in the main loop with messages deferred, the idle source is armed, unless it reported a loss; on an open socket it always is. |
| `DeferredMessages.IdleSourceDelivers` | src/ipc/PIpcChannel.cpp:633-666 | The idle source delivers, in order, all that is queued in front of a loss; then it reports the loss, if there is one, and leaves the rest. |
| `DeferredMessages.BehindLossNeverDelivered` | src/ipc/PIpcChannel.cpp:334-362 | Once the connection is lost and no read loop is on, no continuation whatever delivers what is queued behind the loss. |
| `DeferredMessages.LossDividesQueue` | src/ipc/PIpcChannel.cpp:633-666 | So of what is deferred then exactly the messages in front of the loss can reach the listener, and the idle source brings them. |
| `DeferredMessages.LossLeavesAllBehind` | src/ipc/PIpcChannel.cpp:334-362 | A loss found outside the read loop leaves everything deferred behind. |
| `WitnessRuns.ReplyIsLost` | src/ipc/PIpcChannel.cpp:607-621 | A run of two channels in which the only reply a handler gives does not leave: its caller times out and calls again, the handler makes a call that times out while that second request is served, and what leaves is an error for a call that has returned. |
| `WitnessRuns.MessageIsStranded` | src/ipc/PIpcChannel.cpp:655-666 | A run of two channels after which a message received in full is still queued and is never delivered by any continuation, because the connection was lost while a call was waiting. |
| `Witnesses.HalfReadReply` | src/ipc/PIpcChannel.h:61-71 | A reply that carries one number, read into two variables: the read fails, the first variable is overwritten, the second is not. |
| `Witnesses.EightTupleIsMisread` | src/ipc/PIpcMessageUtils.h:410-421 | Eight booleans, well typed and written in full, are read back as others. |
| `Witnesses.MeasureWraps` | src/ipc/PIpcMessageUtils.h:446-449 | Two strings of 2^31 - 4 bytes measure zero, so that a message is built for them and does not hold them. |
| `Witnesses.NegativeLengthPasses` | src/base/pickle.cpp:148-157 | Position 4, capacity 8, length -4: writeBytes lets pass what hasRoomFor refuses. |
| `Witnesses.TwiceLockedLeaks` | src/ipc/PIpcBuffer.cpp:172-176 | Locked twice and destroyed, a handle leaves the mutex held and every other handle waiting. |
| `Runs.MessagesArriveInOrder` | src/ipc/PIpcChannel.cpp:379-559 | After every run of the pair, for every pipe capacity, the messages completed at one end are a prefix of those pushed at the other, and the asynchronous ones reached the listener in that order. |
| `Runs.TurnAdvances` | src/ipc/PIpcChannel.cpp:229-332 | One step of either end never moves a synchronous request back to an earlier place of its life. |
| `Runs.RequestsOnlyAdvance` | src/ipc/PIpcChannel.cpp:604-631 | Over whole runs a request goes from queue to wire to handler to queued reply to wire to consumed and never back. |
| `Framing.StreamDeterminesMessages` | src/ipc/PIpcChannel.cpp:437-482 | Any received prefix of a stream of frames parses into a prefix of the messages written, its unfinished rest starts the next frame, and once nothing written is left unread all of them are there. |
| `Framing.PrefixIsPartial` | src/ipc/PIpcChannel.cpp:448-480 | Cut at any byte, a well-formed frame is acceptable to the reader, which considers it whole exactly at its last byte. |
| `Framing.WholeIsFrame` | src/ipc/PIpcChannel.cpp:464-484 | A frame the reader takes as whole is the frame of its payload, and the payload is a well-formed message. |
| `Framing.NextBytes` | src/ipc/PIpcChannel.cpp:472-475 | Bytes read up to the end of the current segment continue the frame being read. |
| `EndpointInvariants.RunInv` | src/ipc/PIpcChannel.cpp:161-690 | Every state of every run of one end, from the start, over all interleavings of sends, receives, wake-ups, handlers, nested calls, timeouts and losses, satisfies all invariants below. |
| `EndpointInvariants.StackStep` | src/ipc/PIpcChannel.cpp:229-332 | m_inNestedLoop and the nested source are on exactly while a call is on the thread's stack, and calls enter each other only as the code allows. |
| `EndpointInvariants.OutputStep` | src/ipc/PIpcChannel.cpp:364-377 | Output never stalls: on an open socket with messages queued and nobody flushing, m_blockedOnWrite holds and the source of the loop in charge watches OUT, across entry to and exit from nested mode. |
| `EndpointInvariants.SendStep` | src/ipc/PIpcChannel.cpp:379-433 | The bytes given to send are the frames of the messages that left the queue and the part of the front frame its counters say. |
| `EndpointInvariants.ReceiveStep` | src/ipc/PIpcChannel.cpp:437-496 | The bytes received are the frames of the completed messages and the partial frame; a whole frame exists only inside the read loop on an open socket. |
| `EndpointInvariants.OrderStep` | src/ipc/PIpcChannel.cpp:561-602 | Delivered messages followed by the deferred ones, markers removed, are the asynchronous messages received, in order of arrival. |
| `EndpointInvariants.QueueStep` | src/ipc/PIpcChannel.cpp:334-351 | A disconnect marker is in the queue only once the connection is lost. |
| `EndpointInvariants.LossStep` | src/ipc/PIpcChannel.cpp:334-362 | An unreported loss keeps its marker at the front of the queue and a live source to report it. |
| `EndpointInvariants.DispatchStep` | src/ipc/PIpcChannel.cpp:312-319 | Messages queued without an idle source are on an open socket, where a dispatcher is at work or the end of the call in progress arms the source. |
| `EndpointInvariants.WaitStep` | src/ipc/PIpcChannel.cpp:243-305 | The current id is that of the call in progress and zero without one; the nested loop is told to quit exactly when a reply was accepted, the timer fired or the socket was lost. |
| `EndpointInvariants.OutcomeStep` | src/ipc/PIpcChannel.cpp:281-331 | A reply a call returns is an answer received with the id of its request, and no error. |
| `EndpointInvariants.ServiceStep` | src/ipc/PIpcChannel.cpp:604-626 | Every request received is either in the hands of exactly one handler or answered by exactly one message, and the answers sent are exactly theirs, with their ids. |
| `EndpointInvariants.FinishIsAnswer` | src/ipc/PIpcChannel.cpp:613-621 | Whatever the handler leaves behind, what leaves the channel is a well-formed answer with the id of the request; it is an error when the handler left nothing or an error. |
| `EndpointInvariants.RepliesEntered` | src/ipc/PIpcChannel.cpp:623 | Only the end of a handler records an answer, under a fresh place in the outgoing queue. |
| `Link.CompletedIsPrefixOfPushed` | src/ipc/PIpcChannel.cpp:379-559 | In every linked state what one end completed is a prefix of what the other pushed, and its unfinished frame starts the next of them. |
| `Link.DrainedMeansCompleted` | src/ipc/PIpcChannel.cpp:379-482 | Nothing is lost: with drained pipes and an empty queue everything pushed was completed. |
| `Link.SentShape` | src/ipc/PIpcChannel.cpp:386-428 | What an end has sent is whole frames of the first messages pushed and part of the frame of the next. |
| `Link.AnswerOf` | src/ipc/PIpcChannel.cpp:613-623 | The answer kept for a request is in the outgoing history with the id of that request. |
| `Link.PairStep` | src/ipc/PIpcChannel.cpp:161-690 | One step of one end keeps the invariants of both, the pipes and the relations between their calls. |
| `Link.LinkRunInv` | src/ipc/PIpcChannel.cpp:161-690 | Every state of every interleaving of two ends over pipes of any capacity satisfies the joint invariant, which includes that two calls in progress never both wait behind each other. |
| `Protocol.PipedBytesAreAcceptable` | src/ipc/PIpcChannel.cpp:530-559 | What an end assumes of received bytes holds of every read of a pipe that the other end fills. |
| `Protocol.RequestIsInOnePlace` | src/ipc/PIpcChannel.cpp:249-251 | Conservation: a pushed request is in exactly one of six places; it is in a handler exactly when the stack of the peer says so and answered exactly when an answer is recorded. |
| `Protocol.PlaceHoldsRequest` | src/ipc/PIpcChannel.cpp:249-251 | At that place is the request itself, in the queue or in the hands of the handler. |
| `Protocol.PlaceHoldsReply` | src/ipc/PIpcChannel.cpp:613-626 | Or an answer with its id, queued at the peer or already read. |
| `Protocol.OwnStepAdvances` | src/ipc/PIpcChannel.cpp:379-433 | A step of the sending end never moves a request back. |
| `Protocol.PeerStepAdvances` | src/ipc/PIpcChannel.cpp:437-496 | Nor does a step of the receiving end. |
| `Protocol.WaitingIsNotDeadlock` | src/ipc/PIpcChannel.cpp:272-279 | When both ends sleep in their loops on open sockets and one waits in a call, bytes can move. |
| `Protocol.CallInProgressIsLive` | src/ipc/PIpcChannel.cpp:272-279 | During a call a thread is running, a loop is about to end or bytes can move. |
| `Protocol.MayReadReads` | src/ipc/PIpcChannel.cpp:177-183 | A loop with something to read wakes and reads it. |
| `Protocol.MayWriteWrites` | src/ipc/PIpcChannel.cpp:168-175 | A loop with something to write and room for it wakes and writes it. |
| `Protocol.AnswerReadAnswersRequest` | src/ipc/PIpcChannel.cpp:568-579 | Every answer read was given by the peer to one request of this end and carries its id. |
| `Protocol.DeliveredIsPrefixOfSent` | src/ipc/PIpcChannel.cpp:588-602 | The listener gets the asynchronous messages of the peer in order, none skipped, none repeated. |
| `Protocol.LossPreemptsDeferredMessages` | src/ipc/PIpcChannel.cpp:633-653 | From a loss, however found, to its report nothing more completes, nothing deferred is delivered, and the marker stays in front with its source armed. |
| `Channels.Channel.SystemCall` | src/ipc/PIpcChannel.cpp:503-523 | A send or recv takes the next answer of the outside and gives exactly that: at least one byte and at most what was asked for, an interruption, EAGAIN, or a failure; on a closed socket it fails without one. |
| `Channels.Channel.WriteToSocket` | src/ipc/PIpcChannel.cpp:498-528 | Sends the rest of a buffer; interruptions end nothing. The result is -1 if and only if a send failed; a short count means that one would block, and then the right source watches OUT. The wire grew by exactly the bytes counted. |
| `Channels.Channel.ReadFromSocket` | src/ipc/PIpcChannel.cpp:530-559 | Fills the buffer from the peer's stream at the right offset; interruptions end nothing. The result is -1 if and only if the socket was closed or a recv failed; otherwise it counts what came, and less than all only when a recv would block, which leaves the socket open. |
| `Channels.Channel.SendPart` | src/ipc/PIpcChannel.cpp:391-400 | Writes part of the front frame; an error disconnects. |
| `Channels.Channel.PopFront` | src/ipc/PIpcChannel.cpp:422-432 | A message sent in full leaves the queue and the counters start again. |
| `Channels.Channel.ProcessOneOutgoingMessage` | src/ipc/PIpcChannel.cpp:379-433 | Resumes the front frame at any byte; true exactly when it went in full and the socket is still writable. |
| `Channels.Channel.ProcessOutgoingMessages` | src/ipc/PIpcChannel.cpp:364-377 | Flushes until the queue is empty, the socket blocked or the connection lost, and leaves calls in progress and what was queued alone; it loses the connection only if a send failed. |
| `Channels.Channel.Disconnected` | src/ipc/PIpcChannel.cpp:334-362 | Takes the machine through its loss step: socket and source gone, nested loop told to quit, marker in front, dispatcher armed. |
| `Channels.Channel.ReadLength` | src/ipc/PIpcChannel.cpp:446-469 | Resumes the length at any byte and then allocates the payload it announces. |
| `Channels.Channel.ReadPayload` | src/ipc/PIpcChannel.cpp:474-492 | Resumes the payload at any byte; gives the message exactly when it is complete. |
| `Channels.Channel.ProcessIncomingMessages` | src/ipc/PIpcChannel.cpp:437-496 | Resumes and handles one message in the mode the channel is in; true only when a message was completed, false only when the read loop is over. |
| `Channels.Channel.HandleIncomingMessageInNestedMode` | src/ipc/PIpcChannel.cpp:561-586 | The message counts as completed; a request is answered before it returns, an answer changes only the call it is for, the rest is deferred. |
| `Channels.Channel.HandleIncomingMessageInNormalMode` | src/ipc/PIpcChannel.cpp:588-602 | The same outside a call: a request is answered, an answer dropped, the rest queued and dispatched. |
| `Channels.Channel.HandleIncomingSyncMessage` | src/ipc/PIpcChannel.cpp:604-611 | The listener is given the request, and whatever it does inside, the request is completed and has an answer when it returns; if it only replies, the answer is its last reply, or an error if there was none. |
| `Channels.Channel.SendAnswer` | src/ipc/PIpcChannel.cpp:613-626 | Queues exactly one message, the answer made of what the handler left, records it as the answer to that request, and flushes. |
| `Channels.Channel.QueueAndDispatch` | src/ipc/PIpcChannel.cpp:598-600 | The message completes, joins the queue, and the queue is dispatched until it is empty or the connection is lost. |
| `Channels.Channel.DispatchIncomingAsyncMessages` | src/ipc/PIpcChannel.cpp:633-653 | Delivers deferred messages in order until none is left or a loss comes up, which it reports first. |
| `Channels.Channel.DispatchIncomingAsyncMessagesCallback` | src/ipc/PIpcChannel.cpp:655-666 | Starts with the idle wake-up and ends with the report of a loss or without; its source is cleared exactly in the second case, and then nothing is queued. |
| `Channels.Channel.SendAsyncMessage` | src/ipc/PIpcChannel.cpp:208-213 | Exactly this message is added to what was ever queued. |
| `Channels.Channel.SendReply` | src/ipc/PIpcChannel.cpp:668-671 | The slot holds the given message. |
| `Channels.Channel.SendSyncMessage` | src/ipc/PIpcChannel.cpp:229-332 | Refuses calls from another thread or to a suspended peer and leaves the channel as it is; otherwise makes the call with this message and this timeout. |
| `Channels.Channel.MakeCall` | src/ipc/PIpcChannel.cpp:241-332 | Queues the message of the caller, marked as a request and otherwise as it is, and starts the call with the timeout given. Returns true if and only if the nested loop of this call ended in time on an open socket with an accepted reply that is no error; gives that reply, an answer with the id of the request, and the outcome recorded is that of this call. |
| `Channels.Channel.AwaitReply` | src/ipc/PIpcChannel.cpp:260-331 | The call from its nested loop on, with the same condition in both directions. |
| `Channels.Channel.AfterNestedLoop` | src/ipc/PIpcChannel.cpp:281-331 | True exactly for an accepted reply that is no error, with the timer not fired and the socket open, and gives that reply. |
| `Channels.Channel.EndNestedLoop` | src/ipc/PIpcChannel.cpp:281-325 | Sources and nested mode go; on an open socket deferred messages are left with an armed dispatcher and the socket counts as writable again. |
| `Channels.Channel.SocketCallback` | src/ipc/PIpcChannel.cpp:161-184 | Takes the machine through the wake-up for the condition and back to the loop it came from; a hang-up closes the socket, and nothing else does but a failed send or recv or a loss while a call waits. |
| `Channels.Channel.FlushAgain` | src/ipc/PIpcChannel.cpp:168-175 | OUT ends the watch on it and flushes as far as the socket allows. |
| `Channels.Channel.RunNestedLoop` | src/ipc/PIpcChannel.cpp:279 | Runs until told to quit; everything that happens meanwhile is a run of the machine, decided by what happens outside. |
| `Channels.Channel.NestedTurn` | src/ipc/PIpcChannel.cpp:673-688 | A timeout marks the call and ends the loop; a condition of the socket is handled there. |
| `Channels.Channel.RunHandler` | src/ipc/PIpcChannel.cpp:610-611 | Until it returns the listener does what the application says; if that is only to reply, the slot holds its last reply and nothing else has changed. |
| `Channels.Channel.Act` | src/ipc/PIpcChannel.cpp:208-227 | The application sends this asynchronous message, calls with this request and this timeout, leaves this reply in the slot, or hands this message over from another thread; what it may not do is left undone. |
| `Channels.Channel.Turn` | src/ipc/PIpcChannel.cpp:161-184 | Every condition of an open socket that is watched is handled, the idle source runs when armed, and the byte of another thread moves all that was queued. |
| `Channels.Channel.SetRemoteIsSuspended` | src/ipc/PIpcChannel.cpp:705-713 | Says whether the peer counts as suspended and changes nothing else. |
| `Channels.Channel.AsyncCallerDispatch` | src/ipc/PIpcChannel.cpp:690-703 | Everything other threads queued enters the outgoing queue in order, and their queue is empty. |
| `Channels.Channel.Run` | src/ipc/PIpcChannel.cpp:161-703 | The whole life of a channel, driven by any sequence of outside events, is a run of the machine that takes these events in order, all of them, and acts without one only when none is left; so they decide it. |
| `Channels.Channel.constructor` | src/ipc/PIpcChannel.cpp:43-72 | A fresh channel is the machine's start. |
| `Channels.Channel.Guarantees` | src/ipc/PIpcChannel.cpp:161-703 | At any time the object has received the peer's messages in order, given the asynchronous ones and the requests to the listener, each in order, put on the wire the frames of what was queued, and has neither stalled output nor deferred messages without a dispatcher. |
| `Scripts.ScriptDecides` | src/ipc/PIpcChannel.cpp:161-703 | What happens outside decides all a channel does: two lives on the same stream and the same answers, wake-ups and actions of the application, both back in the main loop, are the same step by step. |
| `Scripts.OneStep` | src/ipc/PIpcChannel.cpp:161-703 | In the same situation and given the same input there is exactly one next step. |
| `Scripts.LostOnlyByOutside` | src/ipc/PIpcChannel.cpp:334-362 | An open socket stays open through any run unless send or recv failed, the peer hung up, or nothing more happened while a call was waiting. |
| `Scripts.AnswerGiven` | src/ipc/PIpcChannel.cpp:604-621 | A listener that replies once and returns gives that reply, marked and with the id of the request, as the answer; one that returns at once gives an error with that id. |
| `EndpointEffects.CallAnswered` | src/ipc/PIpcChannel.cpp:281-305 | What the nested loop accepted answers the request it was started for, however much was served meanwhile. |
| `ChannelBuffers.PeerBytesAreAcceptable` | src/ipc/PIpcChannel.cpp:530-559 | The bytes of a peer's stream up to the end of the segment being read continue a well-formed frame. |
| `Messages.OrMask` | src/ipc/PIpcMessage.h:150-158 | Setting a flag sets that flag and no other. |
| `Messages.Mark` | src/ipc/PIpcMessage.h:34-60 | Setting a flag changes neither the id nor any other flag, and nothing at all without a header. |
| `Messages.Unmark` | src/ipc/PIpcMessage.h:65-73 | Clearing a flag, as set_unblock(false) does, changes neither the id nor any other flag. |
| `Messages.WithId` | src/ipc/PIpcMessage.h:107-113 | After set_message_id the id is the one given and every flag is as before. |
| `Messages.NewMessage` | src/ipc/PIpcMessage.cpp:32-54 | A new message has the id drawn, no flags, and the aligned size. |
| `MessageObjects.Message.ForReading` | src/ipc/PIpcMessage.cpp:19-30 | A message about to be received is zeroed, its cursor behind the header if there is room for one. |
| `MessageObjects.Message.New` | src/ipc/PIpcMessage.cpp:32-54 | The object built in place is the image of a new message with the next id. |
| `MessageObjects.Message.SetFlag` | src/ipc/PIpcMessage.h:34-60 | In place, the flag setters are Mark. |
| `MessageObjects.Message.SetUnblock` | src/ipc/PIpcMessage.h:65-73 | In place, set_unblock sets or clears its one flag. |
| `MessageObjects.Message.SetMessageId` | src/ipc/PIpcMessage.h:111-113 | In place, set_message_id is WithId. |
| `MessageObjects.NewWithParameters` | src/ipc/PIpcMessageUtils.h:446-449 | The constructors with parameters build the image of a message sized for and filled with them: fit to send, of its kind, for the routing and of the type given, with the next id; its receiver reads the parameters back if they are symmetric. |
| `MessageObjects.Dispatch` | src/ipc/PIpcMessageUtils.h:570-592 | The dispatcher answers readable parameters with the reply image of what the handler produced, unreadable ones with an error, for the routing of the request either way, and leaves the request as it was. |
| `MessageIds.DistinctWithinPeriod` | src/ipc/PIpcMessage.cpp:41-50 | Ids fewer than 2^31 - 1 draws apart are equal only if they are the same draw, across the wrap. |
| `MessageIds.AssignedInOrder` | src/ipc/PIpcMessage.cpp:41-50 | However threads interleave inside the constructor, the k-th id given is the k-th of the cycle and none is given twice or skipped. |
| `MessageIds.IdsAreUsable` | src/ipc/PIpcMessage.cpp:41-50 | Ids are never zero, which means "no call", and repeat only 2^31 - 1 draws apart or more. |
| `MessageObjects.IdCounter.Draw` | src/ipc/PIpcMessage.cpp:43-48 | The in-place counter gives the next id of the cycle. |
| `Pickles.ChecksAgree` | src/base/pickle.h:125-129 | For every int32_t length the unaligned 32-bit check of writeBytes and the aligned check of hasRoomFor agree if and only if the length is not negative or reaches back before the buffer; any other negative length passes the first. |
| `Pickles.Pickle.WriteBytes` | src/base/pickle.cpp:148-157 | For every int32_t length: stores and refuses as PutBytes says, and goes on to memcpy with a negative length exactly when that passes the check. |
| `Pickles.Pickle.WriteString` | src/base/pickle.cpp:159-165 | For every string: length and text go in as PutString says, with the size cast to int32_t; a length whose text does not fit stays. |
| `Pickles.PutBytes` | src/base/pickle.cpp:148-157 | A write succeeds exactly when its aligned length fits, moves the cursor by that length, and keeps it aligned and inside. |
| `Pickles.TakeBytes` | src/base/pickle.cpp:122-131 | A read succeeds exactly when its aligned length fits; the bytes stay, the cursor stays aligned and inside. |
| `Pickles.Pickle.constructor` | src/base/pickle.cpp:18-26 | A zeroed buffer of the aligned capacity with the cursor at its start. |
| `Pickles.Pickle.UpdateIter` | src/base/pickle.h:144-146 | The cursor moves by the aligned length. |
| `Pickles.Pickle.ReadBytes` | src/base/pickle.cpp:122-131 | In place, the fixed-size reads are TakeBytes. |
| `Pickles.Pickle.ReadLength` | src/base/pickle.cpp:141-146 | A negative length is refused after the cursor has moved past it. |
| `Pickles.Pickle.ReadString` | src/base/pickle.cpp:108-120 | In place, readString is TakeString. |
| `Params.LengthIsWireLength` | src/base/pickle.h:95-121 | ParamLength is the length of the wire form modulo 2^32, for every nesting of scalars, strings, pairs and tuples. |
| `Params.EncodingAligned` | src/base/pickle.h:95-121 | Every wire form is a multiple of four bytes. |
| `Params.PutWritesEncoding` | src/ipc/PIpcMessageUtils.h:209-433 | With room for the wire form every write succeeds and leaves exactly that form, the cursor behind it. |
| `Params.PutKeepsFront` | src/ipc/PIpcMessageUtils.h:209-433 | Writing parameters, whether they fit or not, leaves everything in front of the cursor as it was. |
| `Params.GetReadsForm` | src/ipc/PIpcMessageUtils.h:209-433 | From the form a reader expects every value is read back and the cursor ends behind it. |
| `Params.FormLikeEncoding` | src/ipc/PIpcMessageUtils.h:400-433 | Written form and read form differ only in the order of their words. |
| `Params.ReadIsTight` | src/base/pickle.cpp:33-131 | On arbitrary bytes, the read form of the value read is the bytes read up to padding and truth values, and is those bytes if its words add up to theirs. |
| `Params.RoundTrip` | src/ipc/PIpcMessageUtils.h:400-433 | For every value: what was written is read back as it was, with the cursor behind it, if and only if its written and read forms agree; without 8-tuples they always do. |
| `Params.EightIsSymmetricIff` | src/ipc/PIpcMessageUtils.h:410-421 | An 8-tuple survives exactly when the wire forms of its last two fields commute. |
| `Params.LastTwoComeBackExchanged` | src/ipc/PIpcMessageUtils.h:420-421 | Of an 8-tuple whose last two fields have one type these two come back exchanged. |
| `Params.CursorStaysInBounds` | src/base/pickle.h:125-146 | Under any sequence of writes and reads, failed ones included, on any bytes, the cursor only moves forward, stays aligned and inside, and reads change nothing. |
| `Params.WriteParam` | src/ipc/PIpcMessageUtils.h:209-433 | The in-place writers are Put. |
| `Params.ReadParam` | src/ipc/PIpcMessageUtils.h:209-433 | The in-place readers are Get, cursor included when they fail. |
| `TypedMessages.ExactSizing` | src/ipc/PIpcMessageUtils.h:446-449 | A message sized by ParamLength takes every write and ends exactly full if and only if the 32-bit measure did not wrap. |
| `TypedMessages.RequestCarries` | src/ipc/PIpcMessageUtils.h:562-568 | A typed request is a well-formed request with its id that carries its arguments. |
| `TypedMessages.AsyncCarries` | src/ipc/PIpcMessageUtils.h:446-449 | An asynchronous message with parameters is well formed, neither request nor answer, has its id and carries its parameters. |
| `TypedMessages.BuiltMessageIsRead` | src/ipc/PIpcMessageUtils.h:446-455 | What the constructors build for an int32_t routing and a 16-bit type is what the receiver reads: kind, routing, type, id, and the parameters if they are symmetric. |
| `TypedMessages.ImagesAreFor` | src/ipc/PIpcMessage.h:95-101 | Requests, replies and asynchronous messages read as for the routing and of the type they were built with, even when the parameters did not fit. |
| `TypedMessages.HeaderEditsKeepAddress` | src/ipc/PIpcMessage.h:34-113 | Setting or clearing flags and changing the id keep routing and type. |
| `TypedMessages.ReplyCarries` | src/ipc/PIpcMessageUtils.h:577-582 | A dispatcher's reply is well formed, no error, and carries what the handler produced. |
| `TypedMessages.HeaderEditsKeepParameters` | src/ipc/PIpcChannel.cpp:247 | Flags and ids set on the way do not touch the parameters. |
| `TypedMessages.CarriedIsRead` | src/ipc/PIpcMessageUtils.h:451-455 | Reading a message that carries a symmetric value gives the value and exhausts the message. |
| `TypedMessages.RequestHasType` | src/ipc/PIpcMessageUtils.h:562-568 | A typed request carries the type it was built with, and marking it as a request keeps it. |
| `Calls.TypedCallIsAnsweredForItsArguments` | src/ipc/PIpcChannel.h:61-71 | A typed call that returns a reply hands over exactly what the dispatcher produced for this call, and that dispatcher was given a request of this type with exactly the arguments of the caller. |
| `Variables.StoresWhatIsRead` | src/ipc/PIpcMessageUtils.h:209-433 | Reading into the variables of the caller succeeds exactly when the value can be read, and then they hold it. |
| `Variables.FieldsUpToFailure` | src/ipc/PIpcMessageUtils.h:209-433 | Of a row of variables those before the first failing read are set to what was read and those behind it keep what they held; none fails exactly when the whole row can be read. |
| `Variables.ReadableReplySetsAll` | src/ipc/PIpcChannel.h:66 | A readable reply sets every variable to what was sent. |
| `Variables.UnreadableReplySetsSome` | src/ipc/PIpcChannel.h:66 | An unreadable reply sets the fields in front of the first failing read, leaves those behind it, and leaves the failing one if it is a scalar. |
| `TypedCalls.SendTyped` | src/ipc/PIpcChannel.h:61-71 | The typed call queues the message of the caller with its timeout. It returns true if and only if the untyped one does, readable reply or not; the variables then hold what reading the reply into them leaves, and are untouched otherwise. |
| `TypedCalls.SuspendingRequestCarries` | src/ipc/PIpcChannel.h:78 | A request marked to suspend carries what it carried, for the same routing, of the same type and with the same id. |
| `TypedCalls.SendTypedSuspend` | src/ipc/PIpcChannel.h:74-87 | The same for a request to suspend: what is queued asks for it and keeps the id and the parameters of the message given; afterwards the peer counts as suspended whatever came back. |
| `AsyncCaller.RunInv` | src/ipc/PIpcAsyncCaller.cpp:54-74 | Every interleaving of any number of sending threads with the channel's thread keeps mutual exclusion, wake-ups and per-thread order. |
| `AsyncCaller.WakeStep` | src/ipc/PIpcChannel.cpp:220-227 | No lost wake-up: a non-empty queue has a byte in the pipe, a thread between push and write, or the receiver between read and the end of its drain. |
| `AsyncCaller.LockStep` | src/ipc/PIpcChannel.cpp:222-224 | Each mutex is held by the one thread between its lock and its unlock. |
| `AsyncCaller.OrderStep` | src/ipc/PIpcChannel.cpp:690-703 | What each thread asked to send is, in its order, what left, what waits and what it holds. |
| `AsyncCaller.LeavesInOrder` | src/ipc/PIpcChannel.cpp:208-227 | What enters the outgoing queue from one thread is a prefix of what it asked for, and all of it for the channel's own thread. |
| `AsyncCaller.QuietMeansSent` | src/ipc/PIpcChannel.cpp:690-703 | Once the pipe is empty, no thread is on its way and the receiver is not draining, everything asked for has left. |
| `AsyncCaller.QueuedMoves` | src/ipc/PIpcAsyncCaller.cpp:54-74 | A queued message is never stuck, whatever the capacity of the pipe: some thread can step without a new request; while the channel thread is in a handler or a nested loop and the pipe holds a byte, that step is its return. |
| `AsyncCaller.StepLess` | src/ipc/PIpcAsyncCaller.cpp:54-74 | Every step without a new request leaves less to do, so that every schedule of them ends. |
| `AsyncCaller.UnquietMoves` | src/ipc/PIpcAsyncCaller.cpp:54-74 | While anything is on its way some thread can move without a new request. |
| `AsyncCaller.EverythingLeaves` | src/ipc/PIpcChannel.cpp:690-703 | Every run can go on, without new requests, to where all that any thread asked for has left in its order. |
| `SharedBuffer.RunInv` | src/ipc/PIpcBuffer.cpp:312-383 | Over all runs of many handles, deaths included, a handle counts exactly while its thread owns a consistent mutex, by as much as it has locked and not unlocked, and the mutex is never unrecoverable. |
| `SharedBuffer.AtMostOneCounts` | src/ipc/PIpcBuffer.cpp:312-360 | At most one handle has a positive count, and none while another repairs. |
| `SharedBuffer.OwnsUntilBalanced` | src/ipc/PIpcBuffer.cpp:362-383 | A live thread owns the mutex exactly until it has unlocked as often as it locked. |
| `SharedBuffer.DeadOwnersLockIsAcquirable` | src/ipc/PIpcBuffer.cpp:321-323 | When the owner dies, even between taking over and repairing, every other handle can take the lock again. |
| `SharedBuffer.GrantedIffNotOwned` | src/ipc/PIpcBuffer.cpp:312-337 | A lock is granted if and only if no other thread owns it. |
| `SharedBuffer.DropReleasesOnce` | src/ipc/PIpcBuffer.cpp:172-176 | Destroying a handle frees what it holds if and only if it holds it once. |
| `SharedBuffer.LeakedUntilDeath` | src/ipc/PIpcBuffer.cpp:172-176 | Otherwise no step but the death of the thread takes the lock from it. |
| `SharedBuffer.Handle.TryLock` | src/ipc/PIpcBuffer.cpp:312-337 | Succeeds exactly when the handle counts already or the mutex is free or orphaned, and then owns it; otherwise nothing changes. |
| `SharedBuffer.Handle.Lock` | src/ipc/PIpcBuffer.cpp:339-360 | The same as trylock, except that it waits where trylock fails because another thread owns the mutex. |
| `SharedBuffer.Handle.Unlock` | src/ipc/PIpcBuffer.cpp:362-383 | Fails exactly at zero; frees the mutex exactly at one. |
| `SharedBuffer.Handle.Destroy` | src/ipc/PIpcBuffer.cpp:165-182 | Frees what is held if and only if it is held once. |
| `SharedBuffer.ClearLowRounds` | src/ipc/PIpcBuffer.cpp:116 | Masking with the complement of page - 1 rounds down to a page, for every power of two. |
| `SharedBuffer.UserRegionFits` | src/ipc/PIpcBuffer.cpp:114-116 | Create and attach compute the same page-aligned distance in every mapping; the region lies behind the header and inside the segment if and only if the size of the header lies between that of the handle object, rounded down to a page, and one page more. |

## Left out

- Real sockets: errno values, a recv of zero bytes, fcntl and the GLib main loops and reference counts are replaced by the answers of send and recv and by explicit wake-ups.
- src/ipc/PIpcSocketSource.cpp: only the watched condition is kept.
- src/ipc/PIpcServer.cpp and src/ipc/PIpcClient.cpp: connection plumbing and a fixed-size handshake.
- src/ipc/PIpcMutex.cpp: a non-recursive subset of the buffer's lock.
- src/base/tuple.h and src/ipc/PIpcMessageMacros.h: boilerplate per arity; a tuple is a list of fields and a handler a function.
- Memory ownership, destructors of channels and messages, and failing allocation.
- Suspension: SIGSTOP after a suspend request.
- The guards against the wrong thread in setListener and listener, and a channel without a listener.
- What the listener does in onDisconnected; the report itself is modelled. The loss may be found and reported more than once, as in the code.
- The id drawn by a disconnect marker and by an error reply: it is overwritten or never read.
- Shared-memory keys, mlock, the second mutex (the same code), and the keys of transition and resized buffers.
- Two handles of one thread on one segment: handles are numbered by the threads that use them.
- Doubles are eight opaque bytes, and characters of strings are bytes.
- Interrupted writes to the wake-up pipe; a full pipe blocks its writer.
- Real time and fairness: every schedule of steps that count is proved to end, not how long it takes or that the operating system runs it.
- TypedCalls.SendTyped: the message object is its bytes, and a handler that changes the caller's variables during the call is not modelled.
- Channels.Channel.SendSyncMessage: the outgoing queue and the counters of a frame are values, so sharing of message objects between queues is not modelled.
- Channels.Channel.RunNestedLoop: when the script of outside events ends inside a nested loop the connection is taken to hang up, so that the method ends.
- SharedBuffer.Handle.Lock: a call that blocks is modelled as one that ends with Waits and has no effect; in the machine it is a step that cannot be taken.
- Pickles.Pickle.WriteBytes: what memcpy does with a negative length is undefined; the model stops there.
