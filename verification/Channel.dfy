/**
 The channel object as its methods run it: fields, buffers, read and write
 loops, nested loop and handlers, calling each other as the program does.
 Every method is proved to take its object through a run of the endpoint
 machine, so what holds of all runs of the machine holds of the object, and to do
 so as the script says, which decides every step.
 */
module Channels {
  import opened Bytes
  import opened ChannelBuffers
  import DeferredMessages
  import opened Endpoint
  import opened EndpointEffects
  import opened EndpointInvariants
  import opened Framing
  import opened Messages
  import opened Options
  import opened Outcomes
  import opened Scripts

  class Channel {
    const inbound: seq<byte>                 // every byte the peer will send
    ghost const peer: seq<Msg>               // the messages they start
    var script: seq<Input>
    var taken: nat                           // bytes of `inbound` received
    var wire: seq<byte>                      // bytes given to send

    var sock: Socket                         // the socket and its sources
    var call: Call                           // the synchronous call in progress
    var remoteIsSuspended: bool
    var replyForIncoming: Option<Msg>
    var outgoing: seq<Msg>
    var outLengthHandled: nat
    var outPayloadHandled: nat
    var delivered: seq<Msg>                  // asynchronous messages given to the listener
    var served: seq<Msg>                     // requests given to the listener
    var otherThreadOutgoing: seq<Msg>
    var incomingAsync: seq<Msg>
    var dispatcher: Dispatcher
    const lengthBytes: array<byte>           // m_incomingMessagePayloadLength
    var payload: array<byte>                 // of m_incomingMessage
    var inLengthHandled: nat
    var inPayloadHandled: nat

    ghost var m: State
    ghost var trace: seq<Event>
    ghost var log: seq<Entry>                // what the trace was made of
    ghost var held: seq<Input>               // an input taken for the next step

    /** The object has come through the run `trace` of the machine, as `log` tells. */
    ghost predicate Ran()
      reads `m, `trace, `log
    {
      && ValidRun(trace) && After(trace) == m && Inv(m)
      && Told(log, inbound) && EnvAfter(log, inbound).s == m
    }

    /** What decides its next step. */
    ghost function World(): Env
      requires Told(log, inbound)
      reads `log
    {
      EnvAfter(log, inbound)
    }

    /** The fields are those of the machine's state, whose queue is `queue`. */
    ghost predicate Matches(queue: seq<Msg>)
      reads `m, `sock, `call, `replyForIncoming, `outgoing, `dispatcher, `wire, `delivered, `otherThreadOutgoing
    {
      && m == State(sock, call, replyForIncoming, outgoing, m.outDone, m.inBuf, queue, dispatcher, m.stack, m.h)
      && m.h.sent == wire && m.h.delivered == delivered && Deferred(otherThreadOutgoing)
    }

    /** The log knows what other threads queued and whether the peer is suspended. */
    ghost predicate Known()
      requires Told(log, inbound)
      reads `log, `otherThreadOutgoing, `remoteIsSuspended
    {
      World().others == otherThreadOutgoing && World().suspended == remoteIsSuspended
    }

    ghost predicate OutMatches()
      reads `m, `sock, `outLengthHandled, `outPayloadHandled
    {
      SendCounters(m.outDone, sock.open, outLengthHandled, outPayloadHandled)
    }

    ghost predicate InMatches()
      reads `m, `sock, `payload, `inLengthHandled, `inPayloadHandled, lengthBytes, payload
    {
      && lengthBytes != payload && lengthBytes.Length == LENGTH_SIZE
      && inLengthHandled <= LENGTH_SIZE && (inLengthHandled < LENGTH_SIZE ==> inPayloadHandled == 0)
      && Arriving(m.inBuf, sock.open, lengthBytes[..], payload[..], inLengthHandled, inPayloadHandled)
    }

    ghost predicate CoreWith(queue: seq<Msg>)
      reads `m, `trace, `log, `otherThreadOutgoing, `remoteIsSuspended, `served, `taken
      reads `sock, `call, `replyForIncoming, `outgoing, `dispatcher, `wire, `delivered
    {
      && Ran() && Known() && served == Select(m.h.completed, Request)
      && taken <= |inbound| && Promised(peer, inbound, taken, m.h.got) && Matches(queue)
    }

    ghost predicate Core()
      reads `m, `trace, `log, `otherThreadOutgoing, `remoteIsSuspended, `served, `taken
      reads `sock, `call, `replyForIncoming, `outgoing, `dispatcher, `wire, `delivered, `incomingAsync
    {
      CoreWith(incomingAsync)
    }

    /** The object is sound; an input may have been taken for the next step. */
    ghost predicate Sound()
      reads `m, `trace, `log, `otherThreadOutgoing, `remoteIsSuspended, `served, `taken
      reads `sock, `call, `replyForIncoming, `outgoing, `dispatcher, `wire, `delivered, `incomingAsync
      reads `outLengthHandled, `outPayloadHandled, `payload, `inLengthHandled, `inPayloadHandled, lengthBytes, payload
    {
      Core() && OutMatches() && InMatches()
    }

    ghost predicate Valid()
      reads `m, `trace, `log, `otherThreadOutgoing, `remoteIsSuspended, `served, `taken
      reads `sock, `call, `replyForIncoming, `outgoing, `dispatcher, `wire, `delivered, `incomingAsync, `held
      reads `outLengthHandled, `outPayloadHandled, `payload, `inLengthHandled, `inPayloadHandled, lengthBytes, payload
    {
      Sound() && held == []
    }

    // ---- what a step leaves alone --------------------------------------------------

    /** The buffers hold what they held as long as nothing is read and the socket stays. */
    twostate lemma InKept()
      requires old(InMatches()) && m.inBuf == old(m.inBuf) && (sock.open ==> old(sock.open))
      requires payload == old(payload) && unchanged(`inLengthHandled) && unchanged(`inPayloadHandled) && unchanged(lengthBytes) && unchanged(payload)
      ensures InMatches()
    {
      assert lengthBytes[..] == old(lengthBytes[..]) && payload[..] == old(payload[..]);
    }

    twostate lemma OutKept()
      requires old(OutMatches()) && m.outDone == old(m.outDone) && (sock.open ==> old(sock.open))
      requires unchanged(`outLengthHandled) && unchanged(`outPayloadHandled)
      ensures OutMatches()
    {}

    twostate lemma KnownStill()
      requires old(Ran() && Known()) && Ran()
      requires World().others == old(World().others) && World().suspended == old(World().suspended)
      requires unchanged(`otherThreadOutgoing) && unchanged(`remoteIsSuspended)
      ensures Known()
    {
      hide Told, EnvAfter, Inv, ValidRun, After;
    }

    /** The fields are the machine's. */
    lemma Fields()
      requires Core()
      ensures Ran() && sock == m.sock && call == m.call && outgoing == m.outgoing && incomingAsync == m.queue
      ensures dispatcher == m.dispatcher && replyForIncoming == m.slot
    {
      hide Ran, Known, Select, Promised, Deferred;
    }

    lemma HasTaken()
      requires Core()
      ensures |m.h.got| == taken <= |inbound|
    {
      hide Ran, Known, Select, Promised, Deferred, Matches;
      TakenSoFar(peer, inbound, taken, m.h.got);
    }

    ghost function Now(): Moment
      reads `m, `trace, `log, `held, `script
    {
      Moment(m, trace, log, held + script)
    }

    /** Step `e` is the one that is due: no other can follow, and none needs another input. */
    ghost predicate Due(e: Event)
      requires Told(log, inbound)
      reads `m, `log, `held, `script
    {
      && |held| <= 1 && (Silent(m).Some? ==> held == []) && (Silent(m).None? && held == [] ==> script == [])
      && Fits(World(), inbound, EntryFor(m, held, e))
    }

    lemma DueSilently(e: Event)
      requires Ran() && held == [] && Silent(m) == Some(e)
      ensures Due(e)
    {
      hide Silent, React, Inv, ValidRun, After, Told, EnvAfter;
    }

    /** Input `next` was taken, if there was one, and leads to `e`. */
    lemma DueNext(next: Option<Input>, e: Event)
      requires Ran() && held == (if next.Some? then [next.value] else []) && (next.None? ==> script == [])
      requires Silent(m) == None && React(World(), inbound, next) == Then(e)
      ensures Due(e)
    {
      hide Silent, React, Inv, ValidRun, After, Told, EnvAfter;
    }

    /** The step that is due is taken. */
    ghost method Tick(e: Event)
      requires Ran() && Can(m, e) && Due(e)
      modifies `m, `trace, `log, `held
      ensures Ran() && m == Do(old(m), e) && trace == old(trace) + [e] && held == []
      ensures World().others == (if e.Drain? then [] else old(World()).others) && World().suspended == old(World()).suspended
      ensures WentOn(old(Now()), Now())
      ensures e.SendSync? || Later(old(Now()), Now())
      ensures IsSending(e) ==> Flushed(old(Now()), Now())
    {
      hide Can, Do, Inv, Later, Flushed, ValidRun, After, IsSending, Told, EnvAfter, Fits, Silent, WentOn;
      ghost var entry := EntryFor(m, held, e);
      InvStep(m, e);
      RunStep(trace, m, e);
      ToldStep(log, inbound, entry);
      ghost var next := Moment(Do(m, e), trace + [e], log + [entry], script);
      assert [] + script == script;
      SameStory(Now(), entry, next);
      if !e.SendSync? { LaterStep(Now(), entry, next); }
      if IsSending(e) { FlushedStep(Now(), entry, next); }
      m, trace, log, held := next.now, next.trace, next.log, [];
    }

    /** A step that needs no input. */
    ghost method Go(e: Event)
      requires Ran() && Can(m, e) && held == [] && Silent(m) == Some(e)
      modifies `m, `trace, `log, `held
      ensures Ran() && m == Do(old(m), e) && trace == old(trace) + [e] && held == []
      ensures World().others == (if e.Drain? then [] else old(World()).others) && World().suspended == old(World()).suspended
      ensures Later(old(Now()), Now()) || e.SendSync?
      ensures IsSending(e) ==> Flushed(old(Now()), Now())
    {
      hide Can, Do, Inv, Later, Flushed, ValidRun, After, IsSending, Told, EnvAfter, Fits, Silent, WentOn, Due;
      DueSilently(e);
      Tick(e);
    }

    /** An input that leads to no step is noted. */
    ghost method Note(i: Input, reaction: Reaction)
      requires Ran() && held == [i] && Silent(m) == None && React(World(), inbound, Some(i)) == reaction && !reaction.Then?
      modifies `log, `held
      ensures Ran() && held == [] && Later(old(Now()), Now()) && Flushed(old(Now()), Now())
      ensures World().others == old(World()).others + (if reaction.Queue? then [reaction.msg] else [])
      ensures World().suspended == if reaction.Suspend? then reaction.val else old(World()).suspended
    {
      hide Can, Do, Inv, Later, Flushed, ValidRun, After, Told, EnvAfter, Silent, React, WentOn;
      ghost var entry := Took(i, reaction);
      ToldStep(log, inbound, entry);
      ghost var next := Moment(m, trace, log + [entry], script);
      assert [] + script == script;
      LaterNote(Now(), entry, next);
      log, held := next.log, [];
    }

    /** What is said of the peer beside the script is noted. */
    ghost method NoteBeside(val: bool)
      requires Ran()
      modifies `log
      ensures Ran() && log == old(log) + [Suspends(val)]
      ensures World().others == old(World()).others && World().suspended == val
    {
      hide Inv, ValidRun, After, Told, EnvAfter;
      ToldStep(log, inbound, Suspends(val));
      log := log + [Suspends(val)];
    }

    /** An input that changes nothing. */
    ghost method Ignore(i: Input)
      requires Core() && held == [i] && Silent(m) == None && React(World(), inbound, Some(i)) == Nothing
      modifies `log, `held
      ensures Core() && held == [] && Later(old(Now()), Now()) && Flushed(old(Now()), Now())
    {
      hide Inv, ValidRun, After, Later, Flushed, Promised, Deferred, Told, EnvAfter, Silent, React, Due, Select, WentOn;
      Note(i, Nothing);
    }

    // ---- the socket ------------------------------------------------------------

    /** The next input is taken. */
    method Take() returns (next: Option<Input>)
      requires held == []
      modifies `script, `held
      ensures next == First(old(script)) && Now() == old(Now())
      ensures held == (if next.Some? then [next.value] else []) && script == if next.Some? then old(script)[1..] else []
    {
      if script == [] { return None; }
      next := Some(script[0]);
      held := [script[0]];
      script := script[1..];
    }

    /** The answer of send or recv when at most `limit` bytes can move; a lost socket fails without one. */
    method SystemCall(limit: nat) returns (r: Input)
      requires held == []
      modifies `script, `held
      ensures r == if sock.open then SocketAnswer(First(old(script)), limit) else Failed
      ensures if sock.open && old(script) != [] then held == [old(script)[0]] && script == old(script)[1..]
              else held == [] && script == old(script)
      ensures Now() == old(Now())
      ensures r.Failed? ==> !sock.open || held == [Failed]
      ensures r.Interrupted? ==> sock.open && held == [Interrupted]
      ensures r.Count? ==> sock.open && 0 < r.n <= limit && |held| == 1 && Proceeds(held[0])
      ensures r.WouldBlock? ==> sock.open && (held != [] ==> !held[0].Failed? && !held[0].Interrupted?)
      ensures r.Failed? || r.Interrupted? || r.Count? || r.WouldBlock?
    {
      if !sock.open { return Failed; }
      var next := Take();
      r := SocketAnswer(next, limit);
    }

    /** `n` bytes of the front frame went out. */
    method Wrote(bytes: seq<byte>)
      requires Core() && MaySend(m) && 0 < |bytes| && m.outDone + |bytes| <= |Frame(m.outgoing[0])|
      requires bytes == Frame(m.outgoing[0])[m.outDone..m.outDone + |bytes|] && Due(Sent(|bytes|))
      modifies `wire, `m, `trace, `log, `held
      ensures Core() && held == [] && Flushed(old(Now()), Now()) && m.dispatcher == old(m.dispatcher)
      ensures m == old(m).(outDone := old(m).outDone + |bytes|, h := m.h)
    {
      hide Can, Do, Inv, ValidRun, After, Later, Flushed, Promised, Deferred, Arriving, Marked, Frame, Missing;
      hide Told, EnvAfter, Silent, React, Due, Select, WentOn;
      OnSent(m, |bytes|);
      wire := wire + bytes;
      Tick(Sent(|bytes|));
    }

    /** send would block: watch OUT on the source of the loop in charge. */
    method Blocked()
      requires Core() && SendUnfinished(m) && Due(SendAgain)
      modifies `sock, `m, `trace, `log, `held
      ensures Core() && held == [] && Flushed(old(Now()), Now())
      ensures m == old(m).(stack := old(m).stack.below, sock := m.sock) && sock.open && sock.blocked
    {
      hide Can, Do, Inv, ValidRun, After, Later, Flushed, Promised, Deferred, Arriving, Marked, Frame, Missing;
      hide Told, EnvAfter, Silent, React, Due, Select, WentOn;
      OnSendAgain(m);
      sock := if call.inNested then sock.(blocked := true, nestedOut := sock.nestedSource)
              else sock.(blocked := true, mainOut := true);
      Tick(SendAgain);
    }

    /** What follows each answer of send. */
    lemma SendDue(next: Option<Input>, r: Input)
      requires Ran() && SendUnfinished(m) && held == (if next.Some? then [next.value] else []) && (next.None? ==> script == [])
      requires r == SocketAnswer(next, SegmentLeft(m))
      ensures match r
        case Count(n) => Due(Sent(n))
        case WouldBlock => Due(SendAgain)
        case Failed => Due(SendErr)
        case _ => next.Some? && Silent(m) == None && React(World(), inbound, next) == Nothing
    {
      SilentSending(m);
      SendReacts(World(), inbound, next);
      hide Silent, React, Inv, ValidRun, After, Told, EnvAfter, Due, SegmentLeft, Frame;
      match r {
        case Count(n) => DueNext(next, Sent(n));
        case WouldBlock => DueNext(next, SendAgain);
        case Failed => DueNext(next, SendErr);
        case _ =>
      }
    }

    /** One send, after those of the script `before` that went on. */
    method Send(limit: nat, ghost before: seq<Input>) returns (r: Input)
      requires Core() && held == [] && SendUnfinished(m) && limit == SegmentLeft(m) && Used(before, script, false)
      modifies `script, `held
      ensures Core() && Now() == old(Now()) && |script| <= |old(script)|
      ensures match r
        case Count(n) => 0 < n <= limit && Due(Sent(n)) && |script| < |old(script)| && Used(before, script, false)
        case Interrupted => held == [Interrupted] && Silent(m) == None && React(World(), inbound, Some(r)) == Nothing
                            && |script| < |old(script)| && Used(before, script, false)
        case WouldBlock => Due(SendAgain) && Used(before, script, true) && !FailedLast(before, script)
        case Failed => held == [Failed] && Due(SendErr) && Used(before, script, true) && FailedLast(before, script)
        case _ => false
    {
      hide Can, Do, Inv, ValidRun, After, Later, Flushed, Promised, Deferred, Arriving, Marked, Frame, Missing;
      hide Told, EnvAfter, Silent, React, Due, Select, WentOn;
      hide CoreWith, SegmentLeft, SocketAnswer, Used, FailedLast;
      Fields();
      UsedUp(before, script);
      if script != [] { UsedMore(before, script); }
      ghost var next := First(script);
      r := SystemCall(limit);
      SendDue(next, r);
    }

    /**
     Sends `buffer`, the rest of a part; the result is how many bytes went, or -1
     after an error.  Interruptions are tried again, EAGAIN blocks the socket, and
     nothing but a failure of send is an error.
     */
    method WriteToSocket(buffer: seq<byte>) returns (index: int)
      requires Core() && held == [] && MaySend(m) && m.outDone + |buffer| <= |Frame(m.outgoing[0])|
      requires buffer == Frame(m.outgoing[0])[m.outDone..m.outDone + |buffer|] && |buffer| == SegmentLeft(m)
      modifies `script, `wire, `sock, `m, `trace, `log, `held
      ensures Core() && Flushed(old(Now()), Now()) && |script| <= |old(script)|
      ensures -1 <= index <= |buffer| && Used(old(script), script, index < |buffer|)
      ensures index == |buffer| ==> m == old(m).(outDone := old(m).outDone + index, h := m.h)
      ensures 0 <= index < |buffer| ==>
                m == old(m).(outDone := old(m).outDone + index, h := m.h, stack := old(m).stack.below, sock := m.sock) && sock.open && sock.blocked
      ensures index >= 0 ==> held == []
      ensures index < 0 ==> held == [Failed] && m == old(m).(outDone := m.outDone, h := m.h) && SendUnfinished(m) && Due(SendErr)
      ensures index < 0 <==> FailedLast(old(script), script)
    {
      hide Can, Do, Inv, ValidRun, After, Later, Flushed, Promised, Deferred, Arriving, Marked, Frame, Missing;
      hide Told, EnvAfter, Silent, React, Due, Select, WentOn;
      hide CoreWith, SegmentLeft, Used, FailedLast;
      UsedNone(script);
      FlushedSelf(Now());
      index := 0;
      ghost var start := Now();
      while index < |buffer|
        invariant 0 <= index <= |buffer| && |script| <= |old(script)| && held == [] && Used(old(script), script, false)
        invariant Core() && Flushed(start, Now())
        invariant m == start.now.(outDone := start.now.outDone + index, h := m.h)
        decreases |script|, |buffer| - index
      {
        ghost var s := Now();
        Fields();
        SegmentShrinks(start.now, m, index);
        var r := Send(|buffer| - index, old(script));
        match r {
          case Count(n) =>
            SliceOfSlice(Frame(m.outgoing[0]), start.now.outDone, start.now.outDone + |buffer|, index, n);
            Wrote(buffer[index..index + n]);
            FlushedStill(start, s, Now());
            index := index + n;
          case Interrupted =>
            Ignore(Interrupted);
            FlushedStill(start, s, Now());
          case WouldBlock =>
            Blocked();
            FlushedStill(start, s, Now());
            return;
          case _ =>
            index := -1;
            return;
        }
      }
      UsedUp(old(script), script);
    }

    /** The connection is lost; `e` is the step that finds out, after which the thread goes on at `k`. */
    method Disconnected(ghost e: Event, ghost k: Stack)
      requires Core() && Can(m, e) && Due(e) && !e.SendSync? && !e.Drain? && Do(m, e) == Disconnect(m, k)
      modifies `sock, `call, `incomingAsync, `dispatcher, `m, `trace, `log, `held
      ensures Core() && held == [] && Later(old(Now()), Now()) && m == Disconnect(old(m), k) && trace == old(trace) + [e]
    {
      hide Can, Do, Inv, ValidRun, After, Later, Flushed, Promised, Deferred, Arriving, Marked, Frame, Missing;
      hide Told, EnvAfter, Silent, React, Due, Select, WentOn;
      hide Ran;
      Close();
      Tick(e);
    }

    /** Socket and source go, the nested loop is told to quit, and the marker is queued with a source to report it. */
    method Close()
      modifies `sock, `call, `incomingAsync, `dispatcher
      ensures sock == old(sock).(open := false, mainOut := false) && call == old(call).(quit := old(call).quit || old(call).inNested)
      ensures incomingAsync == Marked(old(incomingAsync))
      ensures dispatcher == if old(dispatcher).NoSource? then Armed else old(dispatcher)
    {
      sock := sock.(open := false, mainOut := false);
      call := call.(quit := call.quit || call.inNested);
      incomingAsync := Marked(incomingAsync);
      dispatcher := if dispatcher.NoSource? then Armed else dispatcher;
    }

    /** Writes a part of the front frame; an error loses the connection. */
    method SendPart(part: seq<byte>) returns (written: int)
      requires Valid() && MaySend(m) && m.outDone + |part| <= |Frame(m.outgoing[0])|
      requires part == Frame(m.outgoing[0])[m.outDone..m.outDone + |part|] && |part| == SegmentLeft(m)
      modifies `script, `wire, `sock, `call, `incomingAsync, `dispatcher
      modifies `m, `trace, `log, `held
      ensures Core() && InMatches() && held == [] && Flushed(old(Now()), Now()) && |script| <= |old(script)| && -1 <= written <= |part|
      ensures written < |part| ==> !sock.open || sock.blocked
      ensures written < 0 ==> Valid() && m.stack == old(m.stack).below
      ensures written >= 0 ==> m.outDone == old(m.outDone) + written && m.inBuf == old(m.inBuf) && sock.open
      ensures m.stack == if written == |part| then old(m.stack) else old(m.stack).below
      ensures written == |part| ==> !sock.blocked && outgoing == old(outgoing)
    {
      hide Can, Do, Inv, ValidRun, After, Later, Flushed, Promised, Deferred, Arriving, Marked, Frame, Missing;
      hide Told, EnvAfter, Silent, React, Due, Select, WentOn;
      written := WriteToSocket(part);
      if written < 0 {
        ghost var s := Now();
        OnSendErr(m);
        ArrivingClosed(m.inBuf, lengthBytes[..], payload[..], inLengthHandled, inPayloadHandled);
        Disconnected(SendErr, m.stack.below);
        FlushedWhen(s, Now());
        FlushedStill(old(Now()), s, Now());
      }
    }

    /** The front message went in full. */
    method PopFront()
      requires Core() && InMatches() && held == [] && MaySend(m) && m.outDone == |Frame(m.outgoing[0])|
      modifies `outgoing, `outLengthHandled, `outPayloadHandled, `m, `trace, `log, `held
      ensures Valid() && Flushed(old(Now()), Now())
      ensures m == old(m).(outgoing := old(m).outgoing[1..], outDone := 0)
    {
      hide Can, Do, Inv, ValidRun, After, Later, Flushed, Promised, Deferred, Arriving, Marked, Frame, Missing;
      hide Told, EnvAfter, Silent, React, Due, Select, WentOn;
      OnFrameDone(m);
      SilentSending(m);
      outLengthHandled, outPayloadHandled := 0, 0;
      outgoing := outgoing[1..];
      Go(FrameDone);
    }

    /** Once the length is out, sends what remains of the payload; true when it went in full. */
    method SendPayload() returns (again: bool)
      requires Valid() && MaySend(m) && outLengthHandled == LENGTH_SIZE
      modifies `script, `wire, `sock, `call, `incomingAsync, `dispatcher
      modifies `outgoing, `outLengthHandled, `outPayloadHandled, `m, `trace, `log, `held
      ensures Valid() && Flushed(old(Now()), Now()) && |script| <= |old(script)|
      ensures if again then m.stack == old(m.stack) && sock.open && !sock.blocked && |outgoing| < |old(outgoing)|
              else m.stack == old(m.stack).below && (!sock.open || sock.blocked || outgoing == [])
    {
      hide Can, Do, Inv, ValidRun, After, Later, Flushed, Promised, Deferred, Arriving, Marked, Frame, Missing;
      hide Told, EnvAfter, Silent, React, Due, Select, WentOn;
      FrontFits(m);
      var rest := outgoing[0][outPayloadHandled..];
      PayloadPart(outgoing[0], outPayloadHandled);
      var written := SendPart(rest);
      if written < 0 { return false; }
      outPayloadHandled := outPayloadHandled + written;
      if written < |rest| { return false; }
      ghost var s := Now();
      PopFront();
      FlushedStill(old(Now()), s, Now());
      return true;
    }

    /** Sends what remains of the length; true when it went in full. */
    method SendLength() returns (ok: bool)
      requires Valid() && MaySend(m) && outLengthHandled < LENGTH_SIZE
      modifies `script, `wire, `sock, `call, `incomingAsync, `dispatcher, `outLengthHandled, `m, `trace, `log, `held
      ensures Valid() && Flushed(old(Now()), Now()) && |script| <= |old(script)|
      ensures if ok then MaySend(m) && m.stack == old(m.stack) && outLengthHandled == LENGTH_SIZE && outgoing == old(outgoing)
              else m.stack == old(m.stack).below && (!sock.open || sock.blocked || outgoing == [])
    {
      hide Can, Do, Inv, ValidRun, After, Later, Flushed, Promised, Deferred, Arriving, Marked, Frame, Missing;
      hide Told, EnvAfter, Silent, React, Due, Select, WentOn;
      hide Le;
      var length := Le(|outgoing[0]|, LENGTH_SIZE)[outLengthHandled..];
      LengthPart(outgoing[0], outLengthHandled);
      var written := SendPart(length);
      if written < 0 { return false; }
      outLengthHandled := outLengthHandled + written;
      ok := written == |length|;
    }

    /** Sends what remains of the front message; true when it went in full. */
    method ProcessOneOutgoingMessage() returns (again: bool)
      requires Valid() && Top(m, Flushing) && sock.open && !sock.blocked
      modifies `script, `wire, `sock, `call, `incomingAsync, `dispatcher
      modifies `outgoing, `outLengthHandled, `outPayloadHandled, `m, `trace, `log, `held
      ensures Valid() && Flushed(old(Now()), Now()) && |script| <= |old(script)|
      ensures if again then m.stack == old(m.stack) && sock.open && !sock.blocked && |outgoing| < |old(outgoing)|
              else m.stack == old(m.stack).below && (!sock.open || sock.blocked || outgoing == [])
    {
      hide Can, Do, Inv, ValidRun, After, Later, Flushed, Promised, Deferred, Arriving, Marked, Frame, Missing;
      hide Told, EnvAfter, Silent, React, Due, Select, WentOn;
      FlushedSelf(Now());
      if outgoing == [] {
        OnFlushEnd(m);
        SilentSending(m);
        Go(FlushEnd);
        return false;
      }
      if outLengthHandled < LENGTH_SIZE {
        var ok := SendLength();
        if !ok { return false; }
      }
      ghost var s := Now();
      again := SendPayload();
      FlushedStill(old(Now()), s, Now());
    }

    method ProcessOutgoingMessages()
      requires Valid() && Top(m, Flushing)
      modifies `script, `wire, `sock, `call, `incomingAsync, `dispatcher
      modifies `outgoing, `outLengthHandled, `outPayloadHandled, `m, `trace, `log, `held
      ensures Valid() && Flushed(old(Now()), Now()) && |script| <= |old(script)| && m.stack == old(m.stack).below
      ensures !sock.open || sock.blocked || outgoing == []
      ensures old(sock.open) ==> sock.open || LossIn(old(log), log)
    {
      hide Can, Do, Inv, ValidRun, After, Later, Flushed, Promised, Deferred, Arriving, Marked, Frame, Missing;
      hide Told, EnvAfter, Silent, React, Due, Select, WentOn;
      FlushedSelf(Now());
      if !sock.open || sock.blocked || outgoing == [] {
        OnFlushEnd(m);
        SilentSending(m);
        Go(FlushEnd);
        return;
      }
      var again := true;
      while again
        invariant Valid() && Flushed(old(Now()), Now()) && |script| <= |old(script)|
        invariant if again then m.stack == old(m.stack) && sock.open && !sock.blocked
                  else m.stack == old(m.stack).below && (!sock.open || sock.blocked || outgoing == [])
        decreases if again then |outgoing| + 1 else 0
      {
        ghost var s := Now();
        again := ProcessOneOutgoingMessage();
        FlushedStill(old(Now()), s, Now());
      }
      FlushedLater(old(Now()), Now());
      LossHasReason(old(Now()));
    }

    // ---- receiving ---------------------------------------------------------------

    /** What recv does to the buffer. */
    method CopyIn(buffer: array<byte>, ghost start: nat, at: nat, n: nat)
      requires taken + n <= |inbound| && start <= at && at + n <= buffer.Length
      modifies buffer
      ensures buffer[..start] == old(buffer[..start])
      ensures buffer[start..at + n] == old(buffer[start..at]) + inbound[taken..taken + n]
    {
      forall i | 0 <= i < n {
        buffer[at + i] := inbound[taken + i];
      }
    }

    /** `n` more bytes of the peer's stream were copied to `buffer` behind those of `start..at`. */
    method Received(buffer: array<byte>, ghost start: nat, at: nat, n: nat, ghost first: Moment)
      requires Core() && ReadUnfinished(m) && sock.open && 0 < n <= Missing(m.inBuf)
      requires taken + n <= |inbound| && start <= at && at + n <= buffer.Length
      requires Later(first, Now()) && m == first.now.(inBuf := first.now.inBuf + buffer[start..at], h := m.h)
      requires Due(Got(inbound[taken..taken + n]))
      modifies `taken, `m, `trace, `log, `held, buffer
      ensures Core() && held == [] && Later(first, Now()) && buffer[..start] == old(buffer[..start])
      ensures m == first.now.(inBuf := first.now.inBuf + buffer[start..at + n], h := m.h)
      ensures n < old(Missing(m.inBuf)) ==> ReadUnfinished(m) && Missing(m.inBuf) == old(Missing(m.inBuf)) - n
    {
      hide Can, Do, Inv, ValidRun, After, Later, Flushed, Promised, Deferred, Arriving, Marked, Frame, Missing;
      hide Told, EnvAfter, Silent, React, Due, Select, WentOn;
      hide Partial, IsWhole, Frames, WellFormed, Grows;
      ghost var data := inbound[taken..taken + n];
      InvReceives(m);
      PeerBytesAreAcceptable(m, peer, inbound, taken, data);
      OnGot(m, data);
      MissingLess(m.inBuf, data);
      CopyIn(buffer, start, at, n);
      assert old(m).inBuf + data == first.now.inBuf + buffer[start..at + n];
      taken := taken + n;
      Tick(Got(data));
      LaterStill(first, old(Now()), Now());
    }

    /** And of recv. */
    lemma ReadDue(next: Option<Input>, r: Input)
      requires Ran() && ReadUnfinished(m) && m.sock.open && |m.h.got| == taken <= |inbound|
      requires held == (if next.Some? then [next.value] else []) && (next.None? ==> script == [])
      requires r == SocketAnswer(next, ReadLimit(m, inbound))
      ensures match r
        case Count(n) => taken + n <= |inbound| && Due(Got(inbound[taken..taken + n]))
        case WouldBlock => Due(RecvAgain)
        case Failed => Due(RecvErr)
        case _ => next.Some? && Silent(m) == None && React(World(), inbound, next) == Nothing
    {
      hide Silent, React, Inv, ValidRun, After, Told, EnvAfter, Due, ReadLimit, IsWhole, ReadReaction, SocketAnswer, Missing;
      SilentReading(m);
      ReadReacts(World(), inbound, next);
      ReadsAs(m, inbound, next, r);
      match r {
        case Count(n) => DueNext(next, Got(inbound[taken..taken + n]));
        case WouldBlock => DueNext(next, RecvAgain);
        case Failed => DueNext(next, RecvErr);
        case _ =>
      }
    }

    /** A read on a lost socket fails at once. */
    lemma LostDue()
      requires Ran() && ReadUnfinished(m) && !m.sock.open && held == []
      ensures Due(RecvErr)
    {
      SilentReading(m);
      hide Silent, Inv, ValidRun, After, Told, EnvAfter, Due, IsWhole;
      DueSilently(RecvErr);
    }

    /** One recv, after those of the script `before` that went on. */
    method Recv(limit: nat, ghost before: seq<Input>) returns (r: Input)
      requires Core() && held == [] && ReadUnfinished(m) && limit > 0 && (sock.open ==> Missing(m.inBuf) == limit)
      requires sock.open ==> Used(before, script, false)
      modifies `script, `held
      ensures Core() && Now() == old(Now()) && |script| <= |old(script)|
      ensures match r
        case Count(n) => sock.open && 0 < n <= limit && taken + n <= |inbound| && Due(Got(inbound[taken..taken + n]))
                         && |script| < |old(script)| && Used(before, script, false)
        case Interrupted => sock.open && held == [Interrupted] && Silent(m) == None && React(World(), inbound, Some(r)) == Nothing
                            && |script| < |old(script)| && Used(before, script, false)
        case WouldBlock => sock.open && Due(RecvAgain) && Used(before, script, true) && !FailedLast(before, script)
        case Failed => Due(RecvErr) && (sock.open ==> Used(before, script, true) && FailedLast(before, script))
        case _ => false
    {
      hide Can, Do, Inv, ValidRun, After, Later, Flushed, Promised, Deferred, Arriving, Marked, Frame, Missing;
      hide Told, EnvAfter, Silent, React, Due, Select, WentOn;
      hide CoreWith, ReadLimit, SocketAnswer, Used, FailedLast;
      Fields();
      HasTaken();
      if sock.open {
        UsedUp(before, script);
        if script != [] { UsedMore(before, script); }
        LimitOf(m, inbound, limit);
      }
      ghost var next := First(script);
      r := SystemCall(if limit <= |inbound| - taken then limit else |inbound| - taken);
      if sock.open { ReadDue(next, r); } else { LostDue(); }
    }

    /**
     Fills `buffer` from `start` with `len` bytes, the rest of a segment; the result
     is how many came, or -1 after an error.  Interruptions are tried again, EAGAIN
     keeps what came, and nothing but a failure of recv or a lost socket is an error.
     */
    method ReadFromSocket(buffer: array<byte>, start: nat, len: nat) returns (index: int, noError: bool)
      requires Core() && held == [] && Top(m, Reading) && len > 0 && start + len <= buffer.Length
      requires sock.open ==> Missing(m.inBuf) == len
      modifies `script, `taken, `m, `trace, `log, `held, buffer
      ensures Core() && Later(old(Now()), Now()) && buffer[..start] == old(buffer[..start])
      ensures -1 <= index <= len && noError == (index == len) && |script| <= |old(script)|
      ensures index >= 0 ==> m == old(m).(inBuf := old(m).inBuf + buffer[start..start + index], h := m.h) && sock.open
      ensures index == len ==> |script| < |old(script)| && held == []
      ensures index < len ==> ReadUnfinished(m)
      ensures 0 <= index < len ==> Due(RecvAgain)
      ensures index < 0 ==> m == old(m).(inBuf := m.inBuf, h := m.h) && Due(RecvErr)
      ensures old(sock.open) ==> Used(old(script), script, index < len)
      ensures index < 0 <==> !old(sock.open) || FailedLast(old(script), script)
    {
      hide Can, Do, Inv, ValidRun, After, Later, Flushed, Promised, Deferred, Arriving, Marked, Frame, Missing;
      hide Told, EnvAfter, Silent, React, Due, Select, WentOn;
      hide CoreWith, Used, FailedLast;
      UsedNone(script);
      Fields();
      hide Partial, IsWhole, Frames, WellFormed, Grows;
      LaterSelf(Now());
      ReadingUnfinished(m, len);
      noError, index := true, 0;
      ghost var first := Now();
      while index < len
        invariant 0 <= index <= len && |script| <= |old(script)| && (index > 0 ==> sock.open && |script| < |old(script)|)
        invariant held == [] && sock.open == old(sock.open) && (sock.open ==> Used(old(script), script, false))
        invariant Core() && Later(first, Now()) && buffer[..start] == old(buffer[..start])
        invariant m == first.now.(inBuf := first.now.inBuf + buffer[start..start + index], h := m.h)
        invariant index < len ==> ReadUnfinished(m) && (sock.open ==> Missing(m.inBuf) == len - index)
        decreases |script|, len - index
      {
        var r := Recv(len - index, old(script));
        match r {
          case Count(n) =>
            Received(buffer, start, start + index, n, first);
            index := index + n;
          case Interrupted =>
            ghost var s := Now();
            Ignore(Interrupted);
            LaterStill(first, s, Now());
          case WouldBlock =>
            noError := false;
            return;
          case _ =>
            noError, index := false, -1;
            return;
        }
      }
      UsedUp(old(script), script);
    }

    /** Reads what remains of the length and then makes room for the payload; true when the length is complete. */
    method ReadLength() returns (ok: bool)
      requires Valid() && Top(m, Reading) && inLengthHandled < LENGTH_SIZE
      modifies this, lengthBytes, payload
      ensures Valid() && Later(old(Now()), Now()) && (payload == old(payload) || fresh(payload)) && |script| <= |old(script)|
      ensures if ok then m.stack == old(m.stack) && inLengthHandled == LENGTH_SIZE && |script| < |old(script)|
              else m.stack == old(m.stack).below
    {
      hide Can, Do, Inv, ValidRun, After, Later, Flushed, Promised, Deferred, Arriving, Marked, Frame, Missing;
      hide Told, EnvAfter, Silent, React, Due, Select, WentOn;
      hide CoreWith, OutMatches, Used, FailedLast, IsWhole;
      ghost var before := lengthBytes[..];
      var k := inLengthHandled;
      LengthWanted(m.inBuf, sock.open, before, payload[..], k);
      var n, noError := ReadFromSocket(lengthBytes, k, LENGTH_SIZE - k);
      OutKept();
      if n < 0 {
        LengthLost(lengthBytes[..], payload[..], k, m.inBuf);
        ReadFailed(old(Now()));
        return false;
      }
      LengthGrew(old(m.inBuf), before, lengthBytes[..], payload[..], k, n, m.inBuf);
      inLengthHandled := inLengthHandled + n;
      if !noError || n < LENGTH_SIZE - k {
        ReadAgainLater(old(Now()));
        return false;
      }
      MakeRoom();
      return true;
    }

    /** A new message of the length that was read. */
    method MakeRoom()
      requires Core() && OutMatches() && sock.open && lengthBytes != payload && lengthBytes.Length == LENGTH_SIZE
      requires m.inBuf == lengthBytes[..] && inLengthHandled == LENGTH_SIZE && inPayloadHandled == 0 && held == []
      modifies `payload
      ensures Valid() && fresh(payload)
    {
      hide Can, Do, Inv, ValidRun, After, Later, Flushed, Promised, Deferred, Arriving, Marked, Frame, Missing;
      hide Told, EnvAfter, Silent, React, Due, Select, WentOn;
      InvReceives(m);
      LengthSane(m.inBuf, lengthBytes[..]);
      payload := new byte[Signed(lengthBytes[..])];
      LengthKnown(m.inBuf, payload[..]);
    }

    /** The buffers hold the message `msg` in full, and nothing else was received. */
    ghost predicate Holding(msg: Msg)
      reads this, lengthBytes, payload
    {
      && Core() && OutMatches() && held == [] && sock.open && Top(m, Reading)
      && IsWhole(m.inBuf) && m.inBuf == m.inBuf[..LENGTH_SIZE] + msg
      && lengthBytes != payload && lengthBytes.Length == LENGTH_SIZE && inLengthHandled == 0 && inPayloadHandled == 0
      && Arriving([], true, lengthBytes[..], payload[..], inLengthHandled, inPayloadHandled)
    }

    /** Reads what remains of the payload; when that is all, gives the message. */
    method ReadPayload() returns (msg: Option<Msg>)
      requires Valid() && Top(m, Reading) && inLengthHandled == LENGTH_SIZE
      modifies `script, `taken, `sock, `call, `incomingAsync, `dispatcher, `inLengthHandled, `inPayloadHandled, `m, `trace, `log, `held, payload
      ensures Later(old(Now()), Now()) && |script| <= |old(script)|
      ensures match msg
        case Some(x) => Holding(x) && m.stack == old(m.stack) && |script| < |old(script)|
        case None => Valid() && m.stack == old(m.stack).below
    {
      hide Can, Do, Inv, ValidRun, After, Later, Flushed, Promised, Deferred, Arriving, Marked, Frame, Missing;
      hide Told, EnvAfter, Silent, React, Due, Select, WentOn;
      hide CoreWith, OutMatches, Used, FailedLast, IsWhole;
      ghost var before := payload[..];
      var k := inPayloadHandled;
      PayloadWanted(m.inBuf, sock.open, lengthBytes[..], before, k);
      var n, noError := ReadFromSocket(payload, k, payload.Length - k);
      OutKept();
      if n < 0 {
        PayloadLost(lengthBytes[..], payload[..], k, m.inBuf);
        ReadFailed(old(Now()));
        return None;
      }
      PayloadGrew(old(m.inBuf), lengthBytes[..], before, payload[..], k, n, m.inBuf);
      if !noError || n < payload.Length - k {
        inPayloadHandled := inPayloadHandled + n;
        ReadAgainLater(old(Now()));
        return None;
      }
      inLengthHandled, inPayloadHandled := 0, 0;
      return Some(payload[..]);
    }

    /** recv failed: the connection is lost. */
    method ReadFailed(ghost before: Moment)
      requires Core() && ReadUnfinished(m) && Due(RecvErr) && OutMatches() && Later(before, Now())
      requires lengthBytes != payload && lengthBytes.Length == LENGTH_SIZE
      requires inLengthHandled <= LENGTH_SIZE && (inLengthHandled < LENGTH_SIZE ==> inPayloadHandled == 0)
      requires Arriving(m.inBuf, false, lengthBytes[..], payload[..], inLengthHandled, inPayloadHandled)
      modifies `sock, `call, `incomingAsync, `dispatcher, `m, `trace, `log, `held
      ensures Valid() && Later(before, Now()) && m.stack == old(m.stack).below
    {
      hide Can, Do, Inv, ValidRun, After, Later, Flushed, Promised, Deferred, Arriving, Marked, Frame, Missing;
      hide Told, EnvAfter, Silent, React, Due, Select, WentOn;
      OnRecvErr(m);
      Disconnected(RecvErr, m.stack.below);
      LaterStill(before, old(Now()), Now());
    }

    /** recv would block: back to the event loop. */
    method ReadAgainLater(ghost before: Moment)
      requires Sound() && sock.open && ReadUnfinished(m) && Due(RecvAgain) && Later(before, Now())
      modifies `m, `trace, `log, `held
      ensures Valid() && Later(before, Now()) && m.stack == old(m.stack).below
    {
      hide Can, Do, Inv, ValidRun, After, Later, Flushed, Promised, Deferred, Arriving, Marked, Frame, Missing;
      hide Told, EnvAfter, Silent, React, Due, Select, WentOn;
      OnRecvAgain(m);
      Tick(RecvAgain);
      LaterStill(before, old(Now()), Now());
    }

    /** Receives and handles one message; true when there may be another. */
    method ProcessIncomingMessages() returns (again: bool)
      requires Valid() && Top(m, Reading)
      modifies this, lengthBytes, payload
      ensures Valid() && Later(old(Now()), Now()) && (payload == old(payload) || fresh(payload)) && |script| <= |old(script)|
      ensures if again then m.stack == old(m.stack) && |script| < |old(script)| else m.stack == old(m.stack).below
      ensures again ==> old(|m.h.completed|) < |m.h.completed|
      decreases |script|, 3, 0
    {
      hide Can, Do, Inv, ValidRun, After, Later, Flushed, Promised, Deferred, Arriving, Marked, Frame, Missing;
      hide Told, EnvAfter, Silent, React, Due, Select, WentOn;
      LaterSelf(Now());
      if inLengthHandled < LENGTH_SIZE {
        var ok := ReadLength();
        if !ok { return false; }
      }
      ghost var s := Now();
      var msg := ReadPayload();
      LaterStill(old(Now()), s, Now());
      if msg.None? { return false; }
      s := Now();
      LaterMore(old(Now()), s);
      if call.inNested {
        HandleIncomingMessageInNestedMode(msg.value);
      } else {
        HandleIncomingMessageInNormalMode(msg.value);
      }
      LaterStill(old(Now()), s, Now());
      return true;
    }

    // ---- handling ------------------------------------------------------------------

    method HandleIncomingMessageInNestedMode(msg: Msg)
      requires Holding(msg) && call.inNested
      modifies this, lengthBytes, payload
      ensures Valid() && Later(old(Now()), Now()) && (payload == old(payload) || fresh(payload)) && |script| <= |old(script)|
      ensures m.stack == old(m.stack)
      ensures old(|m.h.completed|) < |m.h.completed| && m.h.completed[old(|m.h.completed|)] == msg
      ensures KindOf(msg) == Request ==> old(|m.h.completed|) in m.h.replyTo
      ensures KindOf(msg) == Answer ==> m == HandleAnswer(old(m), msg)
      ensures KindOf(msg) == Oneway ==> m == HandleOneway(old(m), msg)
      decreases |script|, 2
    {
      hide Can, Do, Inv, ValidRun, After, Later, Flushed, Promised, Deferred, Arriving, Marked, Frame, Missing;
      hide Told, EnvAfter, Silent, React, Due, Select, WentOn;
      Sorted(msg);
      if Has(msg, SyncBit) {
        HandleIncomingSyncMessage(msg);
      } else {
        Keep(msg);
      }
    }

    /** The reply to the call in progress ends the nested loop; other replies are dropped and asynchronous messages wait. */
    method Keep(msg: Msg)
      requires Holding(msg) && call.inNested && !Has(msg, SyncBit)
      modifies `call, `incomingAsync, `m, `trace, `log, `held
      ensures Valid() && Later(old(Now()), Now()) && m == if KindOf(msg) == Answer then HandleAnswer(old(m), msg) else HandleOneway(old(m), msg)
    {
      hide Can, Do, Inv, ValidRun, After, Later, Flushed, Promised, Deferred, Arriving, Marked, Frame, Missing;
      hide Told, EnvAfter, Silent, React, Due, Select, WentOn;
      hide Ran, Known, OutMatches;
      Sorted(msg);
      OnComplete(m, msg);
      SilentReading(m);
      SelectAppend(m.h.completed, msg, Request);
      if Has(msg, ReplyBit) || IsReplyError(msg) {
        if Id(msg) == call.curId {
          call := call.(curReply := Some(msg), quit := true);
        }
      } else {
        incomingAsync := incomingAsync + [msg];
      }
      Go(Complete);
      OutKept();
      KnownStill();
    }

    method HandleIncomingMessageInNormalMode(msg: Msg)
      requires Holding(msg) && !call.inNested
      modifies this, lengthBytes, payload
      ensures Valid() && Later(old(Now()), Now()) && (payload == old(payload) || fresh(payload)) && |script| <= |old(script)|
      ensures m.stack == old(m.stack)
      ensures old(|m.h.completed|) < |m.h.completed| && m.h.completed[old(|m.h.completed|)] == msg
      ensures KindOf(msg) == Request ==> old(|m.h.completed|) in m.h.replyTo
      ensures KindOf(msg) == Answer ==> m == HandleAnswer(old(m), msg)
      ensures KindOf(msg) == Oneway ==> old(trace) + [Complete] <= trace && (incomingAsync == [] || !sock.open)
      decreases |script|, 2
    {
      hide Can, Do, Inv, ValidRun, After, Later, Flushed, Promised, Deferred, Arriving, Marked, Frame, Missing;
      hide Told, EnvAfter, Silent, React, Due, Select, WentOn;
      Sorted(msg);
      if Has(msg, SyncBit) {
        HandleIncomingSyncMessage(msg);
      } else if Has(msg, ReplyBit) || IsReplyError(msg) {
        OnComplete(m, msg);
        SilentReading(m);
        SelectAppend(m.h.completed, msg, Request);
        Go(Complete);
      } else {
        QueueAndDispatch(msg);
      }
    }

    method QueueAndDispatch(msg: Msg)
      requires Holding(msg) && !call.inNested && KindOf(msg) == Oneway
      modifies this, lengthBytes, payload
      ensures Valid() && Later(old(Now()), Now()) && (payload == old(payload) || fresh(payload)) && |script| <= |old(script)|
      ensures m.stack == old(m.stack)
      ensures old(|m.h.completed|) < |m.h.completed| && m.h.completed[old(|m.h.completed|)] == msg
      ensures old(trace) + [Complete] <= trace && (incomingAsync == [] || !sock.open)
      decreases |script|, 1, 2
    {
      hide Can, Do, Inv, ValidRun, After, Later, Flushed, Promised, Deferred, Arriving, Marked, Frame, Missing;
      hide Told, EnvAfter, Silent, React, Due, Select, WentOn;
      OnComplete(m, msg);
      SilentReading(m);
      SelectAppend(m.h.completed, msg, Request);
      incomingAsync := incomingAsync + [msg];
      Go(Complete);
      ghost var s := Now();
      DispatchNow();
      LaterMore(s, Now());
      Remembered(s, Now(), old(|m.h.completed|));
      LaterStill(old(Now()), s, Now());
    }

    /** Messages are dispatched directly. */
    method DispatchNow()
      requires Valid() && Top(m, Dispatching(false))
      modifies this, lengthBytes, payload
      ensures Valid() && Later(old(Now()), Now()) && (payload == old(payload) || fresh(payload)) && |script| <= |old(script)|
      ensures m.stack == old(m.stack).below && (incomingAsync == [] || !sock.open)
      decreases |script|, 1, 1
    {
      hide Can, Do, Inv, ValidRun, After, Later, Flushed, Promised, Deferred, Arriving, Marked, Frame, Missing;
      hide Told, EnvAfter, Silent, React, Due, Select, WentOn;
      var lost := DispatchIncomingAsyncMessages(false);
      ghost var s := Now();
      EndDispatch(false, lost);
      LaterStill(old(Now()), s, Now());
    }

    /** The idle source's callback. */
    method DispatchIncomingAsyncMessagesCallback()
      requires Sound() && Due(WakeIdle) && m.stack.Empty? && dispatcher == Armed
      modifies this, lengthBytes, payload
      ensures Valid() && Later(old(Now()), Now()) && (payload == old(payload) || fresh(payload)) && |script| <= |old(script)|
      ensures m.stack == old(m.stack)
      ensures old(trace) + [WakeIdle] <= trace && dispatcher != Armed
      ensures dispatcher == NoSource ==> incomingAsync == [] && trace[|trace| - 1] == DispatchEnd
      ensures dispatcher == Spent ==> !sock.open && trace[|trace| - 1] == ReportLoss
    {
      hide Can, Do, Inv, ValidRun, After, Later, Flushed, Promised, Deferred, Arriving, Marked, Frame, Missing;
      hide Told, EnvAfter, Silent, React, Due, Select, WentOn;
      hide Ran, Known, OutMatches, InMatches, Matches;
      IdleWakes();
      ghost var woken, s := Now(), Now();
      var lost := DispatchIncomingAsyncMessages(true);
      LaterStill(old(Now()), s, Now());
      s := Now();
      EndDispatch(true, lost);
      LaterStill(woken, s, Now());
      LaterStill(old(Now()), s, Now());
      LaterMore(woken, Now());
    }

    /** The idle source wakes the main loop. */
    ghost method IdleWakes()
      requires Sound() && Due(WakeIdle) && m.stack.Empty? && dispatcher == Armed
      modifies `m, `trace, `log, `held
      ensures Valid() && Later(old(Now()), Now()) && m.stack == Push(Dispatching(true), old(m.stack)) && trace == old(trace) + [WakeIdle]
    {
      hide Can, Do, Inv, ValidRun, After, Later, Flushed, Promised, Deferred, Arriving, Marked, Frame, Missing;
      hide Told, EnvAfter, Silent, React, Due, Select, WentOn;
      hide Ran, Known, OutMatches, InMatches;
      OnWakeIdle(m);
      Tick(WakeIdle);
      InKept();
      OutKept();
      KnownStill();
    }

    /**
     The listener is given the request, and what it leaves in the slot is the
     answer: whatever it does inside, exactly one answer is recorded, and if it
     only replies, the answer is made of its last reply.
     */
    method HandleIncomingSyncMessage(msg: Msg)
      requires Holding(msg) && KindOf(msg) == Request
      modifies this, lengthBytes, payload
      ensures Valid() && Later(old(Now()), Now()) && (payload == old(payload) || fresh(payload)) && |script| <= |old(script)|
      ensures m.stack == old(m.stack)
      ensures old(|m.h.completed|) < |m.h.completed| && m.h.completed[old(|m.h.completed|)] == msg
      ensures old(|m.h.completed|) in m.h.replyTo && m.h.replyTo[old(|m.h.completed|)] < |m.h.pushed|
      ensures OnlyReplies(old(script)) ==>
                m.h.pushed[m.h.replyTo[old(|m.h.completed|)]] == Finish(SlotAfter(old(script), None), msg) && served == old(served) + [msg]
      decreases |script|, 1, 0
    {
      hide Can, Do, Inv, ValidRun, After, Later, Flushed, Promised, Deferred, Arriving, Marked, Frame, Missing;
      hide Told, EnvAfter, Silent, React, Due, Select, WentOn;
      hide Ran, Known, OutMatches, InMatches, Matches, KindOf, Finish;
      ghost var i := |m.h.completed|;
      GiveRequest(msg);
      ghost var s := Now();
      RunHandler();
      LaterStill(old(Now()), s, Now());
      Remembered(s, Now(), i);
      s := Now();
      HandlerEnds();
      Fields();
      SendAnswer(msg, i);
      LaterStill(old(Now()), s, Now());
      Remembered(s, Now(), i);
    }

    /** The slot is cleared and the listener gets the request. */
    method GiveRequest(msg: Msg)
      requires Holding(msg) && KindOf(msg) == Request
      modifies `replyForIncoming, `served, `m, `trace, `log, `held
      ensures Valid() && Later(old(Now()), Now()) && m.slot == None && served == old(served) + [msg]
      ensures m.stack == Push(Serving(old(|m.h.completed|)), old(m.stack)) && m.h.completed == old(m.h.completed) + [msg]
    {
      hide Can, Do, Inv, ValidRun, After, Later, Flushed, Promised, Deferred, Arriving, Marked, Frame, Missing;
      hide Told, EnvAfter, Silent, React, Due, Select, WentOn;
      hide Ran, Known, OutMatches;
      OnComplete(m, msg);
      SilentReading(m);
      SelectAppend(m.h.completed, msg, Request);
      replyForIncoming := None;
      served := served + [msg];
      Go(Complete);
      OutKept();
      KnownStill();
    }

    /** The listener returns: what the script says next, or its end. */
    method HandlerEnds()
      requires Valid() && UserTurn(m.stack) && m.stack.Push? && (script == [] || script[0].Done?)
      modifies `script, `held
      ensures Sound() && Now() == old(Now()) && |script| <= |old(script)|
      ensures Due(if m.stack.top.Serving? then ServeEnd else DeliverEnd)
    {
      hide Can, Do, Inv, ValidRun, After, Later, Flushed, Promised, Deferred, Arriving, Marked, Frame, Missing;
      hide Told, EnvAfter, Silent, React, Due, Select, WentOn;
      ghost var next := First(script);
      var _ := Take();
      SilentUser(m);
      HandlerReacts(World(), inbound, next);
      ghost var end := if m.stack.top.Serving? then ServeEnd else DeliverEnd;
      DueNext(next, end);
    }

    /** The rest of handleIncomingSyncMessage, once the listener has returned. */
    method SendAnswer(msg: Msg, ghost i: nat)
      requires Sound() && Due(ServeEnd) && Top(m, Serving(i)) && i < |m.h.completed| && m.h.completed[i] == msg
      modifies this
      ensures Valid() && Later(old(Now()), Now()) && payload == old(payload) && |script| <= |old(script)|
      ensures m.stack == old(m.stack).below
      ensures m.h.pushed == old(m.h.pushed) + [Finish(old(replyForIncoming), msg)]
      ensures m.h.replyTo == old(m.h.replyTo)[i := old(|m.h.pushed|)] && served == old(served)
    {
      hide Can, Do, Inv, ValidRun, After, Later, Flushed, Promised, Deferred, Arriving, Marked, Frame, Missing;
      hide Told, EnvAfter, Silent, React, Due, Select, WentOn;
      hide Ran, Known, OutMatches, InMatches, Matches, Finish;
      QueueAnswer(msg, i);
      ghost var s := Now();
      ProcessOutgoingMessages();
      FlushedLater(s, Now());
      LaterStill(old(Now()), s, Now());
    }

    /** The answer is made, queued and recorded. */
    method QueueAnswer(msg: Msg, ghost i: nat)
      requires Sound() && Due(ServeEnd) && Top(m, Serving(i)) && i < |m.h.completed| && m.h.completed[i] == msg
      modifies `outgoing, `replyForIncoming, `m, `trace, `log, `held
      ensures Valid() && Later(old(Now()), Now()) && m.stack == Push(Flushing, old(m.stack).below)
      ensures m.h.pushed == old(m.h.pushed) + [Finish(old(replyForIncoming), msg)]
      ensures m.h.replyTo == old(m.h.replyTo)[i := old(|m.h.pushed|)]
    {
      hide Can, Do, Inv, ValidRun, After, Later, Flushed, Promised, Deferred, Arriving, Marked, Frame, Missing;
      hide Told, EnvAfter, Silent, React, Due, Select, WentOn;
      hide Finish, Mark, Id, KindOf, WellFormed, Has;
      hide Ran, Known, OutMatches, InMatches;
      OnServeEnd(m);
      outgoing := outgoing + [Finish(replyForIncoming, msg)];
      replyForIncoming := None;
      Tick(ServeEnd);
      InKept();
      OutKept();
      KnownStill();
    }

    /** Gives deferred messages to the listener; true when one was a lost connection. */
    method DispatchIncomingAsyncMessages(ghost idle: bool) returns (lost: bool)
      requires Valid() && Top(m, Dispatching(idle))
      modifies this, lengthBytes, payload
      ensures Later(old(Now()), Now()) && (payload == old(payload) || fresh(payload)) && |script| <= |old(script)|
      ensures m.stack == old(m.stack) && OutMatches() && InMatches() && held == []
      ensures if lost then CoreWith(m.queue) && m.queue != [] && Has(m.queue[0], DisconnectBit) && incomingAsync == m.queue[1..]
              else Core() && incomingAsync == []
      ensures lost ==> !sock.open
      decreases |script|, 1, 0
    {
      hide Can, Do, Inv, ValidRun, After, Later, Flushed, Promised, Deferred, Arriving, Marked, Frame, Missing;
      hide Told, EnvAfter, Silent, React, Due, Select, WentOn;
      LaterSelf(Now());
      ghost var first := Now();
      while incomingAsync != []
        invariant Valid() && Later(first, Now()) && (payload == old(payload) || fresh(payload)) && |script| <= |old(script)|
        invariant m.stack == first.now.stack
        decreases |script|, |incomingAsync|
      {
        var msg := incomingAsync[0];
        if Has(msg, DisconnectBit) {
          MarkerMeansClosed(m);
          incomingAsync := incomingAsync[1..];
          return true;
        }
        DeliverFirst(first);
      }
      return false;
    }

    /** The listener's handler for the first deferred message. */
    method DeliverFirst(ghost first: Moment)
      requires Valid() && m.stack.Push? && m.stack.top.Dispatching? && incomingAsync != [] && !Has(incomingAsync[0], DisconnectBit)
      requires Later(first, Now())
      modifies this, lengthBytes, payload
      ensures Valid() && Later(first, Now()) && (payload == old(payload) || fresh(payload)) && |script| <= |old(script)|
      ensures m.stack == old(m.stack) && (|script| < |old(script)| || |incomingAsync| < |old(incomingAsync)|)
      decreases |script|, 0, 1
    {
      hide Can, Do, Inv, ValidRun, After, Later, Flushed, Promised, Deferred, Arriving, Marked, Frame, Missing;
      hide Told, EnvAfter, Silent, React, Due, Select, WentOn;
      hide Ran, Known, OutMatches, InMatches, Matches;
      HandOver();
      LaterStill(first, old(Now()), Now());
      ghost var s := Now();
      RunHandler();
      LaterStill(first, s, Now());
      HandlerEnds();
      s := Now();
      Delivered();
      LaterStill(first, s, Now());
    }

    /** The first deferred message leaves the queue for the listener. */
    method HandOver()
      requires Valid() && m.stack.Push? && m.stack.top.Dispatching? && incomingAsync != [] && !Has(incomingAsync[0], DisconnectBit)
      modifies `delivered, `incomingAsync, `m, `trace, `log, `held
      ensures Valid() && Later(old(Now()), Now()) && m.stack == Push(Delivering, old(m.stack))
      ensures delivered == old(delivered) + [old(incomingAsync)[0]] && incomingAsync == old(incomingAsync)[1..]
    {
      hide Can, Do, Inv, ValidRun, After, Later, Flushed, Promised, Deferred, Arriving, Marked, Frame, Missing;
      hide Told, EnvAfter, Silent, React, Due, Select, WentOn;
      hide Ran, Known, OutMatches, InMatches, Has;
      OnDeliver(m);
      SilentDispatching(m);
      delivered := delivered + [incomingAsync[0]];
      incomingAsync := incomingAsync[1..];
      Go(Deliver);
      InKept();
      OutKept();
      KnownStill();
    }

    /** The listener has returned from an asynchronous message. */
    ghost method Delivered()
      requires Sound() && Due(DeliverEnd) && Top(m, Delivering)
      modifies `m, `trace, `log, `held
      ensures Valid() && Later(old(Now()), Now()) && m.stack == old(m.stack).below
    {
      hide Can, Do, Inv, ValidRun, After, Later, Flushed, Promised, Deferred, Arriving, Marked, Frame, Missing;
      hide Told, EnvAfter, Silent, React, Due, Select, WentOn;
      hide Ran, Known, OutMatches, InMatches;
      OnDeliverEnd(m);
      Tick(DeliverEnd);
      InKept();
      OutKept();
      KnownStill();
    }

    /** What follows dispatchIncomingAsyncMessages: only the idle source changes. */
    method EndDispatch(idle: bool, lost: bool)
      requires Top(m, Dispatching(idle)) && OutMatches() && InMatches() && held == []
      requires if lost then CoreWith(m.queue) && m.queue != [] && Has(m.queue[0], DisconnectBit) && incomingAsync == m.queue[1..]
               else Core() && incomingAsync == []
      modifies `dispatcher, `m, `trace, `log, `held
      ensures Valid() && Later(old(Now()), Now()) && m.stack == old(m.stack).below
      ensures dispatcher == if !idle then old(dispatcher) else if lost then Spent else NoSource
      ensures trace == old(trace) + [if lost then ReportLoss else DispatchEnd]
      ensures incomingAsync == old(incomingAsync)
    {
      hide Can, Do, Inv, ValidRun, After, Later, Flushed, Promised, Deferred, Arriving, Marked, Frame, Missing;
      hide Told, EnvAfter, Silent, React, Due, Select, WentOn;
      SilentDispatching(m);
      if idle { dispatcher := if lost then Spent else NoSource; }
      if lost {
        OnReportLoss(m, idle);
        Go(ReportLoss);
      } else {
        OnDispatchEnd(m, idle);
        Go(DispatchEnd);
      }
    }

    /** The application's code inside a handler: what the script says, until it says Done or ends. */
    method RunHandler()
      requires Valid() && UserTurn(m.stack) && m.stack.Push?
      modifies this, lengthBytes, payload
      ensures Valid() && Later(old(Now()), Now()) && (payload == old(payload) || fresh(payload)) && |script| <= |old(script)|
      ensures m.stack == old(m.stack) && (|script| < |old(script)| || incomingAsync == old(incomingAsync))
      ensures script == [] || script[0].Done?
      ensures OnlyReplies(old(script)) ==> m == old(m).(slot := SlotAfter(old(script), old(m.slot))) && served == old(served)
      decreases |script|, 0, 0
    {
      hide Can, Do, Inv, ValidRun, After, Later, Flushed, Promised, Deferred, Arriving, Marked, Frame, Missing;
      hide Told, EnvAfter, Silent, React, Due, Select, WentOn;
      hide WellFormed, Has;
      LaterSelf(Now());
      ghost var first := Now();
      while script != [] && !script[0].Done?
        invariant Valid() && Later(first, Now()) && (payload == old(payload) || fresh(payload)) && |script| <= |old(script)|
        invariant m.stack == first.now.stack && (|script| < |old(script)| || incomingAsync == old(incomingAsync))
        invariant OnlyReplies(old(script)) ==>
          OnlyReplies(script) && m == old(m).(slot := m.slot) && served == old(served)
          && SlotAfter(script, m.slot) == SlotAfter(old(script), old(m.slot))
        decreases |script|
      {
        ghost var s := Now();
        var next := Take();
        Act(next.value);
        LaterStill(first, s, Now());
      }
    }

    lemma ActDue(next: Input)
      requires Ran() && held == [next] && UserTurn(m.stack) && !next.Done?
      requires m.stack.Push? || next.Async? || next.Sync? || next.Reply? || next.OtherThread? || next.Suspended?
      ensures Silent(m) == None && React(World(), inbound, Some(next)) == UserReaction(World(), next)
      ensures UserReaction(World(), next).Then? ==> Due(UserReaction(World(), next).event)
    {
      SilentUser(m);
      if next.Async? || next.Sync? || next.Reply? || next.OtherThread? || next.Suspended? {
        UserReacts(World(), inbound, next);
      } else {
        HandlerReacts(World(), inbound, Some(next));
      }
      hide Silent, React, UserReaction, Inv, ValidRun, After, Told, EnvAfter, Due;
      if UserReaction(World(), next).Then? { DueNext(Some(next), UserReaction(World(), next).event); }
    }

    /** One action of the application. */
    method Act(next: Input)
      requires Sound() && held == [next] && UserTurn(m.stack) && !next.Done?
      requires m.stack.Push? || next.Async? || next.Sync? || next.Reply? || next.OtherThread? || next.Suspended?
      modifies this, lengthBytes, payload
      ensures Valid() && Later(old(Now()), Now()) && (payload == old(payload) || fresh(payload)) && |script| <= |old(script)|
      ensures m.stack == old(m.stack)
      ensures next.Async? && WellFormed(next.msg) && KindOf(next.msg) == Oneway ==> m.h.pushed == old(m.h.pushed) + [next.msg]
      ensures next.OtherThread? && WellFormed(next.msg) && KindOf(next.msg) == Oneway ==>
                otherThreadOutgoing == old(otherThreadOutgoing) + [next.msg]
      ensures next.Sync? && WellFormed(next.msg) && Id(next.msg) != 0 && !old(call.inNested) && !old(remoteIsSuspended) ==>
                Called(old(trace), old(|m.h.pushed|), next.msg, next.timed)
      ensures next.Suspended? ==> remoteIsSuspended == next.val
      ensures next.Reply? ==> script == old(script) && served == old(served) && incomingAsync == old(incomingAsync)
                              && m == old(m).(slot := if WellFormed(next.msg) && !Has(next.msg, SyncBit) then Some(next.msg) else old(m.slot))
      decreases |script|, 7, 0
    {
      hide Can, Do, Inv, ValidRun, After, Later, Flushed, Promised, Deferred, Arriving, Marked, Frame, Missing;
      hide Told, EnvAfter, Silent, React, Due, Select, WentOn;
      hide WellFormed, Has, KindOf, Id;
      ActDue(next);
      if next.Async? && WellFormed(next.msg) && KindOf(next.msg) == Oneway {
        SendAsyncMessage(next.msg);
      } else if next.Reply? && WellFormed(next.msg) && !Has(next.msg, SyncBit) {
        SendReply(next.msg);
      } else if next.Sync? && WellFormed(next.msg) && Id(next.msg) != 0 && !call.inNested {
        var ok, reply, end := SendSyncMessage(next.msg, next.timed, true);
      } else if next.OtherThread? && WellFormed(next.msg) && KindOf(next.msg) == Oneway {
        QueueAsyncMessage(next.msg);
      } else if next.Suspended? {
        SetRemoteIsSuspended(next.val, true);
      } else {
        Note(next, Nothing);
      }
    }

    method SendAsyncMessage(msg: Msg)
      requires Sound() && Due(SendAsync(msg)) && UserTurn(m.stack) && WellFormed(msg) && KindOf(msg) == Oneway
      modifies this
      ensures Valid() && Later(old(Now()), Now()) && |script| <= |old(script)| && m.stack == old(m.stack)
      ensures payload == old(payload) && m.h.pushed == old(m.h.pushed) + [msg] && old(trace) + [SendAsync(msg)] <= trace
    {
      hide Can, Do, Inv, ValidRun, After, Later, Flushed, Promised, Deferred, Arriving, Marked, Frame, Missing;
      hide Told, EnvAfter, Silent, React, Due, Select, WentOn;
      OnSendAsync(m, msg);
      outgoing := outgoing + [msg];
      Tick(SendAsync(msg));
      ghost var s := Now();
      ProcessOutgoingMessages();
      FlushedLater(s, Now());
      LaterMore(s, Now());
      LaterStill(old(Now()), s, Now());
    }

    method SendReply(msg: Msg)
      requires Sound() && Due(Event.SendReply(msg)) && UserTurn(m.stack) && WellFormed(msg) && !Has(msg, SyncBit)
      modifies `replyForIncoming, `m, `trace, `log, `held
      ensures Valid() && Later(old(Now()), Now()) && m == old(m).(slot := Some(msg)) && replyForIncoming == Some(msg)
    {
      hide Can, Do, Inv, ValidRun, After, Later, Flushed, Promised, Deferred, Arriving, Marked, Frame, Missing;
      hide Told, EnvAfter, Silent, React, Due, Select, WentOn;
      OnSendReply(m, msg);
      replyForIncoming := Some(msg);
      Tick(Event.SendReply(msg));
    }

    // ---- synchronous calls -------------------------------------------------------------

    /** As the script says, or beside it. */
    method SetRemoteIsSuspended(val: bool, ghost scripted: bool)
      requires if scripted then Sound() && held == [Suspended(val)] && UserTurn(m.stack) else Valid()
      modifies `remoteIsSuspended, `log, `held
      ensures Valid() && m == old(m) && trace == old(trace) && remoteIsSuspended == val
      ensures if scripted then Later(old(Now()), Now()) else log == old(log) + [Suspends(val)]
    {
      hide Inv, ValidRun, After, Later, Flushed, Promised, Deferred, Arriving, Told, EnvAfter, Silent, React, Due, Select, WentOn;
      hide Ran, OutMatches, InMatches, Matches;
      remoteIsSuspended := val;
      if scripted {
        ActDue(Suspended(val));
        Note(Suspended(val), Suspend(val));
      } else {
        NoteBeside(val);
      }
    }

    /** The moment before the application does `i`. */
    ghost function Asking(i: Input): Moment
      reads `m, `trace, `log, `held, `script
    {
      Now().(rest := [i] + Now().rest)
    }

    /** The application acts by itself, as if the script had said so. */
    ghost method Ask(i: Input)
      requires Valid()
      modifies `held
      ensures Sound() && held == [i] && Now() == old(Asking(i))
    {
      hide Inv, ValidRun, After, Promised, Deferred, Arriving, Told, EnvAfter, Select;
      held := [i];
    }

    /** Call number `call` ended at `end`, and returned `ok` and `reply`. */
    ghost predicate EndedAt(end: Moment, call: nat, ok: bool, reply: Option<Msg>)
      reads `m, `trace, `log, `held
    {
      && ValidRun(end.trace) && After(end.trace) == end.now && end.now.h.call == call
      && end.trace + [if Top(end.now, Waiting) then LeaveLoop else CallFail] <= trace
      && (ok <==> Top(end.now, Waiting) && Succeeds(end.now))
      && (ok ==> reply == end.now.call.curReply)
      && m.h.outcomes != [] && m.h.outcomes[|m.h.outcomes| - 1] == Outcome(call, if ok then reply else None, end.now.h.acceptedAt)
    }

    /** The request `msg` was queued as number `call`, by the step that starts a call with or without a timeout. */
    ghost predicate Called(before: seq<Event>, call: nat, msg: Msg, timed: bool)
      reads `m, `trace
    {
      before + [SendSync(msg, timed)] <= trace && call < |m.h.pushed| && m.h.pushed[call] == Mark(msg, SyncBit)
    }

    /**
     A call from another thread, or to a suspended peer, is refused and leaves the
     channel as it is; any other is made.
     */
    method SendSyncMessage(msg: Msg, timed: bool, ownThread: bool) returns (ok: bool, reply: Option<Msg>, ghost end: Moment)
      requires Sound() && WellFormed(msg) && Id(msg) != 0
      requires if ownThread && !remoteIsSuspended then held == [Sync(msg, timed)] && UserTurn(m.stack) && !call.inNested
               else held == [] || (ownThread && held == [Sync(msg, timed)] && UserTurn(m.stack))
      modifies this, lengthBytes, payload
      ensures Valid() && Later(old(Now()), Now()) && (payload == old(payload) || fresh(payload)) && |script| <= |old(script)|
      ensures m.stack == old(m.stack)
      ensures ok ==> reply.Some? && KindOf(reply.value) == Answer && Id(reply.value) == Id(msg) && !IsReplyError(reply.value)
      ensures if ownThread && !old(remoteIsSuspended) then
                && Called(old(trace), old(|m.h.pushed|), msg, timed)
                && EndedAt(end, old(|m.h.pushed|), ok, reply) && old(trace) <= end.trace && !call.inNested
              else !ok && reply == None && trace == old(trace) && wire == old(wire)
      decreases |script|, 6, 1
    {
      hide Can, Do, Inv, ValidRun, After, Later, Flushed, Promised, Deferred, Arriving, Marked, Frame, Missing;
      hide Told, EnvAfter, Silent, React, Due, Select, WentOn;
      LaterSelf(Now());
      if !ownThread {
        return false, None, Now();
      }
      if held != [] { ActDue(Sync(msg, timed)); }
      if remoteIsSuspended {
        if held != [] { Note(Sync(msg, timed), Nothing); }
        return false, None, Now();
      }
      ok, reply, end := MakeCall(msg, timed);
    }

    /**
     The call queues its own request and returns true if and only if its nested loop
     ended in time on an open socket with an accepted reply that is no error; that
     is an answer with the id of this request, and it is what the machine records
     as the outcome.
     */
    method MakeCall(msg: Msg, timed: bool) returns (ok: bool, reply: Option<Msg>, ghost end: Moment)
      requires Sound() && Due(SendSync(msg, timed)) && UserTurn(m.stack) && !call.inNested && WellFormed(msg) && Id(msg) != 0
      modifies this, lengthBytes, payload
      ensures Valid() && Later(old(Now()), Now()) && (payload == old(payload) || fresh(payload)) && |script| <= |old(script)|
      ensures m.stack == old(m.stack) && !call.inNested
      ensures Called(old(trace), old(|m.h.pushed|), msg, timed)
      ensures ok ==> reply.Some? && KindOf(reply.value) == Answer && Id(reply.value) == Id(msg) && !IsReplyError(reply.value)
      ensures EndedAt(end, old(|m.h.pushed|), ok, reply) && old(trace) <= end.trace
      decreases |script|, 6, 0
    {
      hide Can, Do, Inv, ValidRun, After, Later, Flushed, Promised, Deferred, Arriving, Marked, Frame, Missing;
      hide Told, EnvAfter, Silent, React, Due, Select, WentOn;
      hide KindOf, Id, Mark, WellFormed, Grows, EndedAt;
      hide Ran, Known, OutMatches, InMatches, Matches;
      BeginCall(msg, timed);
      ghost var s := Now();
      ProcessOutgoingMessages();
      PushedStays(s, Now());
      LaterMore(s, Now());
      if sock.open {
        ok, reply, end := AwaitReply(msg, timed, s);
      } else {
        end := Now();
        AbandonCall(timed, s);
        ok, reply := false, None;
      }
      LaterMore(s, Now());
      StillPushed(s, Now(), old(|m.h.pushed|));
      Fields();
      LaterCall(old(Now()), s, Now());
    }

    /** sendSyncMessage from its nested loop on; `s` is the state in which the request was queued. */
    method AwaitReply(ghost msg: Msg, timed: bool, ghost s: Moment) returns (ok: bool, reply: Option<Msg>, ghost end: Moment)
      requires Valid() && Top(m, Calling(timed)) && sock.open && Later(s, Now()) && m.h.call == s.now.h.call
      requires s.now.h.call < |s.now.h.pushed| && s.now.h.pushed[s.now.h.call] == Mark(msg, SyncBit) && Id(Mark(msg, SyncBit)) == Id(msg)
      modifies this, lengthBytes, payload
      ensures Valid() && Later(s, Now()) && (payload == old(payload) || fresh(payload)) && |script| <= |old(script)|
      ensures m.stack == old(m).stack.below && !call.inNested
      ensures ok ==> reply.Some? && KindOf(reply.value) == Answer && Id(reply.value) == Id(msg) && !IsReplyError(reply.value)
      ensures EndedAt(end, s.now.h.call, ok, reply) && s.trace <= end.trace
      decreases |script|, 5, 1
    {
      hide Can, Do, Inv, ValidRun, After, Later, Flushed, Promised, Deferred, Arriving, Marked, Frame, Missing, EndedAt;
      ghost var t := Now();
      EnterNestedLoop(timed);
      LaterStill(s, t, Now());
      t := Now();
      RunNestedLoop();
      LaterStill(s, t, Now());
      LaterMore(s, Now());
      CallAnswered(s, Now(), msg);
      end := Now();
      ok, reply := AfterNestedLoop();
      LaterStill(s, end, Now());
    }

    /** The socket was lost before the nested loop. */
    method AbandonCall(ghost timed: bool, ghost s: Moment)
      requires Valid() && Top(m, Calling(timed)) && !sock.open && Later(s, Now())
      modifies `call, `m, `trace, `log, `held
      ensures Valid() && Later(s, Now()) && m.stack == old(m).stack.below && !call.inNested
      ensures EndedAt(old(Now()), old(m.h.call), false, None)
    {
      hide Can, Do, Inv, ValidRun, After, Later, Flushed, Promised, Deferred, Arriving, Marked, Frame, Missing;
      hide Told, EnvAfter, Silent, React, Due, Select, WentOn;
      OnCallFail(m, timed);
      SilentCalling(m);
      call := call.(inNested := false, curId := 0, curReply := None);
      Go(CallFail);
      LaterStill(s, old(Now()), Now());
    }

    /** The timeout and the nested source are set up. */
    method EnterNestedLoop(timed: bool)
      requires Valid() && Top(m, Calling(timed)) && sock.open
      modifies `call, `sock, `m, `trace, `log, `held
      ensures Valid() && Later(old(Now()), Now()) && m.stack == Push(Waiting, old(m).stack.below)
    {
      hide Can, Do, Inv, ValidRun, After, Later, Flushed, Promised, Deferred, Arriving, Marked, Frame, Missing;
      hide Told, EnvAfter, Silent, React, Due, Select, WentOn;
      OnEnterLoop(m, timed);
      SilentCalling(m);
      call := call.(timedOut := false, timer := timed, quit := false);
      sock := sock.(nestedSource := true, nestedOut := sock.blocked);
      Go(EnterLoop);
    }

    /** sendSyncMessage after its nested loop: true exactly for an accepted reply that is no error, in time and on an open socket. */
    method AfterNestedLoop() returns (ok: bool, reply: Option<Msg>)
      requires Valid() && Top(m, Waiting) && call.quit
      modifies this
      ensures Valid() && Later(old(Now()), Now()) && payload == old(payload) && |script| <= |old(script)|
      ensures m.stack == old(m).stack.below && !call.inNested
      ensures ok <==> old(sock.open) && !old(call.timedOut) && old(call.curReply).Some? && !IsReplyError(old(call.curReply).value)
      ensures ok ==> reply == old(call.curReply)
      ensures EndedAt(old(Now()), old(m.h.call), ok, reply)
    {
      hide Can, Do, Inv, ValidRun, After, Later, Flushed, Promised, Deferred, Arriving, Marked, Frame, Missing;
      hide Told, EnvAfter, Silent, React, Due, Select, WentOn;
      reply := if call.curReply.Some? && IsReplyError(call.curReply.value) then None else call.curReply;
      EndNestedLoop(reply);
      if !sock.open { return false, reply; }
      ok := !call.timedOut && reply.Some?;
      ghost var s := Now();
      LastFlush();
      LaterMore(s, Now());
      LaterStill(old(Now()), s, Now());
    }

    /** The nested sources go; on an open socket deferred messages get their dispatcher and output another try. */
    method EndNestedLoop(ghost reply: Option<Msg>)
      requires Valid() && Top(m, Waiting) && call.quit
      requires reply == if call.curReply.Some? && IsReplyError(call.curReply.value) then None else call.curReply
      modifies `call, `sock, `dispatcher, `m, `trace, `log, `held
      ensures Valid() && Later(old(Now()), Now()) && !call.inNested && call.timedOut == old(call.timedOut)
      ensures trace == old(trace) + [LeaveLoop] && sock.open == old(sock.open) && !sock.nestedSource
      ensures dispatcher == if sock.open && incomingAsync != [] && old(dispatcher).NoSource? then Armed else old(dispatcher)
      ensures sock.open && incomingAsync != [] ==> dispatcher == Armed
      ensures sock.open ==> !sock.blocked && !sock.mainOut
      ensures !sock.open ==> m.stack == old(m).stack.below
                             && m.h.outcomes == old(m).h.outcomes + [Outcome(old(m).h.call, None, old(m).h.acceptedAt)]
      ensures sock.open ==> m.stack == Push(Flushing, Push(Returning(if call.timedOut then None else reply), old(m).stack.below))
                            && m.h == old(m).h
    {
      hide Can, Do, Inv, ValidRun, After, Later, Flushed, Promised, Deferred, Arriving, Marked, Frame, Missing;
      hide Told, EnvAfter, Silent, React, Due, Select, WentOn;
      OpenNotSpent(m);
      if sock.open {
        LeaveOpen(reply);
      } else {
        LeaveClosed();
      }
    }

    method LeaveClosed()
      requires Valid() && Top(m, Waiting) && call.quit && !sock.open
      modifies `call, `sock, `m, `trace, `log, `held
      ensures Valid() && Later(old(Now()), Now()) && !call.inNested && call.timedOut == old(call.timedOut)
      ensures m.stack == old(m).stack.below && !sock.open && !sock.nestedSource && trace == old(trace) + [LeaveLoop]
      ensures m.h.outcomes == old(m).h.outcomes + [Outcome(old(m).h.call, None, old(m).h.acceptedAt)]
    {
      hide Can, Do, Inv, ValidRun, After, Later, Flushed, Promised, Deferred, Arriving, Marked, Frame, Missing;
      hide Told, EnvAfter, Silent, React, Due, Select, WentOn;
      hide Ran, Known, OutMatches, InMatches;
      OnLeaveLoop(m);
      SilentCalling(m);
      call := call.(timer := false, inNested := false, curId := 0, curReply := None);
      sock := sock.(nestedSource := false, nestedOut := false);
      Go(LeaveLoop);
      InKept();
      OutKept();
      KnownStill();
    }

    method LeaveOpen(ghost reply: Option<Msg>)
      requires Valid() && Top(m, Waiting) && call.quit && sock.open
      requires reply == if call.curReply.Some? && IsReplyError(call.curReply.value) then None else call.curReply
      modifies `call, `sock, `dispatcher, `m, `trace, `log, `held
      ensures Valid() && Later(old(Now()), Now()) && !call.inNested && call.timedOut == old(call.timedOut)
      ensures m.stack == Push(Flushing, Push(Returning(if call.timedOut then None else reply), old(m).stack.below))
      ensures m.h == old(m).h && sock.open && !sock.nestedSource && !sock.blocked && !sock.mainOut && trace == old(trace) + [LeaveLoop]
      ensures dispatcher == if incomingAsync != [] && old(dispatcher).NoSource? then Armed else old(dispatcher)
    {
      hide Can, Do, Inv, ValidRun, After, Later, Flushed, Promised, Deferred, Arriving, Marked, Frame, Missing;
      hide Told, EnvAfter, Silent, React, Due, Select, WentOn;
      hide IsReplyError, EndCall;
      hide Ran, Known, OutMatches, InMatches;
      OnLeaveOpen(m, reply);
      SilentCalling(m);
      Go(LeaveLoop);
      ClearCall();
      InKept();
      OutKept();
      KnownStill();
    }

    /** The fields of the call and of its sources, and the dispatcher of what was deferred. */
    method ClearCall()
      modifies `call, `sock, `dispatcher
      ensures call == EndCall(old(call)) && !call.inNested && call.timedOut == old(call).timedOut
      ensures sock == old(sock).(nestedSource := false, nestedOut := false, blocked := false, mainOut := false)
      ensures dispatcher == if incomingAsync != [] && old(dispatcher).NoSource? then Armed else old(dispatcher)
    {
      call := call.(timer := false, inNested := false, curId := 0, curReply := None);
      dispatcher := if incomingAsync != [] && dispatcher.NoSource? then Armed else dispatcher;
      sock := sock.(nestedSource := false, nestedOut := false, blocked := false, mainOut := false);
    }

    /** The last flush of sendSyncMessage and its return. */
    method LastFlush()
      requires Valid() && Top(m, Flushing) && m.stack.below.Push? && m.stack.below.top.Returning? && !call.inNested
      modifies this
      ensures Valid() && Later(old(Now()), Now()) && payload == old(payload) && |script| <= |old(script)|
      ensures m.stack == old(m).stack.below.below && !call.inNested
      ensures m.h.outcomes == old(m).h.outcomes + [Outcome(old(m).h.call, old(m).stack.below.top.reply, old(m).h.acceptedAt)]
    {
      hide Can, Do, Inv, ValidRun, After, Later, Flushed, Promised, Deferred, Arriving, Marked, Frame, Missing;
      hide Told, EnvAfter, Silent, React, Due, Select, WentOn;
      ProcessOutgoingMessages();
      FlushedCall(old(Now()), Now());
      ghost var s := Now();
      OnCallReturn(m);
      SilentCalling(m);
      Go(CallReturn);
      LaterStill(old(Now()), s, Now());
    }

    /** sendSyncMessage up to its first flush. */
    method BeginCall(msg: Msg, timed: bool)
      requires Sound() && Due(SendSync(msg, timed)) && UserTurn(m.stack) && !call.inNested && WellFormed(msg) && Id(msg) != 0
      modifies `call, `outgoing, `m, `trace, `log, `held
      ensures Valid() && trace == old(trace) + [SendSync(msg, timed)] && Grows(old(m.h), m.h) && (old(m.sock.open) || !m.sock.open)
      ensures WentOn(old(Now()), Now())
      ensures m.stack == Push(Flushing, Push(Calling(timed), old(m.stack)))
      ensures m.h.call == old(|m.h.pushed|) && m.h.pushed == old(m.h.pushed) + [Mark(msg, SyncBit)] && Id(Mark(msg, SyncBit)) == Id(msg)
    {
      hide Can, Do, Inv, ValidRun, After, Later, Flushed, Promised, Deferred, Arriving, Marked, Frame, Missing;
      hide Told, EnvAfter, Silent, React, Due, Select, WentOn;
      OnSendSync(m, msg, timed);
      call := call.(inNested := true, curId := Id(msg), curReply := None);
      outgoing := outgoing + [Mark(msg, SyncBit)];
      Tick(SendSync(msg, timed));
    }

    // ---- event loops ---------------------------------------------------------------------

    /** How the machine wakes for a condition. */
    ghost function Wake(condition: Input): Event {
      match condition
      case HangUp => WakeHup
      case Writable => WakeOut
      case _ => WakeIn
    }

    /** A watched condition of the socket in the loop in charge. */
    method SocketCallback(condition: Input)
      requires Sound() && Due(Wake(condition)) && AtLoop(m.stack) && sock.open
      requires condition.HangUp? || condition.Readable? || (condition.Writable? && ActiveOut(m))
      modifies this, lengthBytes, payload
      ensures Valid() && Later(old(Now()), Now()) && (payload == old(payload) || fresh(payload)) && |script| <= |old(script)|
      ensures m.stack == old(m.stack) && (condition.HangUp? ==> !sock.open)
      ensures old(trace) + [Wake(condition)] <= trace
      ensures sock.open || LossIn(old(log), log)
      decreases |script|, 4, 0
    {
      hide Can, Do, Inv, ValidRun, After, Later, Flushed, Promised, Deferred, Arriving, Marked, Frame, Missing;
      hide Told, EnvAfter, Silent, React, Due, Select, WentOn;
      LaterSelf(Now());
      if condition.HangUp? {
        OnWakeHup(m);
        ArrivingClosed(m.inBuf, lengthBytes[..], payload[..], inLengthHandled, inPayloadHandled);
        Disconnected(WakeHup, m.stack);
      } else if condition.Writable? {
        FlushAgain();
      } else {
        OnWakeIn(m);
        Tick(WakeIn);
        ghost var s := Now();
        ReadAll();
        LaterStill(old(Now()), s, Now());
        LaterMore(s, Now());
      }
      LossHasReason(old(Now()));
    }

    /** A socket that was open at an earlier moment is open still, or the outside took it. */
    lemma LossHasReason(before: Moment)
      requires Core() && Later(before, Now()) && Told(before.log, inbound) && EnvAfter(before.log, inbound).s.sock.open
      ensures sock.open || LossIn(before.log, log)
    {
      LaterMore(before, Now());
      hide Inv, ValidRun, After, Later, Told, EnvAfter, Promised, Deferred, LossIn, Select;
      LostOnlyByOutside(before.log, log, inbound);
    }

    /** OUT: the watch on it ends and the queue is flushed. */
    method FlushAgain()
      requires Sound() && Due(WakeOut) && AtLoop(m.stack) && sock.open && ActiveOut(m)
      modifies this
      ensures Valid() && Later(old(Now()), Now()) && payload == old(payload) && |script| <= |old(script)|
      ensures m.stack == old(m.stack) && old(trace) + [WakeOut] <= trace
      ensures !sock.open || sock.blocked || outgoing == []
    {
      hide Can, Do, Inv, ValidRun, After, Later, Flushed, Promised, Deferred, Arriving, Marked, Frame, Missing;
      hide Told, EnvAfter, Silent, React, Due, Select, WentOn;
      hide Ran, Known, OutMatches, InMatches, Matches;
      Unblock();
      ghost var s := Now();
      ProcessOutgoingMessages();
      FlushedLater(s, Now());
      LaterStill(old(Now()), s, Now());
      LaterMore(s, Now());
    }

    method Unblock()
      requires Sound() && Due(WakeOut) && AtLoop(m.stack) && sock.open && ActiveOut(m)
      modifies `sock, `m, `trace, `log, `held
      ensures Valid() && Later(old(Now()), Now()) && m.stack == Push(Flushing, old(m.stack)) && trace == old(trace) + [WakeOut]
    {
      hide Can, Do, Inv, ValidRun, After, Later, Flushed, Promised, Deferred, Arriving, Marked, Frame, Missing;
      hide Told, EnvAfter, Silent, React, Due, Select, WentOn;
      hide Ran, Known, OutMatches, InMatches;
      OnWakeOut(m);
      sock := if call.inNested then sock.(blocked := false, nestedOut := false) else sock.(blocked := false, mainOut := false);
      Tick(WakeOut);
      InKept();
      OutKept();
      KnownStill();
    }

    /** The read loop of socketCallback. */
    method ReadAll()
      requires Valid() && Top(m, Reading)
      modifies this, lengthBytes, payload
      ensures Valid() && Later(old(Now()), Now()) && (payload == old(payload) || fresh(payload)) && |script| <= |old(script)|
      ensures m.stack == old(m.stack).below && (old(sock.open) ==> sock.open || LossIn(old(log), log))
      decreases |script|, 3, 1
    {
      hide Can, Do, Inv, ValidRun, After, Later, Flushed, Promised, Deferred, Arriving, Marked, Frame, Missing;
      hide Told, EnvAfter, Silent, React, Due, Select, WentOn;
      LaterSelf(Now());
      ghost var first := Now();
      var again := true;
      while again
        invariant Valid() && Later(first, Now()) && (payload == old(payload) || fresh(payload)) && |script| <= |old(script)|
        invariant m.stack == if again then old(m.stack) else old(m.stack).below
        decreases |script|, again
      {
        ghost var s := Now();
        again := ProcessIncomingMessages();
        LaterStill(first, s, Now());
      }
      if old(sock.open) { LossHasReason(first); }
    }

    lemma NestedDue(next: Option<Input>)
      requires Ran() && Top(m, Waiting) && !m.call.quit && held == (if next.Some? then [next.value] else []) && (next.None? ==> script == [])
      ensures Silent(m) == None && React(World(), inbound, next) == NestedReaction(m, next)
      ensures NestedReaction(m, next).Then? ==> Due(NestedReaction(m, next).event)
    {
      SilentCalling(m);
      NestedReacts(World(), inbound, next);
      hide Silent, React, NestedReaction, Inv, ValidRun, After, Told, EnvAfter, Due;
      if NestedReaction(m, next).Then? { DueNext(next, NestedReaction(m, next).event); }
    }

    /** The nested loop: runs until it is told to quit; when nothing else happens any more the connection goes. */
    method RunNestedLoop()
      requires Valid() && Top(m, Waiting)
      modifies this, lengthBytes, payload
      ensures Valid() && Later(old(Now()), Now()) && (payload == old(payload) || fresh(payload)) && |script| <= |old(script)|
      ensures m.stack == old(m.stack) && call.quit && (old(sock.open) ==> sock.open || LossIn(old(log), log))
      decreases |script|, 5, 0
    {
      hide Can, Do, Inv, ValidRun, After, Later, Flushed, Promised, Deferred, Arriving, Marked, Frame, Missing;
      hide Told, EnvAfter, Silent, React, Due, Select, WentOn;
      LaterSelf(Now());
      ghost var first := Now();
      while !call.quit
        invariant Valid() && Later(first, Now()) && (payload == old(payload) || fresh(payload)) && |script| <= |old(script)|
        invariant m.stack == first.now.stack
        decreases |script|, !call.quit
      {
        WaitingFacts(m);
        ghost var s := Now();
        var next := Take();
        NestedDue(next);
        if next.None? {
          SocketCallback(HangUp);
        } else {
          NestedTurn(next.value);
        }
        LaterStill(first, s, Now());
        WaitingFacts(m);
      }
      if old(sock.open) { LossHasReason(first); }
    }

    /** One turn of the nested loop. */
    method NestedTurn(next: Input)
      requires Sound() && held == [next] && Top(m, Waiting) && !call.quit && sock.open && call.inNested
      modifies this, lengthBytes, payload
      ensures Valid() && Later(old(Now()), Now()) && (payload == old(payload) || fresh(payload)) && |script| <= |old(script)|
      ensures m.stack == old(m.stack)
      ensures next.TimerFired? && old(call.timer) ==> call == old(call).(timer := false, timedOut := true, quit := true)
      ensures next.HangUp? || next.Readable? || (next.Writable? && old(sock.nestedOut)) ==> old(trace) + [Wake(next)] <= trace
      ensures next.OtherThread? && WellFormed(next.msg) && KindOf(next.msg) == Oneway ==>
                otherThreadOutgoing == old(otherThreadOutgoing) + [next.msg]
      decreases |script|, 4, 1
    {
      hide Can, Do, Inv, ValidRun, After, Later, Flushed, Promised, Deferred, Arriving, Marked, Frame, Missing;
      hide Told, EnvAfter, Silent, React, Due, Select, WentOn;
      hide WellFormed, KindOf;
      LaterSelf(Now());
      NestedDue(Some(next));
      if next.HangUp? || next.Readable? || (next.Writable? && sock.nestedOut) {
        SocketCallback(next);
      } else if next.TimerFired? && call.timer {
        OnWakeTimeout(m);
        call := call.(timer := false, timedOut := true, quit := true);
        Tick(WakeTimeout);
      } else if next.OtherThread? && WellFormed(next.msg) && KindOf(next.msg) == Oneway {
        QueueAsyncMessage(next.msg);
      } else {
        Note(next, Nothing);
      }
    }

    // ---- the main loop ----------------------------------------------------------------------

    /** sendAsyncMessage from another thread, as far as the queue. */
    method QueueAsyncMessage(msg: Msg)
      requires Sound() && held == [OtherThread(msg)] && WellFormed(msg) && KindOf(msg) == Oneway
      requires Silent(m) == None && React(World(), inbound, Some(OtherThread(msg))) == Queue(msg)
      modifies `otherThreadOutgoing, `log, `held
      ensures Valid() && Later(old(Now()), Now()) && otherThreadOutgoing == old(otherThreadOutgoing) + [msg]
    {
      hide Can, Do, Inv, ValidRun, After, Later, Flushed, Promised, Arriving, Marked, Frame, Missing;
      hide Told, EnvAfter, Silent, React, Due, Select, WentOn, KindOf, WellFormed;
      otherThreadOutgoing := otherThreadOutgoing + [msg];
      Note(OtherThread(msg), Queue(msg));
    }

    /** Moves what other threads queued to the channel's own queue, in order, and sends. */
    method AsyncCallerDispatch()
      requires Sound() && Due(Drain(otherThreadOutgoing)) && m.stack.Empty?
      modifies this
      ensures Valid() && Later(old(Now()), Now()) && payload == old(payload) && |script| <= |old(script)| && m.stack == old(m.stack)
      ensures m.h.pushed == old(m.h.pushed) + old(otherThreadOutgoing) && otherThreadOutgoing == []
    {
      hide Can, Do, Inv, ValidRun, After, Later, Flushed, Promised, Deferred, Arriving, Marked, Frame, Missing;
      hide Told, EnvAfter, Silent, React, Due, Select, WentOn;
      hide WellFormed, KindOf, Frames, Grows;
      hide Ran, Known, OutMatches, InMatches, Matches;
      TakeOverAll();
      ghost var s := Now();
      ProcessOutgoingMessages();
      FlushedLater(s, Now());
      LaterStill(old(Now()), s, Now());
    }

    method TakeOverAll()
      requires Sound() && Due(Drain(otherThreadOutgoing)) && m.stack.Empty?
      modifies `outgoing, `otherThreadOutgoing, `m, `trace, `log, `held
      ensures Valid() && Later(old(Now()), Now()) && m.stack == Push(Flushing, old(m.stack))
      ensures m.h.pushed == old(m.h.pushed) + old(otherThreadOutgoing) && otherThreadOutgoing == []
    {
      hide Can, Do, Inv, ValidRun, After, Later, Flushed, Promised, Deferred, Arriving, Marked, Frame, Missing;
      hide Told, EnvAfter, Silent, React, Due, Select, WentOn;
      hide OutMatches, InMatches;
      ghost var all := otherThreadOutgoing;
      OnDrain(m, all);
      TakeOver();
      NoneDeferred();
      Tick(Drain(all));
      InKept();
      OutKept();
    }

    /** Under the mutex, one message after the other. */
    method TakeOver()
      modifies `outgoing, `otherThreadOutgoing
      ensures outgoing == old(outgoing) + old(otherThreadOutgoing) && otherThreadOutgoing == []
    {
      while otherThreadOutgoing != []
        invariant outgoing + otherThreadOutgoing == old(outgoing) + old(otherThreadOutgoing)
        decreases |otherThreadOutgoing|
      {
        outgoing := outgoing + [otherThreadOutgoing[0]];
        otherThreadOutgoing := otherThreadOutgoing[1..];
      }
    }

    lemma MainDue(next: Input)
      requires Ran() && m.stack.Empty? && held == [next]
      ensures Silent(m) == None && React(World(), inbound, Some(next)) == MainReaction(World(), Some(next))
      ensures MainReaction(World(), Some(next)).Then? ==> Due(MainReaction(World(), Some(next)).event)
    {
      SilentUser(m);
      MainReacts(World(), inbound, Some(next));
      hide Silent, React, MainReaction, Inv, ValidRun, After, Told, EnvAfter, Due;
      if MainReaction(World(), Some(next)).Then? { DueNext(Some(next), MainReaction(World(), Some(next)).event); }
    }

    /** One turn of the main loop. */
    method Turn(next: Input)
      requires Sound() && held == [next] && m.stack.Empty?
      modifies this, lengthBytes, payload
      ensures Valid() && Later(old(Now()), Now()) && (payload == old(payload) || fresh(payload)) && |script| <= |old(script)|
      ensures m.stack.Empty?
      ensures next.CallerByte? ==> m.h.pushed == old(m.h.pushed) + old(otherThreadOutgoing) && otherThreadOutgoing == []
      ensures next.IdleTurn? && old(dispatcher) == Armed ==> old(trace) + [WakeIdle] <= trace && dispatcher != Armed
      ensures old(sock.open) && (next.HangUp? || next.Readable? || (next.Writable? && old(sock.mainOut))) ==>
                old(trace) + [Wake(next)] <= trace && (next.HangUp? ==> !sock.open)
      ensures next.Async? && WellFormed(next.msg) && KindOf(next.msg) == Oneway ==> m.h.pushed == old(m.h.pushed) + [next.msg]
      ensures next.OtherThread? && WellFormed(next.msg) && KindOf(next.msg) == Oneway ==>
                otherThreadOutgoing == old(otherThreadOutgoing) + [next.msg]
      ensures next.Suspended? ==> remoteIsSuspended == next.val
      ensures next.Sync? && WellFormed(next.msg) && Id(next.msg) != 0 && !old(remoteIsSuspended) ==>
                Called(old(trace), old(|m.h.pushed|), next.msg, next.timed)
    {
      hide Can, Do, Inv, ValidRun, After, Later, Flushed, Promised, Deferred, Arriving, Marked, Frame, Missing;
      hide Told, EnvAfter, Silent, React, Due, Select, WentOn;
      hide WellFormed, KindOf, Has, Id;
      LaterSelf(Now());
      IdleFacts(m);
      MainDue(next);
      if next.Async? || next.Sync? || next.Reply? || next.OtherThread? || next.Suspended? {
        Act(next);
      } else if next.CallerByte? {
        AsyncCallerDispatch();
      } else if next.IdleTurn? && dispatcher == Armed {
        DispatchIncomingAsyncMessagesCallback();
      } else if sock.open && (next.HangUp? || next.Readable? || (next.Writable? && sock.mainOut)) {
        SocketCallback(next);
      } else {
        Note(next, Nothing);
      }
    }

    /**
     The life of a channel: the main loop until nothing more happens.  All inputs
     of the script were taken, in order, and with them the log is decided.
     */
    method Run()
      requires Valid() && m.stack.Empty?
      modifies this, lengthBytes, payload
      ensures Valid() && Later(old(Now()), Now()) && m.stack.Empty? && script == []
      ensures Inputs(log) == Inputs(old(log)) + old(script) && EndsLast(log, |old(log)|, Inputs(log))
    {
      hide Can, Do, Inv, ValidRun, After, Later, Flushed, Promised, Deferred, Arriving, Marked, Frame, Missing;
      hide Told, EnvAfter, Silent, React, Due, Select;
      LaterSelf(Now());
      while script != []
        invariant Valid() && Later(old(Now()), Now()) && m.stack.Empty? && (payload == old(payload) || fresh(payload))
        decreases |script|
      {
        ghost var s := Now();
        var next := Take();
        Turn(next.value);
        LaterStill(old(Now()), s, Now());
      }
      LaterStory(old(Now()), Now());
      assert [] + old(script) == old(script) && Inputs(log) + ([] + script) == Inputs(log);
    }

    /** A fresh channel on an open socket. */
    constructor (inbound: seq<byte>, ghost peer: seq<Msg>, script: seq<Input>)
      requires AllWellFormed(peer) && inbound <= Frames(peer)
      ensures Valid() && m == Start() && log == [] && fresh(lengthBytes) && fresh(payload)
      ensures this.inbound == inbound && this.peer == peer && this.script == script
    {
      this.inbound, this.peer, this.script := inbound, peer, script;
      taken, wire, delivered := 0, [], [];
      sock, call := Start().sock, Start().call;
      replyForIncoming, outgoing, outLengthHandled, outPayloadHandled := None, [], 0, 0;
      otherThreadOutgoing, incomingAsync, dispatcher := [], [], NoSource;
      lengthBytes, payload := new byte[LENGTH_SIZE], new byte[0];
      inLengthHandled, inPayloadHandled := 0, 0;
      remoteIsSuspended := false;
      m, trace, log, held, served := Start(), [], [], [], [];
      new;
      FreshChannel(peer, inbound, lengthBytes[..], payload[..]);
      hide ValidRun, After, Inv, Promised, Arriving, Deferred, AllWellFormed, Frames;
    }

    /**
     What holds of the object between any two of its steps: it received the
     peer's messages in order, gave the asynchronous ones to the listener in
     order, put on the wire the frames of what was queued, in order, and never
     waits with output that nothing will send, nor with messages that nothing
     will deliver.
     */
    lemma Guarantees()
      requires Sound()
      ensures m.h.completed <= peer
      ensures delivered + Unmarked(incomingAsync) == Select(m.h.completed, Oneway) && served == Select(m.h.completed, Request)
      ensures wire <= Frames(m.h.pushed)
      ensures outgoing == [] ==> wire == Frames(m.h.pushed)
      ensures AtLoop(m.stack) && sock.open && outgoing != [] ==> sock.blocked && ActiveOut(m)
      ensures m.stack.Empty? && sock.open && incomingAsync != [] ==> dispatcher == Armed
    {
      if m.stack.Empty? && incomingAsync != [] { DeferredMessages.DeferredHaveDispatcher(m); }
      InvSends(m);
      SentIsPrefix(m.h.pushed, wire, outgoing, m.outDone);
      NotStalled(m);
      InvReceives(m);
      hide Inv, ValidRun, After, Frames, Frame, Partial, WellFormed, Deferred, Select, Unmarked;
      assert Frames(m.h.completed) + m.inBuf <= Frames(peer);
      var n := FrameBeingRead(m.h.completed, m.inBuf, peer);
    }
  }

  lemma FreshChannel(peer: seq<Msg>, inbound: seq<byte>, lengthBytes: seq<byte>, payload: seq<byte>)
    requires AllWellFormed(peer) && inbound <= Frames(peer) && |lengthBytes| == LENGTH_SIZE
    ensures ValidRun([]) && After([]) == Start() && Inv(Start()) && Deferred([])
    ensures Promised(peer, inbound, 0, []) && Arriving([], true, lengthBytes, payload, 0, 0)
  {
    InvStart();
    hide Inv, AllWellFormed, Frames;
  }
}
