/** The buffers and byte counters of a channel, and the peer's stream that fills them. */
module ChannelBuffers {
  import opened Bytes
  import opened Endpoint
  import opened EndpointInvariants
  import opened Framing
  import opened Link
  import opened Messages
  import opened Scripts

  /** The two counters of a message being sent; after a loss they are not brought up to date. */
  predicate SendCounters(done: nat, open: bool, length: nat, payload: nat) {
    && length <= LENGTH_SIZE && (length < LENGTH_SIZE ==> payload == 0)
    && (open ==> done == length + payload)
  }

  lemma SliceOfSlice(f: seq<byte>, lo: nat, hi: nat, at: nat, n: nat)
    requires lo <= hi <= |f| && at + n <= hi - lo
    ensures f[lo..hi][at..at + n] == f[lo + at..lo + at + n]
  {
    assert f == f[..lo] + f[lo..hi] + f[hi..];
    assert forall k {:trigger f[lo..hi][k]} :: 0 <= k < hi - lo ==> f[lo..hi][k] == f[lo + k];
  }

  lemma LengthPart(msg: Msg, k: nat)
    requires k <= LENGTH_SIZE
    ensures Le(|msg|, LENGTH_SIZE)[k..] == Frame(msg)[k..LENGTH_SIZE] && |Frame(msg)| == LENGTH_SIZE + |msg|
  {}

  lemma PayloadPart(msg: Msg, k: nat)
    requires k <= |msg|
    ensures msg[k..] == Frame(msg)[LENGTH_SIZE + k..]
  {}

  lemma SentIsPrefix(pushed: seq<Msg>, sent: seq<byte>, outgoing: seq<Msg>, done: nat)
    requires SendOk(pushed, sent, outgoing, done)
    ensures sent <= Frames(pushed) && (outgoing == [] ==> sent == Frames(pushed))
  {
    hide Frame, Frames, WellFormed;
    if outgoing != [] {
      var k := |pushed| - |outgoing|;
      FramesConcat(pushed[..k], outgoing);
      assert pushed == pushed[..k] + outgoing;
      HeadFrame(outgoing);
      var f, rest := Frame(outgoing[0]), Frames(outgoing[1..]);
      assert Frames(pushed) == Frames(pushed[..k]) + (f[..done] + f[done..] + rest);
    }
  }

  /** The counters and buffers of a message being received, likewise. */
  predicate Arriving(buf: seq<byte>, open: bool, lengthBytes: seq<byte>, payload: seq<byte>, length: nat, handled: nat) {
    && length <= |lengthBytes|
    && (length == LENGTH_SIZE ==> handled < |payload|)
    && (open ==> handled <= |payload| && buf == lengthBytes[..length] + payload[..handled])
    && (open && length == LENGTH_SIZE ==> |payload| == Signed(lengthBytes))
  }

  lemma ArrivingClosed(buf: seq<byte>, lengthBytes: seq<byte>, payload: seq<byte>, length: nat, handled: nat)
    requires Arriving(buf, true, lengthBytes, payload, length, handled)
    ensures Arriving(buf, false, lengthBytes, payload, length, handled)
  {}

  lemma LengthWanted(buf: seq<byte>, open: bool, lengthBytes: seq<byte>, payload: seq<byte>, k: nat)
    requires Arriving(buf, open, lengthBytes, payload, k, 0) && k < LENGTH_SIZE
    ensures open ==> Missing(buf) == LENGTH_SIZE - k
  {}

  lemma LengthLost(lengthBytes: seq<byte>, payload: seq<byte>, k: nat, buf: seq<byte>)
    requires |lengthBytes| == LENGTH_SIZE && k < LENGTH_SIZE
    ensures Arriving(buf, false, lengthBytes, payload, k, 0)
  {}

  lemma LengthGrew(buf: seq<byte>, before: seq<byte>, lengthBytes: seq<byte>, payload: seq<byte>, k: nat, n: nat, buf': seq<byte>)
    requires Arriving(buf, true, before, payload, k, 0) && k + n <= LENGTH_SIZE == |lengthBytes|
    requires lengthBytes[..k] == before[..k] && buf' == buf + lengthBytes[k..k + n]
    ensures k + n < LENGTH_SIZE ==> Arriving(buf', true, lengthBytes, payload, k + n, 0)
    ensures k + n == LENGTH_SIZE ==> buf' == lengthBytes
  {
    assert lengthBytes[..k + n] == lengthBytes[..k] + lengthBytes[k..k + n];
  }

  lemma LengthSane(buf: seq<byte>, lengthBytes: seq<byte>)
    requires buf == lengthBytes && |buf| == LENGTH_SIZE && Partial(buf)
    ensures Signed(lengthBytes) >= HEADER_SIZE
  {
    assert buf[..LENGTH_SIZE] == buf;
  }

  lemma LengthKnown(lengthBytes: seq<byte>, payload: seq<byte>)
    requires |lengthBytes| == LENGTH_SIZE && |payload| == Signed(lengthBytes) >= HEADER_SIZE
    ensures Arriving(lengthBytes, true, lengthBytes, payload, LENGTH_SIZE, 0)
  {}

  lemma PayloadWanted(buf: seq<byte>, open: bool, lengthBytes: seq<byte>, payload: seq<byte>, k: nat)
    requires |lengthBytes| == LENGTH_SIZE && Arriving(buf, open, lengthBytes, payload, LENGTH_SIZE, k)
    ensures k < |payload| && (open ==> Missing(buf) == |payload| - k)
  {
    if open { assert buf[..LENGTH_SIZE] == lengthBytes; }
  }

  lemma PayloadLost(lengthBytes: seq<byte>, payload: seq<byte>, k: nat, buf: seq<byte>)
    requires |lengthBytes| == LENGTH_SIZE && k < |payload|
    ensures Arriving(buf, false, lengthBytes, payload, LENGTH_SIZE, k)
  {}

  lemma PayloadGrew(buf: seq<byte>, lengthBytes: seq<byte>, before: seq<byte>, payload: seq<byte>, k: nat, n: nat, buf': seq<byte>)
    requires |lengthBytes| == LENGTH_SIZE && |before| == |payload| && k + n <= |payload|
    requires Arriving(buf, true, lengthBytes, before, LENGTH_SIZE, k)
    requires payload[..k] == before[..k] && buf' == buf + payload[k..k + n]
    ensures k + n < |payload| ==> Arriving(buf', true, lengthBytes, payload, LENGTH_SIZE, k + n)
    ensures k + n == |payload| ==> IsWhole(buf') && buf' == buf'[..LENGTH_SIZE] + payload
    ensures Arriving([], true, lengthBytes, payload, 0, 0)
  {
    assert payload[..k + n] == payload[..k] + payload[k..k + n];
    assert buf' == lengthBytes + payload[..k + n];
    assert buf'[..LENGTH_SIZE] == lengthBytes;
  }

  lemma MissingLess(buf: seq<byte>, data: seq<byte>)
    requires |data| <= Missing(buf)
    ensures |data| < Missing(buf) ==> Missing(buf + data) == Missing(buf) - |data| && !IsWhole(buf + data)
  {
    if |buf| >= LENGTH_SIZE { assert (buf + data)[..LENGTH_SIZE] == buf[..LENGTH_SIZE]; }
  }

  /** The peer's stream, of which `taken` bytes were received, starts a sequence of well-formed frames. */
  ghost predicate Promised(peer: seq<Msg>, inbound: seq<byte>, taken: nat, got: seq<byte>) {
    AllWellFormed(peer) && inbound <= Frames(peer) && taken <= |inbound| && got == inbound[..taken]
  }

  lemma TakenSoFar(peer: seq<Msg>, inbound: seq<byte>, taken: nat, got: seq<byte>)
    requires Promised(peer, inbound, taken, got)
    ensures |got| == taken <= |inbound|
  {
    hide Frames, AllWellFormed;
  }

  lemma LimitOf(s: State, inbound: seq<byte>, limit: nat)
    requires Missing(s.inBuf) == limit > 0 && |s.h.got| <= |inbound|
    ensures ReadLimit(s, inbound) == if limit <= |inbound| - |s.h.got| then limit else |inbound| - |s.h.got|
  {
    hide Missing;
  }

  /** The frame that the peer's stream continues with. */
  lemma FrameBeingRead(completed: seq<Msg>, buf: seq<byte>, peer: seq<Msg>) returns (n: Msg)
    requires AllWellFormed(completed) && Partial(buf) && AllWellFormed(peer) && Frames(completed) + buf <= Frames(peer)
    ensures completed <= peer && WellFormed(n) && n == (peer + [Filler()])[|completed|]
    ensures buf <= Frame(n)
  {
    hide Frame, Frames, WellFormed, Partial, IsWhole, Missing;
    var filler := Filler();
    EmptyStart(filler);
    assert Frames(peer) + Frame(filler)[..0] == Frames(peer);
    StreamDeterminesMessages(peer, filler, 0, completed, buf);
    n := (peer + [filler])[|completed|];
  }

  lemma NextBytesOf(completed: seq<Msg>, buf: seq<byte>, peer: seq<Msg>, n: Msg)
    requires completed <= peer && n == (peer + [Filler()])[|completed|]
    requires Frames(completed) + buf <= Frames(peer) && |buf| <= |Frame(n)|
    ensures buf <= Frame(n)
  {
    hide Frame, Frames, WellFormed;
    var filler := Filler();
    EmptyStart(filler);
    assert Frames(peer) + Frame(filler)[..0] == Frames(peer);
    assert peer[..|completed|] == completed;
    NextBytes(peer, filler, 0, |completed|, buf);
  }

  /** The peer's bytes up to the end of the current segment continue a well-formed frame. */
  lemma PeerBytesAreAcceptable(s: State, peer: seq<Msg>, inbound: seq<byte>, taken: nat, data: seq<byte>)
    requires ReceiveOk(s.h.completed, s.h.got, s.inBuf) && Promised(peer, inbound, taken, s.h.got)
    requires 0 < |data| <= Missing(s.inBuf) && taken + |data| <= |inbound| && data == inbound[taken..taken + |data|]
    ensures Partial(s.inBuf + data) && Promised(peer, inbound, taken + |data|, s.h.got + data)
  {
    hide Frame, Frames, WellFormed, Partial, IsWhole, Missing;
    assert s.h.got + data == inbound[..taken + |data|];
    var n := FrameBeingRead(s.h.completed, s.inBuf, peer);
    PrefixIsPartial(s.inBuf, n);
    assert Frames(s.h.completed) + (s.inBuf + data) == s.h.got + data;
    NextBytesOf(s.h.completed, s.inBuf + data, peer, n);
    PrefixIsPartial(s.inBuf + data, n);
  }
}
