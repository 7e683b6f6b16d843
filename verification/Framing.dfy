/**
 The byte stream between two channels: each message is preceded by its length
 as a 4-byte integer.
 */
module Framing {
  import opened Bytes
  import opened Messages

  const LENGTH_SIZE: nat := 4

  function Frame(m: Msg): (f: seq<byte>)
    ensures |f| == LENGTH_SIZE + |m|
  {
    Le(|m|, LENGTH_SIZE) + m
  }

  function Frames(ms: seq<Msg>): seq<byte> {
    if ms == [] then [] else Frame(ms[0]) + Frames(ms[1..])
  }

  ghost predicate AllWellFormed(ms: seq<Msg>) {
    forall m :: m in ms ==> WellFormed(m)
  }

  /** The length field of a frame of which at least four bytes are known. */
  function LengthField(buf: seq<byte>): int
    requires |buf| >= LENGTH_SIZE
  {
    Signed(buf[..LENGTH_SIZE])
  }

  /** How many bytes the current segment of a partial frame still needs: first the length, then the payload. */
  function Missing(buf: seq<byte>): int {
    if |buf| < LENGTH_SIZE then LENGTH_SIZE - |buf| else LENGTH_SIZE + LengthField(buf) - |buf|
  }

  predicate IsWhole(buf: seq<byte>) {
    |buf| >= LENGTH_SIZE && Missing(buf) == 0
  }

  /** The start of a frame some peer could have sent. */
  predicate Partial(buf: seq<byte>) {
    && (|buf| >= LENGTH_SIZE ==> WellSized(LengthField(buf)) && Missing(buf) >= 0)
    && (IsWhole(buf) ==> !Has(buf[LENGTH_SIZE..], DisconnectBit))
  }

  lemma FrameLength(m: Msg)
    requires |m| < TWO_TO_31
    ensures LengthField(Frame(m)) == |m| && IsWhole(Frame(m))
    ensures Frame(m)[LENGTH_SIZE..] == m
  {
    Pow256Values();
    LeSigned(|m|, LENGTH_SIZE);
    assert Frame(m)[..LENGTH_SIZE] == Le(|m|, LENGTH_SIZE);
  }

  lemma {:induction false} FramesConcat(p: seq<Msg>, q: seq<Msg>)
    ensures Frames(p + q) == Frames(p) + Frames(q)
  {
    hide Frame, Le;
    if p == [] {
      assert p + q == q;
    } else {
      FramesConcat(p[1..], q);
      assert (p + q)[1..] == p[1..] + q && (p + q)[0] == p[0];
      assert Frames(p + q) == Frame(p[0]) + (Frames(p[1..]) + Frames(q));
    }
  }

  lemma FramesAppend(p: seq<Msg>, m: Msg)
    ensures Frames(p + [m]) == Frames(p) + Frame(m)
  {
    FramesConcat(p, [m]);
    assert Frames([m]) == Frame(m) + Frames([]);
  }

  /** A whole received frame is determined by its bytes. */
  lemma WholeIsFrame(buf: seq<byte>)
    requires Partial(buf) && IsWhole(buf)
    ensures WellFormed(buf[LENGTH_SIZE..]) && Frame(buf[LENGTH_SIZE..]) == buf
  {
    Pow256Values();
    UnsignedLe(buf[..LENGTH_SIZE]);
    assert Unsigned(buf[..LENGTH_SIZE]) == LengthField(buf);
    assert buf == buf[..LENGTH_SIZE] + buf[LENGTH_SIZE..];
  }

  /** Any start of a well-formed frame is acceptable to the receiver, and only the full frame is whole. */
  lemma PrefixIsPartial(buf: seq<byte>, m: Msg)
    requires WellFormed(m) && buf <= Frame(m)
    ensures Partial(buf) && (IsWhole(buf) <==> buf == Frame(m))
    ensures |buf| + Missing(buf) <= |Frame(m)|
  {
    FrameLength(m);
    if |buf| >= LENGTH_SIZE {
      assert buf[..LENGTH_SIZE] == Frame(m)[..LENGTH_SIZE];
      if IsWhole(buf) { assert buf == Frame(m)[..|buf|]; }
    }
  }

  /**
   The stream determines its messages: if what was read, parsed so far as
   `got` and the unfinished `buf`, is a start of what was written, the frames
   of `put` and part of the frame of `next`, then the read messages are the
   first written ones and `buf` starts the frame of the one after them; and
   nothing is missing only when nothing is in flight.
   */
  lemma {:induction false} StreamDeterminesMessages(put: seq<Msg>, next: Msg, done: nat, got: seq<Msg>, buf: seq<byte>)
    requires AllWellFormed(put) && WellFormed(next) && done < |Frame(next)|
    requires AllWellFormed(got) && Partial(buf)
    requires Frames(got) + buf <= Frames(put) + Frame(next)[..done]
    ensures got <= put
    ensures buf <= Frame((put + [next])[|got|])
    ensures Frames(got) + buf == Frames(put) + Frame(next)[..done] && !IsWhole(buf) ==> got == put
  {
    hide Signed, Unsigned, Le, Has, Frame, Partial;
    var tail := Frame(next)[..done];
    if got == [] {
      assert Frames(got) + buf == buf;
      NoneRead(put, next, done, buf);
    } else {
      assert Frames(got) + buf == Frame(got[0]) + (Frames(got[1..]) + buf);
      FirstReadIsFirstWritten(put, next, done, got[0], Frames(got[1..]) + buf);
      assert put == [put[0]] + put[1..] && got == [got[0]] + got[1..];
      StreamDeterminesMessages(put[1..], next, done, got[1..], buf);
      assert (put + [next])[1..] == put[1..] + [next];
    }
  }

  lemma NoneRead(put: seq<Msg>, next: Msg, done: nat, buf: seq<byte>)
    requires AllWellFormed(put) && WellFormed(next) && done < |Frame(next)|
    requires Partial(buf) && buf <= Frames(put) + Frame(next)[..done]
    ensures buf <= Frame((put + [next])[0])
    ensures buf == Frames(put) + Frame(next)[..done] && !IsWhole(buf) ==> put == []
  {
    hide Signed, Unsigned, Le, Has, Frame, Partial;
    if put == [] {
      assert Frames(put) + Frame(next)[..done] == Frame(next)[..done];
    } else {
      var rest := Frames(put[1..]) + Frame(next)[..done];
      assert Frames(put) + Frame(next)[..done] == Frame(put[0]) + rest;
      FirstFrame(put[0], rest, buf);
      PrefixIsPartial(buf, put[0]);
    }
  }

  lemma FirstReadIsFirstWritten(put: seq<Msg>, next: Msg, done: nat, first: Msg, more: seq<byte>)
    requires AllWellFormed(put) && WellFormed(next) && done < |Frame(next)| && WellFormed(first)
    requires Frame(first) + more <= Frames(put) + Frame(next)[..done]
    ensures put != [] && first == put[0]
    ensures more <= Frames(put[1..]) + Frame(next)[..done]
    ensures Frame(first) + more == Frames(put) + Frame(next)[..done] ==> more == Frames(put[1..]) + Frame(next)[..done]
  {
    hide Signed, Unsigned, Le, Has, Frame, Partial;
    var tail := Frame(next)[..done];
    HeadIsPrefix(Frame(first), more, Frames(put) + tail);
    WellFormedIsPartial(first);
    FrameLength(first);
    NoneRead(put, next, done, Frame(first));
    PrefixIsPartial(Frame(first), (put + [next])[0]);
    if put == [] {
      assert false;
    } else {
      FrameLength(put[0]);
      SameFrameSameMessage(first, put[0]);
      assert Frames(put) + tail == Frame(first) + (Frames(put[1..]) + tail);
      DropPrefix(Frame(first), more, Frames(put[1..]) + tail);
    }
  }

  lemma SameFrameSameMessage(m: Msg, n: Msg)
    requires Frame(m) == Frame(n)
    ensures m == n
  {
    assert m == Frame(m)[LENGTH_SIZE..];
    assert n == Frame(n)[LENGTH_SIZE..];
  }

  lemma HeadIsPrefix(p: seq<byte>, x: seq<byte>, y: seq<byte>)
    requires p + x <= y
    ensures p <= y
  {
    assert forall i :: 0 <= i < |p| ==> p[i] == (p + x)[i] == y[i];
  }

  lemma WellFormedIsPartial(m: Msg)
    requires WellFormed(m)
    ensures Partial(Frame(m))
  {
    PrefixIsPartial(Frame(m), m);
  }

  lemma DropPrefix(p: seq<byte>, x: seq<byte>, y: seq<byte>)
    requires p + x <= p + y
    ensures x <= y
    ensures p + x == p + y ==> x == y
  {
    assert x == (p + x)[|p|..];
    assert (p + y)[|p|..] == y;
    assert forall i :: 0 <= i < |x| ==> x[i] == (p + x)[|p| + i] == (p + y)[|p| + i] == y[i];
  }

  /** A partial frame that starts a stream beginning with the frame of `m` starts that frame. */
  lemma FirstFrame(m: Msg, rest: seq<byte>, buf: seq<byte>)
    requires WellFormed(m) && Partial(buf) && buf <= Frame(m) + rest
    ensures buf <= Frame(m)
  {
    FrameLength(m);
    if |buf| >= LENGTH_SIZE {
      assert buf[..LENGTH_SIZE] == (Frame(m) + rest)[..LENGTH_SIZE] == Frame(m)[..LENGTH_SIZE];
      assert LengthField(buf) == |m|;
    }
  }

  /** Bytes that follow an unfinished frame on the stream continue that frame, up to its end. */
  lemma NextBytes(put: seq<Msg>, next: Msg, done: nat, c: nat, buf: seq<byte>)
    requires c <= |put| && done <= |Frame(next)|
    requires Frames(put[..c]) + buf <= Frames(put) + Frame(next)[..done]
    requires |buf| <= |Frame((put + [next])[c])|
    ensures buf <= Frame((put + [next])[c])
  {
    hide Frame, Frames;
    var tail := Frame(next)[..done];
    FramesConcat(put[..c], put[c..]);
    assert put[..c] + put[c..] == put;
    assert Frames(put) + tail == Frames(put[..c]) + (Frames(put[c..]) + tail);
    DropPrefix(Frames(put[..c]), buf, Frames(put[c..]) + tail);
    if c < |put| {
      HeadFrame(put[c..]);
      assert Frames(put[c..]) + tail == Frame(put[c]) + (Frames(put[c..][1..]) + tail);
    } else {
      NoFrames(put[c..]);
      assert Frames(put[c..]) + tail == tail;
    }
  }

  lemma HeadFrame(ms: seq<Msg>)
    requires ms != []
    ensures Frames(ms) == Frame(ms[0]) + Frames(ms[1..])
  {}

  lemma NoFrames(ms: seq<Msg>)
    requires ms == []
    ensures Frames(ms) == []
  {}
}
