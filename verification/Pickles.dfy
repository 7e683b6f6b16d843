/**
 The pickle: a cursor over a fixed buffer whose capacity and position are
 multiples of four.  The first part says what each read and write does to the
 buffer's value; the class does it in place.
 */
module Pickles {
  import opened Bytes
  import opened Options

  datatype Buf = Buf(bytes: seq<byte>, pos: nat)

  /** size() returns an int32_t, so a capacity never reaches 2^31. */
  predicate InBounds(b: Buf) {
    |b.bytes| % 4 == 0 && b.pos % 4 == 0 && b.pos <= |b.bytes| < TWO_TO_31
  }

  predicate HasRoomFor(b: Buf, len: int) {
    len >= 0 && b.pos + Align4(len) <= |b.bytes|
  }

  /** The check of writeBytes, which adds without alignment and in 32 bits. */
  predicate WriteFits(b: Buf, len: int) {
    (b.pos + len) % TWO_TO_32 <= |b.bytes|
  }

  /**
   The two checks agree on every length that is not negative, and on a negative
   one exactly when it reaches back before the start of the buffer.  Any other
   negative length passes the check of writeBytes.
   */
  lemma ChecksAgree(b: Buf, len: int)
    requires InBounds(b) && -TWO_TO_31 <= len < TWO_TO_31
    ensures (WriteFits(b, len) <==> HasRoomFor(b, len)) <==> (len >= 0 || b.pos + len < 0)
    ensures len < 0 <= b.pos + len ==> WriteFits(b, len)
  {
    if b.pos + len >= 0 {
      assert (b.pos + len) % TWO_TO_32 == b.pos + len;
      assert b.pos == 4 * (b.pos / 4) && |b.bytes| == 4 * (|b.bytes| / 4);
    } else {
      assert (b.pos + len) % TWO_TO_32 == b.pos + len + TWO_TO_32;
    }
  }

  /** static_cast<int32_t> of a size. */
  function ToInt32(n: nat): (r: int)
    ensures -TWO_TO_31 <= r < TWO_TO_31 && r <= n
    ensures n < TWO_TO_31 ==> r == n
  {
    var m := n % TWO_TO_32;
    if m < TWO_TO_31 then m else m - TWO_TO_32
  }

  // ---- writing -------------------------------------------------------------

  /** How an attempt to write ends. */
  datatype Attempt = Stored | Refused | Overrun

  datatype Written = Written(ok: bool, buf: Buf)

  function PutBytes(b: Buf, data: seq<byte>): (w: Written)
    requires InBounds(b) && |data| < TWO_TO_31
    ensures InBounds(w.buf) && |w.buf.bytes| == |b.bytes|
    ensures w.buf.pos == b.pos + (if w.ok then Align4(|data|) else 0)
    ensures w.ok <==> HasRoomFor(b, |data|)
  {
    ChecksAgree(b, |data|);
    if WriteFits(b, |data|) then
      Written(true, Buf(b.bytes[..b.pos] + data + b.bytes[b.pos + |data|..], b.pos + Align4(|data|)))
    else Written(false, b)
  }

  function PutInt32(b: Buf, n: int): (w: Written)
    requires InBounds(b)
    ensures InBounds(w.buf) && |w.buf.bytes| == |b.bytes|
  {
    PutBytes(b, Le(n, 4))
  }

  /** The length goes in first and stays even when the text does not fit. */
  function PutString(b: Buf, text: seq<byte>): (w: Written)
    requires InBounds(b) && |text| < TWO_TO_31
    ensures InBounds(w.buf) && |w.buf.bytes| == |b.bytes|
  {
    var l := PutInt32(b, |text|);
    if !l.ok then l else PutBytes(l.buf, text)
  }

  // ---- reading -------------------------------------------------------------

  datatype Taken<T> = Taken(value: Option<T>, buf: Buf)

  function TakeBytes(b: Buf, len: int): (t: Taken<seq<byte>>)
    requires InBounds(b)
    ensures InBounds(t.buf) && t.buf.bytes == b.bytes && t.buf.pos >= b.pos
    ensures t.value.Some? <==> HasRoomFor(b, len)
    ensures t.value.Some? ==> |t.value.value| == len
  {
    if HasRoomFor(b, len) then Taken(Some(b.bytes[b.pos..b.pos + len]), Buf(b.bytes, b.pos + Align4(len)))
    else Taken(None, b)
  }

  function TakeInt32(b: Buf): (t: Taken<int>)
    requires InBounds(b)
    ensures InBounds(t.buf) && t.buf.bytes == b.bytes && t.buf.pos >= b.pos
  {
    var t := TakeBytes(b, 4);
    Taken(if t.value.Some? then Some(Signed(t.value.value)) else None, t.buf)
  }

  /** A negative length is refused, but the cursor has moved past it. */
  function TakeLength(b: Buf): (t: Taken<nat>)
    requires InBounds(b)
    ensures InBounds(t.buf) && t.buf.bytes == b.bytes && t.buf.pos >= b.pos
  {
    var t := TakeInt32(b);
    Taken(if t.value.Some? && t.value.value >= 0 then Some(t.value.value) else None, t.buf)
  }

  function TakeString(b: Buf): (t: Taken<seq<byte>>)
    requires InBounds(b)
    ensures InBounds(t.buf) && t.buf.bytes == b.bytes && t.buf.pos >= b.pos
  {
    var l := TakeLength(b);
    if l.value.None? then Taken(None, l.buf) else TakeBytes(l.buf, l.value.value)
  }

  // ---- in place -------------------------------------------------------------

  class Pickle {
    const payload: array<byte>
    var position: nat

    ghost predicate Valid()
      reads this, payload
    {
      InBounds(View())
    }

    ghost function View(): Buf
      reads this, payload
    {
      Buf(payload[..], position)
    }

    /** A zeroed buffer of the requested capacity, rounded up. */
    constructor (capacity: nat)
      requires Align4(capacity) < TWO_TO_31
      ensures Valid() && fresh(payload)
      ensures View() == Buf(Zeros(Align4(capacity)), 0)
    {
      payload := new byte[Align4(capacity)](_ => 0);
      position := 0;
    }

    method UpdateIter(bytes: nat)
      requires position + Align4(bytes) <= payload.Length && Valid()
      modifies this`position
      ensures Valid() && View() == Buf(old(View()).bytes, old(position) + Align4(bytes))
    {
      position := position + Align4(bytes);
    }

    /** memcpy to the cursor. */
    method CopyIn(data: seq<byte>, len: nat)
      requires len <= |data| && position + len <= payload.Length
      modifies payload
      ensures payload[..] == old(payload[..position]) + data[..len] + old(payload[..])[position + len..]
    {
      forall i | 0 <= i < len {
        payload[position + i] := data[i];
      }
    }

    /**
     Every write is this one.  A negative length that passes the check goes on to
     memcpy; that is Overrun, and nothing is said of what follows it.
     */
    method WriteBytes(data: seq<byte>, len: int) returns (a: Attempt)
      requires Valid() && -TWO_TO_31 <= len < TWO_TO_31 && len <= |data|
      modifies this`position, payload
      ensures Valid() && (a == Overrun <==> len < 0 <= old(position) + len)
      ensures len >= 0 ==> Written(a == Stored, View()) == PutBytes(old(View()), data[..len])
      ensures len < 0 ==> a != Stored && View() == old(View())
    {
      ChecksAgree(View(), len);
      if (position + len) % TWO_TO_32 > payload.Length {
        return Refused;
      }
      assert WriteFits(View(), len);
      if len < 0 {
        return Overrun;
      }
      CopyIn(data, len);
      UpdateIter(len);
      a := Stored;
    }

    method WriteInt32(n: int) returns (ok: bool)
      requires Valid()
      modifies this`position, payload
      ensures Valid() && Written(ok, View()) == PutInt32(old(View()), n)
    {
      assert Le(n, 4)[..4] == Le(n, 4);
      var a := WriteBytes(Le(n, 4), 4);
      ok := a == Stored;
    }

    /** A string is written with the length that its size is cast to. */
    method WriteString(text: seq<byte>) returns (a: Attempt)
      requires Valid()
      modifies this`position, payload
      ensures var n := ToInt32(|text|);
        Valid()
        && (n >= 0 ==> a != Overrun && Written(a == Stored, View()) == PutString(old(View()), text[..n]))
        && (n < 0 ==> a != Stored && View() == PutInt32(old(View()), n).buf)
        && (n < 0 ==> (a == Overrun <==> PutInt32(old(View()), n).ok && View().pos + n >= 0))
      ensures |text| < TWO_TO_31 ==> Written(a == Stored, View()) == PutString(old(View()), text)
    {
      var n := ToInt32(|text|);
      var ok := WriteInt32(n);
      if !ok {
        a := Refused;
      } else {
        a := WriteBytes(text, n);
      }
      assert |text| < TWO_TO_31 ==> text[..n] == text;
    }

    /** Every fixed-size read is this one, with the size of what is read. */
    method ReadBytes(len: int) returns (data: Option<seq<byte>>)
      requires Valid()
      modifies this`position
      ensures Valid() && Taken(data, View()) == TakeBytes(old(View()), len)
    {
      if len < 0 || position + Align4(len) > payload.Length {
        return None;
      }
      data := Some(payload[position..position + len]);
      UpdateIter(len);
    }

    method ReadInt32() returns (n: Option<int>)
      requires Valid()
      modifies this`position
      ensures Valid() && Taken(n, View()) == TakeInt32(old(View()))
    {
      var data := ReadBytes(4);
      n := if data.Some? then Some(Signed(data.value)) else None;
    }

    method ReadLength() returns (n: Option<nat>)
      requires Valid()
      modifies this`position
      ensures Valid() && Taken(n, View()) == TakeLength(old(View()))
    {
      var m := ReadInt32();
      n := if m.Some? && m.value >= 0 then Some(m.value) else None;
    }

    method ReadString() returns (text: Option<seq<byte>>)
      requires Valid()
      modifies this`position
      ensures Valid() && Taken(text, View()) == TakeString(old(View()))
    {
      var len := ReadLength();
      if len.None? {
        return None;
      }
      text := ReadBytes(len.value);
    }
  }
}
