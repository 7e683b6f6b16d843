/** Concrete inputs on which the library does not do what it is meant to. */
module Witnesses {
  import opened Bytes
  import opened Messages
  import opened Options
  import opened Params
  import opened Pickles
  import SharedBuffer
  import opened TypedMessages
  import opened Variables

  // ---- an 8-tuple that does not come back ---------------------------------------

  /** Six times false, then true and false. */
  function EightBooleans(): seq<Value> {
    [Bool(false), Bool(false), Bool(false), Bool(false), Bool(false), Bool(false), Bool(true), Bool(false)]
  }

  lemma EightBooleansAreWritten()
    ensures AllWellTyped(EightBooleans()) && AllNoEight(EightBooleans())
    ensures |Encode(Tuple(EightBooleans()))| == 32
  {
    var fs := EightBooleans();
    AllScalars(fs, 8);
    ScalarsLength(fs);
  }

  predicate AllBool(vs: seq<Value>) {
    forall v :: v in vs ==> v.Bool?
  }

  lemma {:induction false} AllScalars(vs: seq<Value>, n: nat)
    requires AllBool(vs) && |vs| == n
    ensures AllWellTyped(vs) && AllNoEight(vs)
  {
    if vs != [] {
      AllScalars(vs[1..], n - 1);
      assert vs[0].Bool?;
    }
  }

  lemma {:induction false} ScalarsLength(vs: seq<Value>)
    requires AllBool(vs)
    ensures |EncodeAll(vs)| == 4 * |vs|
  {
    hide Le;
    if vs != [] {
      ScalarsLength(vs[1..]);
      assert vs[0].Bool?;
    }
  }

  /** The tuple is well typed and written in full, and reading it back gives another one. */
  lemma EightTupleIsMisread() returns (b: Buf)
    ensures InBounds(b) && WellTyped(Tuple(EightBooleans())) && b == Buf(Encode(Tuple(EightBooleans())), 0)
    ensures Get(b, TypeOf(Tuple(EightBooleans()))).value.Some?
    ensures Get(b, TypeOf(Tuple(EightBooleans()))).value != Some(Tuple(EightBooleans()))
  {
    var fs := EightBooleans();
    EightBooleansAreWritten();
    b := Buf(Encode(Tuple(fs)), 0);
    assert Holds(b, Encode(Tuple(fs)));
    hide Get, Encode, TypeOf, AllWellTyped, AllNoEight;
    SameBoolType(fs[6], fs[7]);
    LastTwoComeBackExchanged(b, fs);
    assert ReadOrder(fs)[6] != fs[6];
  }

  lemma SameBoolType(v: Value, w: Value)
    requires v.Bool? && w.Bool?
    ensures TypeOf(v) == TypeOf(w)
  {}

  // ---- a negative length ------------------------------------------------------------

  /** Four bytes into a buffer of eight, a length of minus four passes the check of writeBytes, though hasRoomFor refuses it. */
  lemma NegativeLengthPasses()
    ensures var b := Buf(Zeros(8), 4); InBounds(b) && WriteFits(b, -4) && !HasRoomFor(b, -4)
  {
    ChecksAgree(Buf(Zeros(8), 4), -4);
  }

  // ---- parameters whose measure wraps -----------------------------------------------

  /** A pair of strings of 2^31 - 4 bytes each. */
  function HugePair(): Value {
    Pair(Str(Zeros(TWO_TO_31 - 4)), Str(Zeros(TWO_TO_31 - 4)))
  }

  /** Its measure is zero, so a message can be built for it, and what it is filled with is not what was asked for. */
  lemma MeasureWraps(m: Msg)
    requires Sized(m, HugePair())
    ensures WellTyped(HugePair()) && Buildable(ParamLength(HugePair())) && ParamLength(HugePair()) == 0
    ensures |Encode(HugePair())| == TWO_TO_32 && |m| == HEADER_SIZE
    ensures Filled(m, HugePair()).pos != HEADER_SIZE + |Encode(HugePair())|
  {
    HugeLengths();
    hide Encode, ParamLength, Put;
    ExactSizing(m, HugePair());
  }

  lemma HugeLengths()
    ensures WellTyped(HugePair()) && ParamLength(HugePair()) == 0 && |Encode(HugePair())| == TWO_TO_32
  {
    hide Le;
  }

  // ---- a lock that survives its handle ------------------------------------------------

  /** Locked twice, destroyed once: the mutex stays held and no other handle gets it. */
  lemma TwiceLockedLeaks(k: nat)
    requires k != 0
    ensures var es := [SharedBuffer.Acquire(0, false), SharedBuffer.Acquire(0, false), SharedBuffer.Drop(0)];
      SharedBuffer.ValidRun(es)
      && SharedBuffer.UseOf(SharedBuffer.After(es), 0) == SharedBuffer.Gone
      && SharedBuffer.After(es).mutex == SharedBuffer.Held(0, true)
      && !SharedBuffer.Can(SharedBuffer.After(es), SharedBuffer.Acquire(k, false))
  {
    var a, d := SharedBuffer.Acquire(0, false), SharedBuffer.Drop(0);
    assert [] + [a] == [a] && [a] + [a] == [a, a] && [a, a] + [d] == [a, a, d];
    SharedBufferRun([], a);
    hide SharedBuffer.ValidRun, SharedBuffer.After;
    SharedBufferRun([a], a);
    SharedBufferRun([a, a], d);
  }

  lemma SharedBufferRun(es: seq<SharedBuffer.Event>, e: SharedBuffer.Event)
    requires SharedBuffer.ValidRun(es) && SharedBuffer.Can(SharedBuffer.After(es), e)
    ensures SharedBuffer.ValidRun(es + [e]) && SharedBuffer.After(es + [e]) == SharedBuffer.Do(SharedBuffer.After(es), e)
  {
    var next := es + [e];
    assert next[..|next| - 1] == es;
  }

  // ---- a reply that is read in part ------------------------------------------------------

  /** The variables of a caller who expects two numbers. */
  function Expected(): Value {
    Tuple([Int(Int32, 1), Int(Int32, 2)])
  }

  /** A reply that carries one number: the first variable is overwritten, the second is not. */
  lemma HalfReadReply(id: nat) returns (m: Msg)
    requires id < TWO_TO_32
    ensures WellSized(|m|) && !IsReplyError(m)
    ensures Get(Body(m), TypeOf(Expected())).value.None?
    ensures AfterReply(m, Expected()) == Tuple([Int(Int32, 7), Int(Int32, 2)])
  {
    var sent := Tuple([Int(Int32, 7)]);
    OneNumber();
    hide *;
    m := ReplyImage(0, id, sent);
    ReplyCarries(0, id, sent);
    CarriesOneNumber(m);
  }

  lemma CarriesOneNumber(m: Msg)
    requires Carries(m, Tuple([Int(Int32, 7)]))
    ensures WellSized(|m|) && Get(Body(m), TypeOf(Expected())).value.None?
    ensures AfterReply(m, Expected()) == Tuple([Int(Int32, 7), Int(Int32, 2)])
  {
    var seven := Int(Int32, 7);
    OneNumber();
    BodyInBounds(m);
    var data := Encode(seven);
    EndsThere(m, data);
    hide Encode, Get, ReadForm, InBounds, ReadInto, WellTyped, Expected, TypeOf;
    GetReadsForm(Body(m), seven);
    IntType(seven);
    ReadPart(Body(m), Past(Body(m), |data|));
  }

  lemma IntType(v: Value)
    requires v == Int(Int32, 7)
    ensures TypeOf(v) == TInt(Int32)
  {}

  lemma EndsThere(m: Msg, data: seq<byte>)
    requires WellSized(|m|) && m[HEADER_SIZE..] == data
    ensures var p := Past(Body(m), |data|); InBounds(p) && p.pos == |p.bytes| && Holds(Body(m), data)
  {
    assert m[HEADER_SIZE..HEADER_SIZE + |data|] == m[HEADER_SIZE..];
  }

  lemma OneNumber()
    ensures var v, n := Tuple([Int(Int32, 7)]), Int(Int32, 7);
      WellTyped(v) && WellTyped(n) && Encode(v) == Encode(n) == ReadForm(n) && |Encode(n)| == 4 < TWO_TO_32 && Buildable(ParamLength(v))
  {
    var n := Int(Int32, 7);
    SevenFits(n);
    OneField(n);
    hide Encode, ReadForm, WellTyped, ParamLength;
  }

  lemma SevenFits(n: Value)
    requires n == Int(Int32, 7)
    ensures WellTyped(n) && |Encode(n)| == 4 && ReadForm(n) == Encode(n) && ParamLength(n) == 4
  {
    SevenInRange();
    hide Le, Pow256, InRange, AllWellTyped, EncodeAll, ReadForms, Flatten, ParamLengths, Zeros, Align;
    assert Width(Int32) == 4;
    PaddedWord(Le(7, 4));
  }

  lemma SevenInRange()
    ensures InRange(Int32, 7)
  {
    Pow256Values();
  }

  lemma PaddedWord(w: seq<byte>)
    requires |w| == 4
    ensures |Padded(w)| == 4
  {}

  lemma OneField(n: Value)
    requires WellTyped(n) && ParamLength(n) == 4
    ensures var v := Tuple([n]); WellTyped(v) && Encode(v) == Encode(n) && ParamLength(v) == 4
  {
    var fs := [n];
    assert fs[1..] == [];
    assert AllWellTyped([]) && EncodeAll([]) == [] && ParamLengths([]) == 0;
    assert EncodeAll(fs) == Encode(n) + [] && AllWellTyped(fs) && ParamLengths(fs) == 4;
    assert Encode(n) + [] == Encode(n);
  }

  lemma ReadPart(b: Buf, past: Buf)
    requires InBounds(b) && InBounds(past) && Get(b, TInt(Int32)) == Taken(Some(Int(Int32, 7)), past) && past.pos == |past.bytes|
    ensures Get(b, TypeOf(Expected())).value.None? && ReadInto(b, Expected()).held == Tuple([Int(Int32, 7), Int(Int32, 2)])
  {
    NothingLeft(past);
    hide Get, InBounds;
    ReadNumber(b, 1);
    ReadNumber(past, 2);
    RowOfTwo(b, past);
    StoresWhatIsRead(b, Expected());
    hide ReadAllInto;
    assert ReadInto(b, Expected()).held == Tuple(ReadOrder([Int(Int32, 7), Int(Int32, 2)]));
  }

  lemma NothingLeft(b: Buf)
    requires InBounds(b) && b.pos == |b.bytes|
    ensures Get(b, TInt(Int32)).value.None?
  {}

  lemma ReadNumber(b: Buf, n: int)
    requires InBounds(b)
    ensures var g := Get(b, TInt(Int32));
      ReadInto(b, Int(Int32, n)) == Holding(if g.value.Some? then g.value.value else Int(Int32, n), g.buf, g.value.Some?)
  {
    hide Get;
  }

  lemma RowOfTwo(b: Buf, past: Buf)
    requires InBounds(b) && InBounds(past)
    requires ReadInto(b, Int(Int32, 1)) == Holding(Int(Int32, 7), past, true)
    requires !ReadInto(past, Int(Int32, 2)).ok && ReadInto(past, Int(Int32, 2)).held == Int(Int32, 2)
    ensures var r := ReadAllInto(b, [Int(Int32, 1), Int(Int32, 2)]); r.held == [Int(Int32, 7), Int(Int32, 2)] && !r.ok
  {
    hide ReadInto, InBounds;
    var fs := [Int(Int32, 1), Int(Int32, 2)];
    assert fs[1..] == [fs[1]] && fs[1..][1..] == [];
    assert ReadAllInto(past, fs[1..]).held == [fs[1]];
  }
}
