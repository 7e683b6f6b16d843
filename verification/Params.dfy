/**
 Parameters: scalars, strings, pairs and tuples, and how they are measured,
 written into and read from a pickle.
 */
module Params {
  import opened Bytes
  import opened Options
  import opened Pickles

  datatype IntKind = Int16 | UInt16 | Int32 | UInt32 | Int64 | UInt64

  function Width(k: IntKind): nat {
    match k
    case Int16 => 2
    case UInt16 => 2
    case Int32 => 4
    case UInt32 => 4
    case Int64 => 8
    case UInt64 => 8
  }

  predicate IsSigned(k: IntKind) {
    k.Int16? || k.Int32? || k.Int64?
  }

  datatype Type = TBool | TChar | TInt(kind: IntKind) | TDouble | TString | TPair(fst: Type, snd: Type) | TTuple(types: seq<Type>)

  /** A double is the eight bytes it is stored in. */
  datatype Value =
    | Bool(truth: bool)
    | Char(c: byte)
    | Int(kind: IntKind, n: int)
    | Double(bits: seq<byte>)
    | Str(text: seq<byte>)
    | Pair(fst: Value, snd: Value)
    | Tuple(fields: seq<Value>)

  predicate InRange(k: IntKind, n: int) {
    if IsSigned(k) then 2 * n + Pow256(Width(k)) >= 0 && 2 * n < Pow256(Width(k)) else 0 <= n < Pow256(Width(k))
  }

  /** Values that C++ can hold: integers in range, strings whose size fits an int32_t, tuples of at most eight. */
  predicate WellTyped(v: Value) {
    match v
    case Bool(_) => true
    case Char(_) => true
    case Int(k, n) => InRange(k, n)
    case Double(bits) => |bits| == 8
    case Str(text) => |text| < TWO_TO_31
    case Pair(a, b) => WellTyped(a) && WellTyped(b)
    case Tuple(fs) => |fs| <= 8 && AllWellTyped(fs)
  }

  predicate AllWellTyped(vs: seq<Value>) {
    vs == [] || (WellTyped(vs[0]) && AllWellTyped(vs[1..]))
  }

  function TypeOf(v: Value): Type {
    match v
    case Bool(_) => TBool
    case Char(_) => TChar
    case Int(k, _) => TInt(k)
    case Double(_) => TDouble
    case Str(_) => TString
    case Pair(a, b) => TPair(TypeOf(a), TypeOf(b))
    case Tuple(fs) => TTuple(TypesOf(fs))
  }

  function TypesOf(vs: seq<Value>): (ts: seq<Type>)
    ensures |ts| == |vs|
    ensures forall i :: 0 <= i < |vs| ==> ts[i] == TypeOf(vs[i])
  {
    if vs == [] then [] else [TypeOf(vs[0])] + TypesOf(vs[1..])
  }

  // ---- measuring -------------------------------------------------------------

  /** ParamLength: sums of uint32_t. */
  function ParamLength(v: Value): nat {
    match v
    case Bool(_) => 4
    case Char(_) => 4
    case Int(k, _) => if Width(k) == 8 then Align(8, 8) else 4
    case Double(_) => Align(8, 4)
    case Str(text) => (4 + Align(|text|, 4)) % TWO_TO_32
    case Pair(a, b) => (ParamLength(a) + ParamLength(b)) % TWO_TO_32
    case Tuple(fs) => ParamLengths(fs)
  }

  function ParamLengths(vs: seq<Value>): nat {
    if vs == [] then 0 else (ParamLength(vs[0]) + ParamLengths(vs[1..])) % TWO_TO_32
  }

  // ---- the wire form ------------------------------------------------------------

  function Padded(data: seq<byte>): (p: seq<byte>)
    ensures |p| == Align4(|data|)
    ensures p[..|data|] == data
  {
    data + Zeros(Align4(|data|) - |data|)
  }

  function Encode(v: Value): seq<byte> {
    match v
    case Bool(t) => Le(if t then 1 else 0, 4)
    case Char(c) => Padded([c])
    case Int(k, n) => Padded(Le(n, Width(k)))
    case Double(bits) => Padded(bits)
    case Str(text) => Le(|text|, 4) + Padded(text)
    case Pair(a, b) => Encode(a) + Encode(b)
    case Tuple(fs) => EncodeAll(fs)
  }

  function EncodeAll(vs: seq<Value>): seq<byte> {
    if vs == [] then [] else Encode(vs[0]) + EncodeAll(vs[1..])
  }

  lemma {:induction false} EncodingAligned(v: Value)
    ensures WellTyped(v) ==> |Encode(v)| % 4 == 0
    decreases v
  {
    hide Le, Zeros, Align, Pow256;
    match v {
      case Pair(a, b) =>
        EncodingAligned(a);
        EncodingAligned(b);
        AlignedSum(|Encode(a)|, |Encode(b)|);
      case Tuple(fs) => EncodingsAligned(fs);
      case _ =>
    }
  }

  lemma {:induction false} EncodingsAligned(vs: seq<Value>)
    ensures AllWellTyped(vs) ==> |EncodeAll(vs)| % 4 == 0
    decreases vs
  {
    if vs != [] {
      EncodingAligned(vs[0]);
      EncodingsAligned(vs[1..]);
      AlignedSum(|Encode(vs[0])|, |EncodeAll(vs[1..])|);
      hide Encode, WellTyped;
    }
  }

  lemma AlignedSum(x: nat, y: nat)
    ensures x % 4 == 0 && y % 4 == 0 ==> (x + y) % 4 == 0
  {}

  lemma SumModulo(x: nat, y: nat)
    ensures (x % TWO_TO_32 + y % TWO_TO_32) % TWO_TO_32 == (x + y) % TWO_TO_32
  {}

  lemma ScalarLength(v: Value)
    requires WellTyped(v) && !v.Pair? && !v.Tuple?
    ensures ParamLength(v) == |Encode(v)| % TWO_TO_32
  {
    hide Le, Zeros, Pow256, AllWellTyped, TypeOf;
    if v.Int? { assert Width(v.kind) == 2 || Width(v.kind) == 4 || Width(v.kind) == 8; }
  }

  /** The measured length is the wire length, modulo the width of uint32_t. */
  lemma {:induction false} LengthIsWireLength(v: Value)
    requires WellTyped(v)
    ensures ParamLength(v) == |Encode(v)| % TWO_TO_32
    decreases v
  {
    match v {
      case Pair(a, b) =>
        LengthIsWireLength(a);
        LengthIsWireLength(b);
        SumModulo(|Encode(a)|, |Encode(b)|);
      case Tuple(fs) => LengthsAreWireLength(fs);
      case _ => ScalarLength(v);
    }
  }

  lemma {:induction false} LengthsAreWireLength(vs: seq<Value>)
    requires AllWellTyped(vs)
    ensures ParamLengths(vs) == |EncodeAll(vs)| % TWO_TO_32
    decreases vs
  {
    if vs != [] {
      LengthIsWireLength(vs[0]);
      LengthsAreWireLength(vs[1..]);
      SumModulo(|Encode(vs[0])|, |EncodeAll(vs[1..])|);
      hide ParamLength, Encode, WellTyped;
    }
  }

  // ---- writing ----------------------------------------------------------------------

  /** WriteParam: a failed write is ignored and the next one is tried. */
  function Put(b: Buf, v: Value): (r: Buf)
    requires InBounds(b) && WellTyped(v)
    ensures InBounds(r) && |r.bytes| == |b.bytes| && r.pos >= b.pos
    decreases v
  {
    match v
    case Bool(t) => PutInt32(b, if t then 1 else 0).buf
    case Char(c) => PutBytes(b, [c]).buf
    case Int(k, n) => PutBytes(b, Le(n, Width(k))).buf
    case Double(bits) => PutBytes(b, bits).buf
    case Str(text) => PutString(b, text).buf
    case Pair(x, y) => Put(Put(b, x), y)
    case Tuple(fs) => PutAll(b, fs)
  }

  function PutAll(b: Buf, vs: seq<Value>): (r: Buf)
    requires InBounds(b) && AllWellTyped(vs)
    ensures InBounds(r) && |r.bytes| == |b.bytes| && r.pos >= b.pos
    decreases vs
  {
    if vs == [] then b else PutAll(Put(b, vs[0]), vs[1..])
  }

  // ---- reading -----------------------------------------------------------------------

  /** The order in which a tuple's fields are read: an 8-tuple reads h before g. */
  function ReadOrder<T>(xs: seq<T>): (r: seq<T>)
    ensures |r| == |xs|
  {
    if |xs| == 8 then xs[..6] + [xs[7], xs[6]] else xs
  }

  lemma ReadOrderTwice<T>(xs: seq<T>)
    ensures ReadOrder(ReadOrder(xs)) == xs
  {}

  /** ReadParam: the first failed read ends it, with the cursor where it stands. */
  function Get(b: Buf, t: Type): (r: Taken<Value>)
    requires InBounds(b)
    ensures InBounds(r.buf) && r.buf.bytes == b.bytes && r.buf.pos >= b.pos
    decreases TypeSize(t), 0
  {
    match t
    case TBool =>
      var n := TakeInt32(b);
      Taken(if n.value.Some? then Some(Bool(n.value.value != 0)) else None, n.buf)
    case TChar =>
      var d := TakeBytes(b, 1);
      Taken(if d.value.Some? then Some(Char(d.value.value[0])) else None, d.buf)
    case TInt(k) =>
      var d := TakeBytes(b, Width(k));
      Taken(if d.value.Some? then Some(Int(k, if IsSigned(k) then Signed(d.value.value) else Unsigned(d.value.value))) else None, d.buf)
    case TDouble =>
      var d := TakeBytes(b, 8);
      Taken(if d.value.Some? then Some(Double(d.value.value)) else None, d.buf)
    case TString =>
      var d := TakeString(b);
      Taken(if d.value.Some? then Some(Str(d.value.value)) else None, d.buf)
    case TPair(t1, t2) =>
      var x := Get(b, t1);
      if x.value.None? then x else
      var y := Get(x.buf, t2);
      Taken(if y.value.Some? then Some(Pair(x.value.value, y.value.value)) else None, y.buf)
    case TTuple(ts) =>
      SizesReordered(ts);
      var xs := GetAll(b, ReadOrder(ts));
      Taken(if xs.value.Some? then Some(Tuple(ReadOrder(xs.value.value))) else None, xs.buf)
  }

  function GetAll(b: Buf, ts: seq<Type>): (r: Taken<seq<Value>>)
    requires InBounds(b)
    ensures InBounds(r.buf) && r.buf.bytes == b.bytes && r.buf.pos >= b.pos
    ensures r.value.Some? ==> |r.value.value| == |ts|
    decreases TypeSizes(ts), |ts| + 1
  {
    if ts == [] then Taken(Some([]), b)
    else
      var x := Get(b, ts[0]);
      if x.value.None? then Taken(None, x.buf) else
      var xs := GetAll(x.buf, ts[1..]);
      Taken(if xs.value.Some? then Some([x.value.value] + xs.value.value) else None, xs.buf)
  }

  function TypeSize(t: Type): nat {
    match t
    case TPair(a, b) => 1 + TypeSize(a) + TypeSize(b)
    case TTuple(ts) => 1 + TypeSizes(ts)
    case _ => 1
  }

  function TypeSizes(ts: seq<Type>): nat {
    if ts == [] then 0 else TypeSize(ts[0]) + TypeSizes(ts[1..])
  }

  lemma {:induction false} TypeSizesConcat(a: seq<Type>, b: seq<Type>)
    ensures TypeSizes(a + b) == TypeSizes(a) + TypeSizes(b)
  {
    if a == [] {
      assert a + b == b;
    } else {
      TypeSizesConcat(a[1..], b);
      assert (a + b)[1..] == a[1..] + b;
    }
  }

  lemma SizesReordered(ts: seq<Type>)
    ensures TypeSizes(ReadOrder(ts)) == TypeSizes(ts)
  {
    if |ts| == 8 {
      assert ts == ts[..6] + ([ts[6]] + [ts[7]]);
      assert ReadOrder(ts) == ts[..6] + ([ts[7]] + [ts[6]]);
      TypeSizesConcat(ts[..6], [ts[6]] + [ts[7]]);
      TypeSizesConcat(ts[..6], [ts[7]] + [ts[6]]);
      TypeSizesConcat([ts[6]], [ts[7]]);
      TypeSizesConcat([ts[7]], [ts[6]]);
    }
  }

  // ---- exact sizing --------------------------------------------------------------------

  /** The part of the buffer a value is about to take is still zero, as malloc and memset left it. */
  predicate Blank(b: Buf, len: nat) {
    b.pos + len <= |b.bytes| && forall i :: b.pos <= i < b.pos + len ==> b.bytes[i] == 0
  }

  /** `b` with `data` written at the cursor and the cursor behind it. */
  function Appended(b: Buf, data: seq<byte>): Buf
    requires b.pos + |data| <= |b.bytes|
  {
    Buf(b.bytes[..b.pos] + data + b.bytes[b.pos + |data|..], b.pos + |data|)
  }

  lemma PutBytesAppends(b: Buf, data: seq<byte>)
    requires InBounds(b) && |data| < TWO_TO_31 && Blank(b, Align4(|data|))
    ensures PutBytes(b, data) == Written(true, Appended(b, Padded(data)))
  {
    var w, p := PutBytes(b, data).buf.bytes, Padded(data);
    var r := Appended(b, p).bytes;
    assert |w| == |r|;
    forall i | 0 <= i < |w|
      ensures w[i] == r[i]
    {
      if b.pos + |data| <= i < b.pos + |p| { assert w[i] == b.bytes[i] == 0; }
    }
    assert w == r;
  }

  lemma AppendedTwice(b: Buf, x: seq<byte>, y: seq<byte>)
    requires b.pos + |x| + |y| <= |b.bytes|
    ensures Appended(Appended(b, x), y) == Appended(b, x + y)
  {
    var l, r := Appended(Appended(b, x), y).bytes, Appended(b, x + y).bytes;
    assert l == b.bytes[..b.pos] + x + y + b.bytes[b.pos + |x| + |y|..];
    assert l == r;
  }

  lemma AppendedInBounds(b: Buf, data: seq<byte>, len: nat)
    requires InBounds(b) && |data| % 4 == 0 && Blank(b, |data| + len)
    ensures Blank(b, |data|) && InBounds(Appended(b, data)) && Blank(Appended(b, data), len)
  {}

  lemma PaddedAligned(data: seq<byte>)
    requires |data| % 4 == 0
    ensures Padded(data) == data
  {}

  lemma PutScalarWritesEncoding(b: Buf, v: Value)
    requires InBounds(b) && WellTyped(v) && !v.Pair? && !v.Tuple? && Blank(b, |Encode(v)|)
    ensures Put(b, v) == Appended(b, Encode(v))
  {
    hide Le, Appended, PutBytes, PutString, InBounds, Pow256, Blank, Align, Zeros, Signed, Unsigned;
    match v {
      case Bool(t) =>
        PaddedAligned(Le(if t then 1 else 0, 4));
        PutBytesAppends(b, Le(if t then 1 else 0, 4));
      case Char(c) => PutBytesAppends(b, [c]);
      case Int(k, n) => PutBytesAppends(b, Le(n, Width(k)));
      case Double(bits) => PutBytesAppends(b, bits);
      case Str(text) => PutStringAppends(b, text);
    }
  }

  /** With room for its wire form, every write of a value succeeds and leaves exactly that form. */
  lemma {:induction false} PutWritesEncoding(b: Buf, v: Value)
    requires InBounds(b) && WellTyped(v) && Blank(b, |Encode(v)|)
    ensures Put(b, v) == Appended(b, Encode(v))
    decreases v
  {
    hide Le, Blank, InBounds, Padded;
    BlankFits(b, |Encode(v)|);
    match v {
      case Pair(x, y) =>
        EncodingAligned(x);
        AppendedInBounds(b, Encode(x), |Encode(y)|);
        PutWritesEncoding(b, x);
        PutWritesEncoding(Appended(b, Encode(x)), y);
        AppendedTwice(b, Encode(x), Encode(y));
      case Tuple(fs) => PutAllWritesEncoding(b, fs);
      case _ => PutScalarWritesEncoding(b, v);
    }
  }

  lemma BlankFits(b: Buf, len: nat)
    requires Blank(b, len)
    ensures b.pos + len <= |b.bytes|
  {}

  lemma PutStringAppends(b: Buf, text: seq<byte>)
    requires InBounds(b) && |text| < TWO_TO_31 && Blank(b, 4 + Align4(|text|))
    ensures PutString(b, text).buf == Appended(b, Le(|text|, 4) + Padded(text))
  {
    var len := Le(|text|, 4);
    PaddedAligned(len);
    PutBytesAppends(b, len);
    AppendedInBounds(b, len, Align4(|text|));
    PutBytesAppends(Appended(b, len), text);
    AppendedTwice(b, len, Padded(text));
  }

  lemma {:induction false} PutAllWritesEncoding(b: Buf, vs: seq<Value>)
    requires InBounds(b) && AllWellTyped(vs) && Blank(b, |EncodeAll(vs)|)
    ensures PutAll(b, vs) == Appended(b, EncodeAll(vs))
    decreases vs
  {
    if vs == [] {
      assert Appended(b, []).bytes == b.bytes;
    } else {
      var x := Encode(vs[0]);
      EncodingAligned(vs[0]);
      PutWritesEncoding(b, vs[0]);
      AppendedInBounds(b, x, |EncodeAll(vs[1..])|);
      PutAllWritesEncoding(Appended(b, x), vs[1..]);
      AppendedTwice(b, x, EncodeAll(vs[1..]));
    }
  }

  // ---- what writing leaves alone --------------------------------------------------------------

  lemma PutBytesKeepsFront(b: Buf, data: seq<byte>, n: nat)
    requires InBounds(b) && |data| < TWO_TO_31 && n <= b.pos
    ensures PutBytes(b, data).buf.pos >= b.pos && PutBytes(b, data).buf.bytes[..n] == b.bytes[..n]
  {}

  lemma PutScalarKeepsFront(b: Buf, v: Value, n: nat)
    requires InBounds(b) && WellTyped(v) && !v.Pair? && !v.Tuple? && n <= b.pos
    ensures Put(b, v).bytes[..n] == b.bytes[..n]
  {
    hide Le, PutBytes, InBounds, Pow256;
    match v {
      case Bool(t) => PutBytesKeepsFront(b, Le(if t then 1 else 0, 4), n);
      case Char(c) => PutBytesKeepsFront(b, [c], n);
      case Int(k, i) => PutBytesKeepsFront(b, Le(i, Width(k)), n);
      case Double(bits) => PutBytesKeepsFront(b, bits, n);
      case Str(text) =>
        PutBytesKeepsFront(b, Le(ToInt32(|text|), 4), n);
        PutBytesKeepsFront(PutInt32(b, ToInt32(|text|)).buf, text, n);
    }
  }

  /** Whether the writes succeed or not, what lies before the cursor stays. */
  lemma {:induction false} PutKeepsFront(b: Buf, v: Value, n: nat)
    requires InBounds(b) && WellTyped(v) && n <= b.pos
    ensures Put(b, v).bytes[..n] == b.bytes[..n]
    decreases v
  {
    match v {
      case Pair(x, y) =>
        PutKeepsFront(b, x, n);
        PutKeepsFront(Put(b, x), y, n);
      case Tuple(fs) => PutAllKeepsFront(b, fs, n);
      case _ => PutScalarKeepsFront(b, v, n);
    }
  }

  lemma {:induction false} PutAllKeepsFront(b: Buf, vs: seq<Value>, n: nat)
    requires InBounds(b) && AllWellTyped(vs) && n <= b.pos
    ensures PutAll(b, vs).bytes[..n] == b.bytes[..n]
    decreases vs
  {
    if vs != [] {
      PutKeepsFront(b, vs[0], n);
      PutAllKeepsFront(Put(b, vs[0]), vs[1..], n);
    }
  }

  // ---- round trip ---------------------------------------------------------------------------

  function Flatten(parts: seq<seq<byte>>): seq<byte> {
    if parts == [] then [] else parts[0] + Flatten(parts[1..])
  }

  /** The wire form as ReadParam takes it apart: like Encode, but with h before g in every 8-tuple. */
  function ReadForm(v: Value): seq<byte>
    decreases v
  {
    match v
    case Pair(a, b) => ReadForm(a) + ReadForm(b)
    case Tuple(fs) => Flatten(ReadOrder(ReadForms(fs)))
    case _ => Encode(v)
  }

  function ReadForms(vs: seq<Value>): (parts: seq<seq<byte>>)
    ensures |parts| == |vs|
    ensures forall i :: 0 <= i < |vs| ==> parts[i] == ReadForm(vs[i])
    decreases vs
  {
    if vs == [] then [] else [ReadForm(vs[0])] + ReadForms(vs[1..])
  }

  /** The value reads the same in writing order and in reading order. */
  predicate Symmetric(v: Value) {
    ReadForm(v) == Encode(v)
  }

  lemma FormsReordered(vs: seq<Value>)
    ensures ReadForms(ReadOrder(vs)) == ReadOrder(ReadForms(vs))
  {
    hide ReadForm;
  }

  lemma TypesReordered(vs: seq<Value>)
    ensures TypesOf(ReadOrder(vs)) == ReadOrder(TypesOf(vs))
  {
    hide TypeOf;
  }

  /** The wire form of `data` lies at the cursor. */
  predicate Holds(b: Buf, data: seq<byte>) {
    b.pos + |data| <= |b.bytes| && b.bytes[b.pos..b.pos + |data|] == data
  }

  function Past(b: Buf, len: nat): Buf {
    Buf(b.bytes, b.pos + len)
  }

  lemma HoldsBoth(b: Buf, x: seq<byte>, y: seq<byte>)
    requires InBounds(b) && Holds(b, x + y) && |x| % 4 == 0
    ensures Holds(b, x) && Holds(Past(b, |x|), y) && InBounds(Past(b, |x|))
  {
    var s := b.bytes[b.pos..b.pos + |x + y|];
    assert b.bytes[b.pos..b.pos + |x|] == s[..|x|] == x;
    assert b.bytes[b.pos + |x|..b.pos + |x| + |y|] == s[|x|..] == y;
  }

  lemma TakePadded(b: Buf, data: seq<byte>)
    requires InBounds(b) && Holds(b, Padded(data))
    ensures TakeBytes(b, |data|) == Taken(Some(data), Past(b, Align4(|data|)))
  {
    var p := Padded(data);
    assert b.bytes[b.pos..b.pos + |data|] == b.bytes[b.pos..b.pos + |p|][..|data|];
  }

  lemma TakeWhole(b: Buf, data: seq<byte>)
    requires InBounds(b) && Holds(b, data) && |data| % 4 == 0
    ensures TakeBytes(b, |data|) == Taken(Some(data), Past(b, |data|))
  {
    PaddedAligned(data);
    TakePadded(b, data);
  }

  lemma IntRoundTrip(k: IntKind, n: int)
    requires InRange(k, n)
    ensures (if IsSigned(k) then Signed(Le(n, Width(k))) else Unsigned(Le(n, Width(k)))) == n
  {
    if IsSigned(k) { LeSigned(n, Width(k)); } else { LeUnsigned(n, Width(k)); }
  }

  lemma TakeEncodedInt32(b: Buf, n: int)
    requires InBounds(b) && -TWO_TO_31 <= n < TWO_TO_31 && Holds(b, Le(n, 4))
    ensures TakeInt32(b) == Taken(Some(n), Past(b, 4))
  {
    Pow256Values();
    LeSigned(n, 4);
    TakeWhole(b, Le(n, 4));
  }

  lemma GetReadsInt(b: Buf, k: IntKind, n: int)
    requires InBounds(b) && InRange(k, n) && Holds(b, Padded(Le(n, Width(k))))
    ensures Get(b, TInt(k)) == Taken(Some(Int(k, n)), Past(b, Align4(Width(k))))
  {
    IntRoundTrip(k, n);
    TakePadded(b, Le(n, Width(k)));
    hide Signed, Unsigned, Pow256, Le, Padded, Holds, TakeBytes, HasRoomFor;
  }

  lemma TakesLength(b: Buf, n: nat)
    requires InBounds(b) && n < TWO_TO_31 && Holds(b, Le(n, 4))
    ensures TakeLength(b) == Taken(Some(n), Past(b, 4))
  {
    hide TakeInt32, InBounds, Holds, Le, HasRoomFor, Signed, Unsigned, Pow256;
    TakeEncodedInt32(b, n);
  }

  lemma TakesText(b: Buf, text: seq<byte>)
    requires InBounds(b) && InBounds(Past(b, 4)) && TakeLength(b) == Taken(Some(|text|), Past(b, 4))
    requires TakeBytes(Past(b, 4), |text|) == Taken(Some(text), Past(Past(b, 4), Align4(|text|)))
    ensures TakeString(b) == Taken(Some(text), Past(b, 4 + Align4(|text|)))
  {
    hide InBounds, TakeBytes, TakeLength, Align, HasRoomFor;
  }

  lemma TakesEncodedString(b: Buf, text: seq<byte>)
    requires InBounds(b) && |text| < TWO_TO_31 && Holds(b, Le(|text|, 4) + Padded(text))
    ensures TakeString(b) == Taken(Some(text), Past(b, 4 + Align4(|text|)))
  {
    hide *;
    HoldsBoth(b, Le(|text|, 4), Padded(text));
    TakesLength(b, |text|);
    TakePadded(Past(b, 4), text);
    TakesText(b, text);
  }

  lemma GetReadsString(b: Buf, text: seq<byte>)
    requires InBounds(b) && |text| < TWO_TO_31 && Holds(b, Le(|text|, 4) + Padded(text))
    ensures Get(b, TString) == Taken(Some(Str(text)), Past(b, 4 + Align4(|text|)))
  {
    hide Le, Padded, Holds, TakeString;
    TakesEncodedString(b, text);
  }

  lemma GetReadsBool(b: Buf, t: bool)
    requires InBounds(b) && Holds(b, Le(if t then 1 else 0, 4))
    ensures Get(b, TBool) == Taken(Some(Bool(t)), Past(b, 4))
  {
    TakeEncodedInt32(b, if t then 1 else 0);
    hide Le, Holds, TakeInt32;
  }

  lemma GetReadsScalar(b: Buf, v: Value)
    requires InBounds(b) && WellTyped(v) && !v.Pair? && !v.Tuple? && Holds(b, Encode(v))
    ensures Get(b, TypeOf(v)) == Taken(Some(v), Past(b, |Encode(v)|))
  {
    match v {
      case Bool(t) => GetReadsBool(b, t);
      case Char(c) => TakePadded(b, [c]);
      case Int(k, n) => GetReadsInt(b, k, n);
      case Double(bits) => TakePadded(b, bits);
      case Str(text) => GetReadsString(b, text);
    }
    hide Signed, Unsigned, Pow256, Le, Holds, TakeBytes, HasRoomFor, TakeInt32, TakeString;
  }

  /** From its read form every value is read back, and the cursor ends behind it. */
  lemma {:induction false} GetReadsForm(b: Buf, v: Value)
    requires InBounds(b) && WellTyped(v) && Holds(b, ReadForm(v))
    ensures Get(b, TypeOf(v)) == Taken(Some(v), Past(b, |ReadForm(v)|))
    decreases TypeSize(TypeOf(v)), 0
  {
    hide Signed, Unsigned, Pow256, Le, Holds, TakeBytes, TakeString, HasRoomFor, TakeInt32, InBounds, Padded;
    match v {
      case Pair(x, y) =>
        FormAligned(x);
        HoldsBoth(b, ReadForm(x), ReadForm(y));
        GetReadsForm(b, x);
        GetReadsForm(Past(b, |ReadForm(x)|), y);
      case Tuple(fs) =>
        FormsReordered(fs);
        TypesReordered(fs);
        SizesReordered(TypesOf(fs));
        ReorderedWellTyped(fs);
        GetAllReadsForms(b, ReadOrder(fs));
        ReadOrderTwice(fs);
      case _ => GetReadsScalar(b, v);
    }
  }

  lemma {:induction false} AllWellTypedAt(vs: seq<Value>)
    ensures AllWellTyped(vs) <==> forall i :: 0 <= i < |vs| ==> WellTyped(vs[i])
  {
    if vs != [] {
      AllWellTypedAt(vs[1..]);
      assert forall i :: 0 < i < |vs| ==> vs[i] == vs[1..][i - 1];
      hide WellTyped;
    }
  }

  lemma ReorderedWellTyped(vs: seq<Value>)
    requires AllWellTyped(vs)
    ensures AllWellTyped(ReadOrder(vs))
  {
    AllWellTypedAt(vs);
    AllWellTypedAt(ReadOrder(vs));
    hide WellTyped, AllWellTyped;
  }

  lemma FormsHead(vs: seq<Value>)
    requires vs != []
    ensures Flatten(ReadForms(vs)) == ReadForm(vs[0]) + Flatten(ReadForms(vs[1..]))
    ensures TypesOf(vs)[0] == TypeOf(vs[0]) && TypesOf(vs)[1..] == TypesOf(vs[1..])
  {
    assert ReadForms(vs)[1..] == ReadForms(vs[1..]);
    hide ReadForm, TypeOf;
  }

  lemma NoForms()
    ensures Flatten(ReadForms([])) == [] && TypesOf([]) == []
  {}

  lemma {:induction false} GetAllReadsForms(b: Buf, vs: seq<Value>)
    requires InBounds(b) && AllWellTyped(vs) && Holds(b, Flatten(ReadForms(vs)))
    ensures GetAll(b, TypesOf(vs)) == Taken(Some(vs), Past(b, |Flatten(ReadForms(vs))|))
    decreases TypeSizes(TypesOf(vs)), |vs| + 1
  {
    NoForms();
    hide Holds, InBounds, ReadForm, ReadForms, Flatten, TypeOf, TypesOf, Get, WellTyped;
    if vs == [] {
      assert Past(b, 0) == b;
    } else {
      FormsHead(vs);
      FormAligned(vs[0]);
      HoldsBoth(b, ReadForm(vs[0]), Flatten(ReadForms(vs[1..])));
      GetReadsForm(b, vs[0]);
      GetAllReadsForms(Past(b, |ReadForm(vs[0])|), vs[1..]);
      assert vs == [vs[0]] + vs[1..];
    }
  }

  // ---- when the round trip is exact -------------------------------------------------------------

  /** The sum of the 4-byte words of `s`. */
  function Words(s: seq<byte>): nat {
    if |s| < 4 then 0 else Unsigned(s[..4]) + Words(s[4..])
  }

  lemma {:induction false} WordsConcat(x: seq<byte>, y: seq<byte>)
    requires |x| % 4 == 0
    ensures Words(x + y) == Words(x) + Words(y)
  {
    if x == [] {
      assert x + y == y;
    } else {
      WordsConcat(x[4..], y);
      assert (x + y)[..4] == x[..4] && (x + y)[4..] == x[4..] + y;
    }
  }

  /** The form is a reordering of the encoding, word by word. */
  predicate SameWords(p: seq<byte>, q: seq<byte>) {
    |p| == |q| && |p| % 4 == 0 && Words(p) == Words(q)
  }

  lemma SameWordsConcat(p: seq<byte>, q: seq<byte>, x: seq<byte>, y: seq<byte>)
    requires SameWords(p, q) && SameWords(x, y)
    ensures SameWords(p + x, q + y)
  {
    WordsConcat(p, x);
    WordsConcat(q, y);
    hide Words;
  }

  lemma SameWordsAligned(p: seq<byte>, q: seq<byte>)
    requires SameWords(p, q)
    ensures |p| % 4 == 0
  {}

  lemma FormAligned(v: Value)
    requires WellTyped(v)
    ensures |ReadForm(v)| % 4 == 0
  {
    FormLikeEncoding(v);
    hide ReadForm, Encode, Words, WellTyped;
  }

  lemma {:induction false} FormLikeEncoding(v: Value)
    requires WellTyped(v)
    ensures SameWords(ReadForm(v), Encode(v))
    decreases v
  {
    hide Le, Padded, Words;
    match v {
      case Pair(a, b) =>
        FormLikeEncoding(a);
        FormLikeEncoding(b);
        SameWordsConcat(ReadForm(a), Encode(a), ReadForm(b), Encode(b));
      case Tuple(fs) =>
        FormsLikeEncodings(fs);
        FlattenReordered(ReadForms(fs));
      case _ => EncodingAligned(v);
    }
  }

  lemma {:induction false} FormsLikeEncodings(vs: seq<Value>)
    requires AllWellTyped(vs)
    ensures SameWords(Flatten(ReadForms(vs)), EncodeAll(vs))
    ensures forall i :: 0 <= i < |vs| ==> |ReadForms(vs)[i]| % 4 == 0
    decreases vs
  {
    if vs != [] {
      FormLikeEncoding(vs[0]);
      FormsLikeEncodings(vs[1..]);
      SameWordsAligned(ReadForm(vs[0]), Encode(vs[0]));
      hide ReadForm, Encode, WellTyped, SameWords;
      assert ReadForms(vs)[1..] == ReadForms(vs[1..]);
      SameWordsConcat(ReadForm(vs[0]), Encode(vs[0]), Flatten(ReadForms(vs[1..])), EncodeAll(vs[1..]));
    }
  }

  lemma {:induction false} FlattenConcat(p: seq<seq<byte>>, q: seq<seq<byte>>)
    ensures Flatten(p + q) == Flatten(p) + Flatten(q)
  {
    if p == [] {
      assert p + q == q;
    } else {
      FlattenConcat(p[1..], q);
      assert (p + q)[1..] == p[1..] + q;
      assert Flatten(p + q) == p[0] + (Flatten(p[1..]) + Flatten(q));
    }
  }

  lemma {:induction false} FlattenAligned(parts: seq<seq<byte>>)
    requires forall i :: 0 <= i < |parts| ==> |parts[i]| % 4 == 0
    ensures |Flatten(parts)| % 4 == 0
  {
    if parts != [] {
      FlattenAligned(parts[1..]);
    }
  }

  lemma FlattenReordered(parts: seq<seq<byte>>)
    requires forall i :: 0 <= i < |parts| ==> |parts[i]| % 4 == 0
    ensures SameWords(Flatten(ReadOrder(parts)), Flatten(parts))
    ensures |parts| == 8 ==> Flatten(ReadOrder(parts)) == Flatten(parts[..6]) + (parts[7] + parts[6])
    ensures |parts| == 8 ==> Flatten(parts) == Flatten(parts[..6]) + (parts[6] + parts[7])
  {
    FlattenAligned(parts);
    if |parts| == 8 {
      var g, h := parts[6], parts[7];
      assert parts == parts[..6] + [g, h];
      FlattenConcat(parts[..6], [g, h]);
      FlattenConcat(parts[..6], [h, g]);
      FlattenTwo(g, h);
      FlattenTwo(h, g);
      FlattenAligned(parts[..6]);
      hide Words, Flatten;
      WordsConcat(Flatten(parts[..6]), g + h);
      WordsConcat(Flatten(parts[..6]), h + g);
      WordsConcat(g, h);
      WordsConcat(h, g);
    }
  }

  lemma FlattenTwo(x: seq<byte>, y: seq<byte>)
    ensures Flatten([x, y]) == x + y
  {
    assert [x, y][1..] == [y] && [y][1..] == [];
    assert Flatten([y]) == y + Flatten([]);
  }

  /** `p` has no larger words than `q` in total, and as large only if it is `q`. */
  predicate Tight(p: seq<byte>, q: seq<byte>) {
    |p| == |q| && |p| % 4 == 0 && Words(p) <= Words(q) && (Words(p) == Words(q) ==> p == q)
  }

  lemma TightConcat(p: seq<byte>, q: seq<byte>, x: seq<byte>, y: seq<byte>)
    requires Tight(p, q) && Tight(x, y)
    ensures Tight(p + x, q + y)
  {
    WordsConcat(p, x);
    WordsConcat(q, y);
    hide Words;
  }

  lemma WordOf(s: seq<byte>)
    requires |s| == 4
    ensures Words(s) == Unsigned(s)
  {
    assert s[..4] == s && s[4..] == [];
    hide Unsigned;
  }

  lemma {:induction false} UnsignedMonotone(p: seq<byte>, q: seq<byte>)
    requires |p| == |q| && forall i :: 0 <= i < |p| ==> p[i] <= q[i]
    ensures Unsigned(p) <= Unsigned(q)
  {
    if p != [] {
      UnsignedMonotone(p[1..], q[1..]);
    }
  }

  lemma TightWord(p: seq<byte>, q: seq<byte>)
    requires |p| == |q| == 4 && Unsigned(p) <= Unsigned(q)
    ensures Tight(p, q)
  {
    WordOf(p);
    WordOf(q);
    if Unsigned(p) == Unsigned(q) {
      UnsignedLe(p);
      UnsignedLe(q);
    }
    hide Unsigned, Words;
  }

  lemma {:induction false} TightBelow(p: seq<byte>, q: seq<byte>)
    requires |p| == |q| && |p| % 4 == 0 && forall i :: 0 <= i < |p| ==> p[i] <= q[i]
    ensures Tight(p, q)
  {
    if p != [] {
      UnsignedMonotone(p[..4], q[..4]);
      TightWord(p[..4], q[..4]);
      TightBelow(p[4..], q[4..]);
      TightConcat(p[..4], q[..4], p[4..], q[4..]);
      assert p == p[..4] + p[4..] && q == q[..4] + q[4..];
    }
  }

  /** The bytes that a read from `b` to `r` went over. */
  function Read(b: Buf, r: Buf): seq<byte>
    requires InBounds(r) && r.bytes == b.bytes && b.pos <= r.pos
  {
    b.bytes[b.pos..r.pos]
  }

  lemma ReadOn(b: Buf, x: Buf, y: Buf)
    requires InBounds(x) && InBounds(y) && x.bytes == b.bytes && y.bytes == b.bytes && b.pos <= x.pos <= y.pos
    ensures Read(b, y) == Read(b, x) + Read(x, y)
  {}

  lemma TakenIsTight(b: Buf, len: nat)
    requires InBounds(b) && TakeBytes(b, len).value.Some?
    ensures var t := TakeBytes(b, len); Tight(Padded(t.value.value), Read(b, t.buf))
  {
    var t := TakeBytes(b, len);
    var d, q := t.value.value, Read(b, t.buf);
    assert q[..len] == d;
    forall i | 0 <= i < |q|
      ensures Padded(d)[i] <= q[i]
    {
      if i < len { assert q[i] == q[..len][i]; }
    }
    TightBelow(Padded(d), q);
  }

  lemma {:induction false} LePeriodic(n: int, width: nat)
    ensures Le(n - Pow256(width), width) == Le(n, width)
    decreases width
  {
    if width > 0 {
      var p := Pow256(width - 1);
      assert (n - 256 * p) / 256 == n / 256 - p && (n - 256 * p) % 256 == n % 256;
      LePeriodic(n / 256, width - 1);
    }
  }

  lemma IntBytes(k: IntKind, d: seq<byte>)
    requires |d| == Width(k)
    ensures Le(if IsSigned(k) then Signed(d) else Unsigned(d), Width(k)) == d
  {
    UnsignedLe(d);
    LePeriodic(Unsigned(d), |d|);
  }

  lemma Int32Bytes(b: Buf)
    requires InBounds(b) && TakeInt32(b).value.Some?
    ensures var t := TakeInt32(b);
      |Read(b, t.buf)| == 4 && t.value.value == Signed(Read(b, t.buf)) && Le(t.value.value, 4) == Read(b, t.buf)
  {
    IntBytes(Int32, TakeBytes(b, 4).value.value);
  }

  lemma BoolIsTight(b: Buf)
    requires InBounds(b) && TakeInt32(b).value.Some?
    ensures var t := TakeInt32(b); Tight(Le(if t.value.value != 0 then 1 else 0, 4), Read(b, t.buf))
  {
    Int32Bytes(b);
    var w := Read(b, TakeInt32(b).buf);
    var n := if Signed(w) != 0 then 1 else 0;
    Pow256Values();
    LeUnsigned(n, 4);
    assert Unsigned(Le(n, 4)) <= Unsigned(w) by { hide Le, Pow256; }
    TightWord(Le(n, 4), w);
  }

  lemma StringIsTight(b: Buf)
    requires InBounds(b) && TakeString(b).value.Some?
    ensures var t := TakeString(b); Tight(Encode(Str(t.value.value)), Read(b, t.buf))
  {
    var l := TakeInt32(b);
    Int32Bytes(b);
    TakenIsTight(l.buf, l.value.value);
    var t := TakeBytes(l.buf, l.value.value);
    hide TakeInt32, TakeBytes, Le, Padded;
    TightWord(Le(l.value.value, 4), Read(b, l.buf));
    TightConcat(Le(l.value.value, 4), Read(b, l.buf), Padded(t.value.value), Read(l.buf, t.buf));
    ReadOn(b, l.buf, t.buf);
  }

  lemma ScalarIsTight(b: Buf, t: Type)
    requires InBounds(b) && !t.TPair? && !t.TTuple? && Get(b, t).value.Some?
    ensures Tight(ReadForm(Get(b, t).value.value), Read(b, Get(b, t).buf))
  {
    hide Le, Tight, Padded, TakeInt32, TakeString, Signed, Unsigned, TakeBytes;
    match t {
      case TBool => BoolIsTight(b);
      case TChar =>
        TakenIsTight(b, 1);
        var d := TakeBytes(b, 1).value.value;
        assert d == [d[0]];
      case TInt(k) =>
        TakenIsTight(b, Width(k));
        IntBytes(k, TakeBytes(b, Width(k)).value.value);
      case TDouble => TakenIsTight(b, 8);
      case TString => StringIsTight(b);
    }
  }

  /**
   Whatever bytes a value was read from, its read form is tight on them: only
   padding, or a truth value other than one, can be lost.
   */
  lemma {:induction false} ReadIsTight(b: Buf, t: Type)
    requires InBounds(b) && Get(b, t).value.Some?
    ensures Tight(ReadForm(Get(b, t).value.value), Read(b, Get(b, t).buf))
    decreases TypeSize(t), 0
  {
    hide Tight, TakeInt32, TakeString, TakeBytes, Encode;
    match t {
      case TPair(t1, t2) =>
        var x := Get(b, t1);
        ReadIsTight(b, t1);
        ReadIsTight(x.buf, t2);
        var y := Get(x.buf, t2);
        TightConcat(ReadForm(x.value.value), Read(b, x.buf), ReadForm(y.value.value), Read(x.buf, y.buf));
        ReadOn(b, x.buf, y.buf);
      case TTuple(ts) =>
        SizesReordered(ts);
        ReadsAreTight(b, ReadOrder(ts));
        var vs := GetAll(b, ReadOrder(ts)).value.value;
        FormsReordered(ReadOrder(vs));
        ReadOrderTwice(vs);
      case _ => ScalarIsTight(b, t);
    }
  }

  lemma {:induction false} ReadsAreTight(b: Buf, ts: seq<Type>)
    requires InBounds(b) && GetAll(b, ts).value.Some?
    ensures Tight(Flatten(ReadForms(GetAll(b, ts).value.value)), Read(b, GetAll(b, ts).buf))
    decreases TypeSizes(ts), |ts| + 1
  {
    hide ReadForm, Get;
    if ts == [] {
      assert Read(b, b) == [];
    } else {
      hide Tight, InBounds;
      var x, xs := Get(b, ts[0]), GetAll(Get(b, ts[0]).buf, ts[1..]);
      ReadIsTight(b, ts[0]);
      ReadsAreTight(x.buf, ts[1..]);
      var vs := [x.value.value] + xs.value.value;
      assert vs[1..] == xs.value.value && ReadForms(vs)[1..] == ReadForms(vs[1..]);
      TightConcat(ReadForm(x.value.value), Read(b, x.buf), Flatten(ReadForms(vs[1..])), Read(x.buf, xs.buf));
      ReadOn(b, x.buf, xs.buf);
    }
  }

  predicate NoEight(v: Value)
    decreases v
  {
    match v
    case Pair(a, b) => NoEight(a) && NoEight(b)
    case Tuple(fs) => |fs| != 8 && AllNoEight(fs)
    case _ => true
  }

  predicate AllNoEight(vs: seq<Value>)
    decreases vs
  {
    vs == [] || (NoEight(vs[0]) && AllNoEight(vs[1..]))
  }

  lemma {:induction false} NoEightIsSymmetric(v: Value)
    requires NoEight(v)
    ensures Symmetric(v)
    decreases v
  {
    match v {
      case Pair(a, b) =>
        NoEightIsSymmetric(a);
        NoEightIsSymmetric(b);
      case Tuple(fs) => AllNoEightForms(fs);
      case _ =>
    }
  }

  lemma {:induction false} AllNoEightForms(vs: seq<Value>)
    requires AllNoEight(vs)
    ensures Flatten(ReadForms(vs)) == EncodeAll(vs)
    decreases vs
  {
    if vs != [] {
      NoEightIsSymmetric(vs[0]);
      AllNoEightForms(vs[1..]);
      assert ReadForms(vs)[1..] == ReadForms(vs[1..]);
    }
  }

  /**
   The round trip: what was written is read back, with the cursor behind it, if
   and only if it is symmetric; values without 8-tuples always are.
   */
  lemma RoundTrip(b: Buf, v: Value)
    requires InBounds(b) && WellTyped(v) && Holds(b, Encode(v))
    ensures Get(b, TypeOf(v)).value == Some(v) <==> Symmetric(v)
    ensures Symmetric(v) ==> Get(b, TypeOf(v)).buf == Past(b, |Encode(v)|)
    ensures NoEight(v) ==> Symmetric(v)
  {
    FormLikeEncoding(v);
    if NoEight(v) { NoEightIsSymmetric(v); }
    if Symmetric(v) { GetReadsForm(b, v); }
    if Get(b, TypeOf(v)).value == Some(v) {
      ReadIsTight(b, TypeOf(v));
      assert Read(b, Get(b, TypeOf(v)).buf) == Encode(v);
    }
  }

  /** An 8-tuple is symmetric exactly when its last two fields, of which none holds an 8-tuple, encode alike in either order. */
  lemma EightIsSymmetricIff(fs: seq<Value>)
    requires |fs| == 8 && AllWellTyped(fs) && AllNoEight(fs)
    ensures Symmetric(Tuple(fs)) <==> Encode(fs[6]) + Encode(fs[7]) == Encode(fs[7]) + Encode(fs[6])
  {
    EightForms(fs);
    var p, x, y := Flatten(ReadForms(fs)[..6]), Encode(fs[7]) + Encode(fs[6]), Encode(fs[6]) + Encode(fs[7]);
    assert p + x == p + y <==> x == y by {
      assert (p + x)[|p|..] == x && (p + y)[|p|..] == y;
    }
  }

  lemma EightForms(fs: seq<Value>)
    requires |fs| == 8 && AllWellTyped(fs) && AllNoEight(fs)
    ensures var p := Flatten(ReadForms(fs)[..6]);
      ReadForm(Tuple(fs)) == p + (Encode(fs[7]) + Encode(fs[6])) && Encode(Tuple(fs)) == p + (Encode(fs[6]) + Encode(fs[7]))
  {
    hide Flatten, EncodeAll, AllNoEight, NoEight, WellTyped, AllWellTyped, SameWords, Le, Padded;
    AllNoEightForms(fs);
    AllNoEightAt(fs, 6);
    AllNoEightAt(fs, 7);
    NoEightIsSymmetric(fs[6]);
    NoEightIsSymmetric(fs[7]);
    FormsLikeEncodings(fs);
    FlattenReordered(ReadForms(fs));
    TupleForm(fs);
  }

  lemma {:induction false} AllNoEightAt(vs: seq<Value>, i: nat)
    requires i < |vs| && AllNoEight(vs)
    ensures NoEight(vs[i])
  {
    if i > 0 {
      AllNoEightAt(vs[1..], i - 1);
    }
  }

  lemma TupleForm(fs: seq<Value>)
    ensures ReadForm(Tuple(fs)) == Flatten(ReadOrder(ReadForms(fs)))
  {}

  /** An 8-tuple whose last two fields have one type comes back with these two exchanged. */
  lemma LastTwoComeBackExchanged(b: Buf, fs: seq<Value>)
    requires |fs| == 8 && AllWellTyped(fs) && AllNoEight(fs) && TypeOf(fs[6]) == TypeOf(fs[7])
    requires InBounds(b) && Holds(b, Encode(Tuple(fs)))
    ensures Get(b, TypeOf(Tuple(fs))).value == Some(Tuple(ReadOrder(fs)))
  {
    ReorderedWellTyped(fs);
    ReorderedForm(fs);
    SameLastTypes(fs);
    hide *;
    GetReadsTuple(b, ReadOrder(fs), Encode(Tuple(fs)), TypeOf(Tuple(fs)));
  }

  lemma SameLastTypes(fs: seq<Value>)
    requires |fs| == 8 && TypeOf(fs[6]) == TypeOf(fs[7])
    ensures TypeOf(Tuple(fs)) == TTuple(TypesOf(ReadOrder(fs))) && |ReadOrder(fs)| <= 8
  {
    TypesReordered(fs);
    TupleType(fs);
    hide TypeOf;
    assert ReadOrder(TypesOf(fs)) == TypesOf(fs);
  }

  lemma TupleType(fs: seq<Value>)
    ensures TypeOf(Tuple(fs)) == TTuple(TypesOf(fs))
  {}

  lemma ReorderedForm(fs: seq<Value>)
    requires AllNoEight(fs)
    ensures ReadForm(Tuple(ReadOrder(fs))) == Encode(Tuple(fs))
  {
    FormsReordered(fs);
    ReadOrderTwice(ReadForms(fs));
    AllNoEightForms(fs);
    TupleForm(ReadOrder(fs));
    hide ReadForm, ReadForms, Flatten, EncodeAll, ReadOrder, AllNoEight;
  }

  lemma GetReadsTuple(b: Buf, gs: seq<Value>, form: seq<byte>, t: Type)
    requires InBounds(b) && AllWellTyped(gs) && |gs| <= 8 && t == TTuple(TypesOf(gs))
    requires ReadForm(Tuple(gs)) == form && Holds(b, form)
    ensures Get(b, t).value == Some(Tuple(gs))
  {
    hide Get, Holds, ReadForm, InBounds, AllWellTyped;
    GetReadsForm(b, Tuple(gs));
  }

  // ---- the cursor on arbitrary bytes -------------------------------------------------------------

  datatype Access = Write(value: Value) | Read(ty: Type)

  function Perform(b: Buf, a: Access): (r: Buf)
    requires InBounds(b) && (a.Write? ==> WellTyped(a.value))
    ensures InBounds(r)
  {
    match a
    case Write(v) => Put(b, v)
    case Read(t) => Get(b, t).buf
  }

  function PerformAll(b: Buf, accesses: seq<Access>): (r: Buf)
    requires InBounds(b) && forall a :: a in accesses ==> a.Write? ==> WellTyped(a.value)
    ensures InBounds(r)
    decreases |accesses|
  {
    if accesses == [] then b else PerformAll(Perform(b, accesses[0]), accesses[1..])
  }

  /**
   Whatever is written or read, in whatever order and on whatever bytes, the
   cursor only moves forward and stays aligned and inside; reads change no byte.
   */
  lemma {:induction false} CursorStaysInBounds(b: Buf, accesses: seq<Access>)
    requires InBounds(b) && forall a :: a in accesses ==> a.Write? ==> WellTyped(a.value)
    ensures var r := PerformAll(b, accesses);
      InBounds(r) && r.pos >= b.pos && |r.bytes| == |b.bytes|
      && ((forall a :: a in accesses ==> a.Read?) ==> r.bytes == b.bytes)
    decreases |accesses|
  {
    if accesses != [] {
      CursorStaysInBounds(Perform(b, accesses[0]), accesses[1..]);
    }
  }

  // ---- in place -------------------------------------------------------------------------------------

  method WriteScalar(m: Pickle, v: Value)
    requires m.Valid() && WellTyped(v) && !v.Pair? && !v.Tuple?
    modifies m`position, m.payload
    ensures m.Valid() && m.View() == Put(old(m.View()), v)
  {
    hide PutBytes, PutString, PutInt32, Pow256, HasRoomFor;
    match v {
      case Bool(t) => var _ := m.WriteInt32(if t then 1 else 0);
      case Char(c) =>
        assert [c][..1] == [c];
        var _ := m.WriteBytes([c], 1);
      case Int(k, n) =>
        assert Le(n, Width(k))[..Width(k)] == Le(n, Width(k));
        var _ := m.WriteBytes(Le(n, Width(k)), Width(k));
      case Double(bits) =>
        assert bits[..8] == bits;
        var _ := m.WriteBytes(bits, 8);
      case Str(text) => var _ := m.WriteString(text);
    }
  }

  method WriteParam(m: Pickle, v: Value)
    requires m.Valid() && WellTyped(v)
    modifies m`position, m.payload
    ensures m.Valid() && m.View() == Put(old(m.View()), v)
    decreases v
  {
    hide PutBytes, PutString, PutInt32;
    match v {
      case Pair(a, b) =>
        WriteParam(m, a);
        WriteParam(m, b);
      case Tuple(fs) => WriteParams(m, fs);
      case _ => WriteScalar(m, v);
    }
  }

  method WriteParams(m: Pickle, vs: seq<Value>)
    requires m.Valid() && AllWellTyped(vs)
    modifies m`position, m.payload
    ensures m.Valid() && m.View() == PutAll(old(m.View()), vs)
    decreases vs
  {
    if vs != [] {
      WriteParam(m, vs[0]);
      WriteParams(m, vs[1..]);
    }
  }

  method ReadParam(m: Pickle, t: Type) returns (v: Option<Value>)
    requires m.Valid()
    modifies m`position
    ensures m.Valid() && Taken(v, m.View()) == Get(old(m.View()), t)
    decreases TypeSize(t), 0
  {
    match t {
      case TBool =>
        var n := m.ReadInt32();
        v := if n.Some? then Some(Bool(n.value != 0)) else None;
      case TChar =>
        var d := m.ReadBytes(1);
        v := if d.Some? then Some(Char(d.value[0])) else None;
      case TInt(k) =>
        var d := m.ReadBytes(Width(k));
        v := if d.Some? then Some(Int(k, if IsSigned(k) then Signed(d.value) else Unsigned(d.value))) else None;
      case TDouble =>
        var d := m.ReadBytes(8);
        v := if d.Some? then Some(Double(d.value)) else None;
      case TString =>
        var d := m.ReadString();
        v := if d.Some? then Some(Str(d.value)) else None;
      case TPair(t1, t2) =>
        v := ReadParam(m, t1);
        if v.Some? {
          var w := ReadParam(m, t2);
          v := if w.Some? then Some(Pair(v.value, w.value)) else None;
        }
      case TTuple(ts) =>
        SizesReordered(ts);
        var vs := ReadParams(m, ReadOrder(ts));
        v := if vs.Some? then Some(Tuple(ReadOrder(vs.value))) else None;
    }
  }

  method ReadParams(m: Pickle, ts: seq<Type>) returns (vs: Option<seq<Value>>)
    requires m.Valid()
    modifies m`position
    ensures m.Valid() && Taken(vs, m.View()) == GetAll(old(m.View()), ts)
    decreases TypeSizes(ts), |ts| + 1
  {
    if ts == [] {
      return Some([]);
    }
    var v := ReadParam(m, ts[0]);
    if v.None? {
      return None;
    }
    vs := ReadParams(m, ts[1..]);
    vs := if vs.Some? then Some([v.value] + vs.value) else None;
  }
}
