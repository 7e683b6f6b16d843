/**
 A message as the bytes of its payload: the 12-byte header (routing at 0, type
 at 4, flags at 6, id at 8) followed by the parameters.  Every getter and
 setter of the message class is a function of those bytes.
 */
module Messages {
  import opened Bytes

  type Msg = seq<byte>

  const HEADER_SIZE: nat := 12
  const ROUTING_NONE: int := -2

  datatype Flag = SyncBit | ReplyBit | ReplyErrorBit | UnblockBit | DisconnectBit | SuspendBit

  /** The position of the flag: masks 0x0004 to 0x0080 are bits 2 to 7, all in the low byte of the flags. */
  function Position(f: Flag): (p: nat)
    ensures p < 8
  {
    match f
    case SyncBit => 2
    case ReplyBit => 3
    case ReplyErrorBit => 4
    case UnblockBit => 5
    case DisconnectBit => 6
    case SuspendBit => 7
  }

  predicate HasMask(flags: byte, f: Flag) {
    Bit(flags, Position(f))
  }

  function OrMask(flags: byte, f: Flag): (r: byte)
    ensures forall g :: HasMask(r, g) == (f == g || HasMask(flags, g))
  {
    assert Pow2(8) == 256;
    SetBitFits(flags, Position(f), 8);
    assert forall g :: HasMask(SetBit(flags, Position(f)), g) == (f == g || HasMask(flags, g)) by {
      forall g: Flag {
        SetBitBits(flags, Position(f), Position(g));
      }
    }
    SetBit(flags, Position(f))
  }

  function ClearMask(flags: byte, f: Flag): (r: byte)
    ensures forall g :: HasMask(r, g) == (f != g && HasMask(flags, g))
  {
    assert forall g :: HasMask(ClearBit(flags, Position(f)), g) == (f != g && HasMask(flags, g)) by {
      forall g: Flag {
        ClearBitBits(flags, Position(f), Position(g));
      }
    }
    ClearBit(flags, Position(f))
  }

  /** A payload too short for a header leaves header_ null. */
  predicate HasHeader(m: Msg) {
    |m| >= HEADER_SIZE
  }

  predicate Has(m: Msg, f: Flag) {
    HasHeader(m) && HasMask(m[6], f)
  }

  function Mark(m: Msg, f: Flag): (r: Msg)
    ensures |r| == |m|
    ensures forall g :: Has(r, g) == (HasHeader(m) && (f == g || Has(m, g)))
    ensures Id(r) == Id(m)
  {
    if HasHeader(m) then
      var r := m[6 := OrMask(m[6], f)];
      assert r[8..12] == m[8..12];
      r
    else m
  }

  function Unmark(m: Msg, f: Flag): (r: Msg)
    ensures |r| == |m|
    ensures forall g :: Has(r, g) == (f != g && Has(m, g))
    ensures Id(r) == Id(m)
  {
    if HasHeader(m) then
      var r := m[6 := ClearMask(m[6], f)];
      assert r[8..12] == m[8..12];
      r
    else m
  }

  /** type() */
  function TypeField(m: Msg): nat {
    if HasHeader(m) then Unsigned(m[4..6]) else 0
  }

  /** The one getter whose answer for a missing header is true. */
  predicate IsReplyError(m: Msg) {
    !HasHeader(m) || HasMask(m[6], ReplyErrorBit)
  }

  function Id(m: Msg): nat {
    if HasHeader(m) then Unsigned(m[8..12]) else 0
  }

  function WithId(m: Msg, id: nat): (r: Msg)
    requires id < TWO_TO_32
    ensures |r| == |m|
    ensures HasHeader(m) ==> Id(r) == id && forall f :: Has(r, f) == Has(m, f)
  {
    if HasHeader(m) then
      var r := m[..8] + Le(id, 4) + m[12..];
      Pow256Values();
      LeUnsigned(id, 4);
      assert r[8..12] == Le(id, 4);
      r
    else m
  }

  lemma IdRange(m: Msg)
    ensures Id(m) < TWO_TO_32
  {
    Pow256Values();
  }

  /** A freshly constructed message: zeroed parameters, no flags. */
  function NewMessage(routing: int, ty: nat, id: nat, size: nat): (m: Msg)
    requires id < TWO_TO_32
    ensures |m| == Align4(HEADER_SIZE + size) && Id(m) == id
    ensures forall f :: !Has(m, f)
  {
    var m := Le(routing, 4) + Le(ty, 2) + Le(0, 2) + Le(id, 4) + Zeros(Align4(HEADER_SIZE + size) - HEADER_SIZE);
    Pow256Values();
    LeUnsigned(id, 4);
    assert m[8..12] == Le(id, 4);
    assert m[6] == 0;
    m
  }

  /** How the two receive paths sort a message. */
  datatype Kind = Request | Answer | Oneway

  function KindOf(m: Msg): Kind {
    if Has(m, SyncBit) then Request
    else if Has(m, ReplyBit) || IsReplyError(m) then Answer
    else Oneway
  }

  /** What a peer puts on the wire: a header, an aligned size that fits an int, no disconnect bit. */
  predicate WellSized(n: int) {
    HEADER_SIZE <= n < TWO_TO_31 && n % 4 == 0
  }

  predicate WellFormed(m: Msg) {
    WellSized(|m|) && !Has(m, DisconnectBit)
  }

  /** The message queued for the listener when the connection is lost; its drawn id is never read. */
  function Marker(): (m: Msg)
    ensures Has(m, DisconnectBit) && KindOf(m) == Oneway
  {
    Mark(NewMessage(ROUTING_NONE, 0, 0, 0), DisconnectBit)
  }

  /** The messages of one kind, in order. */
  function Select(ms: seq<Msg>, k: Kind): seq<Msg> {
    if ms == [] then []
    else Select(ms[..|ms| - 1], k) + if KindOf(ms[|ms| - 1]) == k then [ms[|ms| - 1]] else []
  }

  lemma SelectAppend(ms: seq<Msg>, m: Msg, k: Kind)
    ensures Select(ms + [m], k) == Select(ms, k) + if KindOf(m) == k then [m] else []
  {
    assert (ms + [m])[..|ms|] == ms;
  }

  lemma {:induction false} SelectPrefix(p: seq<Msg>, q: seq<Msg>, k: Kind)
    requires p <= q
    ensures Select(p, k) <= Select(q, k)
  {
    if |p| < |q| {
      SelectPrefix(p, q[..|q| - 1], k);
    } else {
      assert p == q;
    }
  }

  /** The queued messages that are not disconnect markers. */
  function Unmarked(ms: seq<Msg>): seq<Msg> {
    if ms == [] then []
    else (if Has(ms[0], DisconnectBit) then [] else [ms[0]]) + Unmarked(ms[1..])
  }

  lemma {:induction false} UnmarkedAppend(ms: seq<Msg>, m: Msg)
    ensures Unmarked(ms + [m]) == Unmarked(ms) + if Has(m, DisconnectBit) then [] else [m]
  {
    if ms != [] {
      UnmarkedAppend(ms[1..], m);
      assert (ms + [m])[1..] == ms[1..] + [m];
    }
  }
}
