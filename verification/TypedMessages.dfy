/**
 Messages with parameters: the message object, the constructors that size a
 message for its parameters, and the dispatcher that answers a request.
 */
module TypedMessages {
  import opened Bytes
  import opened Messages
  import opened Options
  import opened Params
  import opened Pickles

  const REPLY_TYPE: nat := 0xFFF0

  // ---- images ----------------------------------------------------------------

  function Routing(m: Msg): int {
    if HasHeader(m) then Signed(m[0..4]) else 0
  }

  /** A message object that may be built: its capacity still fits size(). */
  predicate Buildable(size: nat) {
    Align4(HEADER_SIZE + size) < TWO_TO_31
  }

  /** The cursor of a received or new message starts behind the header. */
  function Body(m: Msg): Buf {
    Buf(m, HEADER_SIZE)
  }

  lemma BodyInBounds(m: Msg)
    requires WellSized(|m|)
    ensures InBounds(Body(m))
  {}

  /** A message of the measured capacity after its parameters were written. */
  function Filled(m: Msg, v: Value): Buf
    requires WellSized(|m|) && WellTyped(v)
  {
    Put(Body(m), v)
  }

  function AsyncImage(routing: int, ty: nat, id: nat, v: Value): Msg
    requires id < TWO_TO_32 && WellTyped(v) && Buildable(ParamLength(v))
  {
    Filled(NewMessage(routing, ty, id, ParamLength(v)), v).bytes
  }

  function RequestImage(routing: int, ty: nat, id: nat, v: Value): Msg
    requires id < TWO_TO_32 && WellTyped(v) && Buildable(ParamLength(v))
  {
    Filled(Mark(NewMessage(routing, ty, id, ParamLength(v)), SyncBit), v).bytes
  }

  function ReplyImage(routing: int, id: nat, v: Value): Msg
    requires id < TWO_TO_32 && WellTyped(v) && Buildable(ParamLength(v))
  {
    Filled(Mark(NewMessage(routing, REPLY_TYPE, id, ParamLength(v)), ReplyBit), v).bytes
  }

  // ---- exact sizing -------------------------------------------------------------

  /** A new message of the capacity measured for `v`, nothing written behind its header. */
  predicate Sized(m: Msg, v: Value) {
    |m| == Align4(HEADER_SIZE + ParamLength(v)) < TWO_TO_31 && forall i :: HEADER_SIZE <= i < |m| ==> m[i] == 0
  }

  lemma MeasureIsExact(v: Value)
    requires WellTyped(v) && |Encode(v)| < TWO_TO_32
    ensures ParamLength(v) == |Encode(v)| && |Encode(v)| % 4 == 0
  {
    hide ParamLength, Encode, WellTyped;
    LengthIsWireLength(v);
    EncodingAligned(v);
    SmallModulo(|Encode(v)|);
  }

  lemma SmallModulo(n: nat)
    requires n < TWO_TO_32
    ensures n % TWO_TO_32 == n
  {}

  lemma ParametersFill(m: Msg, v: Value)
    requires WellTyped(v) && Sized(m, v) && |Encode(v)| < TWO_TO_32 && WellSized(|m|)
    ensures Filled(m, v) == Buf(m[..HEADER_SIZE] + Encode(v), |m|) && |m| == HEADER_SIZE + |Encode(v)|
  {
    MeasureIsExact(v);
    MeasuredCapacity(m, v);
    BodyInBounds(m);
    hide Put, Encode, ParamLength, WellTyped, InBounds, Blank, Align4;
    PutWritesEncoding(Body(m), v);
    AppendedToBody(m, Encode(v));
  }

  lemma SizedIsWellSized(m: Msg, v: Value)
    requires Sized(m, v)
    ensures WellSized(|m|)
  {
    hide ParamLength;
  }

  /**
   A message sized by ParamLength takes every write and is exactly full if and
   only if the wire form of the parameters did not make the uint32_t measure wrap.
   */
  lemma ExactSizing(m: Msg, v: Value)
    requires WellTyped(v) && Sized(m, v)
    ensures WellSized(|m|) && Filled(m, v).pos <= |m| && |Filled(m, v).bytes| == |m|
    ensures |Encode(v)| < TWO_TO_32 <==> Filled(m, v).pos == HEADER_SIZE + |Encode(v)|
    ensures |Encode(v)| < TWO_TO_32 ==> Filled(m, v) == Buf(m[..HEADER_SIZE] + Encode(v), |m|)
  {
    SizedIsWellSized(m, v);
    if |Encode(v)| < TWO_TO_32 { ParametersFill(m, v); }
    hide Put, Encode, ParamLength, WellTyped, Align4;
  }

  lemma MeasuredCapacity(m: Msg, v: Value)
    requires Sized(m, v) && ParamLength(v) == |Encode(v)| && |Encode(v)| % 4 == 0
    ensures |m| == HEADER_SIZE + |Encode(v)| && Blank(Body(m), |Encode(v)|)
  {
    hide Encode, ParamLength;
  }

  lemma AppendedToBody(m: Msg, data: seq<byte>)
    requires |m| == HEADER_SIZE + |data|
    ensures Appended(Body(m), data) == Buf(m[..HEADER_SIZE] + data, |m|)
  {}

  /** The parameters lie behind the header and fill the message. */
  predicate Carries(m: Msg, v: Value) {
    WellSized(|m|) && m[HEADER_SIZE..] == Encode(v)
  }

  lemma NewIsSized(routing: int, ty: nat, id: nat, v: Value, f: Flag)
    requires id < TWO_TO_32 && Buildable(ParamLength(v))
    ensures Sized(NewMessage(routing, ty, id, ParamLength(v)), v)
    ensures Sized(Mark(NewMessage(routing, ty, id, ParamLength(v)), f), v)
  {
    hide ParamLength, Le, Has, Id, OrMask;
  }

  /** The same header: routing, type, flags and id. */
  predicate SameHeader(m: Msg, r: Msg) {
    HasHeader(m) && HasHeader(r) && m[..HEADER_SIZE] == r[..HEADER_SIZE]
  }

  lemma HeaderDecides(m: Msg, r: Msg)
    requires SameHeader(m, r)
    ensures Id(r) == Id(m) && (forall f :: Has(r, f) == Has(m, f)) && Routing(r) == Routing(m)
    ensures KindOf(r) == KindOf(m) && IsReplyError(r) == IsReplyError(m) && TypeField(r) == TypeField(m)
  {
    var h := m[..HEADER_SIZE];
    assert r[4..6] == h[4..6] == m[4..6];
    assert r[8..12] == h[8..12] == m[8..12] && r[0..4] == h[0..4] == m[0..4] && r[6] == h[6] == m[6];
    hide Unsigned, Signed, HasMask;
  }

  /** Filling keeps the header and puts the wire form behind it. */
  lemma FilledCarries(m: Msg, v: Value)
    requires WellTyped(v) && Sized(m, v) && |Encode(v)| < TWO_TO_32
    ensures SameHeader(m, Filled(m, v).bytes) && Carries(Filled(m, v).bytes, v)
  {
    hide Encode, Put, Filled, ParamLength, WellTyped, Align4;
    ExactSizing(m, v);
    HeadAndTail(m[..HEADER_SIZE], Encode(v));
  }

  lemma HeadAndTail(h: seq<byte>, t: seq<byte>)
    ensures (h + t)[..|h|] == h && (h + t)[|h|..] == t
  {}

  lemma RequestCarries(routing: int, ty: nat, id: nat, v: Value)
    requires id < TWO_TO_32 && WellTyped(v) && Buildable(ParamLength(v)) && |Encode(v)| < TWO_TO_32
    ensures var r := RequestImage(routing, ty, id, v);
      Carries(r, v) && Id(r) == id && KindOf(r) == Request && WellFormed(r)
  {
    var m := Mark(NewMessage(routing, ty, id, ParamLength(v)), SyncBit);
    NewIsSized(routing, ty, id, v, SyncBit);
    hide Encode, Put, ParamLength, WellTyped, Filled, Sized, Align4, OrMask, HasMask, Signed, Unsigned, Le;
    FilledCarries(m, v);
    HeaderDecides(m, Filled(m, v).bytes);
  }

  /** The asynchronous message carries its parameters too. */
  lemma AsyncCarries(routing: int, ty: nat, id: nat, v: Value)
    requires id < TWO_TO_32 && WellTyped(v) && Buildable(ParamLength(v)) && |Encode(v)| < TWO_TO_32
    ensures var m := AsyncImage(routing, ty, id, v);
      Carries(m, v) && Id(m) == id && KindOf(m) == Oneway && WellFormed(m)
  {
    var m := NewMessage(routing, ty, id, ParamLength(v));
    NewIsSized(routing, ty, id, v, SyncBit);
    PlainIsOneway(m);
    hide Encode, Put, ParamLength, WellTyped, Filled, Sized, NewMessage, Has, IsReplyError, Id, KindOf, WellSized, Align4;
    FilledCarries(m, v);
    HeaderDecides(m, Filled(m, v).bytes);
    CarriedSize(Filled(m, v).bytes, v);
  }

  lemma PlainIsOneway(m: Msg)
    requires HasHeader(m) && forall f :: !Has(m, f)
    ensures KindOf(m) == Oneway && !Has(m, DisconnectBit)
  {
    assert !Has(m, ReplyErrorBit);
    hide HasMask;
  }

  // ---- whom a message is for -----------------------------------------------------------------

  /** The message reads as one for `routing`, of type `ty`. */
  predicate For(m: Msg, routing: int, ty: nat) {
    Routing(m) == routing && TypeField(m) == ty
  }

  lemma NewIsFor(routing: int, ty: nat, id: nat, size: nat)
    requires id < TWO_TO_32 && ty < 0x1_0000 && -TWO_TO_31 <= routing < TWO_TO_31
    ensures For(NewMessage(routing, ty, id, size), routing, ty)
  {
    NewHasType(routing, ty, id, size);
    Pow256Values();
    LeSigned(routing, 4);
    var m := NewMessage(routing, ty, id, size);
    assert m[0..4] == Le(routing, 4);
    hide Le, Signed, Unsigned;
  }

  lemma NewHasType(routing: int, ty: nat, id: nat, size: nat)
    requires id < TWO_TO_32 && ty < 0x1_0000
    ensures TypeField(NewMessage(routing, ty, id, size)) == ty
  {
    Pow256Values();
    LeUnsigned(ty, 2);
    var m := NewMessage(routing, ty, id, size);
    assert m[4..6] == Le(ty, 2);
    hide Le, Unsigned;
  }

  /** Writing parameters, even more than fit, leaves the header. */
  lemma FillingKeepsHeader(m: Msg, v: Value)
    requires WellSized(|m|) && WellTyped(v)
    ensures SameHeader(m, Filled(m, v).bytes)
  {
    BodyInBounds(m);
    hide Put, InBounds;
    PutKeepsFront(Body(m), v, HEADER_SIZE);
  }

  /** Flags and ids can be changed on the way without changing routing and type. */
  lemma HeaderEditsKeepAddress(m: Msg, f: Flag, id: nat)
    requires id < TWO_TO_32
    ensures forall r :: r in [Mark(m, f), Unmark(m, f), WithId(m, id)] ==> Routing(r) == Routing(m) && TypeField(r) == TypeField(m)
  {
    if HasHeader(m) {
      forall r | r in [Mark(m, f), Unmark(m, f), WithId(m, id)]
        ensures r[0..4] == m[0..4] && r[4..6] == m[4..6]
      {}
    }
    hide Signed, Unsigned, OrMask, ClearMask;
  }

  /** Whatever its parameters, a message is for the routing and of the type it was built with. */
  lemma ImagesAreFor(routing: int, ty: nat, id: nat, v: Value)
    requires id < TWO_TO_32 && ty < 0x1_0000 && -TWO_TO_31 <= routing < TWO_TO_31 && WellTyped(v) && Buildable(ParamLength(v))
    ensures For(AsyncImage(routing, ty, id, v), routing, ty) && For(RequestImage(routing, ty, id, v), routing, ty)
    ensures For(ReplyImage(routing, id, v), routing, REPLY_TYPE)
  {
    hide Put, ParamLength, WellTyped, Filled, Align4, OrMask, HasMask, For, NewMessage, Mark;
    FilledIsFor(routing, ty, id, v, SyncBit);
    FilledIsFor(routing, REPLY_TYPE, id, v, ReplyBit);
  }

  lemma RoutingRange(m: Msg)
    ensures -TWO_TO_31 <= Routing(m) < TWO_TO_31
  {
    Pow256Values();
    hide Unsigned;
  }

  /** A dispatcher's reply goes to where the request came from. */
  lemma ReplyGoesBack(req: Msg, id: nat, v: Value)
    requires id < TWO_TO_32 && WellTyped(v) && Buildable(ParamLength(v))
    ensures For(ReplyImage(Routing(req), id, v), Routing(req), REPLY_TYPE)
  {
    RoutingRange(req);
    hide ParamLength, WellTyped, Align4, NewMessage, Mark, ReplyImage, Routing, For;
    ImagesAreFor(Routing(req), REPLY_TYPE, id, v);
  }

  /** And so does its error. */
  lemma ErrorGoesBack(req: Msg, id: nat, size: nat)
    requires id < TWO_TO_32
    ensures For(Mark(NewMessage(Routing(req), REPLY_TYPE, id, size), ReplyErrorBit), Routing(req), REPLY_TYPE)
  {
    RoutingRange(req);
    NewIsFor(Routing(req), REPLY_TYPE, id, size);
    HeaderEditsKeepAddress(NewMessage(Routing(req), REPLY_TYPE, id, size), ReplyErrorBit, id);
    hide NewMessage, Mark, Routing, TypeField;
  }

  lemma FilledIsFor(routing: int, ty: nat, id: nat, v: Value, f: Flag)
    requires id < TWO_TO_32 && ty < 0x1_0000 && -TWO_TO_31 <= routing < TWO_TO_31 && WellTyped(v) && Buildable(ParamLength(v))
    ensures var n := NewMessage(routing, ty, id, ParamLength(v));
      WellSized(|n|) && For(Filled(n, v).bytes, routing, ty) && For(Filled(Mark(n, f), v).bytes, routing, ty)
  {
    var n := NewMessage(routing, ty, id, ParamLength(v));
    NewIsSized(routing, ty, id, v, f);
    SizedIsWellSized(n, v);
    NewIsFor(routing, ty, id, ParamLength(v));
    HeaderEditsKeepAddress(n, f, id);
    hide Put, ParamLength, WellTyped, Filled, Align4, OrMask, HasMask, NewMessage, Mark, SameHeader;
    FillingKeepsHeader(n, v);
    HeaderDecides(n, Filled(n, v).bytes);
    FillingKeepsHeader(Mark(n, f), v);
    HeaderDecides(Mark(n, f), Filled(Mark(n, f), v).bytes);
  }

  /** A request has the type it was built with, and marking keeps it. */
  lemma RequestHasType(routing: int, ty: nat, id: nat, v: Value)
    requires id < TWO_TO_32 && ty < 0x1_0000 && WellTyped(v) && Buildable(ParamLength(v))
    ensures TypeField(RequestImage(routing, ty, id, v)) == ty
    ensures TypeField(Mark(RequestImage(routing, ty, id, v), SyncBit)) == ty
  {
    var n := NewMessage(routing, ty, id, ParamLength(v));
    var m := Mark(n, SyncBit);
    NewIsSized(routing, ty, id, v, SyncBit);
    SizedIsWellSized(m, v);
    NewHasType(routing, ty, id, ParamLength(v));
    HeaderEditsKeepAddress(n, SyncBit, id);
    HeaderEditsKeepAddress(RequestImage(routing, ty, id, v), SyncBit, id);
    hide Put, ParamLength, WellTyped, Filled, Sized, Align4, OrMask, HasMask, Mark, NewMessage, TypeField, SameHeader;
    FillingKeepsHeader(m, v);
    HeaderDecides(m, Filled(m, v).bytes);
  }

  lemma ReplyTemplate(routing: int, id: nat, v: Value)
    requires id < TWO_TO_32 && Buildable(ParamLength(v))
    ensures var m := Mark(NewMessage(routing, REPLY_TYPE, id, ParamLength(v)), ReplyBit);
      Sized(m, v) && Id(m) == id && !Has(m, SyncBit) && !Has(m, DisconnectBit) && !IsReplyError(m)
  {
    hide ParamLength, Sized, Le, Align4, Align, Unsigned, OrMask, Zeros;
    NewIsSized(routing, REPLY_TYPE, id, v, ReplyBit);
    assert !Has(Mark(NewMessage(routing, REPLY_TYPE, id, ParamLength(v)), ReplyBit), ReplyErrorBit);
  }

  lemma ReplyCarries(routing: int, id: nat, v: Value)
    requires id < TWO_TO_32 && WellTyped(v) && Buildable(ParamLength(v)) && |Encode(v)| < TWO_TO_32
    ensures var r := ReplyImage(routing, id, v);
      Carries(r, v) && Id(r) == id && !Has(r, SyncBit) && !IsReplyError(r) && WellFormed(r)
  {
    var m := Mark(NewMessage(routing, REPLY_TYPE, id, ParamLength(v)), ReplyBit);
    ReplyTemplate(routing, id, v);
    hide Encode, Put, ParamLength, WellTyped, Filled, Sized, Mark, NewMessage, Has, IsReplyError, Id, KindOf, WellSized, Align4;
    FilledCarries(m, v);
    HeaderDecides(m, Filled(m, v).bytes);
    CarriedSize(Filled(m, v).bytes, v);
  }

  lemma CarriedSize(m: Msg, v: Value)
    requires Carries(m, v)
    ensures WellSized(|m|)
  {}

  /** Flags and ids can be changed on the way without touching the parameters. */
  lemma HeaderEditsKeepParameters(m: Msg, v: Value, f: Flag, id: nat)
    requires Carries(m, v) && id < TWO_TO_32
    ensures Carries(Mark(m, f), v) && Carries(WithId(m, id), v)
  {
    hide Encode;
    assert Mark(m, f)[HEADER_SIZE..] == m[HEADER_SIZE..];
    assert WithId(m, id)[HEADER_SIZE..] == m[HEADER_SIZE..];
  }

  /** Reading a message that carries a value gives the value and exhausts the message. */
  lemma CarriedIsRead(m: Msg, v: Value)
    requires Carries(m, v) && WellTyped(v) && Symmetric(v)
    ensures InBounds(Body(m)) && Get(Body(m), TypeOf(v)) == Taken(Some(v), Buf(m, |m|))
  {
    BodyInBounds(m);
    assert m[HEADER_SIZE..HEADER_SIZE + |Encode(v)|] == m[HEADER_SIZE..];
    GetReadsForm(Body(m), v);
  }

  /** What a message with parameters is to its receiver: for whom it is, its kind, and what it reads from it. */
  lemma BuiltMessageIsRead(routing: int, ty: nat, id: nat, v: Value)
    requires id < TWO_TO_32 && ty < 0x1_0000 && -TWO_TO_31 <= routing < TWO_TO_31
    requires WellTyped(v) && Buildable(ParamLength(v)) && |Encode(v)| < TWO_TO_32
    ensures Built(AsyncImage(routing, ty, id, v), Oneway, routing, ty, id, v)
    ensures Built(RequestImage(routing, ty, id, v), Request, routing, ty, id, v)
  {
    AsyncCarries(routing, ty, id, v);
    RequestCarries(routing, ty, id, v);
    ImagesAreFor(routing, ty, id, v);
    hide Encode, ParamLength, WellTyped, AsyncImage, RequestImage, KindOf, Id, WellFormed, Carries, Get;
    if Symmetric(v) {
      CarriedIsRead(AsyncImage(routing, ty, id, v), v);
      CarriedIsRead(RequestImage(routing, ty, id, v), v);
    }
  }

  /** A message fit to send, with this header, that carries `v`; a receiver reads `v` if it can be read back. */
  predicate Built(m: Msg, kind: Kind, routing: int, ty: nat, id: nat, v: Value) {
    && WellFormed(m) && KindOf(m) == kind && For(m, routing, ty) && Id(m) == id && Carries(m, v)
    && (Symmetric(v) ==> InBounds(Body(m)) && Get(Body(m), TypeOf(v)).value == Some(v))
  }
}
