/**
 Reading into variables.  A reply tuple refers to variables of the caller, and
 reading it stores each field as it is read; a read that fails leaves its
 variable, and all that would follow, as they are.
 */
module Variables {
  import opened Messages
  import opened Options
  import opened Params
  import opened Pickles
  import opened TypedMessages

  /** What the variables hold afterwards, where the cursor is, and whether every read succeeded. */
  datatype Holding = Holding(held: Value, buf: Buf, ok: bool)

  datatype RowHolds = RowHolds(held: seq<Value>, buf: Buf, ok: bool)

  predicate IsScalar(v: Value) {
    !v.Pair? && !v.Tuple?
  }

  /** ReadParam into variables that hold `v`. */
  function ReadInto(b: Buf, v: Value): (r: Holding)
    requires InBounds(b)
    ensures InBounds(r.buf)
    decreases TypeSize(TypeOf(v)), 0
  {
    match v
    case Pair(x, y) =>
      var p := ReadInto(b, x);
      if !p.ok then Holding(Pair(p.held, y), p.buf, false) else
      var q := ReadInto(p.buf, y);
      Holding(Pair(p.held, q.held), q.buf, q.ok)
    case Tuple(fs) =>
      SizesReordered(TypesOf(fs));
      TypesReordered(fs);
      var xs := ReadAllInto(b, ReadOrder(fs));
      Holding(Tuple(ReadOrder(xs.held)), xs.buf, xs.ok)
    case _ =>
      var r := Get(b, TypeOf(v));
      Holding(if r.value.Some? then r.value.value else v, r.buf, r.value.Some?)
  }

  function ReadAllInto(b: Buf, vs: seq<Value>): (r: RowHolds)
    requires InBounds(b)
    ensures InBounds(r.buf) && |r.held| == |vs|
    decreases TypeSizes(TypesOf(vs)), |vs| + 1
  {
    if vs == [] then RowHolds([], b, true)
    else
      var x := ReadInto(b, vs[0]);
      if !x.ok then RowHolds([x.held] + vs[1..], x.buf, false) else
      var xs := ReadAllInto(x.buf, vs[1..]);
      RowHolds([x.held] + xs.held, xs.buf, xs.ok)
  }

  /** Reading into variables succeeds exactly when the value can be read, and then they hold it. */
  lemma {:induction false} StoresWhatIsRead(b: Buf, v: Value)
    requires InBounds(b)
    ensures var r, g := ReadInto(b, v), Get(b, TypeOf(v));
      r.buf == g.buf && (r.ok <==> g.value.Some?) && (r.ok ==> r.held == g.value.value)
    decreases TypeSize(TypeOf(v)), 0
  {
    match v {
      case Pair(x, y) =>
        StoresWhatIsRead(b, x);
        var p := ReadInto(b, x);
        if p.ok { StoresWhatIsRead(p.buf, y); }
      case Tuple(fs) =>
        SizesReordered(TypesOf(fs));
        TypesReordered(fs);
        StoresAllRead(b, ReadOrder(fs));
      case _ =>
    }
  }

  lemma {:induction false} StoresAllRead(b: Buf, vs: seq<Value>)
    requires InBounds(b)
    ensures var r, g := ReadAllInto(b, vs), GetAll(b, TypesOf(vs));
      r.buf == g.buf && (r.ok <==> g.value.Some?) && (r.ok ==> r.held == g.value.value)
    decreases TypeSizes(TypesOf(vs)), |vs| + 1
  {
    hide Get, ReadInto, TypeOf, TypeSize;
    if vs != [] {
      StoresWhatIsRead(b, vs[0]);
      var x := ReadInto(b, vs[0]);
      if x.ok { StoresAllRead(x.buf, vs[1..]); }
    }
  }

  /** What a failed read leaves alone. */
  lemma FailedScalarKeeps(b: Buf, v: Value)
    requires InBounds(b) && IsScalar(v) && Get(b, TypeOf(v)).value.None?
    ensures ReadInto(b, v).held == v
  {}

  /**
   Of a row of variables the first `k` are set to what is read, the next one, if
   any, is the first whose read fails, and those behind it keep what they held.
   */
  lemma {:induction false} FieldsUpToFailure(b: Buf, vs: seq<Value>) returns (k: nat)
    requires InBounds(b)
    ensures k <= |vs| && (ReadAllInto(b, vs).ok <==> k == |vs|)
    ensures var r, g := ReadAllInto(b, vs), GetAll(b, TypesOf(vs[..k]));
      && g.value == Some(r.held[..k])
      && (k < |vs| ==>
            && Get(g.buf, TypeOf(vs[k])).value.None?
            && r.held[k] == ReadInto(g.buf, vs[k]).held
            && r.held[k + 1..] == vs[k + 1..])
    decreases |vs|
  {
    hide Get, ReadInto, TypeOf, InBounds;
    if vs == [] {
      k := 0;
    } else {
      StoresWhatIsRead(b, vs[0]);
      var x := ReadInto(b, vs[0]);
      if !x.ok {
        k := 0;
        assert vs[..0] == [];
      } else {
        var j := FieldsUpToFailure(x.buf, vs[1..]);
        k := j + 1;
        assert vs[..k][1..] == vs[1..][..j] && vs[..k][0] == vs[0];
        assert TypesOf(vs[..k]) == [TypeOf(vs[0])] + TypesOf(vs[1..][..j]);
        var r := ReadAllInto(b, vs).held;
        assert r[..k] == [x.held] + r[1..][..j];
        if k < |vs| { assert vs[k + 1..] == vs[1..][j + 1..] && r[k + 1..] == r[1..][j + 1..]; }
      }
    }
  }

  // ---- replies ------------------------------------------------------------------

  /** What a reply leaves in variables that held `held`. */
  function AfterReply(m: Msg, held: Value): Value
    requires WellSized(|m|)
  {
    BodyInBounds(m);
    ReadInto(Body(m), held).held
  }

  /** A readable reply sets every variable, to what was sent. */
  lemma ReadableReplySetsAll(m: Msg, held: Value)
    requires WellSized(|m|)
    ensures InBounds(Body(m))
    ensures var g := Get(Body(m), TypeOf(held)).value; g.Some? ==> AfterReply(m, held) == g.value
  {
    BodyInBounds(m);
    hide Get, ReadInto;
    StoresWhatIsRead(Body(m), held);
  }

  /**
   An unreadable reply, for which the call returns true as well, sets the fields
   in front of the first failing read and leaves those behind it as they were.
   */
  lemma UnreadableReplySetsSome(m: Msg, fields: seq<Value>) returns (k: nat)
    requires WellSized(|m|)
    ensures InBounds(Body(m)) && k <= |fields|
    ensures k == |fields| <==> Get(Body(m), TypeOf(Tuple(fields))).value.Some?
    ensures var was := ReadOrder(fields); var after := AfterReply(m, Tuple(fields));
      && after.Tuple? && |after.fields| == |fields|
      && var now := ReadOrder(after.fields);
      && GetAll(Body(m), TypesOf(was[..k])).value == Some(now[..k])
      && (k < |fields| ==> now[k + 1..] == was[k + 1..])
      && (k < |fields| && IsScalar(was[k]) ==> now[k] == was[k])
  {
    BodyInBounds(m);
    var b, was := Body(m), ReadOrder(fields);
    StoresWhatIsRead(b, Tuple(fields));
    k := FieldsUpToFailure(b, was);
    ReadOrderTwice(ReadAllInto(b, was).held);
    hide Get, TypeOf, InBounds;
    if k < |was| && IsScalar(was[k]) { FailedScalarKeeps(GetAll(b, TypesOf(was[..k])).buf, was[k]); }
    hide ReadAllInto, ReadOrder;
  }
}
