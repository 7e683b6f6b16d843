/** The message object: a pickle whose first bytes are the header, filled and edited in place. */
module MessageObjects {
  import opened Bytes
  import opened MessageIds
  import opened Messages
  import opened Params
  import opened Pickles
  import opened TypedMessages

  /** s_nextMessageId, advanced by one thread at a time. */
  class IdCounter {
    var next: int
    ghost var draws: nat

    ghost predicate Valid()
      reads this
    {
      next == Counter(draws)
    }

    constructor ()
      ensures Valid() && draws == 0
    {
      next, draws := 0, 0;
    }

    method Draw() returns (id: nat)
      requires Valid()
      modifies this
      ensures Valid() && draws == old(draws) + 1 && id == IdAt(old(draws))
    {
      next := Increment(next);
      if next < 0 {
        next := 1;
      }
      id := next;
      draws := draws + 1;
    }
  }

  /** Storing the four fields one after the other lays out the header. */
  lemma HeaderLaidOut(z: seq<byte>, a: seq<byte>, b: seq<byte>, c: seq<byte>, d: seq<byte>)
    requires |z| >= HEADER_SIZE && |a| == 4 && |b| == 2 && |c| == 2 && |d| == 4
    ensures var p1 := z[..0] + a + z[4..];
      var p2 := p1[..4] + b + p1[6..];
      var p3 := p2[..6] + c + p2[8..];
      p3[..8] + d + p3[12..] == a + b + c + d + z[HEADER_SIZE..]
  {
    var p1 := z[..0] + a + z[4..];
    assert p1 == a + z[4..];
    var p2 := p1[..4] + b + p1[6..];
    assert p2 == a + b + z[6..];
    var p3 := p2[..6] + c + p2[8..];
    assert p3 == a + b + c + z[8..];
  }

  lemma NewLaidOut(routing: int, ty: nat, id: nat, size: nat)
    requires id < TWO_TO_32
    ensures NewMessage(routing, ty, id, size)
         == Le(routing, 4) + Le(ty, 2) + Le(0, 2) + Le(id, 4) + Zeros(Align4(HEADER_SIZE + size))[HEADER_SIZE..]
  {
    assert Zeros(Align4(HEADER_SIZE + size))[HEADER_SIZE..] == Zeros(Align4(HEADER_SIZE + size) - HEADER_SIZE);
  }

  class Message {
    const pickle: Pickle

    ghost predicate Valid()
      reads this, pickle, pickle.payload
    {
      pickle.Valid()
    }

    ghost function Image(): Msg
      reads this, pickle, pickle.payload
    {
      pickle.View().bytes
    }

    /** A message about to be received: zeroed, with the cursor behind the header if there is room for one. */
    constructor ForReading(capacity: nat)
      requires Align4(capacity) < TWO_TO_31
      ensures Valid() && fresh(pickle) && fresh(pickle.payload)
      ensures Image() == Zeros(Align4(capacity)) && pickle.position == if capacity >= HEADER_SIZE then HEADER_SIZE else 0
    {
      pickle := new Pickle(capacity);
      new;
      if capacity >= HEADER_SIZE {
        pickle.UpdateIter(HEADER_SIZE);
      }
    }

    /** A message about to be sent, with room for `size` bytes of parameters. */
    constructor New(routing: int, ty: nat, size: nat, ids: IdCounter)
      requires Buildable(size) && ids.Valid()
      modifies ids
      ensures Valid() && fresh(pickle) && fresh(pickle.payload) && ids.Valid() && ids.draws == old(ids.draws) + 1
      ensures pickle.View() == Body(NewMessage(routing, ty, IdAt(old(ids.draws)), size))
    {
      pickle := new Pickle(HEADER_SIZE + size);
      new;
      var id := ids.Draw();
      WriteHeader(routing, ty, id);
      pickle.UpdateIter(HEADER_SIZE);
      NewLaidOut(routing, ty, id, size);
    }

    method WriteHeader(routing: int, ty: nat, id: nat)
      requires Valid() && HasHeader(Image())
      modifies pickle.payload
      ensures Valid() && pickle.position == old(pickle.position)
      ensures Image() == Le(routing, 4) + Le(ty, 2) + Le(0, 2) + Le(id, 4) + old(Image())[HEADER_SIZE..]
    {
      HeaderLaidOut(Image(), Le(routing, 4), Le(ty, 2), Le(0, 2), Le(id, 4));
      Poke(0, Le(routing, 4));
      Poke(4, Le(ty, 2));
      Poke(6, Le(0, 2));
      Poke(8, Le(id, 4));
    }

    /** A store through header_. */
    method Poke(at: nat, data: seq<byte>)
      requires Valid() && at + |data| <= pickle.payload.Length
      modifies pickle.payload
      ensures Valid() && pickle.position == old(pickle.position)
      ensures Image() == old(Image()[..at]) + data + old(Image()[at + |data|..])
    {
      forall i | 0 <= i < |data| {
        pickle.payload[at + i] := data[i];
      }
      assert Image() == old(Image()[..at]) + data + old(Image()[at + |data|..]);
    }

    method SetFlag(f: Flag)
      requires Valid()
      modifies pickle.payload
      ensures Valid() && pickle.position == old(pickle.position) && Image() == Mark(old(Image()), f)
    {
      if pickle.payload.Length >= HEADER_SIZE {
        pickle.payload[6] := OrMask(pickle.payload[6], f);
      }
    }

    /** set_unblock, the one setter that can also clear its flag. */
    method SetUnblock(unblock: bool)
      requires Valid()
      modifies pickle.payload
      ensures Valid() && pickle.position == old(pickle.position)
      ensures Image() == if unblock then Mark(old(Image()), UnblockBit) else Unmark(old(Image()), UnblockBit)
    {
      if unblock {
        SetFlag(UnblockBit);
      } else if pickle.payload.Length >= HEADER_SIZE {
        pickle.payload[6] := ClearMask(pickle.payload[6], UnblockBit);
      }
    }

    method SetMessageId(id: nat)
      requires Valid() && id < TWO_TO_32
      modifies pickle.payload
      ensures Valid() && pickle.position == old(pickle.position) && Image() == WithId(old(Image()), id)
    {
      if pickle.payload.Length >= HEADER_SIZE {
        Poke(8, Le(id, 4));
      }
    }
  }

  /** The constructor of messages with parameters, and of requests. */
  method NewWithParameters(routing: int, ty: nat, v: Value, request: bool, ids: IdCounter) returns (m: Message)
    requires WellTyped(v) && Buildable(ParamLength(v)) && ids.Valid()
    modifies ids
    ensures fresh(m) && fresh(m.pickle) && fresh(m.pickle.payload)
    ensures m.Valid() && ids.Valid() && ids.draws == old(ids.draws) + 1
    ensures m.Image() == if request then RequestImage(routing, ty, IdAt(old(ids.draws)), v) else AsyncImage(routing, ty, IdAt(old(ids.draws)), v)
    ensures ty < 0x1_0000 && -TWO_TO_31 <= routing < TWO_TO_31 && |Encode(v)| < TWO_TO_32 ==>
              Built(m.Image(), if request then Request else Oneway, routing, ty, IdAt(old(ids.draws)), v)
  {
    hide Put, ParamLength, WellTyped, OrMask, HasMask, Le, Unsigned, NewMessage, Encode, Built;
    if ty < 0x1_0000 && -TWO_TO_31 <= routing < TWO_TO_31 && |Encode(v)| < TWO_TO_32 {
      BuiltMessageIsRead(routing, ty, IdAt(ids.draws), v);
    }
    m := new Message.New(routing, ty, ParamLength(v), ids);
    if request {
      m.SetFlag(SyncBit);
    }
    WriteParam(m.pickle, v);
  }

  /**
   The dispatcher of a request: read the parameters, run the handler, and build
   the answer from what it produced; unreadable parameters make an error answer
   of the size of default parameters.
   */
  method Dispatch(msg: Message, sendType: Type, handler: Value -> Value, default: Value, ids: IdCounter) returns (reply: Message, ok: bool)
    requires msg.Valid() && msg.pickle.position == HEADER_SIZE && ids.Valid()
    requires forall v :: WellTyped(handler(v)) && Buildable(ParamLength(handler(v)))
    requires Buildable(ParamLength(default))
    modifies msg.pickle, ids
    ensures fresh(reply) && reply.Valid() && ids.Valid() && ids.draws == old(ids.draws) + 1
    ensures msg.Image() == old(msg.Image())
    ensures var id := IdAt(old(ids.draws));
      match Get(Body(old(msg.Image())), sendType).value
      case Some(args) => ok && reply.Image() == ReplyImage(Routing(msg.Image()), id, handler(args))
      case None => !ok && reply.Image() == Mark(NewMessage(Routing(msg.Image()), REPLY_TYPE, id, ParamLength(default)), ReplyErrorBit)
    ensures For(reply.Image(), Routing(msg.Image()), REPLY_TYPE)
  {
    var routing := if msg.pickle.payload.Length >= HEADER_SIZE then Signed(msg.pickle.payload[0..4]) else 0;
    assert routing == Routing(msg.Image());
    var args := ReadParam(msg.pickle, sendType);
    if args.Some? {
      var out := handler(args.value);
      reply := new Message.New(routing, REPLY_TYPE, ParamLength(out), ids);
      reply.SetFlag(ReplyBit);
      WriteParam(reply.pickle, out);
      ReplyGoesBack(msg.Image(), IdAt(old(ids.draws)), out);
      ok := true;
    } else {
      reply := new Message.New(routing, REPLY_TYPE, ParamLength(default), ids);
      reply.SetFlag(ReplyErrorBit);
      ErrorGoesBack(msg.Image(), IdAt(old(ids.draws)), ParamLength(default));
      ok := false;
    }
  }
}
