/**
 Sending an AMQP 1.0 transfer: one frame if it fits, otherwise as many as the
 negotiated frame size takes.
 */
module Transfers {
  import opened Prelude

  const HEADER_SIZE: nat := 8

  /** Type constructors of the AMQP 1.0 encoding that a transfer uses. */
  const TYPE_DESCRIPTOR: byte := 0x00
  const TYPE_NULL: byte := 0x40
  const TYPE_TRUE: byte := 0x41
  const TYPE_FALSE: byte := 0x42
  const TYPE_UINT0: byte := 0x43
  const TYPE_UINT_SMALL: byte := 0x52
  const TYPE_ULONG_SMALL: byte := 0x53
  const TYPE_UINT: byte := 0x70
  const TYPE_BINARY_SHORT: byte := 0xa0
  const TYPE_BINARY_LONG: byte := 0xb0
  const TYPE_LIST32: byte := 0xd0
  const DESCRIPTOR_TRANSFER: byte := 0x14

  type uint32 = x: int | 0 <= x < 0x1_0000_0000

  datatype Transfer = Transfer(
    handle: uint32,
    deliveryId: Option<uint32>,
    deliveryTag: Option<Bytes>,
    messageFormat: Option<uint32>,
    settled: bool,
    more: bool)

  /** Four bytes, most significant first. */
  function PutUint32(v: nat): (s: Bytes)
    ensures |s| == 4
  {
    var v1 := v / 256;
    var v2 := v1 / 256;
    var v3 := v2 / 256;
    [v3 % 256, v2 % 256, v1 % 256, v % 256]
  }

  function PutUint(v: uint32): Bytes {
    if v == 0 then [TYPE_UINT0]
    else if v <= 255 then [TYPE_UINT_SMALL, v]
    else [TYPE_UINT] + PutUint32(v)
  }

  function PutOptionalUint(v: Option<uint32>): (s: Bytes)
    ensures 1 <= |s|
  {
    if v.None? then [TYPE_NULL] else PutUint(v.value)
  }

  function PutBinary(b: Bytes): (s: Bytes)
    ensures 1 <= |s|
  {
    (if |b| <= 255 then [TYPE_BINARY_SHORT, |b|] else [TYPE_BINARY_LONG] + PutUint32(|b|)) + b
  }

  function PutTag(tag: Option<Bytes>): (s: Bytes)
    ensures 1 <= |s|
  {
    if tag.None? then [TYPE_NULL] else PutBinary(tag.value)
  }

  function PutBool(b: bool): (s: Bytes)
    ensures |s| == 1
  {
    [if b then TYPE_TRUE else TYPE_FALSE]
  }

  function PutFields(t: Transfer): Bytes {
    PutUint(t.handle) + PutOptionalUint(t.deliveryId) + PutTag(t.deliveryTag) + PutOptionalUint(t.messageFormat)
    + PutBool(t.settled) + PutBool(t.more)
  }

  /** The descriptor, and the head of a list of six fields in n bytes. */
  function PutHead(n: nat): (s: Bytes)
    ensures |s| == 12
  {
    [TYPE_DESCRIPTOR, TYPE_ULONG_SMALL, DESCRIPTOR_TRANSFER, TYPE_LIST32] + PutUint32(n + 4) + PutUint32(6)
  }

  /** The performative: a described list. */
  function Encode(t: Transfer): Bytes {
    PutHead(|PutFields(t)|) + PutFields(t)
  }

  /** The transfer that carries on a delivery: only the handle and the flag. */
  function Continuation(handle: uint32, more: bool): Transfer {
    Transfer(handle, None, None, None, false, more)
  }

  /** The flag takes the same room either way, and the optional fields only add to what a continuation needs. */
  lemma EncodedSizes(t: Transfer, more: bool)
    ensures |Encode(t.(more := more))| == |Encode(t)|
    ensures |Encode(Continuation(t.handle, more))| <= |Encode(t)|
  {
  }

  /** A frame as it goes out: what is encoded, and the piece of the payload behind it. */
  datatype Frame = Frame(performative: Transfer, chunk: Bytes)

  function Body(f: Frame): Bytes {
    Encode(f.performative) + f.chunk
  }

  function Payload(fs: seq<Frame>): Bytes {
    if fs == [] then [] else Payload(fs[..|fs| - 1]) + fs[|fs| - 1].chunk
  }

  lemma PayloadNext(fs: seq<Frame>, f: Frame)
    ensures Payload(fs + [f]) == Payload(fs) + f.chunk
  {
    assert (fs + [f])[..|fs|] == fs;
  }

  // ---------------------------------------------------------------------------
  // What the other side reads off the bytes

  function GetUint32(s: Bytes, p: nat): nat
    requires p + 4 <= |s|
  {
    ((s[p] as int * 256 + s[p + 1]) * 256 + s[p + 2]) * 256 + s[p + 3]
  }

  /** Where the performative ends, from the size its list declares. */
  function PerformativeEnd(body: Bytes): nat
    requires 8 <= |body|
  {
    8 + GetUint32(body, 4)
  }

  lemma GetPutUint32(v: nat, s: Bytes, p: nat)
    requires v < 0x1_0000_0000 && p + 4 <= |s| && s[p..p + 4] == PutUint32(v)
    ensures GetUint32(s, p) == v
  {
    var v1 := v / 256;
    var v2 := v1 / 256;
    var w := s[p..p + 4];
    assert s[p] == w[0] && s[p + 1] == w[1] && s[p + 2] == w[2] && s[p + 3] == w[3];
    assert v == 256 * v1 + v % 256 && v1 == 256 * v2 + v1 % 256 && v2 == 256 * (v2 / 256) + v2 % 256;
  }

  /** The body splits where it was joined, and the last byte of the performative is the flag. */
  lemma BodyReads(f: Frame)
    requires |Encode(f.performative)| < 0x1_0000_0000
    ensures var body := Body(f); var end := PerformativeEnd(body);
      && 8 < end <= |body| && body[end..] == f.chunk
      && body[end - 1] == if f.performative.more then TYPE_TRUE else TYPE_FALSE
  {
    hide PutFields, PutUint32, GetUint32;
    var fields, body := PutFields(f.performative), Body(f);
    LastField(f.performative);
    assert body[4..8] == PutHead(|fields|)[4..8] == PutUint32(|fields| + 4);
    GetPutUint32(|fields| + 4, body, 4);
    assert body == PutHead(|fields|) + fields + f.chunk;
  }

  lemma LastField(t: Transfer)
    ensures PutFields(t) != [] && PutFields(t)[|PutFields(t)| - 1] == if t.more then TYPE_TRUE else TYPE_FALSE
  {
    assert PutFields(t)[|PutFields(t)| - 1..] == PutBool(t.more);
  }

  // ---------------------------------------------------------------------------
  // The performative, read back

  /** This stands in the bytes at this position. */
  ghost predicate At(s: Bytes, p: nat, piece: Bytes) {
    p + |piece| <= |s| && s[p..p + |piece|] == piece
  }

  lemma AtSplit(s: Bytes, p: nat, a: Bytes, b: Bytes)
    requires At(s, p, a + b)
    ensures At(s, p, a) && At(s, p + |a|, b)
  {
    assert s[p..p + |a|] == (a + b)[..|a|];
    assert s[p + |a|..p + |a| + |b|] == (a + b)[|a|..];
  }

  /** A value and where the next one starts. */
  datatype Taken<+T> = Taken(value: T, next: nat)

  function TakeUint(s: Bytes, p: nat): Option<Taken<nat>> {
    if p >= |s| then None
    else if s[p] == TYPE_UINT0 then Some(Taken(0, p + 1))
    else if s[p] == TYPE_UINT_SMALL && p + 2 <= |s| then Some(Taken(s[p + 1], p + 2))
    else if s[p] == TYPE_UINT && p + 5 <= |s| then Some(Taken(GetUint32(s, p + 1), p + 5))
    else None
  }

  function TakeOptionalUint(s: Bytes, p: nat): Option<Taken<Option<nat>>> {
    if p < |s| && s[p] == TYPE_NULL then Some(Taken(None, p + 1))
    else
      match TakeUint(s, p)
      case None => None
      case Some(t) => Some(Taken(Some(t.value), t.next))
  }

  function TakeTag(s: Bytes, p: nat): Option<Taken<Option<Bytes>>> {
    if p >= |s| then None
    else if s[p] == TYPE_NULL then Some(Taken(None, p + 1))
    else if s[p] == TYPE_BINARY_SHORT && p + 2 <= |s| && p + 2 + s[p + 1] <= |s| then
      Some(Taken(Some(s[p + 2..p + 2 + s[p + 1]]), p + 2 + s[p + 1]))
    else if s[p] == TYPE_BINARY_LONG && p + 5 <= |s| && p + 5 + GetUint32(s, p + 1) <= |s| then
      Some(Taken(Some(s[p + 5..p + 5 + GetUint32(s, p + 1)]), p + 5 + GetUint32(s, p + 1)))
    else None
  }

  function TakeBool(s: Bytes, p: nat): Option<Taken<bool>> {
    if p < |s| && (s[p] == TYPE_TRUE || s[p] == TYPE_FALSE) then Some(Taken(s[p] == TYPE_TRUE, p + 1)) else None
  }

  /** What a receiver finds in the performative: its fields in order, or nothing if it is not a transfer. */
  datatype Fields = Fields(
    handle: nat,
    deliveryId: Option<nat>,
    deliveryTag: Option<Bytes>,
    messageFormat: Option<nat>,
    settled: bool,
    more: bool)

  function Number(v: Option<uint32>): Option<nat> {
    if v.Some? then Some(v.value) else None
  }

  function FieldsOf(t: Transfer): Fields {
    Fields(t.handle, Number(t.deliveryId), t.deliveryTag, Number(t.messageFormat), t.settled, t.more)
  }

  function TakeFields(s: Bytes, p: nat): Option<Taken<Fields>> {
    var handle := TakeUint(s, p);
    if handle.None? then None else
    var id := TakeOptionalUint(s, handle.value.next);
    if id.None? then None else
    var tag := TakeTag(s, id.value.next);
    if tag.None? then None else
    var format := TakeOptionalUint(s, tag.value.next);
    if format.None? then None else
    var settled := TakeBool(s, format.value.next);
    if settled.None? then None else
    var more := TakeBool(s, settled.value.next);
    if more.None? then None else
    Some(Taken(Fields(handle.value.value, id.value.value, tag.value.value, format.value.value, settled.value.value,
                      more.value.value), more.value.next))
  }

  /** The described list: its descriptor, its size and count, and its fields, which fill it. */
  function ReadTransfer(body: Bytes): Option<Fields> {
    if |body| < 12 || body[..4] != [TYPE_DESCRIPTOR, TYPE_ULONG_SMALL, DESCRIPTOR_TRANSFER, TYPE_LIST32] then None
    else if GetUint32(body, 8) != 6 then None
    else
      match TakeFields(body, 12)
      case None => None
      case Some(t) => if t.next == PerformativeEnd(body) then Some(t.value) else None
  }

  lemma TakePutUint(s: Bytes, p: nat, v: uint32)
    requires At(s, p, PutUint(v))
    ensures TakeUint(s, p) == Some(Taken(v as nat, p + |PutUint(v)|)) && p < |s| && s[p] != TYPE_NULL
  {
    hide PutUint32, GetUint32;
    var piece := PutUint(v);
    assert s[p..p + |piece|][0] == piece[0];
    if v > 255 {
      AtSplit(s, p, [TYPE_UINT], PutUint32(v));
      GetPutUint32(v, s, p + 1);
    } else if v > 0 {
      assert s[p..p + |piece|][1] == piece[1];
    }
  }

  lemma TakePutOptional(s: Bytes, p: nat, v: Option<uint32>)
    requires At(s, p, PutOptionalUint(v))
    ensures TakeOptionalUint(s, p) == Some(Taken(Number(v), p + |PutOptionalUint(v)|))
  {
    hide PutUint, TakeUint;
    if v.Some? {
      TakePutUint(s, p, v.value);
    } else {
      assert s[p..p + 1][0] == TYPE_NULL;
    }
  }

  lemma TakePutTag(s: Bytes, p: nat, tag: Option<Bytes>)
    requires At(s, p, PutTag(tag)) && |PutTag(tag)| < 0x1_0000_0000
    ensures TakeTag(s, p) == Some(Taken(tag, p + |PutTag(tag)|))
  {
    hide PutUint32, GetUint32;
    assert s[p..p + |PutTag(tag)|][0] == PutTag(tag)[0];
    if tag.Some? {
      var b := tag.value;
      if |b| <= 255 {
        AtSplit(s, p, [TYPE_BINARY_SHORT, |b|], b);
        assert s[p..p + 2][1] == |b|;
      } else {
        AtSplit(s, p, [TYPE_BINARY_LONG] + PutUint32(|b|), b);
        AtSplit(s, p, [TYPE_BINARY_LONG], PutUint32(|b|));
        GetPutUint32(|b|, s, p + 1);
      }
    }
  }

  lemma TakePutBool(s: Bytes, p: nat, b: bool)
    requires At(s, p, PutBool(b))
    ensures TakeBool(s, p) == Some(Taken(b, p + 1))
  {
    assert s[p..p + 1][0] == PutBool(b)[0];
  }

  lemma TakePutFields(s: Bytes, p: nat, t: Transfer)
    requires At(s, p, PutFields(t)) && |PutFields(t)| < 0x1_0000_0000
    ensures TakeFields(s, p) == Some(Taken(FieldsOf(t), p + |PutFields(t)|))
  {
    hide At, PutUint, PutOptionalUint, PutTag, TakeUint, TakeOptionalUint, TakeTag, TakeBool, PutBool;
    var a, b, c := PutUint(t.handle), PutOptionalUint(t.deliveryId), PutTag(t.deliveryTag);
    var d, e, f := PutOptionalUint(t.messageFormat), PutBool(t.settled), PutBool(t.more);
    AtSplit(s, p, a + b + c + d + e, f);
    AtSplit(s, p, a + b + c + d, e);
    AtSplit(s, p, a + b + c, d);
    AtSplit(s, p, a + b, c);
    AtSplit(s, p, a, b);
    TakePutUint(s, p, t.handle);
    TakePutOptional(s, p + |a|, t.deliveryId);
    TakePutTag(s, p + |a + b|, t.deliveryTag);
    TakePutOptional(s, p + |a + b + c|, t.messageFormat);
    TakePutBool(s, p + |a + b + c + d|, t.settled);
    TakePutBool(s, p + |a + b + c + d + e|, t.more);
  }

  /** Every field of the performative reads back from the body, whatever payload stands behind it. */
  lemma PerformativeReads(f: Frame)
    requires |Encode(f.performative)| < 0x1_0000_0000
    ensures ReadTransfer(Body(f)) == Some(FieldsOf(f.performative))
  {
    hide PutFields, PutUint32, GetUint32, TakeFields;
    var t, body := f.performative, Body(f);
    var fields := PutFields(t);
    assert body == PutHead(|fields|) + (fields + f.chunk);
    assert body[..4] == PutHead(|fields|)[..4];
    assert body[4..8] == PutHead(|fields|)[4..8] == PutUint32(|fields| + 4);
    assert body[8..12] == PutHead(|fields|)[8..12] == PutUint32(6);
    GetPutUint32(|fields| + 4, body, 4);
    GetPutUint32(6, body, 8);
    assert At(body, 12, fields) by {
      assert body[12..12 + |fields|] == (fields + f.chunk)[..|fields|];
    }
    TakePutFields(body, 12, t);
  }

  // ---------------------------------------------------------------------------
  // Sending

  datatype SendError = PerformativeTooLarge | WriteFailed

  /** The frames of one transfer that had to be split. */
  ghost predicate Split(t: Transfer, payload: Bytes, maxBody: nat, fs: seq<Frame>) {
    && 2 <= |fs| && Payload(fs) == payload
    && fs[0].performative == t.(more := true)
    && (forall i | 0 < i < |fs| :: fs[i].performative == Continuation(t.handle, i < |fs| - 1))
    && (forall f <- fs :: f.chunk != [] && |Body(f)| <= maxBody)
    && (forall i | 0 <= i < |fs| - 1 :: |Body(fs[i])| == maxBody)
  }

  /** The same with more to come: every frame so far says so. */
  ghost predicate Begun(t: Transfer, payload: Bytes, maxBody: nat, fs: seq<Frame>, offset: nat) {
    && 1 <= |fs| && offset < |payload| && Payload(fs) == payload[..offset]
    && fs[0].performative == t.(more := true)
    && (forall i | 0 < i < |fs| :: fs[i].performative == Continuation(t.handle, true))
    && (forall f <- fs :: f.chunk != [] && |Body(f)| == maxBody)
  }

  /** One more frame: a middle one, or the last. */
  lemma NextFrame(t: Transfer, payload: Bytes, maxBody: nat, fs: seq<Frame>, offset: nat, size: nat)
    requires Begun(t, payload, maxBody, fs, offset) && 0 < size <= |payload| - offset
    requires |Encode(Continuation(t.handle, offset + size < |payload|))| + size <= maxBody
    requires offset + size < |payload| ==> |Encode(Continuation(t.handle, true))| + size == maxBody
    ensures var f := Frame(Continuation(t.handle, offset + size < |payload|), payload[offset..offset + size]);
      if offset + size < |payload| then Begun(t, payload, maxBody, fs + [f], offset + size)
      else Split(t, payload, maxBody, fs + [f])
  {
    hide Encode, Payload;
    var f := Frame(Continuation(t.handle, offset + size < |payload|), payload[offset..offset + size]);
    PayloadNext(fs, f);
    assert payload[..offset] + payload[offset..offset + size] == payload[..offset + size];
    assert offset + size == |payload| ==> payload[..offset + size] == payload;
    assert forall g :: g in fs + [f] <==> g in fs || g == f;
  }

  lemma FirstFrame(t: Transfer, payload: Bytes, maxBody: nat, size: nat)
    requires 0 < size < |payload| && |Encode(t.(more := true))| + size == maxBody
    ensures Begun(t, payload, maxBody, [Frame(t.(more := true), payload[..size])], size)
  {
    hide Encode;
    PayloadNext([], Frame(t.(more := true), payload[..size]));
  }

  function Bodies(fs: seq<Frame>): seq<Bytes> {
    seq(|fs|, i requires 0 <= i < |fs| => Body(fs[i]))
  }

  /** A body long enough to hold the performative it declares. */
  predicate Readable(body: Bytes) {
    8 <= |body| && 8 < PerformativeEnd(body) <= |body|
  }

  predicate SaysMore(body: Bytes)
    requires Readable(body)
  {
    body[PerformativeEnd(body) - 1] == TYPE_TRUE
  }

  /** What a receiver puts together, from the bytes alone. */
  function Reassembled(bodies: seq<Bytes>): Bytes
    requires forall b <- bodies :: Readable(b)
  {
    if bodies == [] then [] else
    var n := |bodies| - 1;
    assert Readable(bodies[n]);
    Reassembled(bodies[..n]) + bodies[n][PerformativeEnd(bodies[n])..]
  }

  lemma {:induction false} ReassemblesPayload(fs: seq<Frame>)
    requires forall f <- fs :: |Encode(f.performative)| < 0x1_0000_0000
    ensures forall b <- Bodies(fs) :: Readable(b)
    ensures Reassembled(Bodies(fs)) == Payload(fs)
  {
    hide Encode, Body, Readable, PerformativeEnd;
    if fs != [] {
      var n := |fs| - 1;
      ReassemblesPayload(fs[..n]);
      assert Bodies(fs)[..n] == Bodies(fs[..n]);
      FrameReadable(fs[n]);
    }
  }

  lemma FrameReadable(f: Frame)
    requires |Encode(f.performative)| < 0x1_0000_0000
    ensures Readable(Body(f)) && Body(f)[PerformativeEnd(Body(f))..] == f.chunk
    ensures SaysMore(Body(f)) <==> f.performative.more
  {
    hide Encode, Body, PerformativeEnd;
    BodyReads(f);
  }

  /**
   What a split transfer looks like on the wire: the receiver gets the payload back,
   and every frame but the last says that more follows.
   */
  lemma WireForm(t: Transfer, payload: Bytes, maxBody: nat, fs: seq<Frame>)
    requires Split(t, payload, maxBody, fs) && maxBody < 0x1_0000_0000
    ensures forall b <- Bodies(fs) :: Readable(b) && |b| <= maxBody
    ensures Reassembled(Bodies(fs)) == payload
    ensures forall i | 0 <= i < |fs| :: SaysMore(Bodies(fs)[i]) <==> i < |fs| - 1
    ensures ReadTransfer(Bodies(fs)[0]) == Some(FieldsOf(t.(more := true)))
    ensures forall i | 0 < i < |fs| ::
      ReadTransfer(Bodies(fs)[i]) == Some(Fields(t.handle, None, None, None, false, i < |fs| - 1))
  {
    hide Encode, PerformativeEnd, Payload, Reassembled, ReadTransfer;
    forall f <- fs ensures |Encode(f.performative)| < 0x1_0000_0000 {
      assert |Body(f)| <= maxBody;
    }
    ReassemblesPayload(fs);
    forall i | 0 <= i < |fs| ensures SaysMore(Bodies(fs)[i]) <==> i < |fs| - 1 {
      assert fs[i] in fs;
      FrameReadable(fs[i]);
    }
    forall i | 0 <= i < |fs| ensures ReadTransfer(Bodies(fs)[i]) == Some(FieldsOf(fs[i].performative)) {
      assert fs[i] in fs;
      PerformativeReads(fs[i]);
    }
  }

  class Connection {
    const maxFrameSize: nat

    /** The frame bodies written so far. */
    var sent: seq<Bytes>

    /** How many more writes the peer accepts. */
    var accepts: nat

    constructor (maxFrameSize: nat, accepts: nat)
      ensures this.maxFrameSize == maxFrameSize && sent == [] && this.accepts == accepts
    {
      this.maxFrameSize, this.accepts, sent := maxFrameSize, accepts, [];
    }

    method WriteFrame(body: Bytes) returns (ok: bool)
      modifies this
      ensures ok <==> 0 < old(accepts)
      ensures sent == if ok then old(sent) + [body] else old(sent)
      ensures accepts == if ok then old(accepts) - 1 else 0
    {
      ok := 0 < accepts;
      if ok {
        sent, accepts := sent + [body], accepts - 1;
      }
    }

    /** WriteTransfer. */
    method WriteTransfer(t: Transfer, payload: Bytes) returns (r: Result<(), SendError>, ghost fs: seq<Frame>)
      modifies this
      ensures var maxBody := maxFrameSize - HEADER_SIZE;
        var whole := maxBody <= 0 || |Encode(t)| + |payload| <= maxBody;
        && (r == Err(PerformativeTooLarge) <==> !whole && maxBody <= |Encode(t)|)
        && (r.Ok? && whole ==> fs == [Frame(t, payload)])
        && (r.Ok? && !whole ==> Split(t, payload, maxBody, fs))
        && (r == Err(WriteFailed) && fs != [] ==>
              !whole && exists offset: nat :: Begun(t, payload, maxBody, fs, offset))
      ensures sent == old(sent) + Bodies(fs) && |fs| <= old(accepts)
      ensures r == Err(WriteFailed) ==> |fs| == old(accepts)
      ensures r == Err(PerformativeTooLarge) ==> fs == []
    {
      var perf := Encode(t);
      var maxBody := maxFrameSize - HEADER_SIZE;
      fs := [];
      if maxBody <= 0 || |perf| + |payload| <= maxBody {
        var ok := WriteFrame(perf + payload);
        fs := if ok then [Frame(t, payload)] else [];
        r := if ok then Ok(()) else Err(WriteFailed);
        return;
      }
      EncodedSizes(t, true);
      EncodedSizes(t, false);
      perf := Encode(t.(more := true));
      var firstChunk := maxBody - |perf|;
      if firstChunk <= 0 {
        r := Err(PerformativeTooLarge);
        return;
      }
      r, fs := WriteSplit(t, payload, maxBody);
    }

    /** The frames of a transfer that does not fit one. */
    method WriteSplit(t: Transfer, payload: Bytes, maxBody: nat)
      returns (r: Result<(), SendError>, ghost fs: seq<Frame>)
      requires |Encode(t.(more := true))| < maxBody < |Encode(t.(more := true))| + |payload|
      modifies this
      ensures r.Ok? ==> Split(t, payload, maxBody, fs)
      ensures r.Err? ==> r.error == WriteFailed && |fs| == old(accepts)
      ensures r.Err? && fs != [] ==> exists offset: nat :: Begun(t, payload, maxBody, fs, offset)
      ensures sent == old(sent) + Bodies(fs) && |fs| <= old(accepts)
    {
      hide Encode, Begun, Split;
      var first := t.(more := true);
      var firstChunk := maxBody - |Encode(first)|;
      EncodedSizes(first, true);
      EncodedSizes(first, false);
      EncodedSizes(Continuation(t.handle, true), false);
      var contBody, lastBody := Encode(Continuation(t.handle, true)), Encode(Continuation(t.handle, false));
      var contChunk, lastChunk := maxBody - |contBody|, maxBody - |lastBody|;

      var ok := WriteFrame(Encode(first) + payload[..firstChunk]);
      if !ok {
        r, fs := Err(WriteFailed), [];
        return;
      }
      fs := [Frame(first, payload[..firstChunk])];
      FirstFrame(t, payload, maxBody, firstChunk);
      var offset := firstChunk;
      var remaining := |payload| - offset;
      while remaining > 0
        invariant 0 <= remaining == |payload| - offset && sent == old(sent) + Bodies(fs)
        invariant fs != [] && |fs| + accepts == old(accepts)
        invariant if remaining > 0 then Begun(t, payload, maxBody, fs, offset) else Split(t, payload, maxBody, fs)
        decreases remaining
      {
        var framePerf, chunkSize := lastBody, remaining;
        if remaining > lastChunk {
          framePerf, chunkSize := contBody, contChunk;
          if chunkSize > remaining {
            chunkSize := remaining;
          }
        }
        NextFrame(t, payload, maxBody, fs, offset, chunkSize);
        ok := WriteFrame(framePerf + payload[offset..offset + chunkSize]);
        if !ok {
          r := Err(WriteFailed);
          return;
        }
        fs := fs + [Frame(Continuation(t.handle, chunkSize < remaining), payload[offset..offset + chunkSize])];
        offset := offset + chunkSize;
        remaining := remaining - chunkSize;
      }
      r := Ok(());
    }
  }
}
