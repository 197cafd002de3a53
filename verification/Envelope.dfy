/**
 The broker's message envelope and its binary form.
 */
module Envelopes {
  import opened Prelude
  import opened Encoding
  import opened Buffers
  import opened MapWalks
  import opened Wire

  type uint64 = x: int | 0 <= x < TWO64
  type uint32 = x: int | 0 <= x < TWO32
  type uint16 = x: int | 0 <= x < TWO16
  type int64 = x: int | -TWO63 <= x < TWO63

  /** Nanoseconds since 1970; None is the zero time. */
  type Time = Option<int64>

  datatype Protocol = NoProtocol | Mqtt | Amqp091 | Amqp1 | Http | Coap | OtherProtocol(name: Bytes)

  datatype QueueState = NoState | Queued | Delivered | Acked | Retry | Dlq | OtherState(name: Bytes)

  datatype Source = Source(clientId: Bytes, externalId: Bytes, protocol: Protocol, topic: Bytes)

  datatype Delivery = Delivery(
    publishedAt: Time, expiresAt: Time, subscriptionIds: seq<uint32>, packetId: uint16, qos: byte,
    inflightDirection: byte, inflightState: byte, retain: bool, duplicate: bool)

  datatype Stream = Stream(
    offset: uint64, timestamp: int64, committedOffset: uint64, hasCommittedOffset: bool, workAcknowledged: bool,
    workGroup: Bytes)

  datatype Queue = Queue(
    name: Bytes, groupId: Bytes, offset: uint64, state: QueueState, createdAt: Time, deliveredAt: Time,
    nextRetryAt: Time, retryCount: int64, expiresAt: Time, stream: Option<Stream>)

  datatype Transfer = Transfer(
    id: Bytes, failureReason: Bytes, firstAttempt: Time, lastAttempt: Time, completedAt: Time,
    sourceQueue: Bytes, sourceGroup: Bytes, sourceOffset: uint64, deliveryCount: int64)

  datatype Trace = Trace(traceParent: Bytes, traceState: Bytes, traceId: Bytes)

  datatype Broker = Broker(source: Source, delivery: Delivery, queue: Queue, transfer: Transfer, trace: Trace)

  datatype Publisher = Publisher(
    key: Bytes, headers: map<Bytes, Bytes>, properties: map<Bytes, Bytes>, contentType: Bytes, contentEncoding: Bytes,
    responseTopic: Bytes, correlationData: Bytes, payloadFormat: Option<byte>, messageExpiry: Option<uint32>,
    messageId: Bytes)

  datatype Envelope = Envelope(version: uint16, topic: Bytes, publisher: Publisher, broker: Broker, payload: Bytes)

  const SOURCE := Source([], [], NoProtocol, [])
  const DELIVERY := Delivery(None, None, [], 0, 0, 0, 0, false, false)
  const STREAM := Stream(0, 0, 0, false, false, [])
  const QUEUE := Queue([], [], 0, NoState, None, None, None, 0, None, None)
  const TRANSFER := Transfer([], [], None, None, None, [], [], 0, 0)
  const TRACE := Trace([], [], [])
  const BROKER := Broker(SOURCE, DELIVERY, QUEUE, TRANSFER, TRACE)
  const PUBLISHER := Publisher([], map[], map[], [], [], [], [], None, None, [])

  // ---------------------------------------------------------------------------
  // Enumerations and times

  function ProtocolNumber(p: Protocol): nat {
    match p
    case Mqtt => 1
    case Amqp091 => 2
    case Amqp1 => 3
    case Http => 4
    case Coap => 5
    case _ => 0
  }

  function ProtocolFromNumber(n: nat): Result<Protocol, Error> {
    match n
    case 0 => Ok(NoProtocol)
    case 1 => Ok(Mqtt)
    case 2 => Ok(Amqp091)
    case 3 => Ok(Amqp1)
    case 4 => Ok(Http)
    case 5 => Ok(Coap)
    case _ => Err(UnsupportedProtocol)
  }

  function StateNumber(s: QueueState): nat {
    match s
    case Queued => 1
    case Delivered => 2
    case Acked => 3
    case Retry => 4
    case Dlq => 5
    case _ => 0
  }

  function StateFromNumber(n: nat): Result<QueueState, Error> {
    match n
    case 0 => Ok(NoState)
    case 1 => Ok(Queued)
    case 2 => Ok(Delivered)
    case 3 => Ok(Acked)
    case 4 => Ok(Retry)
    case 5 => Ok(Dlq)
    case _ => Err(UnsupportedQueueState)
  }

  function TimeField(number: nat, t: Time): seq<Field> {
    if t.None? then [] else [Varint(number, ZigZag(t.value))]
  }

  /** The time a varint stands for; a value beyond 64 bits cannot come out of a varint. */
  function DecodeTime(v: nat): Time {
    Some(if v < TWO64 then UnZigZag(v) else 0)
  }

  /** A signed count, as the bits of an unsigned one. */
  function DecodeCount(v: nat): int64 {
    if v < TWO64 then FromUint64(v) else 0
  }

  // ---------------------------------------------------------------------------
  // Trace

  function TraceFields(t: Trace): seq<Field> {
    Text(1, t.traceParent) + Text(2, t.traceState) + Text(3, t.traceId)
  }

  function VisitTrace(t: Trace, f: Field): Result<Trace, Error> {
    if f.number < 1 || f.number > 3 then Ok(t)
    else if f.Varint? then Err(WrongWireType(f.number))
    else if f.number == 1 then Ok(t.(traceParent := f.raw))
    else if f.number == 2 then Ok(t.(traceState := f.raw))
    else Ok(t.(traceId := f.raw))
  }

  lemma TraceReads(t: Trace)
    ensures Fold(VisitTrace, TRACE, TraceFields(t)) == Ok(t)
    ensures Typed(TraceFields(t))
  {
    hide Fold;
    var t1 := TRACE.(traceParent := t.traceParent);
    var t2 := t1.(traceState := t.traceState);
    Start(VisitTrace, TRACE, Text(1, t.traceParent), t1);
    Then(VisitTrace, TRACE, Text(1, t.traceParent), t1, Text(2, t.traceState), t2);
    Then(VisitTrace, TRACE, Text(1, t.traceParent) + Text(2, t.traceState), t2, Text(3, t.traceId), t);
  }

  // ---------------------------------------------------------------------------
  // Source

  function SourceFields(s: Source): seq<Field> {
    Text(1, s.clientId)
    + Text(2, s.externalId)
    + Number(3, ProtocolNumber(s.protocol))
    + Text(4, s.topic)
  }

  function VisitSource(s: Source, f: Field): Result<Source, Error> {
    if f.number < 1 || f.number > 4 then Ok(s)
    else if f.Varint? != (f.number == 3) then Err(WrongWireType(f.number))
    else if f.number == 1 then Ok(s.(clientId := f.raw))
    else if f.number == 2 then Ok(s.(externalId := f.raw))
    else if f.number == 3 then
      match ProtocolFromNumber(f.value)
      case Err(e) => Err(e)
      case Ok(p) => Ok(s.(protocol := p))
    else Ok(s.(topic := f.raw))
  }

  lemma SourceReads(s: Source)
    requires !s.protocol.OtherProtocol?
    ensures Fold(VisitSource, SOURCE, SourceFields(s)) == Ok(s)
    ensures Typed(SourceFields(s))
  {
    hide Fold;
    var s1 := SOURCE.(clientId := s.clientId);
    var p1 := Text(1, s.clientId);
    Start(VisitSource, SOURCE, p1, s1);
    var s2 := s1.(externalId := s.externalId);
    var p2 := p1 + Text(2, s.externalId);
    Then(VisitSource, SOURCE, p1, s1, Text(2, s.externalId), s2);
    var s3 := s2.(protocol := s.protocol);
    var p3 := p2 + Number(3, ProtocolNumber(s.protocol));
    Then(VisitSource, SOURCE, p2, s2, Number(3, ProtocolNumber(s.protocol)), s3);
    Then(VisitSource, SOURCE, p3, s3, Text(4, s.topic), s);
  }

  // ---------------------------------------------------------------------------
  // Delivery

  function PutIds(ids: seq<uint32>): Bytes {
    if ids == [] then [] else PutIds(ids[..|ids| - 1]) + PutUvarint(ids[|ids| - 1])
  }

  /** decodePackedSubscriptionIDs, from a position on. */
  function ReadIds(raw: Bytes, p: nat, got: seq<uint32>): Result<seq<uint32>, Error>
    requires p <= |raw|
    decreases |raw| - p
  {
    if p == |raw| then Ok(got)
    else
      match GetUvarint(raw, p)
      case Value(v, n) => if v >= TWO32 then Err(TooLarge(3)) else ReadIds(raw, p + n, got + [v])
      case _ => Err(Malformed)
  }

  function DeliveryTimes(d: Delivery): seq<Field> {
    TimeField(1, d.publishedAt) + TimeField(2, d.expiresAt)
  }

  function DeliveryIds(d: Delivery): seq<Field> {
    Nested(3, PutIds(d.subscriptionIds)) + Number(4, d.packetId)
  }

  function DeliveryMqtt(d: Delivery): seq<Field> {
    Number(5, d.qos) + Number(6, d.inflightDirection) + Number(7, d.inflightState)
  }

  function DeliveryFlags(d: Delivery): seq<Field> {
    Flag(8, d.retain) + Flag(9, d.duplicate)
  }

  function DeliveryFields(d: Delivery): seq<Field> {
    DeliveryTimes(d) + DeliveryIds(d) + DeliveryMqtt(d) + DeliveryFlags(d)
  }

  function VisitDelivery(d: Delivery, f: Field): Result<Delivery, Error> {
    if f.number < 1 || f.number > 9 then Ok(d)
    else if f.number == 3 && f.Blob? then
      match ReadIds(f.raw, 0, d.subscriptionIds)
      case Err(e) => Err(e)
      case Ok(ids) => Ok(d.(subscriptionIds := ids))
    else if f.Blob? then Err(WrongWireType(f.number))
    else VisitDeliveryNumber(d, f.number, f.value)
  }

  function VisitDeliveryNumber(d: Delivery, number: nat, v: nat): Result<Delivery, Error> {
    match number
    case 1 => Ok(d.(publishedAt := DecodeTime(v)))
    case 2 => Ok(d.(expiresAt := DecodeTime(v)))
    case 3 => if v >= TWO32 then Err(TooLarge(3)) else Ok(d.(subscriptionIds := d.subscriptionIds + [v]))
    case 4 => if v >= TWO16 then Err(TooLarge(4)) else Ok(d.(packetId := v))
    case 5 => if v > 255 then Err(TooLarge(5)) else Ok(d.(qos := v))
    case 6 => if v > 255 then Err(TooLarge(6)) else Ok(d.(inflightDirection := v))
    case 7 => if v > 255 then Err(TooLarge(7)) else Ok(d.(inflightState := v))
    case 8 => Ok(d.(retain := v != 0))
    case 9 => Ok(d.(duplicate := v != 0))
    case _ => Ok(d)
  }

  lemma {:induction false} IdsRead(raw: Bytes, p: nat, q: nat, ids: seq<uint32>, got: seq<uint32>)
    requires At(raw, p, PutIds(ids)) && q == p + |PutIds(ids)|
    ensures q <= |raw| && ReadIds(raw, p, got) == ReadIds(raw, q, got + ids)
    decreases |ids|
  {
    hide GetUvarint, PutUvarint, At;
    AtEnd(raw, p, PutIds(ids));
    if ids == [] {
      assert got + ids == got;
    } else {
      var n := |ids| - 1;
      var front, last := PutIds(ids[..n]), PutUvarint(ids[n]);
      AtSplit(raw, p, front, last);
      IdsRead(raw, p, p + |front|, ids[..n], got);
      GetPutUvarint(raw, p + |front|, ids[n]);
      assert got + ids == (got + ids[..n]) + [ids[n]];
    }
  }

  /** A packed list reads back behind whatever was read before it. */
  lemma PackedReads(ids: seq<uint32>, got: seq<uint32>)
    ensures ReadIds(PutIds(ids), 0, got) == Ok(got + ids)
  {
    hide At;
    AtWhole(PutIds(ids));
    IdsRead(PutIds(ids), 0, |PutIds(ids)|, ids, got);
  }

  lemma PutIdsEmpty(ids: seq<uint32>)
    ensures PutIds(ids) == [] <==> ids == []
  {
  }

  lemma DeliveryTimesRead(d: Delivery, got: Delivery)
    requires got.publishedAt == None && got.expiresAt == None
    ensures Fold(VisitDelivery, got, DeliveryTimes(d)) ==
      Ok(got.(publishedAt := d.publishedAt, expiresAt := d.expiresAt))
    ensures Typed(DeliveryTimes(d))
  {
    hide Fold, ReadIds, PutIds;
    var d1 := got.(publishedAt := d.publishedAt);
    Start(VisitDelivery, got, TimeField(1, d.publishedAt), d1);
    var d2 := d1.(expiresAt := d.expiresAt);
    Then(VisitDelivery, got, TimeField(1, d.publishedAt), d1, TimeField(2, d.expiresAt), d2);
  }

  lemma DeliveryIdsRead(d: Delivery, got: Delivery)
    requires got.subscriptionIds == [] && got.packetId == 0
    ensures Fold(VisitDelivery, got, DeliveryIds(d)) ==
      Ok(got.(subscriptionIds := d.subscriptionIds, packetId := d.packetId))
    ensures Typed(DeliveryIds(d))
  {
    hide Fold, ReadIds, PutIds;
    PackedReads(d.subscriptionIds, []);
    PutIdsEmpty(d.subscriptionIds);
    assert [] + d.subscriptionIds == d.subscriptionIds;
    var d1 := got.(subscriptionIds := d.subscriptionIds);
    Start(VisitDelivery, got, Nested(3, PutIds(d.subscriptionIds)), d1);
    var d2 := d1.(packetId := d.packetId);
    Then(VisitDelivery, got, Nested(3, PutIds(d.subscriptionIds)), d1, Number(4, d.packetId), d2);
  }

  lemma DeliveryMqttRead(d: Delivery, got: Delivery)
    requires got.qos == 0 && got.inflightDirection == 0 && got.inflightState == 0
    ensures Fold(VisitDelivery, got, DeliveryMqtt(d)) ==
      Ok(got.(qos := d.qos, inflightDirection := d.inflightDirection, inflightState := d.inflightState))
    ensures Typed(DeliveryMqtt(d))
  {
    hide Fold, ReadIds, PutIds;
    var d1 := got.(qos := d.qos);
    Start(VisitDelivery, got, Number(5, d.qos), d1);
    var d2 := d1.(inflightDirection := d.inflightDirection);
    Then(VisitDelivery, got, Number(5, d.qos), d1, Number(6, d.inflightDirection), d2);
    var d3 := d2.(inflightState := d.inflightState);
    Then(VisitDelivery, got, Number(5, d.qos) + Number(6, d.inflightDirection), d2, Number(7, d.inflightState), d3);
  }

  lemma DeliveryFlagsRead(d: Delivery, got: Delivery)
    requires got.retain == false && got.duplicate == false
    ensures Fold(VisitDelivery, got, DeliveryFlags(d)) == Ok(got.(retain := d.retain, duplicate := d.duplicate))
    ensures Typed(DeliveryFlags(d))
  {
    hide Fold, ReadIds, PutIds;
    var d1 := got.(retain := d.retain);
    Start(VisitDelivery, got, Flag(8, d.retain), d1);
    var d2 := d1.(duplicate := d.duplicate);
    Then(VisitDelivery, got, Flag(8, d.retain), d1, Flag(9, d.duplicate), d2);
  }

  lemma DeliveryReads(d: Delivery)
    ensures Fold(VisitDelivery, DELIVERY, DeliveryFields(d)) == Ok(d)
    ensures Typed(DeliveryFields(d))
  {
    hide Fold, VisitDelivery, DeliveryTimes, DeliveryIds, DeliveryMqtt, DeliveryFlags;
    var d1 := DELIVERY.(publishedAt := d.publishedAt, expiresAt := d.expiresAt);
    DeliveryTimesRead(d, DELIVERY);
    var d2 := d1.(subscriptionIds := d.subscriptionIds, packetId := d.packetId);
    DeliveryIdsRead(d, d1);
    FoldCat(VisitDelivery, DELIVERY, DeliveryTimes(d), DeliveryIds(d));
    var d3 := d2.(qos := d.qos, inflightDirection := d.inflightDirection, inflightState := d.inflightState);
    DeliveryMqttRead(d, d2);
    FoldCat(VisitDelivery, DELIVERY, DeliveryTimes(d) + DeliveryIds(d), DeliveryMqtt(d));
    var d4 := d3.(retain := d.retain, duplicate := d.duplicate);
    DeliveryFlagsRead(d, d3);
    FoldCat(VisitDelivery, DELIVERY, DeliveryTimes(d) + DeliveryIds(d) + DeliveryMqtt(d), DeliveryFlags(d));
  }

  /** A subscription list in pieces, each packed or a single tagged number. */
  datatype Piece = Packed(ids: seq<uint32>) | Single(id: uint32)

  function PieceField(p: Piece): Field {
    if p.Packed? then Blob(3, PutIds(p.ids)) else Varint(3, p.id)
  }

  function PieceIds(p: Piece): seq<uint32> {
    if p.Packed? then p.ids else [p.id]
  }

  function AllFields(ps: seq<Piece>): seq<Field> {
    if ps == [] then [] else [PieceField(ps[0])] + AllFields(ps[1..])
  }

  function AllIds(ps: seq<Piece>): seq<uint32> {
    if ps == [] then [] else PieceIds(ps[0]) + AllIds(ps[1..])
  }

  lemma PieceReads(p: Piece, d: Delivery)
    ensures VisitDelivery(d, PieceField(p)) == Ok(d.(subscriptionIds := d.subscriptionIds + PieceIds(p)))
  {
    hide ReadIds, PutIds;
    if p.Packed? {
      PackedReads(p.ids, d.subscriptionIds);
    }
  }

  lemma MoreIds(a: seq<uint32>, b: seq<uint32>, c: seq<uint32>)
    ensures (a + b) + c == a + (b + c)
  {
  }

  /** Packed, unpacked and mixed lists of the same numbers decode alike. */
  lemma {:induction false} MixedReads(ps: seq<Piece>, d: Delivery)
    ensures Fold(VisitDelivery, d, AllFields(ps)) == Ok(d.(subscriptionIds := d.subscriptionIds + AllIds(ps)))
    decreases |ps|
  {
    hide VisitDelivery, PieceField, PieceIds, Fold;
    if ps == [] {
      assert d.subscriptionIds + [] == d.subscriptionIds;
      Start(VisitDelivery, d, [], d);
    } else {
      var ids, rest := PieceIds(ps[0]), ps[1..];
      var next := d.(subscriptionIds := d.subscriptionIds + ids);
      PieceReads(ps[0], d);
      Start(VisitDelivery, d, [PieceField(ps[0])], next);
      MixedReads(rest, next);
      FoldCat(VisitDelivery, d, [PieceField(ps[0])], AllFields(rest));
      MoreIds(d.subscriptionIds, ids, AllIds(rest));
    }
  }

  // ---------------------------------------------------------------------------
  // Stream and queue

  function SignedField(number: nat, v: int64): seq<Field> {
    if v == 0 then [] else [Varint(number, ZigZag(v))]
  }

  function StreamPlace(s: Stream): seq<Field> {
    Number(1, s.offset) + SignedField(2, s.timestamp) + Number(3, s.committedOffset)
  }

  function StreamWork(s: Stream): seq<Field> {
    Flag(4, s.hasCommittedOffset) + Flag(5, s.workAcknowledged) + Text(6, s.workGroup)
  }

  function StreamFields(s: Stream): seq<Field> {
    StreamPlace(s) + StreamWork(s)
  }

  function VisitStream(s: Stream, f: Field): Result<Stream, Error> {
    if f.number < 1 || f.number > 6 then Ok(s)
    else if f.Varint? != (f.number < 6) then Err(WrongWireType(f.number))
    else if f.number == 6 then Ok(s.(workGroup := f.raw))
    else VisitStreamNumber(s, f.number, f.value)
  }

  /** A value a varint can carry. */
  function Word(v: nat): uint64 {
    if v < TWO64 then v else 0
  }

  function VisitStreamNumber(s: Stream, number: nat, v: nat): Result<Stream, Error> {
    match number
    case 1 => Ok(s.(offset := Word(v)))
    case 2 => Ok(s.(timestamp := UnZigZag(Word(v))))
    case 3 => Ok(s.(committedOffset := Word(v)))
    case 4 => Ok(s.(hasCommittedOffset := v != 0))
    case 5 => Ok(s.(workAcknowledged := v != 0))
    case _ => Ok(s)
  }

  lemma StreamPlaceRead(s: Stream, got: Stream)
    requires got.offset == 0 && got.timestamp == 0 && got.committedOffset == 0
    ensures Fold(VisitStream, got, StreamPlace(s)) ==
      Ok(got.(offset := s.offset, timestamp := s.timestamp, committedOffset := s.committedOffset))
    ensures Typed(StreamPlace(s))
  {
    hide Fold;
    var s1 := got.(offset := s.offset);
    Start(VisitStream, got, Number(1, s.offset), s1);
    var s2 := s1.(timestamp := s.timestamp);
    Then(VisitStream, got, Number(1, s.offset), s1, SignedField(2, s.timestamp), s2);
    var s3 := s2.(committedOffset := s.committedOffset);
    Then(VisitStream, got, Number(1, s.offset) + SignedField(2, s.timestamp), s2, Number(3, s.committedOffset), s3);
  }

  lemma StreamWorkRead(s: Stream, got: Stream)
    requires got.hasCommittedOffset == false && got.workAcknowledged == false && got.workGroup == []
    ensures Fold(VisitStream, got, StreamWork(s)) ==
      Ok(got.(hasCommittedOffset := s.hasCommittedOffset, workAcknowledged := s.workAcknowledged,
              workGroup := s.workGroup))
    ensures Typed(StreamWork(s))
  {
    hide Fold;
    var s1 := got.(hasCommittedOffset := s.hasCommittedOffset);
    Start(VisitStream, got, Flag(4, s.hasCommittedOffset), s1);
    var s2 := s1.(workAcknowledged := s.workAcknowledged);
    Then(VisitStream, got, Flag(4, s.hasCommittedOffset), s1, Flag(5, s.workAcknowledged), s2);
    var s3 := s2.(workGroup := s.workGroup);
    Then(VisitStream, got, Flag(4, s.hasCommittedOffset) + Flag(5, s.workAcknowledged), s2, Text(6, s.workGroup), s3);
  }

  lemma StreamReads(s: Stream)
    ensures Fold(VisitStream, STREAM, StreamFields(s)) == Ok(s)
    ensures Typed(StreamFields(s))
  {
    hide Fold, VisitStream, StreamPlace, StreamWork;
    var s1 := STREAM.(offset := s.offset, timestamp := s.timestamp, committedOffset := s.committedOffset);
    StreamPlaceRead(s, STREAM);
    var s2 := s1.(hasCommittedOffset := s.hasCommittedOffset, workAcknowledged := s.workAcknowledged,
      workGroup := s.workGroup);
    StreamWorkRead(s, s1);
    FoldCat(VisitStream, STREAM, StreamPlace(s), StreamWork(s));
  }

  function StreamField(number: nat, s: Option<Stream>): seq<Field> {
    if s.None? then [] else Nested(number, PutFields(StreamFields(s.value)))
  }

  function QueueNames(q: Queue): seq<Field> {
    Text(2, q.name) + Text(3, q.groupId)
  }

  function QueuePlace(q: Queue): seq<Field> {
    Number(4, q.offset) + Number(5, StateNumber(q.state))
  }

  function QueueTimes(q: Queue): seq<Field> {
    TimeField(6, q.createdAt) + TimeField(7, q.deliveredAt) + TimeField(8, q.nextRetryAt)
  }

  function QueueRetries(q: Queue): seq<Field> {
    Number(9, ToUint64(q.retryCount)) + TimeField(10, q.expiresAt)
  }

  function QueueStream(q: Queue): seq<Field> {
    StreamField(11, q.stream)
  }

  function QueueFields(q: Queue): seq<Field> {
    QueueNames(q) + QueuePlace(q) + QueueTimes(q) + QueueRetries(q) + QueueStream(q)
  }

  function VisitQueue(q: Queue, f: Field): Result<Queue, Error> {
    if f.number < 2 || f.number > 11 then Ok(q)
    else if f.Varint? != (4 <= f.number <= 10) then Err(WrongWireType(f.number))
    else if f.Varint? then VisitQueueNumber(q, f.number, f.value)
    else if f.number == 2 then Ok(q.(name := f.raw))
    else if f.number == 3 then Ok(q.(groupId := f.raw))
    else
      match WalkFrom(f.raw, 0, VisitStream, STREAM)
      case Err(e) => Err(e)
      case Ok(s) => Ok(q.(stream := Some(s)))
  }

  function VisitQueueNumber(q: Queue, number: nat, v: nat): Result<Queue, Error> {
    match number
    case 4 => Ok(q.(offset := Word(v)))
    case 5 => (match StateFromNumber(v) case Err(e) => Err(e) case Ok(s) => Ok(q.(state := s)))
    case 6 => Ok(q.(createdAt := DecodeTime(v)))
    case 7 => Ok(q.(deliveredAt := DecodeTime(v)))
    case 8 => Ok(q.(nextRetryAt := DecodeTime(v)))
    case 9 => Ok(q.(retryCount := DecodeCount(v)))
    case 10 => Ok(q.(expiresAt := DecodeTime(v)))
    case _ => Ok(q)
  }

  /** A stream that is there but all zero encodes to nothing. */
  function QueueKept(q: Queue): Queue {
    if q.stream == Some(STREAM) then q.(stream := None) else q
  }

  lemma StreamNested(s: Stream)
    requires |PutFields(StreamFields(s))| < TWO63
    ensures WalkFrom(PutFields(StreamFields(s)), 0, VisitStream, STREAM) == Ok(s)
    ensures PutFields(StreamFields(s)) == [] <==> s == STREAM
  {
    hide WalkFrom, PutFields;
    StreamReads(s);
    FitBySize(StreamFields(s));
    WalkWritten(VisitStream, STREAM, StreamFields(s));
  }

  lemma QueueNamesRead(q: Queue, got: Queue)
    requires got.name == [] && got.groupId == []
    ensures Fold(VisitQueue, got, QueueNames(q)) == Ok(got.(name := q.name, groupId := q.groupId))
    ensures Typed(QueueNames(q))
  {
    hide Fold, WalkFrom, PutFields, StreamFields;
    var q1 := got.(name := q.name);
    Start(VisitQueue, got, Text(2, q.name), q1);
    var q2 := q1.(groupId := q.groupId);
    Then(VisitQueue, got, Text(2, q.name), q1, Text(3, q.groupId), q2);
  }

  lemma QueuePlaceRead(q: Queue, got: Queue)
    requires got.offset == 0 && got.state == NoState
    requires !q.state.OtherState? && (q.stream.Some? ==> |PutFields(StreamFields(q.stream.value))| < TWO63)
    ensures Fold(VisitQueue, got, QueuePlace(q)) == Ok(got.(offset := q.offset, state := q.state))
    ensures Typed(QueuePlace(q))
  {
    hide Fold, WalkFrom, PutFields, StreamFields;
    if q.stream.Some? {
      StreamNested(q.stream.value);
    }
    var q1 := got.(offset := q.offset);
    Start(VisitQueue, got, Number(4, q.offset), q1);
    var q2 := q1.(state := q.state);
    Then(VisitQueue, got, Number(4, q.offset), q1, Number(5, StateNumber(q.state)), q2);
  }

  lemma QueueTimesRead(q: Queue, got: Queue)
    requires got.createdAt == None && got.deliveredAt == None && got.nextRetryAt == None
    ensures Fold(VisitQueue, got, QueueTimes(q)) ==
      Ok(got.(createdAt := q.createdAt, deliveredAt := q.deliveredAt, nextRetryAt := q.nextRetryAt))
    ensures Typed(QueueTimes(q))
  {
    hide Fold, WalkFrom, PutFields, StreamFields;
    var q1 := got.(createdAt := q.createdAt);
    Start(VisitQueue, got, TimeField(6, q.createdAt), q1);
    var q2 := q1.(deliveredAt := q.deliveredAt);
    Then(VisitQueue, got, TimeField(6, q.createdAt), q1, TimeField(7, q.deliveredAt), q2);
    var q3 := q2.(nextRetryAt := q.nextRetryAt);
    Then(VisitQueue, got, TimeField(6, q.createdAt) + TimeField(7, q.deliveredAt), q2, TimeField(8, q.nextRetryAt), q3);
  }

  lemma QueueRetriesRead(q: Queue, got: Queue)
    requires got.retryCount == 0 && got.expiresAt == None
    ensures Fold(VisitQueue, got, QueueRetries(q)) == Ok(got.(retryCount := q.retryCount, expiresAt := q.expiresAt))
    ensures Typed(QueueRetries(q))
  {
    hide Fold, WalkFrom, PutFields, StreamFields;
    var q1 := got.(retryCount := q.retryCount);
    Start(VisitQueue, got, Number(9, ToUint64(q.retryCount)), q1);
    var q2 := q1.(expiresAt := q.expiresAt);
    Then(VisitQueue, got, Number(9, ToUint64(q.retryCount)), q1, TimeField(10, q.expiresAt), q2);
  }

  lemma QueueStreamRead(q: Queue, got: Queue)
    requires got.stream == None
    requires !q.state.OtherState? && (q.stream.Some? ==> |PutFields(StreamFields(q.stream.value))| < TWO63)
    ensures Fold(VisitQueue, got, QueueStream(q)) == Ok(got.(stream := QueueKept(q).stream))
    ensures Typed(QueueStream(q))
  {
    hide Fold, WalkFrom, PutFields, StreamFields;
    if q.stream.Some? {
      StreamNested(q.stream.value);
    }
    var q1 := got.(stream := QueueKept(q).stream);
    Start(VisitQueue, got, StreamField(11, q.stream), q1);
  }

  lemma QueueReads(q: Queue)
    requires !q.state.OtherState? && (q.stream.Some? ==> |PutFields(StreamFields(q.stream.value))| < TWO63)
    ensures Fold(VisitQueue, QUEUE, QueueFields(q)) == Ok(QueueKept(q))
    ensures Typed(QueueFields(q))
  {
    hide Fold, VisitQueue, QueueNames, QueuePlace, QueueTimes, QueueRetries, QueueStream;
    var q1 := QUEUE.(name := q.name, groupId := q.groupId);
    QueueNamesRead(q, QUEUE);
    var q2 := q1.(offset := q.offset, state := q.state);
    QueuePlaceRead(q, q1);
    FoldCat(VisitQueue, QUEUE, QueueNames(q), QueuePlace(q));
    var q3 := q2.(createdAt := q.createdAt, deliveredAt := q.deliveredAt, nextRetryAt := q.nextRetryAt);
    QueueTimesRead(q, q2);
    FoldCat(VisitQueue, QUEUE, QueueNames(q) + QueuePlace(q), QueueTimes(q));
    var q4 := q3.(retryCount := q.retryCount, expiresAt := q.expiresAt);
    QueueRetriesRead(q, q3);
    FoldCat(VisitQueue, QUEUE, QueueNames(q) + QueuePlace(q) + QueueTimes(q), QueueRetries(q));
    var q5 := q4.(stream := QueueKept(q).stream);
    QueueStreamRead(q, q4);
    FoldCat(VisitQueue, QUEUE, QueueNames(q) + QueuePlace(q) + QueueTimes(q) + QueueRetries(q), QueueStream(q));
  }

  // ---------------------------------------------------------------------------
  // Transfer

  function TransferNames(t: Transfer): seq<Field> {
    Text(1, t.id) + Text(2, t.failureReason)
  }

  function TransferTimes(t: Transfer): seq<Field> {
    TimeField(3, t.firstAttempt) + TimeField(4, t.lastAttempt) + TimeField(5, t.completedAt)
  }

  function TransferSource(t: Transfer): seq<Field> {
    Text(6, t.sourceQueue) + Text(7, t.sourceGroup) + Number(8, t.sourceOffset) + Number(9, ToUint64(t.deliveryCount))
  }

  function TransferFields(t: Transfer): seq<Field> {
    TransferNames(t) + TransferTimes(t) + TransferSource(t)
  }

  function VisitTransfer(t: Transfer, f: Field): Result<Transfer, Error> {
    if f.number < 1 || f.number > 9 then Ok(t)
    else if f.Varint? != (f.number in {3, 4, 5, 8, 9}) then Err(WrongWireType(f.number))
    else if f.Varint? then VisitTransferNumber(t, f.number, f.value)
    else if f.number == 1 then Ok(t.(id := f.raw))
    else if f.number == 2 then Ok(t.(failureReason := f.raw))
    else if f.number == 6 then Ok(t.(sourceQueue := f.raw))
    else Ok(t.(sourceGroup := f.raw))
  }

  function VisitTransferNumber(t: Transfer, number: nat, v: nat): Result<Transfer, Error> {
    match number
    case 3 => Ok(t.(firstAttempt := DecodeTime(v)))
    case 4 => Ok(t.(lastAttempt := DecodeTime(v)))
    case 5 => Ok(t.(completedAt := DecodeTime(v)))
    case 8 => Ok(t.(sourceOffset := Word(v)))
    case 9 => Ok(t.(deliveryCount := DecodeCount(v)))
    case _ => Ok(t)
  }

  lemma TransferNamesRead(t: Transfer, got: Transfer)
    requires got.id == [] && got.failureReason == []
    ensures Fold(VisitTransfer, got, TransferNames(t)) == Ok(got.(id := t.id, failureReason := t.failureReason))
    ensures Typed(TransferNames(t))
  {
    hide Fold;
    var t1 := got.(id := t.id);
    Start(VisitTransfer, got, Text(1, t.id), t1);
    var t2 := t1.(failureReason := t.failureReason);
    Then(VisitTransfer, got, Text(1, t.id), t1, Text(2, t.failureReason), t2);
  }

  lemma TransferTimesRead(t: Transfer, got: Transfer)
    requires got.firstAttempt == None && got.lastAttempt == None && got.completedAt == None
    ensures Fold(VisitTransfer, got, TransferTimes(t)) ==
      Ok(got.(firstAttempt := t.firstAttempt, lastAttempt := t.lastAttempt, completedAt := t.completedAt))
    ensures Typed(TransferTimes(t))
  {
    hide Fold;
    var t1 := got.(firstAttempt := t.firstAttempt);
    Start(VisitTransfer, got, TimeField(3, t.firstAttempt), t1);
    var t2 := t1.(lastAttempt := t.lastAttempt);
    Then(VisitTransfer, got, TimeField(3, t.firstAttempt), t1, TimeField(4, t.lastAttempt), t2);
    var t3 := t2.(completedAt := t.completedAt);
    Then(VisitTransfer, got, TimeField(3, t.firstAttempt) + TimeField(4, t.lastAttempt), t2,
         TimeField(5, t.completedAt), t3);
  }

  lemma TransferSourceRead(t: Transfer, got: Transfer)
    requires got.sourceQueue == [] && got.sourceGroup == [] && got.sourceOffset == 0 && got.deliveryCount == 0
    ensures Fold(VisitTransfer, got, TransferSource(t)) ==
      Ok(got.(sourceQueue := t.sourceQueue, sourceGroup := t.sourceGroup, sourceOffset := t.sourceOffset,
              deliveryCount := t.deliveryCount))
    ensures Typed(TransferSource(t))
  {
    hide Fold;
    var t1 := got.(sourceQueue := t.sourceQueue);
    Start(VisitTransfer, got, Text(6, t.sourceQueue), t1);
    var t2 := t1.(sourceGroup := t.sourceGroup);
    Then(VisitTransfer, got, Text(6, t.sourceQueue), t1, Text(7, t.sourceGroup), t2);
    var t3 := t2.(sourceOffset := t.sourceOffset);
    Then(VisitTransfer, got, Text(6, t.sourceQueue) + Text(7, t.sourceGroup), t2, Number(8, t.sourceOffset), t3);
    var t4 := t3.(deliveryCount := t.deliveryCount);
    Then(VisitTransfer, got, Text(6, t.sourceQueue) + Text(7, t.sourceGroup) + Number(8, t.sourceOffset), t3,
         Number(9, ToUint64(t.deliveryCount)), t4);
  }

  lemma TransferReads(t: Transfer)
    ensures Fold(VisitTransfer, TRANSFER, TransferFields(t)) == Ok(t)
    ensures Typed(TransferFields(t))
  {
    hide Fold, VisitTransfer, TransferNames, TransferTimes, TransferSource;
    var t1 := TRANSFER.(id := t.id, failureReason := t.failureReason);
    TransferNamesRead(t, TRANSFER);
    var t2 := t1.(firstAttempt := t.firstAttempt, lastAttempt := t.lastAttempt, completedAt := t.completedAt);
    TransferTimesRead(t, t1);
    FoldCat(VisitTransfer, TRANSFER, TransferNames(t), TransferTimes(t));
    var t3 := t2.(sourceQueue := t.sourceQueue, sourceGroup := t.sourceGroup, sourceOffset := t.sourceOffset,
      deliveryCount := t.deliveryCount);
    TransferSourceRead(t, t2);
    FoldCat(VisitTransfer, TRANSFER, TransferNames(t) + TransferTimes(t), TransferSource(t));
  }

  // ---------------------------------------------------------------------------
  // Broker

  function BrokerFields(b: Broker): seq<Field> {
    Nested(1, PutFields(SourceFields(b.source))) + Nested(2, PutFields(DeliveryFields(b.delivery)))
    + Nested(3, PutFields(QueueFields(b.queue))) + Nested(4, PutFields(TransferFields(b.transfer)))
    + Nested(5, PutFields(TraceFields(b.trace)))
  }

  function VisitBroker(b: Broker, f: Field): Result<Broker, Error> {
    if f.number < 1 || f.number > 5 then Ok(b)
    else if f.Varint? then Err(WrongWireType(f.number))
    else
      match f.number
      case 1 => (match WalkFrom(f.raw, 0, VisitSource, b.source) case Err(e) => Err(e)
                  case Ok(s) => Ok(b.(source := s)))
      case 2 => (match WalkFrom(f.raw, 0, VisitDelivery, b.delivery) case Err(e) => Err(e)
                  case Ok(d) => Ok(b.(delivery := d)))
      case 3 => (match WalkFrom(f.raw, 0, VisitQueue, b.queue) case Err(e) => Err(e)
                  case Ok(q) => Ok(b.(queue := q)))
      case 4 => (match WalkFrom(f.raw, 0, VisitTransfer, b.transfer) case Err(e) => Err(e)
                  case Ok(t) => Ok(b.(transfer := t)))
      case _ => (match WalkFrom(f.raw, 0, VisitTrace, b.trace) case Err(e) => Err(e) case Ok(t) => Ok(b.(trace := t)))
  }

  function BrokerKept(b: Broker): Broker {
    b.(queue := QueueKept(b.queue))
  }

  /** A nested message reads back as the message, and is left out only if there is nothing in it. */
  lemma NestedReads<S>(visit: (S, Field) -> Result<S, Error>, empty: S, fs: seq<Field>, end: S)
    requires Fold(visit, empty, fs) == Ok(end) && Typed(fs) && |PutFields(fs)| < TWO63
    ensures WalkFrom(PutFields(fs), 0, visit, empty) == Ok(end)
    ensures PutFields(fs) == [] ==> end == empty
  {
    hide WalkFrom, Typed;
    FitBySize(fs);
    WalkWritten(visit, empty, fs);
  }

  /** A body that is nested in a message is shorter than the message. */
  lemma NestedShorter(fs: seq<Field>, number: nat, body: Bytes)
    requires (forall f <- Nested(number, body) :: f in fs) && |PutFields(fs)| < TWO63
    ensures |body| < TWO63
  {
    if body != [] {
      assert Nested(number, body)[0] == Blob(number, body);
      RawShorter(fs, Blob(number, body));
    }
  }

  lemma StreamShorter(q: Queue)
    requires |PutFields(QueueFields(q))| < TWO63 && q.stream.Some?
    ensures |PutFields(StreamFields(q.stream.value))| < TWO63
  {
    hide PutFields, StreamFields, QueueNames, QueuePlace, QueueTimes, QueueRetries;
    NestedShorter(QueueFields(q), 11, PutFields(StreamFields(q.stream.value)));
  }

  lemma BrokerParts(b: Broker)
    requires |PutFields(BrokerFields(b))| < TWO63
    ensures |PutFields(SourceFields(b.source))| < TWO63 && |PutFields(DeliveryFields(b.delivery))| < TWO63
    ensures |PutFields(QueueFields(b.queue))| < TWO63 && |PutFields(TransferFields(b.transfer))| < TWO63
    ensures |PutFields(TraceFields(b.trace))| < TWO63
  {
    hide PutFields, SourceFields, DeliveryFields, QueueFields, TransferFields, TraceFields, Nested;
    var fs := BrokerFields(b);
    NestedShorter(fs, 1, PutFields(SourceFields(b.source)));
    NestedShorter(fs, 2, PutFields(DeliveryFields(b.delivery)));
    NestedShorter(fs, 3, PutFields(QueueFields(b.queue)));
    NestedShorter(fs, 4, PutFields(TransferFields(b.transfer)));
    NestedShorter(fs, 5, PutFields(TraceFields(b.trace)));
  }

  lemma SourceSlot(b: Broker, got: Broker)
    requires !b.source.protocol.OtherProtocol? && |PutFields(SourceFields(b.source))| < TWO63 && got.source == SOURCE
    ensures Slot(VisitBroker, got, Nested(1, PutFields(SourceFields(b.source))), got.(source := b.source))
  {
    hide WalkFrom, PutFields, Fold, Typed;
    SourceReads(b.source);
    NestedReads(VisitSource, SOURCE, SourceFields(b.source), b.source);
  }

  lemma DeliverySlot(b: Broker, got: Broker)
    requires |PutFields(DeliveryFields(b.delivery))| < TWO63 && got.delivery == DELIVERY
    ensures Slot(VisitBroker, got, Nested(2, PutFields(DeliveryFields(b.delivery))), got.(delivery := b.delivery))
  {
    hide WalkFrom, PutFields, Fold, Typed;
    DeliveryReads(b.delivery);
    NestedReads(VisitDelivery, DELIVERY, DeliveryFields(b.delivery), b.delivery);
  }

  lemma QueueSlot(b: Broker, got: Broker)
    requires !b.queue.state.OtherState? && |PutFields(QueueFields(b.queue))| < TWO63 && got.queue == QUEUE
    ensures Slot(VisitBroker, got, Nested(3, PutFields(QueueFields(b.queue))), got.(queue := QueueKept(b.queue)))
  {
    hide WalkFrom, PutFields, Fold, Typed;
    if b.queue.stream.Some? {
      StreamShorter(b.queue);
    }
    QueueReads(b.queue);
    NestedReads(VisitQueue, QUEUE, QueueFields(b.queue), QueueKept(b.queue));
  }

  lemma TransferSlot(b: Broker, got: Broker)
    requires |PutFields(TransferFields(b.transfer))| < TWO63 && got.transfer == TRANSFER
    ensures Slot(VisitBroker, got, Nested(4, PutFields(TransferFields(b.transfer))), got.(transfer := b.transfer))
  {
    hide WalkFrom, PutFields, Fold, Typed;
    TransferReads(b.transfer);
    NestedReads(VisitTransfer, TRANSFER, TransferFields(b.transfer), b.transfer);
  }

  lemma TraceSlot(b: Broker, got: Broker)
    requires |PutFields(TraceFields(b.trace))| < TWO63 && got.trace == TRACE
    ensures Slot(VisitBroker, got, Nested(5, PutFields(TraceFields(b.trace))), got.(trace := b.trace))
  {
    hide WalkFrom, PutFields, Fold, Typed;
    TraceReads(b.trace);
    NestedReads(VisitTrace, TRACE, TraceFields(b.trace), b.trace);
  }

  lemma BrokerReads(b: Broker)
    requires !b.source.protocol.OtherProtocol? && !b.queue.state.OtherState? && |PutFields(BrokerFields(b))| < TWO63
    ensures Fold(VisitBroker, BROKER, BrokerFields(b)) == Ok(BrokerKept(b))
    ensures Typed(BrokerFields(b))
  {
    hide Fold, VisitBroker, PutFields, SourceFields, DeliveryFields, QueueFields, TransferFields, TraceFields;
    BrokerParts(b);
    var n1, n2 := Nested(1, PutFields(SourceFields(b.source))), Nested(2, PutFields(DeliveryFields(b.delivery)));
    var n3, n4 := Nested(3, PutFields(QueueFields(b.queue))), Nested(4, PutFields(TransferFields(b.transfer)));
    var b1 := BROKER.(source := b.source);
    var b2 := b1.(delivery := b.delivery);
    var b3 := b2.(queue := QueueKept(b.queue));
    var b4 := b3.(transfer := b.transfer);
    SourceSlot(b, BROKER);
    DeliverySlot(b, b1);
    QueueSlot(b, b2);
    TransferSlot(b, b3);
    TraceSlot(b, b4);
    Start(VisitBroker, BROKER, n1, b1);
    Then(VisitBroker, BROKER, n1, b1, n2, b2);
    Then(VisitBroker, BROKER, n1 + n2, b2, n3, b3);
    Then(VisitBroker, BROKER, n1 + n2 + n3, b3, n4, b4);
    Then(VisitBroker, BROKER, n1 + n2 + n3 + n4, b4, Nested(5, PutFields(TraceFields(b.trace))), BrokerKept(b));
  }

  // ---------------------------------------------------------------------------
  // Publisher

  function EntryFields(k: Bytes, v: Bytes): seq<Field> {
    Text(1, k) + Text(2, v)
  }

  datatype MapEntry = MapEntry(key: Bytes, value: Bytes)

  function VisitEntry(e: MapEntry, f: Field): Result<MapEntry, Error> {
    if f.number < 1 || f.number > 2 then Ok(e)
    else if f.Varint? then Err(WrongWireType(f.number))
    else if f.number == 1 then Ok(e.(key := f.raw))
    else Ok(e.(value := f.raw))
  }

  lemma EntryReads(k: Bytes, v: Bytes)
    ensures Fold(VisitEntry, MapEntry([], []), EntryFields(k, v)) == Ok(MapEntry(k, v))
    ensures Typed(EntryFields(k, v))
    ensures EntryFields(k, v) == [] <==> k == [] && v == []
  {
    hide Fold;
    Start(VisitEntry, MapEntry([], []), Text(1, k), MapEntry(k, []));
    Then(VisitEntry, MapEntry([], []), Text(1, k), MapEntry(k, []), Text(2, v), MapEntry(k, v));
  }

  /** Headers are field 2, properties field 3. */
  function MapOf(p: Publisher, number: nat): map<Bytes, Bytes> {
    if number == 2 then p.headers else p.properties
  }

  function WithMap(p: Publisher, number: nat, m: map<Bytes, Bytes>): Publisher {
    if number == 2 then p.(headers := m) else p.(properties := m)
  }

  function MapFields(number: nat, w: Walk): seq<Field> {
    if w == [] then [] else Nested(number, PutFields(EntryFields(w[0].0, w[0].1))) + MapFields(number, w[1..])
  }

  function ByteField(number: nat, v: Option<byte>): seq<Field> {
    if v.None? then [] else [Varint(number, v.value)]
  }

  function Uint32Field(number: nat, v: Option<uint32>): seq<Field> {
    if v.None? then [] else [Varint(number, v.value)]
  }

  function PublisherContent(p: Publisher): seq<Field> {
    Text(4, p.contentType) + Text(5, p.contentEncoding) + Text(6, p.responseTopic) + Text(7, p.correlationData)
  }

  function PublisherOptions(p: Publisher): seq<Field> {
    ByteField(8, p.payloadFormat) + Uint32Field(9, p.messageExpiry) + Text(10, p.messageId)
  }

  /** The key goes along only if the encoding is to stand on its own. */
  function PublisherFields(p: Publisher, full: bool, hw: Walk, pw: Walk): seq<Field> {
    Text(1, if full then p.key else []) + MapFields(2, hw) + MapFields(3, pw) + PublisherContent(p)
    + PublisherOptions(p)
  }

  function VisitPublisher(p: Publisher, f: Field): Result<Publisher, Error> {
    if f.number < 1 || f.number > 10 then Ok(p)
    else if f.Varint? != (f.number in {8, 9}) then Err(WrongWireType(f.number))
    else if f.number == 8 then (if f.value > 255 then Err(TooLarge(8)) else Ok(p.(payloadFormat := Some(f.value))))
    else if f.number == 9 then (if f.value >= TWO32 then Err(TooLarge(9)) else Ok(p.(messageExpiry := Some(f.value))))
    else VisitPublisherBytes(p, f.number, f.raw)
  }

  function VisitPublisherBytes(p: Publisher, number: nat, raw: Bytes): Result<Publisher, Error> {
    match number
    case 1 => Ok(p.(key := raw))
    case 4 => Ok(p.(contentType := raw))
    case 5 => Ok(p.(contentEncoding := raw))
    case 6 => Ok(p.(responseTopic := raw))
    case 7 => Ok(p.(correlationData := raw))
    case 10 => Ok(p.(messageId := raw))
    case _ =>
      match WalkFrom(raw, 0, VisitEntry, MapEntry([], []))
      case Err(e) => Err(e)
      case Ok(e) => Ok(WithMap(p, number, MapOf(p, number)[e.key := e.value]))
  }

  /** An entry whose key and value are both empty encodes to nothing. */
  function Kept(m: map<Bytes, Bytes>): map<Bytes, Bytes> {
    if [] in m && m[[]] == [] then m - {[]} else m
  }

  function KeptWalk(w: Walk): Walk {
    if w == [] then [] else (if w[0] == ([], []) then [] else [w[0]]) + KeptWalk(w[1..])
  }

  lemma {:induction false} KeptWalkAll(w: Walk)
    requires ([], []) !in w
    ensures KeptWalk(w) == w
  {
    if w != [] {
      KeptWalkAll(w[1..]);
    }
  }

  lemma {:induction false} KeptWalkWithout(w: Walk, j: nat)
    requires j < |w| && w[j] == ([], []) && forall i | 0 <= i < |w| && i != j :: w[i] != ([], [])
    ensures KeptWalk(w) == Without(w, j)
  {
    if j == 0 {
      KeptWalkAll(w[1..]);
    } else {
      KeptWalkWithout(w[1..], j - 1);
      assert Without(w, j) == [w[0]] + Without(w[1..], j - 1);
    }
  }

  /** A walk meets such an entry exactly if the map has it, and then once. */
  lemma MeetsEmpty(w: Walk, m: map<Bytes, Bytes>)
    requires Walks(w, m)
    ensures ([], []) in w <==> [] in m && m[[]] == []
    ensures forall i, j | 0 <= i < |w| && 0 <= j < |w| && w[i] == w[j] == ([], []) :: i == j
  {
  }

  /** What decoding collects from the entries that were written is the map, but for such an entry. */
  lemma CollectKept(w: Walk, m: map<Bytes, Bytes>)
    requires Walks(w, m)
    ensures Collect(KeptWalk(w), map[]) == Kept(m)
  {
    hide Walks, KeptWalk, Collect, Without;
    MeetsEmpty(w, m);
    if ([], []) in w {
      var j :| 0 <= j < |w| && w[j] == ([], []);
      KeptWalkWithout(w, j);
      WalksWithout(w, m, j);
      CollectWalk(Without(w, j), m - {[]}, map[]);
      NothingBefore(m - {[]});
    } else {
      KeptWalkAll(w);
      CollectWalk(w, m, map[]);
      NothingBefore(m);
    }
  }

  lemma NothingBefore(m: map<Bytes, Bytes>)
    ensures map[] + m == m
  {
  }

  lemma EntrySlot(number: nat, k: Bytes, v: Bytes, got: Publisher)
    requires (number == 2 || number == 3) && |PutFields(EntryFields(k, v))| < TWO63
    ensures Slot(VisitPublisher, got, Nested(number, PutFields(EntryFields(k, v))),
                 if k == [] && v == [] then got else WithMap(got, number, MapOf(got, number)[k := v]))
  {
    hide WalkFrom, PutFields, Fold, EntryFields, Typed;
    EntryReads(k, v);
    NestedReads(VisitEntry, MapEntry([], []), EntryFields(k, v), MapEntry(k, v));
  }

  lemma {:induction false} MapTyped(number: nat, w: Walk)
    requires number == 2 || number == 3
    ensures Typed(MapFields(number, w)) && forall f <- MapFields(number, w) :: f.number == number
  {
    if w != [] {
      MapTyped(number, w[1..]);
    }
  }

  lemma CollectStep(e: (Bytes, Bytes), w: Walk, m: map<Bytes, Bytes>)
    ensures Collect([e] + w, m) == Collect(w, m[e.0 := e.1])
  {
    assert ([e] + w)[1..] == w;
  }

  function EntryKept(e: (Bytes, Bytes)): Walk {
    if e == ([], []) then [] else [e]
  }

  lemma KeptWalkStep(w: Walk)
    requires w != []
    ensures KeptWalk(w) == EntryKept(w[0]) + KeptWalk(w[1..])
  {
  }

  lemma {:induction false} MapReads(number: nat, w: Walk, got: Publisher)
    requires (number == 2 || number == 3) && |PutFields(MapFields(number, w))| < TWO63
    ensures Fold(VisitPublisher, got, MapFields(number, w)) ==
      Ok(WithMap(got, number, Collect(KeptWalk(w), MapOf(got, number))))
    decreases |w|
  {
    hide VisitPublisher, EntryFields, PutFields, Fold, KeptWalk;
    if w == [] {
      NoEntries(number, got);
    } else {
      var k, v, rest := w[0].0, w[0].1, MapFields(number, w[1..]);
      var slot := Nested(number, PutFields(EntryFields(k, v)));
      PutFieldsCat(slot, rest);
      NestedShorter(MapFields(number, w), number, PutFields(EntryFields(k, v)));
      EntrySlot(number, k, v, got);
      var next := if k == [] && v == [] then got else WithMap(got, number, MapOf(got, number)[k := v]);
      Start(VisitPublisher, got, slot, next);
      MapReads(number, w[1..], next);
      FoldCat(VisitPublisher, got, slot, rest);
      KeptWalkStep(w);
      CollectStep(w[0], KeptWalk(w[1..]), MapOf(got, number));
      assert [] + KeptWalk(w[1..]) == KeptWalk(w[1..]);
    }
  }

  lemma NoEntries(number: nat, got: Publisher)
    ensures Fold(VisitPublisher, got, []) == Ok(got) && KeptWalk([]) == []
    ensures WithMap(got, number, MapOf(got, number)) == got
  {
  }

  lemma PublisherContentRead(p: Publisher, got: Publisher)
    requires got.contentType == [] && got.contentEncoding == [] && got.responseTopic == [] && got.correlationData == []
    ensures Fold(VisitPublisher, got, PublisherContent(p)) ==
      Ok(got.(contentType := p.contentType, contentEncoding := p.contentEncoding, responseTopic := p.responseTopic,
              correlationData := p.correlationData))
    ensures Typed(PublisherContent(p))
  {
    hide Fold;
    var p1 := got.(contentType := p.contentType);
    Start(VisitPublisher, got, Text(4, p.contentType), p1);
    var p2 := p1.(contentEncoding := p.contentEncoding);
    Then(VisitPublisher, got, Text(4, p.contentType), p1, Text(5, p.contentEncoding), p2);
    var p3 := p2.(responseTopic := p.responseTopic);
    Then(VisitPublisher, got, Text(4, p.contentType) + Text(5, p.contentEncoding), p2, Text(6, p.responseTopic), p3);
    var p4 := p3.(correlationData := p.correlationData);
    Then(VisitPublisher, got, Text(4, p.contentType) + Text(5, p.contentEncoding) + Text(6, p.responseTopic), p3,
         Text(7, p.correlationData), p4);
  }

  lemma PublisherOptionsRead(p: Publisher, got: Publisher)
    requires got.payloadFormat == None && got.messageExpiry == None && got.messageId == []
    ensures Fold(VisitPublisher, got, PublisherOptions(p)) ==
      Ok(got.(payloadFormat := p.payloadFormat, messageExpiry := p.messageExpiry, messageId := p.messageId))
    ensures Typed(PublisherOptions(p))
  {
    hide Fold;
    var p1 := got.(payloadFormat := p.payloadFormat);
    Start(VisitPublisher, got, ByteField(8, p.payloadFormat), p1);
    var p2 := p1.(messageExpiry := p.messageExpiry);
    Then(VisitPublisher, got, ByteField(8, p.payloadFormat), p1, Uint32Field(9, p.messageExpiry), p2);
    var p3 := p2.(messageId := p.messageId);
    Then(VisitPublisher, got, ByteField(8, p.payloadFormat) + Uint32Field(9, p.messageExpiry), p2,
         Text(10, p.messageId), p3);
  }

  function PublisherKept(p: Publisher, full: bool): Publisher {
    p.(key := if full then p.key else [], headers := Kept(p.headers), properties := Kept(p.properties))
  }

  lemma PublisherReads(p: Publisher, full: bool, hw: Walk, pw: Walk)
    requires Walks(hw, p.headers) && Walks(pw, p.properties) && |PutFields(PublisherFields(p, full, hw, pw))| < TWO63
    ensures Fold(VisitPublisher, PUBLISHER, PublisherFields(p, full, hw, pw)) == Ok(PublisherKept(p, full))
    ensures Typed(PublisherFields(p, full, hw, pw))
  {
    hide Fold, VisitPublisher, PutFields, MapFields, PublisherContent, PublisherOptions, Collect, KeptWalk, Walks, Kept;
    var key := if full then p.key else [];
    var fs, k, h, r := PublisherFields(p, full, hw, pw), Text(1, key), MapFields(2, hw), MapFields(3, pw);
    MapSizes(k, h, r, PublisherContent(p), PublisherOptions(p));
    MapTyped(2, hw);
    MapTyped(3, pw);
    var p1 := PUBLISHER.(key := key);
    KeySlot(key);
    Start(VisitPublisher, PUBLISHER, k, p1);
    MapReads(2, hw, p1);
    CollectKept(hw, p.headers);
    FoldCat(VisitPublisher, PUBLISHER, k, h);
    var p2 := p1.(headers := Kept(p.headers));
    MapReads(3, pw, p2);
    CollectKept(pw, p.properties);
    FoldCat(VisitPublisher, PUBLISHER, k + h, r);
    var p3 := p2.(properties := Kept(p.properties));
    PublisherContentRead(p, p3);
    FoldCat(VisitPublisher, PUBLISHER, k + h + r, PublisherContent(p));
    var p4 := p3.(contentType := p.contentType, contentEncoding := p.contentEncoding, responseTopic := p.responseTopic,
                  correlationData := p.correlationData);
    PublisherOptionsRead(p, p4);
    FoldCat(VisitPublisher, PUBLISHER, k + h + r + PublisherContent(p), PublisherOptions(p));
  }

  lemma KeySlot(key: Bytes)
    ensures Slot(VisitPublisher, PUBLISHER, Text(1, key), PUBLISHER.(key := key))
  {
  }

  lemma MapSizes(k: seq<Field>, h: seq<Field>, r: seq<Field>, c: seq<Field>, o: seq<Field>)
    requires |PutFields(k + h + r + c + o)| < TWO63
    ensures |PutFields(h)| < TWO63 && |PutFields(r)| < TWO63
  {
    PutFieldsCat(k + h + r + c, o);
    PutFieldsCat(k + h + r, c);
    PutFieldsCat(k + h, r);
    PutFieldsCat(k, h);
  }

  // ---------------------------------------------------------------------------
  // Envelope

  /** A full encoding stands on its own; metadata describes a log record that holds the payload and the key. */
  datatype Mode = Full | Metadata

  const VERSION1: uint16 := 1

  /** Validate. */
  function Validate(e: Envelope): Option<Error> {
    if e.version != VERSION1 then Some(UnsupportedVersion(e.version))
    else if e.broker.source.protocol.OtherProtocol? then Some(UnsupportedProtocol)
    else if e.broker.queue.state.OtherState? then Some(UnsupportedQueueState)
    else None
  }

  function EnvelopeFields(e: Envelope, mode: Mode, hw: Walk, pw: Walk): seq<Field> {
    [Varint(1, e.version)] + Text(2, e.topic) + Text(3, if mode.Full? then e.payload else [])
    + Nested(4, PutFields(PublisherFields(e.publisher, mode.Full?, hw, pw)))
    + Nested(5, PutFields(BrokerFields(e.broker)))
  }

  /** marshalBinary; hw and pw are the orders in which the header and property maps are visited. */
  function Marshal(e: Envelope, mode: Mode, hw: Walk, pw: Walk): Result<Bytes, Error> {
    match Validate(e)
    case Some(error) => Err(error)
    case None => Ok(PutFields(EnvelopeFields(e, mode, hw, pw)))
  }

  /** What has been decoded of an envelope. */
  datatype Draft = Draft(mode: Mode, version: uint16, topic: Bytes, payload: Bytes, publisher: Publisher,
    broker: Broker)

  function NewDraft(mode: Mode): Draft {
    Draft(mode, 0, [], [], PUBLISHER, BROKER)
  }

  /** rejectEmbeddedKey, field by field. */
  function VisitKeyless(u: (), f: Field): Result<(), Error> {
    if f.number == 1 then Err(CarriesKey) else Ok(u)
  }

  function VisitEnvelope(d: Draft, f: Field): Result<Draft, Error> {
    if f.number < 1 || f.number > 5 then Ok(d)
    else if f.Varint? != (f.number == 1) then Err(WrongWireType(f.number))
    else if f.number == 1 then Ok(d.(version := f.value % TWO16))
    else if f.number == 2 then Ok(d.(topic := f.raw))
    else if f.number == 3 then (if d.mode.Metadata? then Err(CarriesPayload) else Ok(d.(payload := f.raw)))
    else if f.number == 4 then
      match (if d.mode.Metadata? then WalkFrom(f.raw, 0, VisitKeyless, ()) else Ok(()))
      case Err(e) => Err(e)
      case Ok(_) =>
        match WalkFrom(f.raw, 0, VisitPublisher, d.publisher)
        case Err(e) => Err(e)
        case Ok(p) => Ok(d.(publisher := p))
    else
      match WalkFrom(f.raw, 0, VisitBroker, d.broker)
      case Err(e) => Err(e)
      case Ok(b) => Ok(d.(broker := b))
  }

  /** unmarshalBinary; value and key are the log record's, used in metadata mode. */
  function Unmarshal(s: Bytes, mode: Mode, value: Bytes, key: Bytes): Result<Envelope, Error> {
    match WalkFrom(s, 0, VisitEnvelope, NewDraft(mode))
    case Err(e) => Err(e)
    case Ok(d) =>
      if d.version != VERSION1 then Err(UnsupportedVersion(d.version))
      else if mode.Full? then Ok(Envelope(d.version, d.topic, d.publisher, d.broker, d.payload))
      else Ok(Envelope(d.version, d.topic, d.publisher.(key := key), d.broker, value))
  }

  /** What an encoding can carry of an envelope. */
  function EnvelopeKept(e: Envelope): Envelope {
    e.(publisher := PublisherKept(e.publisher, true), broker := BrokerKept(e.broker))
  }

  lemma {:induction false} KeylessReads(fs: seq<Field>)
    requires forall f <- fs :: f.number != 1
    ensures Fold(VisitKeyless, (), fs) == Ok(())
  {
    if fs != [] {
      KeylessReads(fs[1..]);
    }
  }

  lemma ContentKeyless(p: Publisher)
    ensures (forall f <- PublisherContent(p) :: f.number != 1) && forall f <- PublisherOptions(p) :: f.number != 1
  {
  }

  lemma MetadataKeyless(p: Publisher, hw: Walk, pw: Walk)
    ensures forall f <- PublisherFields(p, false, hw, pw) :: f.number != 1
  {
    hide MapFields, PublisherContent, PublisherOptions;
    MapTyped(2, hw);
    MapTyped(3, pw);
    ContentKeyless(p);
  }

  lemma PublisherSlot(e: Envelope, mode: Mode, hw: Walk, pw: Walk, got: Draft)
    requires Walks(hw, e.publisher.headers) && Walks(pw, e.publisher.properties)
    requires |PutFields(PublisherFields(e.publisher, mode.Full?, hw, pw))| < TWO63
    requires got.publisher == PUBLISHER && got.mode == mode
    ensures Slot(VisitEnvelope, got, Nested(4, PutFields(PublisherFields(e.publisher, mode.Full?, hw, pw))),
                 got.(publisher := PublisherKept(e.publisher, mode.Full?)))
  {
    hide WalkFrom, PutFields, Fold, Typed, PublisherFields, VisitPublisher, Walks, VisitBroker, PublisherKept;
    var fs := PublisherFields(e.publisher, mode.Full?, hw, pw);
    PublisherReads(e.publisher, mode.Full?, hw, pw);
    NestedReads(VisitPublisher, PUBLISHER, fs, PublisherKept(e.publisher, mode.Full?));
    if mode.Metadata? {
      MetadataKeyless(e.publisher, hw, pw);
      KeylessReads(fs);
      NestedReads(VisitKeyless, (), fs, ());
    }
  }

  lemma BrokerSlot(e: Envelope, got: Draft)
    requires Validate(e).None? && |PutFields(BrokerFields(e.broker))| < TWO63 && got.broker == BROKER
    ensures Slot(VisitEnvelope, got, Nested(5, PutFields(BrokerFields(e.broker))), got.(broker := BrokerKept(e.broker)))
  {
    hide WalkFrom, PutFields, Fold, Typed, BrokerFields, VisitPublisher, VisitBroker, BrokerKept;
    BrokerReads(e.broker);
    NestedReads(VisitBroker, BROKER, BrokerFields(e.broker), BrokerKept(e.broker));
  }

  /** The plain fields in front. */
  function EnvelopeHead(e: Envelope, mode: Mode): seq<Field> {
    [Varint(1, e.version)] + Text(2, e.topic) + Text(3, if mode.Full? then e.payload else [])
  }

  function HeadDraft(e: Envelope, mode: Mode): Draft {
    Draft(mode, e.version, e.topic, if mode.Full? then e.payload else [], PUBLISHER, BROKER)
  }

  lemma HeadReads(e: Envelope, mode: Mode)
    ensures Fold(VisitEnvelope, NewDraft(mode), EnvelopeHead(e, mode)) == Ok(HeadDraft(e, mode))
    ensures Typed(EnvelopeHead(e, mode))
  {
    hide Fold, WalkFrom, VisitPublisher, VisitBroker;
    var d0 := NewDraft(mode);
    var d1 := d0.(version := e.version);
    var d2 := d1.(topic := e.topic);
    Start(VisitEnvelope, d0, [Varint(1, e.version)], d1);
    Then(VisitEnvelope, d0, [Varint(1, e.version)], d1, Text(2, e.topic), d2);
    Then(VisitEnvelope, d0, [Varint(1, e.version)] + Text(2, e.topic), d2,
         Text(3, if mode.Full? then e.payload else []), HeadDraft(e, mode));
  }

  lemma EnvelopeReads(e: Envelope, mode: Mode, hw: Walk, pw: Walk)
    requires Validate(e).None? && Walks(hw, e.publisher.headers) && Walks(pw, e.publisher.properties)
    requires |PutFields(EnvelopeFields(e, mode, hw, pw))| < TWO63
    ensures Fold(VisitEnvelope, NewDraft(mode), EnvelopeFields(e, mode, hw, pw)) ==
            Ok(HeadDraft(e, mode).(publisher := PublisherKept(e.publisher, mode.Full?), broker := BrokerKept(e.broker)))
    ensures Typed(EnvelopeFields(e, mode, hw, pw))
  {
    hide Fold, VisitEnvelope, PutFields, PublisherFields, BrokerFields, Walks, PublisherKept, BrokerKept;
    var fs, head := EnvelopeFields(e, mode, hw, pw), EnvelopeHead(e, mode);
    var np := Nested(4, PutFields(PublisherFields(e.publisher, mode.Full?, hw, pw)));
    var nb := Nested(5, PutFields(BrokerFields(e.broker)));
    NestedShorter(fs, 4, PutFields(PublisherFields(e.publisher, mode.Full?, hw, pw)));
    NestedShorter(fs, 5, PutFields(BrokerFields(e.broker)));
    var d1 := HeadDraft(e, mode);
    var d2 := d1.(publisher := PublisherKept(e.publisher, mode.Full?));
    HeadReads(e, mode);
    PublisherSlot(e, mode, hw, pw, d1);
    BrokerSlot(e, d2);
    Then(VisitEnvelope, NewDraft(mode), head, d1, np, d2);
    Then(VisitEnvelope, NewDraft(mode), head + np, d2, nb, d2.(broker := BrokerKept(e.broker)));
  }

  /**
   Decoding what was encoded gives the envelope, in either mode and whatever order
   the maps were visited in, but for what an encoding cannot carry.
   */
  lemma UnmarshalMarshal(e: Envelope, mode: Mode, hw: Walk, pw: Walk)
    requires Walks(hw, e.publisher.headers) && Walks(pw, e.publisher.properties)
    requires Marshal(e, mode, hw, pw).Ok? && |Marshal(e, mode, hw, pw).value| < TWO63
    ensures Unmarshal(Marshal(e, mode, hw, pw).value, mode, e.payload, e.publisher.key) == Ok(EnvelopeKept(e))
  {
    hide WalkFrom, Fold, PutFields, EnvelopeFields, Walks, VisitEnvelope, FieldsFit, Typed, BrokerKept;
    var fs := EnvelopeFields(e, mode, hw, pw);
    EnvelopeReads(e, mode, hw, pw);
    FitBySize(fs);
    WalkWritten(VisitEnvelope, NewDraft(mode), fs);
  }

  /** No map entry with key and value both empty, no stream that is present but all zero. */
  predicate Carriable(e: Envelope) {
    && !([] in e.publisher.headers && e.publisher.headers[[]] == [])
    && !([] in e.publisher.properties && e.publisher.properties[[]] == [])
    && e.broker.queue.stream != Some(STREAM)
  }

  /** So the round trip is exact for the carriable envelopes and for no others. */
  lemma RoundTripExact(e: Envelope, mode: Mode, hw: Walk, pw: Walk)
    requires Walks(hw, e.publisher.headers) && Walks(pw, e.publisher.properties)
    requires Marshal(e, mode, hw, pw).Ok? && |Marshal(e, mode, hw, pw).value| < TWO63
    ensures Unmarshal(Marshal(e, mode, hw, pw).value, mode, e.payload, e.publisher.key) == Ok(e) <==> Carriable(e)
  {
    hide Unmarshal, Marshal, Walks;
    UnmarshalMarshal(e, mode, hw, pw);
    if !Carriable(e) {
      assert [] in e.publisher.headers && e.publisher.headers[[]] == [] ==> [] !in Kept(e.publisher.headers);
      assert [] in e.publisher.properties && e.publisher.properties[[]] == [] ==> [] !in Kept(e.publisher.properties);
    }
  }

  function VersionIn(f: Option<Field>, before: nat): nat {
    if f.Some? && f.value.number == 1 && f.value.Varint? then f.value.value else before
  }

  /** The number the last version field of these bytes holds, as far as they can be read. */
  function LastVersion(s: Bytes, p: nat, before: nat): nat
    requires p <= |s|
    decreases |s| - p
  {
    if p == |s| then before
    else
      match Take(s, p)
      case Err(_) => before
      case Ok(t) =>
        LastVersion(s, t.next, VersionIn(t.field, before))
  }

  lemma {:induction false} VersionRead(s: Bytes, p: nat, d: Draft, before: nat)
    requires p <= |s| && d.version == before % TWO16
    ensures var r := WalkFrom(s, p, VisitEnvelope, d); r.Ok? ==> r.value.version == LastVersion(s, p, before) % TWO16
    decreases |s| - p
  {
    hide Take, VisitPublisher, VisitBroker, VisitKeyless;
    if p < |s| && Take(s, p).Ok? {
      var t := Take(s, p).value;
      var next := if t.field.None? then Ok(d) else VisitEnvelope(d, t.field.value);
      if next.Ok? {
        VersionRead(s, t.next, next.value, VersionIn(t.field, before));
      }
    }
  }

  /**
   On every byte string: a record that can be walked is accepted exactly if its
   version is 1 modulo 2^16, because it is narrowed before it is checked.
   */
  lemma VersionChecked(s: Bytes, mode: Mode, value: Bytes, key: Bytes)
    ensures var w, v := WalkFrom(s, 0, VisitEnvelope, NewDraft(mode)), LastVersion(s, 0, 0);
      var r := Unmarshal(s, mode, value, key);
      && (r.Ok? <==> w.Ok? && v % TWO16 == 1)
      && (w.Ok? && v % TWO16 != 1 ==> r == Err(UnsupportedVersion(v % TWO16)))
  {
    hide WalkFrom, LastVersion;
    VersionRead(s, 0, NewDraft(mode), 0);
  }

  /** Fields other than the first leave the version alone and do not look at it. */
  lemma {:induction false} VersionApart(d: Draft, v: uint16, fs: seq<Field>)
    requires forall f <- fs :: f.number != 1
    ensures Fold(VisitEnvelope, d.(version := v), fs) ==
      match Fold(VisitEnvelope, d, fs) case Err(e) => Err(e) case Ok(r) => Ok(r.(version := v))
    decreases |fs|
  {
    hide WalkFrom, VisitPublisher, VisitBroker, VisitKeyless;
    if fs != [] {
      var r := VisitEnvelope(d, fs[0]);
      if r.Ok? {
        VersionApart(r.value, v, fs[1..]);
      }
    }
  }

  /** An envelope's fields behind its version. */
  function Unversioned(e: Envelope, mode: Mode, hw: Walk, pw: Walk): seq<Field> {
    Text(2, e.topic) + Text(3, if mode.Full? then e.payload else [])
    + Nested(4, PutFields(PublisherFields(e.publisher, mode.Full?, hw, pw)))
    + Nested(5, PutFields(BrokerFields(e.broker)))
  }

  lemma UnversionedFields(e: Envelope, mode: Mode, hw: Walk, pw: Walk)
    ensures EnvelopeFields(e, mode, hw, pw) == [Varint(1, e.version)] + Unversioned(e, mode, hw, pw)
    ensures forall f <- Unversioned(e, mode, hw, pw) :: f.number != 1
  {
    hide PutFields, PublisherFields, BrokerFields;
  }

  lemma VersionFirst(d: Draft, v: nat, fs: seq<Field>)
    ensures Fold(VisitEnvelope, d, [Varint(1, v)] + fs) == Fold(VisitEnvelope, d.(version := v % TWO16), fs)
  {
    hide Fold, WalkFrom, VisitPublisher, VisitBroker, VisitKeyless;
    FoldCat(VisitEnvelope, d, [Varint(1, v)], fs);
    Start(VisitEnvelope, d, [Varint(1, v)], d.(version := v % TWO16));
  }

  lemma FirstIsShortest(v: nat, fs: seq<Field>)
    ensures |PutFields([Varint(1, 1)] + fs)| <= |PutFields([Varint(1, v)] + fs)|
  {
    hide PutFields;
    PutFieldsCat([Varint(1, 1)], fs);
    PutFieldsCat([Varint(1, v)], fs);
    PutFieldsOne(Varint(1, 1));
    PutFieldsOne(Varint(1, v));
    assert |PutUvarint(1)| == 1 <= |PutUvarint(v)|;
  }

  /**
   Whatever 64-bit version stands in front of an encoded envelope, it is taken for the
   first exactly if it is 1 modulo 2^16.
   */
  lemma VersionDecides(v: nat, e: Envelope, mode: Mode, hw: Walk, pw: Walk)
    requires v < TWO64 && Validate(e).None? && Walks(hw, e.publisher.headers) && Walks(pw, e.publisher.properties)
    requires |PutFields([Varint(1, v)] + Unversioned(e, mode, hw, pw))| < TWO63
    ensures Unmarshal(PutFields([Varint(1, v)] + Unversioned(e, mode, hw, pw)), mode, e.payload, e.publisher.key) ==
            if v % TWO16 == 1 then Ok(EnvelopeKept(e)) else Err(UnsupportedVersion(v % TWO16))
  {
    hide WalkFrom, Fold, PutFields, EnvelopeFields, Unversioned, Walks, VisitEnvelope, FieldsFit, BrokerKept;
    var rest := Unversioned(e, mode, hw, pw);
    var fs := [Varint(1, v)] + rest;
    UnversionedFields(e, mode, hw, pw);
    FirstIsShortest(v, rest);
    EnvelopeReads(e, mode, hw, pw);
    VersionFirst(NewDraft(mode), 1, rest);
    VersionFirst(NewDraft(mode), v, rest);
    VersionApart(NewDraft(mode).(version := 1), v % TWO16, rest);
    assert Typed(fs) by {
      assert forall f <- rest :: f in [Varint(1, e.version)] + rest;
    }
    FitBySize(fs);
    WalkWritten(VisitEnvelope, NewDraft(mode), fs);
  }

  /** So version 65537 passes for version 1. */
  lemma VersionWraps()
    ensures Unmarshal(PutFields([Varint(1, 65537)]), Full, [], []) == Ok(Envelope(1, [], PUBLISHER, BROKER, []))
  {
    hide WalkFrom, PutFields, VisitPublisher, VisitBroker;
    var fs := [Varint(1, 65537)];
    Start(VisitEnvelope, NewDraft(Full), fs, NewDraft(Full).(version := 1));
    WalkWritten(VisitEnvelope, NewDraft(Full), fs);
  }

  // ---------------------------------------------------------------------------
  // The encoder, as it runs

  lemma PutIdsNext(ids: seq<uint32>, i: nat)
    requires i < |ids|
    ensures PutIds(ids[..i + 1]) == PutIds(ids[..i]) + PutUvarint(ids[i])
  {
    assert ids[..i + 1][..i] == ids[..i];
  }

  /** appendPackedVarints: the numbers go straight behind the open tag. */
  method AppendIds(w: BufferWriter, ids: seq<uint32>)
    requires w.Valid()
    modifies w, w.buf
    ensures w.Valid() && (w.buf == old(w.buf) || fresh(w.buf))
    ensures w.Contents() == old(w.Contents()) + PutFields(Nested(3, PutIds(ids)))
  {
    hide PutFields, PutTag, PutUvarint, PutIds;
    PutIdsEmpty(ids);
    if ids == [] {
      PutFieldsNone();
      return;
    }
    ghost var before := w.Contents();
    var tagAt, bodyAt := BeginNested(w, 3);
    ghost var begun := w.Contents();
    PutIdsEmpty(ids[..0]);
    for i := 0 to |ids|
      invariant w.Valid() && (w.buf == old(w.buf) || fresh(w.buf))
      invariant w.Contents() == begun + PutIds(ids[..i])
    {
      w.WriteUvarint(ids[i]);
      PutIdsNext(ids, i);
    }
    assert ids[..|ids|] == ids;
    Opened(before, 3, begun, w.Contents(), PutIds(ids));
    EndNested(w, 3, tagAt, bodyAt);
  }

  lemma PutFieldsNone()
    ensures PutFields([]) == []
  {
  }

  lemma PutThree(a: seq<Field>, b: seq<Field>, c: seq<Field>)
    ensures PutFields(a + b + c) == PutFields(a) + PutFields(b) + PutFields(c)
  {
    PutFieldsCat(a + b, c);
    PutFieldsCat(a, b);
  }

  /** appendDelivery. */
  method AppendDelivery(w: BufferWriter, d: Delivery)
    requires w.Valid() && |PutFields(DeliveryFields(d))| < TWO63
    modifies w, w.buf
    ensures w.Valid() && (w.buf == old(w.buf) || fresh(w.buf))
    ensures w.Contents() == old(w.Contents()) + PutFields(DeliveryFields(d))
  {
    hide PutFields, Nested, DeliveryTimes, DeliveryMqtt, DeliveryFlags, Typed, Fold;
    DeliveryReads(d);
    FitBySize(DeliveryFields(d));
    var front, back := DeliveryTimes(d), Number(4, d.packetId) + DeliveryMqtt(d) + DeliveryFlags(d);
    DeliverySplit(d);
    PutThree(front, Nested(3, PutIds(d.subscriptionIds)), back);
    AppendFields(w, front);
    AppendIds(w, d.subscriptionIds);
    AppendFields(w, back);
  }

  lemma DeliverySplit(d: Delivery)
    ensures DeliveryFields(d) == DeliveryTimes(d) + Nested(3, PutIds(d.subscriptionIds))
                                 + (Number(4, d.packetId) + DeliveryMqtt(d) + DeliveryFlags(d))
  {
    hide DeliveryTimes, DeliveryMqtt, DeliveryFlags, Nested, Number;
  }

  /** appendQueue. */
  method AppendQueue(w: BufferWriter, q: Queue)
    requires w.Valid() && !q.state.OtherState? && |PutFields(QueueFields(q))| < TWO63
    modifies w, w.buf
    ensures w.Valid() && (w.buf == old(w.buf) || fresh(w.buf))
    ensures w.Contents() == old(w.Contents()) + PutFields(QueueFields(q))
  {
    hide PutFields, Nested, QueueNames, QueuePlace, QueueTimes, QueueRetries, Typed, Fold, StreamFields;
    if q.stream.Some? {
      StreamShorter(q);
    }
    QueueReads(q);
    FitBySize(QueueFields(q));
    var front := QueueNames(q) + QueuePlace(q) + QueueTimes(q) + QueueRetries(q);
    PutFieldsCat(front, QueueStream(q));
    PutFieldsNone();
    AppendFields(w, front);
    if q.stream.Some? {
      StreamReads(q.stream.value);
      FitBySize(StreamFields(q.stream.value));
      AppendNested(w, 11, StreamFields(q.stream.value));
    }
  }

  /** A nested message that itself has nested parts: the open tag, and what it will amount to. */
  ghost predicate Open(w: BufferWriter, before: Bytes, number: nat, tagAt: nat, bodyAt: nat)
    requires w.Valid()
    reads w, w.buf
  {
    && tagAt == |before| < bodyAt <= w.pos && w.Contents()[..bodyAt] == before + (PutTag(number, BYTES) + [0])
  }

  method CloseNested(w: BufferWriter, ghost before: Bytes, ghost number: nat, tagAt: nat, bodyAt: nat)
    requires w.Valid() && Open(w, before, number, tagAt, bodyAt)
    modifies w, w.buf
    ensures w.Valid() && (w.buf == old(w.buf) || fresh(w.buf))
    ensures w.Contents() == before + PutFields(Nested(number, old(w.Contents())[bodyAt..]))
  {
    hide PutFields, PutTag;
    ghost var now := w.Contents();
    assert now == now[..bodyAt] + now[bodyAt..];
    Opened(before, number, now[..bodyAt], now, now[bodyAt..]);
    EndNested(w, number, tagAt, bodyAt);
  }

  method AppendQueueNested(w: BufferWriter, q: Queue)
    requires w.Valid() && !q.state.OtherState? && |PutFields(QueueFields(q))| < TWO63
    modifies w, w.buf
    ensures w.Valid() && (w.buf == old(w.buf) || fresh(w.buf))
    ensures w.Contents() == old(w.Contents()) + PutFields(Nested(3, PutFields(QueueFields(q))))
  {
    hide PutFields, PutTag, QueueFields;
    ghost var before := w.Contents();
    var tagAt, bodyAt := BeginNested(w, 3);
    AppendQueue(w, q);
    CloseNested(w, before, 3, tagAt, bodyAt);
  }

  method AppendDeliveryNested(w: BufferWriter, d: Delivery)
    requires w.Valid() && |PutFields(DeliveryFields(d))| < TWO63
    modifies w, w.buf
    ensures w.Valid() && (w.buf == old(w.buf) || fresh(w.buf))
    ensures w.Contents() == old(w.Contents()) + PutFields(Nested(2, PutFields(DeliveryFields(d))))
  {
    hide PutFields, PutTag, DeliveryFields;
    ghost var before := w.Contents();
    var tagAt, bodyAt := BeginNested(w, 2);
    AppendDelivery(w, d);
    CloseNested(w, before, 2, tagAt, bodyAt);
  }

  /** appendBroker. */
  method AppendBroker(w: BufferWriter, b: Broker)
    requires w.Valid() && !b.source.protocol.OtherProtocol? && !b.queue.state.OtherState?
    requires |PutFields(BrokerFields(b))| < TWO63
    modifies w, w.buf
    ensures w.Valid() && (w.buf == old(w.buf) || fresh(w.buf))
    ensures w.Contents() == old(w.Contents()) + PutFields(BrokerFields(b))
  {
    hide PutFields, Nested, SourceFields, DeliveryFields, QueueFields, TransferFields, TraceFields, Typed, Fold,
      FieldsFit;
    BrokerParts(b);
    SourceReads(b.source);
    FitBySize(SourceFields(b.source));
    TransferReads(b.transfer);
    FitBySize(TransferFields(b.transfer));
    TraceReads(b.trace);
    FitBySize(TraceFields(b.trace));
    var n1, n2 := Nested(1, PutFields(SourceFields(b.source))), Nested(2, PutFields(DeliveryFields(b.delivery)));
    var n3, n4 := Nested(3, PutFields(QueueFields(b.queue))), Nested(4, PutFields(TransferFields(b.transfer)));
    PutThree(n1 + n2 + n3, n4, Nested(5, PutFields(TraceFields(b.trace))));
    PutThree(n1, n2, n3);
    AppendNested(w, 1, SourceFields(b.source));
    AppendDeliveryNested(w, b.delivery);
    AppendQueueNested(w, b.queue);
    AppendNested(w, 4, TransferFields(b.transfer));
    AppendNested(w, 5, TraceFields(b.trace));
  }

  /** The loop over a header or property map: each entry nested in turn. */
  method AppendMap(w: BufferWriter, number: nat, walk: Walk)
    requires w.Valid() && (number == 2 || number == 3) && |PutFields(MapFields(number, walk))| < TWO63
    modifies w, w.buf
    ensures w.Valid() && (w.buf == old(w.buf) || fresh(w.buf))
    ensures w.Contents() == old(w.Contents()) + PutFields(MapFields(number, walk))
  {
    hide PutFields, EntryFields, MapFields, Nested;
    ghost var before := w.Contents();
    assert walk[0..] == walk;
    for i := 0 to |walk|
      invariant w.Valid() && (w.buf == old(w.buf) || fresh(w.buf))
      invariant w.Contents() + PutFields(MapFields(number, walk[i..])) == before + PutFields(MapFields(number, walk))
      invariant |PutFields(MapFields(number, walk[i..]))| < TWO63
    {
      ghost var done := w.Contents();
      MapStep(number, walk, i);
      AppendNested(w, number, EntryFields(walk[i].0, walk[i].1));
      assert done + (PutFields(Nested(number, PutFields(EntryFields(walk[i].0, walk[i].1))))
        + PutFields(MapFields(number, walk[i + 1..])))
          == w.Contents() + PutFields(MapFields(number, walk[i + 1..]));
    }
    MapEnd(number, walk);
  }

  lemma MapStep(number: nat, walk: Walk, i: nat)
    requires i < |walk| && (number == 2 || number == 3) && |PutFields(MapFields(number, walk[i..]))| < TWO63
    ensures var k, v := walk[i].0, walk[i].1;
      && PutFields(MapFields(number, walk[i..])) ==
         PutFields(Nested(number, PutFields(EntryFields(k, v)))) + PutFields(MapFields(number, walk[i + 1..]))
      && |PutFields(MapFields(number, walk[i + 1..]))| < TWO63 && FieldsFit(EntryFields(k, v))
  {
    hide PutFields, EntryFields, Nested, Typed, FieldsFit, Fold;
    var k, v := walk[i].0, walk[i].1;
    assert walk[i..][1..] == walk[i + 1..] && walk[i..][0] == walk[i];
    var slot := Nested(number, PutFields(EntryFields(k, v)));
    assert MapFields(number, walk[i..]) == slot + MapFields(number, walk[i + 1..]);
    PutFieldsCat(slot, MapFields(number, walk[i + 1..]));
    NestedShorter(MapFields(number, walk[i..]), number, PutFields(EntryFields(k, v)));
    EntryReads(k, v);
    FitBySize(EntryFields(k, v));
  }

  lemma MapEnd(number: nat, walk: Walk)
    ensures PutFields(MapFields(number, walk[|walk|..])) == []
  {
  }

  /** appendPublisher. */
  method AppendPublisher(w: BufferWriter, p: Publisher, full: bool, hw: Walk, pw: Walk)
    requires w.Valid() && Walks(hw, p.headers) && Walks(pw, p.properties)
    requires |PutFields(PublisherFields(p, full, hw, pw))| < TWO63
    modifies w, w.buf
    ensures w.Valid() && (w.buf == old(w.buf) || fresh(w.buf))
    ensures w.Contents() == old(w.Contents()) + PutFields(PublisherFields(p, full, hw, pw))
  {
    hide PutFields, MapFields, PublisherContent, PublisherOptions, Typed, Fold, Walks, Text, PublisherKept;
    PublisherReads(p, full, hw, pw);
    FitBySize(PublisherFields(p, full, hw, pw));
    var k := Text(1, if full then p.key else []);
    ghost var h, r := MapFields(2, hw), MapFields(3, pw);
    var back := PublisherContent(p) + PublisherOptions(p);
    MapSizes(k, h, r, PublisherContent(p), PublisherOptions(p));
    assert k + h + r + PublisherContent(p) + PublisherOptions(p) == k + h + r + back;
    PutFieldsCat(k + h + r, back);
    PutThree(k, h, r);
    AppendFields(w, k);
    AppendMap(w, 2, hw);
    AppendMap(w, 3, pw);
    AppendFields(w, back);
  }

  method AppendPublisherNested(w: BufferWriter, p: Publisher, full: bool, hw: Walk, pw: Walk)
    requires w.Valid() && Walks(hw, p.headers) && Walks(pw, p.properties)
    requires |PutFields(PublisherFields(p, full, hw, pw))| < TWO63
    modifies w, w.buf
    ensures w.Valid() && (w.buf == old(w.buf) || fresh(w.buf))
    ensures w.Contents() == old(w.Contents()) + PutFields(Nested(4, PutFields(PublisherFields(p, full, hw, pw))))
  {
    hide PutFields, PutTag, PublisherFields, Walks;
    ghost var before := w.Contents();
    var tagAt, bodyAt := BeginNested(w, 4);
    AppendPublisher(w, p, full, hw, pw);
    CloseNested(w, before, 4, tagAt, bodyAt);
  }

  method AppendBrokerNested(w: BufferWriter, b: Broker)
    requires w.Valid() && !b.source.protocol.OtherProtocol? && !b.queue.state.OtherState?
    requires |PutFields(BrokerFields(b))| < TWO63
    modifies w, w.buf
    ensures w.Valid() && (w.buf == old(w.buf) || fresh(w.buf))
    ensures w.Contents() == old(w.Contents()) + PutFields(Nested(5, PutFields(BrokerFields(b))))
  {
    hide PutFields, PutTag, BrokerFields;
    ghost var before := w.Contents();
    var tagAt, bodyAt := BeginNested(w, 5);
    AppendBroker(w, b);
    CloseNested(w, before, 5, tagAt, bodyAt);
  }

  /** marshalBinary: one buffer, every nested length patched in place. */
  method MarshalBinary(e: Envelope, mode: Mode, hw: Walk, pw: Walk, capacity: nat) returns (r: Result<Bytes, Error>)
    requires Walks(hw, e.publisher.headers) && Walks(pw, e.publisher.properties)
    requires |PutFields(EnvelopeFields(e, mode, hw, pw))| < TWO63
    ensures r == Marshal(e, mode, hw, pw)
  {
    hide PutFields, PublisherFields, BrokerFields, Nested, Walks, Typed, Fold, Text, PublisherKept, BrokerKept,
      FieldsFit;
    var error := Validate(e);
    if error.Some? {
      return Err(error.value);
    }
    var w := new BufferWriter(capacity);
    EnvelopeReads(e, mode, hw, pw);
    HeadFits(e, mode, hw, pw);
    var head := EnvelopeHead(e, mode);
    ghost var np := Nested(4, PutFields(PublisherFields(e.publisher, mode.Full?, hw, pw)));
    ghost var nb := Nested(5, PutFields(BrokerFields(e.broker)));
    PutThree(head, np, nb);
    AppendFields(w, head);
    AppendPublisherNested(w, e.publisher, mode.Full?, hw, pw);
    AppendBrokerNested(w, e.broker);
    assert w.Contents() == PutFields(head) + PutFields(np) + PutFields(nb);
    assert EnvelopeFields(e, mode, hw, pw) == head + np + nb;
    r := Ok(w.buf[..w.pos]);
  }

  lemma HeadFits(e: Envelope, mode: Mode, hw: Walk, pw: Walk)
    requires Typed(EnvelopeFields(e, mode, hw, pw)) && |PutFields(EnvelopeFields(e, mode, hw, pw))| < TWO63
    ensures FieldsFit(EnvelopeHead(e, mode))
    ensures |PutFields(PublisherFields(e.publisher, mode.Full?, hw, pw))| < TWO63 &&
      |PutFields(BrokerFields(e.broker))| < TWO63
  {
    hide PutFields, PublisherFields, BrokerFields, Nested, Text;
    var fs := EnvelopeFields(e, mode, hw, pw);
    FitBySize(fs);
    NestedShorter(fs, 4, PutFields(PublisherFields(e.publisher, mode.Full?, hw, pw)));
    NestedShorter(fs, 5, PutFields(BrokerFields(e.broker)));
    assert forall f <- EnvelopeHead(e, mode) :: f in fs;
  }
}
