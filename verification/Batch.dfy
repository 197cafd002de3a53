/**
 Batches of records, as the log frames, checksums and compresses them.
 */
module Batches {
  import opened Prelude
  import opened Encoding
  import opened Buffers
  import opened MapWalks

  datatype Record = Record(
    offsetDelta: nat,
    timestampDelta: int,
    key: Option<Bytes>,
    value: Option<Bytes>,
    headers: map<Bytes, Bytes>)

  /** The bits of a batch's 16-bit flag word; `others` is everything above the fourth. */
  datatype Flags = Flags(compressed: bool, hasTimestamp: bool, hasKeys: bool, hasHeaders: bool, others: nat)

  const NEW_FLAGS := Flags(false, true, false, false, 0)

  /** A bit below the rest of a word. */
  function Low(b: bool, rest: nat): (w: nat)
    ensures (w % 2 == 1 <==> b) && w / 2 == rest
  {
    2 * rest + if b then 1 else 0
  }

  function Word(f: Flags): nat {
    Low(f.compressed, Low(f.hasTimestamp, Low(f.hasKeys, Low(f.hasHeaders, f.others))))
  }

  function OfWord(w: nat): Flags {
    var w1 := w / 2;
    var w2 := w1 / 2;
    var w3 := w2 / 2;
    Flags(w % 2 == 1, w1 % 2 == 1, w2 % 2 == 1, w3 % 2 == 1, w3 / 2)
  }

  predicate FitsWord(f: Flags) {
    f.others < 4096
  }

  lemma OfWordWord(f: Flags)
    ensures OfWord(Word(f)) == f
    ensures FitsWord(f) ==> Word(f) < TWO16
  {
  }

  datatype Batch = Batch(
    baseOffset: nat,
    baseTimestamp: int,
    maxTimestamp: int,
    flags: Flags,
    compression: byte,
    records: seq<Record>)
  {
    function NextOffset(): nat {
      baseOffset + |records|
    }
  }

  datatype Error =
    | EmptyBatch
    | InvalidBatch
    | InvalidMagic
    | CrcMismatch
    | UnsupportedVersion(version: nat)
    | ReadFailed(cause: ReadError)
    | CompressionFailed
    | DecompressionFailed

  /** The checksum and the compressors are parameters: any functions do, as long as decompression undoes compression. */
  datatype Codec = Codec(
    checksum: Bytes -> nat,
    compress: (byte, Bytes) -> Option<Bytes>,
    decompress: (byte, Bytes) -> Option<Bytes>)

  ghost predicate Lawful(c: Codec) {
    && (forall s :: c.checksum(s) < TWO32)
    && (forall t, s :: c.compress(t, s).Some? ==> c.decompress(t, c.compress(t, s).value) == Some(s))
  }

  // ---------------------------------------------------------------------------
  // What fits the source's types

  ghost predicate WellFormedWalk(w: Walk) {
    |w| < TWO63 && forall i | 0 <= i < |w| :: |w[i].0| < TWO63 && |w[i].1| < TWO63
  }

  ghost predicate WellFormedRecord(r: Record, w: Walk) {
    && r.offsetDelta < TWO32
    && IsInt64(r.timestampDelta)
    && (r.key.Some? ==> |r.key.value| < TWO63)
    && (r.value.Some? ==> |r.value.value| < TWO63)
    && Walks(w, r.headers) && WellFormedWalk(w)
  }

  ghost predicate WellFormedRecords(rs: seq<Record>, ws: seq<Walk>) {
    |ws| == |rs| && forall i | 0 <= i < |rs| :: WellFormedRecord(rs[i], ws[i])
  }

  // ---------------------------------------------------------------------------
  // Records, written

  function PutOptional(o: Option<Bytes>): Bytes {
    match o
    case None => PutVarint(-1)
    case Some(b) => PutVarint(|b|) + b
  }

  function PutHeaders(w: Walk): Bytes {
    if w == [] then [] else PutBytes(w[0].0) + PutBytes(w[0].1) + PutHeaders(w[1..])
  }

  function PutStamp(r: Record): Bytes {
    PutUvarint(r.offsetDelta) + PutVarint(r.timestampDelta)
  }

  function PutContent(r: Record): Bytes {
    PutOptional(r.key) + PutOptional(r.value)
  }

  function PutHeaderMap(m: map<Bytes, Bytes>, w: Walk): Bytes {
    PutUvarint(|m|) + PutHeaders(w)
  }

  function PutRecord(r: Record, w: Walk): Bytes {
    PutStamp(r) + PutContent(r) + PutHeaderMap(r.headers, w)
  }

  function PutRecords(rs: seq<Record>, ws: seq<Walk>): Bytes
    requires |ws| == |rs|
  {
    if rs == [] then [] else PutRecord(rs[0], ws[0]) + PutRecords(rs[1..], ws[1..])
  }

  // ---------------------------------------------------------------------------
  // Records, read

  function ReadOptional(s: Bytes, p: nat): (r: Result<Parsed<Option<Bytes>>, ReadError>)
    requires p <= |s|
    ensures r.Ok? ==> p <= r.value.next <= |s|
  {
    match ReadVarint(s, p)
    case Err(e) => Err(e)
    case Ok(n) =>
      if n.value < 0 then Ok(Parsed(None, n.next))
      else
        match ReadRaw(s, n.next, n.value)
        case Err(e) => Err(e)
        case Ok(b) => Ok(Parsed(Some(b.value), b.next))
  }

  function ReadHeaders(s: Bytes, p: nat, n: nat, got: map<Bytes, Bytes>)
    : (r: Result<Parsed<map<Bytes, Bytes>>, ReadError>)
    requires p <= |s|
    ensures r.Ok? ==> p <= r.value.next <= |s|
    decreases n
  {
    if n == 0 then Ok(Parsed(got, p))
    else
      match ReadBytes(s, p)
      case Err(e) => Err(e)
      case Ok(k) =>
        match ReadBytes(s, k.next)
        case Err(e) => Err(e)
        case Ok(v) => ReadHeaders(s, v.next, n - 1, got[k.value := v.value])
  }

  function ReadStamp(s: Bytes, p: nat): (r: Result<Parsed<(nat, int)>, ReadError>)
    requires p <= |s|
    ensures r.Ok? ==> p <= r.value.next <= |s|
  {
    match ReadUvarint(s, p)
    case Err(e) => Err(e)
    case Ok(offset) =>
      match ReadVarint(s, offset.next)
      case Err(e) => Err(e)
      case Ok(time) => Ok(Parsed((offset.value % TWO32, time.value), time.next))
  }

  function ReadContent(s: Bytes, p: nat): (r: Result<Parsed<(Option<Bytes>, Option<Bytes>)>, ReadError>)
    requires p <= |s|
    ensures r.Ok? ==> p <= r.value.next <= |s|
  {
    match ReadOptional(s, p)
    case Err(e) => Err(e)
    case Ok(key) =>
      match ReadOptional(s, key.next)
      case Err(e) => Err(e)
      case Ok(value) => Ok(Parsed((key.value, value.value), value.next))
  }

  function ReadHeaderMap(s: Bytes, p: nat): (r: Result<Parsed<map<Bytes, Bytes>>, ReadError>)
    requires p <= |s|
    ensures r.Ok? ==> p <= r.value.next <= |s|
  {
    match ReadUvarint(s, p)
    case Err(e) => Err(e)
    case Ok(count) => ReadHeaders(s, count.next, count.value, map[])
  }

  function ReadRecord(s: Bytes, p: nat): (r: Result<Parsed<Record>, ReadError>)
    requires p <= |s|
    ensures r.Ok? ==> p <= r.value.next <= |s|
  {
    match ReadStamp(s, p)
    case Err(e) => Err(e)
    case Ok(stamp) =>
      match ReadContent(s, stamp.next)
      case Err(e) => Err(e)
      case Ok(content) =>
        match ReadHeaderMap(s, content.next)
        case Err(e) => Err(e)
        case Ok(headers) =>
          Ok(Parsed(Record(stamp.value.0, stamp.value.1, content.value.0, content.value.1, headers.value),
                    headers.next))
  }

  function ReadRecords(s: Bytes, p: nat, count: nat): Result<seq<Record>, ReadError>
    requires p <= |s|
    decreases count
  {
    if count == 0 then Ok([])
    else
      match ReadRecord(s, p)
      case Err(e) => Err(e)
      case Ok(r) =>
        match ReadRecords(s, r.next, count - 1)
        case Err(e) => Err(e)
        case Ok(rs) => Ok([r.value] + rs)
  }

  // ---------------------------------------------------------------------------
  // Reading undoes writing

  lemma ReadPutOptional(s: Bytes, p: nat, o: Option<Bytes>)
    requires (o.Some? ==> |o.value| < TWO63) && At(s, p, PutOptional(o))
    ensures ReadOptional(s, p) == Ok(Parsed(o, p + |PutOptional(o)|))
  {
    if o.Some? {
      AtSplit(s, p, PutVarint(|o.value|), o.value);
      GetPutUvarint(s, p, ZigZag(|o.value|));
      AtSlice(s, p + |PutVarint(|o.value|)|, o.value);
    } else {
      GetPutUvarint(s, p, ZigZag(-1));
    }
  }

  /** Whatever order the map was walked in when it was written, the same map is read. */
  lemma {:induction false} ReadPutHeaders(s: Bytes, p: nat, w: Walk, got: map<Bytes, Bytes>)
    requires WellFormedWalk(w) && At(s, p, PutHeaders(w))
    ensures ReadHeaders(s, p, |w|, got) == Ok(Parsed(Collect(w, got), p + |PutHeaders(w)|))
    decreases |w|
  {
    hide ReadBytes, PutBytes;
    if w != [] {
      var k, v := w[0].0, w[0].1;
      AtSplit(s, p, PutBytes(k) + PutBytes(v), PutHeaders(w[1..]));
      AtSplit(s, p, PutBytes(k), PutBytes(v));
      ReadPutBytes(s, p, k);
      ReadPutBytes(s, p + |PutBytes(k)|, v);
      ReadPutHeaders(s, p + |PutBytes(k)| + |PutBytes(v)|, w[1..], got[k := v]);
    }
  }

  lemma ReadPutStamp(s: Bytes, p: nat, r: Record)
    requires r.offsetDelta < TWO32 && IsInt64(r.timestampDelta) && At(s, p, PutStamp(r))
    ensures ReadStamp(s, p) == Ok(Parsed((r.offsetDelta, r.timestampDelta), p + |PutStamp(r)|))
  {
    AtSplit(s, p, PutUvarint(r.offsetDelta), PutVarint(r.timestampDelta));
    GetPutUvarint(s, p, r.offsetDelta);
    GetPutUvarint(s, p + |PutUvarint(r.offsetDelta)|, ZigZag(r.timestampDelta));
  }

  lemma ReadPutContent(s: Bytes, p: nat, r: Record)
    requires (r.key.Some? ==> |r.key.value| < TWO63) && (r.value.Some? ==> |r.value.value| < TWO63)
    requires At(s, p, PutContent(r))
    ensures ReadContent(s, p) == Ok(Parsed((r.key, r.value), p + |PutContent(r)|))
  {
    AtSplit(s, p, PutOptional(r.key), PutOptional(r.value));
    ReadPutOptional(s, p, r.key);
    ReadPutOptional(s, p + |PutOptional(r.key)|, r.value);
  }

  lemma ReadPutHeaderMap(s: Bytes, p: nat, m: map<Bytes, Bytes>, w: Walk)
    requires Walks(w, m) && WellFormedWalk(w) && At(s, p, PutHeaderMap(m, w))
    ensures ReadHeaderMap(s, p) == Ok(Parsed(m, p + |PutHeaderMap(m, w)|))
  {
    hide Walks, GetUvarint, PutUvarint, At, PutHeaders, ReadHeaders, Collect;
    WalkLength(w, m);
    CollectWalk(w, m, map[]);
    assert map[] + m == m;
    AtSplit(s, p, PutUvarint(|m|), PutHeaders(w));
    GetPutUvarint(s, p, |m|);
    ReadPutHeaders(s, p + |PutUvarint(|m|)|, w, map[]);
  }

  lemma ReadPutRecord(s: Bytes, p: nat, r: Record, w: Walk)
    requires WellFormedRecord(r, w) && At(s, p, PutRecord(r, w))
    ensures ReadRecord(s, p) == Ok(Parsed(r, p + |PutRecord(r, w)|))
  {
    hide ReadStamp, ReadContent, ReadHeaderMap, PutStamp, PutContent, PutHeaderMap, At;
    var a, b, c := PutStamp(r), PutContent(r), PutHeaderMap(r.headers, w);
    AtSplit(s, p, a + b, c);
    AtSplit(s, p, a, b);
    ReadPutStamp(s, p, r);
    ReadPutContent(s, p + |a|, r);
    ReadPutHeaderMap(s, p + |a| + |b|, r.headers, w);
  }

  lemma {:induction false} ReadPutRecords(s: Bytes, p: nat, rs: seq<Record>, ws: seq<Walk>)
    requires WellFormedRecords(rs, ws) && At(s, p, PutRecords(rs, ws))
    ensures ReadRecords(s, p, |rs|) == Ok(rs)
    decreases |rs|
  {
    hide ReadRecord, PutRecord;
    if rs != [] {
      AtSplit(s, p, PutRecord(rs[0], ws[0]), PutRecords(rs[1..], ws[1..]));
      ReadPutRecord(s, p, rs[0], ws[0]);
      ReadPutRecords(s, p + |PutRecord(rs[0], ws[0])|, rs[1..], ws[1..]);
      assert [rs[0]] + rs[1..] == rs;
    }
  }

  // ---------------------------------------------------------------------------
  // The frame around the records

  const MAGIC: nat := 0x464C5558
  const VERSION: nat := 1
  const HEADER: nat := 44
  const COMPRESS_ABOVE: nat := 256

  /** The flags and the bytes that go into the frame. */
  function Payload(codec: Codec, b: Batch, ws: seq<Walk>): Option<(Flags, Bytes)>
    requires |ws| == |b.records|
  {
    var raw := PutRecords(b.records, ws);
    if b.compression == 0 || |raw| <= COMPRESS_ABOVE then Some((b.flags, raw))
    else
      match codec.compress(b.compression, raw)
      case None => None
      case Some(small) =>
        if |small| < |raw| then Some((b.flags.(compressed := true), small))
        else Some((b.flags.(compressed := false), raw))
  }

  function PutWhere(b: Batch, length: nat): Bytes {
    PutFixed(b.baseOffset, 8) + PutFixed(length, 4)
  }

  function PutKind(b: Batch, flags: Flags): Bytes {
    PutFixed(|b.records|, 2) + PutFixed(Word(flags), 2) + PutFixed(b.compression, 1) + PutFixed(VERSION, 1)
    + PutFixed(0, 2)
  }

  function PutTimes(b: Batch): Bytes
    requires IsInt64(b.baseTimestamp) && IsInt64(b.maxTimestamp)
  {
    PutFixed(ToUint64(b.baseTimestamp), 8) + PutFixed(ToUint64(b.maxTimestamp), 8)
  }

  /** Everything behind the checksum, which is what the checksum covers. */
  function PutBody(b: Batch, flags: Flags, payload: Bytes): (s: Bytes)
    requires IsInt64(b.baseTimestamp) && IsInt64(b.maxTimestamp)
    ensures |s| == HEADER - 8 + |payload|
  {
    PutWhere(b, |payload|) + PutKind(b, flags) + PutTimes(b) + payload
  }

  function PutFrame(codec: Codec, b: Batch, flags: Flags, payload: Bytes): (s: Bytes)
    requires IsInt64(b.baseTimestamp) && IsInt64(b.maxTimestamp)
    ensures |s| == HEADER + |payload|
  {
    var body := PutBody(b, flags, payload);
    PutFixed(MAGIC, 4) + PutFixed(codec.checksum(body), 4) + body
  }

  /** Encode: the bytes, and the batch with the flags as encoding leaves them. */
  function Encode(codec: Codec, b: Batch, ws: seq<Walk>): Result<(Bytes, Batch), Error>
    requires |ws| == |b.records| && IsInt64(b.baseTimestamp) && IsInt64(b.maxTimestamp)
  {
    if b.records == [] then Err(EmptyBatch)
    else
      match Payload(codec, b, ws)
      case None => Err(CompressionFailed)
      case Some(fp) => Ok((PutFrame(codec, b, fp.0, fp.1), b.(flags := fp.0)))
  }

  datatype Header = Header(
    magic: nat, crc: nat, baseOffset: nat, length: nat, count: nat, flags: nat,
    compression: nat, version: nat, baseTimestamp: nat, maxTimestamp: nat)

  function ReadHeader(s: Bytes): Header
    requires HEADER <= |s|
  {
    Header(Field(s, 0, 4), Field(s, 4, 4), Field(s, 8, 8), Field(s, 16, 4), Field(s, 20, 2), Field(s, 22, 2),
           Field(s, 24, 1), Field(s, 25, 1), Field(s, 28, 8), Field(s, 36, 8))
  }

  function ReadPayload(codec: Codec, h: Header, raw: Bytes): Result<seq<Record>, Error>
    requires h.compression < 256
  {
    match (if OfWord(h.flags).compressed then codec.decompress(h.compression, raw) else Some(raw))
    case None => Err(DecompressionFailed)
    case Some(records) =>
      match ReadRecords(records, 0, h.count)
      case Err(e) => Err(ReadFailed(e))
      case Ok(rs) => Ok(rs)
  }

  /** The order of the checks is the source's: size, magic, checksum, version, length, records. */
  function DecodeBatch(codec: Codec, s: Bytes): Result<Batch, Error> {
    if |s| < HEADER then Err(InvalidBatch)
    else
      var h := ReadHeader(s);
      Widths();
      if h.magic != MAGIC then Err(InvalidMagic)
      else if h.crc != codec.checksum(s[8..]) then Err(CrcMismatch)
      else if h.version > VERSION then Err(UnsupportedVersion(h.version))
      else
        match ReadRaw(s, HEADER, h.length)
        case Err(e) => Err(ReadFailed(e))
        case Ok(raw) =>
          match ReadPayload(codec, h, raw.value)
          case Err(e) => Err(e)
          case Ok(rs) =>
            Ok(Batch(h.baseOffset, FromUint64(h.baseTimestamp), FromUint64(h.maxTimestamp), OfWord(h.flags),
                     h.compression, rs))
  }

  /** The fields fit the widths they are written in. */
  ghost predicate WellFormedBatch(b: Batch, ws: seq<Walk>) {
    && b.baseOffset < TWO64 && IsInt64(b.baseTimestamp) && IsInt64(b.maxTimestamp) && FitsWord(b.flags)
    && |ws| == |b.records| && WellFormedRecords(b.records, ws)
  }

  lemma KindFields(s: Bytes, b: Batch, flags: Flags)
    requires FitsWord(flags) && At(s, 20, PutKind(b, flags))
    ensures HEADER <= |s| ==> var h := ReadHeader(s);
      h.count == |b.records| % TWO16 && h.flags == Word(flags) && h.compression == b.compression && h.version == VERSION
  {
    hide At, GetFixed, PutFixed, Word;
    Widths();
    OfWordWord(flags);
    var n, f, c, v, z := PutFixed(|b.records|, 2), PutFixed(Word(flags), 2), PutFixed(b.compression, 1),
      PutFixed(VERSION, 1), PutFixed(0, 2);
    AtSplit(s, 20, n + f + c + v, z);
    AtSplit(s, 20, n + f + c, v);
    AtSplit(s, 20, n + f, c);
    AtSplit(s, 20, n, f);
    AtSlice(s, 20, n);
    GetPutFixed16(|b.records|);
    FieldAt(s, 22, Word(flags), 2);
    FieldAt(s, 24, b.compression, 1);
    FieldAt(s, 25, VERSION, 1);
  }

  lemma PlaceFields(s: Bytes, b: Batch, length: nat)
    requires b.baseOffset < TWO64 && length < TWO32 && At(s, 8, PutWhere(b, length))
    ensures Field(s, 8, 8) == b.baseOffset && Field(s, 16, 4) == length
  {
    hide At, GetFixed, PutFixed;
    Widths();
    AtSplit(s, 8, PutFixed(b.baseOffset, 8), PutFixed(length, 4));
    FieldAt(s, 8, b.baseOffset, 8);
    FieldAt(s, 16, length, 4);
  }

  lemma TimeFields(s: Bytes, b: Batch)
    requires IsInt64(b.baseTimestamp) && IsInt64(b.maxTimestamp) && At(s, 28, PutTimes(b))
    ensures Field(s, 28, 8) == ToUint64(b.baseTimestamp) && Field(s, 36, 8) == ToUint64(b.maxTimestamp)
  {
    hide At, GetFixed, PutFixed;
    Widths();
    AtSplit(s, 28, PutFixed(ToUint64(b.baseTimestamp), 8), PutFixed(ToUint64(b.maxTimestamp), 8));
    FieldAt(s, 28, ToUint64(b.baseTimestamp), 8);
    FieldAt(s, 36, ToUint64(b.maxTimestamp), 8);
  }

  function FramedHeader(codec: Codec, b: Batch, flags: Flags, payload: Bytes): Header
    requires IsInt64(b.baseTimestamp) && IsInt64(b.maxTimestamp)
  {
    Header(MAGIC, codec.checksum(PutBody(b, flags, payload)), b.baseOffset, |payload|, |b.records| % TWO16, Word(flags),
           b.compression, VERSION, ToUint64(b.baseTimestamp), ToUint64(b.maxTimestamp))
  }

  lemma ChecksumFits(codec: Codec, s: Bytes)
    requires Lawful(codec)
    ensures codec.checksum(s) < TWO32
  {
  }

  lemma PartSizes(b: Batch, flags: Flags, length: nat)
    requires IsInt64(b.baseTimestamp) && IsInt64(b.maxTimestamp)
    ensures |PutWhere(b, length)| == 12 && |PutKind(b, flags)| == 8 && |PutTimes(b)| == 16
  {
  }

  /** What stands in the header of a frame: every field as written, the count modulo 65536. */
  lemma FrameHeader(codec: Codec, b: Batch, flags: Flags, payload: Bytes)
    requires Lawful(codec) && b.baseOffset < TWO64 && IsInt64(b.baseTimestamp) && IsInt64(b.maxTimestamp)
    requires FitsWord(flags) && |payload| < TWO32
    ensures var s := PutFrame(codec, b, flags, payload);
      && s[8..] == PutBody(b, flags, payload) && s[HEADER..HEADER + |payload|] == payload
      && ReadHeader(s) == FramedHeader(codec, b, flags, payload)
  {
    hide Lawful, At, GetFixed, PutFixed, PutWhere, PutKind, PutTimes;
    var s, body := PutFrame(codec, b, flags, payload), PutBody(b, flags, payload);
    var where, kind, times := PutWhere(b, |payload|), PutKind(b, flags), PutTimes(b);
    var magic, crc := PutFixed(MAGIC, 4), PutFixed(codec.checksum(body), 4);
    Widths();
    ChecksumFits(codec, body);
    PartSizes(b, flags, |payload|);
    AtWhole(s);
    AtSplit(s, 0, magic + crc, body);
    AtSplit(s, 0, magic, crc);
    AtSlice(s, 8, body);
    AtSplit(s, 8, where + kind + times, payload);
    AtSplit(s, 8, where + kind, times);
    AtSplit(s, 8, where, kind);
    AtSlice(s, HEADER, payload);
    FieldAt(s, 0, MAGIC, 4);
    FieldAt(s, 4, codec.checksum(body), 4);
    PlaceFields(s, b, |payload|);
    KindFields(s, b, flags);
    TimeFields(s, b);
  }

  /** Whatever Payload chose, undoing it gives the records' bytes. */
  lemma PayloadUnpacks(codec: Codec, b: Batch, ws: seq<Walk>)
    requires Lawful(codec) && |ws| == |b.records| && !b.flags.compressed && Payload(codec, b, ws).Some?
    ensures var (flags, payload) := Payload(codec, b, ws).value;
      (if flags.compressed then codec.decompress(b.compression, payload) else Some(payload))
      == Some(PutRecords(b.records, ws))
    ensures FitsWord(b.flags) ==> FitsWord(Payload(codec, b, ws).value.0)
  {
    hide PutRecords;
  }

  /** The payload of a frame reads back as the records, compressed or not. */
  lemma PayloadReadsBack(codec: Codec, b: Batch, ws: seq<Walk>, h: Header)
    requires Lawful(codec) && WellFormedRecords(b.records, ws) && !b.flags.compressed
    requires Payload(codec, b, ws).Some? && h.flags == Word(Payload(codec, b, ws).value.0)
    requires h.compression == b.compression && h.count == |b.records|
    ensures ReadPayload(codec, h, Payload(codec, b, ws).value.1) == Ok(b.records)
  {
    OfWordWord(Payload(codec, b, ws).value.0);
    PayloadUnpacks(codec, b, ws);
    var raw := PutRecords(b.records, ws);
    hide PutRecords, ReadRecords, At, WellFormedRecords, Payload, Lawful;
    AtWhole(raw);
    ReadPutRecords(raw, 0, b.records, ws);
  }

  lemma {:induction false} ReadRecordsCount(s: Bytes, p: nat, count: nat)
    requires p <= |s| && ReadRecords(s, p, count).Ok?
    ensures |ReadRecords(s, p, count).value| == count
    decreases count
  {
    hide ReadRecord;
    if count > 0 {
      ReadRecordsCount(s, ReadRecord(s, p).value.next, count - 1);
    }
  }

  lemma ReadPayloadCount(codec: Codec, h: Header, payload: Bytes)
    requires h.compression < 256 && ReadPayload(codec, h, payload).Ok?
    ensures |ReadPayload(codec, h, payload).value| == h.count
  {
    ReadRecordsCount(if OfWord(h.flags).compressed then codec.decompress(h.compression, payload).value else payload,
                     0, h.count);
  }

  /** A frame passes every check; what comes out depends only on what its payload reads as. */
  lemma DecodeFrame(codec: Codec, b: Batch, flags: Flags, payload: Bytes)
    requires Lawful(codec) && b.baseOffset < TWO64 && IsInt64(b.baseTimestamp) && IsInt64(b.maxTimestamp)
    requires FitsWord(flags) && |payload| < TWO32
    ensures DecodeBatch(codec, PutFrame(codec, b, flags, payload)) ==
            match ReadPayload(codec, FramedHeader(codec, b, flags, payload), payload)
            case Err(e) => Err(e)
            case Ok(rs) => Ok(b.(flags := flags, records := rs))
  {
    hide Lawful, PutFrame, PutBody, ReadHeader, ReadPayload, Pow256, GetFixed, Field, Word, OfWord;
    OfWordWord(flags);
    FrameHeader(codec, b, flags, payload);
  }

  /**
   Decoding inverts encoding exactly for the batches whose record count fits its
   16-bit field; a longer batch encodes without an error and never comes back.
   */
  lemma DecodeInvertsEncode(codec: Codec, b: Batch, ws: seq<Walk>)
    requires Lawful(codec) && WellFormedBatch(b, ws) && !b.flags.compressed
    requires Encode(codec, b, ws).Ok? && |Encode(codec, b, ws).value.0| < HEADER + TWO32
    ensures var (s, b') := Encode(codec, b, ws).value;
      DecodeBatch(codec, s) == Ok(b') <==> |b.records| < TWO16
  {
    hide Lawful, PutRecords, PutFrame, PutBody, DecodeBatch, WellFormedRecords, Payload, ReadPayload, Word, OfWord,
      ToUint64;
    PayloadUnpacks(codec, b, ws);
    var (flags, payload) := Payload(codec, b, ws).value;
    DecodeFrame(codec, b, flags, payload);
    var h := FramedHeader(codec, b, flags, payload);
    if |b.records| < TWO16 {
      PayloadReadsBack(codec, b, ws, h);
    } else if ReadPayload(codec, h, payload).Ok? {
      ReadPayloadCount(codec, h, payload);
    }
  }

  // ---------------------------------------------------------------------------
  // Size without encoding

  function OptionalSize(o: Option<Bytes>): nat {
    if o.None? then |PutVarint(-1)| else |PutBytes(o.value)|
  }

  function RecordSize(r: Record, w: Walk): nat {
    |PutStamp(r)| + OptionalSize(r.key) + OptionalSize(r.value) + |PutHeaderMap(r.headers, w)|
  }

  lemma OptionalSizeBounds(o: Option<Bytes>)
    ensures OptionalSize(o) <= |PutOptional(o)| <= OptionalSize(o) + 1
  {
    if o.Some? {
      SignedLengthSize(|o.value|);
    }
  }

  lemma {:induction false} HeadersConcat(v: Walk, w: Walk)
    ensures |PutHeaders(v + w)| == |PutHeaders(v)| + |PutHeaders(w)|
  {
    if v == [] {
      assert v + w == w;
    } else {
      assert (v + w)[1..] == v[1..] + w;
      HeadersConcat(v[1..], w);
    }
  }

  lemma HeadersWithout(w: Walk, j: nat)
    requires j < |w|
    ensures |PutHeaders(w)| == |PutHeaders(Without(w, j))| + |PutBytes(w[j].0)| + |PutBytes(w[j].1)|
  {
    assert w == w[..j] + ([w[j]] + w[j + 1..]);
    HeadersConcat(w[..j], [w[j]] + w[j + 1..]);
    HeadersConcat(w[..j], w[j + 1..]);
    assert ([w[j]] + w[j + 1..])[1..] == w[j + 1..];
  }

  /** The order a header map is visited in does not change how many bytes it takes. */
  lemma {:induction false} HeadersSizeOrderFree(v: Walk, w: Walk, m: map<Bytes, Bytes>)
    requires Walks(v, m) && Walks(w, m)
    ensures |PutHeaders(v)| == |PutHeaders(w)|
    decreases |v|
  {
    WalkLength(v, m);
    WalkLength(w, m);
    if v != [] {
      assert v[0] == (v[0].0, m[v[0].0]);
      var j :| 0 <= j < |w| && w[j] == v[0];
      WalksWithout(v, m, 0);
      WalksWithout(w, m, j);
      HeadersSizeOrderFree(Without(v, 0), Without(w, j), m - {v[0].0});
      HeadersWithout(v, 0);
      HeadersWithout(w, j);
    }
  }

  ghost predicate Encodes(rs: seq<Record>, ws: seq<Walk>) {
    |ws| == |rs| && forall i | 0 <= i < |rs| :: Walks(ws[i], rs[i].headers)
  }

  lemma RecordSizeBounds(r: Record, v: Walk, w: Walk)
    requires Walks(v, r.headers) && Walks(w, r.headers)
    ensures RecordSize(r, v) <= |PutRecord(r, w)| <= RecordSize(r, v) + 2
  {
    OptionalSizeBounds(r.key);
    OptionalSizeBounds(r.value);
    HeadersSizeOrderFree(v, w, r.headers);
  }

  function RecordsSize(rs: seq<Record>, ws: seq<Walk>): nat
    requires |ws| == |rs|
  {
    if rs == [] then 0 else RecordSize(rs[0], ws[0]) + RecordsSize(rs[1..], ws[1..])
  }

  /**
   Size counts lengths as unsigned where encoding writes them signed: up to two bytes a
   record too few, never more.
   */
  lemma {:induction false} SizeBounds(rs: seq<Record>, vs: seq<Walk>, ws: seq<Walk>)
    requires Encodes(rs, vs) && Encodes(rs, ws)
    ensures RecordsSize(rs, vs) <= |PutRecords(rs, ws)| <= RecordsSize(rs, vs) + 2 * |rs|
  {
    hide PutRecord, RecordSize;
    if rs != [] {
      RecordSizeBounds(rs[0], vs[0], ws[0]);
      SizeBounds(rs[1..], vs[1..], ws[1..]);
    }
  }

  method HeadersSize(w: Walk) returns (size: nat)
    ensures size == |PutHeaders(w)|
  {
    size := 0;
    for i := 0 to |w|
      invariant size + |PutHeaders(w[i..])| == |PutHeaders(w)|
    {
      var k := UvarintSize(|w[i].0|);
      var v := UvarintSize(|w[i].1|);
      size := size + k + |w[i].0| + v + |w[i].1|;
      assert w[i..][1..] == w[i + 1..];
    }
  }

  method OptionalSizeOf(o: Option<Bytes>) returns (size: nat)
    ensures size == OptionalSize(o)
  {
    if o.None? {
      size := UvarintSize(ZigZag(-1));
    } else {
      var n := UvarintSize(|o.value|);
      size := n + |o.value|;
    }
  }

  /** Batch.Size, with the order in which it visits each header map; encoding may visit them in another. */
  method Size(b: Batch, vs: seq<Walk>) returns (size: nat)
    requires Encodes(b.records, vs)
    ensures forall ws | Encodes(b.records, ws) ::
      size <= HEADER + |PutRecords(b.records, ws)| <= size + 2 * |b.records|
  {
    hide PutRecords, Walks;
    size := HEADER;
    for i := 0 to |b.records|
      invariant size + RecordsSize(b.records[i..], vs[i..]) == HEADER + RecordsSize(b.records, vs)
    {
      var r := b.records[i];
      var offset := UvarintSize(r.offsetDelta);
      var time := UvarintSize(ZigZag(r.timestampDelta));
      var key := OptionalSizeOf(r.key);
      var value := OptionalSizeOf(r.value);
      var count := UvarintSize(|r.headers|);
      var headers := HeadersSize(vs[i]);
      size := size + offset + time + key + value + count + headers;
      assert b.records[i..][1..] == b.records[i + 1..] && vs[i..][1..] == vs[i + 1..];
    }
    forall ws | Encodes(b.records, ws)
      ensures size <= HEADER + |PutRecords(b.records, ws)| <= size + 2 * |b.records|
    {
      SizeBounds(b.records, vs, ws);
    }
  }

  // ---------------------------------------------------------------------------
  // The encoder and the decoder, as they run

  method WriteOptional(w: BufferWriter, o: Option<Bytes>)
    requires w.Valid() && (o.Some? ==> |o.value| < TWO63)
    modifies w, w.buf
    ensures w.Valid() && (w.buf == old(w.buf) || fresh(w.buf))
    ensures w.Contents() == old(w.Contents()) + PutOptional(o)
  {
    if o.None? {
      w.WriteVarint(-1);
    } else {
      w.WriteVarint(|o.value|);
      w.WriteRawBytes(o.value);
    }
  }

  method WriteEntry(w: BufferWriter, k: Bytes, v: Bytes)
    requires w.Valid() && |k| < TWO63 && |v| < TWO63
    modifies w, w.buf
    ensures w.Valid() && (w.buf == old(w.buf) || fresh(w.buf))
    ensures w.Contents() == old(w.Contents()) + (PutBytes(k) + PutBytes(v))
  {
    hide PutUvarint;
    w.WriteUvarint(|k|);
    w.WriteRawBytes(k);
    w.WriteUvarint(|v|);
    w.WriteRawBytes(v);
  }

  method WriteHeaders(w: BufferWriter, walk: Walk)
    requires w.Valid() && WellFormedWalk(walk)
    modifies w, w.buf
    ensures w.Valid() && (w.buf == old(w.buf) || fresh(w.buf))
    ensures w.Contents() == old(w.Contents()) + PutHeaders(walk)
  {
    hide PutBytes;
    ghost var before := w.Contents();
    assert walk[0..] == walk;
    for i := 0 to |walk|
      invariant w.Valid() && (w.buf == old(w.buf) || fresh(w.buf))
      invariant w.Contents() + PutHeaders(walk[i..]) == before + PutHeaders(walk)
    {
      ghost var done, rest := w.Contents(), walk[i..];
      var (k, v) := walk[i];
      WriteEntry(w, k, v);
      assert rest[1..] == walk[i + 1..];
      assert done + (PutBytes(k) + PutBytes(v) + PutHeaders(rest[1..])) == w.Contents() + PutHeaders(rest[1..]);
    }
  }

  method WriteStamp(w: BufferWriter, r: Record)
    requires w.Valid() && r.offsetDelta < TWO32 && IsInt64(r.timestampDelta)
    modifies w, w.buf
    ensures w.Valid() && (w.buf == old(w.buf) || fresh(w.buf))
    ensures w.Contents() == old(w.Contents()) + PutStamp(r)
  {
    hide PutUvarint, PutVarint;
    w.WriteUvarint(r.offsetDelta);
    w.WriteVarint(r.timestampDelta);
  }

  method WriteContent(w: BufferWriter, r: Record)
    requires w.Valid() && (r.key.Some? ==> |r.key.value| < TWO63) && (r.value.Some? ==> |r.value.value| < TWO63)
    modifies w, w.buf
    ensures w.Valid() && (w.buf == old(w.buf) || fresh(w.buf))
    ensures w.Contents() == old(w.Contents()) + PutContent(r)
  {
    hide PutOptional;
    WriteOptional(w, r.key);
    WriteOptional(w, r.value);
  }

  method WriteHeaderMap(w: BufferWriter, m: map<Bytes, Bytes>, walk: Walk)
    requires w.Valid() && Walks(walk, m) && WellFormedWalk(walk)
    modifies w, w.buf
    ensures w.Valid() && (w.buf == old(w.buf) || fresh(w.buf))
    ensures w.Contents() == old(w.Contents()) + PutHeaderMap(m, walk)
  {
    hide PutUvarint, PutHeaders, Walks;
    WalkLength(walk, m);
    w.WriteUvarint(|m|);
    WriteHeaders(w, walk);
  }

  method WriteRecord(w: BufferWriter, r: Record, walk: Walk)
    requires w.Valid() && WellFormedRecord(r, walk)
    modifies w, w.buf
    ensures w.Valid() && (w.buf == old(w.buf) || fresh(w.buf))
    ensures w.Contents() == old(w.Contents()) + PutRecord(r, walk)
  {
    hide PutStamp, PutContent, PutHeaderMap, Walks, WellFormedWalk;
    WriteStamp(w, r);
    WriteContent(w, r);
    WriteHeaderMap(w, r.headers, walk);
  }

  /** encodeRecords: one growing buffer, record after record. */
  method EncodeRecords(rs: seq<Record>, ws: seq<Walk>) returns (data: Bytes)
    requires WellFormedRecords(rs, ws)
    ensures data == PutRecords(rs, ws)
  {
    hide PutRecord;
    var w := new BufferWriter(64 * |rs|);
    for i := 0 to |rs|
      invariant w.Valid() && fresh(w) && fresh(w.buf)
      invariant w.Contents() + PutRecords(rs[i..], ws[i..]) == PutRecords(rs, ws)
    {
      WriteRecord(w, rs[i], ws[i]);
      assert rs[i..][1..] == rs[i + 1..] && ws[i..][1..] == ws[i + 1..];
    }
    data := w.buf[..w.pos];
  }

  method WritePlace(w: BufferWriter, b: Batch, length: nat)
    requires w.Valid()
    modifies w, w.buf
    ensures w.Valid() && (w.buf == old(w.buf) || fresh(w.buf))
    ensures w.Contents() == old(w.Contents()) + PutWhere(b, length)
  {
    hide PutFixed;
    w.WriteFixed(b.baseOffset, 8);
    w.WriteFixed(length, 4);
  }

  method WriteKind(w: BufferWriter, b: Batch, flags: Flags)
    requires w.Valid()
    modifies w, w.buf
    ensures w.Valid() && (w.buf == old(w.buf) || fresh(w.buf))
    ensures w.Contents() == old(w.Contents()) + PutKind(b, flags)
  {
    hide PutFixed;
    w.WriteFixed(|b.records|, 2);
    w.WriteFixed(Word(flags), 2);
    w.WriteFixed(b.compression, 1);
    w.WriteFixed(VERSION, 1);
    w.WriteFixed(0, 2);
  }

  method WriteTimes(w: BufferWriter, b: Batch)
    requires w.Valid() && IsInt64(b.baseTimestamp) && IsInt64(b.maxTimestamp)
    modifies w, w.buf
    ensures w.Valid() && (w.buf == old(w.buf) || fresh(w.buf))
    ensures w.Contents() == old(w.Contents()) + PutTimes(b)
  {
    hide PutFixed;
    w.WriteFixed(ToUint64(b.baseTimestamp), 8);
    w.WriteFixed(ToUint64(b.maxTimestamp), 8);
  }

  method WriteBody(w: BufferWriter, b: Batch, flags: Flags, payload: Bytes)
    requires w.Valid() && IsInt64(b.baseTimestamp) && IsInt64(b.maxTimestamp)
    modifies w, w.buf
    ensures w.Valid() && (w.buf == old(w.buf) || fresh(w.buf))
    ensures w.Contents() == old(w.Contents()) + PutBody(b, flags, payload)
  {
    hide PutFixed, PutWhere, PutKind, PutTimes;
    WritePlace(w, b, |payload|);
    WriteKind(w, b, flags);
    WriteTimes(w, b);
    w.WriteRawBytes(payload);
  }

  /** The frame is written with a zero checksum, which is then filled in over what follows it. */
  method WriteFrame(codec: Codec, b: Batch, flags: Flags, payload: Bytes) returns (data: Bytes)
    requires IsInt64(b.baseTimestamp) && IsInt64(b.maxTimestamp)
    ensures data == PutFrame(codec, b, flags, payload)
  {
    hide PutFixed, PutBody;
    var w := new BufferWriter(HEADER + |payload|);
    w.WriteFixed(MAGIC, 4);
    w.WriteFixed(0, 4);
    WriteBody(w, b, flags, payload);
    var crc := codec.checksum(w.buf[8..w.pos]);
    assert w.buf[8..w.pos] == w.Contents()[8..] == PutBody(b, flags, payload);
    w.Patch(4, crc, 4);
    data := w.buf[..w.pos];
  }

  // ---------------------------------------------------------------------------
  // Building a batch

  function Appended(b: Batch, value: Option<Bytes>, key: Option<Bytes>, headers: map<Bytes, Bytes>, now: int): Batch {
    b.(records := b.records + [Record(|b.records| % TWO32, now - b.baseTimestamp, key, value, headers)],
       flags := b.flags.(hasKeys := b.flags.hasKeys || key.Some?, hasHeaders := b.flags.hasHeaders || headers != map[]),
       maxTimestamp := if now > b.maxTimestamp then now else b.maxTimestamp)
  }

  /** What the flags, the deltas and the maximum say of the records. */
  ghost predicate Built(b: Batch) {
    && FitsWord(b.flags) && b.flags.hasTimestamp
    && (b.flags.hasKeys <==> exists r <- b.records :: r.key.Some?)
    && (b.flags.hasHeaders <==> exists r <- b.records :: r.headers != map[])
    && (forall i | 0 <= i < |b.records| :: b.records[i].offsetDelta == i % TWO32)
    && (forall r <- b.records :: b.baseTimestamp + r.timestampDelta <= b.maxTimestamp)
    && (b.maxTimestamp == 0 || exists r <- b.records :: b.baseTimestamp + r.timestampDelta == b.maxTimestamp)
  }

  lemma AppendedBuilt(b: Batch, value: Option<Bytes>, key: Option<Bytes>, headers: map<Bytes, Bytes>, now: int)
    requires Built(b)
    ensures Built(Appended(b, value, key, headers, now))
  {
    var b' := Appended(b, value, key, headers, now);
    var r := Record(|b.records| % TWO32, now - b.baseTimestamp, key, value, headers);
    assert forall x :: x in b'.records <==> x in b.records || x == r;
    assert b'.baseTimestamp + r.timestampDelta == now;
  }

  /** The messages of a batch are those it had and the one just appended, with what was given and the time it was. */
  lemma AppendedMessages(b: Batch, value: Option<Bytes>, key: Option<Bytes>, headers: map<Bytes, Bytes>, now: int)
    ensures ToMessages(Appended(b, value, key, headers, now))
         == ToMessages(b) + [Message(b.baseOffset + |b.records| % TWO32, now, key, value, headers)]
  {
  }

  /** No message is newer than the batch's newest timestamp, and some message has it unless it is still zero. */
  lemma NewestMessage(b: Batch)
    requires Built(b)
    ensures forall m <- ToMessages(b) :: m.timestamp <= b.maxTimestamp
    ensures b.maxTimestamp == 0 || exists m <- ToMessages(b) :: m.timestamp == b.maxTimestamp
  {
    forall m <- ToMessages(b) ensures m.timestamp <= b.maxTimestamp {
      var i :| 0 <= i < |b.records| && ToMessages(b)[i] == m;
      assert b.records[i] in b.records;
    }
    if b.maxTimestamp != 0 {
      var r :| r in b.records && b.baseTimestamp + r.timestampDelta == b.maxTimestamp;
      var i :| 0 <= i < |b.records| && b.records[i] == r;
      assert ToMessages(b)[i] in ToMessages(b);
    }
  }

  class OpenBatch {
    var b: Batch

    constructor (baseOffset: nat, now: int)
      ensures b == Batch(baseOffset, now, 0, NEW_FLAGS, 0, []) && Built(b) && !b.flags.compressed
    {
      b := Batch(baseOffset, now, 0, NEW_FLAGS, 0, []);
    }

    method Append(value: Option<Bytes>, key: Option<Bytes>, headers: map<Bytes, Bytes>, now: int)
      requires Built(b)
      modifies this
      ensures b == Appended(old(b), value, key, headers, now) && Built(b)
      ensures ToMessages(b) == ToMessages(old(b))
                + [Message(old(b).baseOffset + |old(b).records| % TWO32, now, key, value, headers)]
    {
      AppendedBuilt(b, value, key, headers, now);
      AppendedMessages(b, value, key, headers, now);
      var record := Record(|b.records| % TWO32, now - b.baseTimestamp, None, value, map[]);
      if key.Some? {
        record := record.(key := key);
        b := b.(flags := b.flags.(hasKeys := true));
      }
      if headers != map[] {
        record := record.(headers := headers);
        b := b.(flags := b.flags.(hasHeaders := true));
      }
      if now > b.maxTimestamp {
        b := b.(maxTimestamp := now);
      }
      b := b.(records := b.records + [record]);
    }

    /** Batch.Encode: the bytes, and the compression flag left in the batch. */
    method EncodeTo(codec: Codec, ws: seq<Walk>) returns (r: Result<Bytes, Error>)
      requires WellFormedBatch(b, ws)
      modifies this
      ensures match Encode(codec, old(b), ws)
              case Ok(sb) => r == Ok(sb.0) && b == sb.1
              case Err(e) => r == Err(e) && b == old(b)
    {
      hide PutRecords, WellFormedRecords;
      if b.records == [] {
        return Err(EmptyBatch);
      }
      var data := EncodeRecords(b.records, ws);
      if b.compression != 0 && |data| > COMPRESS_ABOVE {
        var small := codec.compress(b.compression, data);
        if small.None? {
          return Err(CompressionFailed);
        }
        if |small.value| < |data| {
          b := b.(flags := b.flags.(compressed := true));
          data := small.value;
        } else {
          b := b.(flags := b.flags.(compressed := false));
        }
      }
      var frame := WriteFrame(codec, b, b.flags, data);
      r := Ok(frame);
    }
  }

  // ---------------------------------------------------------------------------
  // Reading a batch back

  method DecodeOptional(rd: BufferReader) returns (r: Result<Option<Bytes>, ReadError>)
    requires rd.Valid()
    modifies rd
    ensures rd.Valid() && rd.Took(r, ReadOptional(rd.buf, old(rd.pos)), old(rd.pos))
  {
    var n := rd.ReadSigned();
    if n.Err? {
      return Err(n.error);
    } else if n.value < 0 {
      return Ok(None);
    }
    var b := rd.ReadRawBytes(n.value);
    r := if b.Ok? then Ok(Some(b.value)) else Err(b.error);
  }

  method DecodeHeaders(rd: BufferReader) returns (r: Result<map<Bytes, Bytes>, ReadError>)
    requires rd.Valid()
    modifies rd
    ensures rd.Valid() && rd.Took(r, ReadHeaderMap(rd.buf, old(rd.pos)), old(rd.pos))
  {
    hide ReadBytes;
    var count := rd.ReadUnsigned();
    if count.Err? {
      return Err(count.error);
    }
    var headers: map<Bytes, Bytes> := map[];
    ghost var start := rd.pos;
    for j := 0 to count.value
      invariant rd.Valid() && start <= rd.pos
      invariant ReadHeaders(rd.buf, start, count.value, map[]) == ReadHeaders(rd.buf, rd.pos, count.value - j, headers)
    {
      var k := rd.ReadPrefixed();
      if k.Err? {
        return Err(k.error);
      }
      var v := rd.ReadPrefixed();
      if v.Err? {
        return Err(v.error);
      }
      headers := headers[k.value := v.value];
    }
    r := Ok(headers);
  }

  method DecodeRecord(rd: BufferReader) returns (r: Result<Record, ReadError>)
    requires rd.Valid()
    modifies rd
    ensures rd.Valid() && rd.Took(r, ReadRecord(rd.buf, old(rd.pos)), old(rd.pos))
  {
    hide ReadUvarint, ReadVarint, ReadOptional, ReadHeaderMap;
    var offset := rd.ReadUnsigned();
    if offset.Err? {
      return Err(offset.error);
    }
    var time := rd.ReadSigned();
    if time.Err? {
      return Err(time.error);
    }
    var key := DecodeOptional(rd);
    if key.Err? {
      return Err(key.error);
    }
    var value := DecodeOptional(rd);
    if value.Err? {
      return Err(value.error);
    }
    var headers := DecodeHeaders(rd);
    if headers.Err? {
      return Err(headers.error);
    }
    r := Ok(Record(offset.value % TWO32, time.value, key.value, value.value, headers.value));
  }

  function Prepend(rs: seq<Record>, r: Result<seq<Record>, ReadError>): Result<seq<Record>, ReadError> {
    if r.Ok? then Ok(rs + r.value) else r
  }

  lemma PrependNone(r: Result<seq<Record>, ReadError>)
    ensures Prepend([], r) == r
  {
    assert r.Ok? ==> [] + r.value == r.value;
  }

  lemma PrependOne(rs: seq<Record>, one: Record, r: Result<seq<Record>, ReadError>)
    ensures Prepend(rs, Prepend([one], r)) == Prepend(rs + [one], r)
  {
    assert r.Ok? ==> rs + ([one] + r.value) == rs + [one] + r.value;
  }

  /** decodeRecords. */
  method DecodeRecords(data: Bytes, count: nat) returns (r: Result<seq<Record>, ReadError>)
    ensures r == ReadRecords(data, 0, count)
  {
    hide ReadRecord;
    var rd := new BufferReader(data);
    var records := [];
    PrependNone(ReadRecords(data, 0, count));
    for i := 0 to count
      invariant rd.Valid() && fresh(rd) && rd.buf == data
      invariant ReadRecords(data, 0, count) == Prepend(records, ReadRecords(data, rd.pos, count - i))
    {
      var one := DecodeRecord(rd);
      if one.Err? {
        return Err(one.error);
      }
      PrependOne(records, one.value, ReadRecords(data, rd.pos, count - i - 1));
      records := records + [one.value];
    }
    assert records + [] == records;
    r := Ok(records);
  }

  /** The header fields, one read after the other. */
  method DecodeHeader(rd: BufferReader) returns (h: Header)
    requires rd.pos == 0 && HEADER <= |rd.buf|
    modifies rd
    ensures h == ReadHeader(rd.buf) && rd.pos == HEADER
  {
    hide GetFixed;
    var magic := rd.ReadUint(4);
    var crc := rd.ReadUint(4);
    var base := rd.ReadUint(8);
    var length := rd.ReadUint(4);
    var count := rd.ReadUint(2);
    var flags := rd.ReadUint(2);
    var compression := rd.ReadUint(1);
    var version := rd.ReadUint(1);
    var reserved := rd.ReadUint(2);
    var baseTime := rd.ReadUint(8);
    var maxTime := rd.ReadUint(8);
    h := Header(magic.value, crc.value, base.value, length.value, count.value, flags.value,
                compression.value, version.value, baseTime.value, maxTime.value);
  }

  /** DecodeBatch, as it runs. */
  method Decode(codec: Codec, data: Bytes) returns (r: Result<Batch, Error>)
    ensures r == DecodeBatch(codec, data)
  {
    hide ReadRecords, GetFixed, Pow256, ReadHeader;
    if |data| < HEADER {
      return Err(InvalidBatch);
    }
    var rd := new BufferReader(data);
    var h := DecodeHeader(rd);
    if h.magic != MAGIC {
      return Err(InvalidMagic);
    } else if h.crc != codec.checksum(data[8..]) {
      return Err(CrcMismatch);
    } else if h.version > VERSION {
      return Err(UnsupportedVersion(h.version));
    }
    HeaderFits(data);
    var raw := rd.ReadRawBytes(h.length);
    if raw.Err? {
      return Err(ReadFailed(raw.error));
    }
    var plain := Some(raw.value);
    if OfWord(h.flags).compressed {
      plain := codec.decompress(h.compression, raw.value);
      if plain.None? {
        return Err(DecompressionFailed);
      }
    }
    var records := DecodeRecords(plain.value, h.count);
    if records.Err? {
      return Err(ReadFailed(records.error));
    }
    r := Ok(Batch(h.baseOffset, FromUint64(h.baseTimestamp), FromUint64(h.maxTimestamp), OfWord(h.flags),
                  h.compression, records.value));
  }

  lemma HeaderFits(s: Bytes)
    requires HEADER <= |s|
    ensures var h := ReadHeader(s);
      h.compression < 256 && h.baseTimestamp < TWO64 && h.maxTimestamp < TWO64 && h.count < TWO16 && h.length < TWO32
  {
    Widths();
  }

  // ---------------------------------------------------------------------------
  // Messages

  datatype Message = Message(
    offset: nat, timestamp: int, key: Option<Bytes>, value: Option<Bytes>, headers: map<Bytes, Bytes>)

  function MessageAt(b: Batch, offset: nat, r: Record): Message {
    Message(offset, b.baseTimestamp + r.timestampDelta, r.key, r.value, r.headers)
  }

  function ToMessages(b: Batch): seq<Message> {
    seq(|b.records|,
        i requires 0 <= i < |b.records| => MessageAt(b, b.baseOffset + b.records[i].offsetDelta, b.records[i]))
  }

  function GetMessage(b: Batch, offset: nat): Option<Message> {
    if b.baseOffset <= offset < b.baseOffset + |b.records|
    then Some(MessageAt(b, offset, b.records[offset - b.baseOffset]))
    else None
  }

  /** Asking for one offset and listing the batch agree, in a batch built by Append. */
  lemma MessagesAgree(b: Batch, i: nat)
    requires Built(b) && i < |b.records| < TWO32
    ensures GetMessage(b, b.baseOffset + i) == Some(ToMessages(b)[i]) && ToMessages(b)[i].offset == b.baseOffset + i
  {
  }
}
