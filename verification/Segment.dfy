/**
 One segment of a log: a file of batches, and what the segment remembers of it.
 */
module Segments {
  import opened Prelude
  import opened Encoding
  import opened Batches
  import opened MapWalks
  import opened Recovery

  datatype SegmentError =
    | SegmentClosed
    | SegmentReadonly
    | OffsetOutOfRange
    | EncodeFailed(cause: Error)
    | DecodeFailed(cause: Error)
    | WriteFailed

  // ---------------------------------------------------------------------------
  // What a file holds

  /** A batch the log accepts: built record by record, its count within the field's 16 bits. */
  ghost predicate Storable(b: Batch) {
    0 < |b.records| < TWO16 && Built(b)
  }

  function NextOf(base: nat, bs: seq<Batch>): nat {
    if bs == [] then base else bs[|bs| - 1].NextOffset()
  }

  ghost predicate LinkAt(base: nat, bs: seq<Batch>, i: nat)
    requires i < |bs|
  {
    Storable(bs[i]) && bs[i].baseOffset == if i == 0 then base else bs[i - 1].NextOffset()
  }

  /** The batches follow one another from the base offset without a gap. */
  ghost predicate Chain(base: nat, bs: seq<Batch>) {
    forall i: nat | i < |bs| :: LinkAt(base, bs, i)
  }

  ghost predicate Decodes(codec: Codec, file: Bytes, p: Position, b: Batch) {
    && p.offset == b.baseOffset && p.position + p.size <= |file|
    && DecodeBatch(codec, file[p.position..p.position + p.size]) == Ok(b)
  }

  ghost predicate Holds(codec: Codec, file: Bytes, ps: seq<Position>, bs: seq<Batch>) {
    |ps| == |bs| && forall i: nat | i < |bs| :: Decodes(codec, file, ps[i], bs[i])
  }

  /** The messages of a segment, oldest first. */
  function Flatten(bs: seq<Batch>): seq<Message> {
    if bs == [] then [] else Flatten(bs[..|bs| - 1]) + ToMessages(bs[|bs| - 1])
  }

  lemma ChainFront(base: nat, bs: seq<Batch>, n: nat)
    requires Chain(base, bs) && n <= |bs|
    ensures Chain(base, bs[..n])
  {
    forall i: nat | i < n ensures LinkAt(base, bs[..n], i) {
      assert LinkAt(base, bs, i);
    }
  }

  lemma ChainLonger(base: nat, bs: seq<Batch>, b: Batch)
    requires Chain(base, bs) && Storable(b) && b.baseOffset == NextOf(base, bs)
    ensures Chain(base, bs + [b])
  {
    forall i: nat | i <= |bs| ensures LinkAt(base, bs + [b], i) {
      assert i < |bs| ==> LinkAt(base, bs, i);
    }
  }

  lemma {:induction false} FlattenLength(base: nat, bs: seq<Batch>)
    requires Chain(base, bs)
    ensures base + |Flatten(bs)| == NextOf(base, bs)
  {
    if bs != [] {
      var n := |bs| - 1;
      ChainFront(base, bs, n);
      FlattenLength(base, bs[..n]);
      assert LinkAt(base, bs, n);
    }
  }

  /** Batches starting at or below an offset come before those starting above it. */
  lemma {:induction false} ChainOrdered(base: nat, bs: seq<Batch>, i: nat, j: nat)
    requires Chain(base, bs) && i < j < |bs|
    ensures bs[i].NextOffset() <= bs[j].baseOffset && base <= bs[i].baseOffset
    decreases j
  {
    assert LinkAt(base, bs, j) && LinkAt(base, bs, i);
    if i < j - 1 {
      ChainOrdered(base, bs, i, j - 1);
      assert LinkAt(base, bs, j - 1);
    } else if i > 0 {
      ChainOrdered(base, bs, i - 1, i);
    }
  }

  lemma ChainBounds(base: nat, bs: seq<Batch>, i: nat)
    requires Chain(base, bs) && i < |bs|
    ensures base <= bs[i].baseOffset < bs[i].NextOffset() <= NextOf(base, bs)
  {
    assert LinkAt(base, bs, i) && LinkAt(base, bs, |bs| - 1);
    if i < |bs| - 1 {
      ChainOrdered(base, bs, i, |bs| - 1);
    } else if i > 0 {
      ChainOrdered(base, bs, i - 1, i);
    }
  }

  /** The messages of one batch stand in the flat list at the batch's own offsets. */
  lemma {:induction false} FlattenSlice(base: nat, bs: seq<Batch>, i: nat)
    requires Chain(base, bs) && i < |bs|
    ensures base <= bs[i].baseOffset <= bs[i].NextOffset() <= base + |Flatten(bs)|
    ensures Flatten(bs)[bs[i].baseOffset - base..bs[i].NextOffset() - base] == ToMessages(bs[i])
    decreases |bs|
  {
    FlattenLength(base, bs);
    ChainBounds(base, bs, i);
    var n := |bs| - 1;
    ChainFront(base, bs, n);
    FlattenLength(base, bs[..n]);
    assert LinkAt(base, bs, n);
    var front := Flatten(bs[..n]);
    if i < n {
      FlattenSlice(base, bs[..n], i);
      var lo, hi := bs[i].baseOffset - base, bs[i].NextOffset() - base;
      assert Flatten(bs)[lo..hi] == front[lo..hi];
    }
  }

  lemma FlattenAt(base: nat, bs: seq<Batch>, i: nat, offset: nat)
    requires Chain(base, bs) && i < |bs| && bs[i].baseOffset <= offset < bs[i].NextOffset()
    ensures base <= offset < base + |Flatten(bs)| && GetMessage(bs[i], offset) == Some(Flatten(bs)[offset - base])
    ensures Flatten(bs)[offset - base].offset == offset
  {
    hide Flatten, ToMessages, Built;
    FlattenSlice(base, bs, i);
    assert LinkAt(base, bs, i);
    var k := offset - bs[i].baseOffset;
    MessagesAgree(bs[i], k);
    assert Flatten(bs)[bs[i].baseOffset - base..bs[i].NextOffset() - base][k] == Flatten(bs)[offset - base];
  }

  lemma HoldsLonger(codec: Codec, file: Bytes, ps: seq<Position>, bs: seq<Batch>, data: Bytes, b: Batch)
    requires Holds(codec, file, ps, bs) && DecodeBatch(codec, data) == Ok(b)
    ensures Holds(codec, file + data, ps + [Position(b.baseOffset, |file|, |data|)], bs + [b])
  {
    hide DecodeBatch;
    var ps' := ps + [Position(b.baseOffset, |file|, |data|)];
    forall i: nat | i <= |bs| ensures Decodes(codec, file + data, ps'[i], (bs + [b])[i]) {
      if i < |bs| {
        assert Decodes(codec, file, ps[i], bs[i]);
        assert (file + data)[ps[i].position..ps[i].position + ps[i].size] ==
          file[ps[i].position..ps[i].position + ps[i].size];
      } else {
        assert (file + data)[|file|..|file| + |data|] == data;
      }
    }
  }

  /** The file, the summary and the batches describe one another. */
  ghost predicate Image(codec: Codec, base: nat, file: Bytes, known: Summary, bs: seq<Batch>) {
    && ScanFrom(file, 0, NewSummary(base)) == Ok(known) && known.size == |file|
    && WellFramed(codec, file)
    && Holds(codec, file, known.positions, bs)
    && Chain(base, bs) && known.nextOffset == NextOf(base, bs)
  }

  lemma ImageEmpty(codec: Codec, base: nat)
    ensures Image(codec, base, [], NewSummary(base), [])
  {
  }

  lemma ImageLonger(codec: Codec, base: nat, file: Bytes, known: Summary, bs: seq<Batch>, f: Frame, b: Batch)
    requires Lawful(codec) && Image(codec, base, file, known, bs) && IsFrame(codec, f)
    requires Storable(b) && b.baseOffset == f.baseOffset == known.nextOffset && |b.records| == f.count
    requires DecodeBatch(codec, f.bytes) == Ok(b)
    ensures Image(codec, base, file + f.bytes, Noted(known, f), bs + [b])
  {
    hide Lawful, IsFrame, DecodeBatch, ScanFrom, WellFramed, Holds, Chain, Storable;
    ScanFindsAppend(codec, file, base, f);
    AppendKeepsSound(codec, file, f);
    HoldsLonger(codec, file, known.positions, bs, f.bytes, b);
    ChainLonger(base, bs, b);
  }

  // ---------------------------------------------------------------------------
  // How a file came to be

  /** The bytes of these frames, one after the other. */
  function Join(fs: seq<Frame>): Bytes {
    if fs == [] then [] else Join(fs[..|fs| - 1]) + fs[|fs| - 1].bytes
  }

  function KnownOf(base: nat, fs: seq<Frame>): Summary {
    if fs == [] then NewSummary(base) else Noted(KnownOf(base, fs[..|fs| - 1]), fs[|fs| - 1])
  }

  ghost predicate Carries(codec: Codec, f: Frame, b: Batch) {
    IsFrame(codec, f) && f.baseOffset == b.baseOffset && f.count == |b.records| && DecodeBatch(codec, f.bytes) == Ok(b)
  }

  /** The frames were appended in turn for these batches. */
  ghost predicate Written(codec: Codec, base: nat, fs: seq<Frame>, bs: seq<Batch>) {
    |fs| == |bs| && Chain(base, bs) && forall i: nat | i < |bs| :: Carries(codec, fs[i], bs[i])
  }

  ghost predicate History(codec: Codec, base: nat, file: Bytes, known: Summary, fs: seq<Frame>, bs: seq<Batch>) {
    Written(codec, base, fs, bs) && file == Join(fs) && known == KnownOf(base, fs)
  }

  lemma WrittenFront(codec: Codec, base: nat, fs: seq<Frame>, bs: seq<Batch>, k: nat)
    requires Written(codec, base, fs, bs) && k <= |bs|
    ensures Written(codec, base, fs[..k], bs[..k])
  {
    hide Carries, Chain;
    ChainFront(base, bs, k);
  }

  lemma WrittenLonger(codec: Codec, base: nat, fs: seq<Frame>, bs: seq<Batch>, f: Frame, b: Batch)
    requires Written(codec, base, fs, bs) && Carries(codec, f, b) && Storable(b) && b.baseOffset == NextOf(base, bs)
    ensures Written(codec, base, fs + [f], bs + [b]) && Join(fs + [f]) == Join(fs) + f.bytes
    ensures KnownOf(base, fs + [f]) == Noted(KnownOf(base, fs), f)
  {
    hide Carries, Chain, Storable;
    ChainLonger(base, bs, b);
    assert (fs + [f])[..|fs|] == fs;
  }

  /** Whatever was appended, scanning the bytes rebuilds what the segment noted as it went. */
  lemma {:induction false} WrittenImage(codec: Codec, base: nat, fs: seq<Frame>, bs: seq<Batch>)
    requires Lawful(codec) && Written(codec, base, fs, bs)
    ensures Image(codec, base, Join(fs), KnownOf(base, fs), bs)
    decreases |fs|
  {
    hide Lawful, IsFrame, DecodeBatch, Image, Noted, Storable;
    if fs == [] {
      ImageEmpty(codec, base);
    } else {
      var n := |fs| - 1;
      assert Carries(codec, fs[n], bs[n]) && LinkAt(base, bs, n);
      WrittenFront(codec, base, fs, bs, n);
      WrittenImage(codec, base, fs[..n], bs[..n]);
      KnownNext(codec, base, Join(fs[..n]), KnownOf(base, fs[..n]), bs[..n]);
      ImageLonger(codec, base, Join(fs[..n]), KnownOf(base, fs[..n]), bs[..n], fs[n], bs[n]);
      assert bs[..n] + [bs[n]] == bs;
    }
  }

  lemma WrittenGrew(codec: Codec, base: nat, fs: seq<Frame>, bs: seq<Batch>)
    requires Written(codec, base, fs, bs)
    ensures bs != [] ==> base < NextOf(base, bs)
  {
    hide Carries;
    if bs != [] {
      ChainBounds(base, bs, 0);
    }
  }

  lemma KnownNext(codec: Codec, base: nat, file: Bytes, known: Summary, bs: seq<Batch>)
    requires Image(codec, base, file, known, bs)
    ensures known.nextOffset == NextOf(base, bs) && known.size == |file| && WellFramed(codec, file)
  {
  }

  lemma {:induction false} JoinGrows(fs: seq<Frame>, k: nat)
    requires k <= |fs|
    ensures Join(fs[..k]) <= Join(fs)
    decreases |fs|
  {
    if k < |fs| {
      var n := |fs| - 1;
      JoinGrows(fs[..n], k);
      assert fs[..n][..k] == fs[..k];
    } else {
      assert fs[..k] == fs;
    }
  }

  /** The whole frames that a cut at n leaves, and the piece of the next one. */
  lemma {:induction false} CutAt(fs: seq<Frame>, n: nat) returns (k: nat)
    requires n <= |Join(fs)|
    ensures k <= |fs| && |Join(fs[..k])| <= n
    ensures k == |fs| ==> n == |Join(fs)|
    ensures k < |fs| ==>
      n - |Join(fs[..k])| < |fs[k].bytes| && Join(fs)[..n] == Join(fs[..k]) + fs[k].bytes[..n - |Join(fs[..k])|]
    decreases |fs|
  {
    assert fs[..|fs|] == fs;
    if n == |Join(fs)| {
      k := |fs|;
    } else {
      var m := |fs| - 1;
      if |Join(fs[..m])| <= n {
        k := m;
      } else {
        k := CutAt(fs[..m], n);
        assert fs[..m][..k] == fs[..k];
        assert Join(fs)[..n] == Join(fs[..m])[..n];
      }
    }
  }

  /**
   A crash cuts the file anywhere. What recovery then keeps is exactly the whole
   batches before the cut: a segment with a front of the same batches.
   */
  lemma CrashLeavesFront(codec: Codec, base: nat, fs: seq<Frame>, bs: seq<Batch>, n: nat) returns (k: nat)
    requires Lawful(codec) && Written(codec, base, fs, bs) && n <= |Join(fs)|
    ensures k <= |fs| == |bs| && Written(codec, base, fs[..k], bs[..k])
    ensures Recovered(codec, Join(fs)[..n]) == Join(fs[..k])
    ensures |Join(fs[..k])| <= n && (k < |fs| ==> n < |Join(fs[..k + 1])|)
  {
    hide Lawful, Carries, Chain, Recovered, Image, WellFramed;
    k := CutAt(fs, n);
    WrittenFront(codec, base, fs, bs, k);
    WrittenImage(codec, base, fs[..k], bs[..k]);
    KnownNext(codec, base, Join(fs[..k]), KnownOf(base, fs[..k]), bs[..k]);
    if k == |fs| {
      assert fs[..k] == fs && Join(fs)[..n] == Join(fs);
      SoundFileKept(codec, Join(fs));
    } else {
      assert fs[..k + 1][..k] == fs[..k];
      EncodesFrame(codec, fs, bs, k);
      TornAppendRecovers(codec, Join(fs[..k]), fs[k], n - |Join(fs[..k])|);
    }
  }

  lemma EncodesFrame(codec: Codec, fs: seq<Frame>, bs: seq<Batch>, k: nat)
    requires |fs| == |bs| && k < |fs| && forall i: nat | i < |bs| :: Carries(codec, fs[i], bs[i])
    ensures IsFrame(codec, fs[k])
  {
    assert Carries(codec, fs[k], bs[k]);
  }

  /** What the log asks of a batch before it is given its offset. */
  ghost predicate Appendable(codec: Codec, b: Batch, ws: seq<Walk>) {
    && WellFormedBatch(b, ws) && Built(b) && !b.flags.compressed && |b.records| < TWO16
    && (Encode(codec, b, ws).Ok? ==> |Encode(codec, b, ws).value.0| < HEADER + TWO32)
  }

  /** An encoded batch is a frame that decodes to the batch as encoding leaves it. */
  lemma EncodedIsFrame(codec: Codec, b: Batch, ws: seq<Walk>)
    requires Lawful(codec) && Appendable(codec, b, ws) && Encode(codec, b, ws).Ok?
    ensures var (data, b') := Encode(codec, b, ws).value;
      && IsFrame(codec, Frame(data, b.baseOffset, |b.records|)) && DecodeBatch(codec, data) == Ok(b')
      && Storable(b') && b' == b.(flags := b'.flags)
  {
    hide Lawful, PutRecords, PutFrame, DecodeBatch, WellFormedRecords;
    var (data, b') := Encode(codec, b, ws).value;
    var (flags, payload) := Payload(codec, b, ws).value;
    assert FrameOf(codec, Frame(data, b.baseOffset, |b.records|), b, flags, payload);
    DecodeInvertsEncode(codec, b, ws);
  }

  lemma FlattenOffsets(base: nat, bs: seq<Batch>)
    requires Chain(base, bs)
    ensures base + |Flatten(bs)| == NextOf(base, bs)
    ensures forall i | 0 <= i < |Flatten(bs)| :: Flatten(bs)[i].offset == base + i
  {
    FlattenLength(base, bs);
    forall i | 0 <= i < |Flatten(bs)| ensures Flatten(bs)[i].offset == base + i {
      var k := Containing(base, bs, base + i);
      FlattenAt(base, bs, k, base + i);
    }
  }

  /** Every offset from the base up to the end falls into some batch. */
  lemma {:induction false} Containing(base: nat, bs: seq<Batch>, offset: nat) returns (i: nat)
    requires Chain(base, bs) && base <= offset < NextOf(base, bs)
    ensures i < |bs| && bs[i].baseOffset <= offset < bs[i].NextOffset()
    decreases |bs|
  {
    i := |bs| - 1;
    if offset < bs[i].baseOffset {
      assert LinkAt(base, bs, i);
      ChainFront(base, bs, i);
      i := Containing(base, bs[..i], offset);
    }
  }

  // ---------------------------------------------------------------------------
  // Reading a range, turn by turn

  /** The last batch that starts at or below an offset, which past the end is the last one there is. */
  function BatchFor(bs: seq<Batch>, offset: nat): Option<Batch> {
    if bs == [] then None
    else if bs[|bs| - 1].baseOffset <= offset then Some(bs[|bs| - 1])
    else BatchFor(bs[..|bs| - 1], offset)
  }

  function InRange(ms: seq<Message>, start: nat, end: nat): seq<Message> {
    if ms == [] then []
    else
      var n := |ms| - 1;
      InRange(ms[..n], start, end) + if start <= ms[n].offset < end then [ms[n]] else []
  }

  /** What has been collected, and where to look next. */
  datatype Reading = Reading(got: seq<Message>, current: nat)

  /** One turn of the loop: this batch's messages that are asked for, as far as there is room. */
  function Turn(b: Batch, start: nat, end: nat, max: nat, s: Reading): Reading
    requires |s.got| < max
  {
    var ms := InRange(ToMessages(b), start, end);
    Reading(s.got + ms[..Min(|ms|, max - |s.got|)], b.NextOffset())
  }

  /** The loop for at most so many turns: what it returns, or None if it has not ended by then. */
  function Turns(bs: seq<Batch>, start: nat, end: nat, max: nat, s: Reading, turns: nat): Option<seq<Message>>
    decreases turns
  {
    var b := BatchFor(bs, s.current);
    if s.current >= end || |s.got| >= max || b.None? then Some(s.got)
    else if turns == 0 then None
    else Turns(bs, start, end, max, Turn(b.value, start, end, max, s), turns - 1)
  }

  /** The batch found behind an offset that lies in some batch is that batch. */
  lemma {:induction false} BatchForIs(base: nat, bs: seq<Batch>, offset: nat, i: nat)
    requires Chain(base, bs) && i < |bs| && bs[i].baseOffset <= offset
    requires i + 1 < |bs| ==> offset < bs[i + 1].baseOffset
    ensures BatchFor(bs, offset) == Some(bs[i])
    decreases |bs|
  {
    var n := |bs| - 1;
    if i < n {
      ChainFront(base, bs, n);
      if i + 1 < n {
        ChainOrdered(base, bs, i + 1, n);
        assert LinkAt(base, bs, i + 1);
      }
      BatchForIs(base, bs[..n], offset, i);
    }
  }

  lemma {:induction false} NoBatchBelow(base: nat, bs: seq<Batch>, offset: nat)
    requires Chain(base, bs) && offset < base
    ensures BatchFor(bs, offset) == None
  {
    if bs != [] {
      var n := |bs| - 1;
      ChainBounds(base, bs, n);
      ChainFront(base, bs, n);
      NoBatchBelow(base, bs[..n], offset);
    }
  }

  function Part(ms: seq<Message>, lo: nat, hi: int): seq<Message>
    requires hi <= |ms|
  {
    if lo < hi then ms[lo..hi] else []
  }

  lemma InRangeNext(ms: seq<Message>, n: nat, start: nat, end: nat)
    requires 0 < n <= |ms|
    ensures InRange(ms[..n], start, end)
         == InRange(ms[..n - 1], start, end) + if start <= ms[n - 1].offset < end then [ms[n - 1]] else []
  {
    assert ms[..n][..n - 1] == ms[..n - 1] && ms[..n][n - 1] == ms[n - 1];
  }

  lemma NoneInRange(ms: seq<Message>, start: nat, end: nat)
    ensures InRange(ms[..0], start, end) == []
  {
  }

  lemma PartNone(ms: seq<Message>, lo: nat, hi: int)
    requires hi <= lo && hi <= |ms|
    ensures Part(ms, lo, hi) == []
  {
  }

  lemma PartNext(ms: seq<Message>, lo: nat, n: nat)
    requires lo < n <= |ms|
    ensures Part(ms, lo, n - 1) + [ms[n - 1]] == Part(ms, lo, n)
  {
  }

  lemma SliceMore<T>(s: seq<T>, lo: nat, mid: nat, hi: nat, n: nat)
    requires lo <= mid <= mid + n <= hi <= |s|
    ensures s[lo..mid] + s[mid..hi][..n] == s[lo..mid + n]
  {
  }

  lemma SliceToEnd<T>(s: seq<T>, lo: nat)
    requires lo <= |s|
    ensures s[lo..|s|] == s[lo..]
  {
  }

  /** Of the first n of consecutive messages, those asked for are a slice. */
  lemma {:induction false} InRangeSlice(ms: seq<Message>, n: nat, first: nat, start: nat, end: nat)
    requires n <= |ms| && forall k | 0 <= k < |ms| :: ms[k].offset == first + k
    ensures InRange(ms[..n], start, end) == Part(ms, Max(start, first) - first, Min(end, first + n) - first)
  {
    hide InRange, Part;
    var lo := Max(start, first) - first;
    if n == 0 {
      NoneInRange(ms, start, end);
      PartNone(ms, lo, Min(end, first) - first);
    } else {
      var m := ms[n - 1];
      InRangeSlice(ms, n - 1, first, start, end);
      InRangeNext(ms, n, start, end);
      if m.offset < start {
        PartNone(ms, lo, Min(end, first + n - 1) - first);
        PartNone(ms, lo, Min(end, first + n) - first);
      } else if m.offset < end {
        PartNext(ms, lo, n);
      }
    }
  }

  lemma {:induction false} InRangeFront(ms: seq<Message>, k: nat, start: nat, end: nat)
    requires k <= |ms|
    ensures InRange(ms[..k], start, end) <= InRange(ms, start, end)
  {
    if k < |ms| {
      var n := |ms| - 1;
      assert ms[..k] == ms[..n][..k];
      InRangeFront(ms[..n], k, start, end);
    } else {
      assert ms[..k] == ms;
    }
  }

  /** Collecting until there is no room, or to the end, is taking what there is room for. */
  lemma RoomFor(got: seq<Message>, ms: seq<Message>, k: nat, start: nat, end: nat, max: nat)
    requires |got| < max && k <= |ms|
    requires |got| + |InRange(ms[..k], start, end)| <= max
    requires k == |ms| || |got| + |InRange(ms[..k], start, end)| == max
    ensures var all := InRange(ms, start, end);
      InRange(ms[..k], start, end) == all[..Min(|all|, max - |got|)]
  {
    hide InRange;
    InRangeFront(ms, k, start, end);
    assert ms[..|ms|] == ms;
  }

  /** The messages of a batch are the flat list's at its offsets. */
  lemma BatchInFlat(base: nat, bs: seq<Batch>, i: nat)
    requires Chain(base, bs) && i < |bs|
    ensures base + |Flatten(bs)| == NextOf(base, bs)
    ensures var b := bs[i];
      && base <= b.baseOffset < b.NextOffset() <= NextOf(base, bs) && |ToMessages(b)| == |b.records|
      && ToMessages(b) == Flatten(bs)[b.baseOffset - base..b.NextOffset() - base]
      && forall k | 0 <= k < |b.records| ::
           ToMessages(b)[k] == Flatten(bs)[b.baseOffset + k - base] && ToMessages(b)[k].offset == b.baseOffset + k
  {
    hide Flatten, Built, ToMessages;
    var b := bs[i];
    FlattenSlice(base, bs, i);
    FlattenOffsets(base, bs);
    ChainBounds(base, bs, i);
    var part := Flatten(bs)[b.baseOffset - base..b.NextOffset() - base];
    assert forall k | 0 <= k < |part| :: part[k] == Flatten(bs)[b.baseOffset + k - base];
  }

  /** A turn takes exactly the batch's share of the slice. */
  lemma BatchShare(base: nat, bs: seq<Batch>, i: nat, start: nat, end: nat)
    requires Chain(base, bs) && i < |bs| && base + |Flatten(bs)| == NextOf(base, bs)
    ensures var lo := Max(start, bs[i].baseOffset); var hi := Min(end, bs[i].NextOffset());
      && base <= lo && hi <= base + |Flatten(bs)|
      && InRange(ToMessages(bs[i]), start, end) == if lo < hi then Flatten(bs)[lo - base..hi - base] else []
  {
    hide Flatten, ToMessages, Chain, InRange;
    BatchInFlat(base, bs, i);
    var b, ms := bs[i], ToMessages(bs[i]);
    InRangeSlice(ms, |ms|, b.baseOffset, start, end);
    assert ms[..|ms|] == ms;
    var lo, hi := Max(start, b.baseOffset), Min(end, b.NextOffset());
    if lo < hi {
      assert ms[lo - b.baseOffset..hi - b.baseOffset] == Flatten(bs)[lo - base..hi - base];
    }
  }

  /** The beginning of t t t ..., m messages of it. */
  function Fill(t: seq<Message>, m: nat): (r: seq<Message>)
    requires t != []
    ensures |r| == m
    decreases m
  {
    if m <= |t| then t[..m] else t + Fill(t, m - |t|)
  }

  /**
   What a range that begins inside the log reads as: its slice, and past the end the
   last batch's part of it again and again.
   */
  function RangeOf(base: nat, bs: seq<Batch>, start: nat, end: nat, max: nat): seq<Message>
    requires bs != [] && base <= start < end && start < base + |Flatten(bs)|
  {
    var log := Flatten(bs);
    var next := base + |log|;
    var last := Max(start, bs[|bs| - 1].baseOffset);
    if end <= next || start + max <= next then log[start - base..Min(end, start + max) - base]
    else if last < next && base <= last then log[start - base..] + Fill(log[last - base..], start + max - next)
    else []
  }

  /** The loop never ends: it starts at or past the end of a segment that has something, and wants something. */
  predicate Spins(base: nat, next: nat, start: nat, end: nat, max: nat) {
    0 < max && base < next <= start < end
  }

  /** Nothing is asked for, or it starts below the segment, or the segment is empty. */
  predicate AsksNothing(base: nat, next: nat, start: nat, end: nat, max: nat) {
    max == 0 || end <= start || start < base || next == base
  }

  /** The call ends with the messages of the range that are there: what a caller must see to. */
  predicate ReadsFlat(base: nat, next: nat, start: nat, end: nat, max: nat) {
    AsksNothing(base, next, start, end, max) || (start < next && (end <= next || start + max <= next))
  }

  /** The messages of the range that are there, at most `max` of them. */
  function RangeSlice(base: nat, log: seq<Message>, start: nat, end: nat, max: nat): seq<Message> {
    if start < base || end <= start || base + |log| <= start then []
    else log[start - base..Min(Min(end, base + |log|), start + max) - base]
  }

  /** At the end of a segment that has something a turn reads the last batch again and stays where it is. */
  lemma LastBatchAgain(base: nat, bs: seq<Batch>, start: nat, end: nat, max: nat, s: Reading)
    requires Chain(base, bs) && bs != [] && s.current == NextOf(base, bs) && |s.got| < max
    ensures BatchFor(bs, s.current) == Some(bs[|bs| - 1])
    ensures Turn(bs[|bs| - 1], start, end, max, s).current == s.current
  {
  }

  /** Reading that starts at or past the end never ends, however long one waits. */
  lemma {:induction false} NeverEnds(base: nat, bs: seq<Batch>, start: nat, end: nat, max: nat, s: Reading, turns: nat)
    requires Chain(base, bs) && Spins(base, NextOf(base, bs), start, end, max)
    requires NextOf(base, bs) <= s.current < end && |s.got| < max
    ensures Turns(bs, start, end, max, s, turns) == None
    decreases turns
  {
    hide Flatten, ToMessages, Storable;
    var b := bs[|bs| - 1];
    assert BatchFor(bs, s.current) == Some(b) by {
      ChainBounds(base, bs, |bs| - 1);
    }
    FlattenLength(base, bs);
    BatchShare(base, bs, |bs| - 1, start, end);
    if turns > 0 {
      NeverEnds(base, bs, start, end, max, Turn(b, start, end, max, s), turns - 1);
    }
  }

  /** At the end with room left, the last batch's part is read until there is none. */
  lemma {:induction false} EndsFilled(bs: seq<Batch>, t: seq<Message>, start: nat, end: nat, max: nat, s: Reading,
                                      turns: nat)
    requires bs != [] && t == InRange(ToMessages(bs[|bs| - 1]), start, end) && t != []
    requires bs[|bs| - 1].NextOffset() == s.current < end && |s.got| < max
    ensures var r := Turns(bs, start, end, max, s, turns);
      (r.Some? ==> r.value == s.got + Fill(t, max - |s.got|)) && (max - |s.got| <= turns ==> r.Some?)
    decreases turns
  {
    hide InRange, ToMessages;
    var b, m := bs[|bs| - 1], max - |s.got|;
    if turns > 0 {
      var s' := Turn(b, start, end, max, s);
      assert s'.got == s.got + t[..Min(|t|, m)];
      if |t| < m {
        EndsFilled(bs, t, start, end, max, s', turns - 1);
        assert s.got + t + Fill(t, m - |t|) == s.got + Fill(t, m);
      } else {
        assert s'.got == s.got + Fill(t, m) && |s'.got| == max;
      }
    }
  }

  /** Where the collected messages end once the loop has come to `current`. */
  function Reached(start: nat, end: nat, max: nat, current: nat): nat {
    Min(start + max, Max(start, Min(end, current)))
  }

  lemma ReachedHere(start: nat, end: nat, max: nat, current: nat, next: nat)
    requires start <= current < end && current < next
    ensures Reached(start, end, max, current) == Min(start + max, current)
    ensures current - start < max ==>
      Reached(start, end, max, next) == current + Min(Min(end, next) - current, max - (current - start))
  {
  }

  /** The slice so far has been collected. */
  ghost predicate SliceSoFar(base: nat, log: seq<Message>, start: nat, end: nat, max: nat, s: Reading) {
    && base <= start <= s.current <= base + |log|
    && s.got == log[start - base..Reached(start, end, max, s.current) - base]
  }

  /** Halfway: the slice so far has been collected, and the next batch starts where the last one ended. */
  ghost predicate Halfway(base: nat, bs: seq<Batch>, start: nat, end: nat, max: nat, s: Reading, i: nat) {
    && Chain(base, bs) && base + |Flatten(bs)| == NextOf(base, bs) && bs != []
    && base <= start < end && start < NextOf(base, bs) && 0 < max
    && SliceSoFar(base, Flatten(bs), start, end, max, s)
    && i <= |bs| && (i == |bs| ==> s.current == NextOf(base, bs))
    && (i < |bs| ==>
          bs[i].baseOffset <= s.current < bs[i].NextOffset() && (s.current == start || s.current == bs[i].baseOffset))
  }

  /** Taking one batch's share behind the slice so far gives the longer slice. */
  lemma ShareTaken(base: nat, log: seq<Message>, start: nat, end: nat, max: nat, s: Reading, b: Batch)
    requires SliceSoFar(base, log, start, end, max, s) && s.current < end && |s.got| < max
    requires s.current < b.NextOffset() <= base + |log|
    requires InRange(ToMessages(b), start, end) == log[s.current - base..Min(end, b.NextOffset()) - base]
    ensures var s' := Turn(b, start, end, max, s);
      SliceSoFar(base, log, start, end, max, s') && |s.got| < |s'.got| && s'.current == b.NextOffset()
  {
    hide InRange, ToMessages, Reached;
    var hi := Min(end, b.NextOffset());
    ReachedHere(start, end, max, s.current, b.NextOffset());
    SliceMore(log, start - base, s.current - base, hi - base, Min(hi - s.current, max - |s.got|));
  }

  lemma NextStarts(base: nat, bs: seq<Batch>, i: nat)
    requires Chain(base, bs) && i < |bs|
    ensures base <= bs[i].baseOffset < bs[i].NextOffset() <= NextOf(base, bs)
    ensures if i + 1 < |bs| then bs[i].NextOffset() == bs[i + 1].baseOffset < bs[i + 1].NextOffset()
            else bs[i].NextOffset() == NextOf(base, bs)
  {
    ChainBounds(base, bs, i);
    if i + 1 < |bs| {
      assert LinkAt(base, bs, i + 1);
    }
  }

  lemma HalfwayTurn(base: nat, bs: seq<Batch>, start: nat, end: nat, max: nat, s: Reading, i: nat)
    requires Halfway(base, bs, start, end, max, s, i) && i < |bs| && s.current < end && |s.got| < max
    ensures BatchFor(bs, s.current) == Some(bs[i])
    ensures var s' := Turn(bs[i], start, end, max, s);
      Halfway(base, bs, start, end, max, s', i + 1) && |s.got| < |s'.got|
  {
    hide Flatten, ToMessages, InRange, Chain, BatchFor, Turn, Reached;
    NextStarts(base, bs, i);
    BatchForIs(base, bs, s.current, i);
    BatchShare(base, bs, i, start, end);
    ShareTaken(base, Flatten(bs), start, end, max, s, bs[i]);
  }

  lemma HalfwayEnd(base: nat, bs: seq<Batch>, start: nat, end: nat, max: nat, s: Reading, i: nat)
    requires Halfway(base, bs, start, end, max, s, i)
    ensures i <= |bs| && bs != []
  {
  }

  lemma HalfwayDone(base: nat, bs: seq<Batch>, start: nat, end: nat, max: nat, s: Reading, i: nat)
    requires Halfway(base, bs, start, end, max, s, i) && (s.current >= end || |s.got| >= max)
    ensures s.got == RangeOf(base, bs, start, end, max)
  {
    hide Flatten, Chain, Fill;
  }

  /** Everything from the start on has been collected. */
  lemma SoFarAll(base: nat, log: seq<Message>, start: nat, end: nat, max: nat, s: Reading)
    requires SliceSoFar(base, log, start, end, max, s) && s.current == base + |log| < end && |s.got| < max
    ensures s.got == log[start - base..] && base + |log| < start + max && max - |s.got| == start + max - (base + |log|)
  {
    SliceToEnd(log, start - base);
  }

  /** All collected and more asked for: what is read again is the last batch's part of the range. */
  lemma HalfwayFill(base: nat, bs: seq<Batch>, start: nat, end: nat, max: nat, s: Reading) returns (t: seq<Message>)
    requires Halfway(base, bs, start, end, max, s, |bs|) && s.current < end && |s.got| < max
    ensures t == InRange(ToMessages(bs[|bs| - 1]), start, end) && t != [] && bs[|bs| - 1].NextOffset() == s.current
    ensures s.got + Fill(t, max - |s.got|) == RangeOf(base, bs, start, end, max)
  {
    hide Flatten, Chain, Fill, ToMessages, InRange, SliceSoFar;
    var log, n := Flatten(bs), |bs| - 1;
    ChainBounds(base, bs, n);
    BatchShare(base, bs, n, start, end);
    SoFarAll(base, log, start, end, max, s);
    var last := Max(start, bs[n].baseOffset);
    SliceToEnd(log, last - base);
    t := log[last - base..];
  }

  /** A range that begins inside the segment: what is read, and within how many turns. */
  lemma {:induction false} ReadsInside(base: nat, bs: seq<Batch>, start: nat, end: nat, max: nat, s: Reading, i: nat,
                                       turns: nat)
    requires Halfway(base, bs, start, end, max, s, i)
    ensures var r := Turns(bs, start, end, max, s, turns);
      (r.Some? ==> r.value == RangeOf(base, bs, start, end, max)) && (max <= |s.got| + turns ==> r.Some?)
    decreases turns
  {
    hide Flatten, ToMessages, InRange, Chain, BatchFor, Halfway, RangeOf, Fill, Turn;
    if s.current >= end || |s.got| >= max {
      HalfwayDone(base, bs, start, end, max, s, i);
    } else if i < |bs| {
      HalfwayTurn(base, bs, start, end, max, s, i);
      if turns > 0 {
        ReadsInside(base, bs, start, end, max, Turn(bs[i], start, end, max, s), i + 1, turns - 1);
      }
    } else {
      HalfwayEnd(base, bs, start, end, max, s, i);
      var t := HalfwayFill(base, bs, start, end, max, s);
      EndsFilled(bs, t, start, end, max, s, turns);
    }
  }

  /** What the call answers, if it answers. */
  function RangeRead(base: nat, bs: seq<Batch>, start: nat, end: nat, max: nat): seq<Message> {
    var next := base + |Flatten(bs)|;
    if AsksNothing(base, next, start, end, max) || bs == [] || next <= start then []
    else RangeOf(base, bs, start, end, max)
  }

  /**
   For every range: it never ends exactly if it spins, and otherwise it ends within
   `max` turns with the range read.
   */
  lemma ReadsRange(base: nat, bs: seq<Batch>, start: nat, end: nat, max: nat, turns: nat)
    requires Chain(base, bs)
    ensures base + |Flatten(bs)| == NextOf(base, bs)
    ensures var r := Turns(bs, start, end, max, Reading([], start), turns);
      if Spins(base, NextOf(base, bs), start, end, max) then r == None
      else (r.Some? ==> r.value == RangeRead(base, bs, start, end, max)) && (max <= turns ==> r.Some?)
  {
    hide Flatten, ToMessages, InRange;
    FlattenLength(base, bs);
    var s, next := Reading([], start), NextOf(base, bs);
    if Spins(base, next, start, end, max) {
      NeverEnds(base, bs, start, end, max, s, turns);
    } else if start < base {
      NoBatchBelow(base, bs, start);
    } else if !AsksNothing(base, next, start, end, max) {
      var i := Containing(base, bs, start);
      assert Flatten(bs)[start - base..start - base] == [];
      ReadsInside(base, bs, start, end, max, s, i, turns);
    } else {
      EmptyChain(base, bs);
    }
  }

  lemma FlatRead(base: nat, bs: seq<Batch>, start: nat, end: nat, max: nat)
    requires Chain(base, bs) && ReadsFlat(base, NextOf(base, bs), start, end, max)
    ensures RangeRead(base, bs, start, end, max) == RangeSlice(base, Flatten(bs), start, end, max)
  {
    hide Flatten, Chain;
    FlattenLength(base, bs);
    EmptyChain(base, bs);
    if base <= start < end && max == 0 && start < NextOf(base, bs) {
      assert Flatten(bs)[start - base..start - base] == [];
    }
  }

  /** What a caller gets that stays within the segment. */
  lemma ReadsWithin(base: nat, log: seq<Message>, start: nat, end: nat, max: nat)
    requires base <= start < end <= base + |log|
    ensures var next := base + |log|; ReadsFlat(base, next, start, end, max) && !Spins(base, next, start, end, max)
    ensures RangeSlice(base, log, start, end, max) == log[start - base..Min(end, start + max) - base]
  {
  }

  lemma EmptyChain(base: nat, bs: seq<Batch>)
    requires Chain(base, bs)
    ensures NextOf(base, bs) == base <==> bs == []
  {
    if bs != [] {
      ChainBounds(base, bs, |bs| - 1);
    }
  }

  /** The call ends with the messages of the range that are there if and only if the caller sees to it. */
  lemma ReadsFlatExactly(base: nat, bs: seq<Batch>, start: nat, end: nat, max: nat)
    requires Chain(base, bs)
    ensures (exists turns: nat :: Turns(bs, start, end, max, Reading([], start), turns)
                                  == Some(RangeSlice(base, Flatten(bs), start, end, max)))
            <==> ReadsFlat(base, NextOf(base, bs), start, end, max)
  {
    hide Flatten, Turns, Chain;
    ReadsRange(base, bs, start, end, max, max);
    EmptyChain(base, bs);
    var s, flat := Reading([], start), RangeSlice(base, Flatten(bs), start, end, max);
    if ReadsFlat(base, NextOf(base, bs), start, end, max) {
      FlatRead(base, bs, start, end, max);
      assert Turns(bs, start, end, max, s, max) == Some(flat);
    } else {
      forall turns: nat ensures Turns(bs, start, end, max, s, turns) != Some(flat) {
        ReadsRange(base, bs, start, end, max, turns);
        if !Spins(base, NextOf(base, bs), start, end, max) {
          ChainBounds(base, bs, |bs| - 1);
          assert |RangeOf(base, bs, start, end, max)| == max > |flat|;
        }
      }
    }
  }

  const ONE_RECORD := Batch(0, 0, 0, NEW_FLAGS, 0, [Record(0, 0, None, None, map[])])

  lemma OneChain()
    ensures Chain(0, [ONE_RECORD]) && NextOf(0, [ONE_RECORD]) == 1
  {
    assert LinkAt(0, [ONE_RECORD], 0);
  }

  const ONE_MESSAGE := Message(0, 0, None, None, map[])

  lemma OneMessage()
    ensures ToMessages(ONE_RECORD) == [ONE_MESSAGE]
  {
  }

  lemma InRangeOne(m: Message, start: nat, end: nat)
    requires start <= m.offset < end
    ensures InRange([m], start, end) == [m]
  {
    assert [m][..0] == [] && InRange([], start, end) == [];
  }

  lemma OneTurn(b: Batch, m: Message)
    requires ToMessages(b) == [m] && InRange([m], 0, 2) == [m]
    ensures Turn(b, 0, 2, 2, Reading([], 0)) == Reading([m], b.NextOffset()) && [m] + Fill([m], 1) == [m, m]
  {
    hide ToMessages, InRange;
    assert [m][..1] == [m];
  }

  /** A segment with one message: asked for offsets 0 and 1 it answers the message twice, asked for offset 1 never. */
  lemma PastTheEnd()
    ensures Chain(0, [ONE_RECORD]) && NextOf(0, [ONE_RECORD]) == 1 && Flatten([ONE_RECORD]) == [ONE_MESSAGE]
    ensures Turns([ONE_RECORD], 0, 2, 2, Reading([], 0), 2) == Some([ONE_MESSAGE, ONE_MESSAGE])
    ensures forall turns: nat :: Turns([ONE_RECORD], 1, 2, 1, Reading([], 1), turns) == None
  {
    hide ToMessages, InRange, Turn, Fill, Chain;
    var bs, m := [ONE_RECORD], ONE_MESSAGE;
    OneChain();
    OneMessage();
    assert bs[..0] == [] && [] + [m] == [m];
    InRangeOne(m, 0, 2);
    OneTurn(ONE_RECORD, m);
    EndsFilled(bs, [m], 0, 2, 2, Reading([m], 1), 1);
    assert Turns(bs, 0, 2, 2, Reading([], 0), 2) == Turns(bs, 0, 2, 2, Reading([m], 1), 1);
    forall turns: nat ensures Turns(bs, 1, 2, 1, Reading([], 1), turns) == None {
      NeverEnds(0, bs, 1, 2, 1, Reading([], 1), turns);
    }
  }

  class Segment {
    const codec: Codec
    const baseOffset: nat
    var file: Bytes
    var positions: seq<Position>
    var nextOffset: nat
    var msgCount: nat
    var size: nat
    var readonly: bool
    var closed: bool
    ghost var batches: seq<Batch>
    ghost var frames: seq<Frame>

    function Known(): Summary
      reads this
    {
      Summary(positions, nextOffset, msgCount, size)
    }

    ghost predicate Valid()
      reads this
    {
      && Lawful(codec) && Image(codec, baseOffset, file, Known(), batches)
      && History(codec, baseOffset, file, Known(), frames, batches)
    }

    /** The messages at baseOffset, baseOffset + 1, ... */
    ghost function Log(): (log: seq<Message>)
      requires Valid()
      reads this
      ensures baseOffset + |log| == nextOffset
    {
      FlattenLength(baseOffset, batches);
      Flatten(batches)
    }

    /** Each message carries the offset it stands at. */
    lemma LogOffsets()
      requires Valid()
      ensures forall i | 0 <= i < |Log()| :: Log()[i].offset == baseOffset + i
    {
      FlattenOffsets(baseOffset, batches);
    }

    /** CreateSegment. */
    constructor Create(codec: Codec, base: nat)
      requires Lawful(codec)
      ensures Valid() && baseOffset == base && this.codec == codec && nextOffset == base && Log() == []
      ensures !readonly && !closed
    {
      this.codec, baseOffset := codec, base;
      file, positions, nextOffset, msgCount, size := [], [], base, 0, 0;
      readonly, closed, batches, frames := false, false, [], [];
      new;
      ImageEmpty(codec, base);
    }

    /** OpenSegment on a file these frames were written to: scanning finds everything the segment knew. */
    constructor Open(codec: Codec, base: nat, file: Bytes, readonly: bool, ghost fs: seq<Frame>, ghost bs: seq<Batch>)
      requires Lawful(codec) && Written(codec, base, fs, bs) && file == Join(fs)
      ensures Valid() && baseOffset == base && this.codec == codec && this.file == file && batches == bs && frames == fs
      ensures Known() == KnownOf(base, fs) && this.readonly == readonly && !closed
      ensures nextOffset == NextOf(base, bs) && Log() == Flatten(bs) && (bs != [] ==> base < nextOffset)
    {
      hide Lawful, Written, Holds, Chain, ScanFrom, WellFramed;
      WrittenImage(codec, base, fs, bs);
      WrittenGrew(codec, base, fs, bs);
      var r := ScanSegment(file, base);
      this.codec, baseOffset := codec, base;
      this.file, this.readonly, closed, batches, frames := file, readonly, false, bs, fs;
      positions, nextOffset, msgCount, size := r.value.positions, r.value.nextOffset, r.value.msgCount, r.value.size;
    }

    method SetReadonly()
      modifies this`readonly
      ensures readonly
    {
      readonly := true;
    }

    /** Close, and the closing half of Delete: nothing can be read through this segment any more. */
    method Close()
      modifies this`closed
      ensures closed
    {
      closed := true;
    }

    /** Append; `writeFails` is whether the write to the file fails. */
    method Append(batch: OpenBatch, ws: seq<Walk>, writeFails: bool) returns (r: Result<nat, SegmentError>)
      requires Valid() && (batch.b.baseOffset == 0 || batch.b.baseOffset == nextOffset)
      requires Appendable(codec, batch.b.(baseOffset := nextOffset), ws)
      modifies this, batch
      ensures Valid() && readonly == old(readonly) && closed == old(closed)
      ensures r.Ok? ==> r.value == old(nextOffset) == batch.b.baseOffset && batches == old(batches) + [batch.b]
      ensures r.Ok? ==> batch.b == old(batch.b).(baseOffset := old(nextOffset), flags := batch.b.flags)
      ensures r.Err? ==>
        file == old(file) && Known() == old(Known()) && batches == old(batches) && frames == old(frames)
      ensures r == Err(SegmentClosed) <==> old(closed)
      ensures r == Err(SegmentReadonly) <==> !old(closed) && old(readonly)
      ensures !old(closed) && !old(readonly) ==>
        match Encode(codec, old(batch.b).(baseOffset := old(nextOffset)), ws)
        case Err(e) => r == Err(EncodeFailed(e))
        case Ok(_) => r == if writeFails then Err(WriteFailed) else Ok(old(nextOffset))
      ensures old(batch.b.records) == [] && !old(closed) && !old(readonly) ==> r == Err(EncodeFailed(EmptyBatch))
    {
      hide Lawful, Image, Encode, WellFormedBatch, Built;
      if closed {
        return Err(SegmentClosed);
      }
      if readonly {
        return Err(SegmentReadonly);
      }
      if batch.b.baseOffset == 0 {
        batch.b := batch.b.(baseOffset := nextOffset);
      }
      ghost var b := batch.b;
      var data := batch.EncodeTo(codec, ws);
      EmptyRefused(codec, b, ws);
      if data.Err? {
        return Err(EncodeFailed(data.error));
      }
      if writeFails {
        return Err(WriteFailed);
      }
      EncodedIsFrame(codec, b, ws);
      Extend(data.value, batch.b);
      r := Ok(batch.b.baseOffset);
    }

    /** The write at the end of the file, and what the segment notes of it. */
    method Extend(data: Bytes, b: Batch)
      requires Valid() && Storable(b) && b.baseOffset == nextOffset
      requires IsFrame(codec, Frame(data, b.baseOffset, |b.records|)) && DecodeBatch(codec, data) == Ok(b)
      modifies this
      ensures Valid() && readonly == old(readonly) && closed == old(closed) && batches == old(batches) + [b]
    {
      hide Lawful, IsFrame, DecodeBatch, ScanFrom, WellFramed, Holds, Chain, Storable, Written, Join, KnownOf;
      ghost var f := Frame(data, b.baseOffset, |b.records|);
      ImageLonger(codec, baseOffset, file, Known(), batches, f, b);
      WrittenLonger(codec, baseOffset, frames, batches, f, b);
      frames := frames + [f];
      file := file + data;
      positions := positions + [Position(b.baseOffset, size, |data|)];
      size := size + |data|;
      nextOffset := b.NextOffset();
      msgCount := msgCount + |b.records|;
      batches := batches + [b];
    }

    /** The batch an offset falls into, by binary search; offsets behind the last batch fall into it too. */
    method FindBatchPosition(offset: nat) returns (found: bool, i: nat)
      requires Valid()
      ensures found <==> batches != [] && baseOffset <= offset
      ensures found ==> i < |batches| && batches[i].baseOffset <= offset
      ensures found && i + 1 < |batches| ==> offset < batches[i + 1].baseOffset
      ensures found && offset < nextOffset ==> offset < batches[i].NextOffset()
    {
      hide Lawful, ScanFrom, WellFramed, DecodeBatch, Storable, History;
      assert forall k: nat | k < |positions| :: Decodes(codec, file, positions[k], batches[k]);
      assert forall k: nat | k < |batches| :: LinkAt(baseOffset, batches, k);
      var left, right := 0, |positions| - 1;
      i := 0;
      while left <= right
        invariant 0 <= left <= right + 1 <= |positions|
        invariant left > 0 ==> left < |positions| && positions[left].offset <= offset
        invariant right + 1 < |positions| ==> offset < positions[right + 1].offset
        decreases right - left
      {
        var mid := (left + right) / 2;
        if offset < positions[mid].offset {
          right := mid - 1;
        } else if mid + 1 < |positions| && offset >= positions[mid + 1].offset {
          left := mid + 1;
        } else {
          assert Decodes(codec, file, positions[mid], batches[mid]);
          assert mid > 0 ==> LinkAt(baseOffset, batches, mid);
          ChainBounds(baseOffset, batches, mid);
          assert mid + 1 < |batches| ==> LinkAt(baseOffset, batches, mid + 1);
          return true, mid;
        }
      }
      assert batches != [] ==> LinkAt(baseOffset, batches, 0);
      found := false;
    }

    /** readBatchContaining. */
    method ReadBatchContaining(offset: nat) returns (r: Result<Batch, SegmentError>, ghost i: nat)
      requires Valid()
      ensures r.Ok? <==> batches != [] && baseOffset <= offset
      ensures r.Err? ==> r.error == OffsetOutOfRange
      ensures r.Ok? ==> i < |batches| && r.value == batches[i] && r.value.baseOffset <= offset
      ensures r.Ok? && offset < nextOffset ==> offset < r.value.NextOffset()
      ensures BatchFor(batches, offset) == if r.Ok? then Some(r.value) else None
    {
      hide Lawful, ScanFrom, WellFramed, DecodeBatch, Chain, History;
      var found, at := FindBatchPosition(offset);
      i := at;
      if !found {
        if batches != [] {
          NoBatchBelow(baseOffset, batches, offset);
        }
        return Err(OffsetOutOfRange), at;
      }
      BatchForIs(baseOffset, batches, offset, at);
      assert Decodes(codec, file, positions[at], batches[at]);
      var p := positions[at];
      var b := Decode(codec, file[p.position..p.position + p.size]);
      r := Ok(b.value);
    }

    /** Read. */
    method Read(offset: nat) returns (r: Result<Message, SegmentError>)
      requires Valid()
      ensures r == if closed then Err(SegmentClosed)
                   else if baseOffset <= offset < nextOffset then Ok(Log()[offset - baseOffset])
                   else Err(OffsetOutOfRange)
    {
      hide Lawful, ScanFrom, WellFramed, Holds, Flatten, History;
      if closed {
        return Err(SegmentClosed);
      }
      if offset < baseOffset || offset >= nextOffset {
        return Err(OffsetOutOfRange);
      }
      FlattenLength(baseOffset, batches);
      var b, i := ReadBatchContaining(offset);
      FlattenAt(baseOffset, batches, i, offset);
      r := Ok(GetMessage(b.value, offset).value);
    }

    /** The messages of one batch that are asked for, as far as there is room: the inner loop of ReadRange. */
    static method Collect(got: seq<Message>, b: Batch, start: nat, end: nat, max: nat) returns (all: seq<Message>)
      requires |got| < max
      ensures all == Turn(b, start, end, max, Reading(got, 0)).got
    {
      hide ToMessages, InRange;
      all := got;
      var ms := ToMessages(b);
      NoneInRange(ms, start, end);
      for k := 0 to |ms|
        invariant all == got + InRange(ms[..k], start, end) && |all| < max
      {
        InRangeNext(ms, k + 1, start, end);
        if start <= ms[k].offset < end {
          all := all + [ms[k]];
          if |all| >= max {
            RoomFor(got, ms, k + 1, start, end, max);
            return;
          }
        }
      }
      RoomFor(got, ms, |ms|, start, end, max);
    }

    /** The messages of a batch are the log's at its offsets. */
    lemma BatchInLog(i: nat)
      requires Valid() && i < |batches|
      ensures var b := batches[i];
        && baseOffset <= b.baseOffset && b.NextOffset() <= nextOffset && |ToMessages(b)| == |b.records|
        && forall k | 0 <= k < |b.records| ::
             ToMessages(b)[k] == Log()[b.baseOffset + k - baseOffset] && ToMessages(b)[k].offset == b.baseOffset + k
    {
      hide Lawful, ScanFrom, WellFramed, Holds, Flatten, ToMessages, Built, History, Chain;
      BatchInFlat(baseOffset, batches, i);
    }

    lemma EmptyIsSmall()
      requires Valid()
      ensures nextOffset == baseOffset ==> size == 0
    {
      hide Lawful, ScanFrom, WellFramed, Holds, Flatten;
      EmptyChain(baseOffset, batches);
    }

    lemma EmptyEnds()
      requires Valid()
      ensures batches == [] ==> nextOffset == baseOffset
    {
    }

    /**
     ReadRange, followed for at most so many turns of its loop; None if it is still
     running then. It is closed, or spins for ever, or has ended within `max` turns.
     */
    method ReadRange(start: nat, end: nat, max: nat, turns: nat) returns (r: Option<Result<seq<Message>, SegmentError>>)
      requires Valid()
      ensures closed ==> r == Some(Err(SegmentClosed))
      ensures !closed && Spins(baseOffset, nextOffset, start, end, max) ==> r == None
      ensures !closed && !Spins(baseOffset, nextOffset, start, end, max) && max <= turns ==> r.Some?
      ensures !closed && r.Some? ==> r.value == Ok(RangeRead(baseOffset, batches, start, end, max))
      ensures !closed && r.Some? && ReadsFlat(baseOffset, nextOffset, start, end, max) ==>
        r.value == Ok(RangeSlice(baseOffset, Log(), start, end, max))
    {
      hide Lawful, ScanFrom, WellFramed, Holds, Flatten, ToMessages, InRange, Storable, History, Turn;
      if closed {
        return Some(Err(SegmentClosed));
      }
      ReadsRange(baseOffset, batches, start, end, max, turns);
      if ReadsFlat(baseOffset, nextOffset, start, end, max) {
        FlatRead(baseOffset, batches, start, end, max);
      }
      var messages: seq<Message>, current: nat, left: nat := [], start, turns;
      while current < end && |messages| < max
        invariant Turns(batches, start, end, max, Reading(messages, current), left)
               == Turns(batches, start, end, max, Reading([], start), turns)
        decreases left
      {
        var b, i := ReadBatchContaining(current);
        if b.Err? {
          break;
        }
        if left == 0 {
          return None;
        }
        TurnAt(b.value, start, end, max, messages, current);
        messages := Collect(messages, b.value, start, end, max);
        current, left := b.value.NextOffset(), left - 1;
      }
      r := Some(Ok(messages));
    }
  }

  /** A turn does not depend on where the batch was looked for. */
  lemma TurnAt(b: Batch, start: nat, end: nat, max: nat, got: seq<Message>, current: nat)
    requires |got| < max
    ensures Turn(b, start, end, max, Reading(got, current))
         == Reading(Turn(b, start, end, max, Reading(got, 0)).got, b.NextOffset())
  {
  }

  lemma EmptyRefused(codec: Codec, b: Batch, ws: seq<Walk>)
    requires Appendable(codec, b, ws)
    ensures b.records == [] ==> Encode(codec, b, ws) == Err(EmptyBatch)
  {
  }
}
