/**
 A queue's log: segments that follow one another, seen as one sequence of
 messages with a head offset.
 */
module Manager {
  import opened Prelude
  import opened Encoding
  import opened Batches
  import opened MapWalks
  import opened Recovery
  import opened Segments
  import FlatLog

  datatype ManagerError =
    | Closed
    | SyncFailed
    | SegmentExists
    | CreateFailed
    | OutOfRange
    | AppendFailed(cause: SegmentError)

  datatype Config = Config(maxSegmentSize: nat, compression: byte, retentionBytes: nat)

  /** What the clock and the disk do during an append. */
  datatype Weather = Weather(retryFails: bool, expired: bool, sealFails: bool, createFails: bool, writeFails: bool)

  /** These messages stand in the log at their base offset. */
  ghost predicate Stretch(base: nat, part: seq<Message>, head: nat, log: seq<Message>) {
    head <= base && base + |part| <= head + |log| && log[base - head..base + |part| - head] == part
  }

  lemma StretchGrows(base: nat, part: seq<Message>, head: nat, log: seq<Message>, more: seq<Message>)
    requires Stretch(base, part, head, log)
    ensures Stretch(base, part, head, log + more)
    ensures base + |part| == head + |log| ==> Stretch(base, part + more, head, log + more)
  {
  }

  lemma StretchShorter(base: nat, part: seq<Message>, head: nat, log: seq<Message>, head': nat)
    requires Stretch(base, part, head, log) && head <= head' <= base
    ensures Stretch(base, part, head', log[head' - head..])
  {
    assert log[head' - head..][base - head'..base + |part| - head'] == log[base - head..base + |part| - head];
  }

  // ---------------------------------------------------------------------------
  // Reading a range from several segments

  /** The slice has been read up to this offset, or not begun because the log does not have its start. */
  ghost predicate ReadSoFar(
    l: FlatLog.Log<Message>, start: nat, end: nat, max: nat, current: nat, messages: seq<Message>)
  {
    && start <= current <= end && start < end && start + |messages| == Min(current, start + max)
    && if l.Has(start) then current <= l.Tail() && messages == l.messages[start - l.head..start + |messages| - l.head]
       else current == start
  }

  lemma ReadBegins(l: FlatLog.Log<Message>, start: nat, end: nat, max: nat)
    requires start < end
    ensures ReadSoFar(l, start, end, max, start, [])
  {
  }

  lemma ReadOn(
    l: FlatLog.Log<Message>, start: nat, end: nat, max: nat, current: nat, messages: seq<Message>,
    next: nat, part: seq<Message>)
    requires ReadSoFar(l, start, end, max, current, messages) && |messages| < max
    requires l.Has(current) && current < next <= end && next <= l.Tail()
    requires part == l.messages[current - l.head..Min(next, current + (max - |messages|)) - l.head]
    ensures ReadSoFar(l, start, end, max, next, messages + part)
  {
    JoinSlices(l.messages, start - l.head, current - l.head, current + |part| - l.head);
  }

  /** What has been read by the time a later offset of the slice is reached. */
  lemma SoFarIs(l: FlatLog.Log<Message>, start: nat, end: nat, max: nat, current: nat, messages: seq<Message>)
    requires ReadSoFar(l, start, end, max, current, messages) && l.Has(current) && |messages| < max
    ensures l.Has(start) && start + |messages| == current
    ensures messages == l.messages[start - l.head..current - l.head]
  {
  }

  lemma SoFarNow(l: FlatLog.Log<Message>, start: nat, end: nat, max: nat, current: nat, messages: seq<Message>)
    requires l.Has(start) && start <= current <= end && start < end && current <= l.Tail()
    requires |messages| == current - start <= max && messages == l.messages[start - l.head..current - l.head]
    ensures ReadSoFar(l, start, end, max, current, messages)
  {
  }

  lemma ReadEnds(l: FlatLog.Log<Message>, start: nat, end: nat, max: nat, current: nat, messages: seq<Message>)
    requires ReadSoFar(l, start, end, max, current, messages)
    requires current >= end || |messages| >= max || !l.Has(current)
    ensures messages == FlatLog.Slice(l, start, end, max)
  {
  }

  lemma SliceOn<T>(s: seq<T>, lo: nat, hi: nat)
    requires lo <= hi < |s|
    ensures s[lo..hi] + [s[hi]] == s[lo..hi + 1]
  {
  }

  lemma JoinSlices<T>(s: seq<T>, lo: nat, mid: nat, hi: nat)
    requires lo <= mid <= hi <= |s|
    ensures s[lo..mid] + s[mid..hi] == s[lo..hi]
  {
  }

  lemma StretchSlice(base: nat, part: seq<Message>, head: nat, log: seq<Message>, lo: nat, hi: nat)
    requires Stretch(base, part, head, log) && base <= lo <= hi <= base + |part|
    ensures head <= lo && hi <= head + |log| && part[lo - base..hi - base] == log[lo - head..hi - head]
  {
    var a, b := part[lo - base..hi - base], log[lo - head..hi - head];
    forall i | 0 <= i < hi - lo ensures a[i] == b[i] {
      assert part[lo - base + i] == log[base - head..base + |part| - head][lo - base + i];
    }
  }

  // ---------------------------------------------------------------------------
  // A directory of segment files

  datatype SegmentFile = SegmentFile(base: nat, bytes: Bytes)

  ghost predicate FileHolds(codec: Codec, f: SegmentFile, fs: seq<Frame>, bs: seq<Batch>, head: nat,
                            log: seq<Message>)
  {
    Written(codec, f.base, fs, bs) && f.bytes == Join(fs) && Stretch(f.base, Flatten(bs), head, log)
  }

  /** The listing, sorted by base, holds this log: file i the frames fss[i] of the batches bss[i]. */
  ghost predicate Listing(
    codec: Codec, dir: seq<SegmentFile>, fss: seq<seq<Frame>>, bss: seq<seq<Batch>>, head: nat, log: seq<Message>)
  {
    && dir != [] && |dir| == |fss| == |bss| && head == dir[0].base
    && (forall i: nat | i < |dir| :: FileHolds(codec, dir[i], fss[i], bss[i], head, log))
    && (forall i | 0 < i < |dir| :: NextFile(dir, bss, i))
    && head + |log| == NextOf(dir[|dir| - 1].base, bss[|dir| - 1])
  }

  ghost predicate NextFile(dir: seq<SegmentFile>, bss: seq<seq<Batch>>, i: nat)
    requires 0 < i < |dir| == |bss|
  {
    dir[i].base == NextOf(dir[i - 1].base, bss[i - 1]) && bss[i - 1] != []
  }

  lemma WrittenLength(codec: Codec, base: nat, fs: seq<Frame>, bs: seq<Batch>)
    requires Written(codec, base, fs, bs)
    ensures base + |Flatten(bs)| == NextOf(base, bs)
  {
    FlattenLength(base, bs);
  }

  lemma {:induction false} FilesOrdered(
    codec: Codec, dir: seq<SegmentFile>, fss: seq<seq<Frame>>, bss: seq<seq<Batch>>, head: nat, log: seq<Message>,
    i: nat, j: nat)
    requires Listing(codec, dir, fss, bss, head, log) && i < j < |dir|
    ensures dir[i].base + |Flatten(bss[i])| <= dir[j].base
    decreases j
  {
    hide Written, Flatten, Stretch;
    assert NextFile(dir, bss, j) && FileHolds(codec, dir[j - 1], fss[j - 1], bss[j - 1], head, log);
    WrittenLength(codec, dir[j - 1].base, fss[j - 1], bss[j - 1]);
    if i < j - 1 {
      FilesOrdered(codec, dir, fss, bss, head, log, i, j - 1);
    }
  }

  lemma StretchFront(base: nat, part: seq<Message>, head: nat, log: seq<Message>, tail: nat)
    requires Stretch(base, part, head, log) && base + |part| <= tail <= head + |log|
    ensures head <= tail && Stretch(base, part, head, log[..tail - head])
  {
    assert log[..tail - head][base - head..base + |part| - head] == log[base - head..base + |part| - head];
  }

  lemma {:induction false} FlattenFront(bs: seq<Batch>, k: nat)
    requires k <= |bs|
    ensures Flatten(bs[..k]) <= Flatten(bs)
    decreases |bs|
  {
    if k == |bs| {
      assert bs[..k] == bs;
    } else {
      var n := |bs| - 1;
      FlattenFront(bs[..n], k);
      assert bs[..n][..k] == bs[..k];
    }
  }

  /** Cutting the last file back to its first k frames leaves a listing of a front of the log. */
  lemma ListingFront(
    codec: Codec, dir: seq<SegmentFile>, fss: seq<seq<Frame>>, bss: seq<seq<Batch>>, head: nat, log: seq<Message>,
    k: nat)
    returns (dir': seq<SegmentFile>, fss': seq<seq<Frame>>, bss': seq<seq<Batch>>, log': seq<Message>)
    requires Listing(codec, dir, fss, bss, head, log) && k <= |fss[|dir| - 1]|
    ensures Listing(codec, dir', fss', bss', head, log') && log' <= log && |dir'| == |dir| && k <= |bss[|dir| - 1]|
    ensures dir' == dir[|dir| - 1 := SegmentFile(dir[|dir| - 1].base, Join(fss[|dir| - 1][..k]))]
    ensures head + |log'| == NextOf(dir[|dir| - 1].base, bss[|dir| - 1][..k])
  {
    hide Written, Flatten, Stretch, Join;
    var n := |dir| - 1;
    assert FileHolds(codec, dir[n], fss[n], bss[n], head, log);
    var base := dir[n].base;
    FrontLength(codec, base, fss[n], bss[n], k);
    var fs, bs := fss[n][..k], bss[n][..k];
    LastFront(base, bss[n], k, head, log);
    var tail := base + |Flatten(bs)|;
    dir', fss', bss', log' := dir[n := SegmentFile(base, Join(fs))], fss[n := fs], bss[n := bs], log[..tail - head];
    forall i: nat | i <= n ensures FileHolds(codec, dir'[i], fss'[i], bss'[i], head, log') {
      assert FileHolds(codec, dir[i], fss[i], bss[i], head, log);
      if i < n {
        FilesOrdered(codec, dir, fss, bss, head, log, i, n);
        StretchFront(dir[i].base, Flatten(bss[i]), head, log, tail);
      }
    }
    forall i | 0 < i <= n ensures NextFile(dir', bss', i) {
      assert NextFile(dir, bss, i);
    }
  }

  lemma FrontLength(codec: Codec, base: nat, fs: seq<Frame>, bs: seq<Batch>, k: nat)
    requires Written(codec, base, fs, bs) && k <= |fs|
    ensures |fs| == |bs| && Written(codec, base, fs[..k], bs[..k]) && base + |Flatten(bs[..k])| == NextOf(base, bs[..k])
  {
    WrittenFront(codec, base, fs, bs, k);
    WrittenLength(codec, base, fs[..k], bs[..k]);
  }

  lemma LastFront(base: nat, bs: seq<Batch>, k: nat, head: nat, log: seq<Message>)
    requires k <= |bs| && Stretch(base, Flatten(bs), head, log)
    ensures var tail := base + |Flatten(bs[..k])|;
      head <= base <= tail <= head + |log| && Stretch(base, Flatten(bs[..k]), head, log[..tail - head])
  {
    FlattenFront(bs, k);
    var part, front := Flatten(bs), Flatten(bs[..k]);
    assert front == part[..|front|];
    hide Flatten;
    var tail := base + |front|;
    StretchSlice(base, part, head, log, base, tail);
    assert log[..tail - head][base - head..] == log[base - head..tail - head];
  }

  class SegmentManager {
    const codec: Codec
    const config: Config
    var segments: seq<Segment>
    var active: Segment
    var headOffset: nat
    var tailOffset: nat
    var closed: bool
    var syncErr: bool

    /** The whole log, from headOffset on. */
    ghost var log: seq<Message>

    /** The log as its users see it. */
    ghost function Flat(): FlatLog.Log<Message>
      reads this
    {
      FlatLog.Log(headOffset, log, closed)
    }

    /** Segment i holds its stretch of the log. */
    ghost predicate Part(i: nat)
      requires i < |segments|
      reads this, segments
    {
      var s := segments[i];
      && s.Valid() && s.codec == codec && s.closed == closed
      && Stretch(s.baseOffset, s.Log(), headOffset, log)
    }

    /** It starts where the one before it ends, which is neither empty nor written to any more. */
    ghost predicate Joined(i: nat)
      requires 0 < i < |segments|
      reads this, segments
    {
      && segments[i].baseOffset == segments[i - 1].nextOffset && segments[i - 1].baseOffset < segments[i - 1].nextOffset
      && segments[i - 1].readonly
    }

    ghost predicate Valid()
      reads this, segments
    {
      && segments != [] && active == segments[|segments| - 1] && Lawful(codec)
      && (forall i: nat | i < |segments| :: Part(i))
      && (forall i | 0 < i < |segments| :: Joined(i))
      && headOffset == segments[0].baseOffset && tailOffset == active.nextOffset == headOffset + |log|
      && (!closed ==> !active.readonly)
    }

    /** NewSegmentManager on an empty directory. */
    constructor New(codec: Codec, config: Config)
      requires Lawful(codec)
      ensures Valid() && fresh(segments) && !closed && !syncErr && this.codec == codec && this.config == config
      ensures log == [] && headOffset == tailOffset == 0
    {
      hide Image, History, Lawful;
      this.codec, this.config := codec, config;
      var s := new Segment.Create(codec, 0);
      segments, active := [s], s;
      headOffset, tailOffset, closed, syncErr, log := 0, 0, false, false, [];
    }

    /** NewSegmentManager on a directory that holds a log. */
    constructor Load(codec: Codec, config: Config, dir: seq<SegmentFile>,
                     ghost fss: seq<seq<Frame>>, ghost bss: seq<seq<Batch>>, ghost log: seq<Message>)
      requires Lawful(codec) && dir != [] && Listing(codec, dir, fss, bss, dir[0].base, log)
      ensures Valid() && !closed && !syncErr && fresh(segments) && this.codec == codec && this.config == config
      ensures this.log == log && headOffset == dir[0].base
    {
      hide Lawful, Image, History, Written, Join, Flatten, Stretch;
      var segs := LoadSegments(codec, dir, fss, bss, log);
      var n := |dir| - 1;
      assert LoadedAs(segs[n], codec, dir[n], fss[n], bss[n], false);
      assert LoadedAs(segs[0], codec, dir[0], fss[0], bss[0], 0 < n);
      this.codec, this.config := codec, config;
      segments, active := segs, segs[n];
      headOffset, tailOffset := segs[0].baseOffset, segs[n].nextOffset;
      closed, syncErr, this.log := false, false, log;
      new;
      forall i: nat | i <= n ensures Part(i) {
        assert LoadedAs(segments[i], codec, dir[i], fss[i], bss[i], i < n);
        assert FileHolds(codec, dir[i], fss[i], bss[i], dir[0].base, log);
      }
      forall i | 0 < i <= n ensures Joined(i) {
        assert LoadedAs(segments[i], codec, dir[i], fss[i], bss[i], i < n);
        assert LoadedAs(segments[i - 1], codec, dir[i - 1], fss[i - 1], bss[i - 1], i - 1 < n);
        assert NextFile(dir, bss, i);
      }
    }

    /** loadSegments: all but the last are opened read-only. */
    static method LoadSegments(codec: Codec, dir: seq<SegmentFile>, ghost fss: seq<seq<Frame>>,
                               ghost bss: seq<seq<Batch>>, ghost log: seq<Message>)
      returns (segs: seq<Segment>)
      requires Lawful(codec) && dir != [] && Listing(codec, dir, fss, bss, dir[0].base, log)
      ensures |segs| == |dir| && fresh(segs)
      ensures forall k: nat | k < |dir| :: LoadedAs(segs[k], codec, dir[k], fss[k], bss[k], k < |dir| - 1)
    {
      hide Lawful, Image, History, Written, Join, Flatten, Stretch;
      segs := [];
      for i := 0 to |dir|
        invariant |segs| == i && fresh(segs)
        invariant forall k: nat | k < i :: LoadedAs(segs[k], codec, dir[k], fss[k], bss[k], k < |dir| - 1)
      {
        assert FileHolds(codec, dir[i], fss[i], bss[i], dir[0].base, log);
        var s := new Segment.Open(codec, dir[i].base, dir[i].bytes, i < |dir| - 1, fss[i], bss[i]);
        segs := segs + [s];
      }
    }

    /** Segments further on start no earlier than an earlier one ends. */
    lemma {:induction false} Ordered(i: nat, j: nat)
      requires Valid() && i < j < |segments|
      ensures segments[i].baseOffset < segments[i].nextOffset <= segments[j].baseOffset
      decreases j
    {
      hide Image, History, Lawful, Flatten;
      assert Joined(j) && Part(j) && Part(j - 1) && Part(i);
      if i < j - 1 {
        Ordered(i, j - 1);
      }
    }

    /** findSegment: the only segment that can hold an offset, by binary search on the bases. */
    method FindSegment(offset: nat) returns (found: bool, i: nat)
      requires Valid()
      ensures found <==> headOffset <= offset < tailOffset
      ensures found ==> i < |segments| && segments[i].baseOffset <= offset < segments[i].nextOffset <= tailOffset
    {
      hide Image, History, Lawful, Flatten;
      var lo, hi := 0, |segments|;
      while lo < hi
        invariant 0 <= lo <= hi <= |segments|
        invariant lo > 0 ==> segments[lo - 1].baseOffset <= offset
        invariant hi < |segments| ==> offset < segments[hi].baseOffset
      {
        var mid := (lo + hi) / 2;
        if segments[mid].baseOffset > offset {
          hi := mid;
        } else {
          lo := mid + 1;
        }
      }
      i := 0;
      if lo == 0 {
        return false, 0;
      }
      i := lo - 1;
      assert Part(i);
      assert i + 1 < |segments| ==> Joined(i + 1);
      found := offset < segments[i].nextOffset;
    }

    /** Read. */
    method Read(offset: nat) returns (r: Result<Message, ManagerError>)
      requires Valid()
      ensures r == if closed then Err(Closed)
                   else if headOffset <= offset < tailOffset then Ok(log[offset - headOffset]) else Err(OutOfRange)
    {
      hide Image, History, Lawful, Flatten;
      if closed {
        return Err(Closed);
      }
      var found, i := FindSegment(offset);
      if !found {
        return Err(OutOfRange);
      }
      assert Part(i);
      var m := segments[i].Read(offset);
      r := Ok(m.value);
    }

    /** One segment's part of a range; the range ends within the segment, so the read ends within `max` turns. */
    method ReadPart(i: nat, start: nat, end: nat, max: nat) returns (part: seq<Message>)
      requires Valid() && !closed && i < |segments| && segments[i].baseOffset <= start < end <= segments[i].nextOffset
      ensures headOffset <= start && end <= tailOffset
      ensures part == log[start - headOffset..Min(end, start + max) - headOffset]
    {
      hide Image, History, Lawful, Flatten, Stretch, ReadsFlat, Spins, RangeSlice, RangeRead;
      assert Part(i);
      var s := segments[i];
      ReadsWithin(s.baseOffset, s.Log(), start, end, max);
      var answer := s.ReadRange(start, end, max, max);
      StretchSlice(s.baseOffset, s.Log(), headOffset, log, start, end);
      StretchSlice(s.baseOffset, s.Log(), headOffset, log, start, Min(end, start + max));
      part := answer.value.value;
    }

    /** ReadRange: the slice, from whichever segments it lies in. */
    method ReadRange(start: nat, end: nat, max: nat) returns (r: Result<seq<Message>, ManagerError>)
      requires Valid()
      ensures r == if closed then Err(Closed) else Ok(FlatLog.Slice(Flat(), start, end, max))
    {
      hide Valid, ReadSoFar;
      LogSize();
      if closed {
        return Err(Closed);
      }
      if start >= end {
        return Ok([]);
      }
      var messages, current := [], start;
      ReadBegins(Flat(), start, end, max);
      while current < end && |messages| < max
        invariant ReadSoFar(Flat(), start, end, max, current, messages)
        decreases end - current
      {
        var found, i := FindSegment(current);
        if !found {
          break;
        }
        var segEnd := Min(segments[i].nextOffset, end);
        var part := ReadPart(i, current, segEnd, max - |messages|);
        ReadOn(Flat(), start, end, max, current, messages, segEnd, part);
        messages := messages + part;
        current := segEnd;
      }
      ReadEnds(Flat(), start, end, max, current, messages);
      r := Ok(messages);
    }

    /** Whether the directory has a file with this base, which is what an exclusive create asks. */
    method Exists(base: nat) returns (found: bool)
      requires Valid()
      ensures found <==> exists i :: 0 <= i < |segments| && segments[i].baseOffset == base
    {
      found := false;
      for i := 0 to |segments|
        invariant !found && forall k | 0 <= k < i :: segments[k].baseOffset != base
      {
        if segments[i].baseOffset == base {
          return true;
        }
      }
    }

    /** In the middle of the log only the active segment can start at the tail, and only if it is empty. */
    lemma TailTaken()
      requires Valid()
      ensures (exists i :: 0 <= i < |segments| && segments[i].baseOffset == tailOffset) <==>
        active.baseOffset == tailOffset
      ensures active.baseOffset <= tailOffset
    {
      hide Image, History, Lawful, Flatten;
      var n := |segments| - 1;
      assert segments[n] == active;
      forall i | 0 <= i < n ensures segments[i].baseOffset != tailOffset {
        Ordered(i, n);
        assert Part(n);
      }
      assert Part(n);
    }

    /** A new, empty segment at the tail becomes the active one. */
    method Push(s: Segment)
      requires Valid() && !closed && active.baseOffset < tailOffset
      requires s !in segments && s.Valid() && s.codec == codec && !s.closed && !s.readonly
      requires s.baseOffset == s.nextOffset == tailOffset
      modifies this, active`readonly
      ensures Valid() && !closed && syncErr == old(syncErr) && active == s && segments == old(segments) + [s]
      ensures log == old(log) && headOffset == old(headOffset) && tailOffset == old(tailOffset)
    {
      hide Image, History, Lawful, Flatten;
      ghost var n := |segments|;
      assert Part(n - 1);
      active.SetReadonly();
      segments, active := segments + [s], s;
      forall i: nat | i <= n ensures Part(i) {
        assert i < n ==> segments[i] == old(segments[i]) && old(Part(i));
      }
      forall i | 0 < i <= n ensures Joined(i) {
        assert segments[i - 1] == old(segments[i - 1]);
        assert i < n ==> segments[i] == old(segments[i]) && old(Joined(i));
      }
    }

    /** createSegment, as rotation calls it. A failure leaves everything as it was. */
    method CreateSegment(fails: bool) returns (r: Result<(), ManagerError>)
      requires Valid() && !closed
      modifies this, active`readonly
      ensures Valid() && !closed && syncErr == old(syncErr)
      ensures log == old(log) && headOffset == old(headOffset) && tailOffset == old(tailOffset)
      ensures r == Err(SegmentExists) <==> old(active.baseOffset) == old(tailOffset)
      ensures r.Ok? ==>
        segments == old(segments) + [active] && fresh(active) && active.baseOffset == active.nextOffset == tailOffset
      ensures r.Err? ==> segments == old(segments) && active == old(active) && active.readonly == old(active.readonly)
      ensures r == Err(CreateFailed) <==> fails && old(active.baseOffset) != old(tailOffset)
      ensures r.Err? ==> r.error == SegmentExists || r.error == CreateFailed
    {
      hide Image, History, Flatten;
      TailTaken();
      var taken := Exists(tailOffset);
      if taken {
        return Err(SegmentExists);
      } else if fails {
        return Err(CreateFailed);
      }
      var s := new Segment.Create(codec, tailOffset);
      Push(s);
      r := Ok(());
    }

    /** The batch as the manager places it: at the tail, with the queue's compression. */
    function Placed(b: Batch): Batch
      reads this
    {
      b.(baseOffset := tailOffset, compression := config.compression)
    }

    /** The active segment is full or too old. */
    predicate Due(w: Weather)
      reads this, active
    {
      config.maxSegmentSize <= active.size || w.expired
    }

    /** shouldRotate and rotate: the active segment is made durable first, then replaced. */
    method RotateIfDue(w: Weather) returns (r: Result<(), ManagerError>)
      requires Valid() && !closed
      modifies this, active`readonly
      ensures Valid() && !closed && syncErr == old(syncErr)
      ensures log == old(log) && headOffset == old(headOffset) && tailOffset == old(tailOffset)
      ensures if r.Ok? && old(Due(w)) then segments == old(segments) + [active] && fresh(active)
              else segments == old(segments) && active == old(active)
      ensures r == Err(SegmentExists) <==> old(Due(w)) && !w.sealFails && old(active.baseOffset) == old(tailOffset)
      ensures r == Err(SyncFailed) <==> old(Due(w)) && w.sealFails
      ensures r == Err(CreateFailed) <==>
        old(Due(w)) && !w.sealFails && w.createFails && old(active.baseOffset) != old(tailOffset)
      ensures r.Err? ==> r.error == SegmentExists || r.error == SyncFailed || r.error == CreateFailed
    {
      hide Image, History, Lawful, Flatten, Part, Joined;
      if active.size < config.maxSegmentSize && !w.expired {
        return Ok(());
      }
      if w.sealFails {
        return Err(SyncFailed);
      }
      r := CreateSegment(w.createFails);
    }

    /** The active segment takes the batch and the tail moves behind it. */
    method AppendToActive(batch: OpenBatch, ws: seq<Walk>, writeFails: bool) returns (r: Result<nat, SegmentError>)
      requires Valid() && !closed && batch.b == Placed(batch.b) && Appendable(codec, batch.b, ws)
      modifies this, active, batch
      ensures Valid() && !closed && headOffset == old(headOffset) && segments == old(segments) && active == old(active)
      ensures r.Ok? ==> r.value == old(tailOffset) && batch.b == old(batch.b).(flags := batch.b.flags)
      ensures r.Ok? ==> log == old(log) + ToMessages(batch.b)
      ensures r.Err? ==> log == old(log) && !r.error.SegmentClosed? && !r.error.SegmentReadonly?
      ensures match Encode(codec, old(batch.b), ws)
              case Err(e) => r == Err(EncodeFailed(e))
              case Ok(_) => r == if writeFails then Err(WriteFailed) else Ok(old(tailOffset))
      ensures syncErr == old(syncErr)
    {
      hide Image, History, Lawful, Flatten, ToMessages, Appendable, Stretch, Encode;
      ghost var n := |segments| - 1;
      ActiveLast();
      r := active.Append(batch, ws, writeFails);
      if r.Ok? {
        ActiveGrew(old(active.batches), batch.b);
        tailOffset := batch.b.NextOffset();
        log := log + ToMessages(batch.b);
      }
      forall i: nat | i <= n ensures Part(i) {
        assert old(Part(i));
        StretchGrows(segments[i].baseOffset, old(segments[i].Log()), headOffset, old(log), ToMessages(batch.b));
      }
      forall i | 0 < i <= n ensures Joined(i) {
        assert old(Joined(i));
      }
    }

    lemma ActiveLast()
      requires Valid()
      ensures active.Valid() && active.codec == codec && active.closed == closed
      ensures active.baseOffset + |active.Log()| == headOffset + |log|
      ensures forall i | 0 <= i < |segments| - 1 :: segments[i] != active
    {
      hide Image, History, Lawful, Flatten;
      var n := |segments| - 1;
      assert Part(n);
      forall i | 0 <= i < n ensures segments[i] != active {
        Ordered(i, n);
      }
    }

    lemma ActiveGrew(before: seq<Batch>, b: Batch)
      requires active.Valid() && active.batches == before + [b]
      ensures active.Log() == Flatten(before) + ToMessages(b) && active.nextOffset == b.NextOffset()
    {
      assert (before + [b])[..|before|] == before;
    }

    method ClearSyncErr()
      requires Valid()
      modifies this`syncErr
      ensures Valid() && !syncErr
    {
      hide Image, History, Lawful, Flatten, Stretch;
      syncErr := false;
      forall i: nat | i < |segments| ensures Part(i) {
        assert old(Part(i));
      }
      forall i | 0 < i < |segments| ensures Joined(i) {
        assert old(Joined(i));
      }
    }

    /** An active segment that cannot be rotated yet is empty. */
    lemma EmptyActive()
      requires Valid()
      ensures active.baseOffset == tailOffset ==> active.size == 0
    {
      hide Image, History, Lawful, Flatten, Stretch;
      ActiveLast();
      active.EmptyIsSmall();
    }

    /** Nothing stands in the way of this batch. */
    predicate Takes(b: Batch, ws: seq<Walk>, w: Weather)
      requires WellFormedBatch(Placed(b), ws)
      reads this, active
    {
      && !closed && !(syncErr && w.retryFails)
      && (Due(w) ==> !w.sealFails && !w.createFails && active.baseOffset != tailOffset)
      && Encode(codec, Placed(b), ws).Ok? && !w.writeFails
    }

    /** appendLocked: everything an append does under the manager's lock. */
    method Append(batch: OpenBatch, ws: seq<Walk>, w: Weather) returns (r: Result<nat, ManagerError>)
      requires Valid() && Appendable(codec, Placed(batch.b), ws)
      modifies this, active, batch
      ensures Valid() && closed == old(closed) && headOffset == old(headOffset)
      ensures r.Ok? ==> r.value == old(tailOffset) && log == old(log) + ToMessages(batch.b)
      ensures r.Ok? ==> batch.b == old(Placed(batch.b)).(flags := batch.b.flags)
      ensures r.Err? ==> log == old(log)
      ensures FlatLog.Evolves(old(Flat()), Flat())
      ensures r == Err(Closed) <==> old(closed)
      ensures r == Err(SegmentExists) <==>
        && !old(closed) && !(old(syncErr) && w.retryFails) && old(Due(w)) && !w.sealFails
        && old(active.baseOffset) == old(tailOffset)
      ensures r == Err(SyncFailed) <==>
        !old(closed) && ((old(syncErr) && w.retryFails) || (old(Due(w)) && w.sealFails))
      ensures r == Err(CreateFailed) <==>
        && !old(closed) && !(old(syncErr) && w.retryFails) && old(Due(w)) && !w.sealFails && w.createFails
        && old(active.baseOffset) != old(tailOffset)
      ensures r.Err? && !r.error.AppendFailed? ==> r.error in {Closed, SegmentExists, SyncFailed, CreateFailed}
      ensures r.Ok? || (r.Err? && r.error.AppendFailed?) ==>
        match Encode(codec, old(Placed(batch.b)), ws)
        case Err(e) => r == Err(AppendFailed(EncodeFailed(e)))
        case Ok(_) => r == if w.writeFails then Err(AppendFailed(WriteFailed)) else Ok(old(tailOffset))
      ensures r.Ok? <==> old(Takes(batch.b, ws, w))
      ensures syncErr == (old(syncErr) && (old(closed) || w.retryFails))
      ensures segments == old(segments) || (segments == old(segments) + [active] && fresh(active))
      ensures r.Ok? ==> (segments == old(segments) <==> !old(Due(w)))
    {
      hide Image, History, Lawful, Flatten, Part, Joined, Appendable, ToMessages, Encode;
      if closed {
        return Err(Closed);
      }
      if syncErr {
        if w.retryFails {
          return Err(SyncFailed);
        }
        ClearSyncErr();
      }
      var rotated := RotateIfDue(w);
      if rotated.Err? {
        return Err(rotated.error);
      }
      batch.b := Placed(batch.b);
      var a := AppendToActive(batch, ws, w.writeFails);
      FlatLog.AppendEvolves(old(Flat()), if a.Ok? then ToMessages(batch.b) else []);
      r := if a.Ok? then Ok(a.value) else Err(AppendFailed(a.error));
    }

    static method CloseAll(gone: seq<Segment>)
      modifies gone
      ensures forall s <- gone :: s.closed && s.readonly == old(s.readonly) && SameContent(s)
    {
      for i := 0 to |gone|
        invariant forall s <- gone :: s.readonly == old(s.readonly) && SameContent(s)
        invariant forall s <- gone[..i] :: s.closed
      {
        assert gone[i] in gone;
        gone[i].Close();
      }
      assert gone[..|gone|] == gone;
    }

    /** The first k segments go; at least one stays. */
    method DropFront(k: nat)
      requires Valid() && !closed && k < |segments|
      modifies this, segments
      ensures Valid() && !closed && syncErr == old(syncErr) && segments == old(segments[k..]) && active == old(active)
      ensures headOffset == old(segments[k].baseOffset) &&
        old(headOffset) <= headOffset <= tailOffset == old(tailOffset)
      ensures old(Flat()).Tail() == Flat().Tail() == tailOffset && Flat() == FlatLog.Dropped(old(Flat()), headOffset)
      ensures forall i | 0 <= i < |segments| :: unchanged(segments[i])
      ensures Sizes(segments) == old(Sizes(segments))[k..]
      ensures forall s <- old(segments)[..k] :: s.closed
      ensures forall s <- old(segments) :: old(s.closed) ==> s.closed
    {
      hide Image, History, Lawful, Flatten, Stretch;
      ghost var n := |segments|;
      RestApart(k);
      CloseAll(segments[..k]);
      assert forall j | k <= j < n :: unchanged(segments[j]);
      assert old(Part(k));
      segments := segments[k..];
      headOffset := segments[0].baseOffset;
      log := log[headOffset - old(headOffset)..];
      forall i: nat | i < n - k ensures Part(i) {
        assert old(Part(k + i)) && segments[i] == old(segments[k + i]);
        StretchShorter(segments[i].baseOffset, segments[i].Log(), old(headOffset), old(log), headOffset);
      }
      forall i | 0 < i < n - k ensures Joined(i) {
        assert old(Joined(k + i)) && segments[i] == old(segments[k + i]) && segments[i - 1] == old(segments[k + i - 1]);
      }
    }

    /** The segments from k on are different objects from those before, and start no earlier. */
    lemma RestApart(k: nat)
      requires Valid() && k < |segments|
      ensures forall i, j | 0 <= i < k <= j < |segments| :: segments[i] != segments[j]
      ensures forall j | k <= j < |segments| :: segments[k].baseOffset <= segments[j].baseOffset
      ensures headOffset <= segments[k].baseOffset <= headOffset + |log| == tailOffset
    {
      hide Image, History, Lawful, Flatten;
      assert Part(k);
      forall i, j | 0 <= i < k <= j < |segments| ensures segments[i] != segments[j] {
        Ordered(i, j);
      }
      forall j | k < j < |segments| ensures segments[k].baseOffset <= segments[j].baseOffset {
        Ordered(k, j);
      }
    }

    lemma DropNothing()
      requires Valid()
      ensures Flat().Tail() == tailOffset && FlatLog.Dropped(Flat(), headOffset) == Flat()
    {
    }

    /** applyTimeRetention; `stale` holds the bases of the segments whose newest message is before the cutoff. */
    method ApplyTimeRetention(stale: set<nat>)
      requires Valid() && !closed
      modifies this, segments
      ensures Valid() && !closed && active == old(active) && tailOffset == old(tailOffset)
      ensures old(headOffset) <= headOffset <= old(Flat()).Tail() && Flat() == FlatLog.Dropped(old(Flat()), headOffset)
      ensures |segments| <= |old(segments)| && segments == old(segments)[|old(segments)| - |segments|..]
      ensures forall i | 0 <= i < |old(segments)| - |segments| :: old(segments)[i].baseOffset in stale
      ensures forall s <- old(segments)[..|old(segments)| - |segments|] :: s.closed
      ensures 1 < |segments| ==> segments[0].baseOffset !in stale
      ensures forall i | 0 <= i < |segments| :: segments[i] in old(segments) || fresh(segments[i])
      ensures FlatLog.Evolves(old(Flat()), Flat())
    {
      hide Image, History, Lawful, Flatten, Stretch, Part, Joined, FlatLog.Evolves, FlatLog.Dropped;
      DropNothing();
      while |segments| > 1 && segments[0].baseOffset in stale
        invariant Valid() && !closed && active == old(active) && tailOffset == old(tailOffset)
        invariant old(headOffset) <= headOffset <= old(Flat()).Tail() &&
          Flat() == FlatLog.Dropped(old(Flat()), headOffset)
        invariant |segments| <= |old(segments)| && segments == old(segments)[|old(segments)| - |segments|..]
        invariant forall i | 0 <= i < |old(segments)| - |segments| :: old(segments)[i].baseOffset in stale
        invariant forall s <- old(segments)[..|old(segments)| - |segments|] :: s.closed
        decreases |segments|
      {
        ghost var was, first, k := headOffset, segments[0], |old(segments)| - |segments|;
        DropFront(1);
        FlatLog.DropTwice(old(Flat()), was, headOffset);
        assert old(segments)[..k + 1] == old(segments)[..k] + [first];
      }
      FlatLog.DropEvolves(old(Flat()), headOffset);
    }

    method TotalSize() returns (total: nat)
      ensures total == Sum(Sizes(segments))
    {
      total := 0;
      ghost var sizes := Sizes(segments);
      for i := 0 to |segments|
        invariant total + Sum(sizes[i..]) == Sum(sizes)
      {
        assert sizes[i..][1..] == sizes[i + 1..];
        total := total + segments[i].size;
      }
    }

    /** applySizeRetention. */
    method ApplySizeRetention()
      requires Valid() && !closed
      modifies this, segments
      ensures Valid() && !closed && active == old(active) && tailOffset == old(tailOffset)
      ensures old(headOffset) <= headOffset <= old(Flat()).Tail() && Flat() == FlatLog.Dropped(old(Flat()), headOffset)
      ensures |segments| <= |old(segments)| && segments == old(segments)[|old(segments)| - |segments|..]
      ensures CutToSize(old(Sizes(segments)), Sizes(segments), config.retentionBytes)
      ensures forall s <- old(segments)[..|old(segments)| - |segments|] :: s.closed
      ensures forall i | 0 <= i < |segments| :: segments[i] in old(segments) || fresh(segments[i])
      ensures FlatLog.Evolves(old(Flat()), Flat())
    {
      hide Image, History, Lawful, Flatten, Stretch, Part, Joined, FlatLog.Evolves, FlatLog.Dropped;
      DropNothing();
      var total := TotalSize();
      ghost var sizes, k := Sizes(segments), 0;
      while |segments| > 1 && total > config.retentionBytes
        invariant Valid() && !closed && active == old(active) && tailOffset == old(tailOffset)
        invariant old(headOffset) <= headOffset <= old(Flat()).Tail() &&
          Flat() == FlatLog.Dropped(old(Flat()), headOffset)
        invariant k + |segments| == |old(segments)| && segments == old(segments)[k..]
        invariant Sizes(segments) == sizes[k..] && total == Sum(sizes[k..])
        invariant k == 0 || Sum(sizes[k - 1..]) > config.retentionBytes
        invariant forall s <- old(segments)[..k] :: s.closed
        decreases |segments|
      {
        SumRest(sizes, k);
        assert segments[0].size == Sizes(segments)[0];
        total := total - segments[0].size;
        ghost var was, first := headOffset, segments[0];
        DropFront(1);
        FlatLog.DropTwice(old(Flat()), was, headOffset);
        assert old(segments)[..k + 1] == old(segments)[..k] + [first];
        k := k + 1;
      }
      FlatLog.DropEvolves(old(Flat()), headOffset);
    }

    /** How many segments end at or before the bound: these are a front of the list. */
    method CountBelow(before: nat) returns (k: nat)
      requires Valid()
      ensures k <= |segments| && (forall i | 0 <= i < k :: segments[i].nextOffset <= before)
      ensures forall i | k <= i < |segments| :: before < segments[i].nextOffset
    {
      hide Image, History, Lawful, Flatten, Stretch;
      k := 0;
      while k < |segments| && segments[k].nextOffset <= before
        invariant k <= |segments| && forall i | 0 <= i < k :: segments[i].nextOffset <= before
      {
        k := k + 1;
      }
      forall i | k <= i < |segments| ensures before < segments[i].nextOffset {
        if k < i {
          Ordered(k, i);
          assert Part(i);
        }
      }
    }

    /** The whole log went: a new one starts, empty, at the offset asked for. */
    method RestartAt(base: nat)
      requires Valid() && !closed
      modifies this, segments
      ensures Valid() && !closed && log == [] && headOffset == tailOffset == base && fresh(active)
      ensures segments == [active] && syncErr == old(syncErr) && forall s <- old(segments) :: s.closed
    {
      hide Image, History, Lawful, Flatten;
      CloseAll(segments);
      var s := new Segment.Create(codec, base);
      assert active in segments;
      active.SetReadonly();
      segments, active, headOffset, tailOffset, log := [s], s, base, base, [];
    }

    /**
     Truncate: whole segments below the bound go. Nothing at or above it is lost, and
     the head stays at or below it; a log that ends at or below it restarts there, empty.
     */
    method Truncate(before: nat) returns (r: Result<(), ManagerError>)
      requires Valid()
      modifies this, segments
      ensures Valid() && closed == old(closed)
      ensures r == if old(closed) then Err(Closed) else Ok(())
      ensures r.Err? ==> log == old(log) && headOffset == old(headOffset)
      ensures r.Ok? && before < old(tailOffset) ==>
        && old(headOffset) <= headOffset <= Max(before, old(headOffset))
        && headOffset <= tailOffset == old(Flat()).Tail()
        && Flat() == FlatLog.Dropped(old(Flat()), headOffset) && before < segments[0].nextOffset
      ensures r.Ok? && old(tailOffset) <= before ==> log == [] && headOffset == tailOffset == before
      ensures r.Ok? ==> forall s <- old(segments) :: s in segments || s.closed
      ensures syncErr == old(syncErr)
      ensures forall i | 0 <= i < |segments| :: segments[i] in old(segments) || fresh(segments[i])
      ensures FlatLog.Evolves(old(Flat()), Flat())
    {
      hide Image, History, Lawful, Flatten, Stretch, FlatLog.Evolves, FlatLog.Dropped;
      DropNothing();
      if closed {
        FlatLog.DropEvolves(Flat(), headOffset);
        return Err(Closed);
      }
      var k := CountBelow(before);
      assert segments[|segments| - 1] == active;
      if k < |segments| {
        assert 0 < k ==> Joined(k);
        DropFront(k);
        FlatLog.DropEvolves(old(Flat()), headOffset);
      } else {
        RestartAt(before);
        FlatLog.RestartEvolves(old(Flat()), before);
      }
      r := Ok(());
    }

    /** Close. */
    method Close()
      requires Valid()
      modifies this, segments
      ensures Valid() && closed && log == old(log) && headOffset == old(headOffset) && segments == old(segments)
      ensures FlatLog.Evolves(old(Flat()), Flat())
    {
      hide Image, History, Lawful, Flatten, Stretch;
      if closed {
        return;
      }
      ghost var n := |segments|;
      CloseAll(segments);
      closed := true;
      forall i: nat | i < n ensures Part(i) {
        assert old(Part(i)) && segments[i] in segments;
      }
      forall i | 0 < i < n ensures Joined(i) {
        assert old(Joined(i)) && segments[i] in segments && segments[i - 1] in segments;
      }
    }

    // -------------------------------------------------------------------------
    // Reading batch by batch

    /** No batch reaches across this offset. */
    ghost predicate Aligned(o: nat)
      reads this, segments
    {
      forall i, j | 0 <= i < |segments| && 0 <= j < |segments[i].batches| ::
        o <= segments[i].batches[j].baseOffset || segments[i].batches[j].NextOffset() <= o
    }

    ghost predicate BatchAt(i: nat, j: nat, b: Batch)
      reads this, segments
    {
      i < |segments| && j < |segments[i].batches| && segments[i].batches[j] == b
    }

    /** The end of any batch is such an offset. */
    lemma EndAligned(i: nat, j: nat, b: Batch)
      requires Valid() && BatchAt(i, j, b)
      ensures Aligned(b.NextOffset())
    {
      hide History, Flatten, Stretch, Storable, ScanFrom, WellFramed, Holds, Lawful;
      var o := b.NextOffset();
      forall x, y | 0 <= x < |segments| && 0 <= y < |segments[x].batches|
        ensures o <= segments[x].batches[y].baseOffset || segments[x].batches[y].NextOffset() <= o
      {
        var s, t := segments[i], segments[x];
        assert Part(i) && Part(x);
        ChainBounds(s.baseOffset, s.batches, j);
        ChainBounds(t.baseOffset, t.batches, y);
        if i < x {
          Ordered(i, x);
        } else if x < i {
          Ordered(x, i);
        } else if j < y {
          ChainOrdered(s.baseOffset, s.batches, j, y);
        } else if y < j {
          ChainOrdered(s.baseOffset, s.batches, y, j);
        }
      }
    }

    /** ReadBatch of the manager: the batch an offset falls into. */
    method ReadBatch(offset: nat) returns (r: Result<Batch, ManagerError>, ghost i: nat, ghost j: nat)
      requires Valid()
      ensures closed ==> r == Err(Closed)
      ensures !closed ==> (r.Ok? <==> headOffset <= offset < tailOffset) && (r.Err? ==> r.error == OutOfRange)
      ensures r.Ok? ==> BatchAt(i, j, r.value) && r.value.baseOffset <= offset < r.value.NextOffset()
    {
      hide Image, History, Lawful, Flatten, Stretch;
      i, j := 0, 0;
      if closed {
        r := Err(Closed);
        return;
      }
      var found, k := FindSegment(offset);
      if !found {
        r := Err(OutOfRange);
        return;
      }
      assert Part(k);
      segments[k].EmptyEnds();
      var b, at := segments[k].ReadBatchContaining(offset);
      i, j := k, at;
      r := Ok(b.value);
    }

    /** A batch's messages are the log's. */
    lemma BatchMessages(i: nat, j: nat, b: Batch)
      requires Valid() && BatchAt(i, j, b)
      ensures headOffset <= b.baseOffset && b.NextOffset() <= tailOffset && |ToMessages(b)| == |b.records|
      ensures forall k | 0 <= k < |b.records| ::
        ToMessages(b)[k] == log[b.baseOffset + k - headOffset] && ToMessages(b)[k].offset == b.baseOffset + k
    {
      hide Image, History, Lawful, Flatten, ToMessages, Stretch;
      var s := segments[i];
      assert Part(i);
      s.BatchInLog(j);
      StretchSlice(s.baseOffset, s.Log(), headOffset, log, b.baseOffset, b.NextOffset());
      forall k | 0 <= k < |b.records| ensures ToMessages(b)[k] == log[b.baseOffset + k - headOffset] {
        assert s.Log()[b.baseOffset - s.baseOffset..b.NextOffset() - s.baseOffset][k] == ToMessages(b)[k];
        assert log[b.baseOffset - headOffset..b.NextOffset() - headOffset][k] == log[b.baseOffset + k - headOffset];
      }
    }

    /** Some segment among the first n holds an offset that lies before the end of them. */
    lemma {:induction false} Holder(o: nat, n: nat) returns (k: nat)
      requires Valid() && 0 < n <= |segments| && headOffset <= o < segments[n - 1].nextOffset
      ensures k < |segments| && segments[k].baseOffset <= o < segments[k].nextOffset
      decreases n
    {
      hide Image, History, Lawful, Flatten, Stretch;
      k := n - 1;
      if o < segments[k].baseOffset {
        assert Joined(k);
        k := Holder(o, k);
      }
    }

    /** Every message carries the offset it stands at. */
    lemma Offsets()
      requires Valid()
      ensures forall i | 0 <= i < |log| :: log[i].offset == headOffset + i
    {
      hide Image, History, Lawful, Flatten, Stretch;
      forall i | 0 <= i < |log| ensures log[i].offset == headOffset + i {
        var o := headOffset + i;
        var k := Holder(o, |segments|);
        var s := segments[k];
        assert Part(k);
        s.LogOffsets();
        StretchSlice(s.baseOffset, s.Log(), headOffset, log, o, o + 1);
        assert s.Log()[o - s.baseOffset..o + 1 - s.baseOffset][0] == log[o - headOffset..o + 1 - headOffset][0];
      }
    }

    lemma LogSize()
      requires Valid()
      ensures tailOffset == headOffset + |log|
    {
    }

    lemma AlignedStart(i: nat, j: nat, b: Batch, o: nat)
      requires BatchAt(i, j, b) && Aligned(o) && b.baseOffset <= o < b.NextOffset()
      ensures b.baseOffset == o
    {
    }

    lemma BatchInside(i: nat, j: nat, b: Batch)
      requires Valid() && BatchAt(i, j, b)
      ensures headOffset <= b.baseOffset && b.NextOffset() <= tailOffset
    {
      hide Valid, ToMessages, BatchAt;
      BatchMessages(i, j, b);
    }

    /** The messages of one batch from the start on, as far as there is room. */
    method Take(got: seq<Message>, b: Batch, ghost i: nat, ghost j: nat, start: nat, limit: nat)
      returns (all: seq<Message>, full: bool)
      requires Valid() && BatchAt(i, j, b) && headOffset <= start && |got| < limit
      requires b.baseOffset <= start + |got| < b.NextOffset() && (got != [] ==> b.baseOffset == start + |got|)
      requires start + |got| <= tailOffset && got == log[start - headOffset..start + |got| - headOffset]
      ensures |all| <= limit && start + |all| <= tailOffset &&
        all == log[start - headOffset..start + |all| - headOffset]
      ensures if full then |all| == limit else start + |all| == b.NextOffset()
    {
      hide Valid, ToMessages, BatchAt;
      LogSize();
      all := got;
      BatchMessages(i, j, b);
      var ms := ToMessages(b);
      for k := 0 to |ms|
        invariant |all| < limit && start + |all| == Max(start + |got|, b.baseOffset + k)
        invariant start + |all| <= tailOffset && all == log[start - headOffset..start + |all| - headOffset]
      {
        if ms[k].offset >= start {
          SliceOn(log, start - headOffset, start + |all| - headOffset);
          all := all + [ms[k]];
          if |all| >= limit {
            return all, true;
          }
        }
      }
      full := false;
    }

    /** Adapter.ReadBatch: batch after batch, skipping what lies before the start. */
    method ReadMessages(start: nat, limit: int) returns (r: Result<seq<Message>, ManagerError>)
      requires Valid()
      ensures r == if limit <= 0 || tailOffset <= start then Ok([])
                   else if closed then Err(Closed)
                   else Ok(FlatLog.Slice(Flat(), start, tailOffset, limit))
    {
      hide Valid, Aligned, ToMessages, BatchAt, ReadSoFar, FlatLog.Slice;
      LogSize();
      if limit <= 0 {
        return Ok([]);
      }
      var tail := tailOffset;
      if start >= tail {
        return Ok([]);
      }
      var result, current := [], start;
      ReadBegins(Flat(), start, tail, limit);
      while current < tail && |result| < limit
        invariant closed ==> current == start && result == []
        invariant ReadSoFar(Flat(), start, tail, limit, current, result) && (current == start || Aligned(current))
        decreases tail - current
      {
        var batch, i, j := ReadBatch(current);
        if batch.Err? {
          if batch.error == OutOfRange {
            break;
          }
          return Err(Closed);
        }
        var b := batch.value;
        BatchInside(i, j, b);
        SoFarIs(Flat(), start, tail, limit, current, result);
        if current != start {
          AlignedStart(i, j, b, current);
        }
        EndAligned(i, j, b);
        var full;
        result, full := Take(result, b, i, j, start, limit);
        current := start + |result|;
        SoFarNow(Flat(), start, tail, limit, current, result);
        if full {
          break;
        }
      }
      ReadEnds(Flat(), start, tail, limit, current, result);
      r := Ok(result);
    }

    // -------------------------------------------------------------------------
    // Reopening

    /** The directory as it stands, sorted by base offset. */
    method Files() returns (dir: seq<SegmentFile>, ghost fss: seq<seq<Frame>>, ghost bss: seq<seq<Batch>>)
      requires Valid()
      ensures Listing(codec, dir, fss, bss, headOffset, log)
      ensures var n := |dir| - 1;
        dir[n] == SegmentFile(active.baseOffset, active.file) && fss[n] == active.frames && bss[n] == active.batches
    {
      hide Valid;
      dir, fss, bss := [], [], [];
      for i := 0 to |segments|
        invariant |dir| == |fss| == |bss| == i
        invariant forall k: nat | k < i :: Lists(dir[k], fss[k], bss[k], segments[k])
      {
        dir := dir + [SegmentFile(segments[i].baseOffset, segments[i].file)];
        fss, bss := fss + [segments[i].frames], bss + [segments[i].batches];
        assert Lists(dir[i], fss[i], bss[i], segments[i]);
      }
      Listed(dir, fss, bss);
    }

    lemma Listed(dir: seq<SegmentFile>, fss: seq<seq<Frame>>, bss: seq<seq<Batch>>)
      requires Valid() && |dir| == |fss| == |bss| == |segments|
      requires forall k: nat | k < |dir| :: Lists(dir[k], fss[k], bss[k], segments[k])
      ensures Listing(codec, dir, fss, bss, headOffset, log)
      ensures var n := |dir| - 1; Lists(dir[n], fss[n], bss[n], active)
    {
      hide ScanFrom, WellFramed, Holds, Chain, Written, Join, KnownOf, Flatten, Stretch, Lawful;
      var n := |segments| - 1;
      assert Lists(dir[0], fss[0], bss[0], segments[0]) && Lists(dir[n], fss[n], bss[n], segments[n]) && Part(n);
      forall i: nat | i <= n ensures FileHolds(codec, dir[i], fss[i], bss[i], headOffset, log) {
        assert Part(i) && Lists(dir[i], fss[i], bss[i], segments[i]);
      }
      forall i | 0 < i <= n ensures NextFile(dir, bss, i) {
        assert Joined(i) && Part(i - 1) && Lists(dir[i], fss[i], bss[i], segments[i]);
        assert Lists(dir[i - 1], fss[i - 1], bss[i - 1], segments[i - 1]);
      }
    }

    /** Closing and opening again changes nothing. */
    method Reopen() returns (m: SegmentManager)
      requires Valid()
      ensures fresh(m) && fresh(m.segments) && m.Valid() && !m.closed
      ensures m.log == log && m.headOffset == headOffset && m.tailOffset == tailOffset
    {
      hide Listing, Part, Joined;
      var dir, fss, bss := Files();
      ListingHead(codec, dir, fss, bss, headOffset, log);
      m := new SegmentManager.Load(codec, config, dir, fss, bss, log);
    }

    /**
     A crash that leaves only the first n bytes of the active segment's file, and
     the recovery and opening after it: the log is cut behind its last whole batch.
     */
    method CrashAndReopen(n: nat) returns (m: SegmentManager, ghost k: nat)
      requires Valid() && n <= |active.file|
      ensures fresh(m) && fresh(m.segments) && m.Valid() && !m.closed
      ensures m.log <= log && m.headOffset == headOffset
      ensures k <= |active.frames| == |active.batches| && m.tailOffset == NextOf(active.baseOffset, active.batches[..k])
      ensures |Join(active.frames[..k])| <= n && (k < |active.frames| ==> n < |Join(active.frames[..k + 1])|)
    {
      hide Listing, Part, Joined, Image, Written, Join, KnownOf, Lawful;
      var dir, fss, bss := Files();
      var last := |dir| - 1;
      ActiveLast();
      var kept, messages := RecoverSegment(codec, active.file[..n]);
      k := CrashLeavesFront(codec, active.baseOffset, active.frames, active.batches, n);
      ListingHead(codec, dir, fss, bss, headOffset, log);
      ghost var dir', front;
      dir', fss, bss, front := ListingFront(codec, dir, fss, bss, headOffset, log, k);
      dir := dir[last := SegmentFile(active.baseOffset, kept)];
      ListingHead(codec, dir, fss, bss, headOffset, front);
      m := new SegmentManager.Load(codec, config, dir, fss, bss, front);
    }
  }

  twostate predicate SameContent(s: Segment)
    reads s
  {
    && s.file == old(s.file) && s.Known() == old(s.Known()) && s.batches == old(s.batches) && s.frames == old(s.frames)
  }

  ghost predicate Lists(f: SegmentFile, fs: seq<Frame>, bs: seq<Batch>, s: Segment)
    reads s
  {
    f == SegmentFile(s.baseOffset, s.file) && fs == s.frames && bs == s.batches
  }

  lemma ListingHead(
    codec: Codec, dir: seq<SegmentFile>, fss: seq<seq<Frame>>, bss: seq<seq<Batch>>, head: nat, log: seq<Message>)
    requires Listing(codec, dir, fss, bss, head, log)
    ensures dir != [] && |dir| == |fss| == |bss| && head == dir[0].base
    ensures head + |log| == NextOf(dir[|dir| - 1].base, bss[|dir| - 1])
  {
  }

  ghost predicate LoadedAs(s: Segment, codec: Codec, f: SegmentFile, fs: seq<Frame>, bs: seq<Batch>, readonly: bool)
    reads s
  {
    && s.Valid() && s.codec == codec && !s.closed && s.readonly == readonly
    && s.baseOffset == f.base && s.nextOffset == NextOf(f.base, bs) && s.Log() == Flatten(bs)
    && (bs != [] ==> f.base < s.nextOffset)
  }

  ghost function Sizes(segs: seq<Segment>): (sizes: seq<nat>)
    reads segs
    ensures |sizes| == |segs|
  {
    seq(|segs|, i requires 0 <= i < |segs| reads segs => segs[i].size)
  }

  function Sum(sizes: seq<nat>): nat {
    if sizes == [] then 0 else sizes[0] + Sum(sizes[1..])
  }

  /** A front went: no more than had to, and unless one is left, enough. */
  ghost predicate CutToSize(before: seq<nat>, after: seq<nat>, limit: nat) {
    && |after| <= |before| && after == before[|before| - |after|..]
    && (|after| < |before| ==> Sum(before[|before| - |after| - 1..]) > limit)
    && (1 < |after| ==> Sum(after) <= limit)
  }

  lemma SumRest(sizes: seq<nat>, k: nat)
    requires k < |sizes|
    ensures Sum(sizes[k..]) == sizes[k] + Sum(sizes[k + 1..])
  {
    assert sizes[k..][1..] == sizes[k + 1..];
  }
}
