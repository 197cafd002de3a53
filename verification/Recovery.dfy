/**
 The bytes of a segment file: what scanning it on open accepts and rebuilds, and
 what recovery keeps of a damaged one.
 */
module Recovery {
  import opened Prelude
  import opened Encoding
  import opened Batches

  /** The size a batch at this position declares. */
  function FrameSize(s: Bytes, p: nat): (n: nat)
    requires p + HEADER <= |s|
    ensures n >= HEADER
  {
    HEADER + Field(s, p + 16, 4)
  }

  /** A batch with the right magic stands at p and ends at or before e. */
  predicate Framed(s: Bytes, p: nat, e: nat) {
    p + HEADER <= e <= |s| && Field(s, p, 4) == MAGIC && p + FrameSize(s, p) <= e
  }

  /** It also carries the checksum of its own bytes. */
  predicate Sound(codec: Codec, s: Bytes, p: nat, e: nat) {
    Framed(s, p, e) && Field(s, p + 4, 4) == codec.checksum(s[p + 8..p + FrameSize(s, p)])
  }

  /** From p to e stand sound batches and nothing else. */
  predicate Run(codec: Codec, s: Bytes, p: nat, e: nat)
    decreases e - p
  {
    p == e || (Sound(codec, s, p, e) && Run(codec, s, p + FrameSize(s, p), e))
  }

  predicate WellFramed(codec: Codec, s: Bytes) {
    Run(codec, s, 0, |s|)
  }

  // ---------------------------------------------------------------------------
  // Recovery

  /** Where the run of sound batches that starts at p stops. */
  function ValidEnd(codec: Codec, s: Bytes, p: nat): (r: nat)
    requires p <= |s|
    ensures p <= r <= |s|
    decreases |s| - p
  {
    if Sound(codec, s, p, |s|) then ValidEnd(codec, s, p + FrameSize(s, p)) else p
  }

  function Recovered(codec: Codec, s: Bytes): Bytes {
    s[..ValidEnd(codec, s, 0)]
  }

  /** The records the batches from p to e claim to hold. */
  function Records(codec: Codec, s: Bytes, p: nat, e: nat): nat
    requires Run(codec, s, p, e)
    decreases e - p
  {
    if p == e then 0 else Field(s, p + 20, 2) + Records(codec, s, p + FrameSize(s, p), e)
  }

  /** Whether a batch stands at a position depends on the bytes up to its end alone. */
  lemma SoundLocal(codec: Codec, s: Bytes, t: Bytes, p: nat, e: nat)
    requires e <= |s| && e <= |t| && s[..e] == t[..e]
    ensures Sound(codec, s, p, e) == Sound(codec, t, p, e)
    ensures Sound(codec, s, p, e) ==> FrameSize(s, p) == FrameSize(t, p)
  {
    if p + HEADER <= e {
      assert forall a, b | 0 <= a <= b <= e :: s[a..b] == s[..e][a..b];
      assert forall a, b | 0 <= a <= b <= e :: t[a..b] == t[..e][a..b];
      assert s[p + 16..p + 20] == t[p + 16..p + 20] && s[p..p + 4] == t[p..p + 4] && s[p + 4..p + 8] == t[p + 4..p + 8];
      if p + FrameSize(s, p) <= e {
        assert s[p + 8..p + FrameSize(s, p)] == t[p + 8..p + FrameSize(s, p)];
      }
    }
  }

  lemma {:induction false} RunLocal(codec: Codec, s: Bytes, t: Bytes, p: nat, e: nat)
    requires e <= |s| && e <= |t| && s[..e] == t[..e]
    ensures Run(codec, s, p, e) == Run(codec, t, p, e)
    decreases e - p
  {
    hide Sound, FrameSize;
    SoundLocal(codec, s, t, p, e);
    if Sound(codec, s, p, e) {
      SoundSize(codec, s, p, e);
      RunLocal(codec, s, t, p + FrameSize(s, p), e);
    }
  }

  lemma SoundSize(codec: Codec, s: Bytes, p: nat, e: nat)
    requires Sound(codec, s, p, e)
    ensures p + HEADER <= |s| && p + FrameSize(s, p) <= e <= |s|
  {
  }

  /** A batch that ends early enough for one bound does for any later one. */
  lemma SoundWithin(codec: Codec, s: Bytes, p: nat, e: nat, e': nat)
    requires e <= e' <= |s|
    ensures Sound(codec, s, p, e) ==> Sound(codec, s, p, e')
    ensures Sound(codec, s, p, e') && p + FrameSize(s, p) <= e ==> Sound(codec, s, p, e)
  {
  }

  lemma {:induction false} ValidEndRuns(codec: Codec, s: Bytes, p: nat)
    requires p <= |s|
    ensures Run(codec, s, p, ValidEnd(codec, s, p))
    decreases |s| - p
  {
    hide Sound, FrameSize;
    if Sound(codec, s, p, |s|) {
      SoundSize(codec, s, p, |s|);
      ValidEndRuns(codec, s, p + FrameSize(s, p));
      SoundWithin(codec, s, p, ValidEnd(codec, s, p), |s|);
    }
  }

  /** A run is never longer than what recovery walks over, and recovery goes on from its end. */
  lemma {:induction false} RunReaches(codec: Codec, s: Bytes, p: nat, e: nat)
    requires p <= e <= |s| && Run(codec, s, p, e)
    ensures ValidEnd(codec, s, p) == ValidEnd(codec, s, e)
    decreases e - p
  {
    hide Sound, FrameSize;
    if p < e {
      SoundWithin(codec, s, p, e, |s|);
      SoundSize(codec, s, p, e);
      RunReaches(codec, s, p + FrameSize(s, p), e);
    }
  }

  lemma {:induction false} RecordsLocal(codec: Codec, s: Bytes, t: Bytes, p: nat, e: nat)
    requires e <= |s| && e <= |t| && s[..e] == t[..e] && Run(codec, s, p, e)
    ensures Run(codec, t, p, e) && Records(codec, s, p, e) == Records(codec, t, p, e)
    decreases e - p
  {
    hide Sound, FrameSize;
    RunLocal(codec, s, t, p, e);
    if p != e {
      SoundLocal(codec, s, t, p, e);
      SoundSize(codec, s, p, e);
      assert s[p + 20..p + 22] == s[..e][p + 20..p + 22] == t[p + 20..p + 22];
      RecordsLocal(codec, s, t, p + FrameSize(s, p), e);
    }
  }

  /** Recovery keeps the longest prefix that is made of sound batches. */
  lemma LongestSoundPrefix(codec: Codec, s: Bytes)
    ensures WellFramed(codec, Recovered(codec, s))
    ensures forall q | 0 <= q <= |s| && WellFramed(codec, s[..q]) :: q <= |Recovered(codec, s)|
  {
    hide Run, ValidEnd;
    var r := ValidEnd(codec, s, 0);
    ValidEndRuns(codec, s, 0);
    RunLocal(codec, s, s[..r], 0, r);
    forall q | 0 <= q <= |s| && WellFramed(codec, s[..q]) ensures q <= r {
      RunLocal(codec, s, s[..q], 0, q);
      RunReaches(codec, s, 0, q);
    }
  }

  /** On a file of sound batches there is nothing to cut. */
  lemma SoundFileKept(codec: Codec, s: Bytes)
    requires WellFramed(codec, s)
    ensures Recovered(codec, s) == s
  {
    RunReaches(codec, s, 0, |s|);
  }

  lemma RecoveryIdempotent(codec: Codec, s: Bytes)
    ensures Recovered(codec, Recovered(codec, s)) == Recovered(codec, s)
  {
    LongestSoundPrefix(codec, s);
    SoundFileKept(codec, Recovered(codec, s));
  }

  /** RecoverSegment, up to the rebuilding of the indexes: what is left of the file, and how many records it claims. */
  method RecoverSegment(codec: Codec, file: Bytes) returns (kept: Bytes, messages: nat)
    ensures kept == Recovered(codec, file)
    ensures WellFramed(codec, kept) && messages == Records(codec, kept, 0, |kept|)
  {
    hide FrameSize, Field;
    var pos, lastValid := 0, 0;
    messages := 0;
    ghost var end := ValidEnd(codec, file, 0);
    ValidEndRuns(codec, file, 0);
    while pos < |file|
      invariant pos == lastValid <= end <= |file| && ValidEnd(codec, file, pos) == end
      invariant Run(codec, file, pos, end)
      invariant messages + Records(codec, file, pos, end) == Records(codec, file, 0, end)
      decreases |file| - pos
    {
      if |file| - pos < HEADER || Field(file, pos, 4) != MAGIC {
        break;
      }
      var totalSize := FrameSize(file, pos);
      if pos + totalSize > |file| {
        break;
      }
      if Field(file, pos + 4, 4) != codec.checksum(file[pos + 8..pos + totalSize]) {
        break;
      }
      lastValid := pos + totalSize;
      messages := messages + Field(file, pos + 20, 2);
      pos := lastValid;
    }
    kept := file;
    if lastValid < |file| {
      kept := file[..lastValid];
    }
    assert pos == end && kept == file[..end];
    LongestSoundPrefix(codec, file);
    RecordsLocal(codec, file, kept, 0, end);
  }

  // ---------------------------------------------------------------------------
  // What encoding writes

  /** A batch as Encode lays it out, with what it says of itself. */
  datatype Frame = Frame(bytes: Bytes, baseOffset: nat, count: nat)

  /** Some batch of 1 to 65535 records encodes to these bytes. */
  ghost predicate IsFrame(codec: Codec, f: Frame) {
    exists b, flags, payload :: FrameOf(codec, f, b, flags, payload)
  }

  ghost predicate FrameOf(codec: Codec, f: Frame, b: Batch, flags: Flags, payload: Bytes) {
    && b.baseOffset < TWO64 && IsInt64(b.baseTimestamp) && IsInt64(b.maxTimestamp) && FitsWord(flags)
    && |payload| < TWO32
    && f.bytes == PutFrame(codec, b, flags, payload)
    && f.baseOffset == b.baseOffset && f.count == |b.records| && 0 < f.count < TWO16
  }

  /** The fields recovery and scan look at, in a batch as it was encoded. */
  lemma FrameFields(codec: Codec, f: Frame)
    requires Lawful(codec) && IsFrame(codec, f)
    ensures HEADER <= |f.bytes| && var h := ReadHeader(f.bytes);
      && h.magic == MAGIC && h.crc == codec.checksum(f.bytes[8..]) && HEADER + h.length == |f.bytes|
      && h.baseOffset == f.baseOffset && h.count == f.count
  {
    hide Lawful, PutFrame, PutBody, ReadHeader, Word;
    var b, flags, payload :| FrameOf(codec, f, b, flags, payload);
    FrameHeader(codec, b, flags, payload);
  }

  lemma FieldIn(s: Bytes, p: nat, piece: Bytes, q: nat, n: nat)
    requires At(s, p, piece) && q + n <= |piece|
    ensures Field(s, p + q, n) == Field(piece, q, n)
  {
    assert s[p + q..p + q + n] == piece[q..q + n];
  }

  /** Standing anywhere in a file, an encoded batch is sound and spans exactly its own bytes. */
  lemma FrameSound(codec: Codec, f: Frame, s: Bytes, p: nat)
    requires Lawful(codec) && IsFrame(codec, f) && At(s, p, f.bytes)
    ensures Sound(codec, s, p, p + |f.bytes|) && FrameSize(s, p) == |f.bytes|
    ensures Field(s, p + 8, 8) == f.baseOffset && Field(s, p + 20, 2) == f.count
  {
    hide Lawful, IsFrame, Field;
    FrameFields(codec, f);
    FieldIn(s, p, f.bytes, 0, 4);
    FieldIn(s, p, f.bytes, 4, 4);
    FieldIn(s, p, f.bytes, 8, 8);
    FieldIn(s, p, f.bytes, 16, 4);
    FieldIn(s, p, f.bytes, 20, 2);
    assert s[p + 8..p + |f.bytes|] == f.bytes[8..];
  }

  /** Anything less than a whole encoded batch does not pass for one. */
  lemma TornFrameNotSound(codec: Codec, f: Frame, s: Bytes, p: nat, n: nat)
    requires Lawful(codec) && IsFrame(codec, f) && n < |f.bytes| && |s| == p + n && At(s, p, f.bytes[..n])
    ensures !Sound(codec, s, p, |s|)
  {
    hide Lawful, IsFrame, Field;
    FrameFields(codec, f);
    if HEADER <= n {
      FieldIn(s, p, f.bytes[..n], 16, 4);
      AtWhole(f.bytes);
      AtSplit(f.bytes, 0, f.bytes[..n], f.bytes[n..]);
      assert f.bytes[..n] + f.bytes[n..] == f.bytes;
      FieldIn(f.bytes, 0, f.bytes[..n], 16, 4);
    }
  }

  lemma {:induction false} RunExtends(codec: Codec, s: Bytes, p: nat, e: nat, e': nat)
    requires p <= e <= e' <= |s| && Run(codec, s, p, e) && Run(codec, s, e, e')
    ensures Run(codec, s, p, e')
    decreases e - p
  {
    hide Sound, FrameSize;
    if p < e {
      SoundSize(codec, s, p, e);
      SoundWithin(codec, s, p, e, e');
      RunExtends(codec, s, p + FrameSize(s, p), e, e');
    }
  }

  /** Appending an encoded batch to a sound file leaves it sound. */
  lemma AppendKeepsSound(codec: Codec, log: Bytes, f: Frame)
    requires Lawful(codec) && WellFramed(codec, log) && IsFrame(codec, f)
    ensures WellFramed(codec, log + f.bytes)
  {
    hide Lawful, IsFrame, Sound, FrameSize;
    var s := log + f.bytes;
    assert s[..|log|] == log[..|log|];
    RunLocal(codec, log, s, 0, |log|);
    FrameSound(codec, f, s, |log|);
    SoundSize(codec, s, |log|, |s|);
    assert Run(codec, s, |s|, |s|);
    assert Run(codec, s, |log|, |s|);
    RunExtends(codec, s, 0, |log|, |s|);
  }

  /** A write that was cut short anywhere is cut off again, and nothing else is. */
  lemma TornAppendRecovers(codec: Codec, log: Bytes, f: Frame, n: nat)
    requires Lawful(codec) && WellFramed(codec, log) && IsFrame(codec, f) && n < |f.bytes|
    ensures Recovered(codec, log + f.bytes[..n]) == log
  {
    hide Lawful, IsFrame, Sound, FrameSize, Run;
    var s := log + f.bytes[..n];
    assert s[..|log|] == log[..|log|];
    RunLocal(codec, log, s, 0, |log|);
    RunReaches(codec, s, 0, |log|);
    TornFrameNotSound(codec, f, s, |log|, n);
  }

  // ---------------------------------------------------------------------------
  // Scanning on open

  datatype Position = Position(offset: nat, position: nat, size: nat)

  /** What a segment knows of its file. */
  datatype Summary = Summary(positions: seq<Position>, nextOffset: nat, msgCount: nat, size: nat)

  datatype ScanError = TrailingBytes(at: nat) | BadMagic(at: nat) | Overrun(at: nat)

  function ScanStep(s: Bytes, p: nat, known: Summary): Summary
    requires p + HEADER <= |s|
  {
    var base, count := Field(s, p + 8, 8), Field(s, p + 20, 2);
    Summary(known.positions + [Position(base, p, FrameSize(s, p))], base + count, known.msgCount + count,
            p + FrameSize(s, p))
  }

  function ScanFrom(s: Bytes, p: nat, known: Summary): Result<Summary, ScanError>
    requires p <= |s|
    decreases |s| - p
  {
    if p == |s| then Ok(known)
    else if |s| - p < HEADER then Err(TrailingBytes(p))
    else if Field(s, p, 4) != MAGIC then Err(BadMagic(p))
    else if p + FrameSize(s, p) > |s| then Err(Overrun(p))
    else ScanFrom(s, p + FrameSize(s, p), ScanStep(s, p, known))
  }

  function NewSummary(base: nat): Summary {
    Summary([], base, 0, 0)
  }

  /** scan, as OpenSegment runs it on a file it has just opened. */
  method ScanSegment(file: Bytes, base: nat) returns (r: Result<Summary, ScanError>)
    ensures r == ScanFrom(file, 0, NewSummary(base))
  {
    hide FrameSize, Field;
    var known, pos := NewSummary(base), 0;
    while pos < |file|
      invariant pos == known.size <= |file|
      invariant ScanFrom(file, 0, NewSummary(base)) == ScanFrom(file, pos, known)
      decreases |file| - pos
    {
      if |file| - pos < HEADER {
        return Err(TrailingBytes(pos));
      }
      if Field(file, pos, 4) != MAGIC {
        return Err(BadMagic(pos));
      }
      var totalSize := FrameSize(file, pos);
      if pos + totalSize > |file| {
        return Err(Overrun(pos));
      }
      var base, count := Field(file, pos + 8, 8), Field(file, pos + 20, 2);
      known := Summary(known.positions + [Position(base, pos, totalSize)], base + count, known.msgCount + count,
                       pos + totalSize);
      pos := pos + totalSize;
    }
    r := Ok(known);
  }

  lemma {:induction false} ScanAcceptsRun(codec: Codec, s: Bytes, p: nat, known: Summary)
    requires p <= |s| && Run(codec, s, p, |s|)
    ensures ScanFrom(s, p, known).Ok?
    decreases |s| - p
  {
    hide FrameSize, Field, ScanStep;
    if p < |s| {
      ScanAcceptsRun(codec, s, p + FrameSize(s, p), ScanStep(s, p, known));
    }
  }

  /** Whatever recovery leaves, the next open accepts. */
  lemma RecoveredOpens(codec: Codec, s: Bytes, base: nat)
    ensures ScanFrom(Recovered(codec, s), 0, NewSummary(base)).Ok?
  {
    hide Run, ScanFrom;
    LongestSoundPrefix(codec, s);
    ScanAcceptsRun(codec, Recovered(codec, s), 0, NewSummary(base));
  }

  /** Scanning a longer file does, over its front, what scanning the front did. */
  lemma {:induction false} ScanPrefix(s: Bytes, t: Bytes, p: nat, known: Summary)
    requires p <= |s| && ScanFrom(s, p, known).Ok?
    ensures ScanFrom(s + t, p, known) == ScanFrom(s + t, |s|, ScanFrom(s, p, known).value)
    decreases |s| - p
  {
    hide Field;
    if p < |s| {
      AtFront(s, t);
      FieldIn(s + t, 0, s, p, 4);
      FieldIn(s + t, 0, s, p + 8, 8);
      FieldIn(s + t, 0, s, p + 16, 4);
      FieldIn(s + t, 0, s, p + 20, 2);
      ScanPrefix(s, t, p + FrameSize(s, p), ScanStep(s, p, known));
    }
  }

  lemma AtFront(s: Bytes, t: Bytes)
    ensures At(s + t, 0, s)
  {
  }

  /** The summary after one more batch: what Append notes down without looking at the file. */
  function Noted(known: Summary, f: Frame): Summary {
    Summary(known.positions + [Position(f.baseOffset, known.size, |f.bytes|)],
            f.baseOffset + f.count, known.msgCount + f.count, known.size + |f.bytes|)
  }

  /** What Append notes is what scanning the file it wrote finds. */
  lemma ScanFindsAppend(codec: Codec, s: Bytes, base: nat, f: Frame)
    requires Lawful(codec) && IsFrame(codec, f)
    requires ScanFrom(s, 0, NewSummary(base)).Ok? && ScanFrom(s, 0, NewSummary(base)).value.size == |s|
    ensures ScanFrom(s + f.bytes, 0, NewSummary(base)) == Ok(Noted(ScanFrom(s, 0, NewSummary(base)).value, f))
  {
    hide Lawful, IsFrame, Field, FrameSize, ScanFrom, Sound, At;
    var known := ScanFrom(s, 0, NewSummary(base)).value;
    var t := s + f.bytes;
    ScanPrefix(s, f.bytes, 0, NewSummary(base));
    AtBack(s, f.bytes);
    FrameSound(codec, f, t, |s|);
    ScanLast(codec, t, |s|, known);
  }

  lemma AtBack(s: Bytes, t: Bytes)
    ensures At(s + t, |s|, t)
  {
  }

  lemma ScanLast(codec: Codec, s: Bytes, p: nat, known: Summary)
    requires Sound(codec, s, p, |s|) && p + FrameSize(s, p) == |s|
    ensures ScanFrom(s, p, known) == Ok(ScanStep(s, p, known))
  {
    hide Field, FrameSize, ScanStep;
    assert ScanFrom(s, |s|, ScanStep(s, p, known)) == Ok(ScanStep(s, p, known));
  }
}
