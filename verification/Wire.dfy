/**
 The Protocol Buffers wire format, as far as the envelope codec uses it: tagged
 fields, read by walking over them, and nested messages written in place.
 */
module Wire {
  import opened Prelude
  import opened Encoding
  import opened Buffers

  datatype Field = Varint(number: nat, value: nat) | Blob(number: nat, raw: Bytes)

  datatype Error =
    | Malformed
    | WrongWireType(number: nat)
    | TooLarge(number: nat)
    | UnsupportedVersion(version: nat)
    | UnsupportedProtocol
    | UnsupportedQueueState
    | CarriesPayload
    | CarriesKey

  const VARINT: nat := 0
  const FIXED64: nat := 1
  const BYTES: nat := 2
  const FIXED32: nat := 5
  const MAX_NUMBER: nat := 0x7fff_ffff

  // ---------------------------------------------------------------------------
  // Writing

  function PutTag(number: nat, wireType: nat): (s: Bytes)
    ensures 0 < |s|
  {
    PutUvarint(8 * number + wireType)
  }

  function PutField(f: Field): (s: Bytes)
    ensures 0 < |s|
  {
    match f
    case Varint(n, v) => PutTag(n, VARINT) + PutUvarint(v)
    case Blob(n, raw) => PutTag(n, BYTES) + PutBytes(raw)
  }

  function PutFields(fs: seq<Field>): (s: Bytes)
    ensures s == [] <==> fs == []
  {
    if fs == [] then [] else PutField(fs[0]) + PutFields(fs[1..])
  }

  /** Fields left out when they hold their default. */
  function Text(number: nat, value: Bytes): seq<Field> {
    if value == [] then [] else [Blob(number, value)]
  }

  function Number(number: nat, value: nat): seq<Field> {
    if value == 0 then [] else [Varint(number, value)]
  }

  function Flag(number: nat, value: bool): seq<Field> {
    if value then [Varint(number, 1)] else []
  }

  /** A nested message; an empty one is left out altogether. */
  function Nested(number: nat, body: Bytes): seq<Field> {
    if body == [] then [] else [Blob(number, body)]
  }

  lemma {:induction false} PutFieldsCat(a: seq<Field>, b: seq<Field>)
    ensures PutFields(a + b) == PutFields(a) + PutFields(b)
  {
    if a == [] {
      assert a + b == b;
    } else {
      assert (a + b)[1..] == a[1..] + b;
      PutFieldsCat(a[1..], b);
    }
  }

  lemma PutFieldsOne(f: Field)
    ensures PutFields([f]) == PutField(f)
  {
    assert [f][1..] == [];
  }

  // ---------------------------------------------------------------------------
  // Reading

  /** The numbers and values fit what a tag and a varint can carry. */
  ghost predicate FieldFits(f: Field) {
    1 <= f.number <= MAX_NUMBER && if f.Varint? then f.value < TWO64 else |f.raw| < TWO63
  }

  ghost predicate FieldsFit(fs: seq<Field>) {
    forall f <- fs :: FieldFits(f)
  }

  /** As FieldFits, but for the length of raw bytes, which the length of the whole bounds. */
  ghost predicate Typed(fs: seq<Field>) {
    forall f <- fs :: 1 <= f.number <= MAX_NUMBER && (f.Varint? ==> f.value < TWO64)
  }

  lemma {:induction false} RawShorter(fs: seq<Field>, f: Field)
    requires f in fs && f.Blob?
    ensures |f.raw| < |PutFields(fs)|
  {
    if f != fs[0] {
      RawShorter(fs[1..], f);
    }
  }

  lemma FitBySize(fs: seq<Field>)
    requires Typed(fs) && |PutFields(fs)| < TWO63
    ensures FieldsFit(fs)
  {
    forall f <- fs ensures FieldFits(f) {
      if f.Blob? {
        RawShorter(fs, f);
      }
    }
  }

  /** A field, or nothing for one of a type that is skipped. */
  datatype Taken = Taken(field: Option<Field>, next: nat)

  function TakeValue(s: Bytes, p: nat, number: nat, wireType: nat): (r: Result<Taken, Error>)
    requires p <= |s|
    ensures r.Ok? ==> p <= r.value.next <= |s|
  {
    if wireType == VARINT then
      match GetUvarint(s, p)
      case Value(v, n) => Ok(Taken(Some(Varint(number, v)), p + n))
      case _ => Err(Malformed)
    else if wireType == BYTES then
      match GetUvarint(s, p)
      case Value(v, n) =>
        if v > |s| - (p + n) then Err(Malformed)
        else Ok(Taken(Some(Blob(number, s[p + n..p + n + v])), p + n + v))
      case _ => Err(Malformed)
    else if wireType == FIXED64 && p + 8 <= |s| then Ok(Taken(None, p + 8))
    else if wireType == FIXED32 && p + 4 <= |s| then Ok(Taken(None, p + 4))
    else Err(Malformed)
  }

  function Take(s: Bytes, p: nat): (r: Result<Taken, Error>)
    requires p <= |s|
    ensures r.Ok? ==> p < r.value.next <= |s|
  {
    match GetUvarint(s, p)
    case Value(tag, n) =>
      if 1 <= tag / 8 <= MAX_NUMBER then TakeValue(s, p + n, tag / 8, tag % 8) else Err(Malformed)
    case _ => Err(Malformed)
  }

  /** walkFields: each field in turn changes what has been decoded so far, or ends the walk with an error. */
  function WalkFrom<S>(s: Bytes, p: nat, visit: (S, Field) -> Result<S, Error>, got: S): Result<S, Error>
    requires p <= |s|
    decreases |s| - p
  {
    if p == |s| then Ok(got)
    else
      match Take(s, p)
      case Err(e) => Err(e)
      case Ok(t) =>
        match (if t.field.None? then Ok(got) else visit(got, t.field.value))
        case Err(e) => Err(e)
        case Ok(next) => WalkFrom(s, t.next, visit, next)
  }

  /** The loop. */
  method WalkFields<S>(s: Bytes, visit: (S, Field) -> Result<S, Error>, start: S) returns (r: Result<S, Error>)
    ensures r == WalkFrom(s, 0, visit, start)
  {
    hide Take;
    var p, got := 0, start;
    while p < |s|
      invariant p <= |s| && WalkFrom(s, 0, visit, start) == WalkFrom(s, p, visit, got)
      decreases |s| - p
    {
      var t := Take(s, p);
      if t.Err? {
        return Err(t.error);
      }
      if t.value.field.Some? {
        var next := visit(got, t.value.field.value);
        if next.Err? {
          return next;
        }
        got := next.value;
      }
      p := t.value.next;
    }
    r := Ok(got);
  }

  /** The visits a list of fields leads to. */
  function Fold<S>(visit: (S, Field) -> Result<S, Error>, got: S, fs: seq<Field>): Result<S, Error> {
    if fs == [] then Ok(got)
    else
      match visit(got, fs[0])
      case Err(e) => Err(e)
      case Ok(next) => Fold(visit, next, fs[1..])
  }

  /** A field that was written is the field that is read. */
  lemma TakePut(s: Bytes, p: nat, f: Field)
    requires FieldFits(f) && At(s, p, PutField(f))
    ensures Take(s, p) == Ok(Taken(Some(f), p + |PutField(f)|))
  {
    var tag := 8 * f.number + if f.Varint? then VARINT else BYTES;
    hide PutUvarint, GetUvarint, At;
    if f.Varint? {
      AtSplit(s, p, PutUvarint(tag), PutUvarint(f.value));
      GetPutUvarint(s, p + |PutUvarint(tag)|, f.value);
    } else {
      AtSplit(s, p, PutUvarint(tag), PutBytes(f.raw));
      AtSplit(s, p + |PutUvarint(tag)|, PutUvarint(|f.raw|), f.raw);
      GetPutUvarint(s, p + |PutUvarint(tag)|, |f.raw|);
      AtSlice(s, p + |PutUvarint(tag)| + |PutUvarint(|f.raw|)|, f.raw);
      AtEnd(s, p + |PutUvarint(tag)| + |PutUvarint(|f.raw|)|, f.raw);
    }
    GetPutUvarint(s, p, tag);
    TagParts(f.number, if f.Varint? then VARINT else BYTES);
  }

  lemma AtEnd(s: Bytes, p: nat, piece: Bytes)
    requires At(s, p, piece)
    ensures p + |piece| <= |s|
  {
  }

  lemma TagParts(number: nat, wireType: nat)
    requires wireType < 8
    ensures (8 * number + wireType) / 8 == number && (8 * number + wireType) % 8 == wireType
  {
  }

  lemma {:induction false} WalkPut<S>(s: Bytes, p: nat, visit: (S, Field) -> Result<S, Error>, got: S, fs: seq<Field>)
    requires FieldsFit(fs) && At(s, p, PutFields(fs)) && p + |PutFields(fs)| == |s|
    ensures WalkFrom(s, p, visit, got) == Fold(visit, got, fs)
    decreases |fs|
  {
    hide Take, PutField, At;
    if fs != [] {
      AtSplit(s, p, PutField(fs[0]), PutFields(fs[1..]));
      assert FieldFits(fs[0]);
      TakePut(s, p, fs[0]);
      match visit(got, fs[0])
      case Err(_) =>
      case Ok(next) => WalkPut(s, p + |PutField(fs[0])|, visit, next, fs[1..]);
    }
  }

  /** Walking over what was written is visiting the fields in order. */
  lemma WalkWritten<S>(visit: (S, Field) -> Result<S, Error>, got: S, fs: seq<Field>)
    requires FieldsFit(fs)
    ensures WalkFrom(PutFields(fs), 0, visit, got) == Fold(visit, got, fs)
  {
    hide WalkFrom, Fold, At, FieldsFit;
    AtWhole(PutFields(fs));
    WalkPut(PutFields(fs), 0, visit, got, fs);
  }

  lemma {:induction false} FoldCat<S>(visit: (S, Field) -> Result<S, Error>, got: S, a: seq<Field>, b: seq<Field>)
    ensures Fold(visit, got, a + b) == match Fold(visit, got, a) case Err(e) => Err(e) case Ok(x) => Fold(visit, x, b)
    decreases |a|
  {
    if a == [] {
      assert a + b == b;
    } else {
      assert (a + b)[1..] == a[1..] + b && (a + b)[0] == a[0];
      match visit(got, a[0])
      case Err(_) =>
      case Ok(next) => FoldCat(visit, next, a[1..], b);
    }
  }

  /** A slot of a message, absent or one field, takes what was decoded from one value to the next. */
  ghost predicate Slot<S>(visit: (S, Field) -> Result<S, Error>, got: S, slot: seq<Field>, end: S) {
    if slot == [] then end == got else |slot| == 1 && visit(got, slot[0]) == Ok(end)
  }

  /** The first slot of a message. */
  lemma Start<S>(visit: (S, Field) -> Result<S, Error>, got: S, a: seq<Field>, end: S)
    requires Slot(visit, got, a, end)
    ensures Fold(visit, got, a) == Ok(end)
  {
    assert a != [] ==> a[1..] == [];
  }

  /** One more slot, decoded behind those before it. */
  lemma Then<S>(visit: (S, Field) -> Result<S, Error>, got: S, a: seq<Field>, mid: S, b: seq<Field>, end: S)
    requires Fold(visit, got, a) == Ok(mid) && Slot(visit, mid, b, end)
    ensures Fold(visit, got, a + b) == Ok(end)
  {
    FoldCat(visit, got, a, b);
    assert b != [] ==> b[1..] == [];
  }

  // ---------------------------------------------------------------------------
  // Nested messages, written in place

  /** beginNested: the tag, and one byte kept for the length. */
  method BeginNested(w: BufferWriter, number: nat) returns (tagAt: nat, bodyAt: nat)
    requires w.Valid() && number <= MAX_NUMBER
    modifies w, w.buf
    ensures w.Valid() && (w.buf == old(w.buf) || fresh(w.buf))
    ensures tagAt == |old(w.Contents())| < bodyAt == w.pos
    ensures w.Contents() == old(w.Contents()) + (PutTag(number, BYTES) + [0])
  {
    tagAt := w.pos;
    w.WriteUvarint(8 * number + BYTES);
    w.WriteRawBytes([0]);
    bodyAt := w.pos;
  }

  /** Moves everything from `at` on up by `gap`, from the back so that nothing is overwritten before it is read. */
  method ShiftUp(w: BufferWriter, at: nat, gap: nat)
    requires w.Valid() && at <= w.pos && w.pos + gap <= w.buf.Length
    modifies w`pos, w.buf
    ensures w.Valid() && w.pos == old(w.pos) + gap
    ensures w.Contents()[..at] == old(w.Contents())[..at] && w.Contents()[at + gap..] == old(w.Contents())[at..]
  {
    ghost var was := w.Contents();
    var i := w.pos;
    while i > at
      invariant at <= i <= w.pos == |was| && w.buf[..i] == was[..i]
      invariant w.buf[i + gap..w.pos + gap] == was[i..]
    {
      i := i - 1;
      ghost var tail := w.buf[i + 1 + gap..w.pos + gap];
      assert w.buf[i] == w.buf[..i + 1][i];
      w.buf[i + gap] := w.buf[i];
      assert w.buf[i + gap..w.pos + gap] == [was[i]] + tail;
    }
    w.pos := w.pos + gap;
    assert w.Contents()[at + gap..] == w.buf[at + gap..w.pos];
  }

  /** Overwrites bytes in the middle. */
  method PutAt(w: BufferWriter, at: nat, piece: Bytes)
    requires w.Valid() && at + |piece| <= w.pos
    modifies w.buf
    ensures w.Contents() == old(w.Contents())[..at] + piece + old(w.Contents())[at + |piece|..]
  {
    forall i | 0 <= i < |piece| {
      w.buf[at + i] := piece[i];
    }
  }

  /**
   endNested: the length goes into the byte kept for it, or, if it needs more, the
   body moves up to make room; an empty body takes the tag away again.
   */
  method EndNested(w: BufferWriter, ghost number: nat, tagAt: nat, bodyAt: nat)
    requires w.Valid() && tagAt < bodyAt <= w.pos && w.Contents()[tagAt..bodyAt] == PutTag(number, BYTES) + [0]
    modifies w, w.buf
    ensures w.Valid() && (w.buf == old(w.buf) || fresh(w.buf))
    ensures w.Contents() == old(w.Contents())[..tagAt] + PutFields(Nested(number, old(w.Contents())[bodyAt..]))
  {
    hide PutUvarint, PutTag;
    ghost var was := w.Contents();
    var size := w.pos - bodyAt;
    if size == 0 {
      w.pos := tagAt;
      return;
    }
    var prefix := PutUvarint(size);
    if |prefix| > 1 {
      w.Grow(|prefix| - 1);
      ShiftUp(w, bodyAt, |prefix| - 1);
    }
    ghost var shifted := w.Contents();
    PutAt(w, bodyAt - 1, prefix);
    Patched(was, shifted, number, tagAt, bodyAt);
  }

  /** The back-patch amounts to tag, length, body. */
  lemma Patched(was: Bytes, shifted: Bytes, number: nat, tagAt: nat, bodyAt: nat)
    requires tagAt < bodyAt < |was| && was[tagAt..bodyAt] == PutTag(number, BYTES) + [0]
    requires var n := |PutUvarint(|was| - bodyAt)|;
      |shifted| == |was| + n - 1 && shifted[..bodyAt] == was[..bodyAt] && shifted[bodyAt + n - 1..] == was[bodyAt..]
    ensures var prefix := PutUvarint(|was| - bodyAt);
      shifted[..bodyAt - 1] + prefix + shifted[bodyAt - 1 + |prefix|..] ==
      was[..tagAt] + PutFields(Nested(number, was[bodyAt..]))
  {
    hide PutUvarint, PutTag;
    FrontOfBody(was, tagAt, bodyAt, PutTag(number, BYTES));
    assert shifted[..bodyAt - 1] == shifted[..bodyAt][..bodyAt - 1] == was[..bodyAt - 1];
    PutFieldsOne(Blob(number, was[bodyAt..]));
  }

  lemma FrontOfBody(s: Bytes, tagAt: nat, bodyAt: nat, tag: Bytes)
    requires tagAt < bodyAt <= |s| && s[tagAt..bodyAt] == tag + [0]
    ensures s[..bodyAt - 1] == s[..tagAt] + tag
  {
    assert s[tagAt..bodyAt - 1] == s[tagAt..bodyAt][..bodyAt - 1 - tagAt] == tag;
  }

  /** One field: tag and value. */
  method AppendField(w: BufferWriter, f: Field)
    requires w.Valid() && FieldFits(f)
    modifies w, w.buf
    ensures w.Valid() && (w.buf == old(w.buf) || fresh(w.buf))
    ensures w.Contents() == old(w.Contents()) + PutField(f)
  {
    hide PutUvarint;
    w.WriteUvarint(8 * f.number + if f.Varint? then VARINT else BYTES);
    if f.Varint? {
      w.WriteUvarint(f.value);
    } else {
      w.WriteUvarint(|f.raw|);
      w.WriteRawBytes(f.raw);
    }
  }

  /** The plain fields of a message, one after the other. */
  method AppendFields(w: BufferWriter, fs: seq<Field>)
    requires w.Valid() && FieldsFit(fs)
    modifies w, w.buf
    ensures w.Valid() && (w.buf == old(w.buf) || fresh(w.buf))
    ensures w.Contents() == old(w.Contents()) + PutFields(fs)
  {
    hide PutField;
    ghost var before := w.Contents();
    assert fs[0..] == fs;
    for i := 0 to |fs|
      invariant w.Valid() && (w.buf == old(w.buf) || fresh(w.buf))
      invariant w.Contents() + PutFields(fs[i..]) == before + PutFields(fs)
    {
      ghost var done, rest := w.Contents(), fs[i..];
      assert FieldFits(fs[i]);
      AppendField(w, fs[i]);
      assert rest[1..] == fs[i + 1..];
      assert done + (PutField(rest[0]) + PutFields(rest[1..])) == w.Contents() + PutFields(rest[1..]);
    }
  }

  /** A nested message of plain fields. */
  method AppendNested(w: BufferWriter, number: nat, fs: seq<Field>)
    requires w.Valid() && FieldsFit(fs) && number <= MAX_NUMBER
    modifies w, w.buf
    ensures w.Valid() && (w.buf == old(w.buf) || fresh(w.buf))
    ensures w.Contents() == old(w.Contents()) + PutFields(Nested(number, PutFields(fs)))
  {
    hide PutFields, PutTag, FieldsFit;
    ghost var before := w.Contents();
    var tagAt, bodyAt := BeginNested(w, number);
    ghost var begun := w.Contents();
    AppendFields(w, fs);
    Opened(before, number, begun, w.Contents(), PutFields(fs));
    EndNested(w, number, tagAt, bodyAt);
  }

  /** Where the pieces are once a body has been written behind an open tag. */
  lemma Opened(before: Bytes, number: nat, begun: Bytes, now: Bytes, body: Bytes)
    requires begun == before + (PutTag(number, BYTES) + [0]) && now == begun + body
    ensures now[..|before|] == before && now[|before|..|begun|] == PutTag(number, BYTES) + [0] && now[|begun|..] == body
  {
  }
}
