/**
 The growing write buffer and the read cursor the log's encoders work on, and the
 values that reading yields at a position.
 */
module Buffers {
  import opened Prelude
  import opened Encoding

  /** `LengthPanic` is a declared length of 2^63 or more, on which the source stops with a run-time panic. */
  datatype ReadError = UnexpectedEof | LengthPanic

  /** A value and the position behind it. */
  datatype Parsed<+T> = Parsed(value: T, next: nat)

  function ReadFixed(s: Bytes, p: nat, n: nat): (r: Result<Parsed<nat>, ReadError>)
    requires p <= |s|
    ensures r.Ok? ==> p <= r.value.next <= |s|
  {
    if |s| - p < n then Err(UnexpectedEof) else Ok(Parsed(GetFixed(s[p..p + n]), p + n))
  }

  function ReadUvarint(s: Bytes, p: nat): (r: Result<Parsed<nat>, ReadError>)
    requires p <= |s|
    ensures r.Ok? ==> r.value.value < TWO64 && p < r.value.next <= |s|
  {
    match GetUvarint(s, p)
    case Value(v, n) => Ok(Parsed(v, p + n))
    case _ => Err(UnexpectedEof)
  }

  function ReadVarint(s: Bytes, p: nat): (r: Result<Parsed<int>, ReadError>)
    requires p <= |s|
    ensures r.Ok? ==> p < r.value.next <= |s|
  {
    match GetUvarint(s, p)
    case Value(v, n) => Ok(Parsed(UnZigZag(v), p + n))
    case _ => Err(UnexpectedEof)
  }

  function ReadRaw(s: Bytes, p: nat, n: nat): (r: Result<Parsed<Bytes>, ReadError>)
    requires p <= |s|
    ensures r.Ok? ==> p <= r.value.next <= |s|
  {
    if |s| - p < n then Err(UnexpectedEof) else Ok(Parsed(s[p..p + n], p + n))
  }

  function ReadBytes(s: Bytes, p: nat): (r: Result<Parsed<Bytes>, ReadError>)
    requires p <= |s|
    ensures r.Ok? ==> p <= r.value.next <= |s|
  {
    match ReadUvarint(s, p)
    case Err(e) => Err(e)
    case Ok(n) => if n.value >= TWO63 then Err(LengthPanic) else ReadRaw(s, n.next, n.value)
  }

  function PutBytes(b: Bytes): Bytes {
    PutUvarint(|b|) + b
  }

  lemma ReadPutBytes(s: Bytes, p: nat, b: Bytes)
    requires |b| < TWO63 && At(s, p, PutBytes(b))
    ensures ReadBytes(s, p) == Ok(Parsed(b, p + |PutBytes(b)|))
  {
    AtSplit(s, p, PutUvarint(|b|), b);
    GetPutUvarint(s, p, |b|);
    AtSlice(s, p + |PutUvarint(|b|)|, b);
  }

  // ---------------------------------------------------------------------------

  class BufferWriter {
    var buf: array<byte>
    var pos: nat

    ghost predicate Valid()
      reads this
    {
      pos <= buf.Length
    }

    ghost function Contents(): Bytes
      requires Valid()
      reads this, buf
    {
      buf[..pos]
    }

    constructor (capacity: nat)
      ensures Valid() && fresh(buf) && Contents() == []
    {
      buf := new byte[capacity];
      pos := 0;
    }

    method Grow(n: nat)
      requires Valid()
      modifies this
      ensures Valid() && pos == old(pos) && pos + n <= buf.Length && (buf == old(buf) || fresh(buf))
      ensures Contents() == old(Contents())
    {
      if pos + n > buf.Length {
        var bigger := new byte[2 * (pos + n)];
        forall i | 0 <= i < pos {
          bigger[i] := buf[i];
        }
        buf := bigger;
      }
    }

    method WriteRawBytes(data: Bytes)
      requires Valid()
      modifies this, buf
      ensures Valid() && (buf == old(buf) || fresh(buf))
      ensures Contents() == old(Contents()) + data
    {
      Grow(|data|);
      forall i | 0 <= i < |data| {
        buf[pos + i] := data[i];
      }
      pos := pos + |data|;
    }

    /** WriteUint8, 16, 32 and 64: n is the width in bytes. */
    method WriteFixed(v: nat, n: nat)
      requires Valid()
      modifies this, buf
      ensures Valid() && (buf == old(buf) || fresh(buf))
      ensures Contents() == old(Contents()) + PutFixed(v, n)
    {
      WriteRawBytes(PutFixed(v, n));
    }

    /** WriteUvarint: the bytes go straight into the buffer, after room for ten was made. */
    method WriteUvarint(v: nat)
      requires Valid() && v < TWO64
      modifies this, buf
      ensures Valid() && (buf == old(buf) || fresh(buf))
      ensures Contents() == old(Contents()) + PutUvarint(v)
    {
      hide Cap, PutUvarint;
      Grow(MAX_VARINT_LEN);
      FirstCap();
      ghost var before := Contents();
      var left: nat, n := v, 0;
      while left >= 128
        invariant pos == |before| && pos + MAX_VARINT_LEN <= buf.Length && (buf == old(buf) || fresh(buf))
        invariant n < MAX_VARINT_LEN && left < Cap(n)
        invariant buf[..pos + n] + PutUvarint(left) == before + PutUvarint(v)
      {
        CapNext(n, left);
        ghost var done := buf[..pos + n];
        buf[pos + n] := 128 + left % 128;
        UvarintStep(done, left);
        assert buf[..pos + n + 1] == done + [128 + left % 128];
        left, n := left / 128, n + 1;
      }
      ghost var done := buf[..pos + n];
      buf[pos + n] := left;
      pos := pos + n + 1;
      UvarintStep(done, left);
      assert buf[..pos] == done + [left];
    }

    static lemma UvarintStep(done: Bytes, left: nat)
      ensures done + PutUvarint(left) ==
              if left < 128 then done + [left] else done + [128 + left % 128] + PutUvarint(left / 128)
    {
    }

    static lemma FirstCap()
      ensures Cap(0) == TWO64
    {
    }

    method WriteVarint(v: int)
      requires Valid() && IsInt64(v)
      modifies this, buf
      ensures Valid() && (buf == old(buf) || fresh(buf))
      ensures Contents() == old(Contents()) + PutVarint(v)
    {
      WriteUvarint(ZigZag(v));
    }

    /** Overwrites bytes that are already there, as the checksum field is filled in last. */
    method Patch(at: nat, v: nat, n: nat)
      requires Valid() && at + n <= pos
      modifies buf
      ensures Contents() == old(Contents())[..at] + PutFixed(v, n) + old(Contents())[at + n..]
    {
      var field := PutFixed(v, n);
      forall i | 0 <= i < n {
        buf[at + i] := field[i];
      }
    }
  }

  class BufferReader {
    const buf: Bytes
    var pos: nat

    ghost predicate Valid()
      reads this
    {
      pos <= |buf|
    }

    constructor (data: Bytes)
      ensures Valid() && buf == data && pos == 0
    {
      buf, pos := data, 0;
    }

    /** What a read leaves: the cursor behind the value, or where it was. */
    ghost predicate Took<T>(r: Result<T, ReadError>, spec: Result<Parsed<T>, ReadError>, was: nat)
      reads this
    {
      match spec
      case Ok(v) => r == Ok(v.value) && pos == v.next
      case Err(e) => r == Err(e) && was <= pos <= |buf|
    }

    method ReadUint(n: nat) returns (r: Result<nat, ReadError>)
      requires Valid()
      modifies this
      ensures Valid() && Took(r, ReadFixed(buf, old(pos), n), old(pos))
    {
      if |buf| - pos < n {
        return Err(UnexpectedEof);
      }
      r := Ok(GetFixed(buf[pos..pos + n]));
      pos := pos + n;
    }

    method ReadUnsigned() returns (r: Result<nat, ReadError>)
      requires Valid()
      modifies this
      ensures Valid() && Took(r, ReadUvarint(buf, old(pos)), old(pos))
    {
      match GetUvarint(buf, pos)
      case Value(v, n) =>
        r := Ok(v);
        pos := pos + n;
      case _ =>
        r := Err(UnexpectedEof);
    }

    method ReadSigned() returns (r: Result<int, ReadError>)
      requires Valid()
      modifies this
      ensures Valid() && Took(r, ReadVarint(buf, old(pos)), old(pos))
    {
      match GetUvarint(buf, pos)
      case Value(v, n) =>
        r := Ok(UnZigZag(v));
        pos := pos + n;
      case _ =>
        r := Err(UnexpectedEof);
    }

    method ReadRawBytes(n: nat) returns (r: Result<Bytes, ReadError>)
      requires Valid()
      modifies this
      ensures Valid() && Took(r, ReadRaw(buf, old(pos), n), old(pos))
    {
      if |buf| - pos < n {
        return Err(UnexpectedEof);
      }
      r := Ok(buf[pos..pos + n]);
      pos := pos + n;
    }

    method ReadPrefixed() returns (r: Result<Bytes, ReadError>)
      requires Valid()
      modifies this
      ensures Valid() && Took(r, ReadBytes(buf, old(pos)), old(pos))
    {
      var n := ReadUnsigned();
      if n.Err? {
        return Err(n.error);
      } else if n.value >= TWO63 {
        return Err(LengthPanic);
      }
      r := ReadRawBytes(n.value);
    }
  }
}
