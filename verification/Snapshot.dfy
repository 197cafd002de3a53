/**
 Capturing a queue while it is in use, and building a queue from a capture.
 */
module Snapshots {
  import opened Prelude
  import opened Encoding
  import opened Batches
  import opened MapWalks
  import opened Segments
  import opened Manager
  import FlatLog
  import Dedupe

  type Log = FlatLog.Log<Message>

  /** Most records one read fetches while a queue is captured. */
  const SNAPSHOT_READ_BATCH: nat := 256

  /** What can end a capture early. */
  datatype Failure = QueueGone | OffsetLost | WrongOffset | Undecodable

  datatype Step = Got(offset: nat, message: Message) | End | Failed(cause: Failure)

  /**
   Reading a later moment of a log, from an offset the earlier one had, gives the
   earlier one's messages or nothing.
   */
  lemma SliceStays(was: Log, now: Log, start: nat, max: nat)
    requires FlatLog.Evolves(was, now) && was.Has(start) && 0 < max
    ensures var s := FlatLog.Slice(now, start, was.Tail(), max);
      if now.Has(start)
      then s == was.messages[start - was.head..Min(was.Tail(), start + max) - was.head]
      else s == []
  {
    if now.Has(start) {
      var s := FlatLog.Slice(now, start, was.Tail(), max);
      var t := was.messages[start - was.head..Min(was.Tail(), start + max) - was.head];
      forall i | 0 <= i < |t| ensures s[i] == t[i] {
        assert was.Has(start + i) && now.Has(start + i);
        assert was.At(start + i) == t[i] && now.At(start + i) == s[i];
      }
    }
  }

  class QueueSnapshot {
    const manager: SegmentManager
    const head: nat
    const tail: nat
    const decodes: Message -> bool
    var next: nat
    var buffered: seq<Message>
    ghost const captured: Log

    /**
     The head was read before the tail: what is captured is the log at the second moment,
     from the first one's head.
     */
    ghost predicate Valid()
      reads this
    {
      && head <= captured.head && tail == captured.Tail() && head <= next && next + |buffered| <= tail
      && (head < next || buffered != [] ==> captured.head == head)
      && (buffered != [] ==> buffered == captured.messages[next - head..next + |buffered| - head])
      && forall x <- buffered :: decodes(x)
    }

    /** The queue may have gone on, but it is still the queue that was captured. */
    ghost predicate Current()
      reads this, manager, manager.segments
    {
      manager.Valid() && FlatLog.Evolves(captured, manager.Flat())
    }

    /** OpenQueueSnapshot: only the range is taken down, the head at an earlier moment than the tail. */
    constructor (manager: SegmentManager, head: nat, decodes: Message -> bool, ghost was: Log)
      requires manager.Valid() && FlatLog.Evolves(was, manager.Flat()) && head == was.head
      ensures Valid() && Current() && this.manager == manager && this.decodes == decodes && this.head == head <= tail
      ensures captured == manager.Flat() && next == head && buffered == []
    {
      this.manager, this.decodes, captured := manager, decodes, manager.Flat();
      this.head, tail, next, buffered := head, manager.tailOffset, head, [];
    }

    /** fill: one read, checked record by record. */
    method Fill() returns (r: Option<Failure>)
      requires Valid() && Current() && buffered == [] && next < tail
      modifies this`buffered
      ensures Valid()
      ensures r.None? ==> buffered != []
      ensures r.Some? ==> buffered == [] && Explains(r.value)
    {
      hide SegmentManager.Valid, FlatLog.Evolves;
      var got := manager.ReadRange(next, tail, SNAPSHOT_READ_BATCH);
      if got.Err? {
        return Some(QueueGone);
      }
      var messages := got.value;
      Unmoved();
      if captured.Has(next) {
        SliceStays(captured, manager.Flat(), next, SNAPSHOT_READ_BATCH);
      }
      if messages == [] {
        return Some(OffsetLost);
      }
      for i := 0 to |messages|
        invariant forall k | 0 <= k < i :: messages[k].offset == next + k && decodes(messages[k])
      {
        assert captured.Has(next + i) && captured.At(next + i) == messages[i];
        if messages[i].offset != next + i {
          return Some(WrongOffset);
        }
        if !decodes(messages[i]) {
          return Some(Undecodable);
        }
      }
      buffered := messages;
      r := None;
    }

    /** The next offset is still there and was captured, or it has gone for good. */
    lemma Unmoved()
      requires Valid() && Current() && next < tail
      ensures if manager.Flat().Has(next) then captured.Has(next) && captured.head <= next
        else next < manager.headOffset
      ensures captured.Has(next) && next == head ==> captured.head == head
    {
    }

    /** A capture fails only for a reason. */
    ghost predicate Explains(f: Failure)
      requires Valid()
      reads this, manager
    {
      match f
      case QueueGone => manager.closed
      case OffsetLost => next < manager.headOffset
      case WrongOffset => exists o :: captured.Has(o) && captured.At(o).offset != o
      case Undecodable => exists o :: captured.Has(o) && !decodes(captured.At(o))
    }

    /** Next. */
    method Next() returns (r: Step)
      requires Valid() && Current()
      modifies this
      ensures Valid()
      ensures r.End? <==> old(next) == tail
      ensures r.Got? ==>
        r.offset == old(next) && captured.Has(r.offset) && r.message == captured.At(r.offset) && decodes(r.message)
      ensures r.Got? ==> next == old(next) + 1
      ensures !r.Got? ==> next == old(next)
      ensures r.Failed? ==> Explains(r.cause)
    {
      hide SegmentManager.Valid, FlatLog.Evolves;
      if buffered == [] {
        if next >= tail {
          return End;
        }
        var failure := Fill();
        if failure.Some? {
          return Failed(failure.value);
        }
      }
      var message := buffered[0];
      assert message == captured.messages[next - head..next + |buffered| - head][0];
      assert buffered[1..] == captured.messages[next + 1 - head..next + |buffered| - head];
      r := Got(next, message);
      next, buffered := next + 1, buffered[1..];
    }
  }

  // ---------------------------------------------------------------------------
  // A capture beside everything else

  /** What other users of the queue do: each a call of the manager. */
  datatype Act =
    | Publish(message: Message, walk: Walk, now: int, weather: Weather)
    | Cut(before: nat)
    | RetainByTime(stale: set<nat>)
    | RetainBySize
    | Shut

  /** A batch of one record, as publishing or restoring builds it. */
  function Single(base: nat, compression: byte, m: Message, now: int): Batch {
    Appended(Batch(0, now, 0, NEW_FLAGS, 0, []), m.value, m.key, m.headers, now)
    .(baseOffset := base, compression := compression)
  }

  /** The message can be encoded wherever it lands. */
  ghost predicate Publishable(codec: Codec, compression: byte, m: Message, walk: Walk, now: int) {
    forall base | 0 <= base < TWO64 :: Appendable(codec, Single(base, compression, m, now), [walk])
  }

  ghost predicate Sane(m: SegmentManager, act: Act) {
    act.Publish? ==> Publishable(m.codec, m.config.compression, act.message, act.walk, act.now)
  }

  /** Nothing stands in the way of this message. */
  ghost predicate Welcome(m: SegmentManager, message: Message, walk: Walk, now: int, w: Weather)
    requires m.tailOffset < TWO64 && Publishable(m.codec, m.config.compression, message, walk, now)
    reads m, m.active
  {
    m.Takes(Single(m.tailOffset, m.config.compression, message, now), [walk], w)
  }

  method Publish(m: SegmentManager, message: Message, walk: Walk, now: int, w: Weather)
    returns (r: Result<nat, ManagerError>)
    requires m.Valid() && m.tailOffset < TWO64
    requires Publishable(m.codec, m.config.compression, message, walk, now)
    modifies m, m.segments
    ensures m.Valid() && m.closed == old(m.closed) && m.headOffset == old(m.headOffset)
    ensures forall i | 0 <= i < |m.segments| :: m.segments[i] in old(m.segments) || fresh(m.segments[i])
    ensures FlatLog.Evolves(old(m.Flat()), m.Flat())
    ensures r.Ok? ==> r.value == old(m.tailOffset) && |m.log| == |old(m.log)| + 1 && old(m.log) <= m.log
    ensures r.Ok? ==> SameRecord(m.log[|m.log| - 1], old(m.tailOffset), message) && m.log[|m.log| - 1].timestamp == now
    ensures r.Err? ==> m.log == old(m.log)
    ensures r.Ok? <==> old(Welcome(m, message, walk, now, w))
    ensures r == Err(Closed) <==> old(m.closed)
    ensures m.syncErr ==> old(m.syncErr)
  {
    hide SegmentManager.Valid, FlatLog.Evolves, Appendable, ToMessages, Encode, Appended;
    ghost var single := Single(m.tailOffset, m.config.compression, message, now);
    var batch := new OpenBatch(0, now);
    batch.Append(message.value, message.key, message.headers, now);
    assert m.Placed(batch.b) == single;
    ActiveIn(m);
    r := m.Append(batch, [walk], w);
    SingleMessage(single, old(m.tailOffset), m.config.compression, message, now, batch.b);
  }

  lemma SingleMessage(single: Batch, base: nat, compression: byte, m: Message, now: int, b: Batch)
    requires single == Single(base, compression, m, now)
    ensures b == single.(flags := b.flags) ==>
      |ToMessages(b)| == 1 && SameRecord(ToMessages(b)[0], base, m) && ToMessages(b)[0].timestamp == now
  {
  }

  lemma ActiveIn(m: SegmentManager)
    requires m.Valid()
    ensures m.active in m.segments
  {
  }

  /** The same offset, key, value and headers; the time it was appended may differ. */
  predicate SameRecord(a: Message, offset: nat, b: Message) {
    a.offset == offset && a.key == b.key && a.value == b.value && a.headers == b.headers
  }

  /** One act of another user; each leaves an earlier moment of the log an earlier moment. */
  method Run(m: SegmentManager, act: Act)
    requires m.Valid() && Sane(m, act)
    modifies m, m.segments
    ensures m.Valid() && FlatLog.Evolves(old(m.Flat()), m.Flat())
    ensures forall i | 0 <= i < |m.segments| :: m.segments[i] in old(m.segments) || fresh(m.segments[i])
  {
    hide SegmentManager.Valid, FlatLog.Evolves, Publishable;
    Same(m);
    match act
    case Publish(message, walk, now, weather) =>
      if m.tailOffset < TWO64 {
        var r := Publish(m, message, walk, now, weather);
      }
    case Cut(before) => var r := m.Truncate(before);
    case RetainByTime(stale) =>
      if !m.closed {
        m.ApplyTimeRetention(stale);
      }
    case RetainBySize =>
      if !m.closed {
        m.ApplySizeRetention();
      }
    case Shut => m.Close();
  }

  lemma Same(m: SegmentManager)
    ensures FlatLog.Evolves(m.Flat(), m.Flat())
  {
  }

  method RunAll(m: SegmentManager, acts: seq<Act>, ghost was: Log)
    requires m.Valid() && FlatLog.Evolves(was, m.Flat()) && forall act <- acts :: Sane(m, act)
    modifies m, m.segments
    ensures m.Valid() && FlatLog.Evolves(was, m.Flat())
    ensures forall i | 0 <= i < |m.segments| :: m.segments[i] in old(m.segments) || fresh(m.segments[i])
    ensures acts == [] ==> m.Flat() == old(m.Flat())
  {
    hide SegmentManager.Valid, FlatLog.Evolves, Sane;
    for k := 0 to |acts|
      invariant m.Valid() && FlatLog.Evolves(was, m.Flat()) && (acts == [] ==> m.Flat() == old(m.Flat()))
      invariant forall i | 0 <= i < |m.segments| :: m.segments[i] in old(m.segments) || fresh(m.segments[i])
    {
      ghost var before := m.Flat();
      assert acts[k] in acts;
      Run(m, acts[k]);
      FlatLog.EvolvesTransitive(was, before, m.Flat());
    }
  }

  /** Others act, then the reader takes its next step. */
  method Turn(reader: QueueSnapshot, acts: seq<Act>) returns (r: Step)
    requires reader.Valid() && reader.Current() && forall act <- acts :: Sane(reader.manager, act)
    modifies reader, reader.manager, reader.manager.segments
    ensures reader.Valid() && reader.Current() && Fresher(reader.manager, old(reader.manager.segments))
    ensures r.End? <==> reader.next == reader.tail == old(reader.next)
    ensures r.Got? ==> reader.captured.Has(old(reader.next)) && r.message == reader.captured.At(old(reader.next))
    ensures r.Got? ==> reader.decodes(r.message) && reader.next == old(reader.next) + 1
    ensures r.Failed? ==> reader.next == old(reader.next) && reader.Explains(r.cause)
    ensures acts == [] ==> reader.manager.Flat() == old(reader.manager.Flat())
  {
    hide SegmentManager.Valid, FlatLog.Evolves, Sane;
    RunAll(reader.manager, acts, reader.captured);
    r := reader.Next();
  }

  /** No segment object but the manager's own earlier ones and new ones. */
  twostate predicate Fresher(m: SegmentManager, was: seq<Segment>)
    reads m
  {
    forall i | 0 <= i < |m.segments| :: m.segments[i] in was || fresh(m.segments[i])
  }

  /**
   A whole capture, with any acts of others between the reading of the head and of
   the tail and before each record. It yields exactly the records the queue had when
   the tail was read, from the head that was read before, or an error that says why
   not.
   */
  method Capture(m: SegmentManager, decodes: Message -> bool, between: seq<Act>, others: seq<seq<Act>>)
    returns (r: Result<seq<Message>, Failure>, ghost opening: Log)
    requires m.Valid() && (forall act <- between :: Sane(m, act)) && forall acts <- others, act <- acts :: Sane(m, act)
    modifies m, m.segments
    ensures m.Valid() && FlatLog.Evolves(old(m.Flat()), opening) && FlatLog.Evolves(opening, m.Flat())
    ensures between == [] ==> opening == old(m.Flat())
    ensures r.Ok? ==>
      opening.head == old(m.headOffset) && r.value == opening.messages && forall x <- r.value :: decodes(x)
    ensures r == Err(QueueGone) ==> m.closed
    ensures r == Err(OffsetLost) ==> old(m.headOffset) < m.headOffset
    ensures r == Err(Undecodable) ==> exists x <- opening.messages :: !decodes(x)
    ensures r != Err(WrongOffset)
    ensures between == [] && others == [] && !old(m.closed) && (forall x <- old(m.log) :: decodes(x)) ==> r.Ok?
  {
    hide SegmentManager.Valid, FlatLog.Evolves, Sane;
    ghost var was := m.Flat();
    var head := m.headOffset;
    Same(m);
    if between != [] {
      RunAll(m, between, was);
    }
    opening := m.Flat();
    m.Offsets();
    var reader := new QueueSnapshot(m, head, decodes, was);
    var records, turn := [], 0;
    while true
      invariant fresh(reader) && reader.manager == m && reader.decodes == decodes && reader.captured == opening
      invariant reader.head == head && reader.Valid() && reader.Current() && Fresher(m, old(m.segments))
      invariant |records| == reader.next - reader.head && (records != [] ==> records == opening.messages[..|records|])
      invariant forall x <- records :: decodes(x)
      invariant others == [] ==> m.Flat() == opening
      decreases reader.tail - reader.next
    {
      var acts := if turn < |others| then others[turn] else [];
      assert turn < |others| ==> others[turn] in others;
      turn := turn + 1;
      var step := Turn(reader, acts);
      match step
      case Got(_, message) => records := records + [message];
      case End =>
        Emptied(opening, head, |records|);
        r := Ok(records);
        return;
      case Failed(cause) =>
        r := Err(cause);
        return;
    }
  }

  /** A range that ends where it begins is that of an empty log. */
  lemma Emptied(l: Log, head: nat, n: nat)
    requires head <= l.head && l.Tail() == head + n && (n > 0 ==> l.head == head)
    ensures l.head == head && |l.messages| == n
  {
  }

  // ---------------------------------------------------------------------------
  // Restoring

  /** How one carried record reaches the new queue. */
  datatype Carriage = Carriage(offset: nat, message: Message, walk: Walk, now: int, weather: Weather)

  datatype RestoreError = OutOfSequence(expected: nat, carried: nat) | LogFailed(cause: ManagerError)

  /** The deduplication keys of restored records, each confirmed at an offset. */
  type Keys = map<string, nat>

  /** A record's deduplication key, read off its contents; empty if it has none. */
  type KeyOf = (Option<Bytes>, Option<Bytes>, map<Bytes, Bytes>) -> string

  function KeyIn(keyOf: KeyOf, m: Message): string {
    keyOf(m.key, m.value, m.headers)
  }

  /** Every keyed record has its key in the index, and every key names the last record that carries it. */
  ghost predicate Indexes(keys: Keys, keyOf: KeyOf, head: nat, cs: seq<Carriage>) {
    && (forall i | 0 <= i < |cs| && KeyIn(keyOf, cs[i].message) != "" :: KeyIn(keyOf, cs[i].message) in keys)
    && (forall k <- keys :: k != "" && head <= keys[k] < head + |cs| && KeyIn(keyOf, cs[keys[k] - head].message) == k)
    && (forall k, i | k in keys && keys[k] - head < i < |cs| :: KeyIn(keyOf, cs[i].message) != k)
  }

  /** These are the carried records, each at the offset it was carried with. */
  ghost predicate Carries(log: seq<Message>, head: nat, cs: seq<Carriage>) {
    |log| == |cs| && forall i | 0 <= i < |cs| :: cs[i].offset == head + i && SameRecord(log[i], head + i, cs[i].message)
  }

  lemma CarriesNext(log: seq<Message>, log': seq<Message>, head: nat, cs: seq<Carriage>, c: Carriage)
    requires Carries(log, head, cs) && log <= log' && |log'| == |log| + 1
    requires c.offset == head + |cs| && SameRecord(log'[|log|], c.offset, c.message)
    ensures Carries(log', head, cs + [c])
  {
    forall i | 0 <= i <= |cs| ensures SameRecord(log'[i], head + i, (cs + [c])[i].message) {
      assert i < |cs| ==> log'[i] == log[i];
    }
  }

  lemma NothingYet(keyOf: KeyOf, head: nat)
    ensures Carries([], head, []) && Indexes(map[], keyOf, head, [])
  {
  }

  lemma IndexesNext(keys: Keys, keyOf: KeyOf, head: nat, cs: seq<Carriage>, c: Carriage)
    requires Indexes(keys, keyOf, head, cs) && c.offset == head + |cs|
    ensures var k := KeyIn(keyOf, c.message);
      Indexes(if k == "" then keys else keys[k := c.offset], keyOf, head, cs + [c])
  {
  }

  ghost predicate Deliverable(codec: Codec, config: Config, cs: seq<Carriage>) {
    forall c <- cs :: Publishable(codec, config.compression, c.message, c.walk, c.now)
  }

  /** RestoreQueue: a new log, emptied up to the head it is to have. */
  method RestoreQueue(codec: Codec, config: Config, head: nat) returns (m: SegmentManager)
    requires Lawful(codec)
    ensures fresh(m) && fresh(m.segments) && m.Valid() && !m.closed && m.codec == codec && m.config == config
    ensures m.headOffset == m.tailOffset == head && m.log == [] && !m.syncErr
  {
    hide SegmentManager.Valid, FlatLog.Evolves;
    m := new SegmentManager.New(codec, config);
    if head > 0 {
      var r := m.Truncate(head);
    }
  }

  /** RestoreRecord: the offset must continue the log before anything is written. */
  method RestoreRecord(m: SegmentManager, c: Carriage) returns (r: Option<RestoreError>)
    requires m.Valid() && m.tailOffset < TWO64
    requires Publishable(m.codec, m.config.compression, c.message, c.walk, c.now)
    modifies m, m.segments
    ensures m.Valid() && m.closed == old(m.closed) && m.headOffset == old(m.headOffset) && Fresher(m, old(m.segments))
    ensures r == Some(OutOfSequence(old(m.tailOffset), c.offset)) <==> c.offset != old(m.tailOffset)
    ensures r.Some? ==> m.log == old(m.log) && m.tailOffset == old(m.tailOffset)
    ensures r.Some? && r.value.OutOfSequence? ==> c.offset != old(m.tailOffset)
    ensures r.None? <==> c.offset == old(m.tailOffset) && old(Welcome(m, c.message, c.walk, c.now, c.weather))
    ensures m.syncErr ==> old(m.syncErr)
    ensures r.None? ==> c.offset == old(m.tailOffset) && m.tailOffset == old(m.tailOffset) + 1
    ensures r.None? ==> |m.log| == |old(m.log)| + 1 && old(m.log) <= m.log
    ensures r.None? ==> SameRecord(m.log[|m.log| - 1], c.offset, c.message)
  {
    hide SegmentManager.Valid, FlatLog.Evolves, Publishable;
    if c.offset != m.tailOffset {
      return Some(OutOfSequence(m.tailOffset, c.offset));
    }
    m.LogSize();
    var landed := Publish(m, c.message, c.walk, c.now, c.weather);
    m.LogSize();
    r := if landed.Err? then Some(LogFailed(landed.error)) else None;
  }

  const CALM := Weather(false, false, false, false, false)

  /** The record is carried to where it belongs, and nothing fails. */
  ghost predicate Smooth(codec: Codec, config: Config, offset: nat, c: Carriage) {
    && c.offset == offset && c.weather == CALM && offset < TWO64
    && Publishable(codec, config.compression, c.message, c.walk, c.now)
    && Encode(codec, Single(offset, config.compression, c.message, c.now), [c.walk]).Ok?
  }

  lemma SmoothWelcome(m: SegmentManager, c: Carriage)
    requires m.Valid() && !m.closed && !m.syncErr && 0 < m.config.maxSegmentSize
    requires Smooth(m.codec, m.config, m.tailOffset, c)
    ensures c.offset == m.tailOffset && Welcome(m, c.message, c.walk, c.now, c.weather)
  {
    hide SegmentManager.Valid, Publishable, Encode, Appended;
    m.EmptyActive();
  }

  /** A whole restore: the same head, the same tail, and at every offset the record that was carried. */
  method Restore(codec: Codec, config: Config, head: nat, cs: seq<Carriage>, keyOf: KeyOf)
    returns (r: Result<SegmentManager, RestoreError>, keys: Keys)
    requires Lawful(codec) && Deliverable(codec, config, cs) && head + |cs| <= TWO64
    ensures r.Ok? ==> r.value.Valid() && r.value.headOffset == head && r.value.tailOffset == head + |cs|
    ensures r.Ok? ==> Carries(r.value.log, head, cs)
    ensures r.Ok? ==> Indexes(keys, keyOf, head, cs)
    ensures r.Err? && r.error.OutOfSequence? ==> exists i | 0 <= i < |cs| :: cs[i].offset != head + i
    ensures 0 < config.maxSegmentSize && (forall i | 0 <= i < |cs| :: Smooth(codec, config, head + i, cs[i])) ==> r.Ok?
  {
    hide SegmentManager.Valid, FlatLog.Evolves, Publishable, Lawful, Carries, Indexes, Smooth, Welcome;
    NothingYet(keyOf, head);
    keys := map[];
    var m := RestoreQueue(codec, config, head);
    for i := 0 to |cs|
      invariant fresh(m) && fresh(m.segments) && m.Valid() && !m.closed && m.codec == codec && m.config == config
      invariant Carries(m.log, head, cs[..i]) && m.headOffset == head && m.tailOffset == head + i
      invariant Indexes(keys, keyOf, head, cs[..i]) && !m.syncErr
    {
      assert cs[i] in cs && cs[..i + 1] == cs[..i] + [cs[i]];
      ghost var before := m.log;
      if 0 < config.maxSegmentSize && Smooth(codec, config, head + i, cs[i]) {
        SmoothWelcome(m, cs[i]);
      }
      var failed := RestoreRecord(m, cs[i]);
      if failed.Some? {
        return Err(failed.value), keys;
      }
      CarriesNext(before, m.log, head, cs[..i], cs[i]);
      IndexesNext(keys, keyOf, head, cs[..i], cs[i]);
      if KeyIn(keyOf, cs[i].message) != "" {
        keys := keys[KeyIn(keyOf, cs[i].message) := cs[i].offset];
      }
    }
    assert cs[..|cs|] == cs;
    r := Ok(m);
  }

  // ---------------------------------------------------------------------------
  // Deduplication goes on behind a restore

  /** The log as deduplication sees it. */
  function KeysOf(keyOf: KeyOf, log: seq<Message>): seq<Option<Dedupe.Key>> {
    seq(|log|, i requires 0 <= i < |log| => if KeyIn(keyOf, log[i]) == "" then None else Some(KeyIn(keyOf, log[i])))
  }

  /** This is how deduplication sees that log. */
  ghost predicate Sees(s: Dedupe.State, keyOf: KeyOf, l: Log) {
    s.head == l.head && s.recs == KeysOf(keyOf, l.messages)
  }

  /** Truncating the log is the step that deduplication takes it for. */
  method TruncateSeen(m: SegmentManager, before: nat, keyOf: KeyOf, ghost was: Dedupe.State)
    returns (r: Result<(), ManagerError>)
    requires m.Valid() && Sees(was, keyOf, m.Flat()) && was.op.Idle?
    modifies m, m.segments
    ensures m.Valid() && (r.Ok? <==> !old(m.closed))
    ensures r.Ok? ==>
      var step := Dedupe.TruncateLog(before, m.headOffset);
      Dedupe.Enabled(was, step) && Sees(Dedupe.Apply(was, step), keyOf, m.Flat())
  {
    hide SegmentManager.Valid, FlatLog.Evolves, Sees, KeysOf, Dedupe.Enabled, Dedupe.Apply;
    ghost var l := m.Flat();
    m.LogSize();
    r := m.Truncate(before);
    m.LogSize();
    if r.Ok? {
      SeesLess(was, keyOf, l, m.Flat(), before);
    }
  }

  lemma SeesLess(was: Dedupe.State, keyOf: KeyOf, l: Log, l': Log, before: nat)
    requires Sees(was, keyOf, l) && was.op.Idle?
    requires before < l.Tail() ==>
      && l.head <= l'.head <= Max(before, l.head) && l'.head <= l.Tail()
      && l' == FlatLog.Dropped(l, l'.head)
    requires l.Tail() <= before ==> l'.messages == [] && l'.head == before
    ensures var step := Dedupe.TruncateLog(before, l'.head);
      Dedupe.Enabled(was, step) && Sees(Dedupe.Apply(was, step), keyOf, l')
  {
  }

  /** And publishing a message is the append it takes it for. */
  method PublishSeen(m: SegmentManager, message: Message, walk: Walk, now: int, w: Weather, keyOf: KeyOf,
                     ghost was: Dedupe.State)
    returns (r: Result<nat, ManagerError>)
    requires m.Valid() && m.tailOffset < TWO64 && Sees(was, keyOf, m.Flat())
    requires Publishable(m.codec, m.config.compression, message, walk, now)
    requires var k := KeyIn(keyOf, message); k != "" ==> was.op == Dedupe.Reserved(k)
    modifies m, m.segments
    ensures m.Valid() && (r.Err? ==> m.log == old(m.log))
    ensures r.Ok? <==> old(Welcome(m, message, walk, now, w))
    ensures r.Ok? ==>
      var step := if KeyIn(keyOf, message) == "" then Dedupe.Append else Dedupe.Write;
      Dedupe.Enabled(was, step) && Sees(Dedupe.Apply(was, step), keyOf, m.Flat()) && r.value == was.Tail()
  {
    hide SegmentManager.Valid, FlatLog.Evolves, Publishable, Welcome, Sees, KeyIn, Dedupe.Enabled, Dedupe.Apply;
    m.LogSize();
    r := Publish(m, message, walk, now, w);
    if r.Ok? {
      SeesMore(was, keyOf, old(m.Flat()), m.Flat(), message);
    }
  }

  lemma SeesMore(was: Dedupe.State, keyOf: KeyOf, l: Log, l': Log, message: Message)
    requires Sees(was, keyOf, l) && l'.head == l.head && |l'.messages| == |l.messages| + 1 && l.messages <= l'.messages
    requires SameRecord(l'.messages[|l.messages|], l.Tail(), message)
    requires var k := KeyIn(keyOf, message); k != "" ==> was.op == Dedupe.Reserved(k)
    ensures var step := if KeyIn(keyOf, message) == "" then Dedupe.Append else Dedupe.Write;
      Dedupe.Enabled(was, step) && Sees(Dedupe.Apply(was, step), keyOf, l') && was.Tail() == l.Tail()
  {
    var n := |l.messages|;
    assert KeysOf(keyOf, l'.messages) == KeysOf(keyOf, l.messages) + [KeysOf(keyOf, l'.messages)[n]];
  }

  /** The captured queue's log and truncation point with the restored index, durable up to some point. */
  function Reindexed(was: Dedupe.State, keys: Keys, synced: nat): Dedupe.State {
    was.(index := map k | k in keys :: Dedupe.Entry(keys[k], Dedupe.Confirmed), synced := synced, op := Dedupe.Idle)
  }

  lemma SameKeys(keyOf: KeyOf, log: seq<Message>, head: nat, cs: seq<Carriage>)
    requires Carries(log, head, cs)
    ensures |KeysOf(keyOf, log)| == |cs|
    ensures forall i | 0 <= i < |cs| :: KeyIn(keyOf, log[i]) == KeyIn(keyOf, cs[i].message)
  {
  }

  lemma LastIndexed(keys: Keys, keyOf: KeyOf, head: nat, cs: seq<Carriage>, i: nat)
    requires Indexes(keys, keyOf, head, cs) && i < |cs| && KeyIn(keyOf, cs[i].message) != ""
    ensures var k := KeyIn(keyOf, cs[i].message);
      k in keys && head + i <= keys[k] < head + |cs| && KeyIn(keyOf, cs[keys[k] - head].message) == k
  {
  }

  /** If no key occurred twice at or above the truncation point, the restored index covers every record there. */
  lemma RestoredCovers(was: Dedupe.State, keys: Keys, synced: nat, keyOf: KeyOf, log: seq<Message>, cs: seq<Carriage>,
                       k: Dedupe.Key)
    requires Dedupe.Inv(was) && was.recs == KeysOf(keyOf, log)
    requires Carries(log, was.head, cs) && Indexes(keys, keyOf, was.head, cs)
    ensures Dedupe.KeyInv(Reindexed(was, keys, synced), k)
  {
    hide Carries, Indexes, Dedupe.Inv, Dedupe.OpInv;
    var s := Reindexed(was, keys, synced);
    SameKeys(keyOf, log, was.head, cs);
    UniqueAbove(was, k);
    forall o | was.floor <= o && s.Carries(o, k) ensures Dedupe.Covered(s, o, k) {
      assert was.Carries(o, k);
      LastIndexed(keys, keyOf, was.head, cs, o - was.head);
      assert was.Carries(keys[k], k);
    }
  }

  lemma UniqueAbove(was: Dedupe.State, k: Dedupe.Key)
    requires Dedupe.Inv(was)
    ensures Dedupe.UniqueFrom(was, was.floor, k)
  {
    assert Dedupe.KeyInv(was, k);
  }

  /** The restored queue is a state deduplication can go on from. */
  lemma RestoredInv(was: Dedupe.State, keys: Keys, synced: nat, keyOf: KeyOf, log: seq<Message>, cs: seq<Carriage>)
    requires Dedupe.Inv(was) && was.recs == KeysOf(keyOf, log) && was.head <= synced <= was.Tail()
    requires Carries(log, was.head, cs) && Indexes(keys, keyOf, was.head, cs)
    ensures Dedupe.Inv(Reindexed(was, keys, synced))
  {
    hide Carries, Indexes, Dedupe.KeyInv, KeysOf;
    forall k ensures Dedupe.KeyInv(Reindexed(was, keys, synced), k) {
      RestoredCovers(was, keys, synced, keyOf, log, cs, k);
    }
  }

  /** A state of deduplication in front of this log, and a durable frontier it could have. */
  ghost predicate Dedupes(was: Dedupe.State, synced: nat, keyOf: KeyOf, l: Log) {
    was.head == l.head && was.recs == KeysOf(keyOf, l.messages) && was.head <= synced <= was.Tail()
  }

  /** However far deduplication had come with this log, the restored index is one it can go on from. */
  ghost predicate ContinuesFrom(keys: Keys, keyOf: KeyOf, l: Log) {
    forall was: Dedupe.State, synced: nat | Dedupes(was, synced, keyOf, l) ::
      Dedupe.Inv(was) ==> Dedupe.Inv(Reindexed(was, keys, synced))
  }

  lemma Continues(keys: Keys, keyOf: KeyOf, l: Log, log: seq<Message>, cs: seq<Carriage>)
    requires Carries(log, l.head, cs) && Indexes(keys, keyOf, l.head, cs)
    requires |l.messages| == |cs| && forall i | 0 <= i < |cs| :: cs[i].message == l.messages[i]
    ensures ContinuesFrom(keys, keyOf, l)
  {
    hide Dedupe.Inv, Indexes, Reindexed;
    SameKeys(keyOf, log, l.head, cs);
    assert KeysOf(keyOf, log) == KeysOf(keyOf, l.messages);
    forall was: Dedupe.State, synced: nat | Dedupes(was, synced, keyOf, l)
      ensures Dedupe.Inv(was) ==> Dedupe.Inv(Reindexed(was, keys, synced))
    {
      if Dedupe.Inv(was) {
        RestoredInv(was, keys, synced, keyOf, log, cs);
      }
    }
  }

  /** Exactly once, in every run behind a restore: at most one record at or above the truncation point has a key. */
  lemma ExactlyOnceAfterRestore(was: Dedupe.State, keys: Keys, synced: nat, keyOf: KeyOf, log: seq<Message>,
                                cs: seq<Carriage>, states: seq<Dedupe.State>, steps: seq<Dedupe.Step>, i: nat,
                                k: Dedupe.Key)
    requires Dedupe.Inv(was) && was.recs == KeysOf(keyOf, log) && was.head <= synced <= was.Tail()
    requires Carries(log, was.head, cs) && Indexes(keys, keyOf, was.head, cs)
    requires Dedupe.RunFrom(states, steps) && states[0] == Reindexed(was, keys, synced) && i < |states|
    ensures Dedupe.UniqueFrom(states[i], states[i].floor, k)
  {
    hide Carries, Indexes, KeysOf, Reindexed;
    RestoredInv(was, keys, synced, keyOf, log, cs);
    Dedupe.RunInv(states, steps, i);
    UniqueAbove(states[i], k);
  }

  /**
   Capture one queue beside whatever else uses it, restore it elsewhere: where both
   succeed, the copy has the head, the tail and the records the queue had when the
   capture was opened, and deduplication can go on from its index.
   */
  method Replicate(m: SegmentManager, decodes: Message -> bool, between: seq<Act>, others: seq<seq<Act>>,
                   codec: Codec, config: Config, walkOf: Message -> Walk, now: int, weather: nat -> Weather,
                   keyOf: KeyOf)
    returns (copy: Option<SegmentManager>, keys: Keys, ghost opening: Log)
    requires m.Valid() && (forall act <- between :: Sane(m, act)) && forall acts <- others, act <- acts :: Sane(m, act)
    requires Lawful(codec)
    requires forall x :: decodes(x) ==> Publishable(codec, config.compression, x, walkOf(x), now)
    modifies m, m.segments
    ensures FlatLog.Evolves(old(m.Flat()), opening) && (between == [] ==> opening == old(m.Flat()))
    ensures copy.Some? ==> var c := copy.value;
      && c.Valid() && c.headOffset == old(m.headOffset) == opening.head && c.tailOffset == opening.Tail()
      && |c.log| == |opening.messages|
      && forall i | 0 <= i < |c.log| :: SameRecord(c.log[i], opening.head + i, opening.messages[i])
    ensures copy.Some? ==> ContinuesFrom(keys, keyOf, opening)
  {
    hide SegmentManager.Valid, FlatLog.Evolves, Sane, Publishable, Lawful;
    var head := m.headOffset;
    keys := map[];
    var records, at := Capture(m, decodes, between, others);
    opening := at;
    if records.Err? || head + |records.value| > TWO64 {
      copy := None;
      return;
    }
    var rs := records.value;
    var cs := seq(|rs|, i requires 0 <= i < |rs| => Carriage(head + i, rs[i], walkOf(rs[i]), now, weather(i)));
    var restored, index := Restore(codec, config, head, cs, keyOf);
    copy, keys := if restored.Ok? then Some(restored.value) else None, index;
    if restored.Ok? {
      Continues(keys, keyOf, opening, restored.value.log, cs);
    }
  }
}
