/**
 The sparse index from timestamps to offsets that a segment keeps.
 */
module TimeIndexes {

  datatype Entry = Entry(timestamp: int, relativeOffset: nat)

  /**
   The entry at k stands for this batch: it is the batch's own, or no later in the log
   and less than an interval earlier; and the next entry is no earlier in time.
   */
  ghost predicate StandsFor(entries: seq<Entry>, interval: nat, k: nat, b: Entry) {
    && k < |entries| && entries[k].relativeOffset <= b.relativeOffset
    && (b == entries[k] || b.timestamp < entries[k].timestamp + interval)
    && (k + 1 < |entries| ==> b.timestamp <= entries[k + 1].timestamp)
  }

  ghost predicate Covered(entries: seq<Entry>, interval: nat, b: Entry) {
    exists k :: StandsFor(entries, interval, k, b)
  }

  ghost predicate Sorted(entries: seq<Entry>) {
    forall i, j | 0 <= i < j < |entries| ::
      entries[i].timestamp <= entries[j].timestamp && entries[i].relativeOffset <= entries[j].relativeOffset
  }

  /** The last entry before a time, or the first entry if none is. */
  ghost predicate ClosestBefore(entries: seq<Entry>, timestamp: int, at: nat) {
    && at < |entries| && (at == 0 || entries[at].timestamp < timestamp)
    && forall i | at < i < |entries| :: timestamp <= entries[i].timestamp
  }

  /** Entries are an interval apart at least. */
  ghost predicate Spaced(entries: seq<Entry>, interval: nat) {
    forall i | 0 < i < |entries| :: entries[i - 1].timestamp + interval <= entries[i].timestamp
  }

  class TimeIndex {
    const baseOffset: nat
    const minInterval: nat
    var entries: seq<Entry>
    var lastTimestamp: int

    /** Every batch handed to Append, in the order of the log. */
    ghost var batches: seq<Entry>

    ghost predicate Valid()
      reads this
    {
      && Sorted(entries) && Spaced(entries, minInterval) && (forall e <- entries :: e in batches)
      && (entries == [] <==> batches == [])
      && (entries != [] ==> lastTimestamp == entries[|entries| - 1].timestamp && entries[0] == batches[0])
      && (forall b <- batches :: Covered(entries, minInterval, b))
      && (forall e <- entries :: e.relativeOffset <= batches[|batches| - 1].relativeOffset)
      && (forall b <- batches :: batches[0].relativeOffset <= b.relativeOffset <= batches[|batches| - 1].relativeOffset)
    }

    constructor (baseOffset: nat, minInterval: nat)
      ensures Valid() && this.baseOffset == baseOffset && this.minInterval == minInterval && batches == []
    {
      this.baseOffset, this.minInterval := baseOffset, minInterval;
      entries, lastTimestamp, batches := [], 0, [];
    }

    /**
     Append. The clock may run backwards: a batch that is not later than the last
     entry by the interval is left out.
     */
    method Append(timestamp: int, relativeOffset: nat)
      requires Valid() && (batches != [] ==> batches[|batches| - 1].relativeOffset <= relativeOffset)
      modifies this
      ensures Valid() && batches == old(batches) + [Entry(timestamp, relativeOffset)]
    {
      hide Covered, Sorted;
      var e := Entry(timestamp, relativeOffset);
      ghost var all := batches + [e];
      if timestamp - lastTimestamp < minInterval && |entries| > 0 {
        StoodFor(entries, minInterval, e);
        batches := all;
        return;
      }
      CoverLonger(entries, minInterval, batches, e);
      StoodFor(entries + [e], minInterval, e);
      SortedLonger(entries, e);
      entries := entries + [e];
      lastTimestamp := timestamp;
      batches := all;
    }

    /**
     Lookup: reading on from the result misses no batch whose newest message is at or
     after the time asked for, and starts no earlier than the index makes it.
     */
    method Lookup(timestamp: int) returns (offset: nat)
      requires Valid()
      ensures forall b <- batches | timestamp <= b.timestamp :: offset <= baseOffset + b.relativeOffset
      ensures entries == [] ==> offset == baseOffset
      ensures entries != [] ==>
        exists at: nat :: ClosestBefore(entries, timestamp, at) && offset == baseOffset + entries[at].relativeOffset
    {
      hide Covered, Sorted;
      if |entries| == 0 {
        return baseOffset;
      }
      var lo, hi := 0, |entries|;
      while lo < hi
        invariant 0 <= lo <= hi <= |entries|
        invariant lo > 0 ==> entries[lo - 1].timestamp < timestamp
        invariant hi < |entries| ==> timestamp <= entries[hi].timestamp
      {
        var mid := (lo + hi) / 2;
        if entries[mid].timestamp >= timestamp {
          hi := mid;
        } else {
          lo := mid + 1;
        }
      }
      var at := if lo == 0 then 0 else lo - 1;
      offset := baseOffset + entries[at].relativeOffset;
      LaterOn(entries, timestamp, lo);
      assert ClosestBefore(entries, timestamp, at);
      forall b <- batches | timestamp <= b.timestamp ensures offset <= baseOffset + b.relativeOffset {
        AtOrBefore(entries, minInterval, at, timestamp, b);
      }
    }
  }

  lemma LaterOn(entries: seq<Entry>, timestamp: int, lo: nat)
    requires Sorted(entries) && (lo < |entries| ==> timestamp <= entries[lo].timestamp)
    ensures forall i | lo <= i < |entries| :: timestamp <= entries[i].timestamp
  {
  }

  /** A new entry, an interval later than the last, takes nothing from what the others stood for. */
  lemma CoverLonger(entries: seq<Entry>, interval: nat, batches: seq<Entry>, e: Entry)
    requires forall b <- batches :: Covered(entries, interval, b)
    requires entries != [] ==> entries[|entries| - 1].timestamp + interval <= e.timestamp
    ensures forall b <- batches :: Covered(entries + [e], interval, b)
  {
    forall b <- batches ensures Covered(entries + [e], interval, b) {
      var k :| StandsFor(entries, interval, k, b);
      assert StandsFor(entries + [e], interval, k, b);
    }
  }

  lemma StoodFor(entries: seq<Entry>, interval: nat, e: Entry)
    requires entries != [] && var last := entries[|entries| - 1];
      last.relativeOffset <= e.relativeOffset && (e == last || e.timestamp < last.timestamp + interval)
    ensures Covered(entries, interval, e)
  {
    assert StandsFor(entries, interval, |entries| - 1, e);
  }

  lemma SortedLonger(entries: seq<Entry>, e: Entry)
    requires Sorted(entries) && forall x <- entries :: x.relativeOffset <= e.relativeOffset
    requires entries != [] ==> entries[|entries| - 1].timestamp <= e.timestamp
    ensures Sorted(entries + [e])
  {
    var n := |entries|;
    forall i | 0 <= i < n ensures entries[i].timestamp <= e.timestamp {
      assert i < n - 1 ==> entries[i].timestamp <= entries[n - 1].timestamp;
    }
  }

  /** Whatever stands for a batch as late as this is not before the last entry that is earlier. */
  lemma AtOrBefore(entries: seq<Entry>, interval: nat, at: nat, timestamp: int, b: Entry)
    requires Sorted(entries) && Covered(entries, interval, b) && timestamp <= b.timestamp && at < |entries|
    requires at == 0 || entries[at].timestamp < timestamp
    ensures entries[at].relativeOffset <= b.relativeOffset
  {
    var k: nat :| StandsFor(entries, interval, k, b);
  }
}
