/**
 Exactly-once append: the deduplication index in front of one queue's log.

 The log is a flat sequence of records (what the segmented log refines); of a
 record only its deduplication key matters here. The index is durable: each of
 its transactions is on disk when it returns. The log is durable up to `synced`,
 and a crash drops any part of what lies above. One AppendOnce or Truncate runs
 at a time, under the queue's lock; plain appends, which carry no key, and
 background barriers interleave with it freely, and a crash can fall between any
 two of its steps. A restart of the process alone keeps the log and makes nothing
 durable: it is a call that is given up.
 */
module Dedupe {
  import opened Prelude

  type Key = string

  datatype Mark = Pending | Unconfirmed | Confirmed

  datatype Entry = Entry(offset: nat, mark: Mark)

  /** How far the call that holds the queue's lock has come. */
  datatype Op =
    | Idle
    | Absent(key: Key)
    | TailRead(key: Key, tail: nat)
    | Reserved(key: Key)
    | Written(key: Key, offset: nat)
    | Durable(key: Key, offset: nat)
    | BarrierFailed(key: Key, offset: nat)
    | Found(key: Key, offset: nat, confirmed: bool)
    | FoundSynced(key: Key, offset: nat)
    | LogTruncated(min: nat)

  /** `floor` is the truncation point: the call asked for everything below it to go. */
  datatype State = State(
    head: nat,
    recs: seq<Option<Key>>,
    synced: nat,
    floor: nat,
    index: map<Key, Entry>,
    op: Op)
  {
    function Tail(): nat {
      head + |recs|
    }

    /** A record with this key can be read at this offset. */
    predicate Carries(o: nat, k: Key) {
      head <= o < Tail() && recs[o - head] == Some(k)
    }
  }

  datatype Step =
    | Append
    | Barrier(through: nat)
    | LookupMiss(k: Key)
    | ResolveHit(k: Key)
    | ResolveStale(k: Key)
    | ReadTail
    | Reserve
    | WriteFails(cleared: bool)
    | Write
    | SyncWritten(ok: bool)
    | Confirm(stored: bool)
    | MarkUnconfirmed(stored: bool)
    | SyncFound(ok: bool)
    | ConfirmFound(stored: bool)
    | ReportPresent
    | GiveUp
    | TruncateLog(min: nat, head': nat)
    | Prune(stored: bool)
    | Crash(tail': nat)
    | CrashInTruncate(min: nat)

  // ---------------------------------------------------------------------------
  // Resolving an entry against the log

  /** The first index at or above i whose record carries k, or the length. */
  function FirstFrom(recs: seq<Option<Key>>, i: nat, k: Key): (j: nat)
    requires i <= |recs|
    ensures i <= j <= |recs|
    ensures j < |recs| ==> recs[j] == Some(k)
    ensures forall x | i <= x < j :: recs[x] != Some(k)
    decreases |recs| - i
  {
    if i == |recs| || recs[i] == Some(k) then i else FirstFrom(recs, i + 1, k)
  }

  /** Where the pending scan of a key starts: never below the head. */
  function ScanStart(s: State, p: nat): nat {
    if p < s.head then s.head else p
  }

  /** resolveDedupeEntry: the offset and mark an entry stands for, if its record is there. */
  function Resolve(s: State, k: Key): (r: Option<Entry>)
    requires k in s.index
    ensures r.Some? ==> s.Carries(r.value.offset, k)
  {
    var e := s.index[k];
    if e.mark.Pending? then
      var start := ScanStart(s, e.offset);
      if start >= s.Tail() then None else
      var j := FirstFrom(s.recs, start - s.head, k);
      if j < |s.recs| then Some(Entry(s.head + j, Unconfirmed)) else None
    else if s.Carries(e.offset, k) then Some(e) else None
  }

  /** pruneBelow: pending entries move up to the bound, exact ones below it go. */
  function PruneBelow(index: map<Key, Entry>, min: nat): map<Key, Entry> {
    map k | k in index && (index[k].mark.Pending? || index[k].offset >= min) ::
      if index[k].offset < min then Entry(min, Pending) else index[k]
  }

  /** The cursor walk of pruneBelow, in whatever order the bucket yields its keys. */
  method PruneBucket(index: map<Key, Entry>, min: nat) returns (pruned: map<Key, Entry>)
    ensures pruned == PruneBelow(index, min)
  {
    pruned := index;
    var left := index.Keys;
    while left != {}
      invariant left <= index.Keys
      invariant pruned.Keys == left + (PruneBelow(index, min).Keys - left)
      invariant forall k <- pruned :: pruned[k] == if k in left then index[k] else PruneBelow(index, min)[k]
      decreases left
    {
      var k :| k in left;
      var e := pruned[k];
      if e.mark.Pending? {
        if e.offset < min {
          pruned := pruned[k := Entry(min, Pending)];
        }
      } else if e.offset < min {
        pruned := pruned - {k};
      }
      left := left - {k};
    }
  }

  // ---------------------------------------------------------------------------
  // Steps

  predicate Enabled(s: State, step: Step) {
    match step
    case Append => true
    case Barrier(through) => s.synced <= through <= s.Tail()
    case LookupMiss(k) => s.op.Idle? && k !in s.index
    case ResolveHit(k) => s.op.Idle? && k in s.index && Resolve(s, k).Some?
    case ResolveStale(k) => s.op.Idle? && k in s.index && Resolve(s, k).None?
    case ReadTail => s.op.Absent?
    case Reserve => s.op.TailRead?
    case WriteFails(_) => s.op.Reserved?
    case Write => s.op.Reserved?
    case SyncWritten(_) => s.op.Written?
    case Confirm(_) => s.op.Written? || s.op.Durable?
    case MarkUnconfirmed(_) => s.op.BarrierFailed?
    case SyncFound(_) => s.op.Found? && !s.op.confirmed
    case ConfirmFound(_) => s.op.FoundSynced?
    case ReportPresent => s.op.Found? && s.op.confirmed
    case GiveUp => !s.op.Idle?
    case TruncateLog(min, head') => s.op.Idle? && TruncatesTo(s, min, head')
    case Prune(_) => s.op.LogTruncated?
    case Crash(tail') => s.synced <= tail' <= s.Tail()
    case CrashInTruncate(min) => s.op.Idle? && s.Tail() <= min
  }

  /** Whole segments go, so the head ends at or below the bound; a log that ends below it restarts there. */
  predicate TruncatesTo(s: State, min: nat, head': nat) {
    if min < s.Tail() then s.head <= head' <= (if min < s.head then s.head else min) else head' == min
  }

  function Apply(s: State, step: Step): State
    requires Enabled(s, step)
  {
    match step
    case Append => s.(recs := s.recs + [None])
    case Barrier(through) => s.(synced := through)
    case LookupMiss(k) => s.(op := Absent(k))
    case ResolveHit(k) =>
      var e := Resolve(s, k).value;
      s.(op := Found(k, e.offset, e.mark.Confirmed?))
    case ResolveStale(k) => s.(index := s.index - {k}, op := Absent(k))
    case ReadTail => s.(op := TailRead(s.op.key, s.Tail()))
    case Reserve => s.(index := s.index[s.op.key := Entry(s.op.tail, Pending)], op := Reserved(s.op.key))
    case WriteFails(cleared) => s.(index := if cleared then s.index - {s.op.key} else s.index, op := Idle)
    case Write => s.(recs := s.recs + [Some(s.op.key)], op := Written(s.op.key, s.Tail()))
    case SyncWritten(ok) =>
      if ok then s.(synced := s.Tail(), op := Durable(s.op.key, s.op.offset))
      else s.(op := BarrierFailed(s.op.key, s.op.offset))
    case Confirm(stored) => Stored(s, Confirmed, stored)
    case MarkUnconfirmed(stored) => Stored(s, Unconfirmed, stored)
    case SyncFound(ok) =>
      if ok then s.(synced := s.Tail(), op := FoundSynced(s.op.key, s.op.offset)) else s.(op := Idle)
    case ConfirmFound(stored) =>
      if stored then Stored(s, Confirmed, true).(op := Found(s.op.key, s.op.offset, true)) else s.(op := Idle)
    case ReportPresent => s.(op := Idle)
    case GiveUp => s.(op := Idle)
    case TruncateLog(min, head') =>
      s.(head := head',
         recs := if head' <= s.Tail() then s.recs[head' - s.head..] else [],
         synced := if s.synced < head' then head' else s.synced,
         floor := if s.floor < min then min else s.floor,
         op := LogTruncated(min))
    case Prune(stored) => s.(index := if stored then PruneBelow(s.index, s.op.min) else s.index, op := Idle)
    case Crash(tail') =>
      s.(recs := if tail' < s.head then [] else s.recs[..tail' - s.head],
         synced := tail',
         floor := if tail' < s.floor then tail' else s.floor,
         op := Idle)
    case CrashInTruncate(_) => s.(head := 0, recs := [], synced := 0, floor := 0)
  }

  /** The index transaction that records where the accepted record is. */
  function Stored(s: State, mark: Mark, stored: bool): State
    requires s.op.Written? || s.op.Durable? || s.op.BarrierFailed? || s.op.FoundSynced?
  {
    s.(index := if stored then s.index[s.op.key := Entry(s.op.offset, mark)] else s.index, op := Idle)
  }

  ghost predicate Init(s: State) {
    s == State(0, [], 0, 0, map[], Idle)
  }

  ghost predicate StepAt(states: seq<State>, steps: seq<Step>, i: nat)
    requires |states| == |steps| + 1 && i < |steps|
  {
    Enabled(states[i], steps[i]) && states[i + 1] == Apply(states[i], steps[i])
  }

  ghost predicate Behaviour(states: seq<State>, steps: seq<Step>) {
    && |states| == |steps| + 1
    && Init(states[0])
    && forall i: nat | i < |steps| :: StepAt(states, steps, i)
  }

  // ---------------------------------------------------------------------------
  // Invariant

  /** At most one record at or above this offset carries k. */
  ghost predicate UniqueFrom(s: State, from: nat, k: Key) {
    forall i, j :: from <= i && from <= j && s.Carries(i, k) && s.Carries(j, k) ==> i == j
  }

  ghost predicate NoneFrom(s: State, from: nat, k: Key) {
    forall i :: from <= i ==> !s.Carries(i, k)
  }

  /** A live record is covered: a pending entry lies at or below it, any other entry names it exactly. */
  ghost predicate Covered(s: State, o: nat, k: Key) {
    k in s.index && if s.index[k].mark.Pending? then s.index[k].offset <= o else s.index[k].offset == o
  }

  ghost predicate KeyInv(s: State, k: Key) {
    && (forall o :: s.floor <= o && s.Carries(o, k) ==> Covered(s, o, k))
    && (k in s.index && s.index[k].mark.Pending? ==> UniqueFrom(s, s.index[k].offset, k))
  }

  ghost predicate OpInv(s: State) {
    match s.op
    case Idle => true
    case Absent(k) => k !in s.index
    case TailRead(k, tail) => k !in s.index && s.floor <= tail <= s.Tail()
    case Reserved(k) => k in s.index && s.index[k].mark.Pending? && s.floor <= s.index[k].offset <= s.Tail()
                        && NoneFrom(s, s.floor, k)
    case Written(k, o) => Accepted(s, k, o)
    case Durable(k, o) => Accepted(s, k, o) && o < s.synced
    case BarrierFailed(k, o) => Accepted(s, k, o)
    case Found(k, o, confirmed) => Accepted(s, k, o) && (confirmed ==> s.index[k] == Entry(o, Confirmed))
    case FoundSynced(k, o) => Accepted(s, k, o) && o < s.synced
    case LogTruncated(min) => min <= s.floor
  }

  /** The call has its record: no other live record has the key, and the index covers it. */
  ghost predicate Accepted(s: State, k: Key, o: nat) {
    && s.Carries(o, k) && Covered(s, o, k)
    && forall i :: s.floor <= i && s.Carries(i, k) ==> i == o
  }

  ghost predicate Inv(s: State) {
    && s.head <= s.synced <= s.Tail()
    && s.floor <= s.Tail()
    && OpInv(s)
    && forall k :: KeyInv(s, k)
  }

  /** Steps that touch only the log, add no keyed record and move the floor to the tail or up keep every key covered. */
  lemma LogKeysInv(s: State, s': State)
    requires Inv(s) && s'.index == s.index
    requires forall o, k :: s'.Carries(o, k) ==> s.Carries(o, k)
    requires s.floor <= s'.floor || s'.Tail() <= s'.floor
    ensures forall k :: KeyInv(s', k)
  {
    forall k ensures KeyInv(s', k) {
      assert KeyInv(s, k);
    }
  }

  lemma AppendInv(s: State)
    requires Inv(s)
    ensures Inv(Apply(s, Append))
  {
    var s' := Apply(s, Append);
    assert forall o, k :: s'.Carries(o, k) <==> s.Carries(o, k);
    LogKeysInv(s, s');
  }

  lemma BarrierInv(s: State, synced: nat)
    requires Inv(s) && s.synced <= synced <= s.Tail()
    ensures Inv(s.(synced := synced))
  {
    var s' := s.(synced := synced);
    assert forall o, k :: s'.Carries(o, k) <==> s.Carries(o, k);
    LogKeysInv(s, s');
  }

  /** Changing only the program point keeps the keys as they are. */
  lemma OpKeysInv(s: State, op: Op)
    requires Inv(s)
    ensures forall k :: KeyInv(s.(op := op), k)
  {
    var s' := s.(op := op);
    assert forall o, k :: s'.Carries(o, k) <==> s.Carries(o, k);
    LogKeysInv(s, s');
  }

  lemma LogStepInv(s: State, step: Step)
    requires Inv(s) && Enabled(s, step)
    requires step.TruncateLog? || step.Crash? || step.CrashInTruncate?
    ensures Inv(Apply(s, step))
  {
    var s' := Apply(s, step);
    forall o, k | s'.Carries(o, k) ensures s.Carries(o, k) {
    }
    LogKeysInv(s, s');
  }

  lemma ResolveInv(s: State, step: Step)
    requires Inv(s) && Enabled(s, step)
    requires step.LookupMiss? || step.ResolveHit? || step.ResolveStale?
    ensures Inv(Apply(s, step))
  {
    var s', k := Apply(s, step), step.k;
    assert KeyInv(s, k);
    assert forall o, x :: s'.Carries(o, x) <==> s.Carries(o, x);
    if step.ResolveStale? {
      assert NoneFrom(s, s.floor, k);
    }
    forall x ensures KeyInv(s', x) {
      assert KeyInv(s, x);
    }
  }

  lemma ReserveInv(s: State, step: Step)
    requires Inv(s) && Enabled(s, step)
    requires step.ReadTail? || step.Reserve? || step.WriteFails?
    ensures Inv(Apply(s, step))
  {
    var s', k := Apply(s, step), s.op.key;
    assert KeyInv(s, k);
    assert forall o, x :: s'.Carries(o, x) <==> s.Carries(o, x);
    forall x ensures KeyInv(s', x) {
      assert KeyInv(s, x);
    }
  }

  lemma WriteInv(s: State)
    requires Inv(s) && Enabled(s, Write)
    ensures Inv(Apply(s, Write))
  {
    var s', k := Apply(s, Write), s.op.key;
    assert forall o, x :: s'.Carries(o, x) <==> s.Carries(o, x) || (o == s.Tail() && x == k);
    forall x ensures KeyInv(s', x) {
      assert KeyInv(s, x);
    }
  }

  lemma StoreInv(s: State, mark: Mark, stored: bool, op: Op)
    requires Inv(s) && !mark.Pending?
    requires s.op.Written? || s.op.Durable? || s.op.BarrierFailed? || s.op.FoundSynced?
    requires op.Idle? || (stored && mark.Confirmed? && op == Found(s.op.key, s.op.offset, true))
    ensures Inv(Stored(s, mark, stored).(op := op))
  {
    var s' := Stored(s, mark, stored).(op := op);
    assert forall o, x :: s'.Carries(o, x) <==> s.Carries(o, x);
    forall x ensures KeyInv(s', x) {
      assert KeyInv(s, x);
    }
  }

  lemma SyncStepInv(s: State, step: Step)
    requires Inv(s) && Enabled(s, step)
    requires step.SyncWritten? || step.SyncFound? || step.ReportPresent? || step.GiveUp?
    ensures Inv(Apply(s, step))
  {
    var s' := Apply(s, step);
    BarrierInv(s, s'.synced);
    OpKeysInv(s.(synced := s'.synced), s'.op);
    assert forall o, x :: s'.Carries(o, x) <==> s.Carries(o, x);
  }

  lemma PruneInv(s: State, stored: bool)
    requires Inv(s) && Enabled(s, Prune(stored))
    ensures Inv(Apply(s, Prune(stored)))
  {
    var s' := Apply(s, Prune(stored));
    assert forall o, x :: s'.Carries(o, x) <==> s.Carries(o, x);
    forall x ensures KeyInv(s', x) {
      assert KeyInv(s, x);
    }
  }

  lemma StepInv(s: State, step: Step)
    requires Inv(s) && Enabled(s, step)
    ensures Inv(Apply(s, step))
  {
    match step
    case Append => AppendInv(s);
    case Barrier(through) => BarrierInv(s, through);
    case LookupMiss(_) => ResolveInv(s, step);
    case ResolveHit(_) => ResolveInv(s, step);
    case ResolveStale(_) => ResolveInv(s, step);
    case ReadTail => ReserveInv(s, step);
    case Reserve => ReserveInv(s, step);
    case WriteFails(_) => ReserveInv(s, step);
    case Write => WriteInv(s);
    case SyncWritten(_) => SyncStepInv(s, step);
    case Confirm(stored) => StoreInv(s, Confirmed, stored, Idle);
    case MarkUnconfirmed(stored) => StoreInv(s, Unconfirmed, stored, Idle);
    case SyncFound(_) => SyncStepInv(s, step);
    case ConfirmFound(stored) =>
      if stored {
        StoreInv(s, Confirmed, true, Found(s.op.key, s.op.offset, true));
      } else {
        OpKeysInv(s, Idle);
      }
    case ReportPresent => SyncStepInv(s, step);
    case GiveUp => SyncStepInv(s, step);
    case TruncateLog(_, _) => LogStepInv(s, step);
    case Prune(stored) => PruneInv(s, stored);
    case Crash(_) => LogStepInv(s, step);
    case CrashInTruncate(_) => LogStepInv(s, step);
  }

  lemma Extend(states: seq<State>, steps: seq<Step>, step: Step) returns (s: State)
    requires Behaviour(states, steps) && Enabled(states[|steps|], step)
    ensures s == Apply(states[|steps|], step)
    ensures Behaviour(states + [s], steps + [step])
  {
    s := Apply(states[|steps|], step);
    forall i: nat | i <= |steps| ensures StepAt(states + [s], steps + [step], i) {
      assert i < |steps| ==> StepAt(states, steps, i);
    }
  }

  /** A run from anywhere. */
  ghost predicate RunFrom(states: seq<State>, steps: seq<Step>) {
    |states| == |steps| + 1 && forall i: nat | i < |steps| :: StepAt(states, steps, i)
  }

  lemma {:induction false} RunInv(states: seq<State>, steps: seq<Step>, i: nat)
    requires RunFrom(states, steps) && Inv(states[0]) && i < |states|
    ensures Inv(states[i])
  {
    if i > 0 {
      RunInv(states, steps, i - 1);
      assert StepAt(states, steps, i - 1);
      StepInv(states[i - 1], steps[i - 1]);
    }
  }

  lemma BehaviourInv(states: seq<State>, steps: seq<Step>, i: nat)
    requires Behaviour(states, steps) && i < |states|
    ensures Inv(states[i])
  {
    RunInv(states, steps, i);
  }

  // ---------------------------------------------------------------------------
  // Main results

  /**
   Exactly once: in every state of every run at most one record at or above the
   truncation point carries a given key.
   */
  lemma ExactlyOnce(states: seq<State>, steps: seq<Step>, i: nat, k: Key)
    requires Behaviour(states, steps) && i < |states|
    ensures UniqueFrom(states[i], states[i].floor, k)
  {
    BehaviourInv(states, steps, i);
    assert KeyInv(states[i], k);
  }

  /** A call that answers "already present" names an offset where that key can be read. */
  lemma PresentIsReadable(states: seq<State>, steps: seq<Step>, i: nat)
    requires Behaviour(states, steps) && i < |steps| && steps[i].ReportPresent?
    ensures states[i].op.Found? && states[i + 1].Carries(states[i].op.offset, states[i].op.key)
  {
    BehaviourInv(states, steps, i);
    assert StepAt(states, steps, i);
  }

  /** The key is confirmed at an offset where it can be read, but the record is not durable. */
  ghost predicate Exposed(s: State, k: Key, o: nat) {
    k in s.index && s.index[k] == Entry(o, Confirmed) && s.Carries(o, k) && s.synced <= o
  }

  /** The buffered form confirms this key, and its record is not durable at that moment. */
  ghost predicate ConfirmsBuffered(s: State, step: Step, k: Key, o: nat) {
    step == Confirm(true) && s.op == Written(k, o) && s.synced <= o
  }

  /** A flush, a crash that the record survives, or a truncation past it. */
  predicate Covers(step: Step, o: nat) {
    match step
    case Barrier(through) => o < through
    case SyncWritten(ok) => ok
    case SyncFound(ok) => ok
    case Crash(tail') => o < tail'
    case TruncateLog(_, head') => o < head'
    case _ => false
  }

  /** The key was confirmed by the buffered form at step j, and nothing up to i has covered its record since. */
  ghost predicate BufferedSince(states: seq<State>, steps: seq<Step>, j: nat, i: nat, k: Key, o: nat)
    requires |states| == |steps| + 1 && j < i <= |steps|
  {
    ConfirmsBuffered(states[j], steps[j], k, o) && forall x: nat | j < x < i :: !Covers(steps[x], o)
  }

  /** A key becomes exposed in one way only, and stays so until it is covered. */
  lemma StepExposed(s: State, step: Step, k: Key, o: nat)
    requires s.head <= s.synced <= s.Tail() && OpInv(s) && Enabled(s, step) && Exposed(Apply(s, step), k, o)
    ensures ConfirmsBuffered(s, step, k, o) || (Exposed(s, k, o) && !Covers(step, o))
  {
  }

  lemma StepUncovered(s: State, step: Step, o: nat)
    requires Enabled(s, step) && s.synced <= o && !Covers(step, o)
    ensures Apply(s, step).synced <= o
  {
  }

  lemma {:induction false} ExposedSince(states: seq<State>, steps: seq<Step>, i: nat, k: Key, o: nat) returns (j: nat)
    requires Behaviour(states, steps) && i <= |steps| && Exposed(states[i], k, o)
    ensures j < i && BufferedSince(states, steps, j, i, k, o)
    decreases i
  {
    hide Enabled, Apply, Covers, ConfirmsBuffered, Exposed, OpInv;
    assert i > 0 by {
      NothingExposed(states[0], k, o);
    }
    BehaviourInv(states, steps, i - 1);
    assert StepAt(states, steps, i - 1);
    StepExposed(states[i - 1], steps[i - 1], k, o);
    if ConfirmsBuffered(states[i - 1], steps[i - 1], k, o) {
      j := i - 1;
    } else {
      j := ExposedSince(states, steps, i - 1, k, o);
    }
  }

  lemma NothingExposed(s: State, k: Key, o: nat)
    ensures Init(s) ==> !Exposed(s, k, o)
  {
  }

  lemma {:induction false} UncoveredSince(states: seq<State>, steps: seq<Step>, j: nat, i: nat, k: Key, o: nat)
    requires Behaviour(states, steps) && j < i <= |steps| && BufferedSince(states, steps, j, i, k, o)
    ensures states[i].synced <= o
    decreases i
  {
    hide Enabled, Apply, OpInv;
    assert StepAt(states, steps, i - 1);
    if j == i - 1 {
      StepUncovered(states[j], steps[j], o);
    } else {
      UncoveredSince(states, steps, j, i - 1, k, o);
      assert !Covers(steps[i - 1], o);
      StepUncovered(states[i - 1], steps[i - 1], o);
    }
  }

  /**
   "Already present" names a durable record if and only if the key was not confirmed
   there by the buffered form with nothing to cover its record since.
   */
  lemma PresentIsDurableExactly(states: seq<State>, steps: seq<Step>, i: nat)
    requires Behaviour(states, steps) && i < |steps| && steps[i].ReportPresent?
    ensures states[i].op.Found?
    ensures var k, o := states[i].op.key, states[i].op.offset;
      o < states[i + 1].synced <==> !exists j: nat :: j < i && BufferedSince(states, steps, j, i, k, o)
  {
    BehaviourInv(states, steps, i);
    assert StepAt(states, steps, i);
    var k, o := states[i].op.key, states[i].op.offset;
    if states[i].synced <= o {
      var j := ExposedSince(states, steps, i, k, o);
    }
    forall j: nat | j < i && BufferedSince(states, steps, j, i, k, o) ensures states[i].synced <= o {
      UncoveredSince(states, steps, j, i, k, o);
    }
  }

  /** Every append of this key in the run is the syncing form: it is not confirmed before its barrier. */
  ghost predicate SyncingOnly(states: seq<State>, steps: seq<Step>, k: Key)
    requires |states| == |steps| + 1
  {
    forall i: nat | i < |steps| :: ConfirmsDurable(states[i], steps[i], k)
  }

  ghost predicate ConfirmsDurable(s: State, step: Step, k: Key) {
    step.Confirm? && s.op.Written? ==> s.op.key != k
  }

  /**
   When only the syncing form is used for a key, every success for it means the record
   is below the durable frontier.
   */
  lemma SyncedSuccessIsDurable(states: seq<State>, steps: seq<Step>, i: nat, k: Key)
    requires Behaviour(states, steps) && SyncingOnly(states, steps, k) && i < |steps|
    requires steps[i].ReportPresent? || steps[i] == Confirm(true)
    requires !states[i].op.Idle? && !states[i].op.LogTruncated? && states[i].op.key == k
    ensures states[i].op.Found? || states[i].op.Durable?
    ensures var o := states[i].op.offset; states[i + 1].Carries(o, k) && o < states[i + 1].synced
  {
    BehaviourInv(states, steps, i);
    assert StepAt(states, steps, i) && ConfirmsDurable(states[i], steps[i], k);
    if steps[i].ReportPresent? {
      PresentIsDurableExactly(states, steps, i);
      forall j: nat | j < i ensures !BufferedSince(states, steps, j, i, k, states[i].op.offset) {
        assert ConfirmsDurable(states[j], steps[j], k);
      }
    }
  }

  /** The step asks for the record at this offset to go, or loses the whole log half-way through asking. */
  predicate Discards(step: Step, o: nat) {
    match step
    case TruncateLog(min, _) => o < min
    case CrashInTruncate(_) => true
    case _ => false
  }

  /** A durable record stays readable at its offset through every later crash, until it is truncated. */
  lemma {:induction false} DurableStays(states: seq<State>, steps: seq<Step>, i: nat, j: nat, o: nat, k: Key)
    requires Behaviour(states, steps) && i <= j < |states|
    requires states[i].Carries(o, k) && o < states[i].synced
    requires forall x | i <= x < j :: !Discards(steps[x], o)
    ensures states[j].Carries(o, k) && o < states[j].synced
  {
    if i < j {
      DurableStays(states, steps, i, j - 1, o, k);
      BehaviourInv(states, steps, j - 1);
      assert StepAt(states, steps, j - 1);
      assert !Discards(steps[j - 1], o);
    }
  }

  const M0 := State(0, [], 0, 0, map[], Idle)
  const M1 := M0.(op := Absent("k"))
  const M2 := M0.(op := TailRead("k", 0))
  const M3 := M0.(index := map["k" := Entry(0, Pending)], op := Reserved("k"))
  const M4 := M3.(recs := [Some("k")], op := Written("k", 0))
  const M5 := M4.(index := map["k" := Entry(0, Confirmed)], op := Idle)
  const M6 := M5.(op := Found("k", 0, true))

  /** AppendOnce of one key, in its buffered form, on an empty log. */
  lemma BufferedAppend()
    ensures Enabled(M0, LookupMiss("k")) && Apply(M0, LookupMiss("k")) == M1
    ensures Enabled(M1, ReadTail) && Apply(M1, ReadTail) == M2
    ensures Enabled(M2, Reserve) && Apply(M2, Reserve) == M3
    ensures Enabled(M3, Write) && Apply(M3, Write) == M4
    ensures Enabled(M4, Confirm(true)) && Apply(M4, Confirm(true)) == M5
  {
  }

  /** Then AppendOnceAndSync of the same key. */
  lemma SyncingAppendFinds()
    ensures Enabled(M5, ResolveHit("k")) && Apply(M5, ResolveHit("k")) == M6
    ensures Enabled(M6, ReportPresent) && Apply(M6, ReportPresent) == M5
  {
  }

  lemma CrashTakesIt()
    ensures Enabled(M5, Crash(0)) && !Apply(M5, Crash(0)).Carries(0, "k")
  {
  }

  /**
   Mixing the two forms breaks that: a key confirmed by the buffered form makes
   the syncing form answer "present" for a record that a crash can still take.
   */
  lemma MixedFormsNotDurable() returns (states: seq<State>, steps: seq<Step>)
    ensures Behaviour(states, steps) && steps != [] && steps[|steps| - 1].ReportPresent?
    ensures states[|steps| - 1].op == Found("k", 0, true) && states[|steps|].synced == 0
    ensures Enabled(states[|steps|], Crash(0)) && !Apply(states[|steps|], Crash(0)).Carries(0, "k")
  {
    hide Enabled, Apply;
    BufferedAppend();
    SyncingAppendFinds();
    CrashTakesIt();
    states := [M0, M1, M2, M3, M4, M5, M6, M5];
    steps := [LookupMiss("k"), ReadTail, Reserve, Write, Confirm(true), ResolveHit("k"), ReportPresent];
  }

  // ---------------------------------------------------------------------------
  // The calls themselves

  /** Records read by one call while a pending entry is scanned. */
  const RECOVERY_BATCH: nat := 256

  datatype Outcome =
    | KeyRequired
    | Done(offset: nat, present: bool)
    | NotDurable(offset: nat)
    | IndexUnconfirmed(offset: nat)
    | Failed

  /** Which of the calls into the store and the index fail, chosen by the environment. */
  datatype Faults = Faults(
    lookup: bool, syncFound: bool, storeFound: bool, remove: bool, reserve: bool,
    append: bool, clear: bool, barrier: bool, store: bool)

  const NO_FAULTS := Faults(false, false, false, false, false, false, false, false, false)

  /** What runs beside a call that holds the queue's lock: plain appends and barriers. */
  predicate Unlocked(step: Step) {
    step.Append? || step.Barrier?
  }

  /** The log only grew, by records without a key, and only more of it became durable. */
  ghost predicate Grew(was: State, s: State) {
    && s.head == was.head && s.floor == was.floor && s.index == was.index && s.op == was.op
    && was.recs <= s.recs && was.synced <= s.synced
    && forall i | |was.recs| <= i < |s.recs| :: s.recs[i].None?
  }

  lemma GrewCarries(was: State, s: State)
    requires Grew(was, s)
    ensures forall o, k :: s.Carries(o, k) <==> was.Carries(o, k)
  {
  }

  /** What the call finds of this key: its entry stands for a record that is there. */
  predicate Known(s: State, k: Key) {
    k in s.index && Resolve(s, k).Some?
  }

  lemma GrewFirst(a: seq<Option<Key>>, b: seq<Option<Key>>, i: nat, k: Key)
    requires a <= b && i <= |a| && forall x | |a| <= x < |b| :: b[x].None?
    ensures var j, j' := FirstFrom(a, i, k), FirstFrom(b, i, k);
      if j < |a| then j' == j else j' == |b|
  {
  }

  /** What others append meanwhile does not change what the key resolves to. */
  lemma GrewResolve(was: State, s: State, k: Key)
    requires Grew(was, s) && k in was.index
    ensures Resolve(s, k) == Resolve(was, k)
  {
    GrewCarries(was, s);
    var e := was.index[k];
    if e.mark.Pending? {
      var start := ScanStart(was, e.offset);
      if start < was.Tail() {
        GrewFirst(was.recs, s.recs, start - was.head, k);
      } else if start < s.Tail() {
        var j := FirstFrom(s.recs, start - s.head, k);
      }
    }
  }

  /** A live record is what its key resolves to. */
  lemma LiveIsKnown(s: State, o: nat, k: Key)
    requires Inv(s) && s.floor <= o && s.Carries(o, k)
    ensures Known(s, k) && Resolve(s, k).value.offset == o
  {
    assert KeyInv(s, k) && Covered(s, o, k);
    var e := s.index[k];
    if e.mark.Pending? {
      var j := FirstFrom(s.recs, ScanStart(s, e.offset) - s.head, k);
      assert s.Carries(s.head + j, k);
    }
  }

  /** The same records are there, and no other key's entry has changed. */
  ghost predicate Kept(was: State, s: State, k: Key) {
    && s.head == was.head && s.floor == was.floor
    && (forall x, d :: s.Carries(x, d) <==> was.Carries(x, d))
    && (forall d | d != k :: (d in s.index <==> d in was.index) && (d in was.index ==> s.index[d] == was.index[d]))
  }

  /** The same, but for one more record with this key at this offset. */
  ghost predicate Added(was: State, s: State, o: nat, k: Key) {
    && s.head == was.head && s.floor == was.floor && !was.Carries(o, k)
    && (forall x, d :: s.Carries(x, d) <==> was.Carries(x, d) || (x == o && d == k))
    && (forall d | d != k :: (d in s.index <==> d in was.index) && (d in was.index ==> s.index[d] == was.index[d]))
  }

  lemma GrewKept(was: State, s: State, k: Key)
    requires Grew(was, s)
    ensures Kept(was, s, k)
  {
  }

  lemma Same(s: State, k: Key)
    ensures Kept(s, s, k)
  {
  }

  lemma KeptKept(a: State, b: State, c: State, k: Key)
    requires Kept(a, b, k) && Kept(b, c, k)
    ensures Kept(a, c, k)
  {
  }

  lemma KeptAdded(a: State, b: State, c: State, o: nat, k: Key)
    requires Kept(a, b, k) && Added(b, c, o, k)
    ensures Added(a, c, o, k)
  {
  }

  lemma AddedKept(a: State, b: State, c: State, o: nat, k: Key)
    requires Added(a, b, o, k) && Kept(b, c, k)
    ensures Added(a, c, o, k) && c.Carries(o, k)
  {
  }

  lemma KeptAt(was: State, s: State, o: nat, k: Key)
    requires Kept(was, s, k)
    ensures s.Carries(o, k) <==> was.Carries(o, k)
  {
  }

  /** When the call fails with nothing appended: a fault of a call it comes to. */
  predicate Fails(s: State, k: Key, faults: Faults) {
    faults.lookup || (!Known(s, k) && ((k in s.index && faults.remove) || faults.reserve || faults.append))
  }

  /** When the record is there but may not be durable, or is but the index does not say so. */
  predicate LeavesUndurable(s: State, k: Key, syncing: bool, faults: Faults) {
    !Fails(s, k, faults) &&
    if Known(s, k) then !Resolve(s, k).value.mark.Confirmed? && faults.syncFound else syncing && faults.barrier
  }

  predicate LeavesUnconfirmed(s: State, k: Key, syncing: bool, faults: Faults) {
    !Fails(s, k, faults) && !LeavesUndurable(s, k, syncing, faults) &&
    if Known(s, k) then !Resolve(s, k).value.mark.Confirmed? && faults.storeFound else faults.store
  }

  class Queue {
    var s: State
    var others: seq<seq<Step>>
    ghost var states: seq<State>
    ghost var steps: seq<Step>

    ghost predicate Valid()
      reads this
    {
      Behaviour(states, steps) && states[|steps|] == s
    }

    method Do(step: Step)
      requires Valid() && Enabled(s, step)
      modifies this
      ensures Valid() && s == Apply(old(s), step)
      ensures old(steps) <= steps && old(states) <= states
    {
      ghost var s' := Extend(states, steps, step);
      s := Apply(s, step);
      steps, states := steps + [step], states + [s];
    }

    lemma ValidInv()
      requires Valid()
      ensures Inv(s)
    {
      BehaviourInv(states, steps, |steps|);
    }

    /** Lets the rest of the process run: the schedule is arbitrary. */
    method Others()
      requires Valid()
      modifies this
      ensures Valid() && Grew(old(s), s)
      ensures old(steps) <= steps && old(states) <= states
    {
      hide Behaviour;
      var batch := if others == [] then [] else others[0];
      others := if others == [] then [] else others[1..];
      for i := 0 to |batch|
        invariant Valid() && Grew(old(s), s)
        invariant old(steps) <= steps && old(states) <= states
      {
        if Unlocked(batch[i]) && Enabled(s, batch[i]) {
          Do(batch[i]);
        }
      }
    }

    /** findDedupeRecord: scans up to the tail it saw first, a batch of records at a time. */
    method FindDedupeRecord(k: Key, from: nat) returns (found: bool, offset: nat)
      requires Valid() && s.op.Idle?
      modifies this
      ensures Valid() && Grew(old(s), s)
      ensures old(steps) <= steps && old(states) <= states
      ensures found ==> ScanStart(s, from) <= offset && s.Carries(offset, k)
      ensures forall o | ScanStart(s, from) <= o < (if found then offset else s.Tail()) :: !s.Carries(o, k)
    {
      hide Behaviour;
      Others();
      var start := if from < s.head then s.head else from;
      var tail := s.Tail();
      ghost var seen := s;
      offset := 0;
      while start < tail
        invariant Valid() && Grew(old(s), s) && Grew(seen, s)
        invariant old(steps) <= steps && old(states) <= states
        invariant ScanStart(s, from) <= start
        invariant forall o | ScanStart(s, from) <= o < start :: !s.Carries(o, k)
        decreases tail - start
      {
        ghost var before := s;
        Others();
        GrewCarries(before, s);
        var end := if start + RECOVERY_BATCH < tail then start + RECOVERY_BATCH else tail;
        for o := start to end
          invariant forall x | ScanStart(s, from) <= x < o :: !s.Carries(x, k)
        {
          if s.recs[o - s.head] == Some(k) {
            return true, o;
          }
        }
        start := end;
      }
      found := false;
    }

    /** Others run; nothing that concerns this key changes. */
    method Aside(k: Key)
      requires Valid()
      modifies this
      ensures Valid() && Grew(old(s), s) && Kept(old(s), s, k) && s.op == old(s.op) && s.index == old(s.index)
      ensures old(s.Tail()) <= s.Tail() && old(s.synced) <= s.synced
      ensures k in s.index ==> Resolve(s, k) == old(Resolve(s, k))
      ensures old(steps) <= steps && old(states) <= states
    {
      hide Behaviour, Resolve;
      Others();
      GrewKept(old(s), s, k);
      if k in s.index {
        GrewResolve(old(s), s, k);
      }
    }

    /**
     appendOnce, in its buffered or its syncing form. Whatever it answers, the
     steps it took are steps of the run, so a crash anywhere inside it is one of
     the crashes the results above cover.
     */
    method AppendOnce(k: Key, syncing: bool, faults: Faults) returns (r: Outcome)
      requires Valid() && s.op.Idle?
      modifies this
      ensures Valid() && s.op.Idle?
      ensures old(steps) <= steps && old(states) <= states
      ensures r.KeyRequired? <==> k == ""
      ensures r.Done? || r.NotDurable? || r.IndexUnconfirmed? ==> s.Carries(r.offset, k)
      ensures r.Done? ==> k in s.index && s.index[k] == Entry(r.offset, Confirmed)
      ensures r.Done? && !r.present ==> old(s.Tail()) <= r.offset && (syncing ==> r.offset < s.synced)
      ensures k != "" ==>
        && (r.Failed? <==> Fails(old(s), k, faults))
        && (r.NotDurable? <==> LeavesUndurable(old(s), k, syncing, faults))
        && (r.IndexUnconfirmed? <==> LeavesUnconfirmed(old(s), k, syncing, faults))
      ensures k != "" && faults == NO_FAULTS ==> r.Done?
      ensures r.Done? ==> (r.present <==> Known(old(s), k))
      ensures !r.KeyRequired? && !r.Failed? && Known(old(s), k) ==> r.offset == Resolve(old(s), k).value.offset
      ensures forall o | old(s.floor) <= o && old(s.Carries(o, k)) && r.Done? :: r == Done(o, true)
      ensures if r.KeyRequired? || r.Failed? || Known(old(s), k) then Kept(old(s), s, k)
              else Added(old(s), s, r.offset, k)
    {
      hide Behaviour, Resolve, Apply, Enabled, Inv, Kept, Added, Grew;
      Same(s, k);
      if k == "" {
        return KeyRequired;
      }
      ValidInv();
      forall o | s.floor <= o && s.Carries(o, k) ensures Known(s, k) && Resolve(s, k).value.offset == o {
        LiveIsKnown(s, o, k);
      }
      Aside(k);
      if faults.lookup {
        return Failed;
      }
      ghost var was := s;
      r := Decide(k, syncing, faults);
      if r.Failed? || Known(was, k) {
        KeptKept(old(s), was, s, k);
      } else {
        KeptAdded(old(s), was, s, r.offset, k);
      }
    }

    /** The rest of the call, once the index has answered. */
    method Decide(k: Key, syncing: bool, faults: Faults) returns (r: Outcome)
      requires Valid() && s.op.Idle? && k != "" && !faults.lookup
      modifies this
      ensures Valid() && s.op.Idle? && !r.KeyRequired?
      ensures old(steps) <= steps && old(states) <= states
      ensures !r.Failed? ==> s.Carries(r.offset, k)
      ensures r.Done? ==> k in s.index && s.index[k] == Entry(r.offset, Confirmed)
      ensures r.Failed? <==> Fails(old(s), k, faults)
      ensures Known(old(s), k) ==>
        var e := old(Resolve(s, k)).value;
        r == if e.mark.Confirmed? then Done(e.offset, true)
             else if faults.syncFound then NotDurable(e.offset)
             else if faults.storeFound then IndexUnconfirmed(e.offset) else Done(e.offset, true)
      ensures !Known(old(s), k) && !r.Failed? ==>
        && old(s.Tail()) <= r.offset && (r.NotDurable? <==> syncing && faults.barrier)
        && (r.IndexUnconfirmed? <==> !(syncing && faults.barrier) && faults.store)
        && (r.Done? ==> !r.present && (syncing ==> r.offset < s.synced))
      ensures if r.Failed? || Known(old(s), k) then Kept(old(s), s, k) else Added(old(s), s, r.offset, k)
    {
      hide Behaviour, Resolve, Apply, Enabled, Inv, Kept, Added, Grew;
      Same(s, k);
      ghost var was := s;
      var found, offset := false, 0;
      if k in s.index {
        found, offset := Settle(k);
      }
      was := s;
      if found {
        r := ConfirmPresent(k, offset, faults);
        KeptKept(old(s), was, s, k);
      } else if k in s.index && faults.remove {
        r := Failed;
      } else {
        Clear(k);
        KeptKept(old(s), was, s, k);
        was := s;
        r := AppendNew(k, syncing, faults);
        if r.Failed? {
          KeptKept(old(s), was, s, k);
        } else {
          KeptAdded(old(s), was, s, r.offset, k);
        }
      }
    }

    /** The key is free: it was not in the index, or its stale entry is removed. */
    method Clear(k: Key)
      requires Valid() && s.op.Idle? && !Known(s, k)
      modifies this
      ensures Valid() && s.op == Absent(k) && k !in s.index && s.Tail() == old(s.Tail()) && Kept(old(s), s, k)
      ensures old(steps) <= steps && old(states) <= states
    {
      hide Behaviour;
      if k in s.index {
        Do(ResolveStale(k));
      } else {
        Do(LookupMiss(k));
      }
    }

    /** The branch for a key that is not there: reserve the tail, then append. */
    method AppendNew(k: Key, syncing: bool, faults: Faults) returns (r: Outcome)
      requires Valid() && s.op == Absent(k)
      modifies this
      ensures Valid() && s.op.Idle?
      ensures old(steps) <= steps && old(states) <= states
      ensures !r.KeyRequired? && (r.Failed? <==> faults.reserve || faults.append)
      ensures r.Failed? ==> Kept(old(s), s, k) && (k in s.index <==> !faults.reserve && faults.clear)
      ensures !r.Failed? ==> old(s.Tail()) <= r.offset && s.Carries(r.offset, k) && Added(old(s), s, r.offset, k)
      ensures !r.Failed? ==> (r.NotDurable? <==> syncing && faults.barrier)
      ensures r.IndexUnconfirmed? <==> !r.Failed? && !(syncing && faults.barrier) && faults.store
      ensures r.Done? ==> !r.present && k in s.index && s.index[k] == Entry(r.offset, Confirmed)
      ensures r.Done? && syncing ==> r.offset < s.synced
    {
      hide Behaviour, Resolve, Kept, Added, Grew, Apply, Enabled;
      ReserveTail(k, faults.reserve);
      if faults.reserve {
        return Failed;
      }
      ghost var was := s;
      Aside(k);
      KeptKept(old(s), was, s, k);
      was := s;
      if faults.append {
        NotWritten(k, faults.clear);
        KeptKept(old(s), was, s, k);
        return Failed;
      }
      r := WriteRecord(k, syncing, faults);
      KeptAdded(old(s), was, s, r.offset, k);
    }

    /** The tail is read and the key reserved at it, if the index takes it. */
    method ReserveTail(k: Key, fails: bool)
      requires Valid() && s.op == Absent(k)
      modifies this
      ensures Valid() && Kept(old(s), s, k) && old(s.Tail()) <= s.Tail()
      ensures if fails then s.op.Idle? && k !in s.index else s.op == Reserved(k) && k in s.index
      ensures old(steps) <= steps && old(states) <= states
    {
      hide Behaviour, Resolve, Grew;
      ValidInv();
      Aside(k);
      ghost var was := s;
      Do(ReadTail);
      KeptKept(old(s), was, s, k);
      was := s;
      Aside(k);
      KeptKept(old(s), was, s, k);
      was := s;
      Do(if fails then GiveUp else Reserve);
      KeptKept(old(s), was, s, k);
    }

    /** The append failed: the reservation is cleared, if the index lets it. */
    method NotWritten(k: Key, fails: bool)
      requires Valid() && s.op == Reserved(k) && k in s.index
      modifies this
      ensures Valid() && s.op.Idle? && Kept(old(s), s, k) && (k in s.index <==> fails)
      ensures old(steps) <= steps && old(states) <= states
    {
      hide Behaviour;
      Do(WriteFails(!fails));
    }

    /** resolveDedupeEntry, as the call runs it; what it finds is what the entry resolves to. */
    method Settle(k: Key) returns (found: bool, offset: nat)
      requires Valid() && s.op.Idle? && k in s.index
      modifies this
      ensures Valid() && Grew(old(s), s) && Kept(old(s), s, k) && s.op.Idle? && s.index == old(s.index)
      ensures old(s.Tail()) <= s.Tail() && Resolve(s, k) == old(Resolve(s, k))
      ensures old(steps) <= steps && old(states) <= states
      ensures found <==> Resolve(s, k).Some?
      ensures found ==> Resolve(s, k).value.offset == offset
    {
      hide Behaviour;
      var e := s.index[k];
      ValidInv();
      if e.mark.Pending? {
        found, offset := FindDedupeRecord(k, e.offset);
      } else {
        found, offset := s.Carries(e.offset, k), e.offset;
      }
      GrewKept(old(s), s, k);
      GrewResolve(old(s), s, k);
    }

    /** The branch for a record that is there: make it durable, confirm it, answer "present". */
    method ConfirmPresent(k: Key, offset: nat, faults: Faults) returns (r: Outcome)
      requires Valid() && s.op.Idle? && k in s.index
      requires Resolve(s, k).Some? && Resolve(s, k).value.offset == offset
      modifies this
      ensures Valid() && s.op.Idle?
      ensures old(steps) <= steps && old(states) <= states
      ensures s.Carries(offset, k) && Kept(old(s), s, k)
      ensures r.Done? ==> k in s.index && s.index[k] == Entry(offset, Confirmed)
      ensures r == if old(Resolve(s, k)).value.mark.Confirmed? then Done(offset, true)
                   else if faults.syncFound then NotDurable(offset)
                   else if faults.storeFound then IndexUnconfirmed(offset) else Done(offset, true)
    {
      hide Behaviour;
      Do(ResolveHit(k));
      ghost var was := s;
      r := Done(offset, true);
      if !s.op.confirmed {
        r := SyncPresent(k, offset, faults);
      } else {
        ValidInv();
        Same(s, k);
      }
      KeptAt(was, s, offset, k);
      KeptKept(old(s), was, s, k);
      was := s;
      if r.Done? {
        Do(ReportPresent);
      }
      KeptKept(old(s), was, s, k);
    }

    method SyncPresent(k: Key, offset: nat, faults: Faults) returns (r: Outcome)
      requires Valid() && s.op == Found(k, offset, false) && s.Carries(offset, k)
      modifies this
      ensures Valid() && s.Carries(offset, k) && Kept(old(s), s, k)
      ensures old(steps) <= steps && old(states) <= states
      ensures s.op == if r.Done? then Found(k, offset, true) else Idle
      ensures r == if faults.syncFound then NotDurable(offset)
                   else if faults.storeFound then IndexUnconfirmed(offset) else Done(offset, true)
      ensures r.Done? ==> k in s.index && s.index[k] == Entry(offset, Confirmed)
      ensures r.Done? || r.IndexUnconfirmed? ==> offset < s.synced
    {
      hide Behaviour, Resolve, Grew;
      Aside(k);
      ghost var was := s;
      Do(SyncFound(!faults.syncFound));
      KeptKept(old(s), was, s, k);
      KeptAt(old(s), s, offset, k);
      if faults.syncFound {
        return NotDurable(offset);
      }
      was := s;
      Aside(k);
      KeptKept(old(s), was, s, k);
      was := s;
      Do(ConfirmFound(!faults.storeFound));
      KeptKept(old(s), was, s, k);
      KeptAt(old(s), s, offset, k);
      r := if faults.storeFound then IndexUnconfirmed(offset) else Done(offset, true);
    }

    /** The append itself and the index transaction that follows it. */
    method WriteRecord(k: Key, syncing: bool, faults: Faults) returns (r: Outcome)
      requires Valid() && s.op == Reserved(k) && k in s.index
      modifies this
      ensures Valid() && s.op.Idle?
      ensures old(steps) <= steps && old(states) <= states
      ensures r == (if syncing && faults.barrier then NotDurable(old(s.Tail()))
                    else if faults.store then IndexUnconfirmed(old(s.Tail())) else Done(old(s.Tail()), false))
      ensures s.Carries(r.offset, k) && Added(old(s), s, r.offset, k) && k in s.index
      ensures s.index[k] == if faults.store then old(s.index[k])
                            else Entry(r.offset, if r.NotDurable? then Unconfirmed else Confirmed)
      ensures !r.NotDurable? && syncing ==> r.offset < s.synced
    {
      hide Behaviour, Kept, Added, Grew, Apply, Enabled;
      var offset := s.Tail();
      PutRecord(k);
      if syncing {
        ghost var was := s;
        Flush(k, offset, !faults.barrier);
        AddedKept(old(s), was, s, offset, k);
      }
      ghost var was := s;
      Note(k, offset, !faults.store);
      AddedKept(old(s), was, s, offset, k);
      r := if syncing && faults.barrier then NotDurable(offset)
           else if faults.store then IndexUnconfirmed(offset) else Done(offset, false);
    }

    method PutRecord(k: Key)
      requires Valid() && s.op == Reserved(k) && k in s.index
      modifies this
      ensures Valid() && s.op == Written(k, old(s.Tail())) && s.index == old(s.index)
      ensures Added(old(s), s, old(s.Tail()), k) && s.Carries(old(s.Tail()), k)
      ensures old(steps) <= steps && old(states) <= states
    {
      hide Behaviour;
      Do(Write);
      ghost var was := s;
      assert Added(old(s), s, old(s.Tail()), k);
      Others();
      GrewKept(was, s, k);
      AddedKept(old(s), was, s, old(s.Tail()), k);
    }

    method Flush(k: Key, offset: nat, ok: bool)
      requires Valid() && s.op == Written(k, offset)
      modifies this
      ensures Valid() && Kept(old(s), s, k) && s.index == old(s.index)
      ensures s.op == if ok then Durable(k, offset) else BarrierFailed(k, offset)
      ensures ok ==> offset < s.synced
      ensures old(steps) <= steps && old(states) <= states
    {
      hide Behaviour, Resolve, Grew;
      ValidInv();
      Do(SyncWritten(ok));
      Aside(k);
    }

    /** The index entry of the accepted record, if the index takes it. */
    method Note(k: Key, offset: nat, ok: bool)
      requires Valid() && k in s.index
      requires s.op == Written(k, offset) || s.op == Durable(k, offset) || s.op == BarrierFailed(k, offset)
      modifies this
      ensures Valid() && s.op.Idle? && Kept(old(s), s, k) && k in s.index && s.synced == old(s.synced)
      ensures s.index[k] == if !ok then old(s.index[k])
                            else Entry(offset, if old(s.op.BarrierFailed?) then Unconfirmed else Confirmed)
      ensures old(steps) <= steps && old(states) <= states
    {
      hide Behaviour;
      Do(if s.op.BarrierFailed? then MarkUnconfirmed(ok) else Confirm(ok));
    }

    /** Adapter.Truncate: the log first, then the index, under the same lock. */
    method Truncate(min: nat, head': nat, pruned: bool)
      requires Valid() && s.op.Idle? && TruncatesTo(s, min, head')
      modifies this
      ensures Valid() && s.op.Idle?
      ensures old(steps) <= steps && old(states) <= states
      ensures s.head == head' && s.floor == if old(s.floor) < min then min else old(s.floor)
      ensures forall o, x :: s.Carries(o, x) <==> old(s.Carries(o, x)) && head' <= o
      ensures forall o, x | min <= o && old(s.Carries(o, x)) :: s.Carries(o, x)
      ensures s.index == if pruned then PruneBelow(old(s.index), min) else old(s.index)
    {
      hide Behaviour;
      Do(TruncateLog(min, head'));
      ghost var was := s;
      Others();
      GrewCarries(was, s);
      Do(Prune(pruned));
    }
  }
}
