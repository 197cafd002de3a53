/**
 The state of a consumer group: cursor, acknowledgement floor and pending
 entries, kept in memory in shards and on disk as snapshots and an operation log.
 */
module ConsumerGroups {
  import opened Prelude
  import opened Encoding

  type Consumer = string

  datatype Pending = Pending(offset: nat, consumer: Consumer, deliveredAt: int, count: nat, lastAttempt: int)

  datatype Group = Group(floor: nat, cursor: nat, delivered: nat)

  const NEW_GROUP := Group(0, 0, 0)

  /** The group and its pending entries, however they are stored. */
  datatype View = View(group: Group, pending: map<nat, Pending>)

  datatype Op =
    | Deliver(offset: nat, consumer: Consumer, ts: int)
    | Ack(offset: nat)
    | AckBatch(offsets: seq<nat>)
    | Nack(offset: nat, ts: int)
    | Claim(offset: nat, consumer: Consumer, ts: int)
    | ClaimBatch(offsets: seq<nat>, consumer: Consumer, ts: int)
    | AdvanceFloor(floor: nat)
    | SetCursor(cursor: nat)
    | RestorePending(offset: nat, consumer: Consumer, ts: int, count: nat)
    | Release(offset: nat, ts: int)

  // ---------------------------------------------------------------------------
  // What each operation means

  function Delivered(v: View, o: nat, c: Consumer, ts: int): View {
    View(v.group.(delivered := v.group.delivered + 1, cursor := if o >= v.group.cursor then o + 1 else v.group.cursor),
         v.pending[o := Pending(o, c, ts, 1, ts)])
  }

  function Restored(v: View, o: nat, c: Consumer, ts: int, n: nat): View {
    v.(pending := v.pending[o := Pending(o, c, ts, if n == 0 then 1 else n, ts)])
  }

  /** The last offset before the cursor up to which nothing is pending, looking upward from the floor. */
  function Advanced(floor: nat, cursor: nat, pending: map<nat, Pending>): (r: nat)
    ensures floor <= r
    ensures r + 1 in pending || cursor <= r + 1
    ensures r == floor || r < cursor
    ensures forall o | floor < o <= r :: o !in pending
    decreases cursor - floor
  {
    if floor + 1 < cursor && floor + 1 !in pending then Advanced(floor + 1, cursor, pending) else floor
  }

  function Acked(v: View, o: nat): View {
    if o !in v.pending then v
    else
      var rest := v.pending - {o};
      View(v.group.(floor := Advanced(v.group.floor, v.group.cursor, rest)), rest)
  }

  /** The attempt counter is 16 bits wide and wraps. */
  function Counted(p: Pending): Pending {
    p.(count := (p.count + 1) % TWO16)
  }

  function Nacked(v: View, o: nat, ts: int): View {
    if o !in v.pending then v else v.(pending := v.pending[o := Counted(v.pending[o]).(lastAttempt := ts)])
  }

  function Released(v: View, o: nat, ts: int): View {
    if o !in v.pending then v else v.(pending := v.pending[o := v.pending[o].(lastAttempt := ts)])
  }

  function Claimed(v: View, o: nat, c: Consumer, ts: int): View {
    if o !in v.pending then v
    else v.(pending := v.pending[o := Counted(v.pending[o]).(consumer := c, lastAttempt := ts)])
  }

  function AckedAll(v: View, os: seq<nat>): View {
    if os == [] then v else Acked(AckedAll(v, os[..|os| - 1]), os[|os| - 1])
  }

  function ClaimedAll(v: View, os: seq<nat>, c: Consumer, ts: int): View {
    if os == [] then v else Claimed(ClaimedAll(v, os[..|os| - 1], c, ts), os[|os| - 1], c, ts)
  }

  function Applied(v: View, op: Op): View {
    match op
    case Deliver(o, c, ts) => Delivered(v, o, c, ts)
    case Ack(o) => Acked(v, o)
    case AckBatch(os) => AckedAll(v, os)
    case Nack(o, ts) => Nacked(v, o, ts)
    case Claim(o, c, ts) => Claimed(v, o, c, ts)
    case ClaimBatch(os, c, ts) => ClaimedAll(v, os, c, ts)
    case AdvanceFloor(f) => v.(group := v.group.(floor := if f > v.group.floor then f else v.group.floor))
    case SetCursor(k) => v.(group := v.group.(cursor := k))
    case RestorePending(o, c, ts, n) => Restored(v, o, c, ts, n)
    case Release(o, ts) => Released(v, o, ts)
  }

  function Replayed(v: View, ops: seq<Op>): View {
    if ops == [] then v else Applied(Replayed(v, ops[..|ops| - 1]), ops[|ops| - 1])
  }

  // ---------------------------------------------------------------------------
  // The acknowledgement floor

  lemma {:induction false} AckBatchFloor(v: View, os: seq<nat>)
    ensures v.group.floor <= AckedAll(v, os).group.floor && AckedAll(v, os).group.cursor == v.group.cursor
  {
    if os != [] {
      AckBatchFloor(v, os[..|os| - 1]);
    }
  }

  lemma {:induction false} ClaimBatchGroup(v: View, os: seq<nat>, c: Consumer, ts: int)
    ensures ClaimedAll(v, os, c, ts).group == v.group && ClaimedAll(v, os, c, ts).pending.Keys == v.pending.Keys
  {
    if os != [] {
      ClaimBatchGroup(v, os[..|os| - 1], c, ts);
      var w := ClaimedAll(v, os[..|os| - 1], c, ts);
      assert Claimed(w, os[|os| - 1], c, ts).pending.Keys == w.pending.Keys;
    }
  }

  /** The floor never moves back, whatever is asked. */
  lemma {:induction false} FloorNeverDecreases(v: View, ops: seq<Op>)
    ensures v.group.floor <= Replayed(v, ops).group.floor
  {
    if ops != [] {
      var n := |ops| - 1;
      FloorNeverDecreases(v, ops[..n]);
      var w := Replayed(v, ops[..n]);
      match ops[n]
      case AckBatch(os) => AckBatchFloor(w, os);
      case ClaimBatch(os, c, ts) => ClaimBatchGroup(w, os, c, ts);
      case _ =>
    }
  }

  /** Deliveries at or past the cursor, the cursor never set back, the floor and old entries not restored by hand. */
  predicate InOrder(v: View, op: Op) {
    match op
    case Deliver(o, _, _) => v.group.cursor <= o
    case SetCursor(k) => v.group.cursor <= k
    case AdvanceFloor(_) => false
    case RestorePending(o, _, _, _) => v.group.floor < o
    case _ => true
  }

  ghost predicate AllInOrder(v: View, ops: seq<Op>)
    decreases |ops|
  {
    ops == [] || (AllInOrder(v, ops[..|ops| - 1]) && InOrder(Replayed(v, ops[..|ops| - 1]), ops[|ops| - 1]))
  }

  /** Everything from 1 up to the floor is settled, and the floor stays below the cursor. */
  ghost predicate Settled(v: View) {
    && (v.group.floor == 0 || v.group.floor < v.group.cursor)
    && forall o :: 1 <= o <= v.group.floor ==> o !in v.pending
  }

  lemma AckSettled(v: View, o: nat)
    requires Settled(v)
    ensures Settled(Acked(v, o))
  {
  }

  lemma {:induction false} AckBatchSettled(v: View, os: seq<nat>)
    requires Settled(v)
    ensures Settled(AckedAll(v, os))
  {
    if os != [] {
      AckBatchSettled(v, os[..|os| - 1]);
      AckSettled(AckedAll(v, os[..|os| - 1]), os[|os| - 1]);
    }
  }

  lemma StepSettled(v: View, op: Op)
    requires Settled(v) && InOrder(v, op)
    ensures Settled(Applied(v, op))
  {
    match op
    case Ack(o) => AckSettled(v, o);
    case AckBatch(os) => AckBatchSettled(v, os);
    case ClaimBatch(os, c, ts) => ClaimBatchGroup(v, os, c, ts);
    case _ =>
  }

  /** In every run of in-order operations no offset from 1 up to the floor is pending. */
  lemma {:induction false} NothingPendingBelowFloor(ops: seq<Op>)
    requires AllInOrder(View(NEW_GROUP, map[]), ops)
    ensures Settled(Replayed(View(NEW_GROUP, map[]), ops))
  {
    if ops != [] {
      NothingPendingBelowFloor(ops[..|ops| - 1]);
      StepSettled(Replayed(View(NEW_GROUP, map[]), ops[..|ops| - 1]), ops[|ops| - 1]);
    }
  }

  /** The floor is as high as it can be: the next offset is pending, or not delivered yet. */
  ghost predicate AtGap(v: View) {
    v.group.floor + 1 in v.pending || v.group.cursor <= v.group.floor + 1
  }

  /** Deliveries leave no offset out, and neither end is set forward by hand. */
  predicate NoneSkipped(v: View, op: Op) {
    match op
    case Deliver(o, _, _) => o <= v.group.cursor
    case SetCursor(k) => k <= v.group.cursor
    case AdvanceFloor(_) => false
    case _ => true
  }

  ghost predicate AllInTurn(v: View, ops: seq<Op>)
    decreases |ops|
  {
    ops == [] || (AllInTurn(v, ops[..|ops| - 1]) && NoneSkipped(Replayed(v, ops[..|ops| - 1]), ops[|ops| - 1]))
  }

  lemma {:induction false} AckBatchAtGap(v: View, os: seq<nat>)
    requires AtGap(v)
    ensures AtGap(AckedAll(v, os))
  {
    if os != [] {
      AckBatchAtGap(v, os[..|os| - 1]);
    }
  }

  lemma AckAtGap(v: View, o: nat)
    ensures o in v.pending ==> AtGap(Acked(v, o))
    ensures o !in v.pending ==> Acked(v, o) == v
  {
  }

  lemma {:induction false} AckBatchReachesGap(v: View, os: seq<nat>)
    ensures AckedAll(v, os) != v ==> AtGap(AckedAll(v, os))
  {
    hide Acked, AtGap;
    if os != [] {
      var n := |os| - 1;
      AckBatchReachesGap(v, os[..n]);
      AckAtGap(AckedAll(v, os[..n]), os[n]);
    }
  }

  /** Whatever came before, an acknowledgement that changes anything leaves the floor as high as it can be. */
  lemma AckReachesGap(v: View, op: Op)
    requires op.Ack? || op.AckBatch?
    ensures Applied(v, op) != v ==> AtGap(Applied(v, op))
  {
    hide Acked, AtGap, AckedAll;
    match op
    case Ack(o) => AckAtGap(v, o);
    case AckBatch(os) => AckBatchReachesGap(v, os);
  }

  /** In every run that leaves no offset out the floor is as high as it can be. */
  lemma {:induction false} FloorAtFirstGap(ops: seq<Op>)
    requires AllInTurn(View(NEW_GROUP, map[]), ops)
    ensures AtGap(Replayed(View(NEW_GROUP, map[]), ops))
  {
    if ops != [] {
      var n := |ops| - 1;
      FloorAtFirstGap(ops[..n]);
      var w := Replayed(View(NEW_GROUP, map[]), ops[..n]);
      match ops[n]
      case AckBatch(os) => AckBatchAtGap(w, os);
      case ClaimBatch(os, c, ts) => ClaimBatchGroup(w, os, c, ts);
      case _ =>
    }
  }

  // ---------------------------------------------------------------------------
  // Who owns what, replayed

  /** The consumer an offset is pending for. */
  function Owner(v: View, o: nat): Option<Consumer> {
    if o in v.pending then Some(v.pending[o].consumer) else None
  }

  function ClaimOwner(os: seq<nat>, c: Consumer, o: nat, x: Option<Consumer>): Option<Consumer> {
    if o in os && x.Some? then Some(c) else x
  }

  /** What an operation does to the owner of one offset, read off the operation alone. */
  function OwnerAfter(op: Op, o: nat, x: Option<Consumer>): Option<Consumer> {
    match op
    case Deliver(p, c, _) => if p == o then Some(c) else x
    case RestorePending(p, c, _, _) => if p == o then Some(c) else x
    case Ack(p) => if p == o then None else x
    case AckBatch(os) => if o in os then None else x
    case Claim(p, c, _) => ClaimOwner([p], c, o, x)
    case ClaimBatch(os, c, _) => ClaimOwner(os, c, o, x)
    case _ => x
  }

  function OwnerAfterAll(ops: seq<Op>, o: nat, x: Option<Consumer>): Option<Consumer> {
    if ops == [] then x else OwnerAfter(ops[|ops| - 1], o, OwnerAfterAll(ops[..|ops| - 1], o, x))
  }

  lemma {:induction false} AckBatchOwner(v: View, os: seq<nat>, o: nat)
    ensures Owner(AckedAll(v, os), o) == if o in os then None else Owner(v, o)
  {
    if os != [] {
      var n := |os| - 1;
      AckBatchOwner(v, os[..n], o);
      assert os == os[..n] + [os[n]];
    }
  }

  lemma {:induction false} ClaimBatchOwner(v: View, os: seq<nat>, c: Consumer, ts: int, o: nat)
    ensures Owner(ClaimedAll(v, os, c, ts), o) == ClaimOwner(os, c, o, Owner(v, o))
  {
    if os != [] {
      var n := |os| - 1;
      ClaimBatchOwner(v, os[..n], c, ts, o);
      assert os == os[..n] + [os[n]];
    }
  }

  lemma {:induction false} OwnerReplayed(v: View, ops: seq<Op>, o: nat)
    ensures Owner(Replayed(v, ops), o) == OwnerAfterAll(ops, o, Owner(v, o))
  {
    if ops != [] {
      var n := |ops| - 1;
      OwnerReplayed(v, ops[..n], o);
      var w := Replayed(v, ops[..n]);
      match ops[n]
      case AckBatch(os) => AckBatchOwner(w, os, o);
      case ClaimBatch(os, c, ts) => ClaimBatchOwner(w, os, c, ts, o);
      case _ =>
    }
  }

  // ---------------------------------------------------------------------------
  // Attempts and times, replayed

  /** What is kept of one offset. */
  function EntryOf(v: View, o: nat): Option<Pending> {
    if o in v.pending then Some(v.pending[o]) else None
  }

  function Occurs(o: nat, os: seq<nat>): nat {
    if os == [] then 0 else Occurs(o, os[..|os| - 1]) + if os[|os| - 1] == o then 1 else 0
  }

  /** How many attempts at this offset an operation counts. */
  function Tries(op: Op, o: nat): nat {
    match op
    case Nack(p, _) => if p == o then 1 else 0
    case Claim(p, _, _) => if p == o then 1 else 0
    case ClaimBatch(os, _, _) => Occurs(o, os)
    case _ => 0
  }

  /** The operation hands the offset out anew, or settles it. */
  predicate Resets(op: Op, o: nat) {
    match op
    case Deliver(p, _, _) => p == o
    case RestorePending(p, _, _, _) => p == o
    case Ack(p) => p == o
    case AckBatch(os) => o in os
    case _ => false
  }

  /** The operation is an attempt at this offset, or gives it back. */
  predicate Touches(op: Op, o: nat) {
    match op
    case Nack(p, _) => p == o
    case Release(p, _) => p == o
    case Claim(p, _, _) => p == o
    case ClaimBatch(os, _, _) => o in os
    case _ => false
  }

  /** A 16-bit counter after this many more. */
  function Counting(n: nat, more: nat): nat {
    if more == 0 then n else (n + more) % TWO16
  }

  /** What an operation does to the entry of one offset, read off the operation alone. */
  function EntryAfter(op: Op, o: nat, x: Option<Pending>): Option<Pending> {
    if Resets(op, o) then
      match op
      case Deliver(_, c, ts) => Some(Pending(o, c, ts, 1, ts))
      case RestorePending(_, c, ts, n) => Some(Pending(o, c, ts, if n == 0 then 1 else n, ts))
      case _ => None
    else if x.None? || !Touches(op, o) then x
    else
      Some(x.value.(count := Counting(x.value.count, Tries(op, o)), lastAttempt := op.ts,
                    consumer := if op.Claim? || op.ClaimBatch? then op.consumer else x.value.consumer))
  }

  function EntryAfterAll(ops: seq<Op>, o: nat, x: Option<Pending>): Option<Pending> {
    if ops == [] then x else EntryAfter(ops[|ops| - 1], o, EntryAfterAll(ops[..|ops| - 1], o, x))
  }

  lemma {:induction false} AckBatchEntry(v: View, os: seq<nat>, o: nat)
    ensures EntryOf(AckedAll(v, os), o) == if o in os then None else EntryOf(v, o)
  {
    if os != [] {
      var n := |os| - 1;
      AckBatchEntry(v, os[..n], o);
      assert os == os[..n] + [os[n]];
    }
  }

  lemma {:induction false} ClaimBatchEntry(v: View, os: seq<nat>, c: Consumer, ts: int, o: nat)
    ensures EntryOf(ClaimedAll(v, os, c, ts), o) == EntryAfter(ClaimBatch(os, c, ts), o, EntryOf(v, o))
    ensures o in os <==> 0 < Occurs(o, os)
  {
    if os != [] {
      var n := |os| - 1;
      ClaimBatchEntry(v, os[..n], c, ts, o);
      assert os == os[..n] + [os[n]];
    }
  }

  /** What is kept of one offset after a log depends on the log and what was kept before alone. */
  lemma {:induction false} EntryReplayed(v: View, ops: seq<Op>, o: nat)
    ensures EntryOf(Replayed(v, ops), o) == EntryAfterAll(ops, o, EntryOf(v, o))
  {
    if ops != [] {
      var n := |ops| - 1;
      EntryReplayed(v, ops[..n], o);
      var w := Replayed(v, ops[..n]);
      match ops[n]
      case AckBatch(os) => AckBatchEntry(w, os, o);
      case ClaimBatch(os, c, ts) => ClaimBatchEntry(w, os, c, ts, o);
      case _ =>
    }
  }

  function AllTries(ops: seq<Op>, o: nat): nat {
    if ops == [] then 0 else AllTries(ops[..|ops| - 1], o) + Tries(ops[|ops| - 1], o)
  }

  /** The time of the last operation on this offset. */
  function LastTouched(ops: seq<Op>, o: nat, before: int): int {
    if ops == [] then before
    else if Touches(ops[|ops| - 1], o) then ops[|ops| - 1].ts
    else LastTouched(ops[..|ops| - 1], o, before)
  }

  function LastOwner(ops: seq<Op>, o: nat, before: Consumer): Consumer {
    if ops == [] then before
    else
      var op := ops[|ops| - 1];
      if Touches(op, o) && (op.Claim? || op.ClaimBatch?) then op.consumer else LastOwner(ops[..|ops| - 1], o, before)
  }

  lemma CountOn(n: nat, a: nat, b: nat)
    ensures Counting(Counting(n, a), b) == Counting(n, a + b)
  {
  }

  /**
   While an offset is neither handed out anew nor settled, its attempts are counted one
   by one in 16 bits, its delivery time stays, and its last attempt is the last
   operation on it.
   */
  lemma {:induction false} AttemptsCounted(p: Pending, ops: seq<Op>, o: nat)
    requires forall op <- ops :: !Resets(op, o)
    ensures EntryAfterAll(ops, o, Some(p)) ==
      Some(p.(count := Counting(p.count, AllTries(ops, o)), lastAttempt := LastTouched(ops, o, p.lastAttempt),
              consumer := LastOwner(ops, o, p.consumer)))
  {
    if ops != [] {
      var n := |ops| - 1;
      AttemptsCounted(p, ops[..n], o);
      CountOn(p.count, AllTries(ops[..n], o), Tries(ops[n], o));
      assert ops[n] in ops;
      TriesTouch(ops[n], o);
    }
  }

  lemma TriesTouch(op: Op, o: nat)
    ensures 0 < Tries(op, o) ==> Touches(op, o)
  {
    if op.ClaimBatch? {
      ClaimBatchEntry(View(NEW_GROUP, map[]), op.offsets, op.consumer, op.ts, o);
    }
  }

  /** So a delivery and n attempts behind it count n + 1, for whoever claimed it last. */
  lemma DeliveryCounts(v: View, o: nat, c: Consumer, ts: int, ops: seq<Op>)
    requires forall op <- ops :: !Resets(op, o)
    ensures var w := Replayed(v, [Deliver(o, c, ts)] + ops);
      && o in w.pending && w.pending[o].count == Counting(1, AllTries(ops, o))
      && w.pending[o].deliveredAt == ts && w.pending[o].lastAttempt == LastTouched(ops, o, ts)
      && w.pending[o].consumer == LastOwner(ops, o, c)
  {
    var all := [Deliver(o, c, ts)] + ops;
    EntryReplayed(v, all, o);
    EntryCat([Deliver(o, c, ts)], ops, o, EntryOf(v, o));
    assert [Deliver(o, c, ts)][..0] == [];
    AttemptsCounted(Pending(o, c, ts, 1, ts), ops, o);
  }

  lemma {:induction false} EntryCat(a: seq<Op>, b: seq<Op>, o: nat, x: Option<Pending>)
    ensures EntryAfterAll(a + b, o, x) == EntryAfterAll(b, o, EntryAfterAll(a, o, x))
  {
    if b == [] {
      assert a + b == a;
    } else {
      var n := |b| - 1;
      EntryCat(a, b[..n], o, x);
      assert (a + b)[..|a + b| - 1] == a + b[..n];
    }
  }

  function DeliverCount(ops: seq<Op>): nat {
    if ops == [] then 0 else DeliverCount(ops[..|ops| - 1]) + if ops[|ops| - 1].Deliver? then 1 else 0
  }

  /** The total grows by the number of deliveries. */
  lemma {:induction false} DeliveredCounted(v: View, ops: seq<Op>)
    ensures Replayed(v, ops).group.delivered == v.group.delivered + DeliverCount(ops)
  {
    if ops != [] {
      var n := |ops| - 1;
      DeliveredCounted(v, ops[..n]);
      var w := Replayed(v, ops[..n]);
      match ops[n]
      case AckBatch(os) => AckBatchTotal(w, os);
      case ClaimBatch(os, c, ts) => ClaimBatchGroup(w, os, c, ts);
      case _ =>
    }
  }

  lemma {:induction false} AckBatchTotal(v: View, os: seq<nat>)
    ensures AckedAll(v, os).group.delivered == v.group.delivered
  {
    if os != [] {
      AckBatchTotal(v, os[..|os| - 1]);
    }
  }

  /**
   Seen from one offset, a log either fixes the owner whatever it was before, or
   only ever hands it on among those who already have it.
   */
  ghost predicate FixesOrHandsOn(ops: seq<Op>, o: nat) {
    || (forall x, y :: OwnerAfterAll(ops, o, x) == OwnerAfterAll(ops, o, y))
    || (OwnerAfterAll(ops, o, None) == None
        && ((forall x :: OwnerAfterAll(ops, o, x) == x)
            || (forall x: Option<Consumer>, y: Option<Consumer> | x.Some? && y.Some? ::
                  OwnerAfterAll(ops, o, x).Some? && OwnerAfterAll(ops, o, x) == OwnerAfterAll(ops, o, y))))
  }

  lemma {:induction false} LogFixesOrHandsOn(ops: seq<Op>, o: nat)
    ensures FixesOrHandsOn(ops, o)
  {
    if ops != [] {
      LogFixesOrHandsOn(ops[..|ops| - 1], o);
    }
  }

  /** Replaying a log over a state that already contains it changes no owner. */
  lemma OwnerReplayIdempotent(ops: seq<Op>, o: nat, x: Option<Consumer>)
    ensures OwnerAfterAll(ops, o, OwnerAfterAll(ops, o, x)) == OwnerAfterAll(ops, o, x)
  {
    LogFixesOrHandsOn(ops, o);
  }

  /** The cursor on its own: deliveries raise it, SetCursor fixes it. */
  function CursorAfter(op: Op, k: nat): nat {
    match op
    case Deliver(o, _, _) => if o >= k then o + 1 else k
    case SetCursor(c) => c
    case _ => k
  }

  function CursorAfterAll(ops: seq<Op>, k: nat): nat {
    if ops == [] then k else CursorAfter(ops[|ops| - 1], CursorAfterAll(ops[..|ops| - 1], k))
  }

  lemma {:induction false} CursorReplayed(v: View, ops: seq<Op>)
    ensures Replayed(v, ops).group.cursor == CursorAfterAll(ops, v.group.cursor)
  {
    if ops != [] {
      var n := |ops| - 1;
      CursorReplayed(v, ops[..n]);
      var w := Replayed(v, ops[..n]);
      match ops[n]
      case AckBatch(os) => AckBatchFloor(w, os);
      case ClaimBatch(os, c, ts) => ClaimBatchGroup(w, os, c, ts);
      case _ =>
    }
  }

  /** Either a bound below which every start ends alike and above which it stays, or one end for all. */
  lemma {:induction false} CursorShape(ops: seq<Op>) returns (fixed: bool, m: nat)
    ensures forall k: nat :: CursorAfterAll(ops, k) == if fixed || k < m then m else k
  {
    if ops == [] {
      fixed, m := false, 0;
    } else {
      fixed, m := CursorShape(ops[..|ops| - 1]);
      match ops[|ops| - 1]
      case Deliver(o, _, _) => m := if o >= m then o + 1 else m;
      case SetCursor(c) => fixed, m := true, c;
      case _ =>
    }
  }

  lemma CursorReplayIdempotent(ops: seq<Op>, k: nat)
    ensures CursorAfterAll(ops, CursorAfterAll(ops, k)) == CursorAfterAll(ops, k)
  {
    var fixed, m := CursorShape(ops);
  }

  // ---------------------------------------------------------------------------
  // Shards

  /** One shard: its entries, and for each consumer the offsets it has there. */
  datatype Shard = Shard(entries: map<nat, Pending>, byConsumer: map<Consumer, set<nat>>)

  const NEW_SHARD := Shard(map[], map[])

  function IndexAdd(idx: map<Consumer, set<nat>>, c: Consumer, o: nat): map<Consumer, set<nat>> {
    idx[c := (if c in idx then idx[c] else {}) + {o}]
  }

  function IndexDrop(idx: map<Consumer, set<nat>>, c: Consumer, o: nat): map<Consumer, set<nat>> {
    if c !in idx then idx
    else if idx[c] - {o} == {} then idx - {c}
    else idx[c := idx[c] - {o}]
  }

  ghost predicate Listed(s: Shard, c: Consumer, o: nat) {
    c in s.byConsumer && o in s.byConsumer[c]
  }

  /** The index lists exactly the entries, and no consumer without any. */
  ghost predicate IndexAgrees(s: Shard) {
    && (forall c, o :: Listed(s, c, o) <==> o in s.entries && s.entries[o].consumer == c)
    && (forall c <- s.byConsumer :: s.byConsumer[c] != {})
  }

  function ShardPut(s: Shard, p: Pending): Shard {
    Shard(s.entries[p.offset := p], IndexAdd(s.byConsumer, p.consumer, p.offset))
  }

  function ShardDrop(s: Shard, o: nat): Shard
    requires o in s.entries
  {
    Shard(s.entries - {o}, IndexDrop(s.byConsumer, s.entries[o].consumer, o))
  }

  function ShardClaim(s: Shard, o: nat, p: Pending): Shard
    requires o in s.entries
  {
    Shard(s.entries[o := p], IndexAdd(IndexDrop(s.byConsumer, s.entries[o].consumer, o), p.consumer, o))
  }

  /** An entry changes in place, its consumer does not. */
  function ShardAmend(s: Shard, p: Pending): Shard {
    s.(entries := s.entries[p.offset := p])
  }

  lemma AmendIndex(s: Shard, p: Pending)
    requires IndexAgrees(s) && p.offset in s.entries && s.entries[p.offset].consumer == p.consumer
    ensures IndexAgrees(ShardAmend(s, p))
  {
    assert forall c, o :: Listed(ShardAmend(s, p), c, o) <==> Listed(s, c, o);
  }

  /** A delivery or a restore leaves the index right exactly when the offset was not another consumer's. */
  lemma PutIndex(s: Shard, p: Pending)
    requires IndexAgrees(s)
    ensures IndexAgrees(ShardPut(s, p)) <==> !(p.offset in s.entries && s.entries[p.offset].consumer != p.consumer)
  {
    var t := ShardPut(s, p);
    assert forall c, o :: Listed(t, c, o) <==> Listed(s, c, o) || (c == p.consumer && o == p.offset);
    assert p.offset in t.byConsumer[p.consumer];
    if p.offset in s.entries {
      assert Listed(s, s.entries[p.offset].consumer, p.offset);
      assert Listed(t, s.entries[p.offset].consumer, p.offset);
    }
  }

  lemma DropIndex(s: Shard, o: nat)
    requires IndexAgrees(s) && o in s.entries
    ensures IndexAgrees(ShardDrop(s, o))
  {
    var t, c := ShardDrop(s, o), s.entries[o].consumer;
    assert Listed(s, c, o);
    forall d, x ensures Listed(t, d, x) <==> Listed(s, d, x) && !(d == c && x == o) {
      assert x in s.byConsumer[c] - {o} <==> x in s.byConsumer[c] && x != o;
    }
  }

  lemma ClaimIndex(s: Shard, o: nat, p: Pending)
    requires IndexAgrees(s) && o in s.entries && p.offset == o
    ensures IndexAgrees(ShardClaim(s, o, p))
  {
    hide IndexAgrees;
    DropIndex(s, o);
    PutIndex(ShardDrop(s, o), p);
    assert ShardClaim(s, o, p) == ShardPut(ShardDrop(s, o), p);
  }

  /** An offset lives in the shard its remainder names, and is there exactly if it is pending. */
  ghost predicate Placed(shards: seq<Shard>, pending: map<nat, Pending>, o: nat)
    requires 0 < |shards|
  {
    var entries := shards[o % |shards|].entries;
    if o in pending then o in entries && entries[o] == pending[o] && pending[o].offset == o else o !in entries
  }

  ghost predicate OwnOffsets(shards: seq<Shard>, k: nat)
    requires k < |shards|
  {
    forall o <- shards[k].entries :: o % |shards| == k
  }

  ghost predicate Sharded(shards: seq<Shard>, pending: map<nat, Pending>) {
    && 0 < |shards|
    && (forall o :: Placed(shards, pending, o))
    && (forall k: nat | k < |shards| :: OwnOffsets(shards, k))
  }

  lemma PutSharded(shards: seq<Shard>, pending: map<nat, Pending>, s: Shard, p: Pending)
    requires Sharded(shards, pending) && s.entries == shards[p.offset % |shards|].entries[p.offset := p]
    ensures Sharded(shards[p.offset % |shards| := s], pending[p.offset := p])
  {
    var k := p.offset % |shards|;
    var shards', pending' := shards[k := s], pending[p.offset := p];
    forall o ensures Placed(shards', pending', o) {
      assert Placed(shards, pending, o);
    }
    forall j: nat | j < |shards| ensures OwnOffsets(shards', j) {
      assert OwnOffsets(shards, j);
    }
  }

  lemma DropSharded(shards: seq<Shard>, pending: map<nat, Pending>, s: Shard, o: nat)
    requires Sharded(shards, pending) && s.entries == shards[o % |shards|].entries - {o}
    ensures Sharded(shards[o % |shards| := s], pending - {o})
  {
    var k := o % |shards|;
    var shards', pending' := shards[k := s], pending - {o};
    forall x ensures Placed(shards', pending', x) {
      assert Placed(shards, pending, x);
    }
    forall j: nat | j < |shards| ensures OwnOffsets(shards', j) {
      assert OwnOffsets(shards, j);
    }
  }

  // ---------------------------------------------------------------------------
  // What is on disk

  /** A line of the operation log; a crash can leave the beginning of one. */
  datatype LogItem = Line(op: Op) | Torn

  /** The group's snapshot, the shards' snapshots and the log; absent files are None. */
  datatype Disk = Disk(group: Option<Group>, shards: seq<Option<map<nat, Pending>>>, log: seq<LogItem>)

  /** Replay stops at the first line it cannot parse. */
  function Readable(items: seq<LogItem>): seq<Op> {
    if items == [] || items[0].Torn? then [] else [items[0].op] + Readable(items[1..])
  }

  function Entries(s: Option<map<nat, Pending>>): map<nat, Pending> {
    if s.Some? then s.value else map[]
  }

  function Merged(shards: seq<Option<map<nat, Pending>>>): map<nat, Pending> {
    if shards == [] then map[] else Merged(shards[..|shards| - 1]) + Entries(shards[|shards| - 1])
  }

  function SnapshotView(d: Disk): View {
    View(if d.group.Some? then d.group.value else NEW_GROUP, Merged(d.shards))
  }

  /** What opening these files gives. */
  function Loaded(d: Disk): View {
    Replayed(SnapshotView(d), Readable(d.log))
  }

  lemma {:induction false} ReadableAppend(items: seq<LogItem>, op: Op)
    ensures Readable(items + [Line(op)]) == if Torn in items then Readable(items) else Readable(items) + [op]
  {
    if items == [] {
      assert [Line(op)][1..] == [];
    } else if !items[0].Torn? {
      assert (items + [Line(op)])[1..] == items[1..] + [Line(op)];
      ReadableAppend(items[1..], op);
      assert items == [items[0]] + items[1..];
    }
  }

  /**
   An operation written behind a torn line is lost at the next start; written
   anywhere else it is the next one replayed.
   */
  lemma AppendedIsReplayed(d: Disk, op: Op)
    ensures Loaded(d.(log := d.log + [Line(op)])) == if Torn in d.log then Loaded(d) else Applied(Loaded(d), op)
  {
    ReadableAppend(d.log, op);
    var ops := Readable(d.log);
    assert (ops + [op])[..|ops|] == ops;
  }

  lemma {:induction false} ReadableFront(items: seq<LogItem>, n: nat)
    requires n <= |items|
    ensures Readable(items[..n]) <= Readable(items)
    ensures Torn !in items ==> |Readable(items[..n])| == n
  {
    if n > 0 && !items[0].Torn? {
      assert items[..n][1..] == items[1..][..n - 1];
      ReadableFront(items[1..], n - 1);
    }
  }

  lemma {:induction false} ReadableTorn(items: seq<LogItem>)
    ensures Readable(items + [Torn]) == Readable(items)
  {
    if items != [] && !items[0].Torn? {
      assert (items + [Torn])[1..] == items[1..] + [Torn];
      ReadableTorn(items[1..]);
    }
  }

  /** A log that has lost its end, perhaps in the middle of a line. */
  function CutLog(items: seq<LogItem>, n: nat, torn: bool): seq<LogItem>
    requires n <= |items|
  {
    items[..n] + if torn then [Torn] else []
  }

  lemma CutReads(items: seq<LogItem>, n: nat, torn: bool)
    requires Torn !in items && n <= |items|
    ensures |Readable(items)| == |items| && Readable(CutLog(items, n, torn)) == Readable(items)[..n]
  {
    ReadableFront(items, n);
    ReadableFront(items, |items|);
    assert items[..|items|] == items;
    ReadableTorn(items[..n]);
    assert items[..n] + [] == items[..n];
  }

  /** Losing any end of the log, even in the middle of a line, gives the state after the operations before it. */
  lemma LostSuffix(d: Disk, n: nat, torn: bool)
    requires Torn !in d.log && n <= |d.log|
    ensures |Readable(d.log)| == |d.log|
    ensures Loaded(d.(log := CutLog(d.log, n, torn))) == Replayed(SnapshotView(d), Readable(d.log)[..n])
  {
    CutReads(d.log, n, torn);
  }

  /** Each shard's snapshot holds only offsets of that shard. */
  ghost predicate ShardFiles(shards: seq<Option<map<nat, Pending>>>, n: nat) {
    0 < n && forall k: nat | k < |shards| :: OwnFile(shards[k], k, n)
  }

  ghost predicate OwnFile(s: Option<map<nat, Pending>>, k: nat, n: nat)
    requires 0 < n
  {
    forall o <- Entries(s) :: o % n == k && Entries(s)[o].offset == o
  }

  /** Looking an offset up in the merged snapshots is looking it up in its own shard's. */
  lemma {:induction false} MergedLookup(shards: seq<Option<map<nat, Pending>>>, n: nat, o: nat)
    requires ShardFiles(shards, n) && |shards| <= n
    ensures o in Merged(shards) <==> o % n < |shards| && o in Entries(shards[o % n])
    ensures o in Merged(shards) ==> Merged(shards)[o] == Entries(shards[o % n])[o] && Merged(shards)[o].offset == o
  {
    if shards != [] {
      var m := |shards| - 1;
      assert OwnFile(shards[m], m, n);
      forall k: nat | k < m ensures OwnFile(shards[..m][k], k, n) {
        assert OwnFile(shards[k], k, n);
      }
      MergedLookup(shards[..m], n, o);
    }
  }

  lemma MergedSharded(files: seq<Option<map<nat, Pending>>>, shards: seq<Shard>)
    requires 0 < |files| == |shards| && ShardFiles(files, |files|)
    requires forall k: nat | k < |files| :: shards[k].entries == Entries(files[k])
    ensures Sharded(shards, Merged(files))
  {
    var n, pending := |files|, Merged(files);
    forall o: nat ensures Placed(shards, pending, o) {
      MergedLookup(files, n, o);
      assert shards[o % n].entries == Entries(files[o % n]);
    }
    forall k: nat | k < n ensures OwnOffsets(shards, k) {
      assert OwnFile(files[k], k, n) && shards[k].entries == Entries(files[k]);
    }
  }

  // ---------------------------------------------------------------------------
  // A crash between the snapshots and the truncation of the log

  /** The files after a compaction has replaced the group's and some of the shards', but not yet emptied the log. */
  function HalfCompacted(d: Disk, live: View, shards: seq<Shard>, group: bool, done: set<nat>): Disk
    requires |d.shards| == |shards|
  {
    d.(group := if group then Some(live.group) else d.group,
       shards := seq(|shards|, i requires 0 <= i < |shards| =>
                   if i in done then Some(shards[i].entries) else d.shards[i]))
  }

  /** The first k shards. */
  function FirstShards(k: nat): (r: set<nat>)
    ensures forall i: nat :: i in r <==> i < k
  {
    if k == 0 then {} else FirstShards(k - 1) + {k - 1}
  }

  lemma ShardedFile(shards: seq<Shard>, pending: map<nat, Pending>, k: nat)
    requires Sharded(shards, pending) && k < |shards|
    ensures OwnFile(Some(shards[k].entries), k, |shards|)
  {
    assert OwnOffsets(shards, k);
    forall o <- shards[k].entries ensures shards[k].entries[o].offset == o {
      assert Placed(shards, pending, o);
    }
  }

  lemma HalfCompactedFiles(d: Disk, live: View, shards: seq<Shard>, group: bool, done: set<nat>)
    requires |d.shards| == |shards| && ShardFiles(d.shards, |shards|) && Sharded(shards, live.pending)
    ensures ShardFiles(HalfCompacted(d, live, shards, group, done).shards, |shards|)
  {
    var files := HalfCompacted(d, live, shards, group, done).shards;
    forall i: nat | i < |files| ensures OwnFile(files[i], i, |shards|) {
      assert OwnFile(d.shards[i], i, |shards|);
      ShardedFile(shards, live.pending, i);
    }
  }

  /**
   Wherever a compaction is cut off, with any of the files already replaced and the
   log still whole, the next start finds every pending offset with its owner, no
   other, and the cursor where it was. It is enough that the files led back to the
   owners and the cursor before, so compactions may be cut off any number of times.
   */
  lemma CrashInCompaction(d: Disk, live: View, shards: seq<Shard>, group: bool, done: set<nat>, o: nat)
    requires |d.shards| == |shards| && ShardFiles(d.shards, |shards|) && Sharded(shards, live.pending)
    requires Owner(Loaded(d), o) == Owner(live, o) && Loaded(d).group.cursor == live.group.cursor
    ensures Owner(Loaded(HalfCompacted(d, live, shards, group, done)), o) == Owner(live, o)
    ensures Loaded(HalfCompacted(d, live, shards, group, done)).group.cursor == live.group.cursor
  {
    hide Replayed, Readable, OwnerAfterAll, CursorAfterAll;
    var half, ops, n := HalfCompacted(d, live, shards, group, done), Readable(d.log), |shards|;
    HalfCompactedFiles(d, live, shards, group, done);
    MergedLookup(d.shards, n, o);
    MergedLookup(half.shards, n, o);
    assert Placed(shards, live.pending, o);
    OwnerReplayed(SnapshotView(d), ops, o);
    OwnerReplayed(SnapshotView(half), ops, o);
    OwnerReplayIdempotent(ops, o, Owner(SnapshotView(d), o));
    CursorReplayed(SnapshotView(d), ops);
    CursorReplayed(SnapshotView(half), ops);
    CursorReplayIdempotent(ops, SnapshotView(d).group.cursor);
  }

  /** Every offset is pending for the same consumer, and the cursors agree. */
  ghost predicate SameOwners(v: View, w: View) {
    v.group.cursor == w.group.cursor && forall o :: Owner(v, o) == Owner(w, o)
  }

  lemma OwnersSame(v: View)
    ensures SameOwners(v, v)
  {
  }

  /** The same operations keep the owners the same. */
  lemma SameOwnersReplayed(v: View, w: View, ops: seq<Op>)
    requires SameOwners(v, w)
    ensures SameOwners(Replayed(v, ops), Replayed(w, ops))
  {
    hide Replayed, OwnerAfterAll, CursorAfterAll, Owner;
    CursorReplayed(v, ops);
    CursorReplayed(w, ops);
    forall o ensures Owner(Replayed(v, ops), o) == Owner(Replayed(w, ops), o) {
      OwnerReplayed(v, ops, o);
      OwnerReplayed(w, ops, o);
    }
  }

  lemma OwnersFollow(d: Disk, live: View, ops: seq<Op>)
    requires Torn !in d.log && SameOwners(Loaded(d), live)
    ensures Torn !in d.log + Lines(ops)
    ensures SameOwners(Loaded(d.(log := d.log + Lines(ops))), Replayed(live, ops))
  {
    hide Replayed, SameOwners, Readable, Merged;
    ReadableLines(d.log, ops);
    PerformNext(SnapshotView(d), Readable(d.log), ops);
    SameOwnersReplayed(Loaded(d), live, ops);
  }

  lemma HalfOwners(d: Disk, live: View, shards: seq<Shard>, done: set<nat>)
    requires |d.shards| == |shards| && ShardFiles(d.shards, |shards|) && Sharded(shards, live.pending)
    requires SameOwners(Loaded(d), live)
    ensures SameOwners(Loaded(HalfCompacted(d, live, shards, true, done)), live)
  {
    hide Loaded, ShardFiles, Sharded, Owner, HalfCompacted;
    forall o ensures Owner(Loaded(HalfCompacted(d, live, shards, true, done)), o) == Owner(live, o) {
      CrashInCompaction(d, live, shards, true, done, o);
    }
    CrashInCompaction(d, live, shards, true, done, 0);
  }

  // ---------------------------------------------------------------------------
  // The state as it is kept

  /** A delivery or restore that does not take an offset from another consumer. */
  predicate Polite(v: View, op: Op) {
    (op.Deliver? || op.RestorePending?) && op.offset in v.pending ==> v.pending[op.offset].consumer == op.consumer
  }

  ghost predicate AllPolite(v: View, ops: seq<Op>)
    decreases |ops|
  {
    ops == [] || (AllPolite(v, ops[..|ops| - 1]) && Polite(Replayed(v, ops[..|ops| - 1]), ops[|ops| - 1]))
  }

  /** The loop over a loaded shard that lists each entry under its consumer. */
  method RebuildIndex(entries: map<nat, Pending>) returns (idx: map<Consumer, set<nat>>)
    ensures IndexAgrees(Shard(entries, idx))
  {
    idx := map[];
    var left := entries.Keys;
    ghost var done: map<nat, Pending> := map[];
    while left != {}
      invariant left <= entries.Keys && done.Keys == entries.Keys - left
      invariant forall o <- done :: done[o] == entries[o]
      invariant IndexAgrees(Shard(done, idx))
      decreases left
    {
      var o :| o in left;
      AddIndex(Shard(done, idx), o, entries[o]);
      idx := IndexAdd(idx, entries[o].consumer, o);
      done := done[o := entries[o]];
      left := left - {o};
    }
    assert done == entries;
  }

  lemma AddIndex(s: Shard, o: nat, p: Pending)
    requires IndexAgrees(s) && o !in s.entries
    ensures IndexAgrees(Shard(s.entries[o := p], IndexAdd(s.byConsumer, p.consumer, o)))
  {
    var t := Shard(s.entries[o := p], IndexAdd(s.byConsumer, p.consumer, o));
    assert forall c, x :: Listed(t, c, x) <==> Listed(s, c, x) || (c == p.consumer && x == o);
    assert o in t.byConsumer[p.consumer];
  }

  // ---------------------------------------------------------------------------
  // Whole runs, and the restart behind them

  /** What one call asks for; a compaction is one that runs to its end. */
  datatype Action = Perform(op: Op) | DeliverAll(offsets: seq<nat>, consumer: Consumer, ts: int) | Compaction

  function Deliveries(os: seq<nat>, c: Consumer, ts: int): (ops: seq<Op>)
    ensures |ops| == |os|
  {
    seq(|os|, i requires 0 <= i < |os| => Deliver(os[i], c, ts))
  }

  function OpsOfOne(a: Action): seq<Op> {
    match a
    case Perform(op) => [op]
    case DeliverAll(os, c, ts) => Deliveries(os, c, ts)
    case Compaction => []
  }

  /** The operations of a run, in order. */
  function OpsOf(actions: seq<Action>): seq<Op> {
    if actions == [] then [] else OpsOf(actions[..|actions| - 1]) + OpsOfOne(actions[|actions| - 1])
  }

  /** How many of them came before the last compaction. */
  function Compacted(actions: seq<Action>): (k: nat)
    ensures k <= |OpsOf(actions)|
  {
    if actions == [] then 0
    else if actions[|actions| - 1].Compaction? then |OpsOf(actions[..|actions| - 1])|
    else Compacted(actions[..|actions| - 1])
  }

  function Lines(ops: seq<Op>): (items: seq<LogItem>)
    ensures |items| == |ops|
  {
    seq(|ops|, i requires 0 <= i < |ops| => Line(ops[i]))
  }

  /** What a start reads: the state in the snapshots, and the log. */
  datatype Files = Files(base: View, log: seq<LogItem>)

  function FilesOf(d: Disk): Files {
    Files(SnapshotView(d), d.log)
  }

  function Reopened(f: Files): View {
    Replayed(f.base, Readable(f.log))
  }

  /** The files after a run that began with these files and this state in memory. */
  function FilesAfter(f: Files, live: View, actions: seq<Action>): Files {
    if actions == [] then f
    else
      var n := |actions| - 1;
      var g := FilesAfter(f, live, actions[..n]);
      if actions[n].Compaction? then Files(Replayed(live, OpsOf(actions[..n])), [])
      else g.(log := g.log + Lines(OpsOfOne(actions[n])))
  }

  lemma NoOps(v: View)
    ensures Replayed(v, []) == v
  {
  }

  lemma OneOp(v: View, op: Op)
    ensures Replayed(v, [op]) == Applied(v, op) && (AllPolite(v, [op]) <==> Polite(v, op))
    ensures Lines([op]) == [Line(op)]
  {
    assert [op][..0] == [];
  }

  /** Replaying two stretches is replaying one behind the other, and so is being polite. */
  lemma {:induction false} PerformNext(v: View, before: seq<Op>, more: seq<Op>)
    ensures Replayed(v, before + more) == Replayed(Replayed(v, before), more)
    ensures AllPolite(v, before + more) <==> AllPolite(v, before) && AllPolite(Replayed(v, before), more)
  {
    if more == [] {
      assert before + more == before;
    } else {
      var n, ops := |more| - 1, before + more;
      PerformNext(v, before, more[..n]);
      assert ops[..|ops| - 1] == before + more[..n];
    }
  }

  lemma LinesMore(ops: seq<Op>, i: nat)
    requires i < |ops|
    ensures Lines(ops[..i + 1]) == Lines(ops[..i]) + [Line(ops[i])]
  {
  }

  lemma {:induction false} ReadableLines(items: seq<LogItem>, ops: seq<Op>)
    ensures Readable(items + Lines(ops)) == if Torn in items then Readable(items) else Readable(items) + ops
  {
    hide Readable;
    if ops == [] {
      assert items + Lines(ops) == items && Readable(items) + [] == Readable(items);
    } else {
      var n := |ops| - 1;
      var front := items + Lines(ops[..n]);
      ReadableLines(items, ops[..n]);
      assert items + Lines(ops) == front + [Line(ops[n])];
      ReadableAppend(front, ops[n]);
      assert Torn in front <==> Torn in items;
      assert (Readable(items) + ops[..n]) + [ops[n]] == Readable(items) + ops;
    }
  }

  lemma LinesFrom(before: seq<Op>, more: seq<Op>, k: nat)
    requires k <= |before|
    ensures (before + more)[..k] == before[..k] && Lines((before + more)[k..]) == Lines(before[k..]) + Lines(more)
  {
  }

  /** The snapshots are as old as the last compaction, and the log has exactly the operations since. */
  lemma {:induction false} RunFiles(f: Files, live: View, actions: seq<Action>)
    ensures var g, ops, k := FilesAfter(f, live, actions), OpsOf(actions), Compacted(actions);
      if Compaction in actions then g == Files(Replayed(live, ops[..k]), Lines(ops[k..]))
      else k == 0 && g == f.(log := f.log + Lines(ops))
  {
    hide Replayed, OpsOfOne, Lines;
    if actions == [] {
      assert f.log + Lines([]) == f.log;
    } else {
      var n := |actions| - 1;
      RunFiles(f, live, actions[..n]);
      assert actions == actions[..n] + [actions[n]];
      var before, more, k := OpsOf(actions[..n]), OpsOfOne(actions[n]), Compacted(actions[..n]);
      if actions[n].Compaction? {
        CompactionHasNone();
        assert before + [] == before && before[..|before|] == before;
        assert Lines(before[|before|..]) == [];
      } else {
        LinesFrom(before, more, k);
        assert before[0..] == before && (before + more)[0..] == before + more;
        assert f.log + (Lines(before) + Lines(more)) == f.log + Lines(before) + Lines(more);
      }
    }
  }

  lemma CompactionHasNone()
    ensures OpsOfOne(Compaction) == []
  {
  }

  /** All operations the files have ever been told, and how many of them the snapshots have after this run. */
  function Told(f: Files, actions: seq<Action>): seq<Op> {
    Readable(f.log) + OpsOf(actions)
  }

  function Kept(f: Files, actions: seq<Action>): (k: nat)
    ensures k <= |Told(f, actions)|
  {
    if Compaction in actions then |Readable(f.log)| + Compacted(actions) else 0
  }

  /** A run that begins behind a torn line and has no compaction is lost, every other one is in the files. */
  predicate Lost(f: Files, actions: seq<Action>) {
    Torn in f.log && Compaction !in actions
  }

  lemma FilesSplit(f: Files, live: View, actions: seq<Action>)
    requires Reopened(f) == live && !Lost(f, actions)
    ensures var g, ops, k := FilesAfter(f, live, actions), Told(f, actions), Kept(f, actions);
      g.base == Replayed(f.base, ops[..k]) && Torn !in g.log && Readable(g.log) == ops[k..] && |g.log| == |ops| - k
  {
    hide Replayed, FilesAfter, OpsOf, Compacted, Readable;
    RunFiles(f, live, actions);
    var past, run, c := Readable(f.log), OpsOf(actions), Compacted(actions);
    if Compaction in actions {
      LinesRead(run[c..]);
      SplitBehind(past, run, c);
      PerformNext(f.base, past, run[..c]);
    } else {
      ReadableLines(f.log, run);
      CutReads(f.log, |f.log|, false);
      NoOps(f.base);
      SplitBehind([], past + run, 0);
      assert [] + (past + run) == past + run;
    }
  }

  lemma LinesRead(ops: seq<Op>)
    ensures Readable(Lines(ops)) == ops && Torn !in Lines(ops)
  {
    ReadableLines([], ops);
    assert [] + Lines(ops) == Lines(ops) && [] + ops == ops;
  }

  lemma SplitBehind(past: seq<Op>, run: seq<Op>, c: nat)
    requires c <= |run|
    ensures (past + run)[..|past| + c] == past + run[..c] && (past + run)[|past| + c..] == run[c..]
  {
  }

  /**
   A run and then a restart that finds n whole lines of the log. What comes back is
   the state after a front of all the operations since the first snapshot; nothing
   before the last compaction is ever lost, and nothing at all if the log is whole.
   */
  lemma RestartAfterRun(f: Files, live: View, actions: seq<Action>, n: nat, torn: bool)
    requires Reopened(f) == live && !Lost(f, actions) && n <= |FilesAfter(f, live, actions).log|
    ensures var g, ops, k := FilesAfter(f, live, actions), Told(f, actions), Kept(f, actions);
      && |g.log| == |ops| - k
      && Reopened(g.(log := CutLog(g.log, n, torn))) == Replayed(f.base, ops[..k + n])
      && (n == |g.log| ==> Replayed(f.base, ops[..k + n]) == Replayed(live, OpsOf(actions)))
      && (AllPolite(f.base, ops) ==> AllPolite(g.base, Readable(CutLog(g.log, n, torn))))
  {
    hide Replayed, FilesAfter, OpsOf, Compacted, CutLog, AllPolite;
    FilesSplit(f, live, actions);
    var g, ops, k := FilesAfter(f, live, actions), Told(f, actions), Kept(f, actions);
    CutReads(g.log, n, torn);
    assert ops[k..][..n] == ops[k..k + n] && ops[..k] + ops[k..k + n] == ops[..k + n];
    PerformNext(f.base, ops[..k], ops[k..k + n]);
    assert ops == ops[..k + n] + ops[k + n..];
    PerformNext(f.base, ops[..k + n], ops[k + n..]);
    PerformNext(f.base, Readable(f.log), OpsOf(actions));
    assert n == |g.log| ==> ops[..k + n] == ops;
  }

  /** Behind a torn line a run without a compaction leaves nothing a restart can see. */
  lemma LostRun(f: Files, live: View, actions: seq<Action>)
    requires Lost(f, actions)
    ensures Reopened(FilesAfter(f, live, actions)) == Reopened(f)
  {
    RunFiles(f, live, actions);
    ReadableLines(f.log, OpsOf(actions));
  }

  /** A restart that loses the end of the log, perhaps within a line. */
  method Restart(was: ConsumerState, n: nat, torn: bool) returns (s: ConsumerState)
    requires was.Valid() && n <= |was.disk.log|
    ensures fresh(s) && s.Valid() && s.disk == was.disk.(log := CutLog(was.disk.log, n, torn))
    ensures s.view == Reopened(FilesOf(s.disk))
    ensures AllPolite(SnapshotView(s.disk), Readable(s.disk.log)) ==> s.Indexed()
  {
    hide ShardFiles, Replayed;
    s := new ConsumerState.Open(was.disk.(log := CutLog(was.disk.log, n, torn)));
  }

  /**
   A run on a group whose files lead back to it, and a restart behind it that loses
   any end of the log: the group is as it was after a front of the run, and that
   front reaches at least to the last compaction. With the log whole it is the state
   the run ended in.
   */
  method RunAndRestart(was: ConsumerState, actions: seq<Action>, n: nat, torn: bool) returns (s: ConsumerState)
    requires was.Valid() && was.InStep()
    requires n <= |FilesAfter(FilesOf(was.disk), was.view, actions).log|
    modifies was
    ensures fresh(s) && s.Valid() && (torn || s.InStep())
    ensures var f := old(FilesOf(was.disk));
      && Kept(f, actions) + |FilesAfter(f, old(was.view), actions).log| == |Told(f, actions)|
      && s.view == Replayed(f.base, Told(f, actions)[..Kept(f, actions) + n])
      && (n == |FilesAfter(f, old(was.view), actions).log| ==> s.view == Replayed(old(was.view), OpsOf(actions)))
      && (AllPolite(f.base, Told(f, actions)) ==> s.Indexed())
    ensures old(was.disk.log) == [] ==>
      && Compacted(actions) + n <= |OpsOf(actions)|
      && s.view == Replayed(old(was.view), OpsOf(actions)[..Compacted(actions) + n])
  {
    hide ShardFiles, Sharded, IndexAgrees, Replayed, OpsOf, FilesAfter, Compacted, AllPolite;
    ghost var f, live := FilesOf(was.disk), was.view;
    RestartAfterRun(f, live, actions, n, torn);
    RunFiles(f, live, actions);
    NoOps(f.base);
    assert f.log == [] ==> Told(f, actions) == OpsOf(actions);
    was.Run(actions);
    s := Restart(was, n, torn);
  }

  class ConsumerState {
    var group: Group
    var shards: seq<Shard>
    var disk: Disk
    ghost var view: View

    ghost predicate Valid()
      reads this
    {
      && group == view.group && Sharded(shards, view.pending)
      && |disk.shards| == |shards| && ShardFiles(disk.shards, |shards|)
    }

    /** Every shard's consumer index agrees with its entries. */
    ghost predicate Indexed()
      reads this
    {
      forall k: nat | k < |shards| :: IndexAgrees(shards[k])
    }

    /** Starting again from the files would give the state in memory. */
    ghost predicate InStep()
      reads this
    {
      Torn !in disk.log && Loaded(disk) == view
    }

    /** Starting again from the files would give the owners and the cursor in memory. */
    ghost predicate OwnersInStep()
      reads this
    {
      Torn !in disk.log && SameOwners(Loaded(disk), view)
    }

    /** NewConsumerState: load the snapshots, rebuild the indexes, replay the log up to the first torn line. */
    constructor Open(disk: Disk)
      requires disk.shards != [] && ShardFiles(disk.shards, |disk.shards|)
      ensures Valid() && this.disk == disk && view == Loaded(disk)
      ensures AllPolite(SnapshotView(disk), Readable(disk.log)) ==> Indexed()
    {
      hide IndexAgrees;
      var loaded: seq<Shard> := [];
      for k := 0 to |disk.shards|
        invariant |loaded| == k
        invariant forall j: nat | j < k :: loaded[j].entries == Entries(disk.shards[j]) && IndexAgrees(loaded[j])
      {
        var idx := RebuildIndex(Entries(disk.shards[k]));
        loaded := loaded + [Shard(Entries(disk.shards[k]), idx)];
      }
      MergedSharded(disk.shards, loaded);
      group := if disk.group.Some? then disk.group.value else NEW_GROUP;
      shards, this.disk, view := loaded, disk, SnapshotView(disk);
      new;
      ReplayOpLog();
    }

    /** replayOpLog. */
    method ReplayOpLog()
      requires Valid() && view == SnapshotView(disk) && Indexed()
      modifies this`group, this`shards, this`view
      ensures Valid() && view == Loaded(disk)
      ensures AllPolite(SnapshotView(disk), Readable(disk.log)) ==> Indexed()
    {
      hide IndexAgrees, Sharded, ShardFiles, Applied, Polite;
      var i := 0;
      ghost var ops, done := Readable(disk.log), [];
      while i < |disk.log| && disk.log[i].Line?
        invariant i <= |disk.log| && Valid() && |shards| == |old(shards)|
        invariant done + Readable(disk.log[i..]) == ops
        invariant view == Replayed(SnapshotView(disk), done)
        invariant AllPolite(SnapshotView(disk), done) ==> Indexed()
        decreases |disk.log| - i
      {
        var op := disk.log[i].op;
        assert disk.log[i..][1..] == disk.log[i + 1..];
        assert (done + [op])[..|done|] == done;
        ApplyOp(op);
        done := done + [op];
        i := i + 1;
      }
      assert Readable(disk.log[i..]) == [];
      assert done + [] == done;
    }

    /** One shard takes a new entry, as a delivery or a restore adds it. */
    method Put(p: Pending)
      requires Valid()
      modifies this`shards, this`view
      ensures Valid() && view == old(view).(pending := old(view).pending[p.offset := p]) && |shards| == |old(shards)|
      ensures old(Indexed()) ==>
        (Indexed() <==> !(p.offset in old(view).pending && old(view).pending[p.offset].consumer != p.consumer))
    {
      hide IndexAgrees;
      var k := p.offset % |shards|;
      ghost var before := shards;
      assert Placed(shards, view.pending, p.offset);
      PutSharded(shards, view.pending, ShardPut(shards[k], p), p);
      if Indexed() {
        PutIndex(shards[k], p);
      }
      shards := shards[k := ShardPut(shards[k], p)];
      view := view.(pending := view.pending[p.offset := p]);
      assert shards[k] == ShardPut(before[k], p);
      assert forall j: nat | j < |shards| && j != k :: shards[j] == before[j];
    }

    /** One shard's entry for this offset is replaced, and the index with it. */
    method Replace(o: nat, p: Pending)
      requires Valid() && o in view.pending && p.offset == o
      modifies this`shards, this`view
      ensures Valid() && view == old(view).(pending := old(view).pending[o := p]) && |shards| == |old(shards)|
      ensures old(Indexed()) ==> Indexed()
    {
      hide IndexAgrees;
      var k := o % |shards|;
      ghost var before := shards;
      assert Placed(shards, view.pending, o);
      var s := ShardClaim(shards[k], o, p);
      PutSharded(shards, view.pending, s, p);
      if Indexed() {
        ClaimIndex(shards[k], o, p);
      }
      shards := shards[k := s];
      view := view.(pending := view.pending[o := p]);
      assert forall j: nat | j < |shards| && j != k :: shards[j] == before[j];
    }

    /** The entry itself is changed; its consumer stays. */
    method Amend(o: nat, p: Pending)
      requires Valid() && o in view.pending && p.offset == o && p.consumer == view.pending[o].consumer
      modifies this`shards, this`view
      ensures Valid() && view == old(view).(pending := old(view).pending[o := p]) && |shards| == |old(shards)|
      ensures old(Indexed()) ==> Indexed()
    {
      hide IndexAgrees;
      var k := o % |shards|;
      ghost var before := shards;
      assert Placed(shards, view.pending, o);
      PutSharded(shards, view.pending, ShardAmend(shards[k], p), p);
      if Indexed() {
        AmendIndex(shards[k], p);
      }
      shards := shards[k := ShardAmend(shards[k], p)];
      view := view.(pending := view.pending[o := p]);
      assert forall j: nat | j < |shards| && j != k :: shards[j] == before[j];
    }

    /** applyDeliver. */
    method ApplyDeliver(o: nat, c: Consumer, ts: int)
      requires Valid()
      modifies this`group, this`shards, this`view
      ensures Valid() && view == Delivered(old(view), o, c, ts) && |shards| == |old(shards)|
      ensures old(Indexed()) ==> (Indexed() <==> Polite(old(view), Deliver(o, c, ts)))
    {
      group := group.(delivered := group.delivered + 1);
      if o >= group.cursor {
        group := group.(cursor := o + 1);
      }
      view := view.(group := group);
      Put(Pending(o, c, ts, 1, ts));
    }

    /** applyRestorePending. */
    method ApplyRestorePending(o: nat, c: Consumer, ts: int, count: nat)
      requires Valid()
      modifies this`group, this`shards, this`view
      ensures Valid() && view == Restored(old(view), o, c, ts, count) && |shards| == |old(shards)|
      ensures old(Indexed()) ==> (Indexed() <==> Polite(old(view), RestorePending(o, c, ts, count)))
    {
      Put(Pending(o, c, ts, if count == 0 then 1 else count, ts));
    }

    /** tryAdvanceAckFloor. */
    method TryAdvanceAckFloor()
      requires Valid()
      modifies this`group, this`view
      ensures Valid() && view == old(view).(group := old(view).group.(floor := group.floor))
      ensures group.floor == Advanced(old(group).floor, old(group).cursor, view.pending)
    {
      hide ShardFiles;
      var newFloor, offset := group.floor, group.floor + 1;
      while offset < group.cursor
        invariant group == old(group) && view == old(view) && offset == newFloor + 1
        invariant Advanced(newFloor, group.cursor, view.pending) == Advanced(group.floor, group.cursor, view.pending)
        decreases group.cursor - offset
      {
        assert Placed(shards, view.pending, offset);
        if offset in shards[offset % |shards|].entries {
          break;
        }
        newFloor := offset;
        offset := offset + 1;
      }
      if newFloor > group.floor {
        group := group.(floor := newFloor);
      }
      view := view.(group := group);
    }

    /** applyAck. */
    method ApplyAck(o: nat)
      requires Valid()
      modifies this`group, this`shards, this`view
      ensures Valid() && view == Acked(old(view), o) && |shards| == |old(shards)|
      ensures old(Indexed()) ==> Indexed()
    {
      hide IndexAgrees;
      var k := o % |shards|;
      assert Placed(shards, view.pending, o);
      if o !in shards[k].entries {
        return;
      }
      ghost var before := shards;
      var s := ShardDrop(shards[k], o);
      DropSharded(shards, view.pending, s, o);
      if Indexed() {
        DropIndex(shards[k], o);
      }
      shards := shards[k := s];
      view := view.(pending := view.pending - {o});
      assert forall j: nat | j < |shards| && j != k :: shards[j] == before[j];
      TryAdvanceAckFloor();
    }

    /** applyNack. */
    method ApplyNack(o: nat, ts: int)
      requires Valid()
      modifies this`group, this`shards, this`view
      ensures Valid() && view == Nacked(old(view), o, ts) && |shards| == |old(shards)|
      ensures old(Indexed()) ==> Indexed()
    {
      hide IndexAgrees, ShardFiles;
      assert Placed(shards, view.pending, o);
      var entries := shards[o % |shards|].entries;
      if o in entries {
        Amend(o, entries[o].(count := (entries[o].count + 1) % TWO16, lastAttempt := ts));
      }
    }

    /** applyRelease. */
    method ApplyRelease(o: nat, ts: int)
      requires Valid()
      modifies this`group, this`shards, this`view
      ensures Valid() && view == Released(old(view), o, ts) && |shards| == |old(shards)|
      ensures old(Indexed()) ==> Indexed()
    {
      hide IndexAgrees, ShardFiles;
      assert Placed(shards, view.pending, o);
      var entries := shards[o % |shards|].entries;
      if o in entries {
        Amend(o, entries[o].(lastAttempt := ts));
      }
    }

    /** applyClaim. */
    method ApplyClaim(o: nat, c: Consumer, ts: int)
      requires Valid()
      modifies this`group, this`shards, this`view
      ensures Valid() && view == Claimed(old(view), o, c, ts) && |shards| == |old(shards)|
      ensures old(Indexed()) ==> Indexed()
    {
      hide IndexAgrees, ShardFiles;
      assert Placed(shards, view.pending, o);
      var entries := shards[o % |shards|].entries;
      if o in entries {
        Replace(o, entries[o].(consumer := c, count := (entries[o].count + 1) % TWO16, lastAttempt := ts));
      }
    }

    /** applyOp: the operation, on the shards and the group. */
    method ApplyOp(op: Op)
      requires Valid()
      modifies this`group, this`shards, this`view
      ensures Valid() && view == Applied(old(view), op) && |shards| == |old(shards)|
      ensures old(Indexed()) ==> (Indexed() <==> Polite(old(view), op))
    {
      hide IndexAgrees, Sharded, ShardFiles;
      match op
      case Deliver(o, c, ts) => ApplyDeliver(o, c, ts);
      case Ack(o) => ApplyAck(o);
      case AckBatch(os) =>
        for i := 0 to |os|
          invariant Valid() && view == AckedAll(old(view), os[..i]) && |shards| == |old(shards)|
          invariant old(Indexed()) ==> Indexed()
        {
          ApplyAck(os[i]);
          assert os[..i + 1][..i] == os[..i];
        }
        assert os[..|os|] == os;
      case Nack(o, ts) => ApplyNack(o, ts);
      case Claim(o, c, ts) => ApplyClaim(o, c, ts);
      case ClaimBatch(os, c, ts) =>
        for i := 0 to |os|
          invariant Valid() && view == ClaimedAll(old(view), os[..i], c, ts) && |shards| == |old(shards)|
          invariant old(Indexed()) ==> Indexed()
        {
          ApplyClaim(os[i], c, ts);
          assert os[..i + 1][..i] == os[..i];
        }
        assert os[..|os|] == os;
      case AdvanceFloor(f) =>
        if f > group.floor {
          group := group.(floor := f);
        }
        view := view.(group := group);
      case SetCursor(k) =>
        group := group.(cursor := k);
        view := view.(group := group);
      case RestorePending(o, c, ts, n) => ApplyRestorePending(o, c, ts, n);
      case Release(o, ts) => ApplyRelease(o, ts);
    }

    /** writeOp. */
    method WriteOp(op: Op)
      modifies this`disk
      ensures disk == old(disk).(log := old(disk).log + [Line(op)])
    {
      disk := disk.(log := disk.log + [Line(op)]);
    }

    /** Every public operation but DeliverBatch: apply, then log. */
    method Submit(op: Op)
      requires Valid()
      modifies this
      ensures Valid() && view == Applied(old(view), op)
      ensures old(Indexed()) ==> (Indexed() <==> Polite(old(view), op))
      ensures disk == old(disk).(log := old(disk).log + [Line(op)])
      ensures old(InStep()) ==> InStep()
      ensures Torn in old(disk).log ==> Torn in disk.log && Loaded(disk) == Loaded(old(disk))
    {
      hide IndexAgrees, Sharded, ShardFiles, Loaded, Applied;
      AppendedIsReplayed(disk, op);
      ApplyOp(op);
      WriteOp(op);
    }

    /** DeliverBatch: all are applied before the first is logged. */
    method DeliverBatch(os: seq<nat>, c: Consumer, ts: int)
      requires Valid()
      modifies this
      ensures Valid() && view == Replayed(old(view), Deliveries(os, c, ts))
      ensures old(Indexed()) && AllPolite(old(view), Deliveries(os, c, ts)) ==> Indexed()
      ensures disk == old(disk).(log := old(disk).log + Lines(Deliveries(os, c, ts)))
      ensures old(InStep()) ==> InStep()
    {
      hide IndexAgrees, Sharded, ShardFiles, Loaded, Applied, Polite, Replayed;
      ghost var ops := Deliveries(os, c, ts);
      NoOps(view);
      for i := 0 to |os|
        invariant Valid() && view == Replayed(old(view), ops[..i]) && disk == old(disk)
        invariant old(Indexed()) && AllPolite(old(view), ops[..i]) ==> Indexed()
      {
        DeliveryNext(old(view), os, c, ts, i);
        ApplyDeliver(os[i], c, ts);
        assert ops[..i + 1][..i] == ops[..i];
      }
      ghost var live, placed := view, shards;
      for i := 0 to |os|
        invariant Valid() && view == live && shards == placed
        invariant disk == old(disk).(log := old(disk).log + Lines(ops[..i]))
        invariant old(InStep()) ==> Torn !in disk.log && Loaded(disk) == Replayed(old(view), ops[..i])
      {
        DeliveryNext(old(view), os, c, ts, i);
        AppendedIsReplayed(disk, Deliver(os[i], c, ts));
        WriteOp(Deliver(os[i], c, ts));
        LinesMore(ops, i);
      }
      assert ops[..|os|] == ops;
    }

    /**
     compactLocked, stopped after `writes` of its file operations: the group's
     snapshot, one per shard, then the emptying of the log.
     */
    method Compact(writes: nat)
      requires Valid()
      modifies this`disk
      ensures Valid()
      ensures writes == 0 ==> disk == old(disk)
      ensures 0 < writes < |shards| + 2 ==>
        disk == HalfCompacted(old(disk), view, shards, true,
                              FirstShards(if writes <= |shards| then writes - 1 else |shards|))
      ensures |shards| + 2 <= writes ==> disk.log == [] && SnapshotView(disk) == view && InStep()
    {
      hide Loaded;
      if writes == 0 {
        return;
      }
      disk := disk.(group := Some(group));
      assert disk.shards == HalfCompacted(old(disk), view, shards, true, FirstShards(0)).shards;
      var i := 0;
      while i < |shards| && i < writes - 1
        invariant i <= |shards| && i <= writes - 1
        invariant disk == HalfCompacted(old(disk), view, shards, true, FirstShards(i))
      {
        disk := disk.(shards := disk.shards[i := Some(shards[i].entries)]);
        i := i + 1;
        assert disk.shards == HalfCompacted(old(disk), view, shards, true, FirstShards(i)).shards;
      }
      HalfCompactedFiles(old(disk), view, shards, true, FirstShards(i));
      if |shards| + 2 <= writes {
        FullyCompacted(old(disk), view, shards);
        disk := disk.(log := []);
      }
    }

    /** GetPendingByConsumer: through the index, and complete as long as the index agrees. */
    method GetPendingByConsumer(c: Consumer) returns (r: set<Pending>)
      requires Valid()
      ensures forall p <- r :: p.offset in view.pending && view.pending[p.offset] == p
      ensures Indexed() ==>
        forall o :: o in view.pending && view.pending[o].consumer == c <==> o in view.pending && view.pending[o] in r
    {
      hide ShardFiles;
      r := {};
      for k := 0 to |shards|
        invariant forall p <- r :: p.offset in view.pending && view.pending[p.offset] == p
        invariant forall p <- r :: Indexed() ==> p.consumer == c
        invariant Indexed() ==>
          forall o | o in view.pending && view.pending[o].consumer == c && o % |shards| < k :: view.pending[o] in r
      {
        var s := shards[k];
        assert OwnOffsets(shards, k);
        if c in s.byConsumer {
          ghost var before := r;
          var part := set o | o in s.byConsumer[c] && o in s.entries :: s.entries[o];
          r := r + part;
          forall p <- part
            ensures p.offset in view.pending && view.pending[p.offset] == p && (Indexed() ==> p.consumer == c)
          {
            var o :| o in s.byConsumer[c] && o in s.entries && s.entries[o] == p;
            assert Placed(shards, view.pending, o);
            assert Listed(s, c, o);
          }
        }
        forall o | o in view.pending && view.pending[o].consumer == c && o % |shards| < k + 1 && Indexed()
          ensures view.pending[o] in r
        {
          if o % |shards| == k {
            assert Placed(shards, view.pending, o);
            assert Listed(s, c, o);
          }
        }
      }
    }

    /**
     seedConsumerState on a group that has just been registered: the carried entries
     in the order the snapshot yields them, then the committed position, then the cursor.
     */
    method Seed(carried: seq<Pending>, committed: nat, cursor: nat)
      requires Valid() && InStep() && view == View(NEW_GROUP, map[])
      requires forall i, j | 0 <= i < j < |carried| :: carried[i].offset != carried[j].offset
      modifies this
      ensures Valid() && InStep() && (old(Indexed()) ==> Indexed())
      ensures group.cursor == cursor && group.floor == committed
      ensures forall o :: o in view.pending <==> exists e <- carried :: e.offset == o
      ensures forall e <- carried :: e.offset in view.pending && var p := view.pending[e.offset];
        p.consumer == e.consumer && p.count == Attempts(e.count) && p.deliveredAt == e.deliveredAt
    {
      hide Sharded, ShardFiles, Loaded, IndexAgrees, AllPolite, Readable;
      for i := 0 to |carried|
        invariant Valid() && InStep() && (old(Indexed()) ==> Indexed())
        invariant Seeded(view, carried[..i])
      {
        var e := carried[i];
        SeedNext(view, carried, i);
        Submit(RestorePending(e.offset, e.consumer, e.deliveredAt, e.count % TWO16));
      }
      assert carried[..|carried|] == carried;
      if committed > 0 {
        Submit(AdvanceFloor(committed));
      }
      if cursor > 0 {
        Submit(SetCursor(cursor));
      }
    }

    /** One call of such a run. */
    method Make(call: Call)
      requires Valid() && OwnersInStep()
      modifies this
      ensures Valid() && OwnersInStep()
      ensures view == if call.Finishes? then Replayed(old(view), OpsOfOne(call.action)) else old(view)
      ensures call == Finishes(Compaction) ==> disk.log == [] && SnapshotView(disk) == view
      ensures call.FailedCompaction? && call.writes == 0 ==> disk == old(disk)
      ensures call.FailedCompaction? && 0 < call.writes ==>
        && shards == old(shards)
        && disk == HalfCompacted(old(disk), view, shards, true, FirstShards(Min(call.writes - 1, |shards|)))
    {
      hide IndexAgrees, Sharded, ShardFiles, Loaded, Applied, Polite, Replayed, AllPolite, SameOwners;
      NoOps(view);
      match call
      case Finishes(Perform(op)) =>
        OneOp(view, op);
        OwnersFollow(disk, view, [op]);
        Submit(op);
      case Finishes(DeliverAll(os, c, ts)) =>
        OwnersFollow(disk, view, Deliveries(os, c, ts));
        DeliverBatch(os, c, ts);
      case Finishes(Compaction) =>
        Compact(|shards| + 2);
        OwnersSame(view);
      case FailedCompaction(writes) =>
        if writes > 0 {
          HalfOwners(disk, view, shards, FirstShards(Min(writes - 1, |shards|)));
        }
        Compact(Min(writes, |shards| + 1));
    }

    /**
     Any run in which compactions may also fail after any of their writes: the files
     still lead back to every owner and to the cursor.
     */
    method RunWithFailures(calls: seq<Call>)
      requires Valid() && InStep()
      modifies this
      ensures Valid() && OwnersInStep() && view == Replayed(old(view), OpsOf(ActionsOf(calls)))
    {
      hide IndexAgrees, Sharded, ShardFiles, Loaded, Applied, Replayed, SameOwners, OpsOfOne;
      NoOps(view);
      OwnersSame(view);
      for i := 0 to |calls|
        invariant Valid() && OwnersInStep() && view == Replayed(old(view), OpsOf(ActionsOf(calls[..i])))
      {
        assert calls[..i + 1][..i] == calls[..i];
        var done := ActionsOf(calls[..i]);
        assert done + [] == done;
        if calls[i].Finishes? {
          ActionNext(old(view), done, calls[i].action);
        }
        Make(calls[i]);
      }
      assert calls[..|calls|] == calls;
    }

    /**
     Any run of operations with compactions anywhere in between: the files hold the
     state at the last compaction and the operations since.
     */
    method Run(actions: seq<Action>)
      requires Valid()
      modifies this
      ensures Valid() && view == Replayed(old(view), OpsOf(actions))
      ensures FilesOf(disk) == FilesAfter(old(FilesOf(disk)), old(view), actions)
      ensures old(InStep()) ==> InStep()
      ensures old(Indexed()) && AllPolite(old(view), OpsOf(actions)) ==> Indexed()
    {
      hide IndexAgrees, Sharded, ShardFiles, Loaded, Applied, Polite, Replayed, AllPolite, Merged;
      NoOps(view);
      for i := 0 to |actions|
        invariant Valid() && view == Replayed(old(view), OpsOf(actions[..i]))
        invariant FilesOf(disk) == FilesAfter(old(FilesOf(disk)), old(view), actions[..i])
        invariant old(InStep()) ==> InStep()
        invariant old(Indexed()) && AllPolite(old(view), OpsOf(actions[..i])) ==> Indexed()
      {
        assert actions[..i + 1][..i] == actions[..i];
        PerformNext(old(view), OpsOf(actions[..i]), OpsOfOne(actions[i]));
        NoOps(view);
        match actions[i]
        case Perform(op) =>
          OneOp(view, op);
          Submit(op);
        case DeliverAll(os, c, ts) => DeliverBatch(os, c, ts);
        case Compaction => Compact(|shards| + 2);
      }
      assert actions[..|actions|] == actions;
    }
  }

  /** A call, or a compaction that fails after some of its writes and leaves the broker running. */
  datatype Call = Finishes(action: Action) | FailedCompaction(writes: nat)

  function ActionsOf(calls: seq<Call>): seq<Action> {
    if calls == [] then []
    else
      var n := |calls| - 1;
      ActionsOf(calls[..n]) + if calls[n].Finishes? then [calls[n].action] else []
  }

  lemma ActionNext(v: View, actions: seq<Action>, a: Action)
    ensures OpsOf(actions + [a]) == OpsOf(actions) + OpsOfOne(a)
    ensures Replayed(v, OpsOf(actions + [a])) == Replayed(Replayed(v, OpsOf(actions)), OpsOfOne(a))
  {
    assert (actions + [a])[..|actions|] == actions;
    PerformNext(v, OpsOf(actions), OpsOfOne(a));
  }

  /** An attempt count as it is stored: 16 bits, and at least one. */
  function Attempts(n: nat): nat {
    if n % TWO16 == 0 then 1 else n % TWO16
  }

  ghost predicate Carried(v: View, e: Pending) {
    e.offset in v.pending && var p := v.pending[e.offset];
    p.consumer == e.consumer && p.count == Attempts(e.count) && p.deliveredAt == e.deliveredAt
  }

  /** A new group with exactly these entries. */
  ghost predicate Seeded(v: View, carried: seq<Pending>) {
    && v.group == NEW_GROUP
    && (forall o :: o in v.pending <==> exists e <- carried :: e.offset == o)
    && (forall e <- carried :: Carried(v, e))
  }

  lemma SeedNext(v: View, carried: seq<Pending>, i: nat)
    requires i < |carried| && Seeded(v, carried[..i])
    requires forall i, j | 0 <= i < j < |carried| :: carried[i].offset != carried[j].offset
    ensures var e := carried[i]; var op := RestorePending(e.offset, e.consumer, e.deliveredAt, e.count % TWO16);
      Polite(v, op) && Seeded(Applied(v, op), carried[..i + 1])
  {
    var e := carried[i];
    assert carried[..i + 1] == carried[..i] + [e];
    forall d <- carried[..i] ensures d.offset != e.offset {
    }
  }

  /** A finished compaction holds exactly the live state. */
  lemma FullyCompacted(d: Disk, live: View, shards: seq<Shard>)
    requires 0 < |d.shards| == |shards| && ShardFiles(d.shards, |shards|) && Sharded(shards, live.pending)
    ensures var all := HalfCompacted(d, live, shards, true, FirstShards(|shards|)).(log := []);
      SnapshotView(all) == Loaded(all) == live
  {
    var files := HalfCompacted(d, live, shards, true, FirstShards(|shards|)).shards;
    HalfCompactedFiles(d, live, shards, true, FirstShards(|shards|));
    forall o: nat ensures o in Merged(files) <==> o in live.pending
                  ensures o in live.pending ==> Merged(files)[o] == live.pending[o]
    {
      MergedLookup(files, |shards|, o);
      assert Placed(shards, live.pending, o);
    }
    assert Merged(files) == live.pending;
  }

  lemma DeliveryNext(v: View, os: seq<nat>, c: Consumer, ts: int, i: nat)
    requires i < |os|
    ensures var ops := Deliveries(os, c, ts);
      Replayed(v, ops[..i + 1]) == Delivered(Replayed(v, ops[..i]), os[i], c, ts)
      && Replayed(v, ops[..i + 1]) == Applied(Replayed(v, ops[..i]), Deliver(os[i], c, ts))
  {
    var ops := Deliveries(os, c, ts);
    assert ops[..i + 1][..i] == ops[..i];
  }
}
