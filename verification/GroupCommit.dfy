/**
 Group commit: publishers that need a durable acknowledgement share one fsync.

 Each segment has a written end, a durable end and the frontier `through` its
 commit state has published. Publishers append under the manager's lock, then
 loop: return once the frontier covers their record, wait for the barrier in
 flight, or run one. A barrier fixes what it covers before it flushes, and the
 lock is free while it does. Appends, rotations, truncation, background flushes
 and crashes interleave with all of it.
 */
module GroupCommit {
  import opened Prelude

  type Thread = nat
  type Record = string

  /** The barrier in flight: who runs it, and what it covers once that is fixed. */
  datatype Barrier = NoBarrier | Barrier(leader: Thread, covered: Option<nat>)

  /** Positions are absolute offsets; a segment is named by its base offset. */
  datatype Segment = Segment(data: seq<Record>, durable: nat, through: nat, barrier: Barrier, closed: bool)

  datatype Pc =
    | Top
    | Waiting
    | Leading
    | Flushed
    | Returned(ok: bool)

  /** A publisher inside SyncThrough; `rode` and `failed` count the barriers it waited for or ran. */
  datatype Caller = Caller(base: nat, through: nat, pc: Pc, rode: nat, failed: nat)

  datatype State = State(segs: map<nat, Segment>, active: nat, callers: map<Thread, Caller>, syncErr: bool)

  datatype Step =
    | AppendDurable(t: Thread, batch: seq<Record>)
    | AppendBuffered(batch: seq<Record>)
    | Rotate
    | RetrySync(ok: bool)
    | BackgroundFlush(base: nat, upTo: nat)
    | ReturnDone(t: Thread)
    | Join(t: Thread)
    | Lead(t: Thread)
    | Capture(t: Thread)
    | Flush(t: Thread, upTo: nat)
    | Publish(t: Thread)
    | FailBarrier(t: Thread)
    | DeleteSegment(base: nat)
    | TruncateAll(base: nat)
    | Crash(kept: map<nat, nat>)

  function End(base: nat, g: Segment): nat {
    base + |g.data|
  }

  function Tail(s: State): nat
    requires s.active in s.segs
  {
    End(s.active, s.segs[s.active])
  }

  predicate At(s: State, t: Thread, pc: Pc) {
    t in s.callers && s.callers[t].pc == pc && s.callers[t].base in s.segs
  }

  predicate Leads(s: State, t: Thread) {
    t in s.callers && s.callers[t].base in s.segs
    && s.segs[s.callers[t].base].barrier.Barrier? && (s.callers[t].pc.Leading? || s.callers[t].pc.Flushed?)
  }

  predicate Enabled(s: State, step: Step) {
    s.active in s.segs &&
    match step
    case AppendDurable(t, batch) =>
      !s.syncErr && (t in s.callers ==> s.callers[t].pc.Returned?) && 0 < |batch|
    case AppendBuffered(batch) => !s.syncErr && 0 < |batch|
    case Rotate => !s.syncErr && 0 < |s.segs[s.active].data|
    case RetrySync(_) => s.syncErr
    case BackgroundFlush(base, upTo) =>
      base in s.segs && s.segs[base].durable <= upTo <= End(base, s.segs[base])
    case ReturnDone(t) => At(s, t, Top) && s.callers[t].through <= s.segs[s.callers[t].base].through
    case Join(t) =>
      At(s, t, Top) && var c := s.callers[t];
      s.segs[c.base].through < c.through && s.segs[c.base].barrier.Barrier?
    case Lead(t) =>
      At(s, t, Top) && var c := s.callers[t];
      s.segs[c.base].through < c.through && s.segs[c.base].barrier.NoBarrier?
    case Capture(t) =>
      Leads(s, t) && s.callers[t].pc.Leading? && var g := s.segs[s.callers[t].base];
      g.barrier.covered.None? && !g.closed
    case Flush(t, upTo) =>
      Leads(s, t) && s.callers[t].pc.Leading? && var g := s.segs[s.callers[t].base];
      g.barrier.covered.Some? && g.barrier.covered.value <= upTo && g.durable <= upTo <= End(s.callers[t].base, g)
    case Publish(t) => Leads(s, t) && s.callers[t].pc.Flushed? && s.segs[s.callers[t].base].barrier.covered.Some?
    case FailBarrier(t) => Leads(s, t)
    case DeleteSegment(base) => base in s.segs && base != s.active
    case TruncateAll(base) => Tail(s) <= base && base !in s.segs
    case Crash(kept) =>
      forall b <- s.segs :: b in kept && b <= s.segs[b].durable <= kept[b] <= End(b, s.segs[b])
  }

  function SetSegment(s: State, base: nat, g: Segment): State {
    s.(segs := s.segs[base := g])
  }

  function SetPc(s: State, t: Thread, pc: Pc): State
    requires t in s.callers
  {
    s.(callers := s.callers[t := s.callers[t].(pc := pc)])
  }

  function Appended(s: State, batch: seq<Record>): State
    requires s.active in s.segs
  {
    var g := s.segs[s.active];
    SetSegment(s, s.active, g.(data := g.data + batch))
  }

  /** A finished barrier wakes everyone who waited for it. */
  function Woken(c: Caller, base: nat, ok: bool): Caller {
    if c.base == base && c.pc.Waiting? then
      c.(pc := Top, rode := if ok then c.rode + 1 else c.rode, failed := if ok then c.failed else c.failed + 1)
    else c
  }

  function Wake(callers: map<Thread, Caller>, base: nat, ok: bool): map<Thread, Caller> {
    map t | t in callers :: Woken(callers[t], base, ok)
  }

  function Apply(s: State, step: Step): State
    requires Enabled(s, step)
  {
    match step
    case AppendDurable(t, batch) =>
      var s' := Appended(s, batch);
      s'.(callers := s.callers[t := Caller(s.active, Tail(s'), Top, 0, 0)])
    case AppendBuffered(batch) => Appended(s, batch)
    case Rotate =>
      var g := s.segs[s.active];
      var tail := Tail(s);
      s.(segs := s.segs[s.active := g.(durable := tail)][tail := Segment([], tail, 0, NoBarrier, false)],
        active := tail)
    case RetrySync(ok) =>
      if ok then SetSegment(s, s.active, s.segs[s.active].(durable := Tail(s))).(syncErr := false) else s
    case BackgroundFlush(base, upTo) => SetSegment(s, base, s.segs[base].(durable := upTo))
    case ReturnDone(t) => SetPc(s, t, Returned(true))
    case Join(t) => SetPc(s, t, Waiting)
    case Lead(t) =>
      var base := s.callers[t].base;
      SetPc(SetSegment(s, base, s.segs[base].(barrier := Barrier(t, None))), t, Leading)
    case Capture(t) =>
      var base := s.callers[t].base;
      SetSegment(s, base, s.segs[base].(barrier := Barrier(t, Some(End(base, s.segs[base])))))
    case Flush(t, upTo) =>
      var base := s.callers[t].base;
      SetPc(SetSegment(s, base, s.segs[base].(durable := upTo)), t, Flushed)
    case Publish(t) =>
      var c := s.callers[t];
      var g := s.segs[c.base];
      var covered := g.barrier.covered.value;
      SetSegment(s, c.base, g.(through := if g.through < covered then covered else g.through, barrier := NoBarrier))
      .(callers := Wake(s.callers, c.base, true)[t := c.(pc := Top, rode := c.rode + 1)])
    case FailBarrier(t) =>
      var c := s.callers[t];
      SetSegment(s, c.base, s.segs[c.base].(barrier := NoBarrier))
      .(callers := Wake(s.callers, c.base, false)[t := c.(pc := Returned(false), failed := c.failed + 1)],
        syncErr := true)
    case DeleteSegment(base) => SetSegment(s, base, s.segs[base].(closed := true))
    case TruncateAll(base) =>
      s.(segs := (map b | b in s.segs :: s.segs[b].(closed := true))[base := Segment([], base, 0, NoBarrier, false)],
         active := base)
    case Crash(kept) =>
      State(map b | b in s.segs :: Survivor(b, s.segs[b], kept[b]), s.active, map[], false)
  }

  /** What a crash leaves of a segment: its durable part, and as much more as happened to be written back. */
  function Survivor(b: nat, g: Segment, kept: nat): Segment
    requires b <= kept <= End(b, g)
  {
    Segment(g.data[..kept - b], kept, 0, NoBarrier, g.closed)
  }

  ghost predicate Init(s: State) {
    s == State(map[0 := Segment([], 0, 0, NoBarrier, false)], 0, map[], false)
  }

  ghost predicate StepAt(states: seq<State>, steps: seq<Step>, i: nat)
    requires |states| == |steps| + 1 && i < |steps|
  {
    Enabled(states[i], steps[i]) && states[i + 1] == Apply(states[i], steps[i])
  }

  ghost predicate Behaviour(states: seq<State>, steps: seq<Step>) {
    && |states| == |steps| + 1
    && Init(states[0])
    && forall i: nat | i < |steps| :: StepAt(states, steps, i)
  }

  // ---------------------------------------------------------------------------
  // Invariant

  /** A publisher is told only of what is durable; a sealed segment is durable throughout. */
  ghost predicate SegmentInv(b: nat, g: Segment, sealed: bool) {
    && b <= g.durable <= End(b, g)
    && (g.through == 0 || b < g.through <= g.durable)
    && (sealed && !g.closed ==> g.durable == End(b, g))
    && (g.barrier.Barrier? && g.barrier.covered.Some? ==> g.barrier.covered.value <= End(b, g))
  }

  /**
   A publisher's own record is written when it enters, so a barrier it runs
   covers it, and once it has ridden one barrier every later one covers it too.
   */
  ghost predicate CallerInv(t: Thread, c: Caller, g: Segment) {
    && c.base < c.through <= End(c.base, g)
    && (c.pc.Waiting? ==> g.barrier.Barrier?)
    && (c.pc.Leading? || c.pc.Flushed? ==> g.barrier.Barrier? && g.barrier.leader == t)
    && (c.pc.Waiting? || c.pc.Leading? || c.pc.Flushed? ==> g.through < c.through)
    && (c.pc.Flushed? ==> g.barrier.covered.Some? && g.barrier.covered.value <= g.durable)
    && (c.pc == Returned(true) ==> c.through <= g.through)
    && c.rode <= 2
    && (c.rode == 2 ==> c.through <= g.through)
    && (g.barrier.Barrier? && g.barrier.covered.Some? && (1 <= c.rode || g.barrier.leader == t) && !c.pc.Returned? ==>
          c.through <= g.barrier.covered.value)
  }

  /** The barrier in flight has its leader still inside it. */
  ghost predicate LedBy(s: State, b: nat, g: Segment) {
    g.barrier.Barrier? ==>
      g.barrier.leader in s.callers && var c := s.callers[g.barrier.leader];
      c.base == b && (c.pc.Leading? || c.pc.Flushed?)
  }

  ghost predicate SegmentOk(s: State, b: nat) {
    b in s.segs ==> b <= s.active && SegmentInv(b, s.segs[b], b != s.active) && LedBy(s, b, s.segs[b])
  }

  ghost predicate CallerOk(s: State, t: Thread) {
    t in s.callers ==> var c := s.callers[t]; c.base in s.segs && CallerInv(t, c, s.segs[c.base])
  }

  ghost predicate Inv(s: State) {
    && s.active in s.segs && !s.segs[s.active].closed
    && (forall b :: SegmentOk(s, b))
    && (forall t :: CallerOk(s, t))
  }

  /** A segment that only grows, with its barrier and frontier as they were, leaves every caller right. */
  lemma GrowInv(s: State, b: nat, g': Segment)
    requires Inv(s) && b in s.segs
    requires var g := s.segs[b];
      g'.barrier == g.barrier && g'.through == g.through && g.durable <= g'.durable && |g.data| <= |g'.data|
    requires SegmentInv(b, g', b != s.active) && (b == s.active ==> !g'.closed)
    ensures Inv(SetSegment(s, b, g'))
  {
    var s' := SetSegment(s, b, g');
    forall t ensures CallerOk(s', t) {
      assert CallerOk(s, t);
    }
    forall x ensures SegmentOk(s', x) {
      assert SegmentOk(s, x);
    }
  }

  /** A caller outside every barrier may come, go or start waiting. */
  lemma CallerStepInv(s: State, t: Thread, c': Caller)
    requires Inv(s) && c'.base in s.segs && CallerInv(t, c', s.segs[c'.base])
    requires t in s.callers ==> !s.callers[t].pc.Leading? && !s.callers[t].pc.Flushed?
    ensures Inv(s.(callers := s.callers[t := c']))
  {
    var s' := s.(callers := s.callers[t := c']);
    forall x ensures SegmentOk(s', x) {
      assert SegmentOk(s, x);
    }
    forall u ensures CallerOk(s', u) {
      assert CallerOk(s, u);
    }
  }

  /** What the leader does to its segment, seen by another caller on it. */
  lemma LedCaller(t: Thread, c: Caller, g: Segment, leader: Thread, g': Segment)
    requires CallerInv(t, c, g) && t != leader && !c.pc.Leading? && !c.pc.Flushed?
    requires g'.through == g.through && |g'.data| == |g.data| && g.durable <= g'.durable
    requires g'.barrier.Barrier? && g'.barrier.leader == leader
    requires g'.barrier.covered.Some? ==> g'.barrier == g.barrier || g'.barrier.covered.value == End(c.base, g')
    ensures CallerInv(t, c, g')
  {
  }

  /** The leader's own steps, on the segment it leads. */
  lemma LeaderStepInv(s: State, t: Thread, c': Caller, g': Segment)
    requires Inv(s) && t in s.callers && c'.base == s.callers[t].base && c'.base in s.segs
    requires c'.pc.Leading? || c'.pc.Flushed?
    requires CallerInv(t, c', g') && SegmentInv(c'.base, g', c'.base != s.active)
    requires var g := s.segs[c'.base];
      g'.through == g.through && |g'.data| == |g.data| && g'.closed == g.closed && g.durable <= g'.durable
      && (g.barrier.Barrier? ==> g.barrier.leader == t)
      && (g'.barrier.covered.Some? ==> g'.barrier == g.barrier || g'.barrier.covered.value == End(c'.base, g'))
    ensures Inv(SetSegment(s, c'.base, g').(callers := s.callers[t := c']))
  {
    var s' := SetSegment(s, c'.base, g').(callers := s.callers[t := c']);
    forall x ensures SegmentOk(s', x) {
      assert SegmentOk(s, x);
    }
    forall u ensures CallerOk(s', u) {
      assert CallerOk(s, u) && SegmentOk(s, c'.base);
      if u in s.callers && u != t && s.callers[u].base == c'.base {
        LedCaller(u, s.callers[u], s.segs[c'.base], t, g');
      }
    }
  }

  function Published(g: Segment, covered: nat): Segment {
    g.(through := if g.through < covered then covered else g.through, barrier := NoBarrier)
  }

  /** Riding a successful barrier for the second time means being covered. */
  lemma PublishedCaller(t: Thread, c: Caller, g: Segment, leader: Thread, covered: nat)
    requires CallerInv(t, c, g) && g.barrier == Barrier(leader, Some(covered))
    ensures t != leader ==> CallerInv(t, Woken(c, c.base, true), Published(g, covered))
    ensures t == leader && c.pc.Flushed? ==> CallerInv(t, c.(pc := Top, rode := c.rode + 1), Published(g, covered))
  {
  }

  lemma FailedCaller(t: Thread, c: Caller, g: Segment, leader: Thread)
    requires CallerInv(t, c, g) && g.barrier.Barrier? && g.barrier.leader == leader
    ensures t != leader ==> CallerInv(t, Woken(c, c.base, false), g.(barrier := NoBarrier))
    ensures t == leader ==> CallerInv(t, c.(pc := Returned(false), failed := c.failed + 1), g.(barrier := NoBarrier))
  {
  }

  /** The end of a barrier changes one segment and the callers on it; everyone else is as before. */
  lemma FinishInv(s: State, s': State, base: nat, g': Segment)
    requires Inv(s) && base in s.segs && s'.segs == s.segs[base := g'] && s'.active == s.active
    requires g'.barrier.NoBarrier? && g'.closed == s.segs[base].closed && SegmentInv(base, g', base != s.active)
    requires s'.callers.Keys == s.callers.Keys
    requires forall t <- s.callers :: s'.callers[t].base == s.callers[t].base
    requires forall t <- s.callers ::
      if s.callers[t].base == base then CallerInv(t, s'.callers[t], g') else s'.callers[t] == s.callers[t]
    ensures Inv(s')
  {
    forall x ensures SegmentOk(s', x) {
      assert SegmentOk(s, x);
    }
    forall t ensures CallerOk(s', t) {
      assert CallerOk(s, t);
    }
  }

  lemma PublishInv(s: State, l: Thread)
    requires Inv(s) && Enabled(s, Publish(l))
    ensures Inv(Apply(s, Publish(l)))
  {
    var s', base := Apply(s, Publish(l)), s.callers[l].base;
    var g := s.segs[base];
    assert CallerOk(s, l) && SegmentOk(s, base);
    forall t <- s.callers | s.callers[t].base == base ensures CallerInv(t, s'.callers[t], s'.segs[base]) {
      assert CallerOk(s, t);
      PublishedCaller(t, s.callers[t], g, l, g.barrier.covered.value);
    }
    FinishInv(s, s', base, s'.segs[base]);
  }

  lemma FailInv(s: State, l: Thread)
    requires Inv(s) && Enabled(s, FailBarrier(l))
    ensures Inv(Apply(s, FailBarrier(l)))
  {
    var s', base := Apply(s, FailBarrier(l)), s.callers[l].base;
    var g := s.segs[base];
    assert CallerOk(s, l) && SegmentOk(s, base);
    forall t <- s.callers | s.callers[t].base == base ensures CallerInv(t, s'.callers[t], s'.segs[base]) {
      assert CallerOk(s, t);
      FailedCaller(t, s.callers[t], g, l);
    }
    FinishInv(s, s', base, s'.segs[base]);
  }

  lemma RotateInv(s: State)
    requires Inv(s) && Enabled(s, Rotate)
    ensures Inv(Apply(s, Rotate))
  {
    assert SegmentOk(s, s.active);
    var sealed := s.segs[s.active].(durable := Tail(s));
    GrowInv(s, s.active, sealed);
    var mid, s' := SetSegment(s, s.active, sealed), Apply(s, Rotate);
    forall x ensures SegmentOk(s', x) {
      assert SegmentOk(mid, x);
    }
    forall u ensures CallerOk(s', u) {
      assert CallerOk(mid, u);
      assert u in mid.callers ==> SegmentOk(mid, mid.callers[u].base);
    }
  }

  lemma TruncateAllInv(s: State, base: nat)
    requires Inv(s) && Enabled(s, TruncateAll(base))
    ensures Inv(Apply(s, TruncateAll(base)))
  {
    var s' := Apply(s, TruncateAll(base));
    assert SegmentOk(s, s.active);
    forall x ensures SegmentOk(s', x) {
      assert SegmentOk(s, x);
    }
    forall u ensures CallerOk(s', u) {
      assert CallerOk(s, u);
    }
  }

  lemma CrashInv(s: State, kept: map<nat, nat>)
    requires Inv(s) && Enabled(s, Crash(kept))
    ensures Inv(Apply(s, Crash(kept)))
  {
    var s' := Apply(s, Crash(kept));
    forall x ensures SegmentOk(s', x) {
      assert SegmentOk(s, x);
    }
  }

  lemma AppendInv(s: State, step: Step)
    requires Inv(s) && Enabled(s, step) && (step.AppendDurable? || step.AppendBuffered?)
    ensures Inv(Apply(s, step))
  {
    var g := s.segs[s.active];
    assert SegmentOk(s, s.active);
    GrowInv(s, s.active, g.(data := g.data + step.batch));
    if step.AppendDurable? {
      var s' := Appended(s, step.batch);
      CallerStepInv(s', step.t, Caller(s.active, Tail(s'), Top, 0, 0));
    }
  }

  lemma SyncErrInv(s: State, syncErr: bool)
    requires Inv(s)
    ensures Inv(s.(syncErr := syncErr))
  {
    var s' := s.(syncErr := syncErr);
    forall x ensures SegmentOk(s', x) {
      assert SegmentOk(s, x);
    }
    forall t ensures CallerOk(s', t) {
      assert CallerOk(s, t);
    }
  }

  lemma FlushInv(s: State, step: Step)
    requires Inv(s) && Enabled(s, step) && (step.RetrySync? || step.BackgroundFlush? || step.DeleteSegment?)
    ensures Inv(Apply(s, step))
  {
    assert SegmentOk(s, if step.RetrySync? then s.active else step.base);
    match step
    case RetrySync(ok) =>
      var synced := s.segs[s.active].(durable := Tail(s));
      GrowInv(s, s.active, synced);
      SyncErrInv(SetSegment(s, s.active, synced), false);
    case BackgroundFlush(base, upTo) => GrowInv(s, base, s.segs[base].(durable := upTo));
    case DeleteSegment(base) => GrowInv(s, base, s.segs[base].(closed := true));
  }

  lemma EnterInv(s: State, step: Step)
    requires Inv(s) && Enabled(s, step) && (step.ReturnDone? || step.Join?)
    ensures Inv(Apply(s, step))
  {
    assert CallerOk(s, step.t);
    CallerStepInv(s, step.t, Apply(s, step).callers[step.t]);
  }

  lemma LeadInv(s: State, step: Step)
    requires Inv(s) && Enabled(s, step) && (step.Lead? || step.Capture? || step.Flush?)
    ensures Inv(Apply(s, step))
  {
    var t, c := step.t, s.callers[step.t];
    assert CallerOk(s, t) && SegmentOk(s, c.base);
    match step
    case Lead(_) => LeaderStepInv(s, t, c.(pc := Leading), s.segs[c.base].(barrier := Barrier(t, None)));
    case Capture(_) =>
      LeaderStepInv(s, t, c, s.segs[c.base].(barrier := Barrier(t, Some(End(c.base, s.segs[c.base])))));
      assert s.callers[t := c] == s.callers;
    case Flush(_, upTo) => LeaderStepInv(s, t, c.(pc := Flushed), s.segs[c.base].(durable := upTo));
  }

  /** Every step, in any interleaving, keeps the invariant. */
  lemma StepInv(s: State, step: Step)
    requires Inv(s) && Enabled(s, step)
    ensures Inv(Apply(s, step))
  {
    match step
    case AppendDurable(_, _) => AppendInv(s, step);
    case AppendBuffered(_) => AppendInv(s, step);
    case Rotate => RotateInv(s);
    case RetrySync(_) => FlushInv(s, step);
    case BackgroundFlush(_, _) => FlushInv(s, step);
    case ReturnDone(_) => EnterInv(s, step);
    case Join(_) => EnterInv(s, step);
    case Lead(_) => LeadInv(s, step);
    case Capture(_) => LeadInv(s, step);
    case Flush(_, _) => LeadInv(s, step);
    case Publish(t) => PublishInv(s, t);
    case FailBarrier(t) => FailInv(s, t);
    case DeleteSegment(_) => FlushInv(s, step);
    case TruncateAll(base) => TruncateAllInv(s, base);
    case Crash(kept) => CrashInv(s, kept);
  }

  lemma Extend(states: seq<State>, steps: seq<Step>, step: Step) returns (s: State)
    requires Behaviour(states, steps) && Enabled(states[|steps|], step)
    ensures s == Apply(states[|steps|], step)
    ensures Behaviour(states + [s], steps + [step])
  {
    s := Apply(states[|steps|], step);
    forall i: nat | i <= |steps| ensures StepAt(states + [s], steps + [step], i) {
      assert i < |steps| ==> StepAt(states, steps, i);
    }
  }

  lemma {:induction false} BehaviourInv(states: seq<State>, steps: seq<Step>, i: nat)
    requires Behaviour(states, steps) && i < |states|
    ensures Inv(states[i])
  {
    if i > 0 {
      BehaviourInv(states, steps, i - 1);
      assert StepAt(states, steps, i - 1);
      StepInv(states[i - 1], steps[i - 1]);
    }
  }

  // ---------------------------------------------------------------------------
  // Main results

  /** The step removes this segment on request: truncation or retention. */
  predicate Removes(step: Step, base: nat) {
    step == DeleteSegment(base) || step.TruncateAll?
  }

  /** Everything up to this offset of the segment is on disk and reads as given. */
  ghost predicate OnDisk(s: State, base: nat, through: nat, records: seq<Record>) {
    && base in s.segs && base <= through <= s.segs[base].durable && s.segs[base].durable <= End(base, s.segs[base])
    && s.segs[base].data[..through - base] == records
  }

  /** No step but a crash takes anything from a segment, and a crash leaves what is durable. */
  lemma StepKeepsSegment(s: State, step: Step, base: nat)
    requires Inv(s) && Enabled(s, step) && base in s.segs
    ensures base in Apply(s, step).segs
    ensures var g, g' := s.segs[base], Apply(s, step).segs[base];
      g.durable <= g'.durable && (g.data <= g'.data || (g'.data <= g.data && base <= g.durable <= End(base, g')))
  {
    assert SegmentOk(s, base);
    if step.Rotate? {
      assert base < Tail(s);
    }
  }

  lemma StepKeepsOnDisk(s: State, step: Step, base: nat, through: nat, records: seq<Record>)
    requires Inv(s) && Enabled(s, step) && OnDisk(s, base, through, records)
    ensures OnDisk(Apply(s, step), base, through, records)
  {
    StepKeepsSegment(s, step, base);
    StepInv(s, step);
    var g, g' := s.segs[base], Apply(s, step).segs[base];
    assert SegmentOk(Apply(s, step), base);
    assert g'.data[..through - base] == g.data[..through - base];
  }

  lemma {:induction false} OnDiskStays(states: seq<State>, steps: seq<Step>, i: nat, j: nat, base: nat, through: nat,
                                       records: seq<Record>)
    requires Behaviour(states, steps) && i <= j < |states|
    requires OnDisk(states[i], base, through, records)
    ensures OnDisk(states[j], base, through, records)
  {
    if i < j {
      OnDiskStays(states, steps, i, j - 1, base, through, records);
      BehaviourInv(states, steps, j - 1);
      assert StepAt(states, steps, j - 1);
      StepKeepsOnDisk(states[j - 1], steps[j - 1], base, through, records);
    }
  }

  lemma {:induction false} OpenStays(states: seq<State>, steps: seq<Step>, i: nat, j: nat, base: nat)
    requires Behaviour(states, steps) && i <= j < |states|
    requires base in states[i].segs && !states[i].segs[base].closed
    requires forall x | i <= x < j :: !Removes(steps[x], base)
    ensures base in states[j].segs && !states[j].segs[base].closed
  {
    if i < j {
      OpenStays(states, steps, i, j - 1, base);
      BehaviourInv(states, steps, j - 1);
      assert StepAt(states, steps, j - 1);
      assert !Removes(steps[j - 1], base);
    }
  }

  /**
   A publisher that was told its append is durable finds its record, and every
   record before it in the segment, unchanged in every later state of every run,
   crashes included, until the segment is removed on request.
   */
  lemma AcknowledgedSurvives(states: seq<State>, steps: seq<Step>, i: nat, j: nat, t: Thread)
    requires Behaviour(states, steps) && i <= j < |states|
    requires At(states[i], t, Returned(true)) && !states[i].segs[states[i].callers[t].base].closed
    requires forall x | i <= x < j :: !Removes(steps[x], states[i].callers[t].base)
    ensures var c := states[i].callers[t];
      && c.base < c.through <= End(c.base, states[i].segs[c.base])
      && OnDisk(states[j], c.base, c.through, states[i].segs[c.base].data[..c.through - c.base])
      && !states[j].segs[c.base].closed
  {
    BehaviourInv(states, steps, i);
    var c := states[i].callers[t];
    var g := states[i].segs[c.base];
    assert CallerOk(states[i], t) && SegmentOk(states[i], c.base);
    OnDiskStays(states, steps, i, j, c.base, c.through, g.data[..c.through - c.base]);
    OpenStays(states, steps, i, j, c.base);
  }

  /** The step writes to the log or seals a segment. */
  predicate Writes(step: Step) {
    step.AppendDurable? || step.AppendBuffered? || step.Rotate?
  }

  /**
   After a failed barrier nothing is written and nothing is sealed until a flush of the
   active segment has succeeded, or the process has started again.
   */
  lemma {:induction false} FailureBlocks(states: seq<State>, steps: seq<Step>, i: nat, j: nat)
    requires Behaviour(states, steps) && i <= j < |states| && states[i].syncErr
    requires forall x | i <= x < j :: steps[x] != RetrySync(true) && !steps[x].Crash?
    ensures states[j].syncErr && forall x | i <= x < j :: !Writes(steps[x])
    ensures forall b <- states[i].segs :: b in states[j].segs && states[j].segs[b].data == states[i].segs[b].data
    ensures j < |steps| ==> !Writes(steps[j])
  {
    if i < j {
      FailureBlocks(states, steps, i, j - 1);
      assert StepAt(states, steps, j - 1);
      assert steps[j - 1] != RetrySync(true) && !steps[j - 1].Crash?;
    }
    if j < |steps| {
      assert StepAt(states, steps, j);
    }
  }

  /** The flush that lifts it makes everything in the active segment durable. */
  lemma RetryFlushes(s: State)
    requires Enabled(s, RetrySync(true))
    ensures var s' := Apply(s, RetrySync(true));
      && !s'.syncErr && s'.active == s.active && s'.segs[s.active].durable == Tail(s') == Tail(s)
      && s'.segs[s.active].data == s.segs[s.active].data && s'.callers == s.callers
      && forall b <- s.segs | b != s.active :: b in s'.segs && s'.segs[b] == s.segs[b]
  {
  }

  /** At most one fsync per segment is ever in flight. */
  lemma OneBarrierPerSegment(states: seq<State>, steps: seq<Step>, i: nat, t: Thread, u: Thread)
    requires Behaviour(states, steps) && i < |states|
    requires Leads(states[i], t) && Leads(states[i], u) && states[i].callers[t].base == states[i].callers[u].base
    ensures t == u
  {
    BehaviourInv(states, steps, i);
    var s := states[i];
    assert CallerOk(s, t) && CallerOk(s, u);
  }

  /** This publisher runs the barrier that ends here, or waits for it. */
  ghost predicate Rides(s: State, leader: Thread, t: Thread) {
    && leader in s.callers && t in s.callers
    && (t == leader || (s.callers[t].pc.Waiting? && s.callers[t].base == s.callers[leader].base))
  }

  /** How many barriers that succeeded, or that failed, this publisher has ridden since it appended. */
  ghost function Ridden(states: seq<State>, steps: seq<Step>, i: nat, t: Thread, ok: bool): nat
    requires |states| == |steps| + 1 && i <= |steps|
  {
    if i == 0 then 0
    else
      var s, step := states[i - 1], steps[i - 1];
      if step.Crash? || (step.AppendDurable? && step.t == t) then 0
      else
        Ridden(states, steps, i - 1, t, ok)
        + if (if ok then step.Publish? else step.FailBarrier?) && Rides(s, step.t, t) then 1 else 0
  }

  lemma StepCounts(s: State, step: Step, t: Thread)
    requires Inv(s) && Enabled(s, step) && t in Apply(s, step).callers
    ensures var c' := Apply(s, step).callers[t];
      if step.AppendDurable? && step.t == t then c'.rode == 0 && c'.failed == 0
      else
        && t in s.callers && !step.Crash?
        && c'.rode == s.callers[t].rode + (if step.Publish? && Rides(s, step.t, t) then 1 else 0)
        && c'.failed == s.callers[t].failed + (if step.FailBarrier? && Rides(s, step.t, t) then 1 else 0)
  {
    if t in s.callers {
      assert CallerOk(s, t);
    }
  }

  /** The counters a publisher carries are these. */
  lemma {:induction false} CountersTrue(states: seq<State>, steps: seq<Step>, i: nat, t: Thread)
    requires Behaviour(states, steps) && i <= |steps| && t in states[i].callers
    ensures states[i].callers[t].rode == Ridden(states, steps, i, t, true)
    ensures states[i].callers[t].failed == Ridden(states, steps, i, t, false)
    decreases i
  {
    hide Enabled, Apply, Inv, Rides;
    if i > 0 {
      BehaviourInv(states, steps, i - 1);
      assert StepAt(states, steps, i - 1);
      StepCounts(states[i - 1], steps[i - 1], t);
      if t in states[i - 1].callers {
        CountersTrue(states, steps, i - 1, t);
      }
    }
  }

  /**
   A publisher waits for or runs at most two barriers that succeed; with the second
   behind it its record is covered, so it can only return.
   */
  lemma TwoBarriersSuffice(states: seq<State>, steps: seq<Step>, i: nat, t: Thread)
    requires Behaviour(states, steps) && i < |states| && t in states[i].callers
    ensures Ridden(states, steps, i, t, true) <= 2
    ensures Ridden(states, steps, i, t, true) == 2 ==> !Enabled(states[i], Join(t)) && !Enabled(states[i], Lead(t))
  {
    BehaviourInv(states, steps, i);
    CountersTrue(states, steps, i, t);
    var s := states[i];
    assert CallerOk(s, t);
  }

  /** After a crash the log takes appends again, with nobody inside a barrier. */
  lemma CrashReopens(s: State, kept: map<nat, nat>, batch: seq<Record>)
    requires Inv(s) && Enabled(s, Crash(kept)) && batch != []
    ensures var s' := Apply(s, Crash(kept)); Enabled(s', AppendBuffered(batch)) && s'.callers == map[]
  {
  }

  // ---------------------------------------------------------------------------
  // The call itself

  /** Steps that only this thread takes, and the crash that would end it. */
  predicate Own(step: Step, t: Thread) {
    match step
    case AppendDurable(u, _) => u == t
    case ReturnDone(u) => u == t
    case Join(u) => u == t
    case Lead(u) => u == t
    case Capture(u) => u == t
    case Flush(u, _) => u == t
    case Publish(u) => u == t
    case FailBarrier(u) => u == t
    case Crash(_) => true
    case _ => false
  }

  ghost predicate SameCaller(was: State, s: State, t: Thread) {
    && t in was.callers && t in s.callers
    && (s.callers[t] == was.callers[t]
        || (was.callers[t].pc.Waiting?
            && s.callers[t] == was.callers[t].(pc := Top, rode := s.callers[t].rode, failed := s.callers[t].failed)))
  }

  /** While it leads, nobody else ends its barrier; while it waits, the end of the barrier wakes it. */
  lemma OthersKeepCaller(s: State, step: Step, t: Thread)
    requires Inv(s) && Enabled(s, step) && t in s.callers && !Own(step, t)
    ensures SameCaller(s, Apply(s, step), t)
    ensures Leads(s, t) ==>
      var base, s' := s.callers[t].base, Apply(s, step);
      base in s'.segs && s'.segs[base].barrier == s.segs[base].barrier
  {
    assert CallerOk(s, t);
    assert SegmentOk(s, s.callers[t].base);
    if step.Capture? || step.Flush? || step.Publish? || step.FailBarrier? {
      assert CallerOk(s, step.t);
    }
  }

  /** Since then this thread has published no barrier. */
  ghost predicate NonePublished(steps: seq<Step>, since: nat, t: Thread) {
    forall i | since <= i < |steps| :: steps[i] != Publish(t)
  }

  class Log {
    var s: State
    var others: seq<seq<Step>>
    ghost var states: seq<State>
    ghost var steps: seq<Step>

    ghost predicate Valid()
      reads this
    {
      Behaviour(states, steps) && states[|steps|] == s
    }

    method Do(step: Step)
      requires Valid() && Enabled(s, step)
      modifies this
      ensures Valid() && s == Apply(old(s), step) && others == old(others)
      ensures steps == old(steps) + [step] && old(states) <= states
    {
      ghost var s' := Extend(states, steps, step);
      s := Apply(s, step);
      steps, states := steps + [step], states + [s];
    }

    lemma ValidInv()
      requires Valid()
      ensures Inv(s)
    {
      BehaviourInv(states, steps, |steps|);
    }

    ghost predicate LeadsStill(was: State, t: Thread)
      reads this
    {
      Leads(was, t) ==> Leads(s, t) && s.segs[s.callers[t].base].barrier == was.segs[was.callers[t].base].barrier
    }

    /** Lets the other threads run: the schedule is arbitrary. */
    method Others(t: Thread)
      requires Valid() && t in s.callers
      modifies this
      ensures Valid() && SameCaller(old(s), s, t) && LeadsStill(old(s), t) && s.active in s.segs
      ensures s.callers[t].base in s.segs
      ensures old(steps) <= steps && old(states) <= states && NonePublished(steps, |old(steps)|, t)
      ensures old(others) != [] ==> |others| < |old(others)|
      ensures old(others) == [] ==> others == [] && s == old(s)
    {
      hide Behaviour;
      var batch := if others == [] then [] else others[0];
      others := if others == [] then [] else others[1..];
      ghost var left := others;
      for i := 0 to |batch|
        invariant Valid() && SameCaller(old(s), s, t) && LeadsStill(old(s), t) && others == left
        invariant batch == [] ==> s == old(s)
        invariant old(steps) <= steps && old(states) <= states && NonePublished(steps, |old(steps)|, t)
      {
        if !Own(batch[i], t) && Enabled(s, batch[i]) {
          ValidInv();
          OthersKeepCaller(s, batch[i], t);
          Do(batch[i]);
        }
      }
      ValidInv();
      assert CallerOk(s, t);
    }

    /**
     syncThrough, for a publisher that has just appended. `fails` says whether an
     fsync it runs fails. A call still waiting when the schedule ends has not returned.
     */
    method SyncThrough(t: Thread, fails: bool) returns (returned: bool, ok: bool)
      requires Valid() && At(s, t, Top)
      modifies this
      ensures Valid() && t in s.callers && s.callers[t].base in s.segs
      ensures old(steps) <= steps && old(states) <= states
      ensures s.callers[t].base == old(s.callers[t].base) && s.callers[t].through == old(s.callers[t].through)
      ensures returned ==> s.callers[t].pc == Returned(ok)
      ensures returned && ok ==> s.callers[t].through <= s.segs[s.callers[t].base].durable
      ensures returned && !ok ==> s.syncErr && (fails || s.segs[s.callers[t].base].closed)
      ensures fails ==> NonePublished(steps, |old(steps)|, t)
      ensures old(others) == [] && old(s.segs[s.callers[t].base].barrier.NoBarrier?) ==>
        && returned
        && (ok <==> old(s.callers[t].through <= s.segs[s.callers[t].base].through)
                    || (!fails && !old(s.segs[s.callers[t].base].closed)))
      ensures !returned ==> s.callers[t].pc.Waiting? && s.segs[s.callers[t].base].barrier.Barrier?
    {
      hide Behaviour;
      while true
        invariant Valid() && t in s.callers && (s.callers[t].pc.Top? || s.callers[t].pc.Waiting?)
        invariant s.callers[t].base in s.segs
        invariant old(steps) <= steps && old(states) <= states
        invariant s.callers[t].base == old(s.callers[t].base) && s.callers[t].through == old(s.callers[t].through)
        invariant fails ==> NonePublished(steps, |old(steps)|, t)
        invariant old(others) == [] && old(s.segs[s.callers[t].base].barrier.NoBarrier?) ==>
          && others == [] && s.callers[t].pc.Top?
          && (s == old(s) || (!fails && !old(s.segs[s.callers[t].base].closed)
                              && s.callers[t].through <= s.segs[s.callers[t].base].through))
        decreases |others|, 2 - s.callers[t].rode, s.callers[t].pc.Top?
      {
        ValidInv();
        var c := s.callers[t];
        assert CallerOk(s, t) && SegmentOk(s, c.base);
        if c.pc.Waiting? {
          if others == [] {
            return false, false;
          }
          Others(t);
        } else if c.through <= s.segs[c.base].through {
          Do(ReturnDone(t));
          return true, true;
        } else if s.segs[c.base].barrier.Barrier? {
          Do(Join(t));
        } else {
          ok := RunBarrier(t, fails);
          if !ok {
            return true, false;
          }
        }
      }
    }

    /** One barrier led by this thread: fix what it covers, fsync, publish and wake. */
    method RunBarrier(t: Thread, fails: bool) returns (ok: bool)
      requires Valid() && Enabled(s, Lead(t))
      modifies this
      ensures Valid() && t in s.callers && s.callers[t].base in s.segs
      ensures old(steps) <= steps && old(states) <= states && |others| <= |old(others)|
      ensures s.callers[t].base == old(s.callers[t].base) && s.callers[t].through == old(s.callers[t].through)
      ensures ok ==> s.callers[t].pc == Top && s.callers[t].rode == old(s.callers[t].rode) + 1
      ensures ok ==> !fails && s.callers[t].through <= s.segs[s.callers[t].base].through
      ensures !ok ==> s.callers[t].pc == Returned(false) && s.syncErr && (fails || s.segs[s.callers[t].base].closed)
      ensures fails ==> NonePublished(steps, |old(steps)|, t)
      ensures old(others) == [] ==> others == [] && (ok <==> !fails && !old(s.segs[s.callers[t].base].closed))
    {
      hide Behaviour, Inv;
      Begin(t);
      if s.segs[s.callers[t].base].closed {
        Do(FailBarrier(t));
        return false;
      }
      CaptureCoverage(t);
      ok := Fsync(t, fails);
    }

    /** Takes the lead; the others run before the coverage is fixed. */
    method Begin(t: Thread)
      requires Valid() && Enabled(s, Lead(t))
      modifies this
      ensures Valid() && s.active in s.segs && Leads(s, t) && s.callers[t] == old(s.callers[t]).(pc := Leading)
      ensures s.segs[s.callers[t].base].barrier == Barrier(t, None)
      ensures s.callers[t].through <= End(s.callers[t].base, s.segs[s.callers[t].base])
      ensures old(steps) <= steps && old(states) <= states && |others| <= |old(others)|
      ensures NonePublished(steps, |old(steps)|, t)
      ensures old(others) == [] ==>
        others == [] && s.segs[s.callers[t].base].closed == old(s.segs[s.callers[t].base].closed)
    {
      hide Behaviour;
      Do(Lead(t));
      Others(t);
      ValidInv();
      assert CallerOk(s, t);
    }

    /** Coverage is fixed at what is written now; appends go on from here. */
    method CaptureCoverage(t: Thread)
      requires Valid() && Enabled(s, Capture(t))
      modifies this
      ensures Valid() && s.active in s.segs && Leads(s, t)
      ensures s.callers[t] == old(s.callers[t])
      ensures s.segs[s.callers[t].base].barrier ==
        Barrier(t, Some(old(End(s.callers[t].base, s.segs[s.callers[t].base]))))
      ensures old(steps) <= steps && old(states) <= states && |others| <= |old(others)|
      ensures NonePublished(steps, |old(steps)|, t)
    {
      hide Behaviour;
      Do(Capture(t));
      Others(t);
    }

    /** The fsync of a barrier whose coverage is fixed, and what follows it. */
    method Fsync(t: Thread, fails: bool) returns (ok: bool)
      requires Valid() && s.active in s.segs && Leads(s, t)
      requires s.callers[t].pc.Leading? && s.segs[s.callers[t].base].barrier.covered.Some?
      modifies this
      ensures Valid() && t in s.callers && s.callers[t].base in s.segs
      ensures old(steps) <= steps && old(states) <= states && |others| <= |old(others)|
      ensures s.callers[t].base == old(s.callers[t].base) && s.callers[t].through == old(s.callers[t].through)
      ensures ok ==> s.callers[t].pc == Top && s.callers[t].rode == old(s.callers[t].rode) + 1
      ensures ok ==> old(s.segs[s.callers[t].base].barrier.covered.value) <= s.segs[s.callers[t].base].through
      ensures !ok ==> s.callers[t].pc == Returned(false) && s.syncErr
      ensures ok <==> !fails
      ensures fails ==> NonePublished(steps, |old(steps)|, t)
    {
      hide Behaviour;
      if fails {
        Do(FailBarrier(t));
        return false;
      }
      ValidInv();
      var base := s.callers[t].base;
      var g := s.segs[base];
      assert SegmentOk(s, base);
      Do(Flush(t, if g.durable < g.barrier.covered.value then g.barrier.covered.value else g.durable));
      Others(t);
      Do(Publish(t));
      ok := true;
    }
  }
}
