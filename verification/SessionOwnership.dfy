/**
 Ownership of client sessions in a cluster of brokers.

 Every broker claims, renews, releases and takes over client sessions through
 transactions on two keys per client: an owner key and a takeover key. Both hang
 on leases, and the key-value store drops a key with its lease. The store is
 linearizable, so a transaction is one step; its reply can be lost after it
 commits (`acked` false). Everything between two transactions is a step of its
 own, and a lease may expire or a broker restart at any point.
 */
module SessionOwnership {
  import opened Prelude

  type Node = string
  type Client = string
  type Token = string
  type Lease = nat

  datatype Owner = Owner(node: Node, lease: Lease)

  datatype Lock = Lock(token: Token, lease: Lease)

  /** How far the call to TakeoverSession that drew a token has come. */
  datatype Phase = Locked | HandedOff | Ended

  datatype Takeover = Takeover(client: Client, taker: Node, from: Node, phase: Phase)

  /** Where a broker is inside recoverSessionLease, which holds leaseRecoveryMu throughout. */
  datatype Recovery = NoRecovery | Detached(lost: set<Client>) | Fenced

  /**
   One broker. `serving` maps each client with a live connection to the lease it
   was claimed under. `fencing` and `releasing` hold the clients for which
   fenceLostSessionClaim or ReleaseSession is between its local and its remote half;
   the broker's per-client lock keeps other calls for that client out meanwhile.
   */
  datatype Broker = Broker(
    lease: Lease,
    tracked: set<Client>,
    serving: map<Client, Lease>,
    fencing: set<Client>,
    releasing: set<Client>,
    recovery: Recovery)

  datatype State = State(
    owners: map<Client, Owner>,
    locks: map<Client, Lock>,
    live: set<Lease>,
    granted: nat,
    brokers: map<Node, Broker>,
    takeovers: map<Token, Takeover>)

  datatype Step =
    | Claim(n: Node, c: Client, acked: bool)
    | Renew(n: Node, c: Client, acked: bool)
    | FenceLost(n: Node, c: Client)
    | FenceNotify(n: Node, c: Client)
    | ReleaseUntrack(n: Node, c: Client)
    | ReleaseDelete(n: Node, c: Client)
    | ReleaseFail(n: Node, c: Client)
    | RecoveryDetach(n: Node)
    | RecoveryNotify(n: Node)
    | RecoveryGrant(n: Node)
    | RecoveryFail(n: Node)
    | TakeLock(n: Node, c: Client, from: Node, t: Token, acked: bool)
    | HandOff(t: Token, acked: bool)
    | FinalizeMoved(t: Token, acked: bool)
    | FinalizeAbsent(t: Token, acked: bool)
    | ReleaseLock(t: Token)
    | Abandon(t: Token)
    | Expire(l: Lease)
    | Restart(n: Node)

  /** The owner key reads as this node. */
  predicate OwnedBy(s: State, c: Client, n: Node) {
    c in s.owners && s.owners[c].node == n
  }

  /** The broker may run a transaction for this client: neither leaseRecoveryMu nor the client lock is held. */
  predicate Free(b: Broker, c: Client) {
    b.recovery.NoRecovery? && c !in b.fencing && c !in b.releasing
  }

  predicate CanPut(s: State, n: Node, c: Client) {
    n in s.brokers && Free(s.brokers[n], c) && s.brokers[n].lease in s.live
  }

  predicate HoldsLock(s: State, t: Token) {
    t in s.takeovers && var k := s.takeovers[t];
    k.client in s.locks && s.locks[k.client].token == t
  }

  /** Guards of the transactions, and the program points the other steps need. */
  predicate Enabled(s: State, step: Step) {
    match step
    case Claim(n, c, _) => CanPut(s, n, c) && c !in s.brokers[n].tracked && c !in s.owners && c !in s.locks
    case Renew(n, c, _) => CanPut(s, n, c) && OwnedBy(s, c, n) && c !in s.locks
    case FenceLost(n, c) =>
      n in s.brokers && Free(s.brokers[n], c) && c in s.brokers[n].tracked && !OwnedBy(s, c, n) && c !in s.locks
    case FenceNotify(n, c) => n in s.brokers && c in s.brokers[n].fencing
    case ReleaseUntrack(n, c) => n in s.brokers && c !in s.brokers[n].fencing && c !in s.brokers[n].releasing
    case ReleaseDelete(n, c) => n in s.brokers && c in s.brokers[n].releasing
    case ReleaseFail(n, c) => n in s.brokers && c in s.brokers[n].releasing
    case RecoveryDetach(n) => n in s.brokers && s.brokers[n].recovery.NoRecovery?
    case RecoveryNotify(n) => n in s.brokers && s.brokers[n].recovery.Detached?
    case RecoveryGrant(n) => n in s.brokers && s.brokers[n].recovery.Fenced?
    case RecoveryFail(n) => n in s.brokers && s.brokers[n].recovery.Fenced?
    case TakeLock(n, c, from, t, _) =>
      CanPut(s, n, c) && from != n && t !in s.takeovers && OwnedBy(s, c, from) && c !in s.locks
    case HandOff(t, _) => t in s.takeovers && s.takeovers[t].phase.Locked? && s.takeovers[t].from in s.brokers
    case FinalizeMoved(t, _) =>
      HoldsLock(s, t) && var k := s.takeovers[t];
      k.phase.HandedOff? && CanPut(s, k.taker, k.client) && OwnedBy(s, k.client, k.from)
    case FinalizeAbsent(t, _) =>
      HoldsLock(s, t) && var k := s.takeovers[t];
      k.phase.HandedOff? && CanPut(s, k.taker, k.client) && k.client !in s.owners
    case ReleaseLock(t) => t in s.takeovers && !s.takeovers[t].phase.Ended?
    case Abandon(t) => t in s.takeovers && !s.takeovers[t].phase.Ended?
    case Expire(l) => l in s.live
    case Restart(n) => n in s.brokers
  }

  /** recordSessionOwnership, and the connection that starts being served. */
  function Serve(b: Broker, c: Client): Broker {
    b.(tracked := b.tracked + {c}, serving := b.serving[c := b.lease])
  }

  function Unserve(b: Broker, cs: set<Client>): Broker {
    b.(serving := b.serving - cs)
  }

  function SetBroker(s: State, n: Node, b: Broker): State {
    s.(brokers := s.brokers[n := b])
  }

  function PutOwner(s: State, n: Node, c: Client, acked: bool): State
    requires n in s.brokers
  {
    var b := s.brokers[n];
    s.(owners := s.owners[c := Owner(n, b.lease)],
       brokers := if acked then s.brokers[n := Serve(b, c)] else s.brokers)
  }

  function EndTakeover(s: State, t: Token): State
    requires t in s.takeovers
  {
    s.(takeovers := s.takeovers[t := s.takeovers[t].(phase := Ended)])
  }

  function Finalize(s: State, t: Token, acked: bool): State
    requires t in s.takeovers && s.takeovers[t].taker in s.brokers
  {
    var k := s.takeovers[t];
    var s' := PutOwner(s, k.taker, k.client, acked);
    EndTakeover(s'.(locks := s'.locks - {k.client}), t)
  }

  /** The takeover calls of a broker end with it; their keys stay until their lease goes. */
  function EndAll(ks: map<Token, Takeover>, n: Node): map<Token, Takeover> {
    map t | t in ks :: if ks[t].taker == n then ks[t].(phase := Ended) else ks[t]
  }

  function DropLease(s: State, l: Lease): State {
    s.(live := s.live - {l},
       owners := map c | c in s.owners && s.owners[c].lease != l :: s.owners[c],
       locks := map c | c in s.locks && s.locks[c].lease != l :: s.locks[c])
  }

  function Apply(s: State, step: Step): State
    requires Enabled(s, step)
  {
    match step
    case Claim(n, c, acked) => PutOwner(s, n, c, acked)
    case Renew(n, c, acked) => PutOwner(s, n, c, acked)
    case FenceLost(n, c) =>
      var b := s.brokers[n];
      SetBroker(s, n, b.(tracked := b.tracked - {c}, fencing := b.fencing + {c}))
    case FenceNotify(n, c) =>
      var b := s.brokers[n];
      SetBroker(s, n, Unserve(b, {c}).(fencing := b.fencing - {c}))
    case ReleaseUntrack(n, c) =>
      var b := s.brokers[n];
      SetBroker(s, n, Unserve(b, {c}).(tracked := b.tracked - {c}, releasing := b.releasing + {c}))
    case ReleaseDelete(n, c) =>
      var b := s.brokers[n];
      var s' := SetBroker(s, n, b.(releasing := b.releasing - {c}));
      if OwnedBy(s, c, n) then s'.(owners := s.owners - {c}) else s'
    case ReleaseFail(n, c) =>
      SetBroker(s, n, s.brokers[n].(releasing := s.brokers[n].releasing - {c}))
    case RecoveryDetach(n) =>
      var b := s.brokers[n];
      SetBroker(s, n, b.(tracked := {}, recovery := Detached(b.tracked)))
    case RecoveryNotify(n) =>
      var b := s.brokers[n];
      SetBroker(s, n, Unserve(b, b.recovery.lost).(recovery := Fenced))
    case RecoveryGrant(n) =>
      var b := s.brokers[n];
      SetBroker(s, n, b.(lease := s.granted, recovery := NoRecovery))
      .(live := s.live + {s.granted}, granted := s.granted + 1)
    case RecoveryFail(n) =>
      SetBroker(s, n, s.brokers[n].(recovery := NoRecovery))
    case TakeLock(n, c, from, t, acked) =>
      s.(locks := s.locks[c := Lock(t, s.brokers[n].lease)],
         takeovers := s.takeovers[t := Takeover(c, n, from, if acked then Locked else Ended)])
    case HandOff(t, acked) =>
      var k := s.takeovers[t];
      var s' := SetBroker(s, k.from, Unserve(s.brokers[k.from], {k.client}));
      if acked then s'.(takeovers := s.takeovers[t := k.(phase := HandedOff)]) else s'
    case FinalizeMoved(t, acked) => Finalize(s, t, acked)
    case FinalizeAbsent(t, acked) => Finalize(s, t, acked)
    case ReleaseLock(t) =>
      var s' := EndTakeover(s, t);
      if HoldsLock(s, t) then s'.(locks := s.locks - {s.takeovers[t].client}) else s'
    case Abandon(t) => EndTakeover(s, t)
    case Expire(l) => DropLease(s, l)
    case Restart(n) =>
      SetBroker(s, n, Broker(s.granted, {}, map[], {}, {}, NoRecovery))
      .(live := s.live + {s.granted}, granted := s.granted + 1, takeovers := EndAll(s.takeovers, n))
  }

  /** A cluster that has just started: each broker holds a fresh lease and nothing is claimed. */
  ghost predicate Init(s: State) {
    && s.owners == map[] && s.locks == map[] && s.takeovers == map[]
    && (forall n <- s.brokers :: s.brokers[n] == Broker(s.brokers[n].lease, {}, map[], {}, {}, NoRecovery))
    && (forall n <- s.brokers :: s.brokers[n].lease < s.granted)
    && (forall l <- s.live :: l < s.granted)
  }

  /** A run of the cluster: any interleaving of enabled steps. */
  ghost predicate Behaviour(states: seq<State>, steps: seq<Step>) {
    && |states| == |steps| + 1
    && Init(states[0])
    && forall i: nat | i < |steps| :: StepAt(states, steps, i)
  }

  ghost predicate StepAt(states: seq<State>, steps: seq<Step>, i: nat)
    requires |states| == |steps| + 1 && i < |steps|
  {
    Enabled(states[i], steps[i]) && states[i + 1] == Apply(states[i], steps[i])
  }

  // ---------------------------------------------------------------------------
  // What is to be shown of every state of every run

  ghost predicate Serves(s: State, n: Node, c: Client) {
    n in s.brokers && c in s.brokers[n].serving
  }

  /** The connection is served under a lease that the store still honours. */
  ghost predicate ServesLive(s: State, n: Node, c: Client) {
    Serves(s, n, c) && s.brokers[n].serving[c] in s.live
  }

  ghost predicate NoSplit(s: State) {
    forall n, m, c :: ServesLive(s, n, c) && ServesLive(s, m, c) ==> n == m
  }

  /** A connection claimed under a lease the broker has since replaced is already being fenced. */
  ghost predicate ClaimsCurrent(s: State) {
    forall n, c :: Serves(s, n, c) && c !in s.brokers[n].fencing ==> s.brokers[n].serving[c] == s.brokers[n].lease
  }

  /** And its old lease is dead. */
  ghost predicate StaleIsDead(s: State) {
    forall n, c :: Stale(s, n, c) ==> Fencing(s, n, c) && !ServesLive(s, n, c)
  }

  /** Served under a lease the broker has replaced. */
  ghost predicate Stale(s: State, n: Node, c: Client) {
    Serves(s, n, c) && s.brokers[n].serving[c] != s.brokers[n].lease
  }

  /** Served, and being fenced. */
  ghost predicate Fencing(s: State, n: Node, c: Client) {
    Serves(s, n, c) && c in s.brokers[n].fencing
  }

  /** While a takeover key exists, the owner key is absent or names the node the takeover started from. */
  ghost predicate LockPinsOwner(s: State) {
    forall c <- s.locks ::
      s.locks[c].token in s.takeovers && (c in s.owners ==> s.owners[c].node == s.takeovers[s.locks[c].token].from)
  }

  // ---------------------------------------------------------------------------
  // The inductive invariant

  /** Serving under a live lease is always backed by the owner key under that very lease. */
  ghost predicate Backed(s: State) {
    forall n, c :: ServesLive(s, n, c) ==> c in s.owners && s.owners[c] == Owner(n, s.brokers[n].serving[c])
  }

  ghost predicate BrokerInv(s: State, b: Broker) {
    && b.lease < s.granted
    && (forall c <- b.serving :: b.serving[c] < s.granted)
    && (forall c <- b.serving :: c in b.fencing || b.serving[c] == b.lease)
    && (forall c <- b.serving ::
          c in b.tracked || c in b.fencing || (b.recovery.Detached? && c in b.recovery.lost))
    && (forall c <- b.serving :: c in b.fencing ==> b.serving[c] !in s.live)
    && b.serving.Keys !! b.releasing
    && (!b.recovery.NoRecovery? ==> b.tracked == {})
  }

  /** Once the source has closed the session it does not serve it again while this token holds the lock. */
  ghost predicate LockInv(s: State) {
    forall c <- s.locks ::
      && s.locks[c].token in s.takeovers
      && var k := s.takeovers[s.locks[c].token];
      && k.client == c && k.taker != k.from
      && (c in s.owners ==> s.owners[c].node == k.from)
      && (k.phase.HandedOff? ==> !Serves(s, k.from, c))
  }

  ghost predicate Inv(s: State) {
    && (forall l <- s.live :: l < s.granted)
    && (forall n <- s.brokers :: BrokerInv(s, s.brokers[n]))
    && Backed(s)
    && LockInv(s)
  }

  lemma InitInv(s: State)
    requires Init(s)
    ensures Inv(s)
  {
  }

  /** A local step that stops serving clients, and starts none, keeps everything the store relies on. */
  lemma LocalInv(s: State, n: Node, b': Broker)
    requires Inv(s) && n in s.brokers
    requires BrokerInv(s, b')
    requires forall c <- b'.serving :: c in s.brokers[n].serving && s.brokers[n].serving[c] == b'.serving[c]
    ensures Inv(SetBroker(s, n, b'))
  {
    var s' := SetBroker(s, n, b');
    assert forall m, c :: Serves(s', m, c) ==> Serves(s, m, c);
    assert forall m, c :: ServesLive(s', m, c) ==> ServesLive(s, m, c);
  }

  /** Handing out a lease number nobody has used yet changes nothing for the claims that exist. */
  lemma GrantInv(s: State)
    requires Inv(s)
    ensures Inv(s.(live := s.live + {s.granted}, granted := s.granted + 1))
  {
    var s' := s.(live := s.live + {s.granted}, granted := s.granted + 1);
    assert forall m, c :: Serves(s', m, c) == Serves(s, m, c);
    assert forall m, c :: ServesLive(s', m, c) == ServesLive(s, m, c);
  }

  /** Moving a takeover along keeps its key pinned, as long as a hand-off has closed the source. */
  lemma PhaseInv(s: State, t: Token, phase: Phase)
    requires Inv(s) && t in s.takeovers
    requires phase.HandedOff? ==> !Serves(s, s.takeovers[t].from, s.takeovers[t].client)
    ensures Inv(s.(takeovers := s.takeovers[t := s.takeovers[t].(phase := phase)]))
  {
    var s' := s.(takeovers := s.takeovers[t := s.takeovers[t].(phase := phase)]);
    assert forall m, c :: Serves(s', m, c) == Serves(s, m, c);
    assert forall m, c :: ServesLive(s', m, c) == ServesLive(s, m, c);
  }

  lemma ShrinkInv(s: State, locks: map<Client, Lock>)
    requires Inv(s)
    requires forall c <- locks :: c in s.locks && locks[c] == s.locks[c]
    ensures Inv(s.(locks := locks))
  {
    var s' := s.(locks := locks);
    assert forall m, c :: Serves(s', m, c) == Serves(s, m, c);
    assert forall m, c :: ServesLive(s', m, c) == ServesLive(s, m, c);
  }

  lemma ServeBrokerInv(s: State, n: Node, c: Client, acked: bool, m: Node)
    requires Inv(s) && CanPut(s, n, c) && m in s.brokers
    ensures BrokerInv(PutOwner(s, n, c, acked), PutOwner(s, n, c, acked).brokers[m])
  {
    assert BrokerInv(s, s.brokers[m]);
  }

  /** A put on the owner key is safe once no other node serves the client under a live lease. */
  lemma PutInv(s: State, n: Node, c: Client, acked: bool)
    requires Inv(s) && CanPut(s, n, c) && c !in s.locks
    requires forall m :: ServesLive(s, m, c) ==> m == n
    ensures Inv(PutOwner(s, n, c, acked))
  {
    var s' := PutOwner(s, n, c, acked);
    forall m <- s'.brokers ensures BrokerInv(s', s'.brokers[m]) {
      ServeBrokerInv(s, n, c, acked, m);
    }
    forall m, d | ServesLive(s', m, d) ensures d in s'.owners && s'.owners[d] == Owner(m, s'.brokers[m].serving[d]) {
      assert m == n && d == c ==> BrokerInv(s, s.brokers[n]);
      assert m != n || d != c ==> ServesLive(s, m, d);
    }
    assert forall m, d :: d != c && Serves(s', m, d) ==> Serves(s, m, d);
  }

  lemma ClaimStepInv(s: State, step: Step)
    requires Inv(s) && Enabled(s, step) && (step.Claim? || step.Renew?)
    ensures Inv(Apply(s, step))
  {
    assert forall m :: ServesLive(s, m, step.c) ==> OwnedBy(s, step.c, m);
    PutInv(s, step.n, step.c, step.acked);
  }

  lemma DeleteOwnerInv(s: State, c: Client)
    requires Inv(s)
    requires forall m :: !ServesLive(s, m, c)
    ensures Inv(s.(owners := s.owners - {c}))
  {
    var s' := s.(owners := s.owners - {c});
    assert forall m, d :: Serves(s', m, d) == Serves(s, m, d);
    assert forall m, d :: ServesLive(s', m, d) == ServesLive(s, m, d);
  }

  lemma ExpireInv(s: State, l: Lease)
    requires Inv(s)
    ensures Inv(DropLease(s, l))
  {
    var s' := DropLease(s, l);
    assert forall m, d :: Serves(s', m, d) == Serves(s, m, d);
    assert forall m, d :: ServesLive(s', m, d) ==> ServesLive(s, m, d);
  }

  /** The source of a takeover cannot be serving when its hand-off is finalized. */
  lemma FinalizeInv(s: State, t: Token, acked: bool)
    requires Inv(s) && HoldsLock(s, t)
    requires var k := s.takeovers[t];
      k.phase.HandedOff? && CanPut(s, k.taker, k.client) && (k.client in s.owners ==> OwnedBy(s, k.client, k.from))
    ensures Inv(Finalize(s, t, acked))
  {
    var k := s.takeovers[t];
    var unlocked := s.(locks := s.locks - {k.client});
    ShrinkInv(s, unlocked.locks);
    forall m | ServesLive(unlocked, m, k.client) ensures false {
      assert ServesLive(s, m, k.client);
    }
    PutInv(unlocked, k.taker, k.client, acked);
    PhaseInv(PutOwner(unlocked, k.taker, k.client, acked), t, Ended);
  }

  lemma TakeLockInv(s: State, n: Node, c: Client, from: Node, t: Token, acked: bool)
    requires Inv(s) && Enabled(s, TakeLock(n, c, from, t, acked))
    ensures Inv(Apply(s, TakeLock(n, c, from, t, acked)))
  {
    var s' := Apply(s, TakeLock(n, c, from, t, acked));
    assert forall m, d :: Serves(s', m, d) == Serves(s, m, d);
    assert forall m, d :: ServesLive(s', m, d) == ServesLive(s, m, d);
  }

  lemma EndAllInv(s: State, n: Node)
    requires Inv(s)
    ensures Inv(s.(takeovers := EndAll(s.takeovers, n)))
  {
    var s' := s.(takeovers := EndAll(s.takeovers, n));
    assert forall m, d :: Serves(s', m, d) == Serves(s, m, d);
    assert forall m, d :: ServesLive(s', m, d) == ServesLive(s, m, d);
  }

  lemma RestartInv(s: State, n: Node)
    requires Inv(s) && n in s.brokers
    ensures Inv(Apply(s, Restart(n)))
  {
    GrantInv(s);
    hide Inv;
    var g := s.(live := s.live + {s.granted}, granted := s.granted + 1);
    var b' := Broker(s.granted, {}, map[], {}, {}, NoRecovery);
    assert BrokerInv(g, b');
    hide BrokerInv;
    LocalInv(g, n, b');
    EndAllInv(SetBroker(g, n, b'), n);
    hide EndAll;
    assert Apply(s, Restart(n)) == SetBroker(g, n, b').(takeovers := EndAll(s.takeovers, n));
  }

  lemma FenceStepInv(s: State, step: Step)
    requires Inv(s) && Enabled(s, step) && (step.FenceLost? || step.FenceNotify?)
    ensures Inv(Apply(s, step))
  {
    var b := s.brokers[step.n];
    assert BrokerInv(s, b);
    if step.FenceLost? && step.c in b.serving && b.serving[step.c] in s.live {
      assert ServesLive(s, step.n, step.c);
      assert false;
    }
    LocalInv(s, step.n, Apply(s, step).brokers[step.n]);
  }

  lemma ReleaseStepInv(s: State, step: Step)
    requires Inv(s) && Enabled(s, step) && (step.ReleaseUntrack? || step.ReleaseDelete? || step.ReleaseFail?)
    ensures Inv(Apply(s, step))
  {
    var n, c := step.n, step.c;
    assert BrokerInv(s, s.brokers[n]);
    var s' := SetBroker(s, n, Apply(s, step).brokers[n]);
    LocalInv(s, n, s'.brokers[n]);
    if step.ReleaseDelete? && OwnedBy(s, c, n) {
      forall m ensures !ServesLive(s', m, c) {
        if ServesLive(s', m, c) {
          assert ServesLive(s, m, c);
          assert false;
        }
      }
      DeleteOwnerInv(s', c);
    }
  }

  lemma RecoveryStepInv(s: State, step: Step)
    requires Inv(s) && Enabled(s, step)
    requires step.RecoveryDetach? || step.RecoveryNotify? || step.RecoveryGrant? || step.RecoveryFail?
    ensures Inv(Apply(s, step))
  {
    var b := s.brokers[step.n];
    assert BrokerInv(s, b);
    if step.RecoveryGrant? {
      var g := s.(live := s.live + {s.granted}, granted := s.granted + 1);
      GrantInv(s);
      LocalInv(g, step.n, b.(lease := s.granted, recovery := NoRecovery));
    } else {
      LocalInv(s, step.n, Apply(s, step).brokers[step.n]);
    }
  }

  lemma HandOffInv(s: State, t: Token, acked: bool)
    requires Inv(s) && Enabled(s, HandOff(t, acked))
    ensures Inv(Apply(s, HandOff(t, acked)))
  {
    var k := s.takeovers[t];
    assert BrokerInv(s, s.brokers[k.from]);
    var b' := Unserve(s.brokers[k.from], {k.client});
    LocalInv(s, k.from, b');
    if acked {
      PhaseInv(SetBroker(s, k.from, b'), t, HandedOff);
    }
  }

  lemma LockStepInv(s: State, step: Step)
    requires Inv(s) && Enabled(s, step) && (step.ReleaseLock? || step.Abandon?)
    ensures Inv(Apply(s, step))
  {
    PhaseInv(s, step.t, Ended);
    if step.ReleaseLock? && HoldsLock(s, step.t) {
      ShrinkInv(EndTakeover(s, step.t), s.locks - {s.takeovers[step.t].client});
    }
  }

  /** Every step of every broker, and every expiry, keeps the invariant. */
  lemma StepInv(s: State, step: Step)
    requires Inv(s) && Enabled(s, step)
    ensures Inv(Apply(s, step))
  {
    hide Inv;
    match step
    case Claim(_, _, _) => ClaimStepInv(s, step);
    case Renew(_, _, _) => ClaimStepInv(s, step);
    case FenceLost(_, _) => FenceStepInv(s, step);
    case FenceNotify(_, _) => FenceStepInv(s, step);
    case ReleaseUntrack(_, _) => ReleaseStepInv(s, step);
    case ReleaseDelete(_, _) => ReleaseStepInv(s, step);
    case ReleaseFail(_, _) => ReleaseStepInv(s, step);
    case RecoveryDetach(_) => RecoveryStepInv(s, step);
    case RecoveryNotify(_) => RecoveryStepInv(s, step);
    case RecoveryGrant(_) => RecoveryStepInv(s, step);
    case RecoveryFail(_) => RecoveryStepInv(s, step);
    case TakeLock(n, c, from, t, acked) => TakeLockInv(s, n, c, from, t, acked);
    case HandOff(t, acked) => HandOffInv(s, t, acked);
    case FinalizeMoved(t, acked) => FinalizeInv(s, t, acked);
    case FinalizeAbsent(t, acked) => FinalizeInv(s, t, acked);
    case ReleaseLock(_) => LockStepInv(s, step);
    case Abandon(_) => LockStepInv(s, step);
    case Expire(l) => ExpireInv(s, l);
    case Restart(n) => RestartInv(s, n);
  }

  lemma Extend(states: seq<State>, steps: seq<Step>, step: Step) returns (s: State)
    requires Behaviour(states, steps) && Enabled(states[|steps|], step)
    ensures s == Apply(states[|steps|], step)
    ensures Behaviour(states + [s], steps + [step])
  {
    s := Apply(states[|steps|], step);
    forall i: nat | i <= |steps| ensures StepAt(states + [s], steps + [step], i) {
      assert i < |steps| ==> StepAt(states, steps, i);
    }
  }

  lemma {:induction false} BehaviourInv(states: seq<State>, steps: seq<Step>, i: nat)
    requires Behaviour(states, steps) && i < |states|
    ensures Inv(states[i])
  {
    if i == 0 {
      InitInv(states[0]);
    } else {
      BehaviourInv(states, steps, i - 1);
      assert StepAt(states, steps, i - 1);
      StepInv(states[i - 1], steps[i - 1]);
    }
  }

  // ---------------------------------------------------------------------------
  // Main results

  /**
   In every state of every run no client is served by two brokers whose claims
   are both still honoured, and every connection was claimed under its broker's
   current lease unless it is already being fenced and the lease it has is dead.
   */
  lemma NoTwoBrokersServe(states: seq<State>, steps: seq<Step>, i: nat)
    requires Behaviour(states, steps) && i < |states|
    ensures NoSplit(states[i]) && ClaimsCurrent(states[i]) && StaleIsDead(states[i]) && LockPinsOwner(states[i])
  {
    BehaviourInv(states, steps, i);
    forall n, c | Serves(states[i], n, c)
      ensures Stale(states[i], n, c) ==> Fencing(states[i], n, c) && !ServesLive(states[i], n, c)
    {
      assert BrokerInv(states[i], states[i].brokers[n]);
    }
  }

  /**
   The owner key passes directly from one broker to another only when the holder
   of that takeover key's exact token finalizes, and the key is gone afterwards.
   */
  lemma OwnerMovesOnlyByFinalize(states: seq<State>, steps: seq<Step>, i: nat, c: Client)
    requires Behaviour(states, steps) && i < |steps|
    requires c in states[i].owners && c in states[i + 1].owners
    requires states[i].owners[c].node != states[i + 1].owners[c].node
    ensures steps[i].FinalizeMoved?
    ensures c in states[i].locks && states[i].locks[c].token == steps[i].t
    ensures c !in states[i + 1].locks
    ensures steps[i].t in states[i].takeovers && var k := states[i].takeovers[steps[i].t];
      k.from == states[i].owners[c].node && k.taker == states[i + 1].owners[c].node
  {
    BehaviourInv(states, steps, i);
    var s, step := states[i], steps[i];
    assert StepAt(states, steps, i);
    if step.FinalizeMoved? || step.FinalizeAbsent? {
      assert s.takeovers[step.t].client == c;
    }
  }

  ghost predicate Spent(s: State, t: Token) {
    t in s.takeovers && forall c <- s.locks :: s.locks[c].token != t
  }

  lemma SpentStays(s: State, step: Step, t: Token)
    requires Enabled(s, step) && Spent(s, t)
    ensures Spent(Apply(s, step), t)
  {
  }

  /** A token finalizes at most once: from then on no takeover key carries it, whatever happens. */
  lemma {:induction false} FinalizeSpendsToken(states: seq<State>, steps: seq<Step>, i: nat, j: nat)
    requires Behaviour(states, steps) && i < j < |states|
    requires steps[i].FinalizeMoved? || steps[i].FinalizeAbsent?
    ensures Spent(states[j], steps[i].t)
    ensures j < |steps| && (steps[j].FinalizeMoved? || steps[j].FinalizeAbsent?) ==> steps[j].t != steps[i].t
  {
    if j == i + 1 {
      BehaviourInv(states, steps, i);
      var s, t := states[i], steps[i].t;
      assert StepAt(states, steps, i);
      forall c <- states[j].locks ensures states[j].locks[c].token != t {
        assert s.takeovers[s.locks[c].token].client == c;
      }
    } else {
      FinalizeSpendsToken(states, steps, i, j - 1);
      assert StepAt(states, steps, j - 1);
      SpentStays(states[j - 1], steps[j - 1], steps[i].t);
    }
    assert j < |steps| ==> StepAt(states, steps, j);
  }

  /** The client whose keys a step is about, if it is about one. */
  function ClientOf(s: State, step: Step): Option<Client>
    requires Enabled(s, step)
  {
    match step
    case Claim(_, c, _) => Some(c)
    case Renew(_, c, _) => Some(c)
    case ReleaseDelete(_, c) => Some(c)
    case TakeLock(_, c, _, _, _) => Some(c)
    case FinalizeMoved(t, _) => Some(s.takeovers[t].client)
    case FinalizeAbsent(t, _) => Some(s.takeovers[t].client)
    case ReleaseLock(t) => Some(s.takeovers[t].client)
    case _ => None
  }

  /** The broker a step changes, if it changes one. */
  function BrokerOf(s: State, step: Step): Option<Node>
    requires Enabled(s, step)
  {
    match step
    case HandOff(t, _) => Some(s.takeovers[t].from)
    case FinalizeMoved(t, _) => Some(s.takeovers[t].taker)
    case FinalizeAbsent(t, _) => Some(s.takeovers[t].taker)
    case TakeLock(_, _, _, _, _) => None
    case ReleaseLock(_) => None
    case Abandon(_) => None
    case Expire(_) => None
    case _ => Some(step.n)
  }

  /** A step touches no other client's keys and no other broker; the end of a lease only the keys under it. */
  lemma StepTouchesOnly(s: State, step: Step, d: Client, m: Node)
    requires Enabled(s, step)
    ensures var s' := Apply(s, step);
      && (ClientOf(s, step) != Some(d) && !step.Expire? ==> SameKeys(s, s', d))
      && (step.Expire? ==>
            && (d in s'.owners <==> d in s.owners && s.owners[d].lease != step.l)
            && (d in s'.locks <==> d in s.locks && s.locks[d].lease != step.l)
            && (d in s'.owners ==> s'.owners[d] == s.owners[d]) && (d in s'.locks ==> s'.locks[d] == s.locks[d]))
      && (BrokerOf(s, step) != Some(m) ==> (m in s'.brokers <==> m in s.brokers))
      && (BrokerOf(s, step) != Some(m) && m in s.brokers ==> s'.brokers[m] == s.brokers[m])
  {
  }

  ghost predicate SameKeys(s: State, s': State, d: Client) {
    && (d in s'.owners <==> d in s.owners) && (d in s.owners ==> s'.owners[d] == s.owners[d])
    && (d in s'.locks <==> d in s.locks) && (d in s.locks ==> s'.locks[d] == s.locks[d])
  }

  /** The delete of a release takes the owner key if it is this broker's, and leaves anybody else's. */
  lemma ReleaseTakesOwnKey(s: State, n: Node, c: Client)
    requires Inv(s) && Enabled(s, ReleaseDelete(n, c))
    ensures var s' := Apply(s, ReleaseDelete(n, c));
      && !OwnedBy(s', c, n) && !Serves(s', n, c) && s'.locks == s.locks
      && forall d :: (d in s'.owners <==> d in s.owners && (d != c || s.owners[d].node != n))
                     && (d in s'.owners ==> s'.owners[d] == s.owners[d])
  {
    assert BrokerInv(s, s.brokers[n]);
  }

  /** A broker that starts again tracks and serves nothing, under a lease it never had. */
  lemma RestartForgets(s: State, n: Node, t: Token)
    requires Inv(s) && Enabled(s, Restart(n))
    ensures var s' := Apply(s, Restart(n)); var b := s'.brokers[n];
      && b.tracked == {} && b.serving == map[] && b.fencing == {} && b.releasing == {} && b.recovery.NoRecovery?
      && b.lease in s'.live && b.lease !in s.live && b.lease != s.brokers[n].lease
      && s'.owners == s.owners && s'.locks == s.locks
      && (t in s.takeovers && s.takeovers[t].taker == n ==> s'.takeovers[t].phase.Ended?)
  {
    assert BrokerInv(s, s.brokers[n]);
  }

  /** One broker, one client: the store and the broker as the window below passes through them. */
  function Window(owned: bool, live: set<Lease>, granted: nat, b: Broker): State {
    State(if owned then map["c" := Owner("n", 0)] else map[], map[], live, granted, map["n" := b], map[])
  }

  const W0 := Window(false, {0}, 1, Broker(0, {}, map[], {}, {}, NoRecovery))
  const W1 := Window(true, {0}, 1, Broker(0, {"c"}, map["c" := 0], {}, {}, NoRecovery))
  const W2 := Window(false, {}, 1, Broker(0, {"c"}, map["c" := 0], {}, {}, NoRecovery))
  const W3 := Window(false, {}, 1, Broker(0, {}, map["c" := 0], {"c"}, {}, NoRecovery))
  const W4 := Window(false, {}, 1, Broker(0, {}, map["c" := 0], {"c"}, {}, Detached({})))
  const W5 := Window(false, {}, 1, Broker(0, {}, map["c" := 0], {"c"}, {}, Fenced))
  const W6 := Window(false, {1}, 2, Broker(1, {}, map["c" := 0], {"c"}, {}, NoRecovery))

  lemma FirstHalf()
    ensures Enabled(W0, Claim("n", "c", true)) && Apply(W0, Claim("n", "c", true)) == W1
    ensures Enabled(W1, Expire(0)) && Apply(W1, Expire(0)) == W2
    ensures Enabled(W2, FenceLost("n", "c")) && Apply(W2, FenceLost("n", "c")) == W3
  {
    assert Serve(W0.brokers["n"], "c") == W1.brokers["n"];
  }

  lemma SecondHalf()
    ensures Enabled(W3, RecoveryDetach("n")) && Apply(W3, RecoveryDetach("n")) == W4
    ensures Enabled(W4, RecoveryNotify("n")) && Apply(W4, RecoveryNotify("n")) == W5
    ensures Enabled(W5, RecoveryGrant("n")) && Apply(W5, RecoveryGrant("n")) == W6
  {
    assert Unserve(W4.brokers["n"], {}) == W4.brokers["n"];
  }

  /**
   The exception in ClaimsCurrent is needed: fenceLostSessionClaim untracks the
   key before it closes the connection, so a lease recovery that falls between
   the two does not see the client and leaves it served under the old lease.
   */
  lemma FenceWindow() returns (states: seq<State>, steps: seq<Step>)
    ensures Behaviour(states, steps)
    ensures var s := states[|steps|];
      Serves(s, "n", "c") && s.brokers["n"].serving["c"] != s.brokers["n"].lease && !ServesLive(s, "n", "c")
  {
    hide Enabled, Apply;
    FirstHalf();
    SecondHalf();
    states := [W0, W1, W2, W3, W4, W5, W6];
    steps := [Claim("n", "c", true), Expire(0), FenceLost("n", "c"),
              RecoveryDetach("n"), RecoveryNotify("n"), RecoveryGrant("n")];
  }

  /** The broker was granted a new lease at step j while this session was being fenced, and it has been since. */
  ghost predicate GrantedWhileFencing(states: seq<State>, steps: seq<Step>, j: nat, i: nat, n: Node, c: Client)
    requires |states| == |steps| + 1 && j < i <= |steps|
  {
    steps[j] == RecoveryGrant(n) && forall x: nat | j <= x <= i :: Fencing(states[x], n, c)
  }

  /** The broker's lease and the lease this client is served under are as they were. */
  ghost predicate LeasesKept(s: State, s': State, n: Node, c: Client) {
    Serves(s', n, c) ==>
      && Serves(s, n, c) && s'.brokers[n].lease == s.brokers[n].lease
      && s'.brokers[n].serving[c] == s.brokers[n].serving[c]
  }

  lemma StepLeases(s: State, step: Step, n: Node, c: Client)
    requires Enabled(s, step)
    ensures LeasesKept(s, Apply(s, step), n, c) || step == RecoveryGrant(n) || NewlyServed(s, Apply(s, step), n, c)
  {
  }

  /** Only an unfenced client starts being served, and under the broker's own lease. */
  ghost predicate NewlyServed(s: State, s': State, n: Node, c: Client) {
    n in s.brokers && c !in s.brokers[n].fencing && Serves(s', n, c) && s'.brokers[n].serving[c] == s'.brokers[n].lease
  }

  /** Only a grant that falls into the fencing makes a session stale, and only the end of the fencing cures it. */
  lemma StepStale(s: State, step: Step, n: Node, c: Client)
    requires Inv(s) && Enabled(s, step) && Serves(Apply(s, step), n, c)
    ensures Stale(Apply(s, step), n, c) ==> Stale(s, n, c) || (step == RecoveryGrant(n) && Fencing(s, n, c))
    ensures step == RecoveryGrant(n) && Serves(s, n, c) ==> Stale(Apply(s, step), n, c)
    ensures Stale(s, n, c) ==> Stale(Apply(s, step), n, c)
  {
    hide Apply;
    StepLeases(s, step, n, c);
    if n in s.brokers {
      assert BrokerInv(s, s.brokers[n]);
    }
    if step == RecoveryGrant(n) {
      GrantLeases(s, n, c);
    }
  }

  lemma GrantLeases(s: State, n: Node, c: Client)
    requires Enabled(s, RecoveryGrant(n))
    ensures var s' := Apply(s, RecoveryGrant(n));
      && s'.brokers[n].lease == s.granted && s'.brokers[n].serving == s.brokers[n].serving
      && s'.brokers[n].fencing == s.brokers[n].fencing
  {
  }

  lemma {:induction false} StaleSince(states: seq<State>, steps: seq<Step>, i: nat, n: Node, c: Client) returns (j: nat)
    requires Behaviour(states, steps) && i <= |steps| && Stale(states[i], n, c)
    ensures j < i && GrantedWhileFencing(states, steps, j, i, n, c)
    decreases i
  {
    hide Enabled, Apply, Inv;
    NoTwoBrokersServe(states, steps, i);
    if i == 0 {
      NoneServed(states[0], n, c);
    }
    BehaviourInv(states, steps, i - 1);
    assert StepAt(states, steps, i - 1);
    StepStale(states[i - 1], steps[i - 1], n, c);
    if Stale(states[i - 1], n, c) {
      j := StaleSince(states, steps, i - 1, n, c);
    } else {
      j := i - 1;
    }
  }

  lemma NoneServed(s: State, n: Node, c: Client)
    requires Init(s)
    ensures !Serves(s, n, c)
  {
  }

  lemma {:induction false} StaleUntilClosed(states: seq<State>, steps: seq<Step>, j: nat, i: nat, n: Node, c: Client)
    requires Behaviour(states, steps) && j < i <= |steps| && GrantedWhileFencing(states, steps, j, i, n, c)
    ensures Stale(states[i], n, c)
    decreases i
  {
    hide Enabled, Apply, Inv;
    BehaviourInv(states, steps, i - 1);
    assert StepAt(states, steps, i - 1);
    assert Fencing(states[i], n, c) && Fencing(states[i - 1], n, c);
    if j < i - 1 {
      StaleUntilClosed(states, steps, j, i - 1, n, c);
    }
    StepStale(states[i - 1], steps[i - 1], n, c);
  }

  /** A session is served under a replaced lease if and only if its broker was granted a new one while fencing it. */
  lemma StaleExactly(states: seq<State>, steps: seq<Step>, i: nat, n: Node, c: Client)
    requires Behaviour(states, steps) && i <= |steps|
    ensures Stale(states[i], n, c) <==> exists j: nat :: j < i && GrantedWhileFencing(states, steps, j, i, n, c)
  {
    if Stale(states[i], n, c) {
      var j := StaleSince(states, steps, i, n, c);
    }
    forall j: nat | j < i && GrantedWhileFencing(states, steps, j, i, n, c) ensures Stale(states[i], n, c) {
      StaleUntilClosed(states, steps, j, i, n, c);
    }
  }

  /** Every key hangs on a lease the store still honours, so a key nobody removes goes with its lease. */
  ghost predicate KeysHang(s: State) {
    (forall c <- s.locks :: s.locks[c].lease in s.live) && (forall c <- s.owners :: s.owners[c].lease in s.live)
  }

  lemma StepKeysHang(s: State, step: Step)
    requires KeysHang(s) && Enabled(s, step)
    ensures KeysHang(Apply(s, step))
  {
  }

  lemma {:induction false} KeysHangAlways(states: seq<State>, steps: seq<Step>, i: nat)
    requires Behaviour(states, steps) && i < |states|
    ensures KeysHang(states[i])
  {
    if i > 0 {
      KeysHangAlways(states, steps, i - 1);
      assert StepAt(states, steps, i - 1);
      StepKeysHang(states[i - 1], steps[i - 1]);
    }
  }

  /** A takeover key, under this lease, whose call has ended. */
  ghost predicate Orphan(s: State, t: Token, l: Lease) {
    HoldsLock(s, t) && s.takeovers[t].phase.Ended? && s.locks[s.takeovers[t].client].lease == l
  }

  /**
   A call leaves its takeover key behind: the answer to taking it is lost, its
   release is given up, or its broker restarts while the call is under way.
   */
  ghost predicate LeftAt(s: State, step: Step, t: Token, l: Lease) {
    || (step.TakeLock? && step.t == t && !step.acked && step.n in s.brokers && s.brokers[step.n].lease == l)
    || (HoldsLock(s, t) && !s.takeovers[t].phase.Ended? && s.locks[s.takeovers[t].client].lease == l
        && (step == Abandon(t) || step == Restart(s.takeovers[t].taker)))
  }

  /** A key is orphaned in one of these ways only. */
  lemma StepOrphans(s: State, step: Step, t: Token, l: Lease)
    requires Enabled(s, step) && Orphan(Apply(s, step), t, l)
    ensures Orphan(s, t, l) || LeftAt(s, step, t, l)
  {
  }

  /** It becomes one. */
  lemma StepLeaves(s: State, step: Step, t: Token, l: Lease)
    requires Enabled(s, step) && LeftAt(s, step, t, l)
    ensures Orphan(Apply(s, step), t, l)
  {
  }

  /** And it stays one as long as its lease lives. */
  lemma StepKeepsOrphan(s: State, step: Step, t: Token, l: Lease)
    requires Enabled(s, step) && Orphan(s, t, l) && l in Apply(s, step).live
    ensures Orphan(Apply(s, step), t, l)
  {
  }

  /** A lease that lives now and is not new lived before. */
  lemma StepLived(s: State, step: Step, l: Lease)
    requires Enabled(s, step) && l in Apply(s, step).live && l < s.granted
    ensures l in s.live
  {
  }

  lemma StepGranted(s: State, step: Step)
    requires Enabled(s, step)
    ensures s.granted <= Apply(s, step).granted
  {
  }

  lemma {:induction false} OrphanSince(states: seq<State>, steps: seq<Step>, i: nat, t: Token, l: Lease)
    returns (j: nat)
    requires Behaviour(states, steps) && i <= |steps| && Orphan(states[i], t, l)
    ensures j < i && LeftAt(states[j], steps[j], t, l)
    decreases i
  {
    hide Enabled, Apply, LeftAt;
    assert i > 0;
    assert StepAt(states, steps, i - 1);
    StepOrphans(states[i - 1], steps[i - 1], t, l);
    if Orphan(states[i - 1], t, l) {
      j := OrphanSince(states, steps, i - 1, t, l);
    } else {
      j := i - 1;
    }
  }

  /** The lease a key is left behind under has been granted by then. */
  lemma LeftUnderGranted(s: State, step: Step, t: Token, l: Lease)
    requires Inv(s) && KeysHang(s) && Enabled(s, step) && LeftAt(s, step, t, l)
    ensures l < s.granted
  {
    if step.TakeLock? {
      assert BrokerInv(s, s.brokers[step.n]);
    }
  }

  lemma {:induction false} OrphanUntilExpiry(states: seq<State>, steps: seq<Step>, j: nat, i: nat, t: Token, l: Lease)
    requires Behaviour(states, steps) && j < i <= |steps| && LeftAt(states[j], steps[j], t, l) && l in states[i].live
    ensures Orphan(states[i], t, l) && l < states[i].granted
    decreases i
  {
    hide Enabled, Apply, LeftAt, Inv, KeysHang, Orphan;
    var s, step := states[i - 1], steps[i - 1];
    assert StepAt(states, steps, i - 1);
    GrantedGrows(states, steps, j, i - 1);
    BehaviourInv(states, steps, j);
    KeysHangAlways(states, steps, j);
    assert StepAt(states, steps, j);
    LeftUnderGranted(states[j], steps[j], t, l);
    StepGranted(s, step);
    StepLived(s, step, l);
    if j < i - 1 {
      OrphanUntilExpiry(states, steps, j, i - 1, t, l);
      StepKeepsOrphan(s, step, t, l);
    } else {
      StepLeaves(s, step, t, l);
    }
  }

  lemma {:induction false} GrantedGrows(states: seq<State>, steps: seq<Step>, j: nat, i: nat)
    requires Behaviour(states, steps) && j <= i <= |steps|
    ensures states[j].granted <= states[i].granted
    decreases i
  {
    hide Enabled, Apply;
    if j < i {
      GrantedGrows(states, steps, j, i - 1);
      assert StepAt(states, steps, i - 1);
      StepGranted(states[i - 1], steps[i - 1]);
    }
  }

  /**
   A takeover key whose call has ended is there if and only if the call left it
   behind and the lease it was taken under still lives.
   */
  lemma LeftBehindExactly(states: seq<State>, steps: seq<Step>, i: nat, t: Token, l: Lease)
    requires Behaviour(states, steps) && i <= |steps|
    ensures Orphan(states[i], t, l)
       <==> l in states[i].live && exists j: nat :: j < i && LeftAt(states[j], steps[j], t, l)
  {
    hide LeftAt;
    KeysHangAlways(states, steps, i);
    if Orphan(states[i], t, l) {
      var j := OrphanSince(states, steps, i, t, l);
    }
    forall j: nat | j < i && LeftAt(states[j], steps[j], t, l) && l in states[i].live ensures Orphan(states[i], t, l) {
      OrphanUntilExpiry(states, steps, j, i, t, l);
    }
  }

  /** A token once drawn stays drawn. */
  lemma {:induction false} LeftIsDrawn(states: seq<State>, steps: seq<Step>, j: nat, i: nat, t: Token, l: Lease)
    requires Behaviour(states, steps) && j < i <= |steps| && LeftAt(states[j], steps[j], t, l)
    ensures t in states[i].takeovers
    decreases i
  {
    assert StepAt(states, steps, i - 1);
    if j < i - 1 {
      LeftIsDrawn(states, steps, j, i - 1, t, l);
    }
  }

  const IDLE0 := Broker(0, {}, map[], {}, {}, NoRecovery)
  const IDLE1 := Broker(1, {}, map[], {}, {}, NoRecovery)
  const SERVING0 := Broker(0, {"c"}, map["c" := 0], {}, {}, NoRecovery)

  const L0 := State(map[], map[], {0, 1}, 2, map["m" := IDLE0, "n" := IDLE1], map[])
  const L1 := L0.(owners := map["c" := Owner("m", 0)], brokers := map["m" := SERVING0, "n" := IDLE1])
  const L2 := L1.(locks := map["c" := Lock("t", 1)], takeovers := map["t" := Takeover("c", "n", "m", Ended)])

  lemma LockSteps()
    ensures Enabled(L0, Claim("m", "c", true)) && Apply(L0, Claim("m", "c", true)) == L1
    ensures Enabled(L1, TakeLock("n", "c", "m", "t", false)) && Apply(L1, TakeLock("n", "c", "m", "t", false)) == L2
  {
    assert Serve(IDLE0, "c") == SERVING0;
  }

  /**
   A run in which the answer to taking the lock is lost: the call has ended, its key
   stays, and with it nobody can claim or take over the client.
   */
  lemma KeyLeftBehind() returns (states: seq<State>, steps: seq<Step>)
    ensures Behaviour(states, steps) && Orphan(states[|steps|], "t", 1)
    ensures forall n, acked :: !Enabled(states[|steps|], Claim(n, "c", acked))
    ensures forall n, from, t, acked :: !Enabled(states[|steps|], TakeLock(n, "c", from, t, acked))
  {
    hide Apply;
    LockSteps();
    states := [L0, L1, L2];
    steps := [Claim("m", "c", true), TakeLock("n", "c", "m", "t", false)];
  }

  // ---------------------------------------------------------------------------
  // The calls themselves

  /** What becomes of a remote call: it is answered, its answer is lost, or it never arrives. */
  datatype Fate = Answered | AnswerLost | NeverArrives

  /** The reply to a transaction on the owner key; of a transaction without one the caller knows nothing. */
  datatype Txn = Committed | LeaseNotFound(lease: Lease) | Refused(owner: Option<Node>, locked: bool) | Unknown

  /** The reply tells the truth about the keys at that moment. */
  ghost predicate Answers(s: State, n: Node, c: Client, r: Txn) {
    match r
    case Committed => ServesLive(s, n, c) && OwnedBy(s, c, n) && c !in s.locks
    case LeaseNotFound(lease) => n in s.brokers && lease == s.brokers[n].lease && lease !in s.live
    case Refused(owner, locked) =>
      && (locked <==> c in s.locks) && (owner.Some? <==> c in s.owners)
      && (c in s.owners ==> owner.value == s.owners[c].node)
    case Unknown => true
  }

  datatype TakeoverResult =
    | SameNode
    | TakenOver
    | LockBusy
    | SourceNotOwner
    | LeaseGone
    | HandOffFailed
    | LockLost
    | OwnerChanged
    | TakeoverUnknown

  /** What becomes of the calls of one takeover: the lock, the source, the two finalizing transactions, the release. */
  datatype TakeoverFates = TakeoverFates(lock: Fate, source: Fate, move: Fate, moveAbsent: Fate, release: Fate)

  /** What one of the two finalizing transactions comes to. */
  datatype Move = Moved | NoMatch | MoveLeaseGone | MoveUnknown

  datatype AcquireResult =
    | Acquired
    | TakeoverInProgress
    | OwnershipLost
    | OwnedByOther(owner: Node)
    | OwnedByNobody
    | RecoveryFailed
    | RecoveryExhausted
    | AcquireUnknown

  /** What becomes of the calls of one attempt: the two transactions, the grant, the keys put back under it. */
  datatype AttemptFates = AttemptFates(claim: Fate, renew: Fate, granted: bool, restored: bool)

  /** Steps no other thread takes while this broker runs a call for this client under its client lock. */
  predicate Exclusive(step: Step, n: Node, c: Client) {
    match step
    case Claim(m, d, _) => m == n && d == c
    case Renew(m, d, _) => m == n && d == c
    case FenceLost(m, d) => m == n && d == c
    case FenceNotify(m, d) => m == n && d == c
    case ReleaseUntrack(m, d) => m == n && d == c
    case ReleaseDelete(m, d) => m == n && d == c
    case ReleaseFail(m, d) => m == n && d == c
    case TakeLock(m, d, _, _, _) => m == n && d == c
    case Restart(m) => m == n
    case _ => false
  }

  /** Steps that only the thread that drew this token takes. */
  predicate OfToken(step: Step, mine: Token) {
    match step
    case TakeLock(_, _, _, t, _) => t == mine
    case HandOff(t, _) => t == mine
    case FinalizeMoved(t, _) => t == mine
    case FinalizeAbsent(t, _) => t == mine
    case ReleaseLock(t) => t == mine
    case Abandon(t) => t == mine
    case _ => false
  }

  predicate Recovers(step: Step, n: Node) {
    (step.RecoveryDetach? || step.RecoveryNotify? || step.RecoveryGrant? || step.RecoveryFail?) && step.n == n
  }

  ghost predicate Idle(s: State, n: Node, c: Client) {
    n in s.brokers && c !in s.brokers[n].fencing && c !in s.brokers[n].releasing
  }

  /** What leaseRecoveryMu keeps the other threads of a broker from changing. */
  ghost predicate HeldStill(was: State, s: State, n: Node) {
    && n in was.brokers && n in s.brokers
    && s.brokers[n].recovery == was.brokers[n].recovery && s.brokers[n].lease == was.brokers[n].lease
  }

  ghost predicate TokenStill(was: State, s: State, t: Token) {
    && (t in s.takeovers <==> t in was.takeovers)
    && (t in s.takeovers ==> s.takeovers[t] == was.takeovers[t])
  }

  lemma OthersKeepIdle(s: State, step: Step, n: Node, c: Client)
    requires Enabled(s, step) && Idle(s, n, c) && !Exclusive(step, n, c)
    ensures Idle(Apply(s, step), n, c)
  {
  }

  lemma OthersKeepReleasing(s: State, step: Step, n: Node, c: Client)
    requires Enabled(s, step) && n in s.brokers && c in s.brokers[n].releasing && c !in s.brokers[n].fencing
    requires !Exclusive(step, n, c)
    ensures var s' := Apply(s, step);
      && n in s'.brokers && c in s'.brokers[n].releasing && c !in s'.brokers[n].fencing
      && (c in s'.brokers[n].tracked ==> c in s.brokers[n].tracked)
  {
  }

  lemma OthersKeepToken(s: State, step: Step, n: Node, c: Client, t: Token)
    requires Enabled(s, step) && Idle(s, n, c) && !Exclusive(step, n, c) && !OfToken(step, t)
    requires t in s.takeovers ==> s.takeovers[t].taker == n
    ensures TokenStill(s, Apply(s, step), t)
  {
  }

  /** The takeover key can only go, and while it stays an absent owner key stays absent. */
  ghost predicate KeyStill(was: State, s: State, t: Token) {
    t in was.takeovers && t in s.takeovers && HoldsLock(s, t) ==>
      && s.takeovers[t].client == was.takeovers[t].client
      && HoldsLock(was, t) && s.locks[s.takeovers[t].client] == was.locks[s.takeovers[t].client]
      && (s.takeovers[t].client !in was.owners ==> s.takeovers[t].client !in s.owners)
  }

  lemma OthersKeepKey(s: State, step: Step, n: Node, c: Client, t: Token)
    requires Enabled(s, step) && Idle(s, n, c) && !Exclusive(step, n, c) && !OfToken(step, t)
    requires t in s.takeovers ==> s.takeovers[t].taker == n
    ensures KeyStill(s, Apply(s, step), t)
  {
  }

  /** If the takeover key is still there, it is this one. */
  ghost predicate Under(s: State, t: Token, lock: Lock) {
    HoldsLock(s, t) ==> s.locks[s.takeovers[t].client] == lock
  }

  /** The takeover key hangs on a lease this broker had at some moment since. */
  ghost predicate LeftBehind(states: seq<State>, since: nat, n: Node, c: Client, s: State) {
    c in s.locks && exists j: nat ::
      since <= j < |states| && n in states[j].brokers && states[j].brokers[n].lease == s.locks[c].lease
  }

  /** Since then a call has left this takeover key behind, under a lease that still lives. */
  ghost predicate LeftSince(states: seq<State>, steps: seq<Step>, since: nat, t: Token, s: State)
    requires |states| == |steps| + 1
  {
    exists j: nat, l: Lease :: since <= j < |steps| && LeftAt(states[j], steps[j], t, l) && l in s.live
  }

  /** The step puts the owner key and tells the broker so. */
  predicate Puts(step: Step, n: Node, c: Client) {
    step == Claim(n, c, true) || step == Renew(n, c, true)
  }

  /** The step moves the owner key for this token and tells the taker so. */
  predicate Finishes(step: Step, t: Token) {
    step == FinalizeMoved(t, true) || step == FinalizeAbsent(t, true)
  }

  /** Since then nothing was put for this client by this broker, and nothing was finalized for this token. */
  ghost predicate Quiet(was: seq<Step>, now: seq<Step>, n: Node, c: Client, t: Token) {
    was <= now && forall i | |was| <= i < |now| :: !Puts(now[i], n, c) && !Finishes(now[i], t)
  }

  lemma QuietStill(a: seq<Step>, b: seq<Step>, now: seq<Step>, n: Node, c: Client, t: Token)
    requires Quiet(a, b, n, c, t) && Quiet(b, now, n, c, t)
    ensures Quiet(a, now, n, c, t)
  {
    assert forall i | |a| <= i < |b| :: now[i] == b[i];
  }

  /** The last thing that happened since then. */
  ghost predicate EndsWithPut(was: seq<Step>, now: seq<Step>, n: Node, c: Client) {
    |was| < |now| && was <= now && Puts(now[|now| - 1], n, c)
  }

  ghost predicate EndsWithMove(was: seq<Step>, now: seq<Step>, t: Token) {
    |was| < |now| && was <= now && Finishes(now[|now| - 1], t)
  }

  lemma QuietEnd(was: seq<Step>, now: seq<Step>, n: Node, c: Client)
    requires Quiet(was, now, n, c, NO_TOKEN)
    ensures !EndsWithPut(was, now, n, c)
  {
  }

  /** A lease ended since then. */
  ghost predicate LeaseEnded(steps: seq<Step>, since: nat, l: Lease) {
    exists i | since <= i < |steps| :: steps[i] == Expire(l)
  }

  /** The takeover key goes only with its lease. */
  lemma OthersDropLock(s: State, step: Step, steps: seq<Step>, n: Node, c: Client, t: Token)
    requires Enabled(s, step) && !Exclusive(step, n, c) && !OfToken(step, t)
    ensures LockLasts(s, Apply(s, step), steps + [step], |steps|, t)
    ensures Quiet(steps, steps + [step], n, c, t)
  {
    assert (steps + [step])[|steps|] == step;
    if HoldsLock(s, t) {
      DropsLock(s, step, n, c, t);
    }
  }

  lemma DropsLock(s: State, step: Step, n: Node, c: Client, t: Token)
    requires Enabled(s, step) && !Exclusive(step, n, c) && !OfToken(step, t) && HoldsLock(s, t)
    ensures HoldsLock(Apply(s, step), t) || step == Expire(s.locks[s.takeovers[t].client].lease)
  {
  }

  /** The lock is there as it was, or its lease has ended. */
  ghost predicate LockLasts(was: State, s: State, steps: seq<Step>, since: nat, t: Token) {
    HoldsLock(was, t) ==> HoldsLock(s, t) || LeaseEnded(steps, since, was.locks[was.takeovers[t].client].lease)
  }

  lemma StillQuiet(steps: seq<Step>, n: Node, c: Client, t: Token)
    ensures Quiet(steps, steps, n, c, t)
  {
  }

  lemma SameKey(s: State, t: Token)
    ensures KeyStill(s, s, t)
  {
  }

  lemma KeyLasts(a: State, b: State, s: State, before: seq<Step>, steps: seq<Step>, since: nat, n: Node, c: Client,
                 t: Token)
    requires KeyStill(a, b, t) && KeyStill(b, s, t) && TokenStill(a, b, t) && TokenStill(b, s, t)
    requires LockLasts(a, b, before, since, t) && before <= steps && since <= |before|
    requires LockLasts(b, s, steps, |before|, t)
    ensures KeyStill(a, s, t) && LockLasts(a, s, steps, since, t)
  {
    if HoldsLock(a, t) && !HoldsLock(b, t) {
      var l := a.locks[a.takeovers[t].client].lease;
      var i :| since <= i < |before| && before[i] == Expire(l);
      assert steps[i] == Expire(l);
    }
  }

  lemma Lasts(s: State, steps: seq<Step>, t: Token)
    ensures LockLasts(s, s, steps, |steps|, t)
  {
  }

  /** Since then this takeover took its lock, and the lease it took it under has ended. */
  ghost predicate LockEnded(states: seq<State>, steps: seq<Step>, since: nat, n: Node, t: Token)
    requires |states| == |steps| + 1
  {
    exists j: nat | since <= j < |steps| ::
      && steps[j].TakeLock? && steps[j].t == t && steps[j].n == n && n in states[j].brokers
      && LeaseEnded(steps, j, states[j].brokers[n].lease)
  }

  lemma StillEnded(steps: seq<Step>, now: seq<Step>, since: nat, from: nat, l: Lease)
    requires LeaseEnded(steps, since, l) && steps <= now && from <= since
    ensures LeaseEnded(now, from, l)
  {
    var i :| since <= i < |steps| && steps[i] == Expire(l);
    assert now[i] == Expire(l);
  }

  lemma QuietNoMove(was: seq<Step>, now: seq<Step>, n: Node, c: Client, t: Token)
    requires Quiet(was, now, n, c, t)
    ensures !EndsWithMove(was, now, t)
  {
  }

  /** Twice since then this broker's lease was dead. */
  ghost predicate DeadTwice(states: seq<State>, since: nat, n: Node) {
    exists i, j | since <= i < j < |states| :: DeadLease(states[i], n) && DeadLease(states[j], n)
  }

  ghost predicate DeadLease(s: State, n: Node) {
    n in s.brokers && s.brokers[n].lease !in s.live
  }

  /** What a claim comes to if nobody else does anything and every answer arrives. */
  function AcquireAlone(s: State, n: Node, c: Client): AcquireResult
    requires n in s.brokers
  {
    if c in s.locks then TakeoverInProgress
    else if OwnedBy(s, c, n) || (c !in s.owners && c !in s.brokers[n].tracked) then Acquired
    else if c in s.owners then OwnedByOther(s.owners[c].node)
    else OwnershipLost
  }

  /** What a takeover comes to if nobody else does anything and every answer arrives. */
  function TakeoverAlone(s: State, c: Client, from: Node, n: Node): TakeoverResult
    requires n in s.brokers
  {
    if from == n then SameNode
    else if c in s.locks then LockBusy
    else if !OwnedBy(s, c, from) then SourceNotOwner
    else if s.brokers[n].lease !in s.live then LeaseGone
    else if from !in s.brokers then HandOffFailed
    else TakenOver
  }

  const ANSWERED := TakeoverFates(Answered, Answered, Answered, Answered, Answered)
  const IN_FULL := AttemptFates(Answered, Answered, true, true)

  /** After a recovery: nothing is tracked, and a lease that was granted lives. */
  ghost predicate Renewed(s: State, n: Node, granted: bool) {
    && n in s.brokers && s.brokers[n].tracked == {} && s.brokers[n].recovery.NoRecovery?
    && (granted ==> s.brokers[n].lease in s.live)
  }

  /** What a transaction on the owner key answers, if it answers. */
  function Reply(s: State, n: Node, c: Client, matches: bool): Txn
    requires n in s.brokers
  {
    if !matches || c in s.locks then Refused(if c in s.owners then Some(s.owners[c].node) else None, c in s.locks)
    else if s.brokers[n].lease !in s.live then LeaseNotFound(s.brokers[n].lease)
    else Committed
  }

  /** A claim is a renewal if the key is tracked, and else a new one. */
  predicate ClaimMatches(s: State, n: Node, c: Client)
    requires n in s.brokers
  {
    if c in s.brokers[n].tracked then OwnedBy(s, c, n) else c !in s.owners
  }

  /** Nobody else is about to do anything, and no recovery is under way. */
  ghost predicate Alone(others: seq<seq<Step>>, s: State, n: Node) {
    others == [] && n in s.brokers && s.brokers[n].recovery.NoRecovery?
  }

  lemma OthersKeepHeld(s: State, step: Step, n: Node, c: Client)
    requires Enabled(s, step) && Idle(s, n, c) && !Exclusive(step, n, c) && !Recovers(step, n)
    ensures HeldStill(s, Apply(s, step), n)
  {
  }

  /** Stands for the token of a call that draws none. */
  const NO_TOKEN: Token := ""

  /**
   The cluster with the history of its run. `others` is an arbitrary schedule of
   the rest of the cluster: before each of its own steps a call lets the next
   batch of it run, skipping whatever is not enabled.
   */
  class Cluster {
    var s: State
    var others: seq<seq<Step>>
    ghost var states: seq<State>
    ghost var steps: seq<Step>

    ghost predicate Valid()
      reads this
    {
      Behaviour(states, steps) && states[|steps|] == s
    }

    method Do(step: Step)
      requires Valid() && Enabled(s, step)
      modifies this
      ensures Valid() && s == Apply(old(s), step) && others == old(others)
      ensures steps == old(steps) + [step] && old(states) <= states
    {
      ghost var s' := Extend(states, steps, step);
      s := Apply(s, step);
      steps, states := steps + [step], states + [s];
    }

    lemma ValidInv()
      requires Valid()
      ensures Inv(s)
    {
      BehaviourInv(states, steps, |steps|);
    }

    lemma Now()
      requires Valid()
      ensures |states| == |steps| + 1 && states[|steps|] == s
    {
    }

    /** One step of another thread, if it is enabled and this thread's locks admit it. */
    method Other(step: Step, n: Node, c: Client, t: Token, holding: bool)
      requires Valid() && Idle(s, n, c) && (t in s.takeovers ==> s.takeovers[t].taker == n)
      modifies this
      ensures Valid() && Idle(s, n, c) && TokenStill(old(s), s, t) && KeyStill(old(s), s, t)
      ensures old(steps) <= steps && old(states) <= states && others == old(others)
      ensures Quiet(old(steps), steps, n, c, t) && LockLasts(old(s), s, steps, |old(steps)|, t)
      ensures holding ==> HeldStill(old(s), s, n)
    {
      hide Behaviour, Enabled, Apply, Quiet, LockLasts, KeyStill, HoldsLock;
      StillQuiet(steps, n, c, t);
      SameKey(s, t);
      Lasts(s, steps, t);
      if Enabled(s, step) && !Exclusive(step, n, c) && !OfToken(step, t) && !(holding && Recovers(step, n)) {
        OthersKeepIdle(s, step, n, c);
        OthersKeepToken(s, step, n, c, t);
        OthersKeepKey(s, step, n, c, t);
        OthersDropLock(s, step, steps, n, c, t);
        if holding {
          OthersKeepHeld(s, step, n, c);
        }
        Do(step);
      }
    }

    /**
     Lets the rest of the cluster run. A caller that does not hold leaseRecoveryMu
     gets it in the end: a recovery another thread has begun runs to its end first.
     */
    method Others(n: Node, c: Client, t: Token, holding: bool)
      requires Valid() && Idle(s, n, c) && (t in s.takeovers ==> s.takeovers[t].taker == n)
      modifies this
      ensures Valid() && Idle(s, n, c) && TokenStill(old(s), s, t) && KeyStill(old(s), s, t)
      ensures old(steps) <= steps && old(states) <= states
      ensures Quiet(old(steps), steps, n, c, t) && LockLasts(old(s), s, steps, |old(steps)|, t)
      ensures if holding then HeldStill(old(s), s, n) else s.brokers[n].recovery.NoRecovery?
      ensures old(others) == [] ==> others == []
      ensures old(others) == [] && (holding || old(s.brokers[n].recovery.NoRecovery?)) ==> s == old(s)
    {
      hide Behaviour, Quiet, LockLasts, HoldsLock, KeyStill;
      var batch := if others == [] then [] else others[0];
      others := if others == [] then [] else others[1..];
      ghost var left := others;
      StillQuiet(steps, n, c, t);
      SameKey(s, t);
      Lasts(s, steps, t);
      for i := 0 to |batch|
        invariant Valid() && Idle(s, n, c) && TokenStill(old(s), s, t) && KeyStill(old(s), s, t)
        invariant old(steps) <= steps && old(states) <= states && others == left
        invariant Quiet(old(steps), steps, n, c, t) && LockLasts(old(s), s, steps, |old(steps)|, t)
        invariant batch == [] ==> s == old(s)
        invariant holding ==> HeldStill(old(s), s, n)
      {
        ghost var was, before := s, steps;
        Other(batch[i], n, c, t, holding);
        QuietStill(old(steps), before, steps, n, c, t);
        KeyLasts(old(s), was, s, before, steps, |old(steps)|, n, c, t);
      }
      ghost var was, before := s, steps;
      FinishRecovery(n, c, t, holding);
      QuietStill(old(steps), before, steps, n, c, t);
      KeyLasts(old(s), was, s, before, steps, |old(steps)|, n, c, t);
    }

    /** A recovery that another thread has begun runs to its end. */
    method FinishRecovery(n: Node, c: Client, t: Token, holding: bool)
      requires Valid() && Idle(s, n, c)
      modifies this
      ensures Valid() && Idle(s, n, c) && s.locks == old(s.locks) && s.takeovers == old(s.takeovers)
      ensures s.owners == old(s.owners) && KeyStill(old(s), s, t)
      ensures old(steps) <= steps && old(states) <= states && others == old(others)
      ensures Quiet(old(steps), steps, n, c, t) && LockLasts(old(s), s, steps, |old(steps)|, t)
      ensures if holding then s == old(s) else s.brokers[n].recovery.NoRecovery?
      ensures old(s.brokers[n].recovery.NoRecovery?) ==> s == old(s)
    {
      hide Behaviour;
      if !holding && s.brokers[n].recovery.Detached? {
        Do(RecoveryNotify(n));
      }
      if !holding && s.brokers[n].recovery.Fenced? {
        Do(RecoveryGrant(n));
      }
    }

    /**
     recoverSessionLease; `granted` is whether the store grants the new lease, `restored`
     whether the broker's other keys can be put back under it. Without that the call
     fails, but the new lease stays.
     */
    method RecoverSessionLease(n: Node, c: Client, expected: Lease, granted: bool, restored: bool) returns (ok: bool)
      requires Valid() && Idle(s, n, c) && NO_TOKEN !in s.takeovers
      modifies this
      ensures Valid() && Idle(s, n, c) && NO_TOKEN !in s.takeovers
      ensures old(steps) <= steps && old(states) <= states
      ensures !ok ==> !granted || !restored
      ensures ok || granted ==> s.brokers[n].lease != expected
      ensures !ok && !granted ==> s.brokers[n].lease == expected
      ensures Quiet(old(steps), steps, n, c, NO_TOKEN)
      ensures old(Alone(others, s, n)) && old(s.brokers[n].lease) == expected ==>
        Alone(others, s, n) && SameKeys(old(s), s, c) && (ok <==> granted && restored) && Renewed(s, n, granted)
    {
      hide Behaviour, Enabled, Apply, Quiet;
      Others(n, c, NO_TOKEN, false);
      if s.brokers[n].lease != expected {
        return true;
      }
      ghost var before := steps;
      FenceTracked(n, c);
      QuietStill(old(steps), before, steps, n, c, NO_TOKEN);
      before := steps;
      Others(n, c, NO_TOKEN, true);
      QuietStill(old(steps), before, steps, n, c, NO_TOKEN);
      before := steps;
      ok := granted && restored;
      GrantOrFail(n, c, granted);
      QuietStill(old(steps), before, steps, n, c, NO_TOKEN);
    }

    /** The part of the recovery before the grant: no session owner of this broker survives it. */
    method FenceTracked(n: Node, c: Client)
      requires Valid() && Idle(s, n, c) && s.brokers[n].recovery.NoRecovery? && NO_TOKEN !in s.takeovers
      modifies this
      ensures Valid() && Idle(s, n, c) && s.brokers[n].recovery.Fenced? && NO_TOKEN !in s.takeovers
      ensures s.brokers[n].lease == old(s.brokers[n].lease)
      ensures old(steps) <= steps && old(states) <= states && Quiet(old(steps), steps, n, c, NO_TOKEN)
      ensures s.brokers[n].tracked == {} && forall d | old(d in s.brokers[n].tracked) :: d !in s.brokers[n].serving
      ensures old(others) == [] ==> others == [] && SameKeys(old(s), s, c)
    {
      hide Behaviour;
      Do(RecoveryDetach(n));
      Others(n, c, NO_TOKEN, true);
      ValidInv();
      assert BrokerInv(s, s.brokers[n]);
      Do(RecoveryNotify(n));
    }

    method GrantOrFail(n: Node, c: Client, granted: bool)
      requires Valid() && Idle(s, n, c) && s.brokers[n].recovery.Fenced? && NO_TOKEN !in s.takeovers
      modifies this
      ensures Valid() && Idle(s, n, c) && NO_TOKEN !in s.takeovers
      ensures old(steps) <= steps && old(states) <= states
      ensures granted <==> s.brokers[n].lease != old(s.brokers[n].lease)
      ensures Quiet(old(steps), steps, n, c, NO_TOKEN) && others == old(others) && SameKeys(old(s), s, c)
      ensures Renewed(s, n, granted)
    {
      hide Behaviour;
      ValidInv();
      assert BrokerInv(s, s.brokers[n]);
      Do(if granted then RecoveryGrant(n) else RecoveryFail(n));
    }

    /** tryInitialSessionClaim: create the key, or renew it if this broker tracks a claim. */
    method TryInitialSessionClaim(n: Node, c: Client, fate: Fate) returns (r: Txn, tracked: bool)
      requires Valid() && Idle(s, n, c) && NO_TOKEN !in s.takeovers
      modifies this
      ensures Valid() && Idle(s, n, c) && NO_TOKEN !in s.takeovers && s.brokers[n].recovery.NoRecovery?
      ensures old(steps) <= steps && old(states) <= states
      ensures Answers(s, n, c, r) && (r.Unknown? <==> !fate.Answered?)
      ensures r.Refused? ==> tracked == (c in s.brokers[n].tracked)
      ensures r.Refused? && !r.locked && tracked ==> r.owner != Some(n)
      ensures r.Refused? && !r.locked && !tracked ==> r.owner.Some?
      ensures if r.Committed? then EndsWithPut(old(steps), steps, n, c) else Quiet(old(steps), steps, n, c, NO_TOKEN)
      ensures old(Alone(others, s, n)) && fate.Answered? ==>
        && Alone(others, s, n) && r == Reply(old(s), n, c, ClaimMatches(old(s), n, c))
        && tracked == (c in old(s).brokers[n].tracked) && (r.Committed? || s == old(s))
    {
      hide Behaviour;
      Others(n, c, NO_TOKEN, false);
      tracked := c in s.brokers[n].tracked;
      var matches := if tracked then OwnedBy(s, c, n) else c !in s.owners;
      r := Commit(n, c, tracked, matches, fate);
    }

    /** tryRenewSessionClaim. */
    method TryRenewSessionClaim(n: Node, c: Client, fate: Fate) returns (r: Txn)
      requires Valid() && Idle(s, n, c) && NO_TOKEN !in s.takeovers
      modifies this
      ensures Valid() && Idle(s, n, c) && NO_TOKEN !in s.takeovers
      ensures old(steps) <= steps && old(states) <= states
      ensures Answers(s, n, c, r) && (r.Unknown? <==> !fate.Answered?)
      ensures r.Refused? && !r.locked ==> r.owner != Some(n)
      ensures if r.Committed? then EndsWithPut(old(steps), steps, n, c) else Quiet(old(steps), steps, n, c, NO_TOKEN)
      ensures old(Alone(others, s, n)) && fate.Answered? ==>
        && Alone(others, s, n) && r == Reply(old(s), n, c, OwnedBy(old(s), c, n)) && (r.Committed? || s == old(s))
    {
      hide Behaviour;
      Others(n, c, NO_TOKEN, false);
      r := Commit(n, c, true, OwnedBy(s, c, n), fate);
    }

    /**
     One transaction on the owner key: the comparison, the put under the lease, or
     what is there. If its answer is lost it may have been carried out all the same.
     */
    method Commit(n: Node, c: Client, renew: bool, matches: bool, fate: Fate) returns (r: Txn)
      requires Valid() && Idle(s, n, c) && NO_TOKEN !in s.takeovers && s.brokers[n].recovery.NoRecovery?
      requires matches <==> if renew then OwnedBy(s, c, n) else c !in s.owners
      requires renew || c !in s.brokers[n].tracked
      modifies this
      ensures Valid() && Idle(s, n, c) && NO_TOKEN !in s.takeovers && s.brokers[n].recovery.NoRecovery?
      ensures old(steps) <= steps && old(states) <= states
      ensures Answers(s, n, c, r) && (r.Unknown? <==> !fate.Answered?)
      ensures !r.Committed? && s != old(s) ==> fate.AnswerLost? && s == PutOwner(old(s), n, c, false)
      ensures r.Refused? ==> r.locked || !matches
      ensures fate.Answered? ==> r == Reply(old(s), n, c, matches)
      ensures r.Committed? ==> steps == old(steps) + [if renew then Renew(n, c, true) else Claim(n, c, true)]
      ensures !r.Committed? ==> Quiet(old(steps), steps, n, c, NO_TOKEN)
      ensures others == old(others)
    {
      hide Behaviour;
      if fate.NeverArrives? {
        return Unknown;
      }
      var answered := fate.Answered?;
      if !matches || c in s.locks {
        return if answered then Refused(if c in s.owners then Some(s.owners[c].node) else None, c in s.locks)
          else Unknown;
      }
      if s.brokers[n].lease !in s.live {
        return if answered then LeaseNotFound(s.brokers[n].lease) else Unknown;
      }
      Do(if renew then Renew(n, c, answered) else Claim(n, c, answered));
      r := if answered then Committed else Unknown;
    }

    /** fenceLostSessionClaim. */
    method FenceLostSessionClaim(n: Node, c: Client)
      requires Valid() && Enabled(s, FenceLost(n, c)) && Idle(s, n, c)
      modifies this
      ensures Valid() && Idle(s, n, c) && !Serves(s, n, c)
      ensures s.owners == old(s.owners) && s.locks == old(s.locks) && s.takeovers == old(s.takeovers)
      ensures c !in s.brokers[n].tracked
      ensures old(steps) <= steps && old(states) <= states && Quiet(old(steps), steps, n, c, NO_TOKEN)
    {
      hide Behaviour;
      Do(FenceLost(n, c));
      Do(FenceNotify(n, c));
    }

    /** Others run while a release is between its two halves: they leave it there. */
    method OthersWhileReleasing(n: Node, c: Client)
      requires Valid() && n in s.brokers && c in s.brokers[n].releasing && c !in s.brokers[n].fencing
      modifies this
      ensures Valid() && n in s.brokers && c in s.brokers[n].releasing && c !in s.brokers[n].fencing
      ensures c in s.brokers[n].tracked ==> old(c in s.brokers[n].tracked)
      ensures old(others) == [] ==> s == old(s)
      ensures old(steps) <= steps && old(states) <= states
    {
      hide Behaviour;
      var batch := if others == [] then [] else others[0];
      others := if others == [] then [] else others[1..];
      for i := 0 to |batch|
        invariant Valid() && n in s.brokers && c in s.brokers[n].releasing && c !in s.brokers[n].fencing
        invariant c in s.brokers[n].tracked ==> old(c in s.brokers[n].tracked)
        invariant batch == [] ==> s == old(s)
        invariant old(steps) <= steps && old(states) <= states
      {
        if Enabled(s, batch[i]) && !Exclusive(batch[i], n, c) {
          OthersKeepReleasing(s, batch[i], n, c);
          Do(batch[i]);
        }
      }
    }

    /**
     ReleaseSession: untrack, then delete the owner key if it is this broker's. If the
     transaction never arrives, the key stays until its lease ends.
     */
    method ReleaseSession(n: Node, c: Client, fate: Fate) returns (ok: bool)
      requires Valid() && Idle(s, n, c)
      modifies this
      ensures Valid() && Idle(s, n, c) && c !in s.brokers[n].tracked && !Serves(s, n, c)
      ensures ok <==> fate.Answered?
      ensures !fate.NeverArrives? ==> !OwnedBy(s, c, n)
      ensures old(others) == [] ==>
        && s.locks == old(s.locks)
        && s.owners == if old(OwnedBy(s, c, n)) && !fate.NeverArrives? then old(s.owners) - {c} else old(s.owners)
      ensures old(steps) <= steps && old(states) <= states
    {
      hide Behaviour;
      ok := fate.Answered?;
      Do(ReleaseUntrack(n, c));
      OthersWhileReleasing(n, c);
      ValidInv();
      assert BrokerInv(s, s.brokers[n]);
      Do(if fate.NeverArrives? then ReleaseFail(n, c) else ReleaseDelete(n, c));
    }

    /** Somebody else's key means this broker serves nobody under a live lease. */
    lemma NotOwned(n: Node, c: Client)
      requires Valid()
      ensures !OwnedBy(s, c, n) ==> !ServesLive(s, n, c)
    {
      ValidInv();
    }

    /**
     AcquireSession. The caller holds the client lock. No other thread runs between
     the last transaction and the return, so the contract speaks of that moment.
     */
    method AcquireSession(n: Node, c: Client, fates: seq<AttemptFates>) returns (r: AcquireResult)
      requires Valid() && Idle(s, n, c) && |fates| == 2 && NO_TOKEN !in s.takeovers
      modifies this
      ensures Valid() && Idle(s, n, c)
      ensures old(steps) <= steps && old(states) <= states
      ensures r.Acquired? ==> ServesLive(s, n, c) && OwnedBy(s, c, n) && c !in s.locks
      ensures r.TakeoverInProgress? ==> c in s.locks
      ensures r.OwnershipLost? ==> c !in s.owners && !Serves(s, n, c)
      ensures r.OwnedByOther? ==> r.owner != n && OwnedBy(s, c, r.owner) && !ServesLive(s, n, c)
      ensures r.OwnedByNobody? ==> c !in s.owners && c !in s.locks
      ensures r.RecoveryFailed? ==> exists f <- fates :: !f.granted || !f.restored
      ensures r.AcquireUnknown? ==> exists f <- fates :: !f.claim.Answered? || !f.renew.Answered?
      ensures !fates[0].claim.Answered? ==> r.AcquireUnknown?
      ensures r.Acquired? <==> EndsWithPut(old(steps), steps, n, c)
      ensures !r.Acquired? ==> Quiet(old(steps), steps, n, c, NO_TOKEN)
      ensures r.RecoveryExhausted? ==> DeadTwice(states, |old(steps)|, n)
      ensures old(Alone(others, s, n)) && fates == [IN_FULL, IN_FULL] ==> r == AcquireAlone(old(s), n, c)
    {
      hide Behaviour, Apply, Quiet, Enabled;
      StillQuiet(steps, n, c, NO_TOKEN);
      ghost var dead := 0;
      for attempt := 0 to 2
        invariant Valid() && Idle(s, n, c) && NO_TOKEN !in s.takeovers
        invariant old(steps) <= steps && old(states) <= states && Quiet(old(steps), steps, n, c, NO_TOKEN)
        invariant attempt == 0 ==> s == old(s) && others == old(others)
        invariant 0 < attempt ==> fates[0].claim.Answered? && |old(steps)| <= dead < |steps| < |states|
        invariant 0 < attempt ==> DeadLease(states[dead], n)
        invariant 1 < attempt ==> DeadTwice(states, |old(steps)|, n)
        invariant 0 < attempt && old(Alone(others, s, n)) && fates == [IN_FULL, IN_FULL] ==>
          && attempt == 1 && Alone(others, s, n) && Renewed(s, n, true) && SameKeys(old(s), s, c)
          && AcquireAlone(old(s), n, c) == Acquired
      {
        ghost var before, first := steps, dead;
        var answer, met := Attempt(n, c, fates[attempt]);
        assert fates[attempt] in fates;
        if answer != Some(Acquired) {
          QuietStill(old(steps), before, steps, n, c, NO_TOKEN);
          QuietEnd(old(steps), steps, n, c);
        }
        if answer.Some? {
          return answer.value;
        }
        Now();
        dead := met;
        if attempt == 1 {
          assert DeadLease(states[first], n) && DeadLease(states[dead], n);
        }
      }
      QuietEnd(old(steps), steps, n, c);
      r := RecoveryExhausted;
    }

    /** One attempt of AcquireSession; None if the lease was dead and has been recovered. */
    method Attempt(n: Node, c: Client, f: AttemptFates) returns (r: Option<AcquireResult>, ghost dead: nat)
      requires Valid() && Idle(s, n, c) && NO_TOKEN !in s.takeovers
      modifies this
      ensures Valid() && Idle(s, n, c) && NO_TOKEN !in s.takeovers && r != Some(RecoveryExhausted)
      ensures old(steps) <= steps && old(states) <= states
      ensures r == Some(Acquired) ==> ServesLive(s, n, c) && OwnedBy(s, c, n) && c !in s.locks
      ensures r == Some(TakeoverInProgress) ==> c in s.locks
      ensures r == Some(OwnershipLost) ==> c !in s.owners && !Serves(s, n, c)
      ensures r.Some? && r.value.OwnedByOther? ==>
        r.value.owner != n && OwnedBy(s, c, r.value.owner) && !ServesLive(s, n, c)
      ensures r == Some(OwnedByNobody) ==> c !in s.owners && c !in s.locks
      ensures r == Some(RecoveryFailed) ==> !f.granted || !f.restored
      ensures r == Some(AcquireUnknown) ==> !f.claim.Answered? || !f.renew.Answered?
      ensures !f.claim.Answered? ==> r == Some(AcquireUnknown)
      ensures r == Some(Acquired) <==> EndsWithPut(old(steps), steps, n, c)
      ensures r != Some(Acquired) ==> Quiet(old(steps), steps, n, c, NO_TOKEN)
      ensures r.None? ==> |old(steps)| <= dead < |steps| < |states| && DeadLease(states[dead], n)
      ensures old(Alone(others, s, n)) && f == IN_FULL ==>
        var answer := AcquireAlone(old(s), n, c);
        if answer.Acquired? && DeadLease(old(s), n)
        then r.None? && Alone(others, s, n) && Renewed(s, n, true) && SameKeys(old(s), s, c)
        else r == Some(answer)
    {
      hide Behaviour, Apply, Quiet, Enabled, EndsWithPut;
      var txn, fenced := ClaimOrRenew(n, c, f);
      dead := |steps|;
      if !txn.Committed? {
        QuietEnd(old(steps), steps, n, c);
      }
      match txn
      case Committed => r := Some(Acquired);
      case LeaseNotFound(lease) =>
        ghost var before := steps;
        var ok := RecoverDead(n, c, f);
        QuietStill(old(steps), before, steps, n, c, NO_TOKEN);
        QuietEnd(old(steps), steps, n, c);
        r := if ok then None else Some(RecoveryFailed);
      case Refused(owner, locked) =>
        NotOwned(n, c);
        r := Some(if locked then TakeoverInProgress
                  else if owner.Some? then OwnedByOther(owner.value)
                  else if fenced then OwnershipLost else OwnedByNobody);
      case Unknown => r := Some(AcquireUnknown);
    }

    /** The recovery of an attempt that met a dead lease. */
    method RecoverDead(n: Node, c: Client, f: AttemptFates) returns (ok: bool)
      requires Valid() && Idle(s, n, c) && NO_TOKEN !in s.takeovers && DeadLease(s, n)
      modifies this
      ensures Valid() && Idle(s, n, c) && NO_TOKEN !in s.takeovers
      ensures old(steps) <= steps && old(states) <= states && Quiet(old(steps), steps, n, c, NO_TOKEN)
      ensures !ok ==> !f.granted || !f.restored
      ensures ok ==> |old(steps)| < |steps| < |states| && DeadLease(states[|old(steps)|], n)
      ensures old(Alone(others, s, n)) && f == IN_FULL ==>
        ok && Alone(others, s, n) && Renewed(s, n, true) && SameKeys(old(s), s, c)
    {
      hide Behaviour, Apply, Quiet, Enabled;
      Now();
      ok := RecoverSessionLease(n, c, s.brokers[n].lease, f.granted, f.restored);
      Now();
      assert states[|old(steps)|] == old(s);
    }

    /**
     The transactions of one attempt: the claim, the renewal if the key turns out to be
     this broker's own, and the fencing if a tracked claim is lost.
     */
    method ClaimOrRenew(n: Node, c: Client, f: AttemptFates) returns (txn: Txn, fenced: bool)
      requires Valid() && Idle(s, n, c) && NO_TOKEN !in s.takeovers
      modifies this
      ensures Valid() && Idle(s, n, c) && NO_TOKEN !in s.takeovers && Answers(s, n, c, txn)
      ensures old(steps) <= steps && old(states) <= states
      ensures if txn.Committed? then EndsWithPut(old(steps), steps, n, c) else Quiet(old(steps), steps, n, c, NO_TOKEN)
      ensures txn.Refused? && !txn.locked ==> txn.owner != Some(n)
      ensures fenced ==> txn.Refused? && !txn.locked && !Serves(s, n, c)
      ensures txn.Unknown? ==> !f.claim.Answered? || !f.renew.Answered?
      ensures !f.claim.Answered? ==> txn.Unknown?
      ensures old(Alone(others, s, n)) && f == IN_FULL ==>
        && (txn.LeaseNotFound? ==> s == old(s) && Alone(others, s, n))
        && match AcquireAlone(old(s), n, c)
           case Acquired => if DeadLease(old(s), n) then txn.LeaseNotFound? else txn.Committed?
           case TakeoverInProgress => txn.Refused? && txn.locked
           case OwnedByOther(o) => txn == Refused(Some(o), false)
           case _ => txn == Refused(None, false) && fenced
    {
      hide Behaviour, Apply, Quiet;
      fenced := false;
      var tracked;
      txn, tracked := TryInitialSessionClaim(n, c, f.claim);
      ghost var before := steps;
      if txn.Refused? && !txn.locked && tracked {
        fenced := true;
        FenceLostSessionClaim(n, c);
        QuietStill(old(steps), before, steps, n, c, NO_TOKEN);
      } else if txn.Refused? && !txn.locked && txn.owner == Some(n) {
        txn := TryRenewSessionClaim(n, c, f.renew);
        if !txn.Committed? {
          QuietStill(old(steps), before, steps, n, c, NO_TOKEN);
        }
      }
    }

    /**
     TakeoverSession; `token` has not been drawn before. However it ends, this call
     has given up its takeover key, unless the answer to taking it was lost or the
     release never arrived; then the key hangs on a lease this broker had during the
     call, and goes with it.
     */
    method TakeoverSession(c: Client, from: Node, n: Node, token: Token, fates: TakeoverFates)
      returns (r: TakeoverResult)
      requires Valid() && Idle(s, n, c) && token !in s.takeovers
      modifies this
      ensures Valid() && Idle(s, n, c)
      ensures old(steps) <= steps && old(states) <= states
      ensures r.TakenOver? ==> ServesLive(s, n, c) && OwnedBy(s, c, n) && c !in s.locks
      ensures r.TakenOver? ==> forall m :: ServesLive(s, m, c) ==> m == n
      ensures HoldsLock(s, token) ==> fates.lock.AnswerLost? || fates.release.NeverArrives?
      ensures HoldsLock(s, token) ==> LeftBehind(states, |old(steps)|, n, c, s)
      ensures HoldsLock(s, token) <==> LeftSince(states, steps, |old(steps)|, token, s)
      ensures from == n <==> r.SameNode?
      ensures r.LockBusy? ==> c in s.locks
      ensures r.SourceNotOwner? ==> !OwnedBy(s, c, from)
      ensures r.HandOffFailed? ==> !fates.source.Answered? || from !in s.brokers
      ensures r.LeaseGone? ==> s.brokers[n].lease !in s.live
      ensures r.TakeoverUnknown? ==> !fates.lock.Answered? || !fates.move.Answered? || !fates.moveAbsent.Answered?
      ensures !fates.lock.Answered? && from != n ==> r.TakeoverUnknown?
      ensures r.TakenOver? <==> EndsWithMove(old(steps), steps, token)
      ensures r.LockLost? ==> |states| == |steps| + 1 && LockEnded(states, steps, |old(steps)|, n, token)
      ensures !r.OwnerChanged?
      ensures old(Alone(others, s, n)) && fates == ANSWERED ==> r == TakeoverAlone(old(s), c, from, n)
    {
      hide Behaviour, LeftAt, Quiet, LeaseEnded;
      Now();
      StillQuiet(steps, n, c, token);
      var answered := fates.lock.Answered?;
      if from == n {
        r := SameNode;
      } else {
        Others(n, c, token, false);
        if fates.lock.NeverArrives? {
          r := TakeoverUnknown;
        } else if c in s.locks {
          r := if answered then LockBusy else TakeoverUnknown;
        } else if !OwnedBy(s, c, from) {
          r := if answered then SourceNotOwner else TakeoverUnknown;
        } else if s.brokers[n].lease !in s.live {
          r := if answered then LeaseGone else TakeoverUnknown;
        } else {
          ghost var before := steps;
          r := TakeFrom(c, from, n, token, fates);
          Now();
          if !r.TakenOver? {
            QuietStill(old(steps), before, steps, n, c, token);
          }
        }
      }
      if !r.TakenOver? {
        QuietNoMove(old(steps), steps, n, c, token);
      }
      CallLeft(|old(steps)|, token);
    }

    /** The rest of the takeover, once the lock can be taken. */
    method TakeFrom(c: Client, from: Node, n: Node, token: Token, fates: TakeoverFates) returns (r: TakeoverResult)
      requires Valid() && Idle(s, n, c) && !fates.lock.NeverArrives?
      requires Enabled(s, TakeLock(n, c, from, token, fates.lock.Answered?))
      modifies this
      ensures Valid() && Idle(s, n, c)
      ensures old(steps) <= steps && old(states) <= states
      ensures r in {TakenOver, HandOffFailed, LeaseGone, LockLost, TakeoverUnknown}
      ensures r.TakenOver? ==> ServesLive(s, n, c) && OwnedBy(s, c, n) && c !in s.locks
      ensures r.TakenOver? ==> forall m :: ServesLive(s, m, c) ==> m == n
      ensures token in s.takeovers && s.takeovers[token].client == c && s.takeovers[token].phase.Ended?
      ensures HoldsLock(s, token) ==> fates.lock.AnswerLost? || fates.release.NeverArrives?
      ensures HoldsLock(s, token) ==> LeftBehind(states, |old(steps)|, n, c, s)
      ensures r.HandOffFailed? ==> !fates.source.Answered? || from !in s.brokers
      ensures r.LeaseGone? ==> s.brokers[n].lease !in s.live
      ensures r.TakeoverUnknown? ==> !fates.lock.Answered? || !fates.move.Answered? || !fates.moveAbsent.Answered?
      ensures !fates.lock.Answered? ==> r.TakeoverUnknown?
      ensures if r.TakenOver? then EndsWithMove(old(steps), steps, token) else Quiet(old(steps), steps, n, c, token)
      ensures r.LockLost? ==> |states| == |steps| + 1 && LockEnded(states, steps, |old(steps)|, n, token)
      ensures old(Alone(others, s, n)) && fates == ANSWERED ==>
        r == if old(from in s.brokers) then TakenOver else HandOffFailed
    {
      hide Behaviour, Quiet, LeaseEnded;
      ghost var at := |steps|;
      Now();
      Do(TakeLock(n, c, from, token, fates.lock.Answered?));
      assert states[at].brokers[n].lease == s.locks[c].lease;
      TakingIsQuiet(old(steps), TakeLock(n, c, from, token, fates.lock.Answered?), n, c, token);
      if !fates.lock.Answered? {
        return TakeoverUnknown;
      }
      ghost var lock, before := s.locks[c], steps;
      var closed := AskSource(c, from, n, token, lock, fates.source, fates.release);
      QuietStill(old(steps), before, steps, n, c, token);
      if !closed {
        return HandOffFailed;
      }
      before := steps;
      ghost var held := HoldsLock(s, token);
      r := FinalizeTakeover(c, from, n, token, lock, fates);
      Now();
      if !r.TakenOver? {
        QuietStill(old(steps), before, steps, n, c, token);
      }
      if r.LockLost? {
        StillEnded(if held then steps else before, steps, if held then |before| else at + 1, at, lock.lease);
        assert steps[at].TakeLock?;
      }
    }

    /** Taking the lock puts no owner key. */
    lemma TakingIsQuiet(was: seq<Step>, step: Step, n: Node, c: Client, t: Token)
      requires step.TakeLock?
      ensures Quiet(was, was + [step], n, c, t)
    {
    }

    /** A call that has ended still has its takeover key exactly if it left it behind and the lease lives. */
    lemma CallLeft(since: nat, token: Token)
      requires Valid() && since <= |steps| && token !in states[since].takeovers
      requires token in s.takeovers ==> s.takeovers[token].phase.Ended?
      ensures HoldsLock(s, token) <==> LeftSince(states, steps, since, token, s)
    {
      hide Enabled, Apply, LeftAt;
      var i := |steps|;
      if HoldsLock(s, token) {
        var l := s.locks[s.takeovers[token].client].lease;
        LeftBehindExactly(states, steps, i, token, l);
        var j: nat :| j < i && LeftAt(states[j], steps[j], token, l);
        if j < since {
          LeftIsDrawn(states, steps, j, since, token, l);
        }
      }
      forall j: nat, l: Lease | since <= j < i && LeftAt(states[j], steps[j], token, l) && l in s.live
        ensures HoldsLock(s, token)
      {
        LeftBehindExactly(states, steps, i, token, l);
      }
    }

    /** SendTakeover, and the lock clean-up when it fails. */
    method AskSource(c: Client, from: Node, n: Node, token: Token, ghost lock: Lock, source: Fate, release: Fate)
      returns (ok: bool)
      requires Valid() && Idle(s, n, c) && from != n && Under(s, token, lock)
      requires token in s.takeovers && s.takeovers[token] == Takeover(c, n, from, Locked)
      modifies this
      ensures Valid() && Idle(s, n, c) && Under(s, token, lock)
      ensures old(steps) <= steps && old(states) <= states
      ensures token in s.takeovers && s.takeovers[token] == Takeover(c, n, from, if ok then HandedOff else Ended)
      ensures !ok ==> !source.Answered? || from !in s.brokers
      ensures !ok && HoldsLock(s, token) ==> release.NeverArrives?
      ensures Quiet(old(steps), steps, n, c, token)
      ensures ok && HoldsLock(old(s), token) ==> HoldsLock(s, token) || LeaseEnded(steps, |old(steps)|, lock.lease)
      ensures ok ==> !Serves(s, from, c)
      ensures old(Alone(others, s, n)) && source.Answered? ==>
        && (ok <==> old(from in s.brokers))
        && (ok ==> Alone(others, s, n) && SameKeys(old(s), s, c) && s.live == old(s.live)
                   && s.brokers[n].lease == old(s.brokers[n].lease) && from in s.brokers)
    {
      hide Behaviour, Quiet, LeaseEnded;
      Others(n, c, token, false);
      var reached := !source.NeverArrives? && from in s.brokers;
      ok := reached && source.Answered?;
      ghost var before := steps;
      if reached {
        Do(HandOff(token, ok));
        HandingIsQuiet(before, HandOff(token, ok), n, c, token);
        QuietStill(old(steps), before, steps, n, c, token);
        if LeaseEnded(before, |old(steps)|, lock.lease) {
          StillEnded(before, steps, |old(steps)|, |old(steps)|, lock.lease);
        }
      }
      before := steps;
      if !ok {
        Unlock(c, n, token, lock, release);
        QuietStill(old(steps), before, steps, n, c, token);
      }
    }

    lemma HandingIsQuiet(was: seq<Step>, step: Step, n: Node, c: Client, t: Token)
      requires step.HandOff?
      ensures Quiet(was, was + [step], n, c, t)
    {
    }

    /**
     finalizeTakeover: two transactions, the second for an owner key that vanished
     meanwhile. While the lock lasts nobody else can put one back, so the second is
     never refused for an owner key that is there after all.
     */
    method FinalizeTakeover(c: Client, from: Node, n: Node, token: Token, ghost lock: Lock, fates: TakeoverFates)
      returns (r: TakeoverResult)
      requires Valid() && Idle(s, n, c) && from != n && Under(s, token, lock)
      requires token in s.takeovers && s.takeovers[token] == Takeover(c, n, from, HandedOff)
      modifies this
      ensures Valid() && Idle(s, n, c) && Under(s, token, lock)
      ensures old(steps) <= steps && old(states) <= states
      ensures token in s.takeovers && s.takeovers[token].client == c && s.takeovers[token].phase.Ended?
      ensures r in {TakenOver, LeaseGone, LockLost, TakeoverUnknown}
      ensures r.TakenOver? ==> ServesLive(s, n, c) && OwnedBy(s, c, n) && c !in s.locks
      ensures r.TakenOver? ==> forall m :: ServesLive(s, m, c) ==> m == n
      ensures HoldsLock(s, token) ==> fates.release.NeverArrives? && !r.LockLost?
      ensures r.LeaseGone? ==> s.brokers[n].lease !in s.live
      ensures r.TakeoverUnknown? ==> !fates.move.Answered? || !fates.moveAbsent.Answered?
      ensures if r.TakenOver? then EndsWithMove(old(steps), steps, token) else Quiet(old(steps), steps, n, c, token)
      ensures r.LockLost? && HoldsLock(old(s), token) ==> LeaseEnded(steps, |old(steps)|, lock.lease)
      ensures old(Alone(others, s, n)) && old(OwnedBy(s, c, from)) && old(s.brokers[n].lease in s.live) ==>
        (fates == ANSWERED && HoldsLock(old(s), token) ==> r.TakenOver?)
    {
      hide Behaviour, Apply, Enabled, Quiet, LeaseEnded;
      Others(n, c, token, false);
      ghost var was, before := s, steps;
      var m := MoveOwner(c, from, n, token, false, fates.move);
      if !m.Moved? {
        QuietStill(old(steps), before, steps, n, c, token);
      }
      if m.NoMatch? {
        LockedOwner(token);
        before := steps;
        Others(n, c, token, true);
        KeyLasts(old(s), was, s, before, steps, |old(steps)|, n, c, token);
        QuietStill(old(steps), before, steps, n, c, token);
        before := steps;
        m := MoveOwner(c, from, n, token, true, fates.moveAbsent);
        if !m.Moved? {
          QuietStill(old(steps), before, steps, n, c, token);
        }
      }
      before := steps;
      r := match m
        case Moved => TakenOver
        case NoMatch => if HoldsLock(s, token) then OwnerChanged else LockLost
        case MoveLeaseGone => LeaseGone
        case MoveUnknown => TakeoverUnknown;
      if !s.takeovers[token].phase.Ended? {
        Unlock(c, n, token, lock, fates.release);
        QuietStill(old(steps), before, steps, n, c, token);
        if LeaseEnded(before, |old(steps)|, lock.lease) {
          StillEnded(before, steps, |old(steps)|, |old(steps)|, lock.lease);
        }
      }
    }

    /** While the lock is held the owner key is the source's or absent. */
    lemma LockedOwner(token: Token)
      requires Valid()
      ensures HoldsLock(s, token) ==>
        var k := s.takeovers[token]; k.client in s.owners ==> s.owners[k.client].node == k.from
    {
      ValidInv();
    }

    /** One of the two transactions: the comparisons, the owner key put and the lock deleted, or nothing. */
    method MoveOwner(c: Client, from: Node, n: Node, token: Token, absent: bool, fate: Fate) returns (r: Move)
      requires Valid() && Idle(s, n, c) && s.brokers[n].recovery.NoRecovery?
      requires token in s.takeovers && s.takeovers[token] == Takeover(c, n, from, HandedOff)
      modifies this
      ensures Valid() && Idle(s, n, c) && s.brokers[n].recovery.NoRecovery?
      ensures token in s.takeovers && s.takeovers[token].(phase := HandedOff) == Takeover(c, n, from, HandedOff)
      ensures old(steps) <= steps && old(states) <= states
      ensures s == old(s) || (HoldsLock(old(s), token) && !HoldsLock(s, token) && s.takeovers[token].phase.Ended?)
      ensures r.Moved? ==> ServesLive(s, n, c) && OwnedBy(s, c, n) && c !in s.locks && s != old(s)
      ensures r.Moved? ==> forall m :: ServesLive(s, m, c) ==> m == n
      ensures r.NoMatch? <==>
        && fate.Answered? && s == old(s)
        && !(HoldsLock(s, token) && if absent then c !in s.owners else OwnedBy(s, c, from))
      ensures r.MoveLeaseGone? ==> s.brokers[n].lease !in s.live && s == old(s)
      ensures r.MoveUnknown? <==> !fate.Answered?
      ensures s != old(s) <==>
        && !fate.NeverArrives? && old(s.brokers[n].lease in s.live) && HoldsLock(old(s), token)
        && if absent then c !in old(s).owners else OwnedBy(old(s), c, from)
      ensures s != old(s) ==> OwnedBy(s, c, n)
      ensures others == old(others)
      ensures if r.Moved? then EndsWithMove(old(steps), steps, token) else Quiet(old(steps), steps, n, c, token)
      ensures s == old(s) ==> steps == old(steps)
    {
      hide Behaviour;
      if fate.NeverArrives? {
        return MoveUnknown;
      }
      var answered := fate.Answered?;
      if !(HoldsLock(s, token) && if absent then c !in s.owners else OwnedBy(s, c, from)) {
        return if answered then NoMatch else MoveUnknown;
      }
      if s.brokers[n].lease !in s.live {
        return if answered then MoveLeaseGone else MoveUnknown;
      }
      Do(if absent then FinalizeAbsent(token, answered) else FinalizeMoved(token, answered));
      ValidInv();
      r := if answered then Moved else MoveUnknown;
    }

    /** releaseTakeoverLock, which only logs that it failed. */
    method Unlock(c: Client, n: Node, token: Token, ghost lock: Lock, fate: Fate)
      requires Valid() && Idle(s, n, c) && token in s.takeovers && !s.takeovers[token].phase.Ended? &&
        Under(s, token, lock)
      modifies this
      ensures Valid() && Idle(s, n, c) && Under(s, token, lock)
      ensures token in s.takeovers && s.takeovers[token] == old(s).takeovers[token].(phase := Ended)
      ensures old(steps) <= steps && old(states) <= states
      ensures s.brokers == old(s).brokers && s.live == old(s).live
      ensures HoldsLock(s, token) <==> fate.NeverArrives? && HoldsLock(old(s), token)
      ensures s.owners == old(s.owners) && forall d | d != old(s).takeovers[token].client ::
        (d in s.locks <==> d in old(s).locks) && (d in s.locks ==> s.locks[d] == old(s).locks[d])
      ensures Quiet(old(steps), steps, n, c, token)
    {
      hide Behaviour;
      Do(if fate.NeverArrives? then Abandon(token) else ReleaseLock(token));
    }
  }
}
