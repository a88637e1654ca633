/**
 What the store promises its clients, over every run: snapshots are stable, reads
 are closed under dependencies, and reads of a key never go back in time.
 */
module Guarantees {
  import opened Vectors
  import opened Store
  import opened Replication
  import ReplicaGroup
  import Convergence
  import SingleCore
  import GrStall
  import StableTimeSafety
  import Client
  import opened System

  /** Entry i of `bound` is at most entry i of every version vector of replica `r`. */
  ghost predicate Covered(cfg: Config, s: State, r: nat, bound: Vec)
    requires Shape(cfg, s) && r < cfg.replicas
  {
    forall q :: 0 <= q < cfg.partitions ==> Leq(bound, VersionVector(cfg, s, r, q))
  }

  /** `after` is `before` with versions put in front, each newer than the bound of its source. */
  ghost predicate ExtendsAbove(before: Chain, after: Chain, bound: Vec) {
    exists front: Chain :: after == front + before &&
      forall v :: v in front ==> v.source < |bound| && v.time > bound[v.source]
  }

  lemma ExtendsTrans(a: Chain, b: Chain, c: Chain, bound: Vec)
    requires ExtendsAbove(a, b, bound) && ExtendsAbove(b, c, bound)
    ensures ExtendsAbove(a, c, bound)
  {
    var f: Chain :| b == f + a && forall v :: v in f ==> v.source < |bound| && v.time > bound[v.source];
    var h: Chain :| c == h + b && forall v :: v in h ==> v.source < |bound| && v.time > bound[v.source];
    assert c == (h + f) + a;
  }

  lemma GrowsExtends(before: Chain, after: Chain, vv: Vec, bound: Vec)
    requires SingleCore.GrowsNewer(before, after, vv) && Leq(bound, vv)
    ensures ExtendsAbove(before, after, bound)
  {
    var front: Chain := [];
    if after != before {
      var v :| after == [v] + before && v.source < |vv| && v.time > vv[v.source];
      front := [v];
    }
    assert after == front + before;
  }

  lemma ExtendsStep(cfg: Config, s: State, act: Action, r: nat, q: nat, key: nat, bound: Vec)
    requires Inv(cfg, s) && Enabled(cfg, s, act) && r < cfg.replicas && q < cfg.partitions && Covered(cfg, s, r, bound)
    ensures ExtendsAbove(KeyChain(cfg, s, r, q, key), KeyChain(cfg, Apply(cfg, s, act), r, q, key), bound)
  {
    if act.Replicate? && act.p == q {
      SingleCore.StoredIsNewer(cfg.policy, s.groups[q], act.a, r, key);
    }
    GrowsExtends(KeyChain(cfg, s, r, q, key), KeyChain(cfg, Apply(cfg, s, act), r, q, key), VersionVector(cfg, s, r, q),
      bound);
  }

  lemma CoveredStep(cfg: Config, s: State, act: Action, r: nat, bound: Vec)
    requires Inv(cfg, s) && Enabled(cfg, s, act) && r < cfg.replicas && Covered(cfg, s, r, bound)
    ensures Covered(cfg, Apply(cfg, s, act), r, bound)
  {
    var s' := Apply(cfg, s, act);
    forall q | 0 <= q < cfg.partitions
      ensures Leq(bound, VersionVector(cfg, s', r, q))
    {
      assert Leq(bound, VersionVector(cfg, s, r, q));
      if act.Replicate? && act.p == q {
        SingleCore.VersionVectorGrows(cfg.policy, s.groups[q], act.a, r);
        StableTimeSafety.LeqTrans(bound, VersionVector(cfg, s, r, q), VersionVector(cfg, s', r, q));
      }
    }
  }

  /** Once a bound is covered, no later step stores anything at or below it. */
  lemma {:induction false} NothingBelow(cfg: Config, ss: seq<State>, acts: seq<Action>, j: nat, k: nat, r: nat, q: nat,
    key: nat, bound: Vec)
    requires Run(cfg, ss, acts) && j <= k < |ss| && r < cfg.replicas && q < cfg.partitions
    requires Shape(cfg, ss[j]) && Covered(cfg, ss[j], r, bound)
    ensures Shape(cfg, ss[k]) && Covered(cfg, ss[k], r, bound)
    ensures ExtendsAbove(KeyChain(cfg, ss[j], r, q, key), KeyChain(cfg, ss[k], r, q, key), bound)
    decreases k
  {
    if j == k {
      var none: Chain := [];
      assert KeyChain(cfg, ss[k], r, q, key) == none + KeyChain(cfg, ss[j], r, q, key);
    } else {
      NothingBelow(cfg, ss, acts, j, k - 1, r, q, key, bound);
      NothingBelowStep(cfg, ss, acts, k - 1, r, q, key, bound);
      ExtendsTrans(KeyChain(cfg, ss[j], r, q, key), KeyChain(cfg, ss[k - 1], r, q, key),
        KeyChain(cfg, ss[k], r, q, key), bound);
    }
  }

  lemma NothingBelowStep(cfg: Config, ss: seq<State>, acts: seq<Action>, k: nat, r: nat, q: nat, key: nat, bound: Vec)
    requires Run(cfg, ss, acts) && k < |acts| && r < cfg.replicas && q < cfg.partitions
    requires Shape(cfg, ss[k]) && Covered(cfg, ss[k], r, bound)
    ensures Shape(cfg, ss[k + 1]) && Covered(cfg, ss[k + 1], r, bound)
    ensures ExtendsAbove(KeyChain(cfg, ss[k], r, q, key), KeyChain(cfg, ss[k + 1], r, q, key), bound)
  {
    RunInv(cfg, ss, acts, k);
    CoveredStep(cfg, ss[k], acts[k], r, bound);
    ExtendsStep(cfg, ss[k], acts[k], r, q, key, bound);
  }

  // ---- GentleRain snapshots

  /** `t` for every source. */
  function Everywhere(n: nat, t: Time): (v: Vec)
    ensures |v| == n && forall i :: 0 <= i < n ==> v[i] == t
  {
    seq(n, _ => t)
  }

  /**
   Snapshot stability. Let `t` be at most the stable time that some server of
   replica `r` had when the snapshot was taken, at step j. Every slice of every
   partition reads, at any later step k, exactly the version it would have read at
   step j, and nothing at or below `t` was stored in between.
   */
  lemma SnapshotStable(cfg: Config, ss: seq<State>, acts: seq<Action>, j: nat, k: nat, r: nat, p: nat, t: Time, q: nat,
    key: nat)
    requires Run(cfg, ss, acts) && cfg.policy == Gr && j <= k < |ss| && r < cfg.replicas && p < cfg.partitions
    requires q < cfg.partitions
    requires Shape(cfg, ss[j]) && |Gst(cfg, ss[j], r, p)| == 1 && t <= Gst(cfg, ss[j], r, p)[0]
    ensures Shape(cfg, ss[k])
    ensures ExtendsAbove(KeyChain(cfg, ss[j], r, q, key), KeyChain(cfg, ss[k], r, q, key), Everywhere(cfg.replicas, t))
    ensures ReadAt(KeyChain(cfg, ss[k], r, q, key), v => InSnapshot(t, v)) ==
      ReadAt(KeyChain(cfg, ss[j], r, q, key), v => InSnapshot(t, v))
  {
    var bound := Everywhere(cfg.replicas, t);
    SnapshotCovered(cfg, ss, acts, j, r, p, t);
    NothingBelow(cfg, ss, acts, j, k, r, q, key, bound);
    ReadUnchanged(KeyChain(cfg, ss[j], r, q, key), KeyChain(cfg, ss[k], r, q, key), cfg.replicas, t);
  }

  lemma SnapshotCovered(cfg: Config, ss: seq<State>, acts: seq<Action>, j: nat, r: nat, p: nat, t: Time)
    requires Run(cfg, ss, acts) && cfg.policy == Gr && j < |ss| && r < cfg.replicas && p < cfg.partitions
    requires Shape(cfg, ss[j]) && |Gst(cfg, ss[j], r, p)| == 1 && t <= Gst(cfg, ss[j], r, p)[0]
    ensures Covered(cfg, ss[j], r, Everywhere(cfg.replicas, t))
  {
    StableTimeSafe(cfg, ss, acts, j, r);
    forall q | 0 <= q < cfg.partitions
      ensures Leq(Everywhere(cfg.replicas, t), VersionVector(cfg, ss[j], r, q))
    {
      assert IsStable(cfg, ss[j], r, Gst(cfg, ss[j], r, p));
      assert BelowVector(Gr, Gst(cfg, ss[j], r, p), VersionVector(cfg, ss[j], r, q));
    }
  }

  lemma ReadUnchanged(before: Chain, after: Chain, n: nat, t: Time)
    requires ExtendsAbove(before, after, Everywhere(n, t))
    ensures ReadAt(after, v => InSnapshot(t, v)) == ReadAt(before, v => InSnapshot(t, v))
  {
    var front: Chain :| after == front + before && forall v :: v in front ==> v.source < n && v.time > t;
    ReadSkips(front, before, v => InSnapshot(t, v));
  }

  /**
   What a stable time of GentleRain means: every update at or below it, from any
   replica, is stored, superseded or, because of the defect described in GrStall, stuck.
   */
  lemma StableIsComplete(cfg: Config, ss: seq<State>, acts: seq<Action>, k: nat, r: nat, p: nat, q: nat, u: Update)
    requires Run(cfg, ss, acts) && cfg.policy == Gr && k < |ss| && r < cfg.replicas && p < cfg.partitions
    requires q < cfg.partitions
    requires Shape(cfg, ss[k]) && |Gst(cfg, ss[k], r, p)| == 1 && u.time <= Gst(cfg, ss[k], r, p)[0]
    requires u.source < cfg.replicas && u in ss[k].groups[q][u.source].log
    ensures ReplicaGroup.Settled(StoreAt(cfg, ss[k], r, q), u) || Stuck(cfg, ss[k], r, q, u)
  {
    RunInv(cfg, ss, acts, k);
    var g := ss[k].groups[q];
    assert SingleCore.Inv(Gr, g);
    assert ReplicaGroup.OwnOk(g[u.source], u.source);
    if u.source != r {
      SnapshotCovered(cfg, ss, acts, k, r, p, Gst(cfg, ss[k], r, p)[0]);
      assert Leq(Everywhere(cfg.replicas, Gst(cfg, ss[k], r, p)[0]), VersionVector(cfg, ss[k], r, q));
      GrStall.SettledOrStuck(g, r, u);
    }
  }

  /**
   Causal past in GentleRain. If the version a get returns was written by a client with
   that session, every update the client had read or written before has been handled at
   every partition of the reader's replica.
   */
  lemma GrCausalPast(cfg: Config, ss: seq<State>, acts: seq<Action>, k: nat, r: nat, p: nat, key: nat, v: Version,
    session: seq<Client.ScalarResponse>, q: nat, u: Update, seen: Client.ScalarResponse)
    requires Run(cfg, ss, acts) && cfg.policy == Gr && k < |ss| && r < cfg.replicas && p < cfg.partitions
    requires q < cfg.partitions
    requires Shape(cfg, ss[k]) && |Gst(cfg, ss[k], r, p)| == 1
    requires ReadAt(KeyChain(cfg, ss[k], r, p, key), w => GrVisible(r, Gst(cfg, ss[k], r, p)[0], w)) == Some(v)
    requires v.source != r && v.deps == [Client.ScalarAfter(session).dep]
    requires seen in session && u.time == seen.time && u.source < cfg.replicas && u in ss[k].groups[q][u.source].log
    ensures ReplicaGroup.Settled(StoreAt(cfg, ss[k], r, q), u) || Stuck(cfg, ss[k], r, q, u)
  {
    RunInv(cfg, ss, acts, k);
    NewerThanDeps(cfg, ss[k], r, p, key, v);
    Client.ScalarCovers(session);
    assert u.time <= v.deps[0] < v.time;
    assert GrVisible(r, Gst(cfg, ss[k], r, p)[0], v);
    StableIsComplete(cfg, ss, acts, k, r, p, q, u);
  }

  /** A stored version is newer than its dependencies. */
  lemma NewerThanDeps(cfg: Config, s: State, r: nat, p: nat, key: nat, v: Version)
    requires Inv(cfg, s) && r < cfg.replicas && p < cfg.partitions && v in KeyChain(cfg, s, r, p, key)
    ensures forall d :: 0 <= d < |v.deps| ==> v.deps[d] < v.time
  {
    var g := s.groups[p];
    assert SingleCore.Inv(cfg.policy, g) && Convergence.OriginInv(g);
    assert Convergence.Origin(g, r, key, v);
    assert SingleCore.Local(g[v.source], v.source);
  }

  /** The snapshot at `t` reads `u` or a newer version of its key. */
  predicate SnapshotHas(items: Items, u: Update, t: Time) {
    var read := ReadAt(ChainOf(items, u.key), v => InSnapshot(t, v));
    read.Some? && u.time <= read.value.time
  }

  /** A stored version later than the snapshot took the place of `u`. */
  ghost predicate ReplacedLater(items: Items, u: Update, t: Time) {
    exists v :: v in ChainOf(items, u.key) && v.time > t
  }

  /** `u` has arrived at replica `r` but waits behind a stalled update, or is one. */
  ghost predicate Stuck(cfg: Config, s: State, r: nat, q: nat, u: Update)
    requires Shape(cfg, s) && r < cfg.replicas && q < cfg.partitions
  {
    u.source < cfg.replicas && u.source != r && u in s.groups[q][r].rep.queues[u.source]
  }

  /**
   What the store of a server makes of an update: a snapshot at `t` has it, or it is not there for
   one of two reasons.
   */
  ghost predicate InSnapshotOrLost(cfg: Config, s: State, r: nat, q: nat, u: Update, t: Time)
    requires Shape(cfg, s) && r < cfg.replicas && q < cfg.partitions
  {
    var items := StoreAt(cfg, s, r, q);
    || SnapshotHas(items, u, t)
    || (VersionOf(u) !in ChainOf(items, u.key) && (ReplacedLater(items, u, t) || Stuck(cfg, s, r, q, u)))
  }

  /** None of the first `k` deliveries stalls, at any server. */
  ghost predicate NoStall(cfg: Config, ss: seq<State>, acts: seq<Action>, k: nat)
    requires |ss| == |acts| + 1 && k <= |acts|
  {
    forall j :: 0 <= j < k && acts[j].Replicate? && Shape(cfg, ss[j]) && Enabled(cfg, ss[j], acts[j]) ==>
      !GrStall.Stalls(ss[j].groups[acts[j].p], acts[j].a)
  }

  lemma QueuesStep(cfg: Config, s: State, act: Action, q: nat)
    requires Inv(cfg, s) && cfg.policy == Gr && Enabled(cfg, s, act) && q < cfg.partitions
    requires GrStall.QueuesEmpty(s.groups[q]) && (act.Replicate? ==> !GrStall.Stalls(s.groups[act.p], act.a))
    ensures GrStall.QueuesEmpty(Apply(cfg, s, act).groups[q])
  {
    if act.Replicate? && act.p == q {
      assert SingleCore.Inv(Gr, s.groups[q]);
      GrStall.EmptyIff(s.groups[q], act.a);
    }
  }

  lemma InitQueues(cfg: Config, q: nat)
    requires Valid(cfg) && q < cfg.partitions
    ensures GrStall.QueuesEmpty(Init(cfg).groups[q])
  {
    var g := Init(cfg).groups[q];
    assert forall r :: 0 <= r < |g| ==> g[r] == ReplicaGroup.InitMember(cfg.replicas);
  }

  lemma {:induction false} QueuesInRuns(cfg: Config, ss: seq<State>, acts: seq<Action>, k: nat, q: nat)
    requires Run(cfg, ss, acts) && cfg.policy == Gr && k < |ss| && q < cfg.partitions && NoStall(cfg, ss, acts, k)
    ensures Shape(cfg, ss[k]) && GrStall.QueuesEmpty(ss[k].groups[q])
    decreases k
  {
    RunShape(cfg, ss, acts, k);
    if k == 0 {
      InitQueues(cfg, q);
    } else {
      QueuesInRuns(cfg, ss, acts, k - 1, q);
      RunInv(cfg, ss, acts, k - 1);
      QueuesStep(cfg, ss[k - 1], acts[k - 1], q);
    }
  }

  /** In runs of GentleRain without a stall nothing is ever stuck. */
  lemma NeverStuck(cfg: Config, ss: seq<State>, acts: seq<Action>, k: nat, r: nat, q: nat, u: Update)
    requires Run(cfg, ss, acts) && cfg.policy == Gr && k < |ss| && NoStall(cfg, ss, acts, k)
    requires r < cfg.replicas && q < cfg.partitions && Shape(cfg, ss[k])
    ensures !Stuck(cfg, ss[k], r, q, u)
  {
    QueuesInRuns(cfg, ss, acts, k, q);
    assert GrStall.NothingQueued(ss[k].groups[q][r].rep);
  }

  /**
   What a snapshot contains. Every update issued anywhere with a time at most the
   snapshot time is in the snapshot, as itself or as a newer version of its key, or it was
   discarded in favour of a version later than the snapshot, or it is stuck.
   */
  lemma SnapshotComplete(cfg: Config, ss: seq<State>, acts: seq<Action>, k: nat, r: nat, p: nat, q: nat, u: Update,
    t: Time)
    requires Run(cfg, ss, acts) && cfg.policy == Gr && k < |ss|
    requires r < cfg.replicas && p < cfg.partitions && q < cfg.partitions
    requires Shape(cfg, ss[k]) && |Gst(cfg, ss[k], r, p)| == 1 && u.time <= t <= Gst(cfg, ss[k], r, p)[0]
    requires u.source < cfg.replicas && u in ss[k].groups[q][u.source].log
    ensures InSnapshotOrLost(cfg, ss[k], r, q, u, t)
  {
    StableIsComplete(cfg, ss, acts, k, r, p, q, u);
    ChainOrdered(cfg, ss, acts, k, r, q, u.key);
    var items := StoreAt(cfg, ss[k], r, q);
    if ReplicaGroup.Settled(items, u) { SettledInSnapshot(items, u, t); }
    else { assert VersionOf(u) !in ChainOf(items, u.key); }
  }

  lemma SettledInSnapshot(items: Items, u: Update, t: Time)
    requires ReplicaGroup.Settled(items, u) && Ordered(ChainOf(items, u.key)) && u.time <= t
    ensures SnapshotHas(items, u, t) || (VersionOf(u) !in ChainOf(items, u.key) && ReplacedLater(items, u, t))
  {
    var chain := ChainOf(items, u.key);
    ReadNewest(chain, v => InSnapshot(t, v));
    if VersionOf(u) in chain {
      assert InSnapshot(t, VersionOf(u));
    } else {
      var v :| v in chain && ReplicaGroup.Newer(v, u);
      if v.time <= t { assert InSnapshot(t, v); }
    }
  }

  /**
   Causality of a snapshot. If it covers an update `y`, the same holds for everything the
   request of `y` depended on.
   */
  lemma SnapshotCausal(cfg: Config, ss: seq<State>, acts: seq<Action>, k: nat, r: nat, p: nat, y: Update,
    q: nat, u: Update, o: nat, t: Time)
    requires Run(cfg, ss, acts) && cfg.policy == Gr && k < |ss|
    requires r < cfg.replicas && p < cfg.partitions && q < cfg.partitions && o < cfg.partitions
    requires Shape(cfg, ss[k]) && |Gst(cfg, ss[k], r, p)| == 1 && y.time <= t <= Gst(cfg, ss[k], r, p)[0]
    requires y.source < cfg.replicas && y in ss[k].groups[o][y.source].log && |y.deps| == 1
    requires u.source < cfg.replicas && u in ss[k].groups[q][u.source].log && u.time <= y.deps[0]
    ensures InSnapshotOrLost(cfg, ss[k], r, q, u, t)
  {
    RunInv(cfg, ss, acts, k);
    assert SingleCore.Inv(cfg.policy, ss[k].groups[o]);
    assert SingleCore.Local(ss[k].groups[o][y.source], y.source);
    assert SingleCore.AfterDeps(y);
    SnapshotComplete(cfg, ss, acts, k, r, p, q, u, t);
  }

  /**
   A limit: a put that loses to a newer version is discarded, also from snapshots that
   are older than the winner. After the put of `u` a snapshot at `t` has `u`, or a newer
   version of its key, if and only if it was stored or the snapshot had one before.
   */
  lemma SnapshotHasUpdate(items: Items, u: Update, t: Time)
    requires AllOrdered(items) && u.time <= t
    ensures SnapshotHas(Put(items, u.key, VersionOf(u)), u, t) <==>
      !Discards(ChainOf(items, u.key), VersionOf(u)) || SnapshotHas(items, u, t)
  {
    var chain := ChainOf(items, u.key);
    if !Discards(chain, VersionOf(u)) {
      assert ChainOf(Put(items, u.key, VersionOf(u)), u.key) == [VersionOf(u)] + chain;
    }
  }

  // ---- GentleRain Vector reads

  /**
   Dependency closure. A get returns a version of another replica only when, for
   each other replica i, every update issued by i with a time at most entry i of the
   version's dependency vector has been handled at every partition of the reader's
   replica: it is stored there, or a newer version of its key is.
   */
  lemma DependencyClosed(cfg: Config, ss: seq<State>, acts: seq<Action>, k: nat, r: nat, p: nat, key: nat, v: Version,
    q: nat, u: Update)
    requires Run(cfg, ss, acts) && cfg.policy == Grv && k < |ss| && r < cfg.replicas && p < cfg.partitions
    requires q < cfg.partitions
    requires Shape(cfg, ss[k])
    requires ReadAt(KeyChain(cfg, ss[k], r, p, key), w => GrvVisible(r, Gst(cfg, ss[k], r, p), w)) == Some(v)
    requires v.source != r
    requires u.source < cfg.replicas && u.source < |v.deps| && u.source != r
    requires u in ss[k].groups[q][u.source].log && u.time <= v.deps[u.source]
    ensures ReplicaGroup.Settled(StoreAt(cfg, ss[k], r, q), u)
  {
    RunInv(cfg, ss, acts, k);
    StableTimeSafe(cfg, ss, acts, k, r);
    var gst, vv := Gst(cfg, ss[k], r, p), VersionVector(cfg, ss[k], r, q);
    assert GrvVisible(r, gst, v);
    assert IsStable(cfg, ss[k], r, gst);
    assert BelowVector(Grv, gst, vv);
    assert v.deps[u.source] <= gst[u.source] <= vv[u.source];
    SingleCore.PrefixComplete(ss[k].groups[q], r, u);
  }

  /**
   Causal past. If the version a get returns was written with the dependency vector
   of a client session, then everything that client had read or written before is
   present, or superseded, at the reader's replica.
   */
  lemma CausalPastPresent(cfg: Config, ss: seq<State>, acts: seq<Action>, k: nat, r: nat, p: nat, key: nat, v: Version,
    session: seq<Client.Response>, q: nat, u: Update)
    requires Run(cfg, ss, acts) && cfg.policy == Grv && k < |ss| && r < cfg.replicas && p < cfg.partitions
    requires q < cfg.partitions
    requires Shape(cfg, ss[k])
    requires ReadAt(KeyChain(cfg, ss[k], r, p, key), w => GrvVisible(r, Gst(cfg, ss[k], r, p), w)) == Some(v)
    requires v.source != r
    requires forall x :: x in session ==> Client.Fits(cfg.replicas, x)
    requires v.deps == Client.RequestDeps(Client.After(cfg.replicas, session))
    requires u.source < cfg.replicas && u.source != r && u in ss[k].groups[q][u.source].log
    requires Client.Observed(session, u.source, u.time)
    ensures ReplicaGroup.Settled(StoreAt(cfg, ss[k], r, q), u)
  {
    Client.RequestCovers(cfg.replicas, session);
    DependencyClosed(cfg, ss, acts, k, r, p, key, v, q, u);
  }

  /** Prefix completeness in every state of every run of GentleRain Vector. */
  lemma PrefixCompleteInRuns(cfg: Config, ss: seq<State>, acts: seq<Action>, k: nat, r: nat, q: nat, u: Update)
    requires Run(cfg, ss, acts) && cfg.policy == Grv && k < |ss| && r < cfg.replicas && q < cfg.partitions
    requires Shape(cfg, ss[k])
    requires u.source < cfg.replicas && u.source != r && u in ss[k].groups[q][u.source].log
    requires u.time <= VersionVector(cfg, ss[k], r, q)[u.source]
    ensures ReplicaGroup.Settled(StoreAt(cfg, ss[k], r, q), u)
  {
    RunInv(cfg, ss, acts, k);
    SingleCore.PrefixComplete(ss[k].groups[q], r, u);
  }

  /** `v` was the stable vector of a server of replica `r` in one of the states up to `k`. */
  ghost predicate WasGst(cfg: Config, ss: seq<State>, k: nat, r: nat, v: Vec) {
    exists j, p :: 0 <= j <= k < |ss| && Shape(cfg, ss[j]) && r < cfg.replicas && 0 <= p < cfg.partitions &&
      v == Gst(cfg, ss[j], r, p)
  }

  /**
   What a client of GentleRain Vector sends along is stable: if all its gets were answered
   by servers of replica `r`, its stable vector is below every version vector of `r`.
   */
  lemma SessionIsStable(cfg: Config, ss: seq<State>, acts: seq<Action>, k: nat, r: nat, session: seq<Client.Response>)
    requires Run(cfg, ss, acts) && cfg.policy == Grv && k < |ss| && r < cfg.replicas && Shape(cfg, ss[k])
    requires forall x :: x in session ==> Client.Fits(cfg.replicas, x)
    requires forall x :: x in session && x.GetResponse? ==> WasGst(cfg, ss, k, r, x.gst)
    ensures IsStable(cfg, ss[k], r, Client.After(cfg.replicas, session).gst)
  {
    var gst := Client.After(cfg.replicas, session).gst;
    NonNegative(cfg, ss, acts, k, r);
    forall q | 0 <= q < cfg.partitions
      ensures BelowVector(Grv, gst, VersionVector(cfg, ss[k], r, q))
    {
      assert Leq(Everywhere(cfg.replicas, 0.0), VersionVector(cfg, ss[k], r, q));
      forall i | 0 <= i < cfg.replicas
        ensures gst[i] <= VersionVector(cfg, ss[k], r, q)[i]
      {
        Client.SessionExact(cfg.replicas, session, i);
        if gst[i] != 0.0 {
          var x :| x in session && x.GetResponse? && i < |x.gst| && x.gst[i] == gst[i];
          GstStays(cfg, ss, acts, k, r, q, x.gst);
        }
      }
    }
  }

  lemma GstStays(cfg: Config, ss: seq<State>, acts: seq<Action>, k: nat, r: nat, q: nat, v: Vec)
    requires Run(cfg, ss, acts) && cfg.policy == Grv && k < |ss| && r < cfg.replicas && q < cfg.partitions
    requires Shape(cfg, ss[k]) && WasGst(cfg, ss, k, r, v)
    ensures Leq(v, VersionVector(cfg, ss[k], r, q))
  {
    var j, p :| 0 <= j <= k < |ss| && Shape(cfg, ss[j]) && r < cfg.replicas && 0 <= p < cfg.partitions &&
      v == Gst(cfg, ss[j], r, p);
    StableTimeSafe(cfg, ss, acts, j, r);
    assert IsStable(cfg, ss[j], r, v);
    forall q' | 0 <= q' < cfg.partitions
      ensures Leq(v, VersionVector(cfg, ss[j], r, q'))
    {
      assert BelowVector(Grv, v, VersionVector(cfg, ss[j], r, q'));
    }
    NothingBelow(cfg, ss, acts, j, k, r, q, 0, v);
  }

  // ---- dependencies of dependencies

  /** The client has read or written `x`: by a get, a put, or a transaction whose vector covers it. */
  ghost predicate Knows(session: seq<Client.Response>, x: Version) {
    exists s, t :: s in session && x.time <= t && Client.Shows(s, x.source, t)
  }

  /** Every entry of the dependency vector of `x` but that of `skip` is stable, as a get at replica `r` tests it. */
  predicate StableExcept(r: nat, gst: Vec, x: Version, skip: nat) {
    |x.deps| <= |gst| && forall i :: 0 <= i < |x.deps| && i != r && i != skip ==> x.deps[i] <= gst[i]
  }

  /**
   A limit of GentleRain Vector. A client of replica `a` knows `x` and writes `y`. At
   another replica `r` where `y` is visible, `x` is visible exactly when it was written
   there or the entries of its vector other than the one of its source are stable: the
   vector of `y` covers `x` itself but not what `x` depends on. Every stored version is
   newer than its dependencies (`NewerThanDeps`).
   */
  lemma TransitiveVisibility(n: nat, a: nat, r: nat, gstR: Vec, x: Version, y: Version, session: seq<Client.Response>)
    requires a < n && r < n && a != r && |gstR| == n && |x.deps| == n && x.source < n
    requires forall i :: 0 <= i < n ==> x.deps[i] < x.time
    requires (forall s :: s in session ==> Client.Fits(n, s)) && Knows(session, x)
    requires y.source == a && y.deps == Client.RequestDeps(Client.After(n, session)) && GrvVisible(r, gstR, y)
    ensures GrvVisible(r, gstR, x) <==> x.source == r || StableExcept(r, gstR, x, x.source)
  {
    Client.RequestCovers(n, session);
    var s, t :| s in session && x.time <= t && Client.Shows(s, x.source, t);
    assert Client.Observed(session, x.source, t);
    assert x.time <= y.deps[x.source];
  }

  /**
   What the writer has put itself is always there: `x` was put after the first `k` responses
   of the session and `y` after all of them, so `x` is visible wherever `y` is.
   */
  lemma OwnPutVisible(n: nat, a: nat, r: nat, gstR: Vec, x: Version, y: Version, session: seq<Client.Response>, k: nat)
    requires a < n && r < n && |gstR| == n && k <= |session| && forall s :: s in session ==> Client.Fits(n, s)
    requires x.source == y.source == a && y.deps == Client.RequestDeps(Client.After(n, session))
    requires (forall s :: s in session[..k] ==> Client.Fits(n, s))
    requires x.deps == Client.RequestDeps(Client.After(n, session[..k]))
    requires GrvVisible(r, gstR, y)
    ensures GrvVisible(r, gstR, x)
  {
    Client.RequestGrows(n, session, k);
  }

  /**
   If `x` came from another replica and was read by a get, only the entry of the writer's
   own replica can be missing: the get had tested all the others.
   */
  lemma GetVisibility(n: nat, a: nat, r: nat, gstA: Vec, gstR: Vec, x: Version, y: Version,
    session: seq<Client.Response>)
    requires a < n && r < n && a != r && |gstA| == |gstR| == n && |x.deps| == n
    requires forall s :: s in session ==> Client.Fits(n, s)
    requires x.source != a && x.source != r && GrvVisible(a, gstA, x)
    requires Client.GetResponse(gstA, x.time, x.source) in session
    requires y.source == a && y.deps == Client.RequestDeps(Client.After(n, session)) && GrvVisible(r, gstR, y)
    ensures GrvVisible(r, gstR, x) <==> x.deps[a] <= gstR[a]
  {
    Client.RequestCovers(n, session);
    assert Leq(gstA, y.deps);
    forall i | 0 <= i < n && i != a && i != r
      ensures x.deps[i] <= gstR[i]
    {
      assert x.deps[i] <= gstA[i] <= y.deps[i] <= gstR[i];
    }
  }

  // ---- monotonic reads

  /** Visibility of a get in either protocol. */
  predicate GetVisible(pol: Policy, own: nat, gst: Vec, v: Version) {
    if pol == Gr then |gst| == 1 && GrVisible(own, gst[0], v) else GrvVisible(own, gst, v)
  }

  /** What a get of `key` at a server returns in state `s`. */
  ghost function Get(cfg: Config, s: State, r: nat, p: nat, key: nat): Option<Version>
    requires Shape(cfg, s) && r < cfg.replicas && p < cfg.partitions
  {
    var gst := Gst(cfg, s, r, p);
    ReadAt(KeyChain(cfg, s, r, p, key), v => GetVisible(cfg.policy, r, gst, v))
  }

  /** Written here, or stable here: by its time in GentleRain, by its dependencies on others in GentleRain Vector. */
  ghost predicate LocalOrStable(pol: Policy, r: nat, gst: Vec, v: Version) {
    || v.source == r
    || (pol == Gr && |gst| == 1 && v.time <= gst[0])
    || (pol == Grv && |v.deps| <= |gst| && forall i :: 0 <= i < |v.deps| && i != r ==> v.deps[i] <= gst[i])
  }

  /**
   Exactly what a get returns: something as new as `t` if and only if there is a local or stable
   version as new as `t`.
   */
  lemma GetIff(cfg: Config, ss: seq<State>, acts: seq<Action>, k: nat, r: nat, p: nat, key: nat, t: Time)
    requires Run(cfg, ss, acts) && k < |ss| && r < cfg.replicas && p < cfg.partitions
    ensures Shape(cfg, ss[k]) && (cfg.policy == Gr ==> |Gst(cfg, ss[k], r, p)| == 1)
    ensures var got := Get(cfg, ss[k], r, p, key);
      (got.Some? && t <= got.value.time) <==>
        exists v :: v in KeyChain(cfg, ss[k], r, p, key) && t <= v.time
          && LocalOrStable(cfg.policy, r, Gst(cfg, ss[k], r, p), v)
  {
    RunShape(cfg, ss, acts, k);
    GstSize(cfg, ss, acts, k, r, p);
    ChainOrdered(cfg, ss, acts, k, r, p, key);
    var gst, chain := Gst(cfg, ss[k], r, p), KeyChain(cfg, ss[k], r, p, key);
    ReadNewest(chain, v => GetVisible(cfg.policy, r, gst, v));
    assert forall v :: GetVisible(cfg.policy, r, gst, v) <==> LocalOrStable(cfg.policy, r, gst, v);
  }

  lemma GstSize(cfg: Config, ss: seq<State>, acts: seq<Action>, k: nat, r: nat, p: nat)
    requires Run(cfg, ss, acts) && k < |ss| && r < cfg.replicas && p < cfg.partitions && Shape(cfg, ss[k])
    ensures |Gst(cfg, ss[k], r, p)| == if cfg.policy == Gr then 1 else cfg.replicas
  {
    StableTimeSafe(cfg, ss, acts, k, r);
    assert IsStable(cfg, ss[k], r, Gst(cfg, ss[k], r, p));
    assert BelowVector(cfg.policy, Gst(cfg, ss[k], r, p), VersionVector(cfg, ss[k], r, p));
  }

  /** What was put at a server and not discarded is read there from then on, as itself or as a newer version. */
  lemma LocalPutIsRead(cfg: Config, ss: seq<State>, acts: seq<Action>, j: nat, k: nat, r: nat, p: nat, u: Update)
    requires Run(cfg, ss, acts) && j <= k < |ss| && r < cfg.replicas && p < cfg.partitions
    requires Shape(cfg, ss[j]) && u in ss[j].groups[p][r].log
    ensures Shape(cfg, ss[k])
    ensures Get(cfg, ss[k], r, p, u.key).Some? && u.time <= Get(cfg, ss[k], r, p, u.key).value.time
  {
    RunInv(cfg, ss, acts, j);
    assert SingleCore.Inv(cfg.policy, ss[j].groups[p]);
    assert ReplicaGroup.OwnOk(ss[j].groups[p][r], r);
    assert VersionOf(u) in KeyChain(cfg, ss[j], r, p, u.key) && u.source == r;
    RunShape(cfg, ss, acts, k);
    ChainGrows(cfg, ss, acts, j, k, r, p, u.key);
    GetIff(cfg, ss, acts, k, r, p, u.key, u.time);
    assert LocalOrStable(cfg.policy, r, Gst(cfg, ss[k], r, p), VersionOf(u));
  }

  /** Successive gets of a key at a server never return an older version. */
  lemma GetsNeverGoBack(cfg: Config, ss: seq<State>, acts: seq<Action>, j: nat, k: nat, r: nat, p: nat, key: nat)
    requires Run(cfg, ss, acts) && j <= k < |ss| && r < cfg.replicas && p < cfg.partitions
    ensures Shape(cfg, ss[j]) && Shape(cfg, ss[k])
    ensures
      var first, second := Get(cfg, ss[j], r, p, key), Get(cfg, ss[k], r, p, key);
      first.Some? ==> second.Some? && first.value.time <= second.value.time
  {
    StableTimeGrows(cfg, ss, acts, j, k, r, p);
    var g0, g1 := Gst(cfg, ss[j], r, p), Gst(cfg, ss[k], r, p);
    var c0, c1 := KeyChain(cfg, ss[j], r, p, key), KeyChain(cfg, ss[k], r, p, key);
    ChainGrows(cfg, ss, acts, j, k, r, p, key);
    ChainOrdered(cfg, ss, acts, k, r, p, key);
    var first := ReadAt(c0, v => GetVisible(cfg.policy, r, g0, v));
    if first.Some? {
      VisibleLater(cfg.policy, r, g0, g1, first.value);
      ReadNewest(c1, v => GetVisible(cfg.policy, r, g1, v));
    }
  }

  lemma VisibleLater(pol: Policy, own: nat, g0: Vec, g1: Vec, v: Version)
    requires Leq(g0, g1) && GetVisible(pol, own, g0, v)
    ensures GetVisible(pol, own, g1, v)
  {
  }

  lemma ChainOrdered(cfg: Config, ss: seq<State>, acts: seq<Action>, k: nat, r: nat, p: nat, key: nat)
    requires Run(cfg, ss, acts) && k < |ss| && r < cfg.replicas && p < cfg.partitions && Shape(cfg, ss[k])
    ensures Ordered(KeyChain(cfg, ss[k], r, p, key))
  {
    RunInv(cfg, ss, acts, k);
    assert SingleCore.Inv(cfg.policy, ss[k].groups[p]);
    assert ReplicaGroup.OwnOk(ss[k].groups[p][r], r);
  }

  lemma ChainGrows(cfg: Config, ss: seq<State>, acts: seq<Action>, j: nat, k: nat, r: nat, p: nat, key: nat)
    requires Run(cfg, ss, acts) && j <= k < |ss| && r < cfg.replicas && p < cfg.partitions && Shape(cfg, ss[j])
    requires Shape(cfg, ss[k])
    ensures forall v :: v in KeyChain(cfg, ss[j], r, p, key) ==> v in KeyChain(cfg, ss[k], r, p, key)
  {
    var bound := Everywhere(cfg.replicas, 0.0);
    NonNegative(cfg, ss, acts, j, r);
    NothingBelow(cfg, ss, acts, j, k, r, p, key, bound);
  }

  lemma NonNegative(cfg: Config, ss: seq<State>, acts: seq<Action>, j: nat, r: nat)
    requires Run(cfg, ss, acts) && j < |ss| && r < cfg.replicas && Shape(cfg, ss[j])
    ensures Covered(cfg, ss[j], r, Everywhere(cfg.replicas, 0.0))
  {
    RunInv(cfg, ss, acts, j);
    forall q | 0 <= q < cfg.partitions
      ensures Leq(Everywhere(cfg.replicas, 0.0), VersionVector(cfg, ss[j], r, q))
    {
      var g := ss[j].groups[q];
      assert SingleCore.Inv(cfg.policy, g) && SingleCore.Local(g[r], r);
      forall i | 0 <= i < cfg.replicas
        ensures 0.0 <= g[r].rep.vv[i]
      {
        if i != r { assert SingleCore.Timed(g[i], g[r], i); }
      }
    }
  }
}
