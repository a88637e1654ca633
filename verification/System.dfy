/**
 The whole store: P partitions in R replicas, every server with one core. The
 servers of a partition replicate to each other (SingleCore); the servers of a
 replica compute its stable time (StableTime) from their version vectors.
 */
module System {
  import opened Vectors
  import opened Store
  import opened Replication
  import ReplicaGroup
  import SingleCore
  import Tree
  import StableTime
  import StableTimeRounds
  import StableTimeSafety
  import StableTimeExact
  import StableTimeProgress

  datatype Config = Config(policy: Policy, replicas: nat, partitions: nat, fanout: nat, clients: nat)

  /** GentleRain computes its stable time correctly only from two partitions on, see `OnePartition`. */
  predicate Valid(cfg: Config) {
    && cfg.replicas >= 1 && cfg.fanout >= 1
    && cfg.partitions >= if cfg.policy == Gr then 2 else 1
  }

  function TreeConfig(cfg: Config): StableTime.Config {
    StableTime.Config(cfg.partitions, cfg.fanout, if cfg.policy == Gr then 1 else cfg.replicas, cfg.policy == Grv)
  }

  /** What a server reports: the smallest entry of its version vector, or all of it. */
  function Summary(pol: Policy, vv: Vec): Vec
    requires |vv| >= 1
  {
    if pol == Gr then [MinEntry(vv)] else vv
  }

  /** groups[p][r] is the server of partition p in replica r; stable[r] the stable-time state of replica r. */
  datatype State = State(groups: seq<ReplicaGroup.Group>, stable: seq<StableTime.State>)

  ghost predicate Shape(cfg: Config, s: State) {
    && Valid(cfg)
    && |s.groups| == cfg.partitions && |s.stable| == cfg.replicas
    && (forall p :: 0 <= p < cfg.partitions ==> ReplicaGroup.Shape(s.groups[p]) && |s.groups[p]| == cfg.replicas)
    && forall r :: 0 <= r < cfg.replicas ==> StableTime.Shape(TreeConfig(cfg), s.stable[r])
  }

  ghost function VersionVector(cfg: Config, s: State, r: nat, p: nat): (vv: Vec)
    requires Shape(cfg, s) && r < cfg.replicas && p < cfg.partitions
    ensures |vv| == cfg.replicas
  {
    s.groups[p][r].rep.vv
  }

  ghost function StoreAt(cfg: Config, s: State, r: nat, p: nat): Items
    requires Shape(cfg, s) && r < cfg.replicas && p < cfg.partitions
  {
    s.groups[p][r].rep.items
  }

  ghost function KeyChain(cfg: Config, s: State, r: nat, p: nat, key: nat): Chain
    requires Shape(cfg, s) && r < cfg.replicas && p < cfg.partitions
  {
    ChainOf(StoreAt(cfg, s, r, p), key)
  }

  ghost function Gst(cfg: Config, s: State, r: nat, p: nat): Vec
    requires Shape(cfg, s) && r < cfg.replicas && p < cfg.partitions
  {
    s.stable[r].nodes[p].gst
  }

  ghost function Summaries(cfg: Config, s: State, r: nat): (sum: seq<Vec>)
    requires Shape(cfg, s) && r < cfg.replicas
    ensures |sum| == cfg.partitions
  {
    seq(cfg.partitions, p requires 0 <= p < cfg.partitions => Summary(cfg.policy, VersionVector(cfg, s, r, p)))
  }

  ghost function Init(cfg: Config): State
    requires Valid(cfg)
  {
    State(seq(cfg.partitions, _ => ReplicaGroup.Init(cfg.replicas)),
      seq(cfg.replicas, _ => StableTime.Init(TreeConfig(cfg), cfg.clients)))
  }

  datatype Action =
    | Replicate(p: nat, a: SingleCore.Action)
    | Stabilise(r: nat, b: StableTime.Action)

  ghost predicate Enabled(cfg: Config, s: State, act: Action)
    requires Shape(cfg, s)
  {
    match act
    case Replicate(p, a) => p < cfg.partitions && SingleCore.Enabled(s.groups[p], a)
    case Stabilise(r, b) => r < cfg.replicas && StableTime.Enabled(TreeConfig(cfg), s.stable[r], b)
  }

  ghost function Apply(cfg: Config, s: State, act: Action): (s': State)
    requires Shape(cfg, s) && Enabled(cfg, s, act)
    ensures Shape(cfg, s')
  {
    match act
    case Replicate(p, a) => s.(groups := s.groups[p := SingleCore.Apply(cfg.policy, s.groups[p], a)])
    case Stabilise(r, b) =>
      s.(stable := s.stable[r := StableTime.Apply(TreeConfig(cfg), s.stable[r], Summaries(cfg, s, r), b)])
  }

  // ---- invariant

  ghost predicate StableOk(cfg: Config, s: State, r: nat)
    requires Shape(cfg, s) && r < cfg.replicas
  {
    && StableTimeRounds.RoundInv(TreeConfig(cfg), s.stable[r])
    && StableTimeSafety.Safe(TreeConfig(cfg), s.stable[r], Summaries(cfg, s, r))
    && StableTimeExact.ExactInv(TreeConfig(cfg), s.stable[r])
    && StableTimeProgress.Reach(TreeConfig(cfg), s.stable[r])
  }

  ghost predicate Inv(cfg: Config, s: State) {
    && Shape(cfg, s)
    && (forall p :: 0 <= p < cfg.partitions ==> SingleCore.Inv(cfg.policy, s.groups[p]))
    && forall r :: 0 <= r < cfg.replicas ==> StableOk(cfg, s, r)
  }

  lemma InitInv(cfg: Config)
    requires Valid(cfg)
    ensures Inv(cfg, Init(cfg))
  {
    var s := Init(cfg);
    SingleCore.InitInv(cfg.policy, cfg.replicas);
    forall r | 0 <= r < cfg.replicas
      ensures StableTime.Shape(TreeConfig(cfg), s.stable[r])
    {
      StableTimeExact.InitExact(TreeConfig(cfg), cfg.clients);
    }
    assert Shape(cfg, s);
    forall r | 0 <= r < cfg.replicas
      ensures StableOk(cfg, s, r)
    {
      InitStable(cfg, r);
    }
  }

  lemma InitStable(cfg: Config, r: nat)
    requires Valid(cfg) && r < cfg.replicas && Shape(cfg, Init(cfg))
    ensures StableOk(cfg, Init(cfg), r)
  {
    var tc, sum := TreeConfig(cfg), Summaries(cfg, Init(cfg), r);
    forall q | 0 <= q < cfg.partitions
      ensures |sum[q]| == tc.dim && Leq(Zero(tc.dim), sum[q])
    {
    }
    StableTimeRounds.InitRounds(tc, cfg.clients);
    StableTimeSafety.InitSafe(tc, cfg.clients, sum);
    StableTimeExact.InitExact(tc, cfg.clients);
    StableTimeProgress.InitReach(tc, cfg.clients);
  }

  /** The report of a server grows with its version vector. */
  lemma SummaryGrows(pol: Policy, vv: Vec, vv': Vec)
    requires |vv| >= 1 && Leq(vv, vv')
    ensures Leq(Summary(pol, vv), Summary(pol, vv'))
  {
    if pol == Gr {
      var i :| 0 <= i < |vv'| && vv'[i] == MinEntry(vv');
      assert MinEntry(vv) <= vv[i];
    }
  }

  lemma ReplicateStable(cfg: Config, s: State, p: nat, a: SingleCore.Action, r: nat)
    requires Inv(cfg, s) && Enabled(cfg, s, Replicate(p, a)) && r < cfg.replicas
    ensures StableOk(cfg, Apply(cfg, s, Replicate(p, a)), r)
  {
    var s' := Apply(cfg, s, Replicate(p, a));
    var sum, sum' := Summaries(cfg, s, r), Summaries(cfg, s', r);
    assert StableOk(cfg, s, r);
    forall q | 0 <= q < cfg.partitions
      ensures Leq(sum[q], sum'[q])
    {
      if q == p {
        SingleCore.VersionVectorGrows(cfg.policy, s.groups[p], a, r);
        SummaryGrows(cfg.policy, VersionVector(cfg, s, r, p), VersionVector(cfg, s', r, p));
      }
    }
    StableTimeSafety.SafeGrows(TreeConfig(cfg), s.stable[r], sum, sum');
  }

  lemma StabiliseStable(cfg: Config, s: State, r: nat, b: StableTime.Action, q: nat)
    requires Inv(cfg, s) && Enabled(cfg, s, Stabilise(r, b)) && q < cfg.replicas
    ensures StableOk(cfg, Apply(cfg, s, Stabilise(r, b)), q)
  {
    var tc, sum := TreeConfig(cfg), Summaries(cfg, s, r);
    var s' := Apply(cfg, s, Stabilise(r, b));
    assert StableOk(cfg, s, q) && StableOk(cfg, s, r);
    assert Summaries(cfg, s', q) == Summaries(cfg, s, q);
    if q == r {
      StableTimeRounds.StepRounds(tc, s.stable[r], sum, b);
      StableTimeSafety.StepSafe(tc, s.stable[r], sum, b);
      StableTimeExact.StepExact(tc, s.stable[r], sum, b);
      StableTimeProgress.StepReach(tc, s.stable[r], sum, b);
    }
  }

  lemma StepInv(cfg: Config, s: State, act: Action)
    requires Inv(cfg, s) && Enabled(cfg, s, act)
    ensures Inv(cfg, Apply(cfg, s, act))
  {
    var s' := Apply(cfg, s, act);
    match act {
      case Replicate(p, a) =>
        SingleCore.StepInv(cfg.policy, s.groups[p], a);
        forall r | 0 <= r < cfg.replicas ensures StableOk(cfg, s', r) { ReplicateStable(cfg, s, p, a, r); }
      case Stabilise(r, b) =>
        forall q | 0 <= q < cfg.replicas ensures StableOk(cfg, s', q) { StabiliseStable(cfg, s, r, b, q); }
    }
  }

  // ---- runs

  ghost predicate Run(cfg: Config, ss: seq<State>, acts: seq<Action>) {
    && Valid(cfg)
    && |ss| == |acts| + 1
    && ss[0] == Init(cfg)
    && forall k {:trigger acts[k]} :: 0 <= k < |acts| ==>
      Shape(cfg, ss[k]) && Enabled(cfg, ss[k], acts[k]) && ss[k + 1] == Apply(cfg, ss[k], acts[k])
  }

  /** Every state of every run of either protocol satisfies the invariant. */
  lemma {:induction false} RunInv(cfg: Config, ss: seq<State>, acts: seq<Action>, k: nat)
    requires Run(cfg, ss, acts) && k < |ss|
    ensures Inv(cfg, ss[k])
    decreases k
  {
    if k == 0 {
      InitInv(cfg);
    } else {
      RunInv(cfg, ss, acts, k - 1);
      StepInv(cfg, ss[k - 1], acts[k - 1]);
    }
  }

  // ---- stable-time safety

  /** A stable time is at most the version vector of every server of the replica. */
  ghost predicate IsStable(cfg: Config, s: State, r: nat, v: Vec)
    requires Shape(cfg, s) && r < cfg.replicas
  {
    forall q :: 0 <= q < cfg.partitions ==> BelowVector(cfg.policy, v, VersionVector(cfg, s, r, q))
  }

  /** GentleRain: one time at most every entry. GentleRain Vector: entry by entry. */
  predicate BelowVector(pol: Policy, v: Vec, vv: Vec) {
    if pol == Gr then |v| == 1 && forall i :: 0 <= i < |vv| ==> v[0] <= vv[i]
    else Leq(v, vv)
  }

  lemma BelowIsStable(cfg: Config, s: State, r: nat, v: Vec)
    requires Shape(cfg, s) && r < cfg.replicas && StableTimeSafety.Below(v, Summaries(cfg, s, r))
    ensures IsStable(cfg, s, r, v)
  {
    forall q | 0 <= q < cfg.partitions
      ensures BelowVector(cfg.policy, v, VersionVector(cfg, s, r, q))
    {
      assert Leq(v, Summaries(cfg, s, r)[q]);
    }
  }

  /**
   Stable-time safety, in every state of every run: every stable time held by a
   server or a client of a replica, or travelling to one of its servers, is at most
   the version vector of every server of that replica.
   */
  lemma StableTimeSafe(cfg: Config, ss: seq<State>, acts: seq<Action>, k: nat, r: nat)
    requires Run(cfg, ss, acts) && k < |ss| && r < cfg.replicas
    ensures Shape(cfg, ss[k])
    ensures forall p :: 0 <= p < cfg.partitions ==> IsStable(cfg, ss[k], r, Gst(cfg, ss[k], r, p))
    ensures forall c :: 0 <= c < |ss[k].stable[r].clients| ==> IsStable(cfg, ss[k], r, ss[k].stable[r].clients[c])
    ensures forall v :: v in ss[k].stable[r].known ==> IsStable(cfg, ss[k], r, v)
    ensures forall p, j :: 0 <= p < cfg.partitions && 0 <= j < |ss[k].stable[r].down[p]| ==>
      IsStable(cfg, ss[k], r, ss[k].stable[r].down[p][j])
    ensures forall p, j :: 0 <= p < cfg.partitions && 0 <= j < |ss[k].stable[r].inbox[p]| ==>
      IsStable(cfg, ss[k], r, ss[k].stable[r].inbox[p][j])
  {
    RunInv(cfg, ss, acts, k);
    var s := ss[k];
    assert StableOk(cfg, s, r);
    forall v | StableTimeSafety.Below(v, Summaries(cfg, s, r))
      ensures IsStable(cfg, s, r, v)
    {
      BelowIsStable(cfg, s, r, v);
    }
  }

  lemma StableTimeGrowsStep(cfg: Config, s: State, act: Action, r: nat, p: nat)
    requires Inv(cfg, s) && Enabled(cfg, s, act) && r < cfg.replicas && p < cfg.partitions
    ensures Leq(Gst(cfg, s, r, p), Gst(cfg, Apply(cfg, s, act), r, p))
  {
    if act.Stabilise? && act.r == r {
      assert StableOk(cfg, s, r);
      StableTimeSafety.StepMonotone(TreeConfig(cfg), s.stable[r], Summaries(cfg, s, r), act.b, p);
    }
  }

  lemma RunStep(cfg: Config, ss: seq<State>, acts: seq<Action>, k: nat, r: nat, p: nat)
    requires Run(cfg, ss, acts) && k < |acts| && r < cfg.replicas && p < cfg.partitions
    ensures Shape(cfg, ss[k]) && Shape(cfg, ss[k + 1]) && Leq(Gst(cfg, ss[k], r, p), Gst(cfg, ss[k + 1], r, p))
  {
    RunInv(cfg, ss, acts, k);
    StableTimeGrowsStep(cfg, ss[k], acts[k], r, p);
  }

  /** A server's stable time never decreases. */
  lemma {:induction false} StableTimeGrows(cfg: Config, ss: seq<State>, acts: seq<Action>, j: nat, k: nat, r: nat,
    p: nat)
    requires Run(cfg, ss, acts) && j <= k < |ss| && r < cfg.replicas && p < cfg.partitions
    ensures Shape(cfg, ss[j]) && Shape(cfg, ss[k]) && Leq(Gst(cfg, ss[j], r, p), Gst(cfg, ss[k], r, p))
    decreases k
  {
    if j < k {
      StableTimeGrows(cfg, ss, acts, j, k - 1, r, p);
      RunStep(cfg, ss, acts, k - 1, r, p);
      StableTimeSafety.LeqTrans(Gst(cfg, ss[j], r, p), Gst(cfg, ss[k - 1], r, p), Gst(cfg, ss[k], r, p));
    } else {
      RunShape(cfg, ss, acts, k);
    }
  }

  lemma RunShape(cfg: Config, ss: seq<State>, acts: seq<Action>, k: nat)
    requires Run(cfg, ss, acts) && k < |ss|
    ensures Shape(cfg, ss[k])
  {
    RunInv(cfg, ss, acts, k);
  }

  /** Round discipline and exact minima hold in every state of every run. */
  lemma RoundsInEveryRun(cfg: Config, ss: seq<State>, acts: seq<Action>, k: nat, r: nat)
    requires Run(cfg, ss, acts) && k < |ss| && r < cfg.replicas
    ensures Shape(cfg, ss[k])
    ensures StableTimeRounds.RoundInv(TreeConfig(cfg), ss[k].stable[r])
    ensures StableTimeExact.ExactInv(TreeConfig(cfg), ss[k].stable[r])
  {
    RunInv(cfg, ss, acts, k);
    assert StableOk(cfg, ss[k], r);
  }

  // ---- stable-time progress

  /** Rounds that server `p` of replica `r` has applied to its stable time. */
  ghost function Applied(cfg: Config, s: State, r: nat, p: nat): int
    requires Shape(cfg, s) && r < cfg.replicas && p < cfg.partitions
  {
    if p == 0 then StableTimeProgress.Updated(s.stable[r]) else s.stable[r].got[p]
  }

  /** Every applied round counts: the stable time is at least its minimum. */
  lemma RoundsRaise(cfg: Config, ss: seq<State>, acts: seq<Action>, k: nat, r: nat, p: nat, j: nat)
    requires Run(cfg, ss, acts) && k < |ss| && r < cfg.replicas && p < cfg.partitions
    ensures Shape(cfg, ss[k])
    ensures j < Applied(cfg, ss[k], r, p) ==>
      j < |ss[k].stable[r].minima| && Leq(ss[k].stable[r].minima[j], Gst(cfg, ss[k], r, p))
  {
    RunInv(cfg, ss, acts, k);
    assert StableOk(cfg, ss[k], r);
    if p > 0 { assert StableTimeProgress.NodeReach(TreeConfig(cfg), ss[k].stable[r], p); }
  }

  /** When a server passes a stable time on: GentleRain Vector on receiving it, GentleRain on applying it. */
  lemma PassesOn(cfg: Config, s: State, r: nat, c: nat, d: nat)
    requires Inv(cfg, s) && r < cfg.replicas && 1 <= c < d < cfg.partitions && Tree.Parent(cfg.fanout, d) == c
    ensures var st := s.stable[r];
      && (st.down[c] != [] ==>
        var more := if cfg.policy == Grv then [st.down[c][0]] else [];
        Apply(cfg, s, Stabilise(r, StableTime.DeliverGst(c))).stable[r].down[d] == st.down[d] + more)
      && (st.inbox[c] != [] ==>
        var more := if cfg.policy == Gr then [st.inbox[c][0]] else [];
        Apply(cfg, s, Stabilise(r, StableTime.ApplyGst(c))).stable[r].down[d] == st.down[d] + more)
  {
    assert Tree.IsChild(cfg.fanout, cfg.partitions, c, d);
  }

  /** So in GentleRain no server is ahead of its parent in the tree. */
  lemma TopDown(cfg: Config, ss: seq<State>, acts: seq<Action>, k: nat, r: nat, c: nat)
    requires Run(cfg, ss, acts) && cfg.policy == Gr && k < |ss| && r < cfg.replicas && 1 <= c < cfg.partitions
    ensures Shape(cfg, ss[k]) && Tree.Parent(cfg.fanout, c) < cfg.partitions
    ensures Applied(cfg, ss[k], r, c) <= Applied(cfg, ss[k], r, Tree.Parent(cfg.fanout, c))
  {
    RunInv(cfg, ss, acts, k);
    assert StableOk(cfg, ss[k], r);
    assert StableTimeRounds.Edge(TreeConfig(cfg), ss[k].stable[r], c);
  }

  lemma StableIsBelow(cfg: Config, s: State, r: nat, v: Vec)
    requires Shape(cfg, s) && r < cfg.replicas && IsStable(cfg, s, r, v)
    ensures StableTimeSafety.Below(v, Summaries(cfg, s, r))
  {
    forall q | 0 <= q < cfg.partitions
      ensures Leq(v, Summaries(cfg, s, r)[q])
    {
      var vv := VersionVector(cfg, s, r, q);
      assert BelowVector(cfg.policy, v, vv);
      if cfg.policy == Gr { var i :| 0 <= i < |vv| && vv[i] == MinEntry(vv); }
    }
  }

  lemma StaysStable(cfg: Config, s: State, act: Action, r: nat, v: Vec)
    requires Inv(cfg, s) && Enabled(cfg, s, act) && r < cfg.replicas && IsStable(cfg, s, r, v)
    ensures IsStable(cfg, Apply(cfg, s, act), r, v)
  {
    var s' := Apply(cfg, s, act);
    forall q | 0 <= q < cfg.partitions
      ensures BelowVector(cfg.policy, v, VersionVector(cfg, s', r, q))
    {
      assert BelowVector(cfg.policy, v, VersionVector(cfg, s, r, q));
      if act.Replicate? && act.p == q {
        SingleCore.VersionVectorGrows(cfg.policy, s.groups[q], act.a, r);
        if cfg.policy == Grv {
          StableTimeSafety.LeqTrans(v, VersionVector(cfg, s, r, q), VersionVector(cfg, s', r, q));
        }
      }
    }
  }

  lemma FreshStep(cfg: Config, s: State, act: Action, r: nat, m: nat, b: Vec)
    requires Inv(cfg, s) && Enabled(cfg, s, act) && r < cfg.replicas && IsStable(cfg, s, r, b)
    requires StableTimeProgress.Fresh(TreeConfig(cfg), s.stable[r], m, b)
    ensures StableTimeProgress.Fresh(TreeConfig(cfg), Apply(cfg, s, act).stable[r], m, b)
  {
    if act.Stabilise? && act.r == r {
      assert StableOk(cfg, s, r);
      StableIsBelow(cfg, s, r, b);
      StableTimeProgress.StepFresh(TreeConfig(cfg), s.stable[r], Summaries(cfg, s, r), act.b, m, b);
    }
  }

  /** What all servers of the replica have at step j is in every round after the next one. */
  lemma {:induction false} FreshInRuns(cfg: Config, ss: seq<State>, acts: seq<Action>, j: nat, k: nat, r: nat, b: Vec)
    requires Run(cfg, ss, acts) && j <= k < |ss| && r < cfg.replicas && Shape(cfg, ss[j]) && IsStable(cfg, ss[j], r, b)
    ensures Shape(cfg, ss[k]) && IsStable(cfg, ss[k], r, b)
    ensures StableTimeProgress.Fresh(TreeConfig(cfg), ss[k].stable[r], ss[j].stable[r].rootSends + 1, b)
    decreases k
  {
    RunInv(cfg, ss, acts, k);
    if j == k {
      assert StableOk(cfg, ss[j], r);
      StableTimeProgress.FreshStarts(TreeConfig(cfg), ss[j].stable[r], b);
    } else {
      FreshInRuns(cfg, ss, acts, j, k - 1, r, b);
      RunInv(cfg, ss, acts, k - 1);
      StaysStable(cfg, ss[k - 1], acts[k - 1], r, b);
      FreshStep(cfg, ss[k - 1], acts[k - 1], r, ss[j].stable[r].rootSends + 1, b);
    }
  }

  /**
   Stable times catch up. If at step j every server of replica `r` has at least `b`, every
   server that has applied two rounds more than the root had broadcast then has a stable
   time of at least `b`.
   */
  lemma StableTimeCatchesUp(cfg: Config, ss: seq<State>, acts: seq<Action>, j: nat, k: nat, r: nat, p: nat, b: Vec)
    requires Run(cfg, ss, acts) && j <= k < |ss| && r < cfg.replicas && p < cfg.partitions
    requires Shape(cfg, ss[j]) && IsStable(cfg, ss[j], r, b)
    ensures Shape(cfg, ss[k])
    ensures Applied(cfg, ss[k], r, p) >= ss[j].stable[r].rootSends + 2 ==> Leq(b, Gst(cfg, ss[k], r, p))
  {
    var m := ss[j].stable[r].rootSends + 1;
    FreshInRuns(cfg, ss, acts, j, k, r, b);
    RoundsRaise(cfg, ss, acts, k, r, p, m);
    if m < Applied(cfg, ss[k], r, p) {
      StableTimeSafety.LeqTrans(b, ss[k].stable[r].minima[m], Gst(cfg, ss[k], r, p));
    }
  }

  // ---- one partition

  /**
   With one partition GentleRain raises its stable time to entry 0 of the version
   vector instead of the smallest entry. The result is stable exactly when entry 0
   is the smallest one.
   */
  lemma OnePartition(nd: StableTime.Node, vv: Vec)
    requires |vv| >= 1 && BelowVector(Gr, nd.gst, vv)
    ensures BelowVector(Gr, StableTime.UpdateGst(nd, [vv[0]]).gst, vv) <==> vv[0] == MinEntry(vv)
  {
    var g := StableTime.UpdateGst(nd, [vv[0]]).gst;
    assert g[0] == Max(nd.gst[0], vv[0]) == vv[0];
    var i :| 0 <= i < |vv| && vv[i] == MinEntry(vv);
  }
}
