/**
 A defect of GentleRain's replication: an update that conflicts with the newest
 version here but is newer than it is neither stored nor removed from its queue
 (src/server/protocols/gr/replication.c:40-49). The queue of its source is then
 blocked for ever, also for updates that would not stall themselves, while heartbeats
 keep raising the version vector past all of them.
 */
module GrStall {
  import opened Vectors
  import opened Store
  import opened Replication
  import ReplicaGroup
  import Convergence
  import opened SingleCore

  lemma InQueue(q: seq<Update>, log: seq<Update>, a: nat, j: nat)
    requires |q| <= a <= |log| && q == log[a - |q|..a] && a - |q| <= j < a
    ensures log[j] in q
  {
    assert q[j - (a - |q|)] == log[j];
  }

  /** What GentleRain does guarantee: at or below its entry an update is settled or stuck in the queue. */
  lemma SettledOrStuck(g: Group, r: nat, u: Update)
    requires Inv(Gr, g) && r < |g| && u.source < |g| && u.source != r
    requires u in g[u.source].log && u.time <= g[r].rep.vv[u.source]
    ensures ReplicaGroup.Settled(g[r].rep.items, u) || u in g[r].rep.queues[u.source]
  {
    var i := u.source;
    assert ReplicaGroup.Link(Gr, g[i].log, g[r], i);
    var a, q := g[r].arrived[i], g[r].rep.queues[i];
    var j :| 0 <= j < |g[i].log| && g[i].log[j] == u;
    ArrivedByNow(g, r, u, j);
    if j >= a - |q| { InQueue(q, g[i].log, a, j); }
  }

  lemma ArrivedByNow(g: Group, r: nat, u: Update, j: nat)
    requires Inv(Gr, g) && r < |g| && u.source < |g| && u.source != r
    requires j < |g[u.source].log| && g[u.source].log[j] == u && u.time <= g[r].rep.vv[u.source]
    ensures j < g[r].arrived[u.source]
  {
    var log, a := g[u.source].log, g[r].arrived[u.source];
    assert ReplicaGroup.Link(Gr, log, g[r], u.source);
    if j >= a {
      assert log[a..][j - a] == u;
      OutstandingIsNewer(Gr, g, r, u.source, u);
    }
  }

  // ---- what becomes of an update

  /** The newest version is the one that `u` names, or there is none and `u` names none. */
  predicate Follows(chain: Chain, u: Update) {
    if chain == [] then u.prevTime == 0.0 && u.prevSource == 0
    else u.prevTime == chain[0].time && u.prevSource == chain[0].source
  }

  /** The newest version is newer than `u`, by time and then by source. */
  predicate Beaten(chain: Chain, u: Update) {
    if chain == [] then u.time < 0.0
    else u.time < chain[0].time || (u.time == chain[0].time && u.source < chain[0].source)
  }

  /** `u` conflicts with the newest version and is not older than it. */
  predicate Conflicts(chain: Chain, u: Update) { !Follows(chain, u) && !Beaten(chain, u) }

  /** The server after a delivery that stores `u`: it is put, and the entry of its source is its time. */
  ghost predicate Stores(m: Member, i: nat, u: Update, rp': Replica)
    requires Sized(m.rep, |m.inbox|) && i < |m.inbox|
  {
    rp' == m.rep.(items := Store.Put(m.rep.items, u.key, VersionOf(u)), vv := m.rep.vv[i := u.time])
  }

  /**
   The fate of an update that finds an empty queue, in both protocols: stored if the newest
   version is the one it names; otherwise dropped if that is newer; otherwise it stays
   in the queue for ever in GentleRain and is stored in GentleRain Vector.
   */
  lemma Delivered(pol: Policy, m: Member, i: nat)
    requires Sized(m.rep, |m.inbox|) && |m.arrived| == |m.inbox| && i < |m.inbox| && m.inbox[i] != []
    requires forall k :: 0 <= k < |m.inbox| ==> m.rep.progress[k] == Free
    requires m.inbox[i][0].UpdateMsg? && m.rep.queues[i] == []
    ensures var u := m.inbox[i][0].u; var chain, rp' := ChainOf(m.rep.items, u.key), DoDeliver(pol, m, i).rep;
      && (Follows(chain, u) ==> Stores(m, i, u, rp'))
      && (!Follows(chain, u) && Beaten(chain, u) ==> rp' == m.rep)
      && (Conflicts(chain, u) && pol == Gr ==> rp' == m.rep.(queues := m.rep.queues[i := [u]]))
      && (Conflicts(chain, u) && pol == Grv ==> Stores(m, i, u, rp'))
  {
    ArriveAlone(pol, m.rep, i, m.inbox[i][0].u);
  }

  /** A delivery leaves an empty queue empty exactly when the update does not conflict as the newer one. */
  lemma EmptyUnlessStalled(m: Member, i: nat)
    requires Sized(m.rep, |m.inbox|) && |m.arrived| == |m.inbox| && i < |m.inbox| && m.inbox[i] != []
    requires forall k :: 0 <= k < |m.inbox| ==> m.rep.progress[k] == Free
    requires m.inbox[i][0].UpdateMsg? && m.rep.queues[i] == []
    ensures var u := m.inbox[i][0].u;
      DoDeliver(Gr, m, i).rep.queues[i] == [] <==> !Conflicts(ChainOf(m.rep.items, u.key), u)
  {
    Delivered(Gr, m, i);
  }

  /** No step ever removes anything from a blocked queue. */
  lemma BlockedStep(g: Group, a: Action, r: nat, i: nat)
    requires Inv(Gr, g) && Enabled(g, a) && r < |g| && i < |g| && g[r].rep.queues[i] != []
    ensures g[r].rep.queues[i] <= Apply(Gr, g, a)[r].rep.queues[i]
  {
    assert Local(g[r], r);
    if a.Deliver? && a.r == r { BlockedDeliver(g[r], a.i, i); }
  }

  lemma BlockedDeliver(m: Member, j: nat, i: nat)
    requires Sized(m.rep, |m.inbox|) && |m.arrived| == |m.inbox| && j < |m.inbox| && m.inbox[j] != []
    requires forall k :: 0 <= k < |m.inbox| ==> m.rep.progress[k] == Free
    requires i < |m.inbox| && m.rep.queues[i] != []
    ensures |DoDeliver(Gr, m, j).rep.queues| == |m.inbox| && m.rep.queues[i] <= DoDeliver(Gr, m, j).rep.queues[i]
  {
    DeliverEffect(Gr, m, j);
  }

  ghost predicate Run(pol: Policy, gs: seq<Group>, acts: seq<Action>) {
    && |gs| == |acts| + 1
    && forall k {:trigger acts[k]} :: 0 <= k < |acts| ==>
      ReplicaGroup.Shape(gs[k]) && Enabled(gs[k], acts[k]) && gs[k + 1] == Apply(pol, gs[k], acts[k])
  }

  lemma BlockedKeeps(g: Group, a: Action, g': Group, r: nat, i: nat)
    requires Inv(Gr, g) && Enabled(g, a) && g' == Apply(Gr, g, a) && r < |g| && i < |g| && g[r].rep.queues[i] != []
    ensures Inv(Gr, g') && |g'| == |g| && g[r].rep.queues[i] <= g'[r].rep.queues[i]
  {
    StepInv(Gr, g, a);
    BlockedStep(g, a, r, i);
  }

  /** A blocked queue stays blocked by the same update in every continuation. */
  lemma {:induction false} BlockedForEver(gs: seq<Group>, acts: seq<Action>, r: nat, i: nat, k: nat)
    requires Run(Gr, gs, acts) && Inv(Gr, gs[0]) && r < |gs[0]| && i < |gs[0]| && k < |gs|
    requires gs[0][r].rep.queues[i] != []
    ensures Inv(Gr, gs[k]) && |gs[k]| == |gs[0]|
    ensures gs[0][r].rep.queues[i] <= gs[k][r].rep.queues[i]
    decreases k
  {
    if k > 0 {
      BlockedForEver(gs, acts, r, i, k - 1);
      BlockedKeeps(gs[k - 1], acts[k - 1], gs[k], r, i);
    }
  }

  /**
   The exact condition. An update arrives and then a heartbeat of the same source that
   is at least as new. The entry covers the update either way; the server has it, or
   something newer, if and only if it found an empty queue and did not stall, or was
   superseded before it came.
   */
  lemma CompleteIffHandled(m: Member, i: nat, u: Update, t: Time, rest: seq<Message>)
    requires Sized(m.rep, |m.inbox|) && |m.arrived| == |m.inbox| && i < |m.inbox|
    requires forall k :: 0 <= k < |m.inbox| ==> m.rep.progress[k] == Free
    requires m.inbox[i] == [UpdateMsg(u), Heartbeat(t)] + rest && 0.0 < u.time <= t
    ensures var m1 := DoDeliver(Gr, m, i);
      && Sized(m1.rep, |m.inbox|) && |m1.inbox| == |m1.arrived| == |m.inbox| && m1.inbox[i] != []
      && var m2 := DoDeliver(Gr, m1, i);
      && i < |m2.rep.vv| && u.time <= m2.rep.vv[i]
      && (ReplicaGroup.Settled(m2.rep.items, u) <==>
          (m.rep.queues[i] == [] && !Conflicts(ChainOf(m.rep.items, u.key), u)) || ReplicaGroup.Settled(m.rep.items, u))
  {
    DeliverEffect(Gr, m, i);
    var m1 := DoDeliver(Gr, m, i);
    assert m1.inbox[i][0] == Heartbeat(t);
    DeliverEffect(Gr, m1, i);
    if m.rep.queues[i] == [] {
      ArriveAlone(Gr, m.rep, i, u);
      match Decide(Gr, m.rep.items, u) {
        case Drop => ReplicaGroup.DropSettles(Gr, m.rep.items, u);
        case Stall =>
        case Take => ReplicaGroup.PutSettles(m.rep.items, u);
      }
    }
  }

  // ---- runs without a stall

  /** The update that step `a` delivers stalls. */
  ghost predicate Stalls(g: Group, a: Action)
    requires ReplicaGroup.Shape(g) && Enabled(g, a)
  {
    && a.Deliver? && g[a.r].inbox[a.i][0].UpdateMsg?
    && var u := g[a.r].inbox[a.i][0].u; Conflicts(ChainOf(g[a.r].rep.items, u.key), u)
  }

  ghost predicate NothingQueued(rp: Replica) { forall i :: 0 <= i < |rp.queues| ==> rp.queues[i] == [] }

  ghost predicate QueuesEmpty(g: Group) { forall r :: 0 <= r < |g| ==> NothingQueued(g[r].rep) }

  lemma DeliverEmpty(m: Member, i: nat)
    requires Sized(m.rep, |m.inbox|) && |m.arrived| == |m.inbox| && i < |m.inbox| && m.inbox[i] != []
    requires NothingQueued(m.rep) && forall k :: 0 <= k < |m.inbox| ==> m.rep.progress[k] == Free
    ensures NothingQueued(DoDeliver(Gr, m, i).rep) <==>
      !(m.inbox[i][0].UpdateMsg? && var u := m.inbox[i][0].u; Conflicts(ChainOf(m.rep.items, u.key), u))
  {
    DeliverEffect(Gr, m, i);
    if m.inbox[i][0].UpdateMsg? { EmptyUnlessStalled(m, i); }
  }

  lemma OthersQueues(g: Group, a: Action, r: nat)
    requires ReplicaGroup.Shape(g) && Enabled(g, a) && r < |g| && !(a.Deliver? && a.r == r)
    ensures Apply(Gr, g, a)[r].rep.queues == g[r].rep.queues
  {
  }

  /** A step keeps all queues empty if and only if nothing stalls. */
  lemma EmptyIff(g: Group, a: Action)
    requires Inv(Gr, g) && Enabled(g, a) && QueuesEmpty(g)
    ensures QueuesEmpty(Apply(Gr, g, a)) <==> !Stalls(g, a)
  {
    var g' := Apply(Gr, g, a);
    forall r | 0 <= r < |g| && !(a.Deliver? && a.r == r)
      ensures g'[r].rep.queues == g[r].rep.queues
    {
      OthersQueues(g, a, r);
    }
    if a.Deliver? {
      assert Local(g[a.r], a.r);
      DeliverEmpty(g[a.r], a.i);
      assert g'[a.r] == DoDeliver(Gr, g[a.r], a.i);
    }
  }

  /** None of the first `k` deliveries stalls. */
  ghost predicate NoStall(gs: seq<Group>, acts: seq<Action>, k: nat)
    requires |gs| == |acts| + 1 && k <= |acts|
  {
    forall j :: 0 <= j < k && ReplicaGroup.Shape(gs[j]) && Enabled(gs[j], acts[j]) ==> !Stalls(gs[j], acts[j])
  }

  /** In every run of `gr` in which no delivery stalls, all queues are empty between deliveries. */
  lemma {:induction false} RunEmpty(n: nat, gs: seq<Group>, acts: seq<Action>, k: nat)
    requires Run(Gr, gs, acts) && gs[0] == ReplicaGroup.Init(n) && k < |gs| && NoStall(gs, acts, k)
    ensures Inv(Gr, gs[k]) && |gs[k]| == n && QueuesEmpty(gs[k])
    decreases k
  {
    if k == 0 {
      InitInv(Gr, n);
    } else {
      RunEmpty(n, gs, acts, k - 1);
      StepInv(Gr, gs[k - 1], acts[k - 1]);
      EmptyIff(gs[k - 1], acts[k - 1]);
    }
  }

  /** And prefix completeness holds: an update at or below an entry is stored or superseded. */
  lemma RunPrefixComplete(n: nat, gs: seq<Group>, acts: seq<Action>, k: nat, r: nat, u: Update)
    requires Run(Gr, gs, acts) && gs[0] == ReplicaGroup.Init(n) && k < |gs| && NoStall(gs, acts, k)
    requires r < |gs[k]| && u.source < |gs[k]| && u.source != r && ReplicaGroup.Shape(gs[k])
    requires u in gs[k][u.source].log && u.time <= gs[k][r].rep.vv[u.source]
    ensures ReplicaGroup.Settled(gs[k][r].rep.items, u)
  {
    RunEmpty(n, gs, acts, k);
    SettledOrStuck(gs[k], r, u);
    assert NothingQueued(gs[k][r].rep);
  }
}
