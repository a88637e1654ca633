/**
 Last-writer-wins convergence, for every interleaving of handlers on any number of
 cores: the newest version of a key at a replica is the
 maximum of the updates the replica has handled, so replicas agree once everything
 is delivered, provided that no two updates of the key carry the same time. What
 happens otherwise is the subject of LastWriter.
 */
module Convergence {
  import opened Vectors
  import opened Store
  import opened Replication
  import opened ReplicaGroup

  // ---- where stored versions come from

  /** `v` is one of the first `b` updates of `log`, for key `k`. */
  ghost predicate FromLog(log: seq<Update>, b: int, k: nat, v: Version) {
    b <= |log| && exists j :: 0 <= j < b && log[j].key == k && VersionOf(log[j]) == v
  }

  /** How many updates of source `i` member `m` has put in its store or dropped. */
  ghost function Handled(m: Member, i: nat): int
    requires Sized(m.rep, |m.inbox|) && |m.arrived| == |m.inbox| && i < |m.inbox|
  {
    m.arrived[i] - |m.rep.queues[i]| + if m.rep.progress[i].Unlocking? then 1 else 0
  }

  ghost predicate Origin(g: Group, r: nat, k: nat, v: Version)
    requires Shape(g) && r < |g|
  {
    && v.source < |g|
    && FromLog(g[v.source].log, if v.source == r then |g[r].log| else Handled(g[r], v.source), k, v)
  }

  ghost predicate OriginInv(g: Group)
    requires Shape(g)
  {
    forall r, k, v :: 0 <= r < |g| && v in ChainOf(g[r].rep.items, k) ==> Origin(g, r, k, v)
  }

  lemma FromLogGrows(log: seq<Update>, b: int, log': seq<Update>, b': int, k: nat, v: Version)
    requires FromLog(log, b, k, v) && log <= log' && b <= b' <= |log'|
    ensures FromLog(log', b', k, v)
  {
    var j :| 0 <= j < b && log[j].key == k && VersionOf(log[j]) == v;
    assert log'[j] == log[j];
  }

  lemma {:induction false} WorkHandles(pol: Policy, rp: Replica, i: nat)
    requires i < |rp.queues| == |rp.progress| && rp.queues[i] != []
    ensures !Work(pol, rp, i).progress[i].Unlocking?
    decreases |rp.queues[i]|, 1
  {
    if Decide(pol, rp.items, rp.queues[i][0]) == Drop { UnlockedHandles(pol, rp, i); }
  }

  lemma {:induction false} UnlockedHandles(pol: Policy, rp: Replica, i: nat)
    requires i < |rp.queues| == |rp.progress| && rp.queues[i] != []
    ensures !Unlocked(pol, rp, i).progress[i].Unlocking?
    decreases |rp.queues[i]|, 0
  {
    var rp1 := rp.(queues := rp.queues[i := rp.queues[i][1..]], progress := rp.progress[i := Free]);
    if rp1.queues[i] != [] { WorkHandles(pol, rp1, i); }
  }

  lemma HandledIssued(pol: Policy, log: seq<Update>, m: Member, i: nat)
    requires Sized(m.rep, |m.inbox|) && |m.arrived| == |m.inbox| && i < |m.inbox| && Link(pol, log, m, i)
    ensures Handled(m, i) <= |log|
  {
  }

  lemma LogGrows(pol: Policy, g: Group, a: Action, s: nat)
    requires Shape(g) && Enabled(g, a) && s < |g|
    ensures g[s].log <= Apply(pol, g, a)[s].log
  {
  }

  lemma HandledElsewhere(pol: Policy, g: Group, a: Action, r: nat, s: nat)
    requires Shape(g) && Enabled(g, a) && r < |g| && s < |g| && r != s
    requires a.r != r || a.LocalPut? || a.Tick? || a.SilentTick? || a.Advance?
    ensures Handled(g[r], s) == Handled(Apply(pol, g, a)[r], s)
  {
  }

  /** No handler reduces the number of handled updates. */
  lemma HandledGrows(pol: Policy, g: Group, a: Action, r: nat, s: nat)
    requires Inv(pol, g) && Enabled(g, a) && r < |g| && s < |g| && r != s
    ensures Handled(g[r], s) <= Handled(Apply(pol, g, a)[r], s)
  {
    assert Link(pol, g[s].log, g[r], s);
    if a.r == r && a.Receive? {
      ReceiveHandles(pol, g[r], a.i, g[s].log, s);
    } else if a.r == r && a.EnterLock? {
      assert Handled(g[r], s) <= Handled(g[r].(rep := Locked(g[r].rep, a.i)), s);
    } else if a.r == r && a.LeaveLock? {
      if a.i == s { UnlockedHandles(pol, g[r].rep, s); }
    } else {
      HandledElsewhere(pol, g, a, r, s);
    }
  }

  lemma ReceiveHandles(pol: Policy, m: Member, i: nat, log: seq<Update>, s: nat)
    requires Sized(m.rep, |m.inbox|) && |m.arrived| == |m.inbox| && i < |m.inbox| && m.inbox[i] != []
    requires s < |m.inbox| && Link(pol, log, m, s)
    ensures Handled(m, s) <= Handled(DoReceive(pol, m, i), s)
  {
  }

  lemma OriginStays(pol: Policy, g: Group, a: Action, r: nat, k: nat, v: Version)
    requires Inv(pol, g) && Enabled(g, a) && r < |g| && Origin(g, r, k, v)
    ensures Origin(Apply(pol, g, a), r, k, v)
  {
    var g' := Apply(pol, g, a);
    var s := v.source;
    if s == r {
      LogGrows(pol, g, a, r);
      FromLogGrows(g[s].log, |g[r].log|, g'[s].log, |g'[r].log|, k, v);
    } else {
      HandledGrows(pol, g, a, r, s);
      LogGrows(pol, g, a, s);
      StepLink(pol, g, a, r, s);
      HandledIssued(pol, g'[s].log, g'[r], s);
      FromLogGrows(g[s].log, Handled(g[r], s), g'[s].log, Handled(g'[r], s), k, v);
    }
  }

  lemma EnterOrigin(pol: Policy, g: Group, a: Action, k: nat, v: Version)
    requires Inv(pol, g) && OriginInv(g) && a.EnterLock? && Enabled(g, a)
    requires v in ChainOf(Apply(pol, g, a)[a.r].rep.items, k) && v !in ChainOf(g[a.r].rep.items, k)
    ensures Origin(Apply(pol, g, a), a.r, k, v)
  {
    var u := g[a.r].rep.progress[a.i].u;
    assert v == VersionOf(u) && k == u.key;
    assert Link(pol, g[a.i].log, g[a.r], a.i) && OwnOk(g[a.i], a.i);
    EnterFromLog(pol, g[a.i].log, g[a.r], a.i);
  }

  /** The update that enters its critical section is the next one in the log of its source. */
  lemma EnterFromLog(pol: Policy, log: seq<Update>, m: Member, i: nat)
    requires Sized(m.rep, |m.inbox|) && |m.arrived| == |m.inbox| && i < |m.inbox| && m.rep.progress[i].Locking?
    requires Link(pol, log, m, i) && LogOk(log, i)
    ensures var u := m.rep.progress[i].u;
      u.source == i && FromLog(log, Handled(m.(rep := Locked(m.rep, i)), i), u.key, VersionOf(u))
  {
    var j := m.arrived[i] - |m.rep.queues[i]|;
    assert log[j] == m.rep.progress[i].u;
  }

  lemma PutOrigin(pol: Policy, g: Group, a: Action, k: nat, v: Version)
    requires Inv(pol, g) && OriginInv(g) && a.LocalPut? && Enabled(g, a)
    requires v in ChainOf(Apply(pol, g, a)[a.r].rep.items, k) && v !in ChainOf(g[a.r].rep.items, k)
    ensures Origin(Apply(pol, g, a), a.r, k, v)
  {
    var m := g[a.r];
    var u := LocalUpdate(m.rep, a.r, a.key, a.value, a.deps, a.t);
    NewVersion(m.rep.items, u.key, VersionOf(u), k, v);
    assert Apply(pol, g, a)[a.r].log == m.log + [u];
    assert (m.log + [u])[|m.log|] == u;
  }

  /** The only new version after a put is the one that was put. */
  lemma NewVersion(items: Items, key: nat, w: Version, k: nat, v: Version)
    requires v in ChainOf(Put(items, key, w), k) && v !in ChainOf(items, k)
    ensures v == w && k == key && !Discards(ChainOf(items, key), w)
  {
  }

  lemma StepOrigin(pol: Policy, g: Group, a: Action)
    requires Inv(pol, g) && OriginInv(g) && Enabled(g, a)
    ensures OriginInv(Apply(pol, g, a))
  {
    var g' := Apply(pol, g, a);
    forall r, k, v | 0 <= r < |g| && v in ChainOf(g'[r].rep.items, k)
      ensures Origin(g', r, k, v)
    {
      if v in ChainOf(g[r].rep.items, k) {
        OriginStays(pol, g, a, r, k, v);
      } else if a.EnterLock? && a.r == r {
        EnterOrigin(pol, g, a, k, v);
      } else {
        SameItems(pol, g, a, r);
        PutOrigin(pol, g, a, k, v);
      }
    }
  }

  lemma SameItems(pol: Policy, g: Group, a: Action, r: nat)
    requires Shape(g) && Enabled(g, a) && r < |g|
    ensures Apply(pol, g, a)[r].rep.items == g[r].rep.items || ((a.LocalPut? || a.EnterLock?) && a.r == r)
  {
  }

  // ---- runs

  ghost predicate Reachable(pol: Policy, n: nat, gs: seq<Group>, acts: seq<Action>) {
    && |gs| == |acts| + 1
    && gs[0] == Init(n)
    && forall k {:trigger acts[k]} :: 0 <= k < |acts| ==>
      Shape(gs[k]) && Enabled(gs[k], acts[k]) && gs[k + 1] == Apply(pol, gs[k], acts[k])
  }

  /** Every state of every run satisfies the replication and origin invariants. */
  lemma {:induction false} RunInv(pol: Policy, n: nat, gs: seq<Group>, acts: seq<Action>, k: nat)
    requires Reachable(pol, n, gs, acts) && k < |gs|
    ensures Inv(pol, gs[k]) && OriginInv(gs[k]) && |gs[k]| == n
    decreases k
  {
    if k == 0 {
      InitInv(pol, n);
    } else {
      RunInv(pol, n, gs, acts, k - 1);
      StepInv(pol, gs[k - 1], acts[k - 1]);
      StepOrigin(pol, gs[k - 1], acts[k - 1]);
    }
  }

  // ---- exactly once, in order

  /**
   For source `i` with log `log`, what member `m` has received is exactly a prefix
   of what the source replicated: first the settled updates, then the queue, whose
   head is the update in progress. Nothing is lost, repeated or reordered.
   */
  ghost predicate InOrder(m: Member, log: seq<Update>, i: nat)
    requires Sized(m.rep, |m.inbox|) && |m.arrived| == |m.inbox| && i < |m.inbox|
  {
    var a, q := m.arrived[i], m.rep.queues[i];
    && |q| <= a <= |log|
    && log == log[..a - |q|] + q + Updates(m.inbox[i])
    && (forall j :: 0 <= j < a - |q| ==> Settled(m.rep.items, log[j]))
    && (q == [] <==> m.rep.progress[i] == Free)
    && (q != [] ==> q[0] == m.rep.progress[i].u)
  }

  lemma LinkInOrder(log: seq<Update>, m: Member, i: nat)
    requires Sized(m.rep, |m.inbox|) && |m.arrived| == |m.inbox| && i < |m.inbox| && Link(Grv, log, m, i)
    ensures InOrder(m, log, i)
  {
    var a, q := m.arrived[i], m.rep.queues[i];
    assert log == log[..a - |q|] + log[a - |q|..a] + log[a..];
  }

  /** Exactly-once, in-order handling in every state of every run. */
  lemma ExactlyOnceInOrder(n: nat, gs: seq<Group>, acts: seq<Action>, k: nat, r: nat, i: nat)
    requires Reachable(Grv, n, gs, acts) && k < |gs| && r < n && i < n && r != i
    ensures |gs[k]| == n && Shape(gs[k]) && InOrder(gs[k][r], gs[k][i].log, i)
  {
    RunInv(Grv, n, gs, acts, k);
    assert Link(Grv, gs[k][i].log, gs[k][r], i);
    LinkInOrder(gs[k][i].log, gs[k][r], i);
  }

  // ---- the assertion on sources

  /** The assertion in the drop branch, along the whole drain of a queue. */
  ghost predicate AssertionsHold(pol: Policy, rp: Replica, i: nat)
    requires i < |rp.queues| == |rp.progress| && rp.queues[i] != []
    decreases |rp.queues[i]|
  {
    var u := rp.queues[i][0];
    Decide(pol, rp.items, u) == Drop ==>
      && HeadSource(ChainOf(rp.items, u.key)) != u.source
      && (|rp.queues[i]| > 1 ==> AssertionsHold(pol, rp.(queues := rp.queues[i := rp.queues[i][1..]]), i))
  }

  /** A stored version of source `i` is older than the next update of that source. */
  lemma OwnHeadOlder(chain: Chain, k: nat, i: nat, log: seq<Update>, b: nat)
    requires LogOk(log, i) && b < |log|
    requires forall v :: v in chain && v.source == i ==> FromLog(log, b, k, v)
    ensures chain != [] && chain[0].source == i ==> chain[0].time < log[b].time
  {
    if chain != [] && chain[0].source == i {
      assert chain[0] in chain;
      var j :| 0 <= j < b && VersionOf(log[j]) == chain[0];
      assert log[j].time < log[b].time;
    }
  }

  lemma {:induction false} DrainAsserts(pol: Policy, rp: Replica, i: nat, log: seq<Update>, b: nat)
    requires i < |rp.queues| == |rp.progress| && rp.queues[i] != [] && LogOk(log, i)
    requires b + |rp.queues[i]| <= |log| && rp.queues[i] == log[b..b + |rp.queues[i]|]
    requires forall k, v :: v in ChainOf(rp.items, k) && v.source == i ==> FromLog(log, b, k, v)
    ensures AssertionsHold(pol, rp, i)
    decreases |rp.queues[i]|
  {
    var q := rp.queues[i];
    var u := q[0];
    assert u == log[b];
    OwnHeadOlder(ChainOf(rp.items, u.key), u.key, i, log, b);
    if Decide(pol, rp.items, u) == Drop {
      if |q| > 1 {
        var rp1 := rp.(queues := rp.queues[i := q[1..]]);
        assert q[1..] == log[b + 1..b + 1 + |q[1..]|];
        forall k, v | v in ChainOf(rp1.items, k) && v.source == i
          ensures FromLog(log, b + 1, k, v)
        {
          FromLogGrows(log, b, log, b + 1, k, v);
        }
        DrainAsserts(pol, rp1, i, log, b + 1);
      }
    }
  }

  lemma StoredFromLog(g: Group, r: nat, i: nat)
    requires Shape(g) && OriginInv(g) && r < |g| && i < |g| && i != r
    ensures forall k, v :: v in ChainOf(g[r].rep.items, k) && v.source == i ==>
      FromLog(g[i].log, Handled(g[r], i), k, v)
  {
    forall k, v | v in ChainOf(g[r].rep.items, k) && v.source == i
      ensures FromLog(g[i].log, Handled(g[r], i), k, v)
    {
      assert Origin(g, r, k, v);
    }
  }

  /** No drop compares two updates of the same source: when an update arrives, */
  lemma ArrivalAssertions(pol: Policy, g: Group, r: nat, i: nat)
    requires Inv(pol, g) && OriginInv(g) && r < |g| && i < |g| && i != r
    requires g[r].inbox[i] != [] && g[r].inbox[i][0].UpdateMsg? && g[r].rep.queues[i] == []
    ensures AssertionsHold(pol, g[r].rep.(queues := g[r].rep.queues[i := [g[r].inbox[i][0].u]]), i)
  {
    var m, log := g[r], g[i].log;
    assert Link(pol, log, m, i) && OwnOk(g[i], i);
    StoredFromLog(g, r, i);
    var u := m.inbox[i][0].u;
    assert Updates(m.inbox[i])[0] == u && log[m.arrived[i]..][0] == u;
    DrainAsserts(pol, m.rep.(queues := m.rep.queues[i := [u]]), i, log, m.arrived[i]);
  }

  lemma NextInLog(q: seq<Update>, log: seq<Update>, a: nat)
    requires 1 < |q| <= a <= |log| && q == log[a - |q|..a]
    ensures q[1..] == log[a - |q| + 1..a - |q| + 1 + |q[1..]|]
  {
  }

  /** and when the queue is drained after an update is finished. */
  lemma DrainAssertions(pol: Policy, g: Group, r: nat, i: nat)
    requires Inv(pol, g) && OriginInv(g) && r < |g| && i < |g| && i != r
    requires g[r].rep.progress[i].Unlocking? && |g[r].rep.queues[i]| > 1
    ensures AssertionsHold(pol, g[r].rep.(queues := g[r].rep.queues[i := g[r].rep.queues[i][1..]]), i)
  {
    var m, log := g[r], g[i].log;
    assert Link(pol, log, m, i) && OwnOk(g[i], i);
    StoredFromLog(g, r, i);
    DrainLogged(pol, m, i, log);
  }

  lemma DrainLogged(pol: Policy, m: Member, i: nat, log: seq<Update>)
    requires Sized(m.rep, |m.inbox|) && |m.arrived| == |m.inbox| && i < |m.inbox| && Link(pol, log, m, i)
    requires LogOk(log, i)
    requires m.rep.progress[i].Unlocking? && |m.rep.queues[i]| > 1
    requires forall k, v :: v in ChainOf(m.rep.items, k) && v.source == i ==> FromLog(log, Handled(m, i), k, v)
    ensures AssertionsHold(pol, m.rep.(queues := m.rep.queues[i := m.rep.queues[i][1..]]), i)
  {
    NextInLog(m.rep.queues[i], log, m.arrived[i]);
    DrainNext(pol, m.rep, i, log, m.arrived[i] - |m.rep.queues[i]| + 1);
  }

  lemma DrainNext(pol: Policy, rp: Replica, i: nat, log: seq<Update>, b: nat)
    requires i < |rp.queues| == |rp.progress| && |rp.queues[i]| > 1 && LogOk(log, i)
    requires b + |rp.queues[i][1..]| <= |log| && rp.queues[i][1..] == log[b..b + |rp.queues[i][1..]|]
    requires forall k, v :: v in ChainOf(rp.items, k) && v.source == i ==> FromLog(log, b, k, v)
    ensures AssertionsHold(pol, rp.(queues := rp.queues[i := rp.queues[i][1..]]), i)
  {
    DrainAsserts(pol, rp.(queues := rp.queues[i := rp.queues[i][1..]]), i, log, b);
  }

  // ---- convergence

  /** `u` has been handled at replica `r`: issued there, or received and stored or dropped. */
  ghost predicate Processed(g: Group, r: nat, u: Update)
    requires Shape(g) && r < |g|
  {
    && u.source < |g|
    && if u.source == r then u in g[r].log
       else AmongFirst(g[u.source].log, Handled(g[r], u.source), u)
  }

  ghost predicate AmongFirst(log: seq<Update>, b: int, u: Update) { exists j :: 0 <= j < b && j < |log| && log[j] == u }

  ghost predicate NoTie(a: seq<Update>, b: seq<Update>, k: nat) {
    forall u, w :: u in a && w in b && u.key == k && w.key == k ==> u.time != w.time
  }

  /** No two replicas issued updates of key `k` with the same time. */
  ghost predicate DistinctTimes(g: Group, k: nat) {
    forall i, j :: 0 <= i < |g| && 0 <= j < |g| && i != j ==> NoTie(g[i].log, g[j].log, k)
  }

  lemma HandledSettled(pol: Policy, log: seq<Update>, m: Member, i: nat, u: Update)
    requires Sized(m.rep, |m.inbox|) && |m.arrived| == |m.inbox| && i < |m.inbox| && Link(pol, log, m, i)
    requires AmongFirst(log, Handled(m, i), u)
    ensures Settled(m.rep.items, u)
  {
    var j :| 0 <= j < Handled(m, i) && j < |log| && log[j] == u;
    var q := m.rep.queues[i];
    if j == m.arrived[i] - |q| { assert q[0] == log[j]; }
  }

  /** The newest version is at least as new as everything handled for its key. */
  lemma HeadDominates(pol: Policy, g: Group, r: nat, u: Update)
    requires Inv(pol, g) && r < |g| && Processed(g, r, u)
    ensures var chain := ChainOf(g[r].rep.items, u.key);
      chain != [] && u.time <= chain[0].time
  {
    var items := g[r].rep.items;
    var chain := ChainOf(items, u.key);
    assert OwnOk(g[r], r);
    if u.source == r {
      var j :| 0 <= j < |g[r].log| && g[r].log[j] == u;
    } else {
      assert Link(pol, g[u.source].log, g[r], u.source);
      HandledSettled(pol, g[u.source].log, g[r], u.source, u);
    }
    assert Settled(items, u);
    var v :| v in chain && v.time >= u.time;
    assert Ordered(chain);
    var j :| 0 <= j < |chain| && chain[j] == v;
    assert j == 0 || chain[0].time >= chain[j].time;
  }

  /** The newest version itself is one of the updates handled. */
  lemma HeadProcessed(g: Group, r: nat, k: nat) returns (u: Update)
    requires Shape(g) && OriginInv(g) && r < |g| && ChainOf(g[r].rep.items, k) != []
    ensures Processed(g, r, u) && u in g[u.source].log
    ensures u.key == k && VersionOf(u) == ChainOf(g[r].rep.items, k)[0]
  {
    var v := ChainOf(g[r].rep.items, k)[0];
    assert v in ChainOf(g[r].rep.items, k);
    assert Origin(g, r, k, v);
    var log := g[v.source].log;
    var b := if v.source == r then |g[r].log| else Handled(g[r], v.source);
    var j :| 0 <= j < b && log[j].key == k && VersionOf(log[j]) == v;
    u := log[j];
    assert VersionOf(u).source == v.source;
  }

  /** An issued update of key `k` that no issued update of `k` exceeds. */
  ghost predicate Latest(g: Group, k: nat, u: Update) {
    && Issued(g, u) && u.key == k
    && forall w :: Issued(g, w) && w.key == k ==> w.time <= u.time
  }

  ghost predicate Issued(g: Group, u: Update) { u.source < |g| && u in g[u.source].log }

  /** No tie for the latest update of key `k`. */
  ghost predicate UniqueLatest(g: Group, k: nat) {
    forall u, w :: Latest(g, k, u) && Latest(g, k, w) ==> u == w
  }

  /** Distinct update times are more than enough. */
  lemma DistinctIsUnique(pol: Policy, g: Group, k: nat)
    requires Inv(pol, g) && DistinctTimes(g, k)
    ensures UniqueLatest(g, k)
  {
    forall u, w | Latest(g, k, u) && Latest(g, k, w)
      ensures u == w
    {
      SameTimeSameUpdate(pol, g, k, u, w);
    }
  }

  /** With distinct times, the newest version is the unique maximum of what was handled. */
  lemma HeadIsMaximum(pol: Policy, g: Group, r: nat, k: nat, u: Update)
    requires Inv(pol, g) && OriginInv(g) && r < |g| && DistinctTimes(g, k)
    requires Processed(g, r, u) && u.key == k
    ensures var chain := ChainOf(g[r].rep.items, k);
      && chain != [] && (u.time < chain[0].time || VersionOf(u) == chain[0])
      && exists w :: Processed(g, r, w) && w.key == k && VersionOf(w) == chain[0]
  {
    HeadDominates(pol, g, r, u);
    var w := HeadProcessed(g, r, k);
    ProcessedIssued(pol, g, r, u);
    if u.time == w.time { SameTimeSameUpdate(pol, g, k, u, w); }
  }

  lemma ProcessedIssued(pol: Policy, g: Group, r: nat, u: Update)
    requires Inv(pol, g) && r < |g| && Processed(g, r, u)
    ensures u in g[u.source].log
  {
  }

  lemma TimesInjective(log: seq<Update>, r: nat, a: nat, b: nat)
    requires LogOk(log, r) && a < |log| && b < |log| && log[a].time == log[b].time
    ensures a == b
  {
  }

  lemma SameTimeSameUpdate(pol: Policy, g: Group, k: nat, u: Update, w: Update)
    requires Inv(pol, g) && DistinctTimes(g, k) && u.key == w.key == k && u.time == w.time
    requires u.source < |g| && w.source < |g| && u in g[u.source].log && w in g[w.source].log
    ensures u == w
  {
    var a :| 0 <= a < |g[u.source].log| && g[u.source].log[a] == u;
    var b :| 0 <= b < |g[w.source].log| && g[w.source].log[b] == w;
    assert OwnOk(g[u.source], u.source);
    if u.source == w.source { TimesInjective(g[u.source].log, u.source, a, b); }
  }

  /** Everything replicated so far has been delivered and handled everywhere. */
  ghost predicate Quiescent(g: Group)
    requires Shape(g)
  {
    forall r, i :: 0 <= r < |g| && 0 <= i < |g| && r != i ==>
      Updates(g[r].inbox[i]) == [] && g[r].rep.queues[i] == []
  }

  lemma QuiescentProcessed(pol: Policy, g: Group, r: nat, u: Update)
    requires Inv(pol, g) && Quiescent(g) && r < |g| && u.source < |g| && u in g[u.source].log
    ensures Processed(g, r, u)
  {
    if u.source != r {
      assert Link(pol, g[u.source].log, g[r], u.source);
      assert g[r].arrived[u.source] == |g[u.source].log|;
      var j :| 0 <= j < |g[u.source].log| && g[u.source].log[j] == u;
    }
  }

  /** In a quiescent state every newest version stems from a latest update. */
  lemma HeadIsLatest(pol: Policy, g: Group, k: nat, r: nat) returns (u: Update)
    requires Inv(pol, g) && OriginInv(g) && Quiescent(g) && r < |g| && ChainOf(g[r].rep.items, k) != []
    ensures Latest(g, k, u) && VersionOf(u) == ChainOf(g[r].rep.items, k)[0]
  {
    u := HeadProcessed(g, r, k);
    forall w | Issued(g, w) && w.key == k
      ensures w.time <= u.time
    {
      QuiescentProcessed(pol, g, r, w);
      HeadDominates(pol, g, r, w);
    }
  }

  /**
   Convergence: in every quiescent state of every run, all replicas hold a version
   of a key or none does, all newest versions carry the same time, and they are the
   same version unless two updates tie for the latest time.
   */
  lemma Converged(pol: Policy, n: nat, gs: seq<Group>, acts: seq<Action>, at: nat, k: nat, r: nat, s: nat)
    requires Reachable(pol, n, gs, acts) && at < |gs| && r < n && s < n
    requires Shape(gs[at]) && Quiescent(gs[at])
    ensures |gs[at]| == n
    ensures var a, b := ChainOf(gs[at][r].rep.items, k), ChainOf(gs[at][s].rep.items, k);
      && (a == [] <==> b == [])
      && (a != [] ==> a[0].time == b[0].time)
      && (a != [] && UniqueLatest(gs[at], k) ==> a[0] == b[0])
  {
    RunInv(pol, n, gs, acts, at);
    var g := gs[at];
    if ChainOf(g[s].rep.items, k) != [] { NonemptyEverywhere(pol, g, k, s, r); }
    if ChainOf(g[r].rep.items, k) != [] {
      NonemptyEverywhere(pol, g, k, r, s);
      var u := HeadIsLatest(pol, g, k, r);
      var w := HeadIsLatest(pol, g, k, s);
    }
  }

  lemma NonemptyEverywhere(pol: Policy, g: Group, k: nat, r: nat, s: nat)
    requires Inv(pol, g) && OriginInv(g) && Quiescent(g) && r < |g| && s < |g|
    requires ChainOf(g[r].rep.items, k) != []
    ensures ChainOf(g[s].rep.items, k) != []
  {
    var u := HeadProcessed(g, r, k);
    QuiescentProcessed(pol, g, s, u);
    HeadDominates(pol, g, s, u);
  }
}
