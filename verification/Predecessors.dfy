/**
 Every update names the version that it replaced where it was issued. So an update of a key
 that only one replica writes always finds the version it names, and GentleRain never
 stalls on it: it takes two writers to block a queue.
 */
module Predecessors {
  import opened Vectors
  import opened Store
  import opened Replication
  import opened ReplicaGroup
  import opened Convergence

  // ---- the version that an update replaced

  /** `u` names the version behind index `i` of the chain, or none if there is none. */
  predicate Names(chain: Chain, i: nat, u: Update) {
    if i + 1 < |chain| then u.prevTime == chain[i + 1].time && u.prevSource == chain[i + 1].source
    else u.prevTime == 0.0 && u.prevSource == 0
  }

  /** Wherever `u` is in the chain, it names the version behind it. */
  ghost predicate NamesPrevious(chain: Chain, u: Update) {
    forall i :: 0 <= i < |chain| && chain[i] == VersionOf(u) ==> Names(chain, i, u)
  }

  /** This holds for everything a server has issued. */
  ghost predicate AllName(m: Member) { forall u :: u in m.log ==> NamesPrevious(ChainOf(m.rep.items, u.key), u) }

  ghost predicate NamesInv(g: Group) { forall r :: 0 <= r < |g| ==> AllName(g[r]) }

  lemma Prepend(chain: Chain, w: Version, u: Update)
    requires NamesPrevious(chain, u) && w != VersionOf(u)
    ensures NamesPrevious([w] + chain, u)
  {
    var c := [w] + chain;
    forall i | 0 <= i < |c| && c[i] == VersionOf(u)
      ensures Names(c, i, u)
    {
      assert chain[i - 1] == VersionOf(u) && Names(chain, i - 1, u);
    }
  }

  /** A put of something else. */
  lemma PutOther(items: Items, key: nat, w: Version, u: Update)
    requires NamesPrevious(ChainOf(items, u.key), u) && w != VersionOf(u)
    ensures NamesPrevious(ChainOf(Put(items, key, w), u.key), u)
  {
    var chain, chain' := ChainOf(items, u.key), ChainOf(Put(items, key, w), u.key);
    if chain' != chain {
      assert chain' == [w] + chain;
      Prepend(chain, w, u);
    }
  }

  /** The put that issues `u`. */
  lemma PutOwn(rp: Replica, r: nat, key: nat, value: nat, deps: Vec, t: Time)
    requires VersionOf(LocalUpdate(rp, r, key, value, deps, t)) !in ChainOf(rp.items, key) && !PutDiscarded(rp, key, t)
    ensures var u := LocalUpdate(rp, r, key, value, deps, t);
      NamesPrevious(ChainOf(Put(rp.items, key, VersionOf(u)), key), u)
  {
    var u, chain := LocalUpdate(rp, r, key, value, deps, t), ChainOf(rp.items, key);
    assert ChainOf(Put(rp.items, key, VersionOf(u)), key) == [VersionOf(u)] + chain;
    var c := [VersionOf(u)] + chain;
    forall i | 0 <= i < |c| && c[i] == VersionOf(u)
      ensures Names(c, i, u)
    {
    }
  }

  /** A version with a new time is not in the store. */
  lemma NotYetStored(pol: Policy, g: Group, a: Action)
    requires Inv(pol, g) && OriginInv(g) && a.LocalPut? && Enabled(g, a)
    ensures VersionOf(LocalUpdate(g[a.r].rep, a.r, a.key, a.value, a.deps, a.t)) !in ChainOf(g[a.r].rep.items, a.key)
  {
    var m := g[a.r];
    forall v | v in ChainOf(m.rep.items, a.key) && v.source == a.r
      ensures v.time < a.t
    {
      assert Origin(g, a.r, a.key, v);
      var j :| 0 <= j < |m.log| && VersionOf(m.log[j]) == v;
    }
  }

  lemma PutNames(pol: Policy, g: Group, a: Action)
    requires Inv(pol, g) && OriginInv(g) && NamesInv(g) && a.LocalPut? && Enabled(g, a)
    ensures AllName(Apply(pol, g, a)[a.r])
  {
    var m, m' := g[a.r], Apply(pol, g, a)[a.r];
    var w := LocalUpdate(m.rep, a.r, a.key, a.value, a.deps, a.t);
    NotYetStored(pol, g, a);
    if !PutDiscarded(m.rep, a.key, a.t) { PutOwn(m.rep, a.r, a.key, a.value, a.deps, a.t); }
    forall u | u in m'.log
      ensures NamesPrevious(ChainOf(m'.rep.items, u.key), u)
    {
      if u in m.log {
        var j :| 0 <= j < |m.log| && m.log[j] == u;
        assert AllName(m) && u.time < a.t;
        PutOther(m.rep.items, a.key, VersionOf(w), u);
      }
    }
  }

  lemma EnterNames(pol: Policy, g: Group, a: Action)
    requires Inv(pol, g) && NamesInv(g) && a.EnterLock? && Enabled(g, a)
    ensures AllName(Apply(pol, g, a)[a.r])
  {
    var m, w := g[a.r], g[a.r].rep.progress[a.i].u;
    assert Link(pol, g[a.i].log, m, a.i) && OwnOk(g[a.i], a.i) && OwnOk(m, a.r);
    EnterFromLog(pol, g[a.i].log, m, a.i);
    forall u | u in m.log
      ensures NamesPrevious(ChainOf(Put(m.rep.items, w.key, VersionOf(w)), u.key), u)
    {
      assert AllName(m) && u.source == a.r;
      PutOther(m.rep.items, w.key, VersionOf(w), u);
    }
  }

  /** Every step keeps: whatever a server has issued names the version that it replaced there. */
  lemma StepNames(pol: Policy, g: Group, a: Action)
    requires Inv(pol, g) && OriginInv(g) && NamesInv(g) && Enabled(g, a)
    ensures NamesInv(Apply(pol, g, a))
  {
    var g' := Apply(pol, g, a);
    forall r | 0 <= r < |g|
      ensures AllName(g'[r])
    {
      if a.LocalPut? && a.r == r { PutNames(pol, g, a); }
      else if a.EnterLock? && a.r == r { EnterNames(pol, g, a); }
      else { QuietNames(pol, g, a, r); }
    }
  }

  lemma QuietNames(pol: Policy, g: Group, a: Action, r: nat)
    requires Shape(g) && Enabled(g, a) && r < |g| && AllName(g[r]) && !((a.LocalPut? || a.EnterLock?) && a.r == r)
    ensures AllName(Apply(pol, g, a)[r])
  {
    SameItems(pol, g, a, r);
    assert Apply(pol, g, a)[r].log == g[r].log;
  }

  /** In every state of every run, of either protocol. */
  lemma {:induction false} RunNames(pol: Policy, n: nat, gs: seq<Group>, acts: seq<Action>, k: nat)
    requires Reachable(pol, n, gs, acts) && k < |gs|
    ensures |gs[k]| == n && Inv(pol, gs[k]) && OriginInv(gs[k]) && NamesInv(gs[k])
    decreases k
  {
    RunInv(pol, n, gs, acts, k);
    if k == 0 {
      assert forall r :: 0 <= r < n ==> gs[0][r] == InitMember(n);
    } else {
      RunNames(pol, n, gs, acts, k - 1);
      StepNames(pol, gs[k - 1], acts[k - 1]);
    }
  }

  // ---- one writer

  /** Another replica than `i` has issued an update of `key`. */
  ghost predicate WrittenElsewhere(g: Group, key: nat, i: nat) {
    exists j, w :: 0 <= j < |g| && j != i && w in g[j].log && w.key == key
  }

  lemma {:induction false} LastOccurrence(chain: Chain, v: Version) returns (x: nat)
    requires v in chain
    ensures x < |chain| && chain[x] == v && v !in chain[x + 1..]
  {
    var n := |chain| - 1;
    if chain[n] == v {
      x := n;
    } else {
      x := LastOccurrence(chain[..n], v);
      assert forall y :: x + 1 <= y < n ==> chain[y] == chain[..n][x + 1..][y - (x + 1)];
    }
  }

  /** What the newest version of a replica, and the one behind `u` at the source, have in common. */
  ghost predicate Newest(log: seq<Update>, b: nat, key: nat, v: Version)
    requires b <= |log|
  {
    && (exists j :: 0 <= j < b && log[j].key == key && VersionOf(log[j]) == v)
    && forall j :: 0 <= j < b && log[j].key == key ==> log[j].time <= v.time
  }

  lemma NewestUnique(log: seq<Update>, i: nat, b: nat, key: nat, v: Version, w: Version)
    requires LogOk(log, i) && b <= |log| && Newest(log, b, key, v) && Newest(log, b, key, w)
    ensures v == w
  {
    var j :| 0 <= j < b && log[j].key == key && VersionOf(log[j]) == v;
    var k :| 0 <= k < b && log[k].key == key && VersionOf(log[k]) == w;
    assert log[j].time <= w.time && log[k].time <= v.time;
    TimesInjective(log, i, j, k);
  }

  /** A replica that has settled exactly the first `b` updates of the only writer has the newest of them in front. */
  lemma HeadIsNewest(items: Items, log: seq<Update>, i: nat, b: nat, key: nat)
    requires LogOk(log, i) && b <= |log| && Ordered(ChainOf(items, key))
    requires forall v :: v in ChainOf(items, key) ==> FromLog(log, b, key, v)
    requires forall j :: 0 <= j < b ==> Settled(items, log[j])
    ensures var chain := ChainOf(items, key);
      if chain == [] then forall j :: 0 <= j < b ==> log[j].key != key else Newest(log, b, key, chain[0])
  {
    var chain := ChainOf(items, key);
    forall j | 0 <= j < b && log[j].key == key
      ensures chain != [] && log[j].time <= chain[0].time
    {
      assert Settled(items, log[j]);
      var v :| v in chain && log[j].time <= v.time;
      var x :| 0 <= x < |chain| && chain[x] == v;
      assert x == 0 || chain[0].time >= chain[x].time;
    }
    if chain != [] { assert chain[0] in chain; }
  }

  /** So is the version behind number `b` in the chain of the source. */
  lemma BehindIsNewest(chain: Chain, log: seq<Update>, i: nat, b: nat, x: nat)
    requires LogOk(log, i) && b < |log| && Ordered(chain)
    requires forall v :: v in chain ==> FromLog(log, |log|, log[b].key, v)
    requires forall j :: 0 <= j < |log| && log[j].key == log[b].key ==> VersionOf(log[j]) in chain
    requires x < |chain| && chain[x] == VersionOf(log[b]) && VersionOf(log[b]) !in chain[x + 1..]
    ensures if x + 1 < |chain| then Newest(log, b, log[b].key, chain[x + 1])
      else forall j :: 0 <= j < b ==> log[j].key != log[b].key
  {
    forall j | 0 <= j < b && log[j].key == log[b].key
      ensures x + 1 < |chain| && log[j].time <= chain[x + 1].time
    {
      OlderBehind(chain, log, i, b, x, j);
    }
    if x + 1 < |chain| { NextIsOlder(chain, log, i, b, x); }
  }

  lemma OlderBehind(chain: Chain, log: seq<Update>, i: nat, b: nat, x: nat, j: nat)
    requires LogOk(log, i) && j < b < |log| && Ordered(chain) && VersionOf(log[j]) in chain
    requires x < |chain| && chain[x] == VersionOf(log[b])
    ensures x + 1 < |chain| && log[j].time <= chain[x + 1].time
  {
    var y :| 0 <= y < |chain| && chain[y] == VersionOf(log[j]);
    assert log[j].time < log[b].time;
    assert y > x;
    if y > x + 1 { assert chain[x + 1].time >= chain[y].time; }
  }

  lemma NextIsOlder(chain: Chain, log: seq<Update>, i: nat, b: nat, x: nat)
    requires LogOk(log, i) && b < |log| && Ordered(chain) && x + 1 < |chain|
    requires forall v :: v in chain ==> FromLog(log, |log|, log[b].key, v)
    requires chain[x] == VersionOf(log[b]) && VersionOf(log[b]) !in chain[x + 1..]
    ensures exists j :: 0 <= j < b && log[j].key == log[b].key && VersionOf(log[j]) == chain[x + 1]
  {
    var w := chain[x + 1];
    assert w in chain && chain[x + 1..][0] == w && w in chain[x + 1..];
    var j :| 0 <= j < |log| && log[j].key == log[b].key && VersionOf(log[j]) == w;
    assert chain[x].time >= w.time;
    assert j < b;
  }

  /** An update of a key with one writer finds the version that it names. */
  lemma SoleWriterFollows(items: Items, chain: Chain, log: seq<Update>, i: nat, b: nat)
    requires LogOk(log, i) && b < |log| && Ordered(ChainOf(items, log[b].key)) && Ordered(chain)
    requires forall v :: v in ChainOf(items, log[b].key) ==> FromLog(log, b, log[b].key, v)
    requires forall j :: 0 <= j < b ==> Settled(items, log[j])
    requires forall v :: v in chain ==> FromLog(log, |log|, log[b].key, v)
    requires forall j :: 0 <= j < |log| && log[j].key == log[b].key ==> VersionOf(log[j]) in chain
    requires NamesPrevious(chain, log[b])
    ensures log[b].prevTime == HeadTime(ChainOf(items, log[b].key))
    ensures log[b].prevSource == HeadSource(ChainOf(items, log[b].key))
  {
    var u, head := log[b], ChainOf(items, log[b].key);
    var x := LastOccurrence(chain, VersionOf(u));
    HeadIsNewest(items, log, i, b, u.key);
    BehindIsNewest(chain, log, i, b, x);
    assert Names(chain, x, u);
    if head != [] && x + 1 < |chain| { NewestUnique(log, i, b, u.key, head[0], chain[x + 1]); }
  }

  // ---- two writers

  /** The queue of source `i` at replica `r` is blocked: its head waits for nothing. */
  ghost predicate Stalled(m: Member, i: nat)
    requires Sized(m.rep, |m.inbox|) && i < |m.inbox|
  {
    m.rep.progress[i] == Free && m.rep.queues[i] != []
  }

  /** Whenever work ends in a stall, the head was judged to stall. */
  lemma {:induction false} WorkStalls(pol: Policy, rp: Replica, i: nat)
    requires i < |rp.queues| == |rp.progress| && rp.queues[i] != []
    ensures var rp' := Work(pol, rp, i);
      rp'.progress[i] == Free && rp'.queues[i] != [] ==> Decide(pol, rp.items, rp'.queues[i][0]) == Stall
    decreases |rp.queues[i]|, 1
  {
    if Decide(pol, rp.items, rp.queues[i][0]) == Drop { UnlockedStalls(pol, rp, i); }
  }

  lemma {:induction false} UnlockedStalls(pol: Policy, rp: Replica, i: nat)
    requires i < |rp.queues| == |rp.progress| && rp.queues[i] != []
    ensures var rp' := Unlocked(pol, rp, i);
      rp'.progress[i] == Free && rp'.queues[i] != [] ==> Decide(pol, rp.items, rp'.queues[i][0]) == Stall
    decreases |rp.queues[i]|, 0
  {
    var rp1 := rp.(queues := rp.queues[i := rp.queues[i][1..]], progress := rp.progress[i := Free]);
    if rp1.queues[i] != [] { WorkStalls(pol, rp1, i); }
  }

  /** A stalled head, in a state in which nobody else has written its key, would have found what it names. */
  lemma StallHasTwoWriters(pol: Policy, g: Group, r: nat, i: nat)
    requires Inv(pol, g) && OriginInv(g) && NamesInv(g) && r < |g| && i < |g| && i != r && Stalled(g[r], i)
    requires Decide(pol, g[r].rep.items, g[r].rep.queues[i][0]) == Stall
    ensures WrittenElsewhere(g, g[r].rep.queues[i][0].key, i)
  {
    var m, log := g[r], g[i].log;
    assert Link(pol, log, m, i) && OwnOk(g[i], i) && OwnOk(m, r);
    var u, b := m.rep.queues[i][0], m.arrived[i] - |m.rep.queues[i]|;
    assert log[b] == u;
    if !WrittenElsewhere(g, u.key, i) {
      OnlyFrom(g, r, i, u.key);
      OnlyFrom(g, i, i, u.key);
      assert AllName(g[i]);
      SoleWriterFollows(m.rep.items, ChainOf(g[i].rep.items, u.key), log, i, b);
    }
  }

  /** Without another writer, all versions of the key come from `i`. */
  lemma OnlyFrom(g: Group, r: nat, i: nat, key: nat)
    requires Shape(g) && OriginInv(g) && r < |g| && i < |g| && !WrittenElsewhere(g, key, i)
    ensures forall v :: v in ChainOf(g[r].rep.items, key) ==>
      FromLog(g[i].log, if r == i then |g[i].log| else Handled(g[r], i), key, v)
  {
    forall v | v in ChainOf(g[r].rep.items, key)
      ensures v.source == i
    {
      assert Origin(g, r, key, v);
      var b := if v.source == r then |g[r].log| else Handled(g[r], v.source);
      var j :| 0 <= j < b && g[v.source].log[j].key == key && VersionOf(g[v.source].log[j]) == v;
      assert g[v.source].log[j] in g[v.source].log;
    }
    forall v | v in ChainOf(g[r].rep.items, key)
      ensures FromLog(g[i].log, if r == i then |g[i].log| else Handled(g[r], i), key, v)
    {
      assert Origin(g, r, key, v);
    }
  }

  lemma ElsewhereStays(pol: Policy, g: Group, a: Action, key: nat, i: nat)
    requires Shape(g) && Enabled(g, a) && WrittenElsewhere(g, key, i)
    ensures WrittenElsewhere(Apply(pol, g, a), key, i)
  {
    var j, w :| 0 <= j < |g| && j != i && w in g[j].log && w.key == key;
    LogGrows(pol, g, a, j);
    assert w in Apply(pol, g, a)[j].log;
  }

  ghost predicate TwoWriters(g: Group)
    requires Shape(g)
  {
    forall r, i :: 0 <= r < |g| && 0 <= i < |g| && i != r && Stalled(g[r], i) ==>
      WrittenElsewhere(g, g[r].rep.queues[i][0].key, i)
  }

  /** A stall after step `a` is an old one, or the head was judged in this step. */
  lemma StallIsNew(pol: Policy, g: Group, a: Action, r: nat, i: nat)
    requires Inv(pol, g) && Enabled(g, a) && r < |g| && i < |g| && i != r && Stalled(Apply(pol, g, a)[r], i)
    ensures var m, m' := g[r], Apply(pol, g, a)[r];
      || (Stalled(m, i) && m'.rep.queues[i][0] == m.rep.queues[i][0])
      || Decide(pol, m'.rep.items, m'.rep.queues[i][0]) == Stall
  {
    var m := g[r];
    assert Link(pol, g[i].log, m, i);
    if a.r == r && (a.Receive? || a.LeaveLock?) && a.i == i {
      if a.LeaveLock? {
        UnlockedStalls(pol, m.rep, i);
      } else if m.inbox[i][0].UpdateMsg? {
        ArriveStalls(pol, m.rep, i, m.inbox[i][0].u);
      }
    } else {
      SameQueue(pol, g, a, r, i);
    }
  }

  lemma ArriveStalls(pol: Policy, rp: Replica, i: nat, u: Update)
    requires i < |rp.queues| == |rp.progress|
    ensures var rp' := Arrive(pol, rp, i, u);
      rp'.progress[i] == Free && rp'.queues[i] != [] ==>
        || (rp.progress[i] == Free && rp.queues[i] != [] && rp'.queues[i][0] == rp.queues[i][0])
        || Decide(pol, rp'.items, rp'.queues[i][0]) == Stall
  {
    if rp.queues[i] == [] { WorkStalls(pol, rp.(queues := rp.queues[i := rp.queues[i] + [u]]), i); }
  }

  lemma SameQueue(pol: Policy, g: Group, a: Action, r: nat, i: nat)
    requires Shape(g) && Enabled(g, a) && r < |g| && i < |g| && i != r
    requires !(a.r == r && (a.Receive? || a.LeaveLock?) && a.i == i)
    ensures var m, m' := g[r], Apply(pol, g, a)[r];
      m'.rep.queues[i] == m.rep.queues[i] && (m'.rep.progress[i] == Free ==> m.rep.progress[i] == Free)
  {
  }

  lemma StepTwoWriters(pol: Policy, g: Group, a: Action)
    requires Inv(pol, g) && OriginInv(g) && NamesInv(g) && TwoWriters(g) && Enabled(g, a)
    ensures TwoWriters(Apply(pol, g, a))
  {
    var g' := Apply(pol, g, a);
    StepInv(pol, g, a);
    StepOrigin(pol, g, a);
    StepNames(pol, g, a);
    forall r, i | 0 <= r < |g| && 0 <= i < |g| && i != r && Stalled(g'[r], i)
      ensures WrittenElsewhere(g', g'[r].rep.queues[i][0].key, i)
    {
      StallIsNew(pol, g, a, r, i);
      if Decide(pol, g'[r].rep.items, g'[r].rep.queues[i][0]) == Stall { StallHasTwoWriters(pol, g', r, i); }
      else { ElsewhereStays(pol, g, a, g[r].rep.queues[i][0].key, i); }
    }
  }

  lemma InitTwoWriters(n: nat)
    ensures Shape(Init(n)) && TwoWriters(Init(n))
  {
    var g := Init(n);
    assert forall r :: 0 <= r < n ==> g[r] == InitMember(n);
  }

  /**
   It takes two writers: in every state of every run, a queue is blocked only by an update
   of a key that another replica has written too.
   */
  lemma {:induction false} StallNeedsTwoWriters(pol: Policy, n: nat, gs: seq<Group>, acts: seq<Action>, k: nat)
    requires Reachable(pol, n, gs, acts) && k < |gs|
    ensures |gs[k]| == n && Shape(gs[k]) && TwoWriters(gs[k])
    decreases k
  {
    RunNames(pol, n, gs, acts, k);
    if k == 0 {
      InitTwoWriters(n);
    } else {
      StallNeedsTwoWriters(pol, n, gs, acts, k - 1);
      RunNames(pol, n, gs, acts, k - 1);
      StepTwoWriters(pol, gs[k - 1], acts[k - 1]);
    }
  }
}
