/**
 Replication when every server has one core. A lock request, its critical section
 and the continuation of its unlock then run without interruption (see CpuSingleCore),
 so a whole chain of handlers is one step and the clock strictly advances between
 its parts.

 Main results: a version vector never decreases, channel timestamps strictly
 increase and stay above the receiver's entry, and with GentleRain Vector nothing at
 or below an entry of the version vector is still outstanding.
 */
module SingleCore {
  import opened Vectors
  import opened Store
  import opened Replication
  import ReplicaGroup
  import opened Convergence

  type Member = ReplicaGroup.Member
  type Group = ReplicaGroup.Group

  datatype Action =
    | Deliver(r: nat, i: nat)
    | Put(r: nat, key: nat, value: nat, deps: Vec, t0: Time, t: Time, after: Time)
    | ClockTick(r: nat, interval: Time, t0: Time, t: Time, stamp: Time)
    | Advance(r: nat, t: Time)

  /** Runs the lock chains of source `i` to their end. */
  function Finish(pol: Policy, rp: Replica, i: nat): (rp': Replica)
    requires i < |rp.vv| == |rp.queues| == |rp.progress|
    ensures |rp'.vv| == |rp'.queues| == |rp'.progress| == |rp.vv|
    decreases |rp.queues[i]|
  {
    if rp.progress[i].Locking? && rp.queues[i] != [] then
      Finish(pol, Unlocked(pol, Locked(rp, i), i), i)
    else rp
  }

  function DoDeliver(pol: Policy, m: Member, i: nat): Member
    requires Sized(m.rep, |m.inbox|) && |m.arrived| == |m.inbox| && i < |m.inbox| && m.inbox[i] != []
  {
    var m1 := ReplicaGroup.DoReceive(pol, m, i);
    m1.(rep := Finish(pol, m1.rep, i))
  }

  ghost predicate Enabled(g: Group, a: Action)
    requires ReplicaGroup.Shape(g)
  {
    match a
    case Deliver(r, i) => r < |g| && i < |g| && i != r && g[r].inbox[i] != []
    case Put(r, key, value, deps, t0, t, after) =>
      // a request whose dependencies lie in the future waits for the clock
      r < |g| && g[r].clock <= t0 < t < after && forall d :: 0 <= d < |deps| ==> deps[d] <= t0
    case ClockTick(r, interval, t0, t, stamp) => r < |g| && g[r].clock <= t0 < t < stamp
    case Advance(r, t) => r < |g| && t >= g[r].clock
  }

  ghost function Apply(pol: Policy, g: Group, a: Action): (g': Group)
    requires ReplicaGroup.Shape(g) && Enabled(g, a)
    ensures ReplicaGroup.Shape(g') && |g'| == |g|
  {
    match a
    case Deliver(r, i) => g[r := DoDeliver(pol, g[r], i)]
    case Put(r, key, value, deps, t0, t, after) => ReplicaGroup.DoPut(g, r, key, value, deps, t, after)
    case ClockTick(r, interval, t0, t, stamp) =>
      if t0 >= g[r].rep.vv[r] + interval then ReplicaGroup.DoTick(g, r, t, stamp)
      else ReplicaGroup.Post(g, r, Heartbeat(0.0))[r := g[r].(clock := stamp)]
    case Advance(r, t) => g[r := g[r].(clock := t)]
  }

  // ---- invariant

  /** Timestamps in a channel: increasing, above `lo` and at most `hi`; zero heartbeats are exempt. */
  ghost predicate Channel(ch: seq<Message>, lo: Time, hi: Time) {
    && (forall a :: 0 <= a < |ch| ==> Stamp(ch[a]) == 0.0 || lo < Stamp(ch[a]) <= hi)
    && forall a, b :: 0 <= a < b < |ch| && Stamp(ch[a]) != 0.0 && Stamp(ch[b]) != 0.0 ==> Stamp(ch[a]) < Stamp(ch[b])
  }

  ghost predicate Timed(src: Member, dst: Member, i: nat)
    requires Sized(dst.rep, |dst.inbox|) && i < |dst.inbox|
  {
    0.0 <= dst.rep.vv[i] <= src.clock && Channel(dst.inbox[i], dst.rep.vv[i], src.clock)
  }

  /** An update is newer than everything its request depended on. */
  predicate AfterDeps(u: Update) { forall d :: 0 <= d < |u.deps| ==> u.deps[d] < u.time }

  ghost predicate Local(m: Member, r: nat)
    requires Sized(m.rep, |m.inbox|) && r < |m.inbox|
  {
    && 0.0 <= m.rep.vv[r] <= m.clock
    && (forall j :: 0 <= j < |m.log| ==> m.log[j].time <= m.clock && AfterDeps(m.log[j]))
    && forall i :: 0 <= i < |m.inbox| ==> m.rep.progress[i] == Free
  }

  ghost predicate Inv(pol: Policy, g: Group) {
    && ReplicaGroup.Inv(pol, g)
    && OriginInv(g)
    && (forall r :: 0 <= r < |g| ==> Local(g[r], r))
    && forall r, i :: 0 <= r < |g| && 0 <= i < |g| && i != r ==> Timed(g[i], g[r], i)
  }

  // ---- a delivery in one step

  /** What one delivery does to a server whose chains are all finished. */
  lemma DeliverEffect(pol: Policy, m: Member, i: nat)
    requires Sized(m.rep, |m.inbox|) && |m.arrived| == |m.inbox| && i < |m.inbox| && m.inbox[i] != []
    requires forall k :: 0 <= k < |m.inbox| ==> m.rep.progress[k] == Free
    ensures var m' := DoDeliver(pol, m, i); var msg := m.inbox[i][0];
      && m'.inbox == m.inbox[i := m.inbox[i][1..]] && m'.clock == m.clock && m'.log == m.log
      && Sized(m'.rep, |m.inbox|) && |m'.arrived| == |m.inbox|
      && (forall k :: 0 <= k < |m.inbox| ==> m'.rep.progress[k] == Free)
      && (forall k :: 0 <= k < |m.inbox| && k != i ==>
        m'.rep.vv[k] == m.rep.vv[k] && m'.rep.queues[k] == m.rep.queues[k])
      && (m'.rep.vv[i] == m.rep.vv[i] || m'.rep.vv[i] == Stamp(msg))
      && (msg.Heartbeat? ==>
        && m'.rep.vv[i] == Max(m.rep.vv[i], msg.time)
        && m'.rep.items == m.rep.items && m'.rep.queues[i] == m.rep.queues[i])
      && (m'.rep.items == m.rep.items
          || (msg.UpdateMsg? && m.rep.queues[i] == [] &&
            m'.rep.items == Store.Put(m.rep.items, msg.u.key, VersionOf(msg.u))))
      && (m.rep.queues[i] != [] && msg.UpdateMsg? ==> m'.rep.queues[i] == m.rep.queues[i] + [msg.u])
  {
    match m.inbox[i][0] {
      case Heartbeat(t) =>
      case UpdateMsg(u) =>
        if m.rep.queues[i] == [] { ArriveAlone(pol, m.rep, i, u); }
    }
  }

  /** An update that finds an empty queue is taken, dropped or left alone at once. */
  lemma ArriveAlone(pol: Policy, rp: Replica, i: nat, u: Update)
    requires i < |rp.vv| == |rp.queues| == |rp.progress| && rp.queues[i] == [] && rp.progress[i] == Free
    ensures var rp' := Finish(pol, Arrive(pol, rp, i, u), i);
      && Others(rp, rp', i) && rp'.progress[i] == Free && |rp'.vv| == |rp.vv|
      && match Decide(pol, rp.items, u)
         case Drop => rp' == rp
         case Stall => rp' == rp.(queues := rp.queues[i := [u]])
         case Take => rp' == rp.(items := Store.Put(rp.items, u.key, VersionOf(u)), vv := rp.vv[i := u.time])
  {
    var q1 := rp.queues[i := rp.queues[i] + [u]];
    assert rp.queues[i] + [u] == [u] && [u][1..] == [];
    var rp1 := rp.(queues := q1);
    assert q1[i := []] == rp.queues;
    assert rp.progress[i := Free] == rp.progress;
    match Decide(pol, rp.items, u) {
      case Drop => assert Unlocked(pol, rp1, i) == rp;
      case Stall => assert Work(pol, rp1, i) == rp.(queues := rp.queues[i := [u]]);
      case Take =>
        var rp2 := rp1.(progress := rp.progress[i := Locking(u)]);
        assert Work(pol, rp1, i) == rp2;
        var rp3 := Locked(rp2, i);
        assert rp3.progress[i := Free] == rp.progress;
        var rp4 := Unlocked(pol, rp3, i);
        assert rp4 == rp.(items := Store.Put(rp.items, u.key, VersionOf(u)), vv := rp.vv[i := u.time]);
    }
  }

  /** One critical section with its unlock, as two handler steps. */
  lemma ChainInv(pol: Policy, g: Group, r: nat, i: nat)
    requires ReplicaGroup.Inv(pol, g) && OriginInv(g) && r < |g| && i < |g| && i != r
    requires g[r].rep.progress[i].Locking? && g[r].rep.queues[i] != []
    ensures var g' := g[r := g[r].(rep := Unlocked(pol, Locked(g[r].rep, i), i))];
      ReplicaGroup.Inv(pol, g') && OriginInv(g')
  {
    var enter, leave := ReplicaGroup.EnterLock(r, i), ReplicaGroup.LeaveLock(r, i);
    ReplicaGroup.StepInv(pol, g, enter);
    StepOrigin(pol, g, enter);
    var g1 := ReplicaGroup.Apply(pol, g, enter);
    assert g1[r].rep == Locked(g[r].rep, i);
    ReplicaGroup.StepInv(pol, g1, leave);
    StepOrigin(pol, g1, leave);
    assert ReplicaGroup.Apply(pol, g1, leave) == g[r := g[r].(rep := Unlocked(pol, Locked(g[r].rep, i), i))];
  }

  /** A delivery is a sequence of handler steps, so it keeps the invariants of the group. */
  lemma {:induction false} FinishInv(pol: Policy, g: Group, r: nat, i: nat)
    requires ReplicaGroup.Inv(pol, g) && OriginInv(g) && r < |g| && i < |g| && i != r
    ensures var g' := g[r := g[r].(rep := Finish(pol, g[r].rep, i))];
      ReplicaGroup.Inv(pol, g') && OriginInv(g')
    decreases |g[r].rep.queues[i]|
  {
    var rp := g[r].rep;
    if rp.progress[i].Locking? && rp.queues[i] != [] {
      ChainInv(pol, g, r, i);
      var rp2 := Unlocked(pol, Locked(rp, i), i);
      var g2 := g[r := g[r].(rep := rp2)];
      FinishInv(pol, g2, r, i);
      assert g2[r := g2[r].(rep := Finish(pol, rp2, i))] == g[r := g[r].(rep := Finish(pol, rp, i))];
    } else {
      assert g[r := g[r].(rep := rp)] == g;
    }
  }

  lemma DeliverGroupInv(pol: Policy, g: Group, r: nat, i: nat)
    requires ReplicaGroup.Inv(pol, g) && OriginInv(g) && Enabled(g, Deliver(r, i))
    ensures ReplicaGroup.Inv(pol, Apply(pol, g, Deliver(r, i))) && OriginInv(Apply(pol, g, Deliver(r, i)))
  {
    var a := ReplicaGroup.Receive(r, i);
    ReplicaGroup.StepInv(pol, g, a);
    StepOrigin(pol, g, a);
    var g1 := ReplicaGroup.Apply(pol, g, a);
    FinishInv(pol, g1, r, i);
    assert g1[r := g1[r].(rep := Finish(pol, g1[r].rep, i))] == Apply(pol, g, Deliver(r, i));
  }

  lemma PutGroupInv(pol: Policy, g: Group, a: Action)
    requires Inv(pol, g) && a.Put? && Enabled(g, a)
    ensures ReplicaGroup.Inv(pol, Apply(pol, g, a)) && OriginInv(Apply(pol, g, a))
  {
    assert Local(g[a.r], a.r);
    var b := ReplicaGroup.LocalPut(a.r, a.key, a.value, a.deps, a.t, a.after);
    assert ReplicaGroup.Fresh(g[a.r], a.t);
    ReplicaGroup.StepInv(pol, g, b);
    StepOrigin(pol, g, b);
  }

  lemma TickGroupInv(pol: Policy, g: Group, a: Action)
    requires Inv(pol, g) && a.ClockTick? && Enabled(g, a)
    ensures ReplicaGroup.Inv(pol, Apply(pol, g, a)) && OriginInv(Apply(pol, g, a))
  {
    assert Local(g[a.r], a.r);
    if a.t0 >= g[a.r].rep.vv[a.r] + a.interval {
      var b := ReplicaGroup.Tick(a.r, a.t, a.stamp);
      ReplicaGroup.StepInv(pol, g, b);
      StepOrigin(pol, g, b);
    } else {
      var b := ReplicaGroup.SilentTick(a.r);
      ReplicaGroup.StepInv(pol, g, b);
      StepOrigin(pol, g, b);
      var g1 := ReplicaGroup.Apply(pol, g, b);
      assert g1[a.r] == g[a.r];
      var c := ReplicaGroup.Advance(a.r, a.stamp);
      ReplicaGroup.StepInv(pol, g1, c);
      StepOrigin(pol, g1, c);
    }
  }

  lemma GroupInv(pol: Policy, g: Group, a: Action)
    requires Inv(pol, g) && Enabled(g, a)
    ensures ReplicaGroup.Inv(pol, Apply(pol, g, a)) && OriginInv(Apply(pol, g, a))
  {
    match a {
      case Deliver(r, i) => DeliverGroupInv(pol, g, r, i);
      case Put(_, _, _, _, _, _, _) => PutGroupInv(pol, g, a);
      case ClockTick(_, _, _, _, _) => TickGroupInv(pol, g, a);
      case Advance(r, t) =>
        var b := ReplicaGroup.Advance(r, t);
        ReplicaGroup.StepInv(pol, g, b);
        StepOrigin(pol, g, b);
    }
  }

  // ---- timestamps

  /** Taking the head of a channel moves the bound up to its timestamp. */
  lemma ChannelPop(ch: seq<Message>, lo: Time, hi: Time, lo': Time)
    requires ch != [] && Channel(ch, lo, hi) && (lo' == lo || lo' == Stamp(ch[0]) || (lo' == 0.0 && lo >= 0.0))
    requires lo' == 0.0 ==> lo == 0.0
    ensures Channel(ch[1..], lo', hi)
    ensures lo <= hi && 0.0 <= lo ==> lo <= lo' <= hi
  {
    forall a | 0 <= a < |ch| - 1
      ensures Stamp(ch[1..][a]) == 0.0 || lo' < Stamp(ch[1..][a]) <= hi
    {
      assert ch[1..][a] == ch[a + 1];
    }
  }

  lemma ChannelPush(ch: seq<Message>, lo: Time, hi: Time, m: Message, hi': Time)
    requires Channel(ch, lo, hi) && lo <= hi && (Stamp(m) == 0.0 || hi < Stamp(m) <= hi') && hi <= hi'
    ensures Channel(ch + [m], lo, hi')
  {
  }

  lemma DeliverTimed(pol: Policy, g: Group, r: nat, i: nat, d: nat, s: nat)
    requires Inv(pol, g) && Enabled(g, Deliver(r, i)) && d < |g| && s < |g| && s != d
    ensures Timed(Apply(pol, g, Deliver(r, i))[s], Apply(pol, g, Deliver(r, i))[d], s)
  {
    assert Timed(g[s], g[d], s) && Local(g[r], r);
    DeliverEffect(pol, g[r], i);
    if d == r && s == i {
      StampsNonNegative(pol, g, r, i);
      ChannelPop(g[r].inbox[i], g[r].rep.vv[i], g[i].clock, DoDeliver(pol, g[r], i).rep.vv[i]);
    }
  }

  lemma StampsNonNegative(pol: Policy, g: Group, r: nat, i: nat)
    requires Inv(pol, g) && Enabled(g, Deliver(r, i))
    ensures DoDeliver(pol, g[r], i).rep.vv[i] == 0.0 ==> g[r].rep.vv[i] == 0.0
  {
    assert Timed(g[i], g[r], i) && Local(g[r], r);
    DeliverEffect(pol, g[r], i);
    var msg := g[r].inbox[i][0];
    if msg.UpdateMsg? {
      assert ReplicaGroup.Link(pol, g[i].log, g[r], i) && ReplicaGroup.OwnOk(g[i], i);
      assert ReplicaGroup.Updates(g[r].inbox[i])[0] == msg.u;
      assert g[i].log[g[r].arrived[i]..][0] == msg.u;
    }
  }

  lemma PutTimed(pol: Policy, g: Group, a: Action, d: nat, s: nat)
    requires Inv(pol, g) && a.Put? && Enabled(g, a) && d < |g| && s < |g| && s != d
    ensures Timed(Apply(pol, g, a)[s], Apply(pol, g, a)[d], s)
  {
    assert Timed(g[s], g[d], s) && Local(g[s], s);
    if s == a.r {
      ChannelPush(g[d].inbox[s], g[d].rep.vv[s], g[s].clock,
        UpdateMsg(LocalUpdate(g[s].rep, s, a.key, a.value, a.deps, a.t)), a.after);
    }
  }

  lemma TickTimed(pol: Policy, g: Group, a: Action, d: nat, s: nat)
    requires Inv(pol, g) && a.ClockTick? && Enabled(g, a) && d < |g| && s < |g| && s != d
    ensures Timed(Apply(pol, g, a)[s], Apply(pol, g, a)[d], s)
  {
    assert Timed(g[s], g[d], s) && Local(g[s], s);
    TickChannel(pol, g, a, d, s);
  }

  lemma TickChannel(pol: Policy, g: Group, a: Action, d: nat, s: nat)
    requires ReplicaGroup.Shape(g) && a.ClockTick? && Enabled(g, a) && d < |g| && s < |g| && s != d
    requires Timed(g[s], g[d], s) && Local(g[s], s)
    ensures Timed(Apply(pol, g, a)[s], Apply(pol, g, a)[d], s)
  {
    if s == a.r {
      ChannelPush(g[d].inbox[s], g[d].rep.vv[s], g[s].clock, Heartbeat(a.stamp), a.stamp);
      ChannelPush(g[d].inbox[s], g[d].rep.vv[s], g[s].clock, Heartbeat(0.0), a.stamp);
    }
  }

  lemma StepTimed(pol: Policy, g: Group, a: Action, d: nat, s: nat)
    requires Inv(pol, g) && Enabled(g, a) && d < |g| && s < |g| && s != d
    ensures Timed(Apply(pol, g, a)[s], Apply(pol, g, a)[d], s)
  {
    if a.Deliver? { DeliverTimed(pol, g, a.r, a.i, d, s); }
    else if a.Put? { PutTimed(pol, g, a, d, s); }
    else if a.ClockTick? { TickTimed(pol, g, a, d, s); }
    else { assert Timed(g[s], g[d], s); }
  }

  lemma PutLocal(pol: Policy, g: Group, a: Action)
    requires Inv(pol, g) && a.Put? && Enabled(g, a)
    ensures Local(Apply(pol, g, a)[a.r], a.r)
  {
    assert Local(g[a.r], a.r);
  }

  lemma StepLocal(pol: Policy, g: Group, a: Action, r: nat)
    requires Inv(pol, g) && Enabled(g, a) && r < |g|
    ensures Local(Apply(pol, g, a)[r], r)
  {
    assert Local(g[r], r);
    if a.Deliver? && a.r == r { DeliverEffect(pol, g[r], a.i); }
    else if a.Put? && a.r == r { PutLocal(pol, g, a); }
    else if !a.Deliver? { QuietLocal(pol, g, a, r); }
  }

  /** A server that does not put anything. */
  lemma QuietLocal(pol: Policy, g: Group, a: Action, r: nat)
    requires ReplicaGroup.Shape(g) && Enabled(g, a) && r < |g| && Local(g[r], r) && !a.Deliver? && (a.Put? ==> a.r != r)
    ensures Local(Apply(pol, g, a)[r], r)
  {
  }

  /** Every step of a group of single-core servers keeps the timing invariant. */
  lemma StepInv(pol: Policy, g: Group, a: Action)
    requires Inv(pol, g) && Enabled(g, a)
    ensures Inv(pol, Apply(pol, g, a))
  {
    var g' := Apply(pol, g, a);
    GroupInv(pol, g, a);
    forall r | 0 <= r < |g| ensures Local(g'[r], r) { StepLocal(pol, g, a, r); }
    forall r, i | 0 <= r < |g| && 0 <= i < |g| && i != r
      ensures Timed(g'[i], g'[r], i)
    {
      StepTimed(pol, g, a, r, i);
    }
  }

  lemma InitInv(pol: Policy, n: nat)
    ensures Inv(pol, ReplicaGroup.Init(n))
  {
    ReplicaGroup.InitInv(pol, n);
    var g := ReplicaGroup.Init(n);
    InitOrigin(n);
    forall r, i | 0 <= r < n && 0 <= i < n
      ensures Local(g[r], r) && Timed(g[i], g[r], i)
    {
      InitMembers(n, r, i);
    }
  }

  lemma InitMembers(n: nat, r: nat, i: nat)
    requires r < n && i < n
    ensures var m := ReplicaGroup.InitMember(n); Local(m, r) && Timed(m, m, i)
  {
  }

  lemma InitOrigin(n: nat)
    ensures OriginInv(ReplicaGroup.Init(n))
  {
  }

  // ---- consequences

  /** No entry of a version vector ever decreases. */
  lemma VersionVectorGrows(pol: Policy, g: Group, a: Action, r: nat)
    requires Inv(pol, g) && Enabled(g, a) && r < |g|
    ensures Leq(g[r].rep.vv, Apply(pol, g, a)[r].rep.vv)
  {
    assert Local(g[r], r);
    if a.Deliver? && a.r == r { DeliverGrows(pol, g, r, a.i); }
    else { QuietGrows(pol, g, a, r); }
  }

  lemma DeliverGrows(pol: Policy, g: Group, r: nat, i: nat)
    requires Inv(pol, g) && Enabled(g, Deliver(r, i))
    ensures Leq(g[r].rep.vv, DoDeliver(pol, g[r], i).rep.vv)
  {
    assert Local(g[r], r);
    DeliverEffect(pol, g[r], i);
    StampsNonNegative(pol, g, r, i);
    assert Timed(g[i], g[r], i);
    ChannelPop(g[r].inbox[i], g[r].rep.vv[i], g[i].clock, DoDeliver(pol, g[r], i).rep.vv[i]);
  }

  lemma QuietGrows(pol: Policy, g: Group, a: Action, r: nat)
    requires ReplicaGroup.Shape(g) && Enabled(g, a) && r < |g| && Local(g[r], r) && !(a.Deliver? && a.r == r)
    ensures Leq(g[r].rep.vv, Apply(pol, g, a)[r].rep.vv)
  {
  }

  lemma {:induction false} UpdatesInChannel(ch: seq<Message>, u: Update)
    requires u in ReplicaGroup.Updates(ch)
    ensures UpdateMsg(u) in ch
  {
    if !(ch[0].UpdateMsg? && ch[0].u == u) {
      UpdatesInChannel(ch[1..], u);
    }
  }

  /** Everything still in a channel is newer than the receiver's entry for its source. */
  lemma OutstandingIsNewer(pol: Policy, g: Group, r: nat, i: nat, u: Update)
    requires Inv(pol, g) && r < |g| && i < |g| && r != i && u in ReplicaGroup.Updates(g[r].inbox[i])
    ensures u.time > g[r].rep.vv[i]
  {
    UpdatesInChannel(g[r].inbox[i], u);
    assert Timed(g[i], g[r], i);
    assert ReplicaGroup.Link(pol, g[i].log, g[r], i) && ReplicaGroup.OwnOk(g[i], i);
    var j :| 0 <= j < |g[r].inbox[i]| && g[r].inbox[i][j] == UpdateMsg(u);
    assert u in g[i].log[g[r].arrived[i]..];
  }

  /**
   Prefix completeness of GentleRain Vector: an update of source `i` with a time at
   most entry `i` of the version vector has been handled: it is stored, or a newer
   version of its key is.
   */
  lemma PrefixComplete(g: Group, r: nat, u: Update)
    requires Inv(Grv, g) && r < |g| && u.source < |g| && u.source != r
    requires u in g[u.source].log && u.time <= g[r].rep.vv[u.source]
    ensures ReplicaGroup.Settled(g[r].rep.items, u)
  {
    var i := u.source;
    assert ReplicaGroup.Link(Grv, g[i].log, g[r], i) && Local(g[r], r);
    var j :| 0 <= j < |g[i].log| && g[i].log[j] == u;
    if j >= g[r].arrived[i] {
      assert g[i].log[g[r].arrived[i]..][j - g[r].arrived[i]] == u;
      OutstandingIsNewer(Grv, g, r, i, u);
    }
  }

  /** The chain is unchanged or has one more version, newer than the entry of its source. */
  ghost predicate GrowsNewer(before: Chain, after: Chain, vv: Vec) {
    after == before || exists v :: after == [v] + before && v.source < |vv| && v.time > vv[v.source]
  }

  lemma DeliverStores(pol: Policy, g: Group, r: nat, i: nat, k: nat)
    requires Inv(pol, g) && Enabled(g, Deliver(r, i))
    ensures GrowsNewer(ChainOf(g[r].rep.items, k), ChainOf(DoDeliver(pol, g[r], i).rep.items, k), g[r].rep.vv)
  {
    var m := g[r];
    var before, after := ChainOf(m.rep.items, k), ChainOf(DoDeliver(pol, m, i).rep.items, k);
    assert Local(m, r);
    DeliverEffect(pol, m, i);
    if after != before {
      var u := m.inbox[i][0].u;
      assert after == [VersionOf(u)] + before;
      assert u in ReplicaGroup.Updates(m.inbox[i]);
      OutstandingIsNewer(pol, g, r, i, u);
      HeadSourceIs(pol, g, r, i);
    }
  }

  lemma HeadSourceIs(pol: Policy, g: Group, r: nat, i: nat)
    requires Inv(pol, g) && Enabled(g, Deliver(r, i)) && g[r].inbox[i][0].UpdateMsg?
    ensures g[r].inbox[i][0].u.source == i
  {
    assert ReplicaGroup.Link(pol, g[i].log, g[r], i) && ReplicaGroup.OwnOk(g[i], i);
    assert ReplicaGroup.Updates(g[r].inbox[i])[0] == g[r].inbox[i][0].u;
    assert g[i].log[g[r].arrived[i]..][0] == g[r].inbox[i][0].u;
  }

  /** A version stored by a step is newer than the version vector entry of its source. */
  lemma StoredIsNewer(pol: Policy, g: Group, a: Action, r: nat, k: nat)
    requires Inv(pol, g) && Enabled(g, a) && r < |g|
    ensures GrowsNewer(ChainOf(g[r].rep.items, k), ChainOf(Apply(pol, g, a)[r].rep.items, k), g[r].rep.vv)
  {
    if a.Deliver? && a.r == r {
      DeliverStores(pol, g, r, a.i, k);
    } else if a.Put? && a.r == r {
      assert Local(g[r], r);
      PutStoresNewer(g[r].rep, r, a.key, a.value, a.deps, a.t, k);
      assert Apply(pol, g, a)[r].rep == PutLocked(g[r].rep, r, a.key, a.value, a.deps, a.t);
    } else {
      QuietStores(pol, g, a, r);
    }
  }

  lemma QuietStores(pol: Policy, g: Group, a: Action, r: nat)
    requires ReplicaGroup.Shape(g) && Enabled(g, a) && r < |g| && !((a.Deliver? || a.Put?) && a.r == r)
    ensures Apply(pol, g, a)[r].rep.items == g[r].rep.items
  {
  }

  lemma PutStoresNewer(rp: Replica, r: nat, key: nat, value: nat, deps: Vec, t: Time, k: nat)
    requires r < |rp.vv| && t > rp.vv[r]
    ensures GrowsNewer(ChainOf(rp.items, k), ChainOf(PutLocked(rp, r, key, value, deps, t).items, k), rp.vv)
  {
    var before, after := ChainOf(rp.items, k), ChainOf(PutLocked(rp, r, key, value, deps, t).items, k);
    var v := VersionOf(LocalUpdate(rp, r, key, value, deps, t));
    assert after == before || after == [v] + before;
  }

  /**
   What clock ticks are for: after a tick the own entry of a server is less than `interval`
   behind the clock. An entry that is so already stays.
   */
  lemma TickKeepsFresh(pol: Policy, g: Group, a: Action)
    requires Inv(pol, g) && a.ClockTick? && Enabled(g, a) && a.interval >= 0.0
    ensures a.t0 - a.interval < Apply(pol, g, a)[a.r].rep.vv[a.r]
    ensures a.t0 - a.interval < g[a.r].rep.vv[a.r] ==> Apply(pol, g, a)[a.r].rep == g[a.r].rep
  {
  }
}
