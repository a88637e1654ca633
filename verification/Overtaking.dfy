/**
 The version vector on any number of cores: the single-core theorems about it (SingleCore)
 fail here, because a heartbeat of a source can be handled while updates of that source
 still wait for their critical sections. The entry then claims more than the server has,
 and afterwards goes back. Nothing else can go wrong: in runs without such a heartbeat
 version vectors grow and are honest on any number of cores, in either protocol.
 */
module Overtaking {
  import opened Vectors
  import opened Store
  import opened Replication
  import opened ReplicaGroup
  import opened Convergence
  import SingleCore
  import StableTimeSafety

  // ---- timestamps

  /** No two events of a server happen at the same time. */
  ghost predicate Advances(g: Group, a: Action)
    requires Shape(g) && Enabled(g, a)
  {
    (a.LocalPut? ==> a.t > g[a.r].clock) && (a.Tick? ==> a.stamp > g[a.r].clock)
  }

  /** The largest time of source `i` that has reached the server: its entry or its last queued update. */
  function Reached(rp: Replica, i: nat): Time
    requires i < |rp.vv| == |rp.queues|
  {
    var q := rp.queues[i];
    if q == [] then rp.vv[i] else Max(rp.vv[i], q[|q| - 1].time)
  }

  /** Whatever is still in the channel is newer than all that, and nothing is newer than the clock of the source. */
  ghost predicate Timely(src: Member, m: Member, i: nat)
    requires Sized(m.rep, |m.inbox|) && i < |m.inbox|
  {
    && 0.0 <= m.rep.vv[i] && Reached(m.rep, i) <= src.clock
    && SingleCore.Channel(m.inbox[i], Reached(m.rep, i), src.clock)
  }

  ghost predicate Timing(g: Group) {
    && Shape(g)
    && (forall r :: 0 <= r < |g| ==> 0.0 <= g[r].rep.vv[r] <= g[r].clock)
    && forall r, i :: 0 <= r < |g| && 0 <= i < |g| && i != r ==> Timely(g[i], g[r], i)
  }

  lemma ChannelWiden(ch: seq<Message>, lo: Time, hi: Time, lo': Time, hi': Time)
    requires SingleCore.Channel(ch, lo, hi) && lo' <= lo && hi <= hi'
    ensures SingleCore.Channel(ch, lo', hi')
  {
  }

  /** The queue is in the order of the log. */
  lemma QueueOrder(pol: Policy, log: seq<Update>, m: Member, i: nat)
    requires Sized(m.rep, |m.inbox|) && |m.arrived| == |m.inbox| && i < |m.inbox| && Link(pol, log, m, i)
    requires LogOk(log, i)
    ensures var q := m.rep.queues[i];
      && (forall j :: 0 <= j < |q| ==> q[j] == log[m.arrived[i] - |q| + j] && 0.0 < q[j].time)
      && forall j, k :: 0 <= j < k < |q| ==> q[j].time < q[k].time
  {
    var q, a := m.rep.queues[i], m.arrived[i];
    assert forall j :: 0 <= j < |q| ==> q[j] == log[a - |q| + j];
  }

  // ---- one step, one pair of servers

  lemma UpdateTimely(pol: Policy, src: Member, m: Member, m': Member, i: nat)
    requires Sized(m.rep, |m.inbox|) && |m.arrived| == |m.inbox| && i < |m.inbox| && m.inbox[i] != []
    requires m.inbox[i][0].UpdateMsg? && m' == DoReceive(pol, m, i)
    requires Link(pol, src.log, m, i) && Link(pol, src.log, m', i) && LogOk(src.log, i) && Timely(src, m, i)
    ensures Timely(src, m', i)
  {
    var u, lo := m.inbox[i][0].u, Reached(m.rep, i);
    FirstOutstanding(m.inbox[i], src.log, m.arrived[i]);
    assert lo < u.time <= src.clock;
    SingleCore.ChannelPop(m.inbox[i], lo, src.clock, u.time);
    QueueOrder(pol, src.log, m', i);
    assert Reached(m'.rep, i) <= u.time;
    ChannelWiden(m'.inbox[i], u.time, src.clock, Reached(m'.rep, i), src.clock);
  }

  lemma HeartbeatTimely(pol: Policy, src: Member, m: Member, m': Member, i: nat)
    requires Sized(m.rep, |m.inbox|) && |m.arrived| == |m.inbox| && i < |m.inbox| && m.inbox[i] != []
    requires m.inbox[i][0].Heartbeat? && m' == DoReceive(pol, m, i) && Timely(src, m, i)
    ensures Timely(src, m', i)
    ensures var t := m.inbox[i][0].time; t == 0.0 || (Reached(m.rep, i) < t && m'.rep.vv[i] == t)
  {
    SingleCore.ChannelPop(m.inbox[i], Reached(m.rep, i), src.clock, Reached(m'.rep, i));
  }

  lemma EnterTimely(pol: Policy, src: Member, m: Member, i: nat)
    requires Sized(m.rep, |m.inbox|) && |m.arrived| == |m.inbox| && i < |m.inbox| && m.rep.progress[i].Locking?
    requires Link(pol, src.log, m, i) && LogOk(src.log, i) && Timely(src, m, i)
    ensures Timely(src, m.(rep := Locked(m.rep, i)), i)
  {
    QueueOrder(pol, src.log, m, i);
    ChannelWiden(m.inbox[i], Reached(m.rep, i), src.clock, Reached(Locked(m.rep, i), i), src.clock);
  }

  lemma LeaveTimely(pol: Policy, src: Member, m: Member, m': Member, i: nat)
    requires Sized(m.rep, |m.inbox|) && |m.arrived| == |m.inbox| && i < |m.inbox| && m.rep.queues[i] != []
    requires m' == m.(rep := Unlocked(pol, m.rep, i))
    requires Link(pol, src.log, m, i) && Link(pol, src.log, m', i) && LogOk(src.log, i) && Timely(src, m, i)
    ensures Timely(src, m', i)
  {
    QueueOrder(pol, src.log, m, i);
    QueueOrder(pol, src.log, m', i);
    ChannelWiden(m.inbox[i], Reached(m.rep, i), src.clock, Reached(m'.rep, i), src.clock);
  }

  /** The source sends something newer than its clock, or a heartbeat without a time, or only its clock moves. */
  lemma SendTimely(src: Member, m: Member, i: nat, msgs: seq<Message>, clock: Time, src': Member, m': Member)
    requires Sized(m.rep, |m.inbox|) && i < |m.inbox| && Timely(src, m, i) && src.clock <= clock == src'.clock
    requires |msgs| <= 1 && forall msg :: msg in msgs ==> Stamp(msg) == 0.0 || src.clock < Stamp(msg) <= clock
    requires m'.rep == m.rep && m'.inbox == m.inbox[i := m.inbox[i] + msgs]
    ensures Timely(src', m', i)
  {
    var lo := Reached(m.rep, i);
    if msgs == [] {
      assert m.inbox[i] + msgs == m.inbox[i];
      ChannelWiden(m.inbox[i], lo, src.clock, lo, clock);
    } else {
      assert msgs == [msgs[0]];
      SingleCore.ChannelPush(m.inbox[i], lo, src.clock, msgs[0], clock);
    }
  }

  /** Nothing of source `i` changes at the server. */
  lemma SameTimely(src: Member, m: Member, src': Member, m': Member, i: nat)
    requires Sized(m.rep, |m.inbox|) && Sized(m'.rep, |m'.inbox|) && i < |m.inbox| == |m'.inbox| && Timely(src, m, i)
    requires m'.rep.vv[i] == m.rep.vv[i] && m'.rep.queues[i] == m.rep.queues[i] && m'.inbox[i] == m.inbox[i]
    requires src'.clock == src.clock
    ensures Timely(src', m', i)
  {
  }

  lemma HandlerTimely(pol: Policy, g: Group, a: Action, r: nat, i: nat)
    requires Inv(pol, g) && Timing(g) && Enabled(g, a) && r < |g| && i < |g| && i != r
    requires a.Receive? || a.EnterLock? || a.LeaveLock?
    ensures Timely(Apply(pol, g, a)[i], Apply(pol, g, a)[r], i)
  {
    var g' := Apply(pol, g, a);
    assert Timely(g[i], g[r], i);
    if a.r == r && a.i == i {
      StepLink(pol, g, a, r, i);
      assert Link(pol, g[i].log, g[r], i) && OwnOk(g[i], i);
      OneTimely(pol, g, a);
    } else {
      OtherHandler(pol, g, a, r, i);
      SameTimely(g[i], g[r], g'[i], g'[r], i);
    }
  }

  /** The handlers of another server or another source. */
  lemma OtherHandler(pol: Policy, g: Group, a: Action, r: nat, i: nat)
    requires Shape(g) && Enabled(g, a) && (a.Receive? || a.EnterLock? || a.LeaveLock?) && r < |g| && i < |g|
    requires i != r && !(a.r == r && a.i == i)
    ensures var m, m' := g[r], Apply(pol, g, a)[r];
      && m'.rep.vv[i] == m.rep.vv[i] && m'.rep.queues[i] == m.rep.queues[i]
      && m'.rep.progress[i] == m.rep.progress[i] && m'.inbox[i] == m.inbox[i]
    ensures Apply(pol, g, a)[i].clock == g[i].clock
  {
  }

  lemma OneTimely(pol: Policy, g: Group, a: Action)
    requires Shape(g) && Enabled(g, a) && (a.Receive? || a.EnterLock? || a.LeaveLock?) && Timely(g[a.i], g[a.r], a.i)
    requires Link(pol, g[a.i].log, g[a.r], a.i) && LogOk(g[a.i].log, a.i)
    requires Link(pol, g[a.i].log, Apply(pol, g, a)[a.r], a.i)
    ensures Timely(g[a.i], Apply(pol, g, a)[a.r], a.i)
  {
    var src, m, m' := g[a.i], g[a.r], Apply(pol, g, a)[a.r];
    if a.EnterLock? { EnterTimely(pol, src, m, a.i); }
    else if a.LeaveLock? { LeaveTimely(pol, src, m, m', a.i); }
    else if m.inbox[a.i][0].UpdateMsg? { UpdateTimely(pol, src, m, m', a.i); }
    else { HeartbeatTimely(pol, src, m, m', a.i); }
  }

  /** What source `i` sends in step `a`. */
  function Sent(g: Group, a: Action): seq<Message>
    requires Shape(g) && a.r < |g|
  {
    match a
    case LocalPut(r, key, value, deps, t, _) =>
      if PutDiscarded(g[r].rep, key, t) then [] else [UpdateMsg(LocalUpdate(g[r].rep, r, key, value, deps, t))]
    case Tick(_, _, stamp) => [Heartbeat(stamp)]
    case SilentTick(_) => [Heartbeat(0.0)]
    case _ => []
  }

  lemma SentArrives(pol: Policy, g: Group, a: Action, r: nat)
    requires Shape(g) && Enabled(g, a) && !a.Receive? && !a.EnterLock? && !a.LeaveLock? && r < |g| && r != a.r
    ensures var m, i := g[r], a.r;
      Apply(pol, g, a)[r] == m.(inbox := m.inbox[i := m.inbox[i] + Sent(g, a)])
    ensures g[a.r].clock <= Apply(pol, g, a)[a.r].clock
  {
    var m, i := g[r], a.r;
    assert m.inbox[i] + [] == m.inbox[i] && m.inbox[i := m.inbox[i]] == m.inbox;
  }

  /** Only source `a.r` and its own entry are touched. */
  lemma OtherSource(pol: Policy, g: Group, a: Action, r: nat, i: nat)
    requires Shape(g) && Enabled(g, a) && !a.Receive? && !a.EnterLock? && !a.LeaveLock? && r < |g| && i < |g|
    requires i != r && i != a.r
    ensures var m, m' := g[r], Apply(pol, g, a)[r];
      && m'.rep.vv[i] == m.rep.vv[i] && m'.rep.queues == m.rep.queues
      && m'.rep.progress == m.rep.progress && m'.inbox[i] == m.inbox[i]
    ensures Apply(pol, g, a)[i].clock == g[i].clock
  {
  }

  lemma SourceTimely(pol: Policy, g: Group, a: Action, r: nat, i: nat)
    requires Timing(g) && Enabled(g, a) && Advances(g, a) && r < |g| && i < |g| && i != r
    requires !a.Receive? && !a.EnterLock? && !a.LeaveLock?
    ensures Timely(Apply(pol, g, a)[i], Apply(pol, g, a)[r], i)
  {
    var g' := Apply(pol, g, a);
    assert Timely(g[i], g[r], i);
    if a.r == i {
      SentArrives(pol, g, a, r);
      SendTimely(g[i], g[r], i, Sent(g, a), g'[i].clock, g'[i], g'[r]);
    } else {
      OtherSource(pol, g, a, r, i);
      SameTimely(g[i], g[r], g'[i], g'[r], i);
    }
  }

  lemma OwnTimely(pol: Policy, g: Group, a: Action, r: nat)
    requires Timing(g) && Enabled(g, a) && r < |g|
    ensures g[r].rep.vv[r] <= Apply(pol, g, a)[r].rep.vv[r] <= Apply(pol, g, a)[r].clock
  {
  }

  /** Every step keeps: what is in a channel is newer than all that has arrived from its source. */
  lemma StepTiming(pol: Policy, g: Group, a: Action)
    requires Inv(pol, g) && Timing(g) && Enabled(g, a) && Advances(g, a)
    ensures Timing(Apply(pol, g, a))
  {
    var g' := Apply(pol, g, a);
    forall r | 0 <= r < |g| ensures 0.0 <= g'[r].rep.vv[r] <= g'[r].clock { OwnTimely(pol, g, a, r); }
    forall r, i | 0 <= r < |g| && 0 <= i < |g| && i != r
      ensures Timely(g'[i], g'[r], i)
    {
      if a.Receive? || a.EnterLock? || a.LeaveLock? { HandlerTimely(pol, g, a, r, i); }
      else { SourceTimely(pol, g, a, r, i); }
    }
  }

  // ---- when an entry goes back

  /** A step lowers an entry if and only if it is the critical section of an update older than the entry. */
  lemma EntryGoesBack(pol: Policy, g: Group, a: Action, r: nat, i: nat)
    requires Timing(g) && Enabled(g, a) && r < |g| && i < |g|
    ensures Apply(pol, g, a)[r].rep.vv[i] < g[r].rep.vv[i] <==>
      a == EnterLock(r, i) && g[r].rep.progress[i].u.time < g[r].rep.vv[i]
  {
    if i == r { OwnTimely(pol, g, a, r); }
  }

  // ---- when an entry is honest

  /** Every update of source `i` at or below its entry is stored, or a newer version of its key is. */
  ghost predicate Complete(g: Group, r: nat, i: nat)
    requires Shape(g) && r < |g| && i < |g|
  {
    forall u :: u in g[i].log && u.time <= g[r].rep.vv[i] ==> Settled(g[r].rep.items, u)
  }

  /** The message that step `a` receives is a heartbeat that carries a time. */
  ghost predicate Beats(g: Group, a: Action)
    requires Shape(g) && Enabled(g, a)
  {
    a.Receive? && g[a.r].inbox[a.i][0].Heartbeat? && g[a.r].inbox[a.i][0].time > 0.0
  }

  /** Some update of the queue is neither stored nor superseded. */
  ghost predicate Unsettled(rp: Replica, i: nat)
    requires i < |rp.queues|
  {
    exists u :: u in rp.queues[i] && !Settled(rp.items, u)
  }

  /**
   The entry of `i` at `r` will claim too much: a heartbeat is handled before an update of
   the queue, or the source issues an update with a time that its heartbeat had already.
   */
  ghost predicate Claims(g: Group, a: Action, r: nat, i: nat)
    requires Shape(g) && Enabled(g, a) && r < |g| && i < |g|
  {
    || (Beats(g, a) && a.r == r && a.i == i && Unsettled(g[r].rep, i))
    || (a.LocalPut? && a.r == i && Sent(g, a) != [] && a.t <= g[r].rep.vv[i]
        && !Settled(g[r].rep.items, LocalUpdate(g[i].rep, i, a.key, a.value, a.deps, a.t)))
  }

  lemma SameComplete(g: Group, g': Group, r: nat, i: nat)
    requires Shape(g) && Shape(g') && r < |g| == |g'| && i < |g| && Complete(g, r, i)
    requires g'[i].log == g[i].log && g'[r].rep.vv[i] == g[r].rep.vv[i] && Keeps(g[r].rep.items, g'[r].rep.items)
    ensures Complete(g', r, i)
  {
    forall u | u in g'[i].log && u.time <= g'[r].rep.vv[i]
      ensures Settled(g'[r].rep.items, u)
    {
      SettledKeeps(g[r].rep.items, g'[r].rep.items, u);
    }
  }

  /** Where an issued update can be. */
  lemma Whereabouts(pol: Policy, log: seq<Update>, m: Member, i: nat, u: Update)
    requires Sized(m.rep, |m.inbox|) && |m.arrived| == |m.inbox| && i < |m.inbox| && Link(pol, log, m, i) && u in log
    ensures Settled(m.rep.items, u) || u in m.rep.queues[i] || UpdateMsg(u) in m.inbox[i]
  {
    var j :| 0 <= j < |log| && log[j] == u;
    var a, q := m.arrived[i], m.rep.queues[i];
    if j >= a {
      assert log[a..][j - a] == u;
      SingleCore.UpdatesInChannel(m.inbox[i], u);
    } else if j >= a - |q| {
      assert q[j - (a - |q|)] == u;
    }
  }

  /** A heartbeat that carries a time. */
  lemma BeatComplete(pol: Policy, g: Group, a: Action)
    requires Inv(pol, g) && Timing(g) && Enabled(g, a) && Beats(g, a)
    ensures Complete(Apply(pol, g, a), a.r, a.i) <==> !Unsettled(g[a.r].rep, a.i)
  {
    var r, i, g' := a.r, a.i, Apply(pol, g, a);
    var src, m, m' := g[i], g[r], g'[r];
    assert Timely(src, m, i) && Link(pol, src.log, m, i) && OwnOk(src, i);
    HeartbeatTimely(pol, src, m, m', i);
    BeatLink(pol, src, m, m', i);
    assert g'[i].log == src.log;
  }

  lemma BeatLink(pol: Policy, src: Member, m: Member, m': Member, i: nat)
    requires Sized(m.rep, |m.inbox|) && |m.arrived| == |m.inbox| && i < |m.inbox| && m.inbox[i] != []
    requires m.inbox[i][0].Heartbeat? && m.inbox[i][0].time > 0.0 && m' == DoReceive(pol, m, i)
    requires Timely(src, m', i) && Link(pol, src.log, m, i) && LogOk(src.log, i)
    requires Reached(m.rep, i) < m'.rep.vv[i]
    ensures (forall u :: u in src.log && u.time <= m'.rep.vv[i] ==> Settled(m.rep.items, u)) <==> !Unsettled(m.rep, i)
  {
    QueueOrder(pol, src.log, m, i);
    forall u | u in src.log && u.time <= m'.rep.vv[i] && !Settled(m.rep.items, u)
      ensures u in m.rep.queues[i]
    {
      Whereabouts(pol, src.log, m, i, u);
      if UpdateMsg(u) in m.inbox[i] { NewerInChannel(m.inbox[i], Reached(m'.rep, i), src.clock, u); }
    }
    forall u | u in m.rep.queues[i]
      ensures u in src.log && u.time <= m'.rep.vv[i]
    {
      var j :| 0 <= j < |m.rep.queues[i]| && m.rep.queues[i][j] == u;
    }
  }

  lemma NewerInChannel(ch: seq<Message>, lo: Time, hi: Time, u: Update)
    requires ch != [] && ch[0].Heartbeat? && SingleCore.Channel(ch[1..], lo, hi) && UpdateMsg(u) in ch && u.time != 0.0
    ensures u.time > lo
  {
    var j :| 0 <= j < |ch| && ch[j] == UpdateMsg(u);
    assert ch[1..][j - 1] == UpdateMsg(u);
  }

  /** A critical section makes the entry of its source honest, whatever it was before. */
  lemma EnterRestores(pol: Policy, g: Group, r: nat, i: nat)
    requires Inv(pol, g) && Enabled(g, EnterLock(r, i))
    ensures Complete(Apply(pol, g, EnterLock(r, i)), r, i)
  {
    var g' := Apply(pol, g, EnterLock(r, i));
    StepLink(pol, g, EnterLock(r, i), r, i);
    assert OwnOk(g[i], i) && Link(pol, g[i].log, g[r], i);
    EnterSettles(pol, g[i].log, g[r], g'[r], i);
    assert g'[i].log == g[i].log;
  }

  lemma EnterSettles(pol: Policy, log: seq<Update>, m: Member, m': Member, i: nat)
    requires Sized(m.rep, |m.inbox|) && |m.arrived| == |m.inbox| && i < |m.inbox| && m.rep.progress[i].Locking?
    requires m' == m.(rep := Locked(m.rep, i)) && Link(pol, log, m, i) && Link(pol, log, m', i) && LogOk(log, i)
    ensures forall u :: u in log && u.time <= m'.rep.vv[i] ==> Settled(m'.rep.items, u)
  {
    var a, q := m.arrived[i], m.rep.queues[i];
    assert q[0] == log[a - |q|];
    forall u | u in log && u.time <= m'.rep.vv[i]
      ensures Settled(m'.rep.items, u)
    {
      var j :| 0 <= j < |log| && log[j] == u;
      assert j <= a - |q|;
    }
  }

  lemma PutComplete(pol: Policy, g: Group, a: Action, r: nat)
    requires Shape(g) && Enabled(g, a) && a.LocalPut? && r < |g| && r != a.r && Complete(g, r, a.r)
    ensures Complete(Apply(pol, g, a), r, a.r) <==> !Claims(g, a, r, a.r)
  {
    var i, g' := a.r, Apply(pol, g, a);
    var u := LocalUpdate(g[i].rep, i, a.key, a.value, a.deps, a.t);
    SentArrives(pol, g, a, r);
    if Sent(g, a) != [] {
      assert g'[i].log == g[i].log + [u];
      assert forall w :: w in g'[i].log <==> w in g[i].log || w == u;
    } else {
      assert g'[i].log == g[i].log;
    }
  }

  /** Steps that change neither the entry nor the log. */
  lemma QuietComplete(pol: Policy, g: Group, a: Action, r: nat, i: nat)
    requires Shape(g) && Timing(g) && Enabled(g, a) && r < |g| && i < |g| && i != r && Complete(g, r, i)
    requires !(a.LocalPut? && a.r == i) && a != EnterLock(r, i) && !(Beats(g, a) && a.r == r && a.i == i)
    ensures Complete(Apply(pol, g, a), r, i)
  {
    assert Timely(g[i], g[r], i);
    QuietEntry(pol, g, a, r, i);
    SameComplete(g, Apply(pol, g, a), r, i);
  }

  lemma QuietEntry(pol: Policy, g: Group, a: Action, r: nat, i: nat)
    requires Shape(g) && Enabled(g, a) && r < |g| && i < |g| && i != r && Timely(g[i], g[r], i)
    requires !(a.LocalPut? && a.r == i) && a != EnterLock(r, i) && !(Beats(g, a) && a.r == r && a.i == i)
    ensures var g' := Apply(pol, g, a);
      g'[i].log == g[i].log && g'[r].rep.vv[i] == g[r].rep.vv[i] && Keeps(g[r].rep.items, g'[r].rep.items)
  {
    var rp := g[r].rep;
    if a.r == r && a.LocalPut? {
      PutKeeps(rp.items, a.key, VersionOf(LocalUpdate(rp, r, a.key, a.value, a.deps, a.t)));
    } else if a.r == r && a.EnterLock? {
      PutKeeps(rp.items, rp.progress[a.i].u.key, VersionOf(rp.progress[a.i].u));
    } else {
      SameItems(pol, g, a, r);
      if a.Receive? && a.r == r && a.i == i && g[r].inbox[i][0].Heartbeat? {
        assert SingleCore.Channel(g[r].inbox[i], Reached(rp, i), g[i].clock);
      }
    }
  }

  /** A step keeps an entry honest if and only if it does not claim too much. */
  lemma CompleteIff(pol: Policy, g: Group, a: Action, r: nat, i: nat)
    requires Inv(pol, g) && Timing(g) && Enabled(g, a) && r < |g| && i < |g| && i != r && Complete(g, r, i)
    ensures Complete(Apply(pol, g, a), r, i) <==> !Claims(g, a, r, i)
  {
    if a.LocalPut? && a.r == i { PutComplete(pol, g, a, r); }
    else if a == EnterLock(r, i) { EnterRestores(pol, g, r, i); }
    else if Beats(g, a) && a.r == r && a.i == i { BeatComplete(pol, g, a); }
    else { QuietComplete(pol, g, a, r, i); }
  }

  // ---- overtaking

  /** The updates of source `i` that have not had their critical section. */
  function Waiting(rp: Replica, i: nat): seq<Update>
    requires i < |rp.queues| == |rp.progress|
  {
    var q := rp.queues[i];
    if q != [] && rp.progress[i].Unlocking? then q[1..] else q
  }

  /** A heartbeat overtakes updates of its source. */
  ghost predicate Overtakes(g: Group, a: Action)
    requires Shape(g) && Enabled(g, a)
  {
    Beats(g, a) && Waiting(g[a.r].rep, a.i) != []
  }

  /** All waiting updates are newer than the entry. */
  ghost predicate Ahead(g: Group, r: nat, i: nat)
    requires Shape(g) && r < |g| && i < |g|
  {
    forall u :: u in Waiting(g[r].rep, i) ==> u.time > g[r].rep.vv[i]
  }

  lemma EnterAhead(pol: Policy, log: seq<Update>, m: Member, i: nat)
    requires Sized(m.rep, |m.inbox|) && |m.arrived| == |m.inbox| && i < |m.inbox| && m.rep.progress[i].Locking?
    requires Link(pol, log, m, i) && LogOk(log, i)
    ensures forall u :: u in Waiting(Locked(m.rep, i), i) ==> u.time > Locked(m.rep, i).vv[i]
  {
    QueueOrder(pol, log, m, i);
    var q := m.rep.queues[i];
    forall u | u in q[1..]
      ensures u.time > q[0].time
    {
      var j :| 0 <= j < |q[1..]| && q[1..][j] == u;
      assert q[j + 1] == u;
    }
  }

  /** After a drain the queue is the end of what it was. */
  lemma Shorter(pol: Policy, log: seq<Update>, m: Member, m': Member, i: nat, u: Update)
    requires Sized(m.rep, |m.inbox|) && |m.arrived| == |m.inbox| && i < |m.inbox| && Link(pol, log, m, i)
    requires Sized(m'.rep, |m'.inbox|) && |m'.arrived| == |m'.inbox| && i < |m'.inbox| && Link(pol, log, m', i)
    requires m'.arrived[i] == m.arrived[i] && |m'.rep.queues[i]| < |m.rep.queues[i]| && u in m'.rep.queues[i]
    ensures u in m.rep.queues[i][1..]
  {
    var a, q, q' := m.arrived[i], m.rep.queues[i], m'.rep.queues[i];
    var j :| 0 <= j < |q'| && q'[j] == u;
    assert q'[j] == log[a - |q'| + j];
    assert q[1..][|q| - 1 - |q'| + j] == log[a - |q'| + j];
  }

  lemma LeaveAhead(pol: Policy, log: seq<Update>, m: Member, m': Member, i: nat)
    requires Sized(m.rep, |m.inbox|) && |m.arrived| == |m.inbox| && i < |m.inbox| && m.rep.queues[i] != []
    requires m.rep.progress[i].Unlocking? && m' == m.(rep := Unlocked(pol, m.rep, i))
    requires Link(pol, log, m, i) && Link(pol, log, m', i)
    requires forall u :: u in Waiting(m.rep, i) ==> u.time > m.rep.vv[i]
    ensures forall u :: u in Waiting(m'.rep, i) ==> u.time > m'.rep.vv[i]
  {
    UnlockedHandles(pol, m.rep, i);
    forall u | u in m'.rep.queues[i] ensures u in m.rep.queues[i][1..] { Shorter(pol, log, m, m', i, u); }
  }

  lemma UpdateAhead(pol: Policy, src: Member, m: Member, m': Member, i: nat)
    requires Sized(m.rep, |m.inbox|) && |m.arrived| == |m.inbox| && i < |m.inbox| && m.inbox[i] != []
    requires m.inbox[i][0].UpdateMsg? && m' == DoReceive(pol, m, i)
    requires Link(pol, src.log, m, i) && LogOk(src.log, i) && Timely(src, m, i)
    requires forall u :: u in Waiting(m.rep, i) ==> u.time > m.rep.vv[i]
    ensures forall u :: u in Waiting(m'.rep, i) ==> u.time > m'.rep.vv[i]
  {
    var w, q := m.inbox[i][0].u, m.rep.queues[i];
    FirstOutstanding(m.inbox[i], src.log, m.arrived[i]);
    assert w.time > m.rep.vv[i];
    if q == [] {
      ArriveOnly(pol, m.rep, i, w);
    } else {
      assert m'.rep.queues[i] == q + [w];
      assert (q + [w])[1..] == q[1..] + [w];
    }
  }

  /** An update that finds an empty queue is in it or gone. */
  lemma ArriveOnly(pol: Policy, rp: Replica, i: nat, w: Update)
    requires i < |rp.queues| == |rp.progress| && rp.queues[i] == []
    ensures forall u :: u in Waiting(Arrive(pol, rp, i, w), i) ==> u == w
  {
    assert [] + [w] == [w] && [w][1..] == [];
  }

  lemma BeatAhead(pol: Policy, src: Member, m: Member, m': Member, i: nat)
    requires Sized(m.rep, |m.inbox|) && |m.arrived| == |m.inbox| && i < |m.inbox| && m.inbox[i] != []
    requires m.inbox[i][0].Heartbeat? && m' == DoReceive(pol, m, i)
    requires Link(pol, src.log, m, i) && LogOk(src.log, i) && Timely(src, m, i)
    requires forall u :: u in Waiting(m.rep, i) ==> u.time > m.rep.vv[i]
    ensures (forall u :: u in Waiting(m'.rep, i) ==> u.time > m'.rep.vv[i]) <==>
      m.inbox[i][0].time <= 0.0 || Waiting(m.rep, i) == []
  {
    HeartbeatTimely(pol, src, m, m', i);
    QueueOrder(pol, src.log, m, i);
    var q := m.rep.queues[i];
    if m.inbox[i][0].time > 0.0 && Waiting(m.rep, i) != [] {
      var w := Waiting(m.rep, i)[0];
      assert w in Waiting(m'.rep, i) && w.time <= q[|q| - 1].time;
    }
  }

  /** Step `a` does nothing to source `i` at `r`. */
  lemma OtherAhead(pol: Policy, g: Group, a: Action, r: nat, i: nat)
    requires Shape(g) && Enabled(g, a) && r < |g| && i < |g| && i != r
    requires !(a.Receive? || a.EnterLock? || a.LeaveLock?) || a.r != r || a.i != i
    ensures Ahead(Apply(pol, g, a), r, i) <==> Ahead(g, r, i)
  {
    if a.Receive? || a.EnterLock? || a.LeaveLock? { OtherHandler(pol, g, a, r, i); }
    else if a.r == i { SentArrives(pol, g, a, r); }
    else { OtherSource(pol, g, a, r, i); }
  }

  /** A step keeps all waiting updates newer than the entry if and only if it does not overtake them. */
  lemma AheadIff(pol: Policy, g: Group, a: Action, r: nat, i: nat)
    requires Inv(pol, g) && Timing(g) && Enabled(g, a) && r < |g| && i < |g| && i != r && Ahead(g, r, i)
    ensures Ahead(Apply(pol, g, a), r, i) <==> !(Overtakes(g, a) && a.r == r && a.i == i)
  {
    if (a.Receive? || a.EnterLock? || a.LeaveLock?) && a.r == r && a.i == i {
      StepLink(pol, g, a, r, i);
      assert Timely(g[i], g[r], i) && Link(pol, g[i].log, g[r], i) && OwnOk(g[i], i);
      OneAhead(pol, g, a);
    } else {
      OtherAhead(pol, g, a, r, i);
    }
  }

  lemma OneAhead(pol: Policy, g: Group, a: Action)
    requires Shape(g) && Enabled(g, a) && (a.Receive? || a.EnterLock? || a.LeaveLock?) && Timely(g[a.i], g[a.r], a.i)
    requires Link(pol, g[a.i].log, g[a.r], a.i) && LogOk(g[a.i].log, a.i) && Ahead(g, a.r, a.i)
    requires Link(pol, g[a.i].log, Apply(pol, g, a)[a.r], a.i)
    ensures Ahead(Apply(pol, g, a), a.r, a.i) <==> !Overtakes(g, a)
  {
    var src, m, m' := g[a.i], g[a.r], Apply(pol, g, a)[a.r];
    if a.EnterLock? { EnterAhead(pol, src.log, m, a.i); }
    else if a.LeaveLock? { LeaveAhead(pol, src.log, m, m', a.i); }
    else if m.inbox[a.i][0].UpdateMsg? { UpdateAhead(pol, src, m, m', a.i); }
    else { BeatAhead(pol, src, m, m', a.i); }
  }

  /** An update that loses its claim was overtaken: whatever is not waiting is settled. */
  lemma ClaimsOvertakes(pol: Policy, g: Group, a: Action, r: nat, i: nat)
    requires Inv(pol, g) && Timing(g) && Enabled(g, a) && Advances(g, a) && r < |g| && i < |g| && i != r
    requires Claims(g, a, r, i)
    ensures Overtakes(g, a)
  {
    assert Timely(g[i], g[r], i) && Link(pol, g[i].log, g[r], i);
    if Beats(g, a) { UnsettledWaits(pol, g[i].log, g[r], i); }
  }

  lemma UnsettledWaits(pol: Policy, log: seq<Update>, m: Member, i: nat)
    requires Sized(m.rep, |m.inbox|) && |m.arrived| == |m.inbox| && i < |m.inbox| && Link(pol, log, m, i)
    requires Unsettled(m.rep, i)
    ensures Waiting(m.rep, i) != []
  {
    var q := m.rep.queues[i];
    var u :| u in q && !Settled(m.rep.items, u);
    var j :| 0 <= j < |q| && q[j] == u;
    if m.rep.progress[i].Unlocking? { assert j > 0 && q[1..][j - 1] == u; }
  }

  // ---- runs

  /** A run in which no two events of a server happen at the same time. */
  ghost predicate AdvancingRun(pol: Policy, n: nat, gs: seq<Group>, acts: seq<Action>) {
    Reachable(pol, n, gs, acts) && forall k :: 0 <= k < |acts| ==> Advances(gs[k], acts[k])
  }

  lemma InitTiming(n: nat)
    ensures Timing(Init(n))
    ensures forall r, i :: 0 <= r < n && 0 <= i < n && i != r ==> Complete(Init(n), r, i) && Ahead(Init(n), r, i)
  {
    var g := Init(n);
    assert forall r :: 0 <= r < n ==> g[r] == InitMember(n);
  }

  lemma {:induction false} RunTiming(pol: Policy, n: nat, gs: seq<Group>, acts: seq<Action>, k: nat)
    requires AdvancingRun(pol, n, gs, acts) && k < |gs|
    ensures Inv(pol, gs[k]) && Timing(gs[k]) && |gs[k]| == n
    decreases k
  {
    RunInv(pol, n, gs, acts, k);
    if k == 0 {
      InitTiming(n);
    } else {
      RunTiming(pol, n, gs, acts, k - 1);
      StepTiming(pol, gs[k - 1], acts[k - 1]);
    }
  }

  /** None of the first `k` steps makes the entry of `i` at `r` claim too much. */
  ghost predicate NoClaim(gs: seq<Group>, acts: seq<Action>, k: nat, r: nat, i: nat)
    requires |gs| == |acts| + 1 && k <= |acts|
  {
    forall j :: 0 <= j < k && Shape(gs[j]) && Enabled(gs[j], acts[j]) && r < |gs[j]| && i < |gs[j]| ==>
      !Claims(gs[j], acts[j], r, i)
  }

  /** Prefix completeness on any number of cores, in either protocol. */
  lemma {:induction false} RunComplete(pol: Policy, n: nat, gs: seq<Group>, acts: seq<Action>, k: nat, r: nat, i: nat)
    requires AdvancingRun(pol, n, gs, acts) && k < |gs| && r < n && i < n && i != r && NoClaim(gs, acts, k, r, i)
    ensures Shape(gs[k]) && |gs[k]| == n && Complete(gs[k], r, i)
    decreases k
  {
    RunTiming(pol, n, gs, acts, k);
    if k == 0 {
      InitTiming(n);
    } else {
      RunComplete(pol, n, gs, acts, k - 1, r, i);
      RunTiming(pol, n, gs, acts, k - 1);
      CompleteIff(pol, gs[k - 1], acts[k - 1], r, i);
    }
  }

  /** No heartbeat overtakes an update in the first `k` steps. */
  ghost predicate NoOvertaking(gs: seq<Group>, acts: seq<Action>, k: nat)
    requires |gs| == |acts| + 1 && k <= |acts|
  {
    forall j :: 0 <= j < k && Shape(gs[j]) && Enabled(gs[j], acts[j]) ==> !Overtakes(gs[j], acts[j])
  }

  lemma {:induction false} RunAhead(pol: Policy, n: nat, gs: seq<Group>, acts: seq<Action>, k: nat, r: nat, i: nat)
    requires AdvancingRun(pol, n, gs, acts) && k < |gs| && r < n && i < n && i != r && NoOvertaking(gs, acts, k)
    ensures Shape(gs[k]) && |gs[k]| == n && Ahead(gs[k], r, i)
    decreases k
  {
    RunTiming(pol, n, gs, acts, k);
    if k == 0 {
      InitTiming(n);
    } else {
      RunAhead(pol, n, gs, acts, k - 1, r, i);
      RunTiming(pol, n, gs, acts, k - 1);
      AheadIff(pol, gs[k - 1], acts[k - 1], r, i);
    }
  }

  /** In every run without overtaking, every entry is honest: an update at or below it is stored or superseded. */
  lemma PrefixCompleteInRuns(pol: Policy, n: nat, gs: seq<Group>, acts: seq<Action>, k: nat, r: nat, u: Update)
    requires AdvancingRun(pol, n, gs, acts) && k < |gs| && r < n && NoOvertaking(gs, acts, k)
    requires u.source < n && u.source != r && |gs[k]| == n && Shape(gs[k])
    requires u in gs[k][u.source].log && u.time <= gs[k][r].rep.vv[u.source]
    ensures Settled(gs[k][r].rep.items, u)
  {
    forall j | 0 <= j < k && Shape(gs[j]) && Enabled(gs[j], acts[j]) && r < |gs[j]| && u.source < |gs[j]|
      ensures !Claims(gs[j], acts[j], r, u.source)
    {
      RunTiming(pol, n, gs, acts, j);
      if Claims(gs[j], acts[j], r, u.source) { ClaimsOvertakes(pol, gs[j], acts[j], r, u.source); }
    }
    RunComplete(pol, n, gs, acts, k, r, u.source);
  }

  /** No step of such a run lowers an entry. */
  lemma EntriesGrow(pol: Policy, g: Group, a: Action, r: nat)
    requires Inv(pol, g) && Timing(g) && Enabled(g, a) && r < |g|
    requires forall i :: 0 <= i < |g| && i != r ==> Ahead(g, r, i)
    ensures Leq(g[r].rep.vv, Apply(pol, g, a)[r].rep.vv)
  {
    forall i | 0 <= i < |g|
      ensures g[r].rep.vv[i] <= Apply(pol, g, a)[r].rep.vv[i]
    {
      EntryGoesBack(pol, g, a, r, i);
      if a == EnterLock(r, i) { EnterNewer(pol, g, r, i); }
    }
  }

  lemma EnterNewer(pol: Policy, g: Group, r: nat, i: nat)
    requires Inv(pol, g) && Enabled(g, EnterLock(r, i)) && Ahead(g, r, i)
    ensures g[r].rep.progress[i].u.time > g[r].rep.vv[i]
  {
    assert Link(pol, g[i].log, g[r], i);
    assert Waiting(g[r].rep, i)[0] == g[r].rep.progress[i].u;
  }

  /** In every run without overtaking, version vectors grow, on any number of cores. */
  lemma {:induction false} VersionVectorsGrow(pol: Policy, n: nat, gs: seq<Group>, acts: seq<Action>, j: nat, k: nat,
    r: nat)
    requires AdvancingRun(pol, n, gs, acts) && j <= k < |gs| && r < n && NoOvertaking(gs, acts, k)
    ensures |gs[j]| == |gs[k]| == n && Leq(gs[j][r].rep.vv, gs[k][r].rep.vv)
    decreases k
  {
    if j < k {
      VersionVectorsGrow(pol, n, gs, acts, j, k - 1, r);
      GrowInRun(pol, n, gs, acts, k - 1, r);
      StableTimeSafety.LeqTrans(gs[j][r].rep.vv, gs[k - 1][r].rep.vv, gs[k][r].rep.vv);
    } else {
      RunTiming(pol, n, gs, acts, k);
    }
  }

  lemma GrowInRun(pol: Policy, n: nat, gs: seq<Group>, acts: seq<Action>, k: nat, r: nat)
    requires AdvancingRun(pol, n, gs, acts) && k < |acts| && r < n && NoOvertaking(gs, acts, k)
    ensures |gs[k]| == |gs[k + 1]| == n && Leq(gs[k][r].rep.vv, gs[k + 1][r].rep.vv)
  {
    RunTiming(pol, n, gs, acts, k);
    var g := gs[k];
    forall i | 0 <= i < |g| && i != r ensures Ahead(g, r, i) { RunAhead(pol, n, gs, acts, k, r, i); }
    EntriesGrow(pol, g, acts[k], r);
  }
}
