/**
 The servers of one partition in all replicas, with the FIFO channels between
 them, at the granularity of single handlers: any number of cores per server.

 Over every run, each update is handled exactly once, in the order in which its
 source issued it, and is stored or gives way to a newer version.
 */
module ReplicaGroup {
  import opened Vectors
  import opened Store
  import opened Replication

  /**
   One server. inbox[i] is the channel from replica i. `log` (the updates this
   server has replicated) and `arrived` (how many updates of each source have been
   received) are history.
   */
  datatype Member = Member(rep: Replica, clock: Time, inbox: seq<seq<Message>>, log: seq<Update>, arrived: seq<nat>)

  type Group = seq<Member>

  ghost predicate Shape(g: Group) {
    forall r :: 0 <= r < |g| ==> Sized(g[r].rep, |g|) && |g[r].inbox| == |g| && |g[r].arrived| == |g|
  }

  function InitMember(n: nat): Member {
    Member(Replica(Zero(n), map[], seq(n, _ => []), seq(n, _ => Free)), 0.0, seq(n, _ => []), [], seq(n, _ => 0))
  }

  function Init(n: nat): Group { seq(n, _ => InitMember(n)) }

  function Updates(ch: seq<Message>): seq<Update> {
    if ch == [] then []
    else (if ch[0].UpdateMsg? then [ch[0].u] else []) + Updates(ch[1..])
  }

  // ---- steps

  datatype Action =
    | Receive(r: nat, i: nat)
    | EnterLock(r: nat, i: nat)
    | LeaveLock(r: nat, i: nat)
    | LocalPut(r: nat, key: nat, value: nat, deps: Vec, t: Time, after: Time)
    | Tick(r: nat, t: Time, stamp: Time)
    | SilentTick(r: nat)
    | Advance(r: nat, t: Time)

  /** Replica `r` sends `m` to every other replica. */
  function Post(g: Group, r: nat, m: Message): (g': Group)
    requires Shape(g) && r < |g|
    ensures Shape(g') && |g'| == |g|
  {
    seq(|g|, d requires 0 <= d < |g| =>
      if d == r then g[d] else g[d].(inbox := g[d].inbox[r := g[d].inbox[r] + [m]]))
  }

  /** A timestamp that a put may use: not before the clock and after every earlier put. */
  ghost predicate Fresh(m: Member, t: Time) {
    t >= m.clock && t > 0.0 && forall j :: 0 <= j < |m.log| ==> m.log[j].time < t
  }

  ghost predicate Enabled(g: Group, a: Action)
    requires Shape(g)
  {
    match a
    case Receive(r, i) => r < |g| && i < |g| && i != r && g[r].inbox[i] != []
    case EnterLock(r, i) => r < |g| && i < |g| && i != r && g[r].rep.progress[i].Locking?
    case LeaveLock(r, i) => r < |g| && i < |g| && i != r && g[r].rep.progress[i].Unlocking? && g[r].rep.queues[i] != []
    case LocalPut(r, key, value, deps, t, after) => r < |g| && Fresh(g[r], t) && after >= t
    case Tick(r, t, stamp) => r < |g| && g[r].clock <= t <= stamp && stamp > 0.0
    case SilentTick(r) => r < |g|
    case Advance(r, t) => r < |g| && t >= g[r].clock
  }

  function DoReceive(pol: Policy, m: Member, i: nat): Member
    requires Sized(m.rep, |m.inbox|) && |m.arrived| == |m.inbox| && i < |m.inbox| && m.inbox[i] != []
  {
    var m1 := m.(inbox := m.inbox[i := m.inbox[i][1..]]);
    match m.inbox[i][0]
    case UpdateMsg(u) => m1.(rep := Arrive(pol, m.rep, i, u), arrived := m.arrived[i := m.arrived[i] + 1])
    case Heartbeat(t) => m1.(rep := OnHeartbeat(m.rep, i, t))
  }

  function DoPut(g: Group, r: nat, key: nat, value: nat, deps: Vec, t: Time, after: Time): Group
    requires Shape(g) && r < |g|
  {
    var u := LocalUpdate(g[r].rep, r, key, value, deps, t);
    var m := g[r].(rep := PutLocked(g[r].rep, r, key, value, deps, t), clock := after);
    if PutDiscarded(g[r].rep, key, t) then g[r := m]
    else Post(g, r, UpdateMsg(u))[r := m.(log := m.log + [u])]
  }

  function DoTick(g: Group, r: nat, t: Time, stamp: Time): Group
    requires Shape(g) && r < |g|
  {
    Post(g, r, Heartbeat(stamp))[r := g[r].(rep := TickLocked(g[r].rep, r, t), clock := stamp)]
  }

  ghost function Apply(pol: Policy, g: Group, a: Action): (g': Group)
    requires Shape(g) && Enabled(g, a)
    ensures Shape(g') && |g'| == |g|
  {
    match a
    case Receive(r, i) => g[r := DoReceive(pol, g[r], i)]
    case EnterLock(r, i) => g[r := g[r].(rep := Locked(g[r].rep, i))]
    case LeaveLock(r, i) => g[r := g[r].(rep := Unlocked(pol, g[r].rep, i))]
    case LocalPut(r, key, value, deps, t, after) => DoPut(g, r, key, value, deps, t, after)
    case Tick(r, t, stamp) => DoTick(g, r, t, stamp)
    case SilentTick(r) => Post(g, r, Heartbeat(0.0))
    case Advance(r, t) => g[r := g[r].(clock := t)]
  }

  // ---- invariant

  /** The version `v` wins over update `u`. */
  predicate Newer(v: Version, u: Update) { v.time > u.time || (v.time == u.time && v.source > u.source) }

  /** The update is stored, or a newer version of its key is. */
  ghost predicate Settled(items: Items, u: Update) {
    || VersionOf(u) in ChainOf(items, u.key)
    || exists v :: v in ChainOf(items, u.key) && Newer(v, u)
  }

  /** Every version of `items` is still in `items'`. */
  ghost predicate Keeps(items: Items, items': Items) {
    forall k, v :: v in ChainOf(items, k) ==> v in ChainOf(items', k)
  }

  ghost predicate ProgressOk(pol: Policy, rp: Replica, i: nat)
    requires i < |rp.queues| && i < |rp.progress|
  {
    match rp.progress[i]
    case Free => pol == Grv ==> rp.queues[i] == []
    case Locking(u) => rp.queues[i] != [] && rp.queues[i][0] == u
    case Unlocking(u) => rp.queues[i] != [] && rp.queues[i][0] == u && Settled(rp.items, u)
  }

  /** The first `a` updates of `log` have arrived: a settled prefix followed by the queue. */
  ghost predicate Behind(rp: Replica, i: nat, log: seq<Update>, a: nat)
    requires i < |rp.queues|
  {
    var q := rp.queues[i];
    && |q| <= a <= |log|
    && q == log[a - |q|..a]
    && forall j :: 0 <= j < a - |q| ==> Settled(rp.items, log[j])
  }

  ghost predicate LogOk(log: seq<Update>, r: nat) {
    && (forall j :: 0 <= j < |log| ==> log[j].source == r && log[j].time > 0.0)
    && forall j, k :: 0 <= j < k < |log| ==> log[j].time < log[k].time
  }

  /** Source `i`, whose log is `log`, as seen by member `m`. */
  ghost predicate Link(pol: Policy, log: seq<Update>, m: Member, i: nat)
    requires Sized(m.rep, |m.inbox|) && |m.arrived| == |m.inbox| && i < |m.inbox|
  {
    && Behind(m.rep, i, log, m.arrived[i])
    && Updates(m.inbox[i]) == log[m.arrived[i]..]
    && ProgressOk(pol, m.rep, i)
  }

  ghost predicate OwnOk(m: Member, r: nat)
    requires Sized(m.rep, |m.inbox|) && r < |m.inbox|
  {
    && m.rep.queues[r] == [] && m.rep.progress[r] == Free && m.inbox[r] == []
    && LogOk(m.log, r)
    && AllOrdered(m.rep.items)
    && forall j :: 0 <= j < |m.log| ==> VersionOf(m.log[j]) in ChainOf(m.rep.items, m.log[j].key)
  }

  ghost predicate Inv(pol: Policy, g: Group) {
    && Shape(g)
    && (forall r :: 0 <= r < |g| ==> OwnOk(g[r], r))
    && forall r, i :: 0 <= r < |g| && 0 <= i < |g| && i != r ==> Link(pol, g[i].log, g[r], i)
  }

  // ---- lemmas about the store and the channels

  lemma PutKeeps(items: Items, key: nat, v: Version)
    ensures Keeps(items, Put(items, key, v))
    ensures v in ChainOf(Put(items, key, v), key) || Discards(ChainOf(items, key), v)
  {
  }

  lemma SettledKeeps(items: Items, items': Items, u: Update)
    requires Keeps(items, items') && Settled(items, u)
    ensures Settled(items', u)
  {
    if VersionOf(u) !in ChainOf(items, u.key) {
      var v :| v in ChainOf(items, u.key) && Newer(v, u);
      assert v in ChainOf(items', u.key);
    }
  }

  /** Whatever the put decides, the update is settled afterwards. */
  lemma PutSettles(items: Items, u: Update)
    ensures Settled(Put(items, u.key, VersionOf(u)), u)
  {
    PutKeeps(items, u.key, VersionOf(u));
    var chain := ChainOf(items, u.key);
    if Discards(chain, VersionOf(u)) {
      assert chain[0] in chain && Newer(chain[0], u);
    }
  }

  /** A dropped update has lost to the newest version. */
  lemma DropSettles(pol: Policy, items: Items, u: Update)
    requires u.time > 0.0 && Decide(pol, items, u) == Drop
    ensures Settled(items, u)
  {
    var chain := ChainOf(items, u.key);
    assert chain != [];
    assert chain[0] in chain && Newer(chain[0], u);
  }

  lemma {:induction false} UpdatesAppend(ch: seq<Message>, m: Message)
    ensures Updates(ch + [m]) == Updates(ch) + if m.UpdateMsg? then [m.u] else []
  {
    if ch == [] {
      assert ch + [m] == [m];
      assert [m][1..] == [];
    } else {
      var rest := ch[1..];
      UpdatesAppend(rest, m);
      assert (ch + [m])[0] == ch[0] && (ch + [m])[1..] == rest + [m];
    }
  }

  lemma BehindKeeps(rp: Replica, rp': Replica, i: nat, log: seq<Update>, a: nat)
    requires i < |rp.queues| && i < |rp'.queues| && rp'.queues[i] == rp.queues[i]
    requires Behind(rp, i, log, a) && Keeps(rp.items, rp'.items)
    ensures Behind(rp', i, log, a)
  {
    forall j | 0 <= j < a - |rp.queues[i]|
      ensures Settled(rp'.items, log[j])
    {
      SettledKeeps(rp.items, rp'.items, log[j]);
    }
  }

  lemma LinkKeeps(pol: Policy, log: seq<Update>, m: Member, rp': Replica, i: nat)
    requires Sized(m.rep, |m.inbox|) && |m.arrived| == |m.inbox| && i < |m.inbox| && Sized(rp', |m.inbox|)
    requires Link(pol, log, m, i)
    requires rp'.queues[i] == m.rep.queues[i] && rp'.progress[i] == m.rep.progress[i] && Keeps(m.rep.items, rp'.items)
    ensures Link(pol, log, m.(rep := rp'), i)
  {
    BehindKeeps(m.rep, rp', i, log, m.arrived[i]);
    if rp'.progress[i].Unlocking? { SettledKeeps(m.rep.items, rp'.items, rp'.progress[i].u); }
  }

  // ---- the handlers of an update

  /** Dropping updates one after the other settles them one after the other. */
  lemma {:induction false} WorkBehind(pol: Policy, rp: Replica, i: nat, log: seq<Update>, a: nat, r: nat)
    requires i < |rp.queues| == |rp.progress| && rp.queues[i] != []
    requires Behind(rp, i, log, a) && LogOk(log, r)
    ensures Behind(Work(pol, rp, i), i, log, a) && ProgressOk(pol, Work(pol, rp, i), i)
    decreases |rp.queues[i]|, 1
  {
    var u := rp.queues[i][0];
    assert u == log[a - |rp.queues[i]|];
    match Decide(pol, rp.items, u) {
      case Drop =>
        DropSettles(pol, rp.items, u);
        UnlockedBehind(pol, rp, i, log, a, r);
      case Stall =>
      case Take =>
    }
  }

  lemma {:induction false} UnlockedBehind(pol: Policy, rp: Replica, i: nat, log: seq<Update>, a: nat, r: nat)
    requires i < |rp.queues| == |rp.progress| && rp.queues[i] != []
    requires Behind(rp, i, log, a) && LogOk(log, r) && Settled(rp.items, rp.queues[i][0])
    ensures Behind(Unlocked(pol, rp, i), i, log, a) && ProgressOk(pol, Unlocked(pol, rp, i), i)
    decreases |rp.queues[i]|, 0
  {
    var q := rp.queues[i];
    assert q[0] == log[a - |q|];
    assert q[1..] == log[a - |q| + 1..a];
    var rp1 := rp.(queues := rp.queues[i := q[1..]], progress := rp.progress[i := Free]);
    assert Behind(rp1, i, log, a);
    if rp1.queues[i] != [] {
      WorkBehind(pol, rp1, i, log, a, r);
    }
  }

  lemma ArriveBehind(pol: Policy, rp: Replica, i: nat, log: seq<Update>, a: nat, r: nat)
    requires i < |rp.queues| == |rp.progress|
    requires Behind(rp, i, log, a) && LogOk(log, r) && ProgressOk(pol, rp, i) && a < |log|
    ensures Behind(Arrive(pol, rp, i, log[a]), i, log, a + 1)
    ensures ProgressOk(pol, Arrive(pol, rp, i, log[a]), i)
  {
    var q := rp.queues[i];
    var rp1 := rp.(queues := rp.queues[i := q + [log[a]]]);
    assert q + [log[a]] == log[a - |q|..a + 1];
    assert Behind(rp1, i, log, a + 1);
    if q == [] {
      WorkBehind(pol, rp1, i, log, a + 1, r);
    }
  }

  lemma LockedLink(pol: Policy, log: seq<Update>, m: Member, i: nat)
    requires Sized(m.rep, |m.inbox|) && |m.arrived| == |m.inbox| && i < |m.inbox|
    requires Link(pol, log, m, i) && m.rep.progress[i].Locking?
    ensures Link(pol, log, m.(rep := Locked(m.rep, i)), i)
  {
    var u := m.rep.progress[i].u;
    PutSettles(m.rep.items, u);
    PutKeeps(m.rep.items, u.key, VersionOf(u));
    BehindKeeps(m.rep, Locked(m.rep, i), i, log, m.arrived[i]);
  }

  // ---- preservation, one pair of servers at a time

  lemma ReceiveSelf(pol: Policy, log: seq<Update>, m: Member, i: nat)
    requires Sized(m.rep, |m.inbox|) && |m.arrived| == |m.inbox| && i < |m.inbox| && m.inbox[i] != []
    requires Link(pol, log, m, i) && LogOk(log, i)
    ensures Link(pol, log, DoReceive(pol, m, i), i)
  {
    match m.inbox[i][0] {
      case UpdateMsg(u) =>
        FirstOutstanding(m.inbox[i], log, m.arrived[i]);
        ArriveBehind(pol, m.rep, i, log, m.arrived[i], i);
      case Heartbeat(t) =>
        LinkKeeps(pol, log, m, OnHeartbeat(m.rep, i, t), i);
    }
  }

  /** The first update in a channel is the next one of the log. */
  lemma FirstOutstanding(ch: seq<Message>, log: seq<Update>, a: nat)
    requires ch != [] && ch[0].UpdateMsg? && a <= |log| && Updates(ch) == log[a..]
    ensures a < |log| && ch[0].u == log[a] && Updates(ch[1..]) == log[a + 1..]
  {
    assert Updates(ch)[0] == ch[0].u && Updates(ch)[1..] == Updates(ch[1..]);
    assert log[a..][1..] == log[a + 1..];
  }

  lemma ReceiveOther(pol: Policy, log: seq<Update>, m: Member, i: nat, s: nat)
    requires Sized(m.rep, |m.inbox|) && |m.arrived| == |m.inbox| && i < |m.inbox| && m.inbox[i] != []
    requires s < |m.inbox| && s != i && Link(pol, log, m, s)
    ensures Link(pol, log, DoReceive(pol, m, i), s)
  {
    LinkKeeps(pol, log, m, DoReceive(pol, m, i).rep, s);
  }

  lemma ReceiveLink(pol: Policy, g: Group, a: Action, r: nat, s: nat)
    requires Inv(pol, g) && a.Receive? && Enabled(g, a) && r < |g| && s < |g| && r != s
    ensures Link(pol, Apply(pol, g, a)[s].log, Apply(pol, g, a)[r], s)
  {
    assert Link(pol, g[s].log, g[r], s);
    if r == a.r {
      if s == a.i {
        assert OwnOk(g[s], s);
        ReceiveSelf(pol, g[s].log, g[r], s);
      } else {
        ReceiveOther(pol, g[s].log, g[r], a.i, s);
      }
    }
  }

  lemma EnterLink(pol: Policy, g: Group, a: Action, r: nat, s: nat)
    requires Inv(pol, g) && a.EnterLock? && Enabled(g, a) && r < |g| && s < |g| && r != s
    ensures Link(pol, Apply(pol, g, a)[s].log, Apply(pol, g, a)[r], s)
  {
    assert Link(pol, g[s].log, g[r], s);
    if r == a.r {
      if s == a.i {
        LockedLink(pol, g[s].log, g[r], s);
      } else {
        var u := g[r].rep.progress[a.i].u;
        PutKeeps(g[r].rep.items, u.key, VersionOf(u));
        LinkKeeps(pol, g[s].log, g[r], Locked(g[r].rep, a.i), s);
      }
    }
  }

  lemma LeaveLink(pol: Policy, g: Group, a: Action, r: nat, s: nat)
    requires Inv(pol, g) && a.LeaveLock? && Enabled(g, a) && r < |g| && s < |g| && r != s
    ensures Link(pol, Apply(pol, g, a)[s].log, Apply(pol, g, a)[r], s)
  {
    assert Link(pol, g[s].log, g[r], s);
    if r == a.r {
      if s == a.i {
        assert OwnOk(g[s], s);
        UnlockedBehind(pol, g[r].rep, s, g[s].log, g[r].arrived[s], s);
      } else {
        LinkKeeps(pol, g[s].log, g[r], Unlocked(pol, g[r].rep, a.i), s);
      }
    }
  }

  /** A message appended to a channel together with its log entry. */
  lemma PostLink(pol: Policy, log: seq<Update>, m: Member, i: nat, msg: Message)
    requires Sized(m.rep, |m.inbox|) && |m.arrived| == |m.inbox| && i < |m.inbox| && Link(pol, log, m, i)
    ensures Link(pol, if msg.UpdateMsg? then log + [msg.u] else log, m.(inbox := m.inbox[i := m.inbox[i] + [msg]]), i)
  {
    UpdatesAppend(m.inbox[i], msg);
    var a := m.arrived[i];
    if msg.UpdateMsg? {
      var log' := log + [msg.u];
      assert log'[a..] == log[a..] + [msg.u];
      assert forall j :: 0 <= j < |log| ==> log'[j] == log[j];
      assert log'[a - |m.rep.queues[i]|..a] == log[a - |m.rep.queues[i]|..a];
    }
  }

  lemma PutLink(pol: Policy, g: Group, a: Action, r: nat, s: nat)
    requires Inv(pol, g) && a.LocalPut? && Enabled(g, a) && r < |g| && s < |g| && r != s
    ensures Link(pol, Apply(pol, g, a)[s].log, Apply(pol, g, a)[r], s)
  {
    assert Link(pol, g[s].log, g[r], s);
    if r == a.r {
      PutLinkOwner(pol, g[s].log, g[r], a, s);
    } else if s == a.r {
      PutLinkSource(pol, g, a, r);
    } else {
      PutLinkOther(pol, g, a, r, s);
    }
  }

  lemma PutLinkOther(pol: Policy, g: Group, a: Action, r: nat, s: nat)
    requires Shape(g) && a.LocalPut? && Enabled(g, a) && r < |g| && s < |g| && r != s && r != a.r && s != a.r
    requires Link(pol, g[s].log, g[r], s)
    ensures Link(pol, Apply(pol, g, a)[s].log, Apply(pol, g, a)[r], s)
  {
  }

  lemma PutLinkSource(pol: Policy, g: Group, a: Action, r: nat)
    requires Shape(g) && a.LocalPut? && Enabled(g, a) && r < |g| && r != a.r && Link(pol, g[a.r].log, g[r], a.r)
    ensures Link(pol, Apply(pol, g, a)[a.r].log, Apply(pol, g, a)[r], a.r)
  {
    PostLink(pol, g[a.r].log, g[r], a.r, UpdateMsg(LocalUpdate(g[a.r].rep, a.r, a.key, a.value, a.deps, a.t)));
  }

  lemma PutLinkOwner(pol: Policy, log: seq<Update>, m: Member, a: Action, s: nat)
    requires a.LocalPut? && Sized(m.rep, |m.inbox|) && |m.arrived| == |m.inbox| && a.r < |m.inbox| && s < |m.inbox|
    requires a.r != s
    requires Link(pol, log, m, s)
    ensures Link(pol, log, m.(rep := PutLocked(m.rep, a.r, a.key, a.value, a.deps, a.t)), s)
  {
    var u := LocalUpdate(m.rep, a.r, a.key, a.value, a.deps, a.t);
    PutKeeps(m.rep.items, a.key, VersionOf(u));
    LinkKeeps(pol, log, m, PutLocked(m.rep, a.r, a.key, a.value, a.deps, a.t), s);
  }

  lemma TickLink(pol: Policy, g: Group, a: Action, r: nat, s: nat)
    requires Inv(pol, g) && (a.Tick? || a.SilentTick? || a.Advance?) && Enabled(g, a) && r < |g| && s < |g| && r != s
    ensures Link(pol, Apply(pol, g, a)[s].log, Apply(pol, g, a)[r], s)
  {
    assert Link(pol, g[s].log, g[r], s);
    if !a.Advance? && s == a.r { TickLinkSource(pol, g, a, r); }
    else { TickLinkOther(pol, g, a, r, s); }
  }

  lemma TickLinkSource(pol: Policy, g: Group, a: Action, r: nat)
    requires Shape(g) && (a.Tick? || a.SilentTick?) && Enabled(g, a) && r < |g| && r != a.r
    requires Link(pol, g[a.r].log, g[r], a.r)
    ensures Link(pol, Apply(pol, g, a)[a.r].log, Apply(pol, g, a)[r], a.r)
  {
    PostLink(pol, g[a.r].log, g[r], a.r, Heartbeat(if a.Tick? then a.stamp else 0.0));
  }

  lemma TickLinkOther(pol: Policy, g: Group, a: Action, r: nat, s: nat)
    requires Shape(g) && (a.Tick? || a.SilentTick? || a.Advance?) && Enabled(g, a) && r < |g| && s < |g| && r != s
    requires (a.Advance? || s != a.r) && Link(pol, g[s].log, g[r], s)
    ensures Link(pol, Apply(pol, g, a)[s].log, Apply(pol, g, a)[r], s)
  {
    if a.Tick? && r == a.r { LinkKeeps(pol, g[s].log, g[r], TickLocked(g[r].rep, r, a.t), s); }
  }

  lemma StepLink(pol: Policy, g: Group, a: Action, r: nat, s: nat)
    requires Inv(pol, g) && Enabled(g, a) && r < |g| && s < |g| && r != s
    ensures Link(pol, Apply(pol, g, a)[s].log, Apply(pol, g, a)[r], s)
  {
    if a.Receive? { ReceiveLink(pol, g, a, r, s); }
    else if a.EnterLock? { EnterLink(pol, g, a, r, s); }
    else if a.LeaveLock? { LeaveLink(pol, g, a, r, s); }
    else if a.LocalPut? { PutLink(pol, g, a, r, s); }
    else { TickLink(pol, g, a, r, s); }
  }

  /** A stored put joins the log; a discarded one changes nothing. */
  lemma PutStores(m: Member, r: nat, key: nat, value: nat, deps: Vec, t: Time)
    requires Sized(m.rep, |m.inbox|) && r < |m.inbox| && OwnOk(m, r) && Fresh(m, t)
    ensures var u := LocalUpdate(m.rep, r, key, value, deps, t);
      var log := if PutDiscarded(m.rep, key, t) then m.log else m.log + [u];
      OwnOk(m.(rep := PutLocked(m.rep, r, key, value, deps, t), log := log), r)
  {
    var u := LocalUpdate(m.rep, r, key, value, deps, t);
    PutOrdered(m.rep.items, key, VersionOf(u));
    PutKeepsLog(m, u);
  }

  /** The own log stays stored when `u` is put, and `u` is stored unless it is discarded. */
  lemma PutKeepsLog(m: Member, u: Update)
    requires forall j :: 0 <= j < |m.log| ==> VersionOf(m.log[j]) in ChainOf(m.rep.items, m.log[j].key)
    ensures var items' := Put(m.rep.items, u.key, VersionOf(u));
      && (forall j :: 0 <= j < |m.log| ==> VersionOf(m.log[j]) in ChainOf(items', m.log[j].key))
      && (!Discards(ChainOf(m.rep.items, u.key), VersionOf(u)) ==> VersionOf(u) in ChainOf(items', u.key))
  {
    PutKeeps(m.rep.items, u.key, VersionOf(u));
  }

  lemma PutOwn(pol: Policy, g: Group, a: Action)
    requires Inv(pol, g) && a.LocalPut? && Enabled(g, a)
    ensures OwnOk(Apply(pol, g, a)[a.r], a.r)
  {
    assert OwnOk(g[a.r], a.r);
    PutStores(g[a.r], a.r, a.key, a.value, a.deps, a.t);
  }

  lemma EnterOwn(pol: Policy, g: Group, a: Action)
    requires Inv(pol, g) && a.EnterLock? && Enabled(g, a)
    ensures OwnOk(Apply(pol, g, a)[a.r], a.r)
  {
    assert OwnOk(g[a.r], a.r);
    var rp := g[a.r].rep;
    var u := rp.progress[a.i].u;
    PutKeeps(rp.items, u.key, VersionOf(u));
    PutOrdered(rp.items, u.key, VersionOf(u));
  }

  lemma StepOwn(pol: Policy, g: Group, a: Action, r: nat)
    requires Inv(pol, g) && Enabled(g, a) && r < |g|
    ensures OwnOk(Apply(pol, g, a)[r], r)
  {
    assert OwnOk(g[r], r);
    if a.EnterLock? && a.r == r { EnterOwn(pol, g, a); }
    else if a.LocalPut? && a.r == r { PutOwn(pol, g, a); }
  }

  /** Every handler, on any number of cores, keeps the replication invariant. */
  lemma StepInv(pol: Policy, g: Group, a: Action)
    requires Inv(pol, g) && Enabled(g, a)
    ensures Inv(pol, Apply(pol, g, a))
  {
    var g' := Apply(pol, g, a);
    forall r | 0 <= r < |g| ensures OwnOk(g'[r], r) { StepOwn(pol, g, a, r); }
    forall r, i | 0 <= r < |g| && 0 <= i < |g| && i != r
      ensures Link(pol, g'[i].log, g'[r], i)
    {
      StepLink(pol, g, a, r, i);
    }
  }

  lemma InitInv(pol: Policy, n: nat)
    ensures Inv(pol, Init(n))
  {
    var g := Init(n);
    assert forall r :: 0 <= r < n ==> g[r] == InitMember(n);
  }
}
