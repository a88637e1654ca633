/**
 The order behind last-writer-wins: updates of a key compare by time, then by source
 replica. The newest version is the maximum of the updates handled in this order as
 long as no step stores an update over a version with the same time and a larger source.
 Two handlers can do that: a critical section, because the conflict was judged before the
 lock was asked for or was not seen as one, and a local put.
 */
module LastWriter {
  import opened Vectors
  import opened Store
  import opened Replication
  import opened ReplicaGroup
  import opened Convergence

  /** `u` is at most `v` in the order by time and source. */
  predicate AtMost(u: Update, v: Version) { u.time < v.time || (u.time == v.time && u.source <= v.source) }

  predicate BelowHead(items: Items, u: Update) {
    ChainOf(items, u.key) != [] && AtMost(u, ChainOf(items, u.key)[0])
  }

  /** At every replica, every newest version is the largest of the updates handled. */
  ghost predicate HeadsLargest(g: Group)
    requires Shape(g)
  {
    forall r, u :: 0 <= r < |g| && Processed(g, r, u) ==> BelowHead(g[r].rep.items, u)
  }

  /** Storing `u` puts it over a version that is larger. */
  predicate Buries(items: Items, u: Update) {
    var chain := ChainOf(items, u.key);
    chain != [] && chain[0].time == u.time && chain[0].source > u.source
  }

  /** The update that step `a` stores. */
  ghost function Stored(g: Group, a: Action): Update
    requires Shape(g) && Enabled(g, a) && (a.EnterLock? || a.LocalPut?)
  {
    if a.EnterLock? then g[a.r].rep.progress[a.i].u
    else LocalUpdate(g[a.r].rep, a.r, a.key, a.value, a.deps, a.t)
  }

  ghost predicate StepBuries(g: Group, a: Action)
    requires Shape(g) && Enabled(g, a)
  {
    (a.EnterLock? || a.LocalPut?) && Buries(g[a.r].rep.items, Stored(g, a))
  }

  // ---- what a drain drops

  lemma DropBelow(pol: Policy, items: Items, u: Update)
    requires u.time > 0.0 && Decide(pol, items, u) == Drop
    ensures BelowHead(items, u)
  {
  }

  /** The updates that a drain takes out of the queue are below their heads. */
  lemma {:induction false} WorkDrops(pol: Policy, rp: Replica, i: nat, log: seq<Update>, a: nat, j: nat)
    requires i < |rp.queues| == |rp.progress| && rp.queues[i] != [] && LogOk(log, i)
    requires |rp.queues[i]| <= a <= |log| && rp.queues[i] == log[a - |rp.queues[i]|..a]
    requires a - |rp.queues[i]| <= j < a - |Work(pol, rp, i).queues[i]|
    ensures BelowHead(rp.items, log[j])
    decreases |rp.queues[i]|, 1
  {
    var q := rp.queues[i];
    assert q[0] == log[a - |q|];
    if Decide(pol, rp.items, q[0]) == Drop {
      if j == a - |q| { DropBelow(pol, rp.items, q[0]); } else { UnlockedDrops(pol, rp, i, log, a, j); }
    }
  }

  lemma {:induction false} UnlockedDrops(pol: Policy, rp: Replica, i: nat, log: seq<Update>, a: nat, j: nat)
    requires i < |rp.queues| == |rp.progress| && rp.queues[i] != [] && LogOk(log, i)
    requires |rp.queues[i]| <= a <= |log| && rp.queues[i] == log[a - |rp.queues[i]|..a]
    requires a - |rp.queues[i]| < j < a - |Unlocked(pol, rp, i).queues[i]|
    ensures BelowHead(rp.items, log[j])
    decreases |rp.queues[i]|, 0
  {
    var q := rp.queues[i];
    assert q[1..] == log[a - |q| + 1..a];
    var rp1 := rp.(queues := rp.queues[i := q[1..]], progress := rp.progress[i := Free]);
    if rp1.queues[i] != [] { WorkDrops(pol, rp1, i, log, a, j); }
  }

  // ---- what a step adds to the updates handled

  lemma AmongMore(log: seq<Update>, b: int, log': seq<Update>, b': int, u: Update)
    requires AmongFirst(log, b, u) && log <= log' && b <= b'
    ensures AmongFirst(log', b', u)
  {
    var j :| 0 <= j < b && j < |log| && log[j] == u;
    assert log'[j] == u;
  }

  lemma ProcessedGrows(pol: Policy, g: Group, a: Action, r: nat, u: Update)
    requires Inv(pol, g) && Enabled(g, a) && r < |g| && Processed(g, r, u)
    ensures Processed(Apply(pol, g, a), r, u)
  {
    var g', s := Apply(pol, g, a), u.source;
    LogGrows(pol, g, a, s);
    if s != r {
      HandledGrows(pol, g, a, r, s);
      AmongMore(g[s].log, Handled(g[r], s), g'[s].log, Handled(g'[r], s), u);
    }
  }

  /** An arrival adds only updates that are dropped at once. */
  lemma ReceiveAdds(pol: Policy, m: Member, i: nat, log: seq<Update>, j: nat)
    requires Sized(m.rep, |m.inbox|) && |m.arrived| == |m.inbox| && i < |m.inbox| && m.inbox[i] != []
    requires Link(pol, log, m, i) && LogOk(log, i)
    requires Handled(m, i) <= j < Handled(DoReceive(pol, m, i), i) && j < |log|
    ensures BelowHead(m.rep.items, log[j])
  {
    var a, q := m.arrived[i], m.rep.queues[i];
    if m.inbox[i][0].UpdateMsg? {
      FirstOutstanding(m.inbox[i], log, a);
      if q == [] {
        var rp1 := m.rep.(queues := m.rep.queues[i := q + [log[a]]]);
        assert q + [log[a]] == log[a..a + 1];
        WorkHandles(pol, rp1, i);
        WorkDrops(pol, rp1, i, log, a + 1, j);
      }
    }
  }

  lemma LeaveAdds(pol: Policy, m: Member, i: nat, log: seq<Update>, j: nat)
    requires Sized(m.rep, |m.inbox|) && |m.arrived| == |m.inbox| && i < |m.inbox|
    requires Link(pol, log, m, i) && LogOk(log, i) && m.rep.progress[i].Unlocking? && m.rep.queues[i] != []
    requires Handled(m, i) <= j < Handled(m.(rep := Unlocked(pol, m.rep, i)), i) && j < |log|
    ensures BelowHead(m.rep.items, log[j])
  {
    UnlockedHandles(pol, m.rep, i);
    UnlockedDrops(pol, m.rep, i, log, m.arrived[i], j);
  }

  /** A step that stores nothing adds only updates below their heads. */
  lemma QuietAdds(pol: Policy, g: Group, a: Action, r: nat, u: Update)
    requires Inv(pol, g) && Enabled(g, a) && !a.EnterLock? && !a.LocalPut? && r < |g|
    requires Processed(Apply(pol, g, a), r, u) && !Processed(g, r, u)
    ensures BelowHead(g[r].rep.items, u)
  {
    var g', s := Apply(pol, g, a), u.source;
    if s != r {
      assert Link(pol, g[s].log, g[r], s) && OwnOk(g[s], s);
      var j :| 0 <= j < Handled(g'[r], s) && j < |g'[s].log| && g'[s].log[j] == u;
      assert g'[s].log == g[s].log;
      assert j >= Handled(g[r], s);
      QuietFrom(pol, g, a, r, s, j);
    }
  }

  lemma QuietFrom(pol: Policy, g: Group, a: Action, r: nat, s: nat, j: nat)
    requires Shape(g) && Enabled(g, a) && !a.EnterLock? && !a.LocalPut? && r < |g| && s < |g| && r != s
    requires Link(pol, g[s].log, g[r], s) && LogOk(g[s].log, s)
    requires Handled(g[r], s) <= j < Handled(Apply(pol, g, a)[r], s) && j < |g[s].log|
    ensures BelowHead(g[r].rep.items, g[s].log[j])
  {
    if a.r == r && a.Receive? { ReceiveFrom(pol, g[r], a.i, g[s].log, s, j); }
    else if a.r == r && a.LeaveLock? && a.i == s { LeaveAdds(pol, g[r], s, g[s].log, j); }
  }

  lemma ReceiveFrom(pol: Policy, m: Member, i: nat, log: seq<Update>, s: nat, j: nat)
    requires Sized(m.rep, |m.inbox|) && |m.arrived| == |m.inbox| && i < |m.inbox| && m.inbox[i] != []
    requires s < |m.inbox| && Link(pol, log, m, s) && LogOk(log, s)
    requires Handled(m, s) <= j < Handled(DoReceive(pol, m, i), s) && j < |log|
    ensures BelowHead(m.rep.items, log[j])
  {
    if i == s { ReceiveAdds(pol, m, s, log, j); }
  }

  lemma EnterAdds(pol: Policy, g: Group, a: Action, r: nat, u: Update)
    requires Inv(pol, g) && Enabled(g, a) && a.EnterLock? && r < |g|
    requires Processed(Apply(pol, g, a), r, u) && !Processed(g, r, u)
    ensures r == a.r && u == Stored(g, a)
  {
    var g', s := Apply(pol, g, a), u.source;
    if s != r {
      assert Link(pol, g[s].log, g[r], s);
      var j :| 0 <= j < Handled(g'[r], s) && j < |g'[s].log| && g'[s].log[j] == u;
      assert g'[s].log == g[s].log && j >= Handled(g[r], s);
      assert r == a.r && s == a.i && j == g[r].arrived[s] - |g[r].rep.queues[s]|;
      assert g[r].rep.queues[s][0] == g[s].log[j];
    }
  }

  lemma PutAdds(pol: Policy, g: Group, a: Action, r: nat, u: Update)
    requires Inv(pol, g) && Enabled(g, a) && a.LocalPut? && r < |g|
    requires Processed(Apply(pol, g, a), r, u) && !Processed(g, r, u)
    ensures r == a.r && u == Stored(g, a) && !PutDiscarded(g[r].rep, a.key, a.t)
  {
    var g', s := Apply(pol, g, a), u.source;
    if s != r {
      assert Link(pol, g[s].log, g[r], s);
      HandledElsewhere(pol, g, a, r, s);
      var j :| 0 <= j < Handled(g'[r], s) && j < |g'[s].log| && g'[s].log[j] == u;
      HandledIssued(pol, g[s].log, g[r], s);
      LogGrows(pol, g, a, s);
    }
  }

  // ---- the exact condition

  /** Storing an update that buries nothing keeps everything below its head. */
  lemma PutBelow(items: Items, u: Update, w: Update)
    requires !Buries(items, u) && (w == u || BelowHead(items, w))
    ensures BelowHead(Put(items, u.key, VersionOf(u)), w)
  {
  }

  lemma StoringKeeps(pol: Policy, g: Group, a: Action, r: nat, u: Update)
    requires Inv(pol, g) && Enabled(g, a) && HeadsLargest(g) && r < |g| && (a.EnterLock? || a.LocalPut?)
    requires !StepBuries(g, a) && Processed(Apply(pol, g, a), r, u)
    ensures BelowHead(Apply(pol, g, a)[r].rep.items, u)
  {
    if !Processed(g, r, u) {
      if a.EnterLock? { EnterAdds(pol, g, a, r, u); } else { PutAdds(pol, g, a, r, u); }
    }
    SameItems(pol, g, a, r);
    if r == a.r { PutBelow(g[r].rep.items, Stored(g, a), u); }
  }

  lemma StepKeeps(pol: Policy, g: Group, a: Action)
    requires Inv(pol, g) && Enabled(g, a) && HeadsLargest(g) && !StepBuries(g, a)
    ensures HeadsLargest(Apply(pol, g, a))
  {
    var g' := Apply(pol, g, a);
    forall r, u | 0 <= r < |g'| && Processed(g', r, u)
      ensures BelowHead(g'[r].rep.items, u)
    {
      if a.EnterLock? || a.LocalPut? { StoringKeeps(pol, g, a, r, u); }
      else {
        SameItems(pol, g, a, r);
        if !Processed(g, r, u) { QuietAdds(pol, g, a, r, u); }
      }
    }
  }

  /** The version that was buried stems from an update that is now above its head. */
  lemma BurialBreaks(pol: Policy, g: Group, a: Action)
    requires Inv(pol, g) && OriginInv(g) && Enabled(g, a) && StepBuries(g, a)
    ensures !HeadsLargest(Apply(pol, g, a))
  {
    var u := Stored(g, a);
    var w := HeadProcessed(g, a.r, u.key);
    ProcessedGrows(pol, g, a, a.r, w);
    assert ChainOf(Apply(pol, g, a)[a.r].rep.items, u.key)[0] == VersionOf(u);
  }

  /** A step keeps all heads largest if and only if it does not bury a version. */
  lemma KeptIffNoBurial(pol: Policy, g: Group, a: Action)
    requires Inv(pol, g) && OriginInv(g) && Enabled(g, a) && HeadsLargest(g)
    ensures HeadsLargest(Apply(pol, g, a)) <==> !StepBuries(g, a)
  {
    if StepBuries(g, a) { BurialBreaks(pol, g, a); } else { StepKeeps(pol, g, a); }
  }

  // ---- convergence

  /** None of the first `k` steps buries a version. */
  ghost predicate NoBurial(pol: Policy, n: nat, gs: seq<Group>, acts: seq<Action>, k: nat)
    requires Reachable(pol, n, gs, acts)
  {
    forall j {:trigger acts[j]} :: 0 <= j < k && j < |acts| ==> !StepBuries(gs[j], acts[j])
  }

  lemma InitLargest(n: nat)
    ensures HeadsLargest(Init(n))
  {
    var g := Init(n);
    assert forall r :: 0 <= r < n ==> g[r] == InitMember(n);
  }

  lemma {:induction false} RunLargest(pol: Policy, n: nat, gs: seq<Group>, acts: seq<Action>, k: nat)
    requires Reachable(pol, n, gs, acts) && k < |gs| && NoBurial(pol, n, gs, acts, k)
    ensures Shape(gs[k]) && HeadsLargest(gs[k])
    decreases k
  {
    RunInv(pol, n, gs, acts, k);
    if k == 0 {
      InitLargest(n);
    } else {
      RunLargest(pol, n, gs, acts, k - 1);
      RunInv(pol, n, gs, acts, k - 1);
      assert !StepBuries(gs[k - 1], acts[k - 1]);
      StepKeeps(pol, gs[k - 1], acts[k - 1]);
    }
  }

  /** Two newest versions that are largest in the same set of updates are the same. */
  lemma LargestAgree(pol: Policy, g: Group, k: nat, r: nat, s: nat)
    requires Inv(pol, g) && OriginInv(g) && Quiescent(g) && HeadsLargest(g) && r < |g| && s < |g|
    requires ChainOf(g[r].rep.items, k) != [] && ChainOf(g[s].rep.items, k) != []
    ensures ChainOf(g[r].rep.items, k)[0] == ChainOf(g[s].rep.items, k)[0]
  {
    var u := HeadProcessed(g, r, k);
    var w := HeadProcessed(g, s, k);
    QuiescentProcessed(pol, g, s, u);
    QuiescentProcessed(pol, g, r, w);
    assert u.time == w.time && u.source == w.source;
    var i :| 0 <= i < |g[u.source].log| && g[u.source].log[i] == u;
    var j :| 0 <= j < |g[u.source].log| && g[u.source].log[j] == w;
    assert OwnOk(g[u.source], u.source);
    TimesInjective(g[u.source].log, u.source, i, j);
  }

  /**
   Convergence with ties: in every quiescent state of a run in which no step buried a
   version, all replicas agree on the newest version of every key.
   */
  lemma ConvergedWithoutBurial(pol: Policy, n: nat, gs: seq<Group>, acts: seq<Action>, at: nat, k: nat, r: nat, s: nat)
    requires Reachable(pol, n, gs, acts) && at < |gs| && r < n && s < n && NoBurial(pol, n, gs, acts, at)
    requires Shape(gs[at]) && Quiescent(gs[at])
    ensures |gs[at]| == n
    ensures var a, b := ChainOf(gs[at][r].rep.items, k), ChainOf(gs[at][s].rep.items, k);
      (a == [] <==> b == []) && (a != [] ==> a[0] == b[0])
  {
    RunInv(pol, n, gs, acts, at);
    RunLargest(pol, n, gs, acts, at);
    Converged(pol, n, gs, acts, at, k, r, s);
    if ChainOf(gs[at][r].rep.items, k) != [] { LargestAgree(pol, gs[at], k, r, s); }
  }

  // ---- a run that diverges

  // Replicas 0 and 1 put key 7 at the same time. The update of replica 0 arrives at
  // replica 1 before the put there and gets its lock after it.
  const PutA := Update(7, 1, 5.0, [], 0, 0.0, 0)
  const PutB := Update(7, 2, 5.0, [], 1, 0.0, 0)
  const A := VersionOf(PutA)
  const B := VersionOf(PutB)

  function Side(vv: Vec, chain: Chain, q: seq<seq<Update>>, progress: seq<Progress>, clock: Time,
    inbox: seq<seq<Message>>, log: seq<Update>, arrived: seq<nat>): Member
  {
    Member(Replica(vv, if chain == [] then map[] else map[7 := chain], q, progress), clock, inbox, log, arrived)
  }

  const Idle: seq<Progress> := [Free, Free]
  const NoQueue: seq<seq<Update>> := [[], []]
  const Silent: seq<seq<Message>> := [[], []]

  const Issuer := Side([5.0, 0.0], [A], NoQueue, Idle, 5.0, Silent, [PutA], [0, 0])
  const Informed := Side([5.0, 0.0], [A], NoQueue, Idle, 5.0, [[], [UpdateMsg(PutB)]], [PutA], [0, 0])

  /** The states of the run. */
  function Duel(k: nat): Group
    requires k <= 8
  {
    match k
    case 0 => [Side([0.0, 0.0], [], NoQueue, Idle, 0.0, Silent, [], [0, 0]),
               Side([0.0, 0.0], [], NoQueue, Idle, 0.0, Silent, [], [0, 0])]
    case 1 => [Issuer, Side([0.0, 0.0], [], NoQueue, Idle, 0.0, [[UpdateMsg(PutA)], []], [], [0, 0])]
    case 2 => [Issuer, Side([0.0, 0.0], [], [[PutA], []], [Locking(PutA), Free], 0.0, Silent, [], [1, 0])]
    case 3 => [Informed, Side([0.0, 5.0], [B], [[PutA], []], [Locking(PutA), Free], 5.0, Silent, [PutB], [1, 0])]
    case 4 => [Informed, Side([5.0, 5.0], [A, B], [[PutA], []], [Unlocking(PutA), Free], 5.0, Silent, [PutB], [1, 0])]
    case 5 => [Informed, Side([5.0, 5.0], [A, B], NoQueue, Idle, 5.0, Silent, [PutB], [1, 0])]
    case 6 => [Side([5.0, 0.0], [A], [[], [PutB]], [Free, Locking(PutB)], 5.0, Silent, [PutA], [0, 1]), Duel(5)[1]]
    case 7 => [Side([5.0, 5.0], [B, A], [[], [PutB]], [Free, Unlocking(PutB)], 5.0, Silent, [PutA], [0, 1]), Duel(5)[1]]
    case 8 => [Side([5.0, 5.0], [B, A], NoQueue, Idle, 5.0, Silent, [PutA], [0, 1]), Duel(5)[1]]
  }

  const DuelSteps: seq<Action> := [
    LocalPut(0, 7, 1, [], 5.0, 5.0), Receive(1, 0), LocalPut(1, 7, 2, [], 5.0, 5.0), EnterLock(1, 0), LeaveLock(1, 0),
    Receive(0, 1), EnterLock(0, 1), LeaveLock(0, 1)]

  ghost predicate DuelStep(k: nat)
    requires k < 8
  {
    Shape(Duel(k)) && Enabled(Duel(k), DuelSteps[k]) && Duel(k + 1) == Apply(Grv, Duel(k), DuelSteps[k])
  }

  lemma DuelStarts()
    ensures Duel(0) == Init(2)
  {
    assert Zero(2) == [0.0, 0.0];
    assert InitMember(2) == Duel(0)[0];
  }

  lemma SameSide(m: Member, n: Member)
    requires m.rep.vv == n.rep.vv && m.rep.items == n.rep.items && m.rep.queues == n.rep.queues
    requires m.rep.progress == n.rep.progress && m.clock == n.clock && m.inbox == n.inbox && m.log == n.log
    requires m.arrived == n.arrived
    ensures m == n
  {
  }

  lemma Singleton<T>(x: T)
    ensures [] + [x] == [x] && [x] + [] == [x] && [x][1..] == []
  {
  }

  lemma Literals()
    ensures forall u: Update :: [] + [u] == [u] && [u][1..] == []
    ensures forall m: Message :: [] + [m] == [m] && [m][1..] == []
    ensures [A] + [] == [A] && [B] + [] == [B] && [A] + [B] == [A, B] && [B] + [A] == [B, A]
  {
    forall u: Update ensures [] + [u] == [u] && [u][1..] == [] { Singleton(u); }
    forall m: Message ensures [] + [m] == [m] && [m][1..] == [] { Singleton(m); }
  }

  lemma Duel0()
    ensures DuelStep(0)
  {
    Literals();
    var g := Apply(Grv, Duel(0), DuelSteps[0]);
    SameSide(g[0], Duel(1)[0]);
    SameSide(g[1], Duel(1)[1]);
    assert g == Duel(1);
  }

  lemma Duel1()
    ensures DuelStep(1)
  {
    Literals();
    var g := Apply(Grv, Duel(1), DuelSteps[1]);
    SameSide(g[0], Duel(2)[0]);
    SameSide(g[1], Duel(2)[1]);
    assert g == Duel(2);
  }

  lemma Duel2()
    ensures DuelStep(2)
  {
    Literals();
    var g := Apply(Grv, Duel(2), DuelSteps[2]);
    SameSide(g[0], Duel(3)[0]);
    SameSide(g[1], Duel(3)[1]);
    assert g == Duel(3);
  }

  lemma Duel3()
    ensures DuelStep(3)
  {
    Literals();
    var g := Apply(Grv, Duel(3), DuelSteps[3]);
    SameSide(g[0], Duel(4)[0]);
    SameSide(g[1], Duel(4)[1]);
    assert g == Duel(4);
  }

  lemma Duel4()
    ensures DuelStep(4)
  {
    Literals();
    var g := Apply(Grv, Duel(4), DuelSteps[4]);
    SameSide(g[0], Duel(5)[0]);
    SameSide(g[1], Duel(5)[1]);
    assert g == Duel(5);
  }

  lemma Duel5()
    ensures DuelStep(5)
  {
    Literals();
    var g := Apply(Grv, Duel(5), DuelSteps[5]);
    SameSide(g[0], Duel(6)[0]);
    SameSide(g[1], Duel(6)[1]);
    assert g == Duel(6);
  }

  lemma Duel6()
    ensures DuelStep(6)
  {
    Literals();
    var g := Apply(Grv, Duel(6), DuelSteps[6]);
    SameSide(g[0], Duel(7)[0]);
    SameSide(g[1], Duel(7)[1]);
    assert g == Duel(7);
  }

  lemma Duel7()
    ensures DuelStep(7)
  {
    Literals();
    var g := Apply(Grv, Duel(7), DuelSteps[7]);
    SameSide(g[0], Duel(8)[0]);
    SameSide(g[1], Duel(8)[1]);
    assert g == Duel(8);
  }

  lemma AnyDuelStep(k: nat)
    requires k < 8
    ensures DuelStep(k)
  {
    match k {
      case 0 => Duel0();
      case 1 => Duel1();
      case 2 => Duel2();
      case 3 => Duel3();
      case 4 => Duel4();
      case 5 => Duel5();
      case 6 => Duel6();
      case 7 => Duel7();
    }
  }

  function DuelStates(): (gs: seq<Group>)
    ensures |gs| == 9 && forall k :: 0 <= k < 9 ==> gs[k] == Duel(k)
  {
    seq(9, k requires 0 <= k < 9 => Duel(k))
  }

  lemma DuelRun()
    ensures Reachable(Grv, 2, DuelStates(), DuelSteps)
  {
    DuelStarts();
    var gs, acts := DuelStates(), DuelSteps;
    forall k | 0 <= k < |acts|
      ensures Shape(gs[k]) && Enabled(gs[k], acts[k]) && gs[k + 1] == Apply(Grv, gs[k], acts[k])
    {
      AnyDuelStep(k);
    }
  }

  lemma DuelEnds()
    ensures Shape(Duel(8)) && Quiescent(Duel(8))
    ensures ChainOf(Duel(8)[0].rep.items, 7) == [B, A] && ChainOf(Duel(8)[1].rep.items, 7) == [A, B]
  {
  }

  /**
   After one burial, replicas disagree although everything is delivered; neither update was put on
   top of the other.
   */
  lemma TiesDiverge()
    ensures var gs := DuelStates();
      && Reachable(Grv, 2, gs, DuelSteps) && Shape(gs[8]) && Quiescent(gs[8])
      && Shape(gs[3]) && Enabled(gs[3], DuelSteps[3]) && StepBuries(gs[3], DuelSteps[3])
      && ChainOf(gs[8][0].rep.items, 7)[0] != ChainOf(gs[8][1].rep.items, 7)[0]
  {
    DuelRun();
    DuelEnds();
    Duel3();
  }
}
