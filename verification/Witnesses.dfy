/**
 Runs that reach the states in which the promises of the store fail: from the initial
 state, by steps that the protocols allow.
 */
module Witnesses {
  import opened Vectors
  import opened Store
  import opened Replication
  import ReplicaGroup
  import opened SingleCore
  import opened LastWriter
  import Overtaking
  import GrStall
  import StableTime
  import System
  import Guarantees
  import Client

  // ---- two writers of one key

  // Replica 0 puts key 7 at time `t` and replica 1, without having seen it, at time 6; the
  // update of replica 1 and then a heartbeat of it are delivered to replica 0. With t == 5
  // the update stalls, with t == 10 it is dropped.

  function First(t: Time): Update { Update(7, 1, t, [], 0, 0.0, 0) }

  const Second := Update(7, 2, 6.0, [], 1, 0.0, 0)

  /** What is left in the queue of replica 0. */
  function Left(t: Time): seq<Update> { if t < 6.0 then [Second] else [] }

  function Writer0(t: Time, entry: Time, q: seq<Update>, inbox: seq<Message>, arrived: nat): Member {
    Side([t, entry], [VersionOf(First(t))], [[], q], Idle, t + 1.0, [[], inbox], [First(t)], [0, arrived])
  }

  function Writer1(t: Time, entry: Time, clock: Time): Member {
    Side([0.0, entry], [VersionOf(Second)], NoQueue, Idle, clock, [[UpdateMsg(First(t))], []], [Second], [0, 0])
  }

  function Race(t: Time, k: nat): Group
    requires k <= 5
  {
    match k
    case 0 => Duel(0)
    case 1 => [Writer0(t, 0.0, [], [], 0),
               Side([0.0, 0.0], [], NoQueue, Idle, 0.0, [[UpdateMsg(First(t))], []], [], [0, 0])]
    case 2 => [Writer0(t, 0.0, [], [UpdateMsg(Second)], 0), Writer1(t, 6.0, 7.0)]
    case 3 => [Writer0(t, 0.0, Left(t), [], 1), Writer1(t, 6.0, 7.0)]
    case 4 => [Writer0(t, 0.0, Left(t), [Heartbeat(10.0)], 1), Writer1(t, 9.0, 10.0)]
    case 5 => [Writer0(t, 10.0, Left(t), [], 1), Writer1(t, 9.0, 10.0)]
  }

  function RaceSteps(t: Time): seq<Action> {
    [Put(0, 7, 1, [], t - 1.0, t, t + 1.0), Put(1, 7, 2, [], 5.0, 6.0, 7.0), Deliver(0, 1),
     ClockTick(1, 1.0, 8.0, 9.0, 10.0), Deliver(0, 1)]
  }

  ghost predicate RaceStep(t: Time, k: nat)
    requires k < 5
  {
    && ReplicaGroup.Shape(Race(t, k)) && Enabled(Race(t, k), RaceSteps(t)[k])
    && Race(t, k + 1) == Apply(Gr, Race(t, k), RaceSteps(t)[k])
  }

  lemma SameGroup(g: Group, h: Group)
    requires |g| == |h| == 2 && g[0] == h[0] && g[1] == h[1]
    ensures g == h
  {
  }

  lemma Race0(t: Time)
    requires t >= 1.0
    ensures RaceStep(t, 0)
  {
    Literals();
    var g := Apply(Gr, Race(t, 0), RaceSteps(t)[0]);
    Singleton(VersionOf(First(t)));
    SameSide(g[0], Race(t, 1)[0]);
    SameSide(g[1], Race(t, 1)[1]);
    SameGroup(g, Race(t, 1));
  }

  lemma Race1(t: Time)
    requires t >= 1.0
    ensures RaceStep(t, 1)
  {
    Literals();
    Singleton(VersionOf(Second));
    var g := Apply(Gr, Race(t, 1), RaceSteps(t)[1]);
    SameSide(g[0], Race(t, 2)[0]);
    SameSide(g[1], Race(t, 2)[1]);
    SameGroup(g, Race(t, 2));
  }

  lemma Race2(t: Time)
    requires t >= 1.0 && t != 6.0
    ensures RaceStep(t, 2)
  {
    Literals();
    var g := Apply(Gr, Race(t, 2), RaceSteps(t)[2]);
    ArriveAlone(Gr, Race(t, 2)[0].rep, 1, Second);
    SameSide(g[0], Race(t, 3)[0]);
    SameSide(g[1], Race(t, 3)[1]);
    SameGroup(g, Race(t, 3));
  }

  lemma Race3(t: Time)
    requires t >= 1.0
    ensures RaceStep(t, 3)
  {
    Literals();
    var g := Apply(Gr, Race(t, 3), RaceSteps(t)[3]);
    SameSide(g[0], Race(t, 4)[0]);
    SameSide(g[1], Race(t, 4)[1]);
    SameGroup(g, Race(t, 4));
  }

  lemma Race4(t: Time)
    requires t >= 1.0
    ensures RaceStep(t, 4)
  {
    Literals();
    var g := Apply(Gr, Race(t, 4), RaceSteps(t)[4]);
    SameSide(g[0], Race(t, 5)[0]);
    SameSide(g[1], Race(t, 5)[1]);
    SameGroup(g, Race(t, 5));
  }

  lemma AnyRaceStep(t: Time, k: nat)
    requires t >= 1.0 && t != 6.0 && k < 5
    ensures RaceStep(t, k)
  {
    match k {
      case 0 => Race0(t);
      case 1 => Race1(t);
      case 2 => Race2(t);
      case 3 => Race3(t);
      case 4 => Race4(t);
    }
  }

  function RaceStates(t: Time): (gs: seq<Group>)
    ensures |gs| == 6 && forall k :: 0 <= k < 6 ==> gs[k] == Race(t, k)
  {
    seq(6, k requires 0 <= k < 6 => Race(t, k))
  }

  /** The states form a run from the initial state. */
  lemma RaceRun(t: Time)
    requires t >= 1.0 && t != 6.0
    ensures GrStall.Run(Gr, RaceStates(t), RaceSteps(t)) && RaceStates(t)[0] == ReplicaGroup.Init(2)
  {
    DuelStarts();
    var gs, acts := RaceStates(t), RaceSteps(t);
    forall k | 0 <= k < |acts|
      ensures ReplicaGroup.Shape(gs[k]) && Enabled(gs[k], acts[k]) && gs[k + 1] == Apply(Gr, gs[k], acts[k])
    {
      AnyRaceStep(t, k);
    }
  }

  /** At replica 0 all entries of the version vector cover the second update, which was issued by replica 1. */
  lemma RaceEnds(t: Time)
    requires t >= 1.0 && t != 6.0
    ensures var g := Race(t, 5);
      Second in g[1].log && Second.time <= g[0].rep.vv[1] && ChainOf(g[0].rep.items, 7) == [VersionOf(First(t))]
  {
  }

  /** Replica 0 claims to have `u` of replica 1 and has neither it nor a newer version. */
  ghost predicate Missing(g: Group, u: Update) {
    && |g| == 2 && u in g[1].log && ReplicaGroup.Shape(g) && u.time <= g[0].rep.vv[1]
    && !ReplicaGroup.Settled(g[0].rep.items, u)
  }

  /** A run of `gr` in which an update stalls: the version vector covers it, and it is never stored. */
  lemma StallRun()
    ensures var gs := RaceStates(5.0);
      && GrStall.Run(Gr, gs, RaceSteps(5.0)) && gs[0] == ReplicaGroup.Init(2)
      && Missing(gs[5], Second) && Second in gs[5][0].rep.queues[1]
  {
    RaceRun(5.0);
    RaceEnds(5.0);
  }

  /** The snapshot of replica 0 at `t` lacks `u`, although every entry of its version vector is at least `t`. */
  ghost predicate NotInSnapshot(g: Group, u: Update, t: Time) {
    && |g| == 2 && u in g[1].log && ReplicaGroup.Shape(g) && u.time <= t
    && (forall i :: 0 <= i < 2 ==> t <= g[0].rep.vv[i]) && !Guarantees.SnapshotHas(g[0].rep.items, u, t)
  }

  /** A run of `gr` in which an update loses to a version later than the snapshot at 7. */
  lemma SnapshotLosesUpdate()
    ensures var gs := RaceStates(10.0);
      && GrStall.Run(Gr, gs, RaceSteps(10.0)) && gs[0] == ReplicaGroup.Init(2)
      && NotInSnapshot(gs[5], Second, 7.0)
  {
    RaceRun(10.0);
    RaceEnds(10.0);
    Singleton(VersionOf(First(10.0)));
    assert ReadAt([VersionOf(First(10.0))], v => InSnapshot(7.0, v)).None?;
  }

  /** With one partition, `gr` raises the initial stable time past the entry of replica 1 after a single put. */
  lemma OnePartitionUnsafe()
    ensures exists gs: seq<Group>, acts: seq<Action> ::
      && GrStall.Run(Gr, gs, acts) && gs[0] == ReplicaGroup.Init(2) && |gs[|gs| - 1]| == 2
      && var vv := gs[|gs| - 1][0].rep.vv;
         |vv| == 2 && System.BelowVector(Gr, [0.0], vv)
         && !System.BelowVector(Gr, StableTime.UpdateGst(StableTime.Node([0.0], [0.0], []), [vv[0]]).gst, vv)
  {
    Race0(5.0);
    DuelStarts();
    var gs, acts := [Race(5.0, 0), Race(5.0, 1)], [RaceSteps(5.0)[0]];
    var vv, nd := [5.0, 0.0], StableTime.Node([0.0], [0.0], []);
    assert GrStall.Run(Gr, gs, acts) && gs[1][0].rep.vv == vv;
    System.OnePartition(nd, vv);
    assert MinEntry(vv) <= vv[1];
  }

  // ---- a hidden dependency

  // Three replicas of `grv`, one partition. Replica 0 puts z; a client of replica 1 reads z
  // and puts x; a client of replica 0 reads x and puts y. Replica 2 receives x, computes
  // its stable time, and receives z and y: it shows y and not x.

  const PutZ := Update(1, 11, 5.0, [0.0, 0.0, 0.0], 0, 0.0, 0)
  const PutX := Update(2, 12, 6.0, [5.0, 0.0, 0.0], 1, 0.0, 0)
  const PutY := Update(3, 13, 8.0, [0.0, 6.0, 0.0], 0, 0.0, 0)
  const Z := VersionOf(PutZ)
  const X := VersionOf(PutX)
  const Y := VersionOf(PutY)

  function Peer(vv: Vec, items: Items, clock: Time, inbox: seq<seq<Message>>, log: seq<Update>,
    arrived: seq<nat>): Member {
    ReplicaGroup.Member(Replica(vv, items, [[], [], []], [Free, Free, Free]), clock, inbox, log, arrived)
  }

  const Quiet: seq<seq<Message>> := [[], [], []]
  const HasZ: Items := map[1 := [Z]]
  const HasZX: Items := HasZ[2 := [X]]
  const HasX: Items := map[2 := [X]]

  const Peer0 := Peer([5.0, 0.0, 0.0], HasZ, 6.0, Quiet, [PutZ], [0, 0, 0])
  const Peer0X := Peer([5.0, 6.0, 0.0], HasZX, 6.0, Quiet, [PutZ], [0, 1, 0])
  const Peer0Y := Peer([8.0, 6.0, 0.0], HasZX[3 := [Y]], 9.0, Quiet, [PutZ, PutY], [0, 1, 0])
  const Peer1 := Peer([5.0, 6.0, 0.0], HasZX, 7.0, Quiet, [PutX], [1, 0, 0])
  const Peer1Y := Peer([5.0, 6.0, 0.0], HasZX, 7.0, [[UpdateMsg(PutY)], [], []], [PutX], [1, 0, 0])
  const New := Peer([0.0, 0.0, 0.0], map[], 0.0, Quiet, [], [0, 0, 0])
  const NewZ := Peer([0.0, 0.0, 0.0], map[], 0.0, [[UpdateMsg(PutZ)], [], []], [], [0, 0, 0])

  /** The states of the partition. */
  function Trio(k: nat): Group
    requires k <= 8
  {
    match k
    case 0 => [New, New, New]
    case 1 => [Peer0, NewZ, NewZ]
    case 2 => [Peer0, Peer([5.0, 0.0, 0.0], HasZ, 0.0, Quiet, [], [1, 0, 0]), NewZ]
    case 3 => [Peer([5.0, 0.0, 0.0], HasZ, 6.0, [[], [UpdateMsg(PutX)], []], [PutZ], [0, 0, 0]), Peer1,
               Peer([0.0, 0.0, 0.0], map[], 0.0, [[UpdateMsg(PutZ)], [UpdateMsg(PutX)], []], [], [0, 0, 0])]
    case 4 => [Peer0X, Peer1, Trio(3)[2]]
    case 5 => [Peer0Y, Peer1Y,
               Peer([0.0, 0.0, 0.0], map[], 0.0, [[UpdateMsg(PutZ), UpdateMsg(PutY)], [UpdateMsg(PutX)], []], [],
                 [0, 0, 0])]
    case 6 => [Peer0Y, Peer1Y,
               Peer([0.0, 6.0, 0.0], HasX, 0.0, [[UpdateMsg(PutZ), UpdateMsg(PutY)], [], []], [], [0, 1, 0])]
    case 7 => [Peer0Y, Peer1Y, Peer([5.0, 6.0, 0.0], HasX[1 := [Z]], 0.0, [[UpdateMsg(PutY)], [], []], [], [1, 1, 0])]
    case 8 => [Peer0Y, Peer1Y, Peer([8.0, 6.0, 0.0], HasX[1 := [Z]][3 := [Y]], 0.0, Quiet, [], [2, 1, 0])]
  }

  const TrioSteps: seq<Action> := [
    Put(0, 1, 11, [0.0, 0.0, 0.0], 4.0, 5.0, 6.0), Deliver(1, 0),
    Put(1, 2, 12, [5.0, 0.0, 0.0], 5.0, 6.0, 7.0), Deliver(0, 1),
    Put(0, 3, 13, [0.0, 6.0, 0.0], 7.0, 8.0, 9.0), Deliver(2, 1), Deliver(2, 0), Deliver(2, 0)]

  ghost predicate TrioStep(k: nat)
    requires k < 8
  {
    && ReplicaGroup.Shape(Trio(k)) && Enabled(Trio(k), TrioSteps[k])
    && Trio(k + 1) == Apply(Grv, Trio(k), TrioSteps[k])
  }

  /** A new key is taken at once. */
  lemma PeerTakes(vv: Vec, items: Items, clock: Time, inbox: seq<seq<Message>>, log: seq<Update>, arrived: seq<nat>,
    i: nat, u: Update, rest: seq<Message>)
    requires |vv| == |inbox| == |arrived| == 3 && i < 3 && inbox[i] == [UpdateMsg(u)] + rest
    requires u.key !in items && u.prevTime == 0.0 && u.prevSource == 0
    ensures DoDeliver(Grv, Peer(vv, items, clock, inbox, log, arrived), i) ==
      Peer(vv[i := u.time], items[u.key := [VersionOf(u)]], clock, inbox[i := rest], log, arrived[i := arrived[i] + 1])
  {
    var m := Peer(vv, items, clock, inbox, log, arrived);
    ArriveAlone(Grv, m.rep, i, u);
    assert inbox[i][1..] == rest;
    Singleton(VersionOf(u));
  }

  /** A put of a new key at replica `r`. */
  lemma PeerPuts(vv: Vec, items: Items, r: nat, u: Update)
    requires |vv| == 3 && r < 3 && u.source == r && u.key !in items && u.prevTime == 0.0 && u.prevSource == 0
    ensures var rp := Replica(vv, items, [[], [], []], [Free, Free, Free]);
      && !PutDiscarded(rp, u.key, u.time) && LocalUpdate(rp, r, u.key, u.value, u.deps, u.time) == u
      && PutLocked(rp, r, u.key, u.value, u.deps, u.time) ==
        rp.(vv := vv[r := u.time], items := items[u.key := [VersionOf(u)]])
  {
    Singleton(VersionOf(u));
  }

  /** What the other peers see of it. */
  lemma PeersSee(g: Group, r: nat, u: Update, t0: Time, after: Time)
    requires ReplicaGroup.Shape(g) && r < |g| && Enabled(g, Put(r, u.key, u.value, u.deps, t0, u.time, after))
    requires !PutDiscarded(g[r].rep, u.key, u.time) && LocalUpdate(g[r].rep, r, u.key, u.value, u.deps, u.time) == u
    ensures var g' := Apply(Grv, g, Put(r, u.key, u.value, u.deps, t0, u.time, after));
      && g'[r] == g[r].(rep := PutLocked(g[r].rep, r, u.key, u.value, u.deps, u.time), clock := after,
        log := g[r].log + [u])
      && forall d :: 0 <= d < |g| && d != r ==> g'[d] == g[d].(inbox := g[d].inbox[r := g[d].inbox[r] + [UpdateMsg(u)]])
  {
  }

  lemma SameTrio(g: Group, h: Group)
    requires |g| == |h| == 3 && g[0] == h[0] && g[1] == h[1] && g[2] == h[2]
    ensures g == h
  {
  }

  lemma TrioPut0()
    ensures TrioStep(0)
  {
    Literals();
    PeerPuts([0.0, 0.0, 0.0], map[], 0, PutZ);
    var g := Apply(Grv, Trio(0), TrioSteps[0]);
    SameSide(g[0], Peer0);
    SameSide(g[1], NewZ);
    SameSide(g[2], NewZ);
    SameTrio(g, Trio(1));
  }

  lemma TrioDeliver1()
    ensures TrioStep(1)
  {
    PeerTakes([0.0, 0.0, 0.0], map[], 0.0, [[UpdateMsg(PutZ)], [], []], [], [0, 0, 0], 0, PutZ, []);
    SameSide(DoDeliver(Grv, Trio(1)[1], 0), Trio(2)[1]);
    SameTrio(Apply(Grv, Trio(1), TrioSteps[1]), Trio(2));
  }

  lemma TrioPut2()
    ensures TrioStep(2)
  {
    Literals();
    PeerPuts([5.0, 0.0, 0.0], HasZ, 1, PutX);
    var g := Apply(Grv, Trio(2), TrioSteps[2]);
    SameSide(g[0], Trio(3)[0]);
    SameSide(g[1], Peer1);
    SameSide(g[2], Trio(3)[2]);
    SameTrio(g, Trio(3));
  }

  lemma TrioDeliver3()
    ensures TrioStep(3)
  {
    PeerTakes([5.0, 0.0, 0.0], HasZ, 6.0, [[], [UpdateMsg(PutX)], []], [PutZ], [0, 0, 0], 1, PutX, []);
    SameSide(DoDeliver(Grv, Trio(3)[0], 1), Peer0X);
    SameTrio(Apply(Grv, Trio(3), TrioSteps[3]), Trio(4));
  }

  lemma TrioPut4()
    ensures TrioStep(4)
  {
    Literals();
    PeerPuts([5.0, 6.0, 0.0], HasZX, 0, PutY);
    PeersSee(Trio(4), 0, PutY, 7.0, 9.0);
    Receiver4();
    var g := Apply(Grv, Trio(4), TrioSteps[4]);
    assert [PutZ] + [PutY] == [PutZ, PutY];
    SameSide(g[0], Peer0Y);
    SameSide(g[1], Peer1Y);
    SameTrio(g, Trio(5));
  }

  lemma Receiver4()
    ensures var m := Trio(4)[2]; m.(inbox := m.inbox[0 := m.inbox[0] + [UpdateMsg(PutY)]]) == Trio(5)[2]
  {
    var m := Trio(4)[2];
    assert [UpdateMsg(PutZ)] + [UpdateMsg(PutY)] == [UpdateMsg(PutZ), UpdateMsg(PutY)];
    assert m.inbox[0 := m.inbox[0] + [UpdateMsg(PutY)]] == Trio(5)[2].inbox;
  }

  lemma TrioDeliver5()
    ensures TrioStep(5)
  {
    var z, y := UpdateMsg(PutZ), UpdateMsg(PutY);
    PeerTakes([0.0, 0.0, 0.0], map[], 0.0, [[z, y], [UpdateMsg(PutX)], []], [], [0, 0, 0], 1, PutX, []);
    SameSide(DoDeliver(Grv, Trio(5)[2], 1), Trio(6)[2]);
    SameTrio(Apply(Grv, Trio(5), TrioSteps[5]), Trio(6));
  }

  lemma TrioDeliver6()
    ensures TrioStep(6)
  {
    var z, y := UpdateMsg(PutZ), UpdateMsg(PutY);
    assert [z] + [y] == [z, y];
    PeerTakes([0.0, 6.0, 0.0], HasX, 0.0, [[z, y], [], []], [], [0, 1, 0], 0, PutZ, [y]);
    SameSide(DoDeliver(Grv, Trio(6)[2], 0), Trio(7)[2]);
    SameTrio(Apply(Grv, Trio(6), TrioSteps[6]), Trio(7));
  }

  lemma TrioDeliver7()
    ensures TrioStep(7)
  {
    PeerTakes([5.0, 6.0, 0.0], HasX[1 := [Z]], 0.0, [[UpdateMsg(PutY)], [], []], [], [1, 1, 0], 0, PutY, []);
    SameSide(DoDeliver(Grv, Trio(7)[2], 0), Trio(8)[2]);
    SameTrio(Apply(Grv, Trio(7), TrioSteps[7]), Trio(8));
  }

  lemma AnyTrioStep(k: nat)
    requires k < 8
    ensures TrioStep(k)
  {
    match k {
      case 0 => TrioPut0();
      case 1 => TrioDeliver1();
      case 2 => TrioPut2();
      case 3 => TrioDeliver3();
      case 4 => TrioPut4();
      case 5 => TrioDeliver5();
      case 6 => TrioDeliver6();
      case 7 => TrioDeliver7();
    }
  }

  // the same steps as a run of the whole store

  const ThreeReplicas := System.Config(Grv, 3, 1, 1, 0)
  const Fresh := StableTime.State(
    [StableTime.Node([0.0, 0.0, 0.0], [0.0, 0.0, 0.0], [false])], [[]], [[]], [[]], [1], StableTime.Idle, [], {},
    [0], [0], 0, 0, [[0.0, 0.0, 0.0]], [])
  const Computed := Fresh.(nodes := [StableTime.Node([0.0, 6.0, 0.0], [0.0, 0.0, 0.0], [false])])

  /** State `k`: replica 2 computes its stable time in step 6. */
  function StoreState(k: nat): System.State
    requires k <= 9
  {
    System.State([Trio(if k <= 6 then k else k - 1)], [Fresh, Fresh, if k <= 6 then Fresh else Computed])
  }

  function StoreStep(k: nat): System.Action
    requires k < 9
  {
    if k == 6 then System.Stabilise(2, StableTime.Start(0))
    else System.Replicate(0, TrioSteps[if k < 6 then k else k - 1])
  }

  function StoreStates(): (ss: seq<System.State>)
    ensures |ss| == 10 && forall k :: 0 <= k < 10 ==> ss[k] == StoreState(k)
  {
    seq(10, k requires 0 <= k < 10 => StoreState(k))
  }

  function StoreSteps(): (acts: seq<System.Action>)
    ensures |acts| == 9 && forall k :: 0 <= k < 9 ==> acts[k] == StoreStep(k)
  {
    seq(9, k requires 0 <= k < 9 => StoreStep(k))
  }

  lemma StoreStarts()
    ensures System.Valid(ThreeReplicas) && StoreState(0) == System.Init(ThreeReplicas)
  {
    assert Zero(3) == [0.0, 0.0, 0.0];
    SameSide(ReplicaGroup.InitMember(3), New);
    SameTrio(ReplicaGroup.Init(3), Trio(0));
    FreshIsInitial();
    var s := System.Init(ThreeReplicas);
    assert s.groups == [Trio(0)] && s.stable == [Fresh, Fresh, Fresh];
  }

  lemma FreshIsInitial()
    ensures StableTime.Init(System.TreeConfig(ThreeReplicas), 0) == Fresh
  {
    var st := StableTime.Init(System.TreeConfig(ThreeReplicas), 0);
    assert Zero(3) == [0.0, 0.0, 0.0] && StableTime.Cleared(1) == [false];
    assert st.nodes == Fresh.nodes && st.up == Fresh.up && st.down == Fresh.down && st.inbox == Fresh.inbox;
    assert st.starts == Fresh.starts && st.clients == Fresh.clients && st.sent == Fresh.sent && st.got == Fresh.got;
    assert st.report == Fresh.report;
  }

  lemma StoreShape(k: nat)
    requires k <= 9
    ensures System.Shape(ThreeReplicas, StoreState(k))
  {
    TrioShape(if k <= 6 then k else k - 1);
  }

  lemma TrioShape(k: nat)
    requires k <= 8
    ensures ReplicaGroup.Shape(Trio(k)) && |Trio(k)| == 3
  {
    if k < 8 { AnyTrioStep(k); } else { AnyTrioStep(7); }
  }

  lemma StoreGoes(k: nat)
    requires k < 9
    ensures System.Shape(ThreeReplicas, StoreState(k)) && System.Enabled(ThreeReplicas, StoreState(k), StoreStep(k))
    ensures StoreState(k + 1) == System.Apply(ThreeReplicas, StoreState(k), StoreStep(k))
  {
    StoreShape(k);
    if k == 6 { ComputeGoes(); } else { ReplicateGoes(k, if k < 6 then k else k - 1); }
  }

  lemma ReplicateGoes(k: nat, j: nat)
    requires k < 9 && k != 6 && j == (if k < 6 then k else k - 1) && System.Shape(ThreeReplicas, StoreState(k))
    ensures System.Enabled(ThreeReplicas, StoreState(k), StoreStep(k))
    ensures StoreState(k + 1) == System.Apply(ThreeReplicas, StoreState(k), StoreStep(k))
  {
    AnyTrioStep(j);
    assert StoreState(k).groups[0 := Trio(j + 1)] == StoreState(k + 1).groups;
  }

  lemma ComputeGoes()
    requires System.Shape(ThreeReplicas, StoreState(6))
    ensures System.Enabled(ThreeReplicas, StoreState(6), StoreStep(6))
    ensures StoreState(7) == System.Apply(ThreeReplicas, StoreState(6), StoreStep(6))
  {
    var sum := System.Summaries(ThreeReplicas, StoreState(6), 2);
    assert sum[0] == [0.0, 6.0, 0.0];
    var nd := StableTime.UpdateGst(Fresh.nodes[0], sum[0]);
    assert nd.gst == [0.0, 6.0, 0.0];
    assert Fresh.nodes[0 := nd] == Computed.nodes;
  }

  lemma StoreRun()
    ensures System.Run(ThreeReplicas, StoreStates(), StoreSteps())
  {
    StoreStarts();
    var ss, acts := StoreStates(), StoreSteps();
    forall k | 0 <= k < |acts|
      ensures System.Shape(ThreeReplicas, ss[k]) && System.Enabled(ThreeReplicas, ss[k], acts[k])
      ensures ss[k + 1] == System.Apply(ThreeReplicas, ss[k], acts[k])
    {
      StoreGoes(k);
    }
  }

  /** What a get of `key` returns at replica `r` in state `k`. */
  ghost function Get(k: nat, r: nat, key: nat): Option<Version>
    requires k <= 9 && r < 3
  {
    StoreShape(k);
    var gst := System.Gst(ThreeReplicas, StoreState(k), r, 0);
    ReadAt(System.KeyChain(ThreeReplicas, StoreState(k), r, 0, key), v => GrvVisible(r, gst, v))
  }

  /** The dependency vector of a client whose only response so far was a get at stable vector zero. */
  lemma OneGet(time: Time, source: nat)
    requires source < 3 && time >= 0.0
    ensures var get := Client.GetResponse([0.0, 0.0, 0.0], time, source);
      Client.RequestDeps(Client.After(3, [get])) == [0.0, 0.0, 0.0][source := time]
  {
    var get := Client.GetResponse([0.0, 0.0, 0.0], time, source);
    assert Zero(3) == [0.0, 0.0, 0.0];
    assert [get][..0] == [];
    assert Client.After(3, [get]) == Client.Receive(Client.After(3, []), get);
  }

  lemma Gets()
    ensures Get(2, 1, 1) == Some(Z) && Get(4, 0, 2) == Some(X) && Get(9, 2, 3) == Some(Y) && Get(9, 2, 2) == None
  {
    Singleton(X);
    var gst := [0.0, 6.0, 0.0];
    assert X.deps[0] > gst[0];
    assert ReadAt([X], v => GrvVisible(2, gst, v)) == None;
  }

  /**
   The dependency vectors are those of the clients, each of which has read one version.
   In the last state replica 2 shows y and does not show the x that its writer had read.
   */
  lemma DependencyHidden()
    ensures System.Run(ThreeReplicas, StoreStates(), StoreSteps())
    ensures Get(2, 1, 1) == Some(Z) &&
      X.deps == Client.RequestDeps(Client.After(3, [Client.GetResponse([0.0, 0.0, 0.0], Z.time, 0)]))
    ensures Get(4, 0, 2) == Some(X) &&
      Y.deps == Client.RequestDeps(Client.After(3, [Client.GetResponse([0.0, 0.0, 0.0], X.time, 1)]))
    ensures Get(9, 2, 3) == Some(Y) && Get(9, 2, 2) == None
  {
    StoreRun();
    OneGet(5.0, 0);
    OneGet(6.0, 1);
    Gets();
  }

  // ---- a heartbeat that overtakes an update

  // Replica 1 puts key 7 and sends a heartbeat. At replica 0 the update arrives and asks
  // for its lock, the heartbeat is handled, and then the update gets its lock.

  const Slow := Update(7, 1, 1.0, [], 1, 0.0, 0)

  function Faster(k: nat): Group
    requires k <= 5
  {
    var source := Side([0.0, 2.0], [VersionOf(Slow)], NoQueue, Idle, 2.0, Silent, [Slow], [0, 0]);
    var waits: seq<seq<Update>> := [[], [Slow]];
    match k
    case 0 => Duel(0)
    case 1 => [Side([0.0, 0.0], [], NoQueue, Idle, 0.0, [[], [UpdateMsg(Slow)]], [], [0, 0]),
               Side([0.0, 1.0], [VersionOf(Slow)], NoQueue, Idle, 1.0, Silent, [Slow], [0, 0])]
    case 2 => [Side([0.0, 0.0], [], NoQueue, Idle, 0.0, [[], [UpdateMsg(Slow), Heartbeat(2.0)]], [], [0, 0]), source]
    case 3 => [Side([0.0, 0.0], [], waits, [Free, Locking(Slow)], 0.0, [[], [Heartbeat(2.0)]], [], [0, 1]), source]
    case 4 => [Side([0.0, 2.0], [], waits, [Free, Locking(Slow)], 0.0, Silent, [], [0, 1]), source]
    case 5 => [Side([0.0, 1.0], [VersionOf(Slow)], waits, [Free, Unlocking(Slow)], 0.0, Silent, [], [0, 1]), source]
  }

  const FasterSteps: seq<ReplicaGroup.Action> := [
    ReplicaGroup.LocalPut(1, 7, 1, [], 1.0, 1.0), ReplicaGroup.Tick(1, 2.0, 2.0), ReplicaGroup.Receive(0, 1),
    ReplicaGroup.Receive(0, 1), ReplicaGroup.EnterLock(0, 1)]

  ghost predicate FasterStep(pol: Policy, k: nat)
    requires k < 5
  {
    && ReplicaGroup.Shape(Faster(k)) && ReplicaGroup.Enabled(Faster(k), FasterSteps[k])
    && Overtaking.Advances(Faster(k), FasterSteps[k])
    && Faster(k + 1) == ReplicaGroup.Apply(pol, Faster(k), FasterSteps[k])
  }

  lemma Faster0(pol: Policy)
    ensures FasterStep(pol, 0)
  {
    Literals();
    Singleton(VersionOf(Slow));
    var g := ReplicaGroup.Apply(pol, Faster(0), FasterSteps[0]);
    SameSide(g[0], Faster(1)[0]);
    SameSide(g[1], Faster(1)[1]);
    SameGroup(g, Faster(1));
  }

  lemma Faster1(pol: Policy)
    ensures FasterStep(pol, 1)
  {
    var g := ReplicaGroup.Apply(pol, Faster(1), FasterSteps[1]);
    assert [UpdateMsg(Slow)] + [Heartbeat(2.0)] == [UpdateMsg(Slow), Heartbeat(2.0)];
    SameSide(g[0], Faster(2)[0]);
    SameSide(g[1], Faster(2)[1]);
    SameGroup(g, Faster(2));
  }

  lemma Faster2(pol: Policy)
    ensures FasterStep(pol, 2)
  {
    Literals();
    var g := ReplicaGroup.Apply(pol, Faster(2), FasterSteps[2]);
    assert [UpdateMsg(Slow), Heartbeat(2.0)][1..] == [Heartbeat(2.0)];
    SameSide(g[0], Faster(3)[0]);
    SameGroup(g, Faster(3));
  }

  lemma Faster3(pol: Policy)
    ensures FasterStep(pol, 3)
  {
    Literals();
    var g := ReplicaGroup.Apply(pol, Faster(3), FasterSteps[3]);
    SameSide(g[0], Faster(4)[0]);
    SameGroup(g, Faster(4));
  }

  lemma Faster4(pol: Policy)
    ensures FasterStep(pol, 4)
  {
    Singleton(VersionOf(Slow));
    var g := ReplicaGroup.Apply(pol, Faster(4), FasterSteps[4]);
    SameSide(g[0], Faster(5)[0]);
    SameGroup(g, Faster(5));
  }

  lemma AnyFasterStep(pol: Policy, k: nat)
    requires k < 5
    ensures FasterStep(pol, k)
  {
    match k {
      case 0 => Faster0(pol);
      case 1 => Faster1(pol);
      case 2 => Faster2(pol);
      case 3 => Faster3(pol);
      case 4 => Faster4(pol);
    }
  }

  function FasterStates(): (gs: seq<Group>)
    ensures |gs| == 6 && forall k :: 0 <= k < 6 ==> gs[k] == Faster(k)
  {
    seq(6, k requires 0 <= k < 6 => Faster(k))
  }

  /**
   In either protocol, after the heartbeat the entry covers an update that is not there,
   and the critical section then sets the entry back.
   */
  lemma OvertakingRun(pol: Policy)
    ensures var gs := FasterStates();
      && Overtaking.AdvancingRun(pol, 2, gs, FasterSteps)
      && Overtaking.Overtakes(gs[3], FasterSteps[3]) && Missing(gs[4], Slow)
      && gs[3][0].rep.vv[1] == 0.0 && gs[4][0].rep.vv[1] == 2.0 && gs[5][0].rep.vv[1] == 1.0
  {
    FasterRun(pol);
    AnyFasterStep(pol, 3);
  }

  lemma FasterRun(pol: Policy)
    ensures Overtaking.AdvancingRun(pol, 2, FasterStates(), FasterSteps)
  {
    DuelStarts();
    var gs, acts := FasterStates(), FasterSteps;
    forall k | 0 <= k < |acts|
      ensures ReplicaGroup.Shape(gs[k]) && ReplicaGroup.Enabled(gs[k], acts[k]) && Overtaking.Advances(gs[k], acts[k])
      ensures gs[k + 1] == ReplicaGroup.Apply(pol, gs[k], acts[k])
    {
      AnyFasterStep(pol, k);
    }
  }
}
