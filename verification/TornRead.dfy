/**
 A run in which a transaction of GentleRain Vector is not a snapshot. Two partitions in one
 replica. The slice of key 1 is read first; then y is put for key 1 and x, which depends on
 y, for key 0; then the slice of key 0 is read, at the later clock of its own server
 (src/server/protocols/grv/slice.c:57-58). The answer has x and not the y it depends on.
 */
module TornRead {
  import opened Vectors
  import opened Store
  import opened Replication
  import opened PtrArrays
  import RG = ReplicaGroup
  import SC = SingleCore
  import StableTime
  import System
  import T = Transactions
  import TR = TransactionRuns
  import opened GrvTransactions

  // ---- the store

  const PutY := Update(1, 11, 5.0, [0.0], 0, 0.0, 0)
  const PutX := Update(0, 12, 7.0, [5.0], 0, 0.0, 0)
  const Y := VersionOf(PutY)
  const X := VersionOf(PutX)

  const TwoPartitions := System.Config(Grv, 1, 2, 1, 0)

  function Alone(entry: Time, items: Items, clock: Time, log: seq<Update>): RG.Group {
    [RG.Member(Replica([entry], items, [[]], [Free]), clock, [[]], log, [0])]
  }

  const Blank := Alone(0.0, map[], 0.0, [])
  const HasY := Alone(5.0, map[1 := [Y]], 6.0, [PutY])
  const HasX := Alone(7.0, map[0 := [X]], 8.0, [PutX])

  const Unstarted := StableTime.Node([0.0], [0.0], [false])
  const Tree := StableTime.State(
    [Unstarted, Unstarted], [[], []], [[], []], [[], []], [0, 1], StableTime.Idle, [], {},
    [0, 0], [0, 0], 0, 0, [[0.0], [0.0]], [])

  const Store0 := System.State([Blank, Blank], [Tree])
  const Store1 := System.State([Blank, HasY], [Tree])
  const Store2 := System.State([HasX, HasY], [Tree])

  const StoreActs: seq<System.Action> := [
    System.Replicate(1, SC.Put(0, 1, 11, [0.0], 4.0, 5.0, 6.0)),
    System.Replicate(0, SC.Put(0, 0, 12, [5.0], 6.0, 7.0, 8.0))]

  lemma TreeIsInitial()
    ensures StableTime.Init(System.TreeConfig(TwoPartitions), 0) == Tree
  {
    var st := StableTime.Init(System.TreeConfig(TwoPartitions), 0);
    assert Zero(1) == [0.0] && StableTime.Cleared(1) == [false];
    assert st.nodes == Tree.nodes && st.up == Tree.up && st.down == Tree.down && st.inbox == Tree.inbox;
    assert st.starts == Tree.starts && st.clients == Tree.clients && st.sent == Tree.sent && st.got == Tree.got;
    assert st.report == Tree.report;
  }

  lemma StoreStarts()
    ensures System.Valid(TwoPartitions) && System.Init(TwoPartitions) == Store0
  {
    TreeIsInitial();
    var m := RG.InitMember(1);
    assert Zero(1) == [0.0];
    assert m.rep.queues == [[]] && m.rep.progress == [Free] && m.inbox == [[]] && m.arrived == [0];
    assert RG.Init(1) == [m] && [m] == Blank;
    assert System.Init(TwoPartitions).groups == [Blank, Blank];
  }

  lemma PutAlone(u: Update, t0: Time, after: Time)
    requires u.source == 0 && u.prevTime == 0.0 && u.prevSource == 0 && |u.deps| == 1 && u.deps[0] <= t0
    requires 0.0 <= t0 < u.time < after
    ensures var a := SC.Put(0, u.key, u.value, u.deps, t0, u.time, after);
      && RG.Shape(Blank) && SC.Enabled(Blank, a)
      && SC.Apply(Grv, Blank, a) == Alone(u.time, map[u.key := [VersionOf(u)]], after, [u])
  {
    var a := SC.Put(0, u.key, u.value, u.deps, t0, u.time, after);
    var g := SC.Apply(Grv, Blank, a);
    assert [VersionOf(u)] + [] == [VersionOf(u)] && [] + [u] == [u];
    assert g[0].rep.vv == [u.time] && g[0].rep.items == map[u.key := [VersionOf(u)]];
    assert g[0].log == [u];
    assert g == [g[0]];
  }

  const World := Env(TwoPartitions, [Store0, Store1, Store2], StoreActs, 0, 0)

  lemma WorldRuns()
    ensures ValidEnv(World)
  {
    StoreStarts();
    PutAlone(PutY, 4.0, 6.0);
    PutAlone(PutX, 6.0, 8.0);
    assert [Blank, Blank][1 := HasY] == [Blank, HasY] && [Blank, HasY][0 := HasX] == [HasX, HasY];
    var ss, acts := World.ss, World.acts;
    assert System.Shape(TwoPartitions, ss[0]) && System.Enabled(TwoPartitions, ss[0], acts[0]);
    assert ss[1] == System.Apply(TwoPartitions, ss[0], acts[0]);
    assert System.Shape(TwoPartitions, ss[1]) && System.Enabled(TwoPartitions, ss[1], acts[1]);
    assert ss[2] == System.Apply(TwoPartitions, ss[1], acts[1]);
  }

  // ---- the transaction

  const Nothing := T.Read(1, 0, 0.0, 0)
  const ReadX := T.Read(0, 12, 7.0, 0)
  const Ask0 := T.Request(0, 0, [0], [0])
  const Ask1 := T.Request(0, 1, [1], [1])
  const Got0 := T.Response(0, 0, [0], [ReadX])
  const Got1 := T.Response(0, 1, [1], [Nothing])

  function Slot(values: seq<Option<nat>>, received: nat, dep: Time): seq<Option<T.Rotx>> {
    [Some(T.Rotx(0, [dep], values, received, 0, [0, 1]))]
  }

  function Doing(slots: seq<Option<T.Rotx>>, net: seq<T.Msg>, answers: seq<T.Answer>,
    performed: map<(nat, nat), T.Read>, now: nat, served: map<(nat, nat), Served>): State
  {
    State(TR.State(slots, net, answers, [TR.Tx(0, [0, 1])], performed), now, [Cut([0.0], 0.0, [0.0], 0.0, 0)], served)
  }

  const First: map<(nat, nat), T.Read> := map[(0, 1) := Nothing]
  const Both: map<(nat, nat), T.Read> := First[(0, 0) := ReadX]
  const Early: map<(nat, nat), Served> := map[(0, 1) := Served(0, 0.0)]
  const Late: map<(nat, nat), Served> := Early[(0, 0) := Served(2, 8.0)]
  const Open := Slot([None, None], 0, 0.0)
  const Half := Slot([Some(12), None], 1, 7.0)

  function Torn(k: nat): State
    requires k <= 7
  {
    match k
    case 0 => Init
    case 1 => Doing(Open, [Ask0, Ask1], [], map[], 0, map[])
    case 2 => Doing(Open, [Ask0, Got1], [], First, 0, Early)
    case 3 => Doing(Open, [Ask0, Got1], [], First, 1, Early)
    case 4 => Doing(Open, [Ask0, Got1], [], First, 2, Early)
    case 5 => Doing(Open, [Got0, Got1], [], Both, 2, Late)
    case 6 => Doing(Half, [Got1], [], Both, 2, Late)
    case 7 => Doing([None], [], [T.Answer(0, 0, [Some(12), Some(0)], [7.0])], Both, 2, Late)
  }

  const TornActs: seq<Action> := [
    Start(0, [0, 1], [0.0], 0.0, 0.0), Serve(1, 0.0), Elapse, Elapse, Serve(0, 8.0), Collect(0), Collect(0)]

  /** What the servers have when the slices are read. */
  lemma Servers()
    requires ValidEnv(World)
    ensures GstIn(World, 0, 0) == GstIn(World, 0, 1) == GstIn(World, 2, 0) == [0.0]
    ensures ClockIn(World, 0, 0) == ClockIn(World, 0, 1) == 0.0 && ClockIn(World, 2, 0) == 8.0
    ensures StoreIn(World, 0, 1) == map[] && StoreIn(World, 2, 0) == map[0 := [X]]
    ensures TimesIn(World, 0, 1, 0.0) == [0.0] && TimesIn(World, 2, 0, 8.0) == [8.0]
  {
  }

  lemma SlicesOf()
    ensures T.Slices(Conf(World), 0, [0, 1], 2) == [Ask0, Ask1]
  {
    var c, keys := Conf(World), [0, 1];
    assert T.IdsBelow(c, keys, 0, 1) == [0] && T.IdsBelow(c, keys, 0, 2) == [0];
    assert T.IdsBelow(c, keys, 1, 1) == [] && T.IdsBelow(c, keys, 1, 2) == [1];
    assert T.Picked(keys, [0]) == [0] && T.Picked(keys, [1]) == [1];
    assert T.Slices(c, 0, keys, 1) == [] + [Ask0];
  }

  lemma OnePerform(log: map<(nat, nat), T.Read>, k: nat, read: T.Read)
    ensures TR.Perform(log, 0, [k], [read], 1) == log[(0, k) := read]
  {
    assert TR.Perform(log, 0, [k], [read], 0) == log;
  }

  lemma OneGather(rx: T.Rotx, k: nat, read: T.Read)
    ensures T.Gather(rx, [k], [read], 1) == T.Fill(rx, k, read)
  {
    assert T.Gather(rx, [k], [read], 0) == rx;
  }

  lemma Starts()
    ensures TR.DoStart(Conf(World), TR.Init, 0, [0, 1]) == Torn(1).tr
  {
    SlicesOf();
    var tr := TR.DoStart(Conf(World), TR.Init, 0, [0, 1]);
    var rx, empty: seq<Option<nat>> := T.NewRotx(Conf(World), 0, 0, [0, 1]), [None, None];
    assert Zero(1) == [0.0] && rx.values == empty;
    assert tr.slots == [Some(rx)];
    assert tr.net == [] + [Ask0, Ask1];
    assert tr.started == [] + [TR.Tx(0, [0, 1])];
  }

  lemma ServesEarly()
    ensures TR.DoServe(Torn(1).tr, 1, map[], [0.0]) == Torn(2).tr
  {
    assert T.ReadAll(map[], [1], [0.0]) == [Nothing];
    OnePerform(map[], 1, Nothing);
    assert [Ask0, Ask1][1 := Got1] == [Ask0, Got1];
  }

  lemma ServesLate()
    ensures TR.DoServe(Torn(4).tr, 0, map[0 := [X]], [8.0]) == Torn(5).tr
  {
    var items: Items := map[0 := [X]];
    assert InVectorSnapshot([8.0], X) && ChainOf(items, 0) == [X];
    assert T.ReadOf(items, 0, [8.0]) == ReadX;
    assert T.ReadAll(items, [0], [8.0]) == [ReadX];
    OnePerform(First, 0, ReadX);
    assert [Ask0, Got1][0 := Got0] == [Got0, Got1];
  }

  lemma CollectsFirst()
    ensures TR.DoCollect(Torn(5).tr, 0) == Torn(6).tr
  {
    var tr, rx := Torn(5).tr, Open[0].value;
    OneGather(rx, 0, ReadX);
    assert rx.values[0 := Some(12)] == [Some(12), None];
    assert T.RaiseDep([0.0], ReadX) == [7.0];
    assert tr.net[..0] + tr.net[1..] == [Got1];
    assert T.Gathered(rx, Got0) == Half[0].value;
    assert tr.slots[0 := Some(Half[0].value)] == Half;
  }

  lemma CollectsSecond()
    ensures TR.DoCollect(Torn(6).tr, 0) == Torn(7).tr
  {
    var tr, rx := Torn(6).tr, Half[0].value;
    OneGather(rx, 1, Nothing);
    assert rx.values[1 := Some(0)] == [Some(12), Some(0)];
    assert T.RaiseDep([7.0], Nothing) == [7.0];
    assert tr.net[..0] + tr.net[1..] == [];
    assert tr.slots[0 := None] == [None];
  }

  lemma Torn0()
    requires ValidEnv(World)
    ensures Next(World, Torn(0), TornActs[0], Torn(1))
  {
    Servers();
    Starts();
  }

  lemma Torn1()
    requires ValidEnv(World)
    ensures Next(World, Torn(1), TornActs[1], Torn(2))
  {
    Servers();
    ServesEarly();
  }

  lemma Torn4()
    requires ValidEnv(World)
    ensures Next(World, Torn(4), TornActs[4], Torn(5))
  {
    Servers();
    ServesLate();
  }

  lemma Torn5()
    requires ValidEnv(World)
    ensures Next(World, Torn(5), TornActs[5], Torn(6))
  {
    CollectsFirst();
  }

  lemma Torn6()
    requires ValidEnv(World)
    ensures Next(World, Torn(6), TornActs[6], Torn(7))
  {
    CollectsSecond();
  }

  lemma AnyTornStep(k: nat)
    requires ValidEnv(World) && k < 7
    ensures Next(World, Torn(k), TornActs[k], Torn(k + 1))
  {
    match k {
      case 0 => Torn0();
      case 1 => Torn1();
      case 2 =>
      case 3 =>
      case 4 => Torn4();
      case 5 => Torn5();
      case 6 => Torn6();
    }
  }

  function TornStates(): (js: seq<State>)
    ensures |js| == 8 && forall k :: 0 <= k < 8 ==> js[k] == Torn(k)
  {
    seq(8, k requires 0 <= k < 8 => Torn(k))
  }

  /**
   The answer holds x for key 0 and nothing for key 1, although y is an update of key 1
   that the vector of x covers. No version of key 1 was within the slice of key 1.
   */
  lemma NotOneSnapshot()
    ensures var s := Torn(7);
      && Run(World, TornStates(), TornActs) && TornStates()[7] == s
      && s.tr.answers[0].values == [Some(12), Some(0)]
      && ReadOk(World, s, 0, 0) && ReadOk(World, s, 0, 1)
      && Found(World, s, 0, 0) == Some(X) && Found(World, s, 0, 1) == None
      && PutY.key == 1 && CoveredBy(World, 2, X, 1, PutY) && !WithinSlice(World, s, 0, 1, PutY.time)
  {
    WorldRuns();
    TornRun();
    AsNewIff(World, TornStates(), TornActs, 7, 0, 0, 7.0);
    AsNewIff(World, TornStates(), TornActs, 7, 0, 1, 5.0);
    ReturnsX();
    ReturnsNothing();
  }

  lemma TornRun()
    requires ValidEnv(World)
    ensures Run(World, TornStates(), TornActs)
  {
    var js, acts := TornStates(), TornActs;
    forall k | 0 <= k < |acts| ensures Next(World, js[k], acts[k], js[k + 1]) { AnyTornStep(k); }
  }

  /** What is found, for a slice of which everything is known. */
  lemma FoundIs(s: State, k: nat, key: nat, q: nat, sv: Served)
    requires ValidEnv(World) && s.now < |World.ss| && ReadOk(World, s, 0, k) && q < 2 && sv.at < |World.ss|
    requires s.tr.started[0].keys[k] == key && T.Owner(Conf(World), key) == q && s.served[(0, q)] == sv
    ensures Found(World, s, 0, k) ==
      ReadAt(ChainOf(StoreIn(World, sv.at, q), key), T.AtSnapshot(TimesIn(World, sv.at, q, sv.clock)))
  {
  }

  lemma ReturnsX()
    requires ValidEnv(World) && ReadOk(World, Torn(7), 0, 0)
    ensures Found(World, Torn(7), 0, 0) == Some(X)
  {
    Reads();
    FoundIs(Torn(7), 0, 0, 0, Served(2, 8.0));
    Servers();
  }

  lemma ReturnsNothing()
    requires ValidEnv(World) && ReadOk(World, Torn(7), 0, 1)
    ensures Found(World, Torn(7), 0, 1) == None
  {
    Reads();
    FoundIs(Torn(7), 1, 1, 1, Served(0, 0.0));
    Servers();
  }

  lemma Reads()
    ensures ReadAt(ChainOf(map[0 := [X]], 0), T.AtSnapshot([8.0])) == Some(X)
    ensures ReadAt(ChainOf(map[], 1), T.AtSnapshot([0.0])) == None
  {
    assert InVectorSnapshot([8.0], X);
  }
}
