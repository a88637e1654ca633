/**
 The computation of the stable time inside one replica: reports travel up the
 partition tree, the root raises its stable time and broadcasts it down.

 The two protocols differ only in the shape of a report. GentleRain sends the
 smallest entry of the version vector (a vector of dimension 1 here) and
 GentleRain Vector sends the version vector itself (dimension = number of
 replicas), so one model covers src/server/protocols/gr/gst.c and
 src/server/protocols/grv/gst.c. Every C event handler is one step, so the
 results about rounds hold for any number of cores, with one exception: the handlers
 of an arriving stable time under the lock and after the unlock are one step
 (`ApplyGst`). What the second one sends or schedules can only be late, which a channel
 allows anyway, and the lock keeps the order, so no behaviour is lost.
 */
module StableTime {
  import opened Vectors
  import opened Tree

  /**
   `n` partitions, tree fanout, dimension of a stable time. `forwardFirst` is
   true for GentleRain Vector, which forwards a stable time to its children
   before it takes its own lock, and false for GentleRain, which forwards it
   after its own update.
   */
  datatype Config = Config(n: nat, fanout: nat, dim: nat, forwardFirst: bool)

  predicate ValidConfig(cfg: Config) { cfg.n >= 1 && cfg.fanout >= 1 }

  /** The part of a server's state that the stable-time handlers change. */
  datatype Node = Node(gst: Vec, minLst: Vec, received: seq<bool>)

  function Count(bits: seq<bool>): nat {
    if bits == [] then 0 else (if bits[0] then 1 else 0) + Count(bits[1..])
  }

  function Cleared(k: nat): seq<bool> { seq(k, _ => false) }

  /** One more report completes the round at node `p`. */
  predicate Completes(cfg: Config, p: nat, nd: Node)
    requires ValidConfig(cfg)
  {
    Count(nd.received) == NumChildren(cfg.fanout, cfg.n, p) - 1
  }

  /** The minimum of the reports received so far, `lst` included. */
  function Merged(nd: Node, lst: Vec): Vec {
    if Count(nd.received) == 0 then lst else MinV(nd.minLst, lst)
  }

  /** The report `lst` of child `c` when others are still missing. */
  function Collect(cfg: Config, nd: Node, c: nat, lst: Vec): Node
    requires ValidConfig(cfg) && |nd.received| == cfg.fanout && c >= 1
  {
    nd.(minLst := Merged(nd, lst), received := nd.received[ChildIndex(cfg.fanout, c) := true])
  }

  /** The last report `lst` of a round at a node whose own summary is `own`. */
  function Complete(cfg: Config, nd: Node, lst: Vec, own: Vec): Node {
    nd.(minLst := MinV(Merged(nd, lst), own), received := Cleared(cfg.fanout))
  }

  function UpdateGst(nd: Node, v: Vec): Node {
    nd.(gst := MaxV(nd.gst, v))
  }

  /** The handlers as the C code runs them: in place, with loops. */
  class Server {
    const cfg: Config
    const partition: nat
    const gst: array<Time>
    const minLst: array<Time>
    const received: array<bool>

    ghost predicate Valid()
    {
      && ValidConfig(cfg)
      && gst.Length == minLst.Length == cfg.dim
      && received.Length == cfg.fanout
      && gst != minLst
    }

    ghost function State(): (nd: Node)
      requires Valid()
      reads gst, minLst, received
    {
      Node(gst[..], minLst[..], received[..])
    }

    constructor (cfg: Config, partition: nat)
      requires ValidConfig(cfg)
      ensures Valid() && this.cfg == cfg && this.partition == partition
      ensures fresh(gst) && fresh(minLst) && fresh(received)
      ensures State() == Node(Zero(cfg.dim), Zero(cfg.dim), Cleared(cfg.fanout))
    {
      this.cfg := cfg;
      this.partition := partition;
      gst := new Time[cfg.dim](_ => 0.0);
      minLst := new Time[cfg.dim](_ => 0.0);
      received := new bool[cfg.fanout](_ => false);
    }

    method CountReceived() returns (count: nat)
      requires Valid()
      ensures count == Count(received[..])
    {
      count := 0;
      var i := 0;
      while i < received.Length
        invariant 0 <= i <= received.Length
        invariant count + Count(received[i..]) == Count(received[..])
      {
        assert received[i..][1..] == received[i + 1..];
        if received[i] { count := count + 1; }
        i := i + 1;
      }
    }

    method ClearReceived()
      requires Valid()
      modifies received
      ensures received[..] == Cleared(cfg.fanout)
    {
      var i := 0;
      while i < received.Length
        invariant 0 <= i <= received.Length
        invariant forall j :: 0 <= j < i ==> !received[j]
      {
        received[i] := false;
        i := i + 1;
      }
    }

    /** `set_min` on every entry of the minimum. */
    method LowerMin(v: Vec)
      requires Valid() && |v| == cfg.dim
      modifies minLst
      ensures minLst[..] == MinV(old(minLst[..]), v)
    {
      var i := 0;
      while i < minLst.Length
        invariant 0 <= i <= minLst.Length
        invariant forall j :: 0 <= j < i ==> minLst[j] == Min(old(minLst[j]), v[j])
        invariant forall j :: i <= j < minLst.Length ==> minLst[j] == old(minLst[j])
      {
        if minLst[i] > v[i] { minLst[i] := v[i]; }
        i := i + 1;
      }
    }

    method ProcessReport(c: nat, lst: Vec, own: Vec) returns (complete: bool)
      requires Valid() && c >= 1 && !received[ChildIndex(cfg.fanout, c)] && |lst| == |own| == cfg.dim
      modifies minLst, received
      ensures complete == old(Completes(cfg, partition, State()))
      ensures State() == if complete then Complete(cfg, old(State()), lst, own) else Collect(cfg, old(State()), c, lst)
    {
      var count := CountReceived();
      if count == 0 {
        forall i | 0 <= i < minLst.Length { minLst[i] := lst[i]; }
        assert minLst[..] == lst;
      } else {
        LowerMin(lst);
      }
      ghost var merged := minLst[..];
      ghost var before := old(State());
      assert merged == if count == 0 then lst else MinV(before.minLst, lst);
      received[ChildIndex(cfg.fanout, c)] := true;
      assert received[..] == before.received[ChildIndex(cfg.fanout, c) := true];
      complete := count == NumChildren(cfg.fanout, cfg.n, partition) - 1;
      if complete {
        ClearReceived();
        LowerMin(own);
      }
      assert gst[..] == before.gst;
    }

    /** Raises the stable time; nothing is ever lowered. */
    method Raise(v: Vec)
      requires Valid() && |v| == cfg.dim
      modifies gst
      ensures State() == UpdateGst(old(State()), v)
    {
      var i := 0;
      while i < gst.Length
        invariant 0 <= i <= gst.Length
        invariant forall j :: 0 <= j < i ==> gst[j] == Max(old(gst[j]), v[j])
        invariant forall j :: i <= j < gst.Length ==> gst[j] == old(gst[j])
      {
        if v[i] > gst[i] { gst[i] := v[i]; }
        i := i + 1;
      }
    }

    /** The test before taking the lock: is raising to `v` going to change anything? */
    method NeedUpdate(v: Vec) returns (need: bool)
      requires Valid() && |v| == cfg.dim
      ensures need <==> UpdateGst(State(), v) != State()
    {
      var i := 0;
      while i < gst.Length
        invariant 0 <= i <= gst.Length
        invariant forall j :: 0 <= j < i ==> v[j] <= gst[j]
      {
        if v[i] > gst[i] {
          assert UpdateGst(State(), v).gst[i] != State().gst[i];
          return true;
        }
        i := i + 1;
      }
      assert UpdateGst(State(), v).gst == State().gst;
      return false;
    }
  }

  /** `min_replica_version`: the report of a GentleRain server. */
  method MinReplicaVersion(vv: array<Time>) returns (m: Time)
    requires vv.Length > 0
    ensures m in vv[..] && forall i :: 0 <= i < vv.Length ==> m <= vv[i]
    ensures m == MinEntry(vv[..])
  {
    m := vv[0];
    var i := 1;
    while i < vv.Length
      invariant 1 <= i <= vv.Length
      invariant m in vv[..] && forall j :: 0 <= j < i ==> m <= vv[j]
    {
      if vv[i] < m { m := vv[i]; }
      i := i + 1;
    }
  }

  // ---------------------------------------------------------------------
  // The whole replica.

  /** Progress of a completed round at the root: lock requested, then unlock requested. */
  datatype Phase = Idle | Locking | Unlocking

  /**
   All servers of one replica with the messages between them.
   up[c]: reports from c to its parent. down[c]: stable times from its parent to c.
   inbox[c]: stable times received by c and waiting for its lock.
   starts[c]: pending start-of-round events at c.
   clients: the stable time each client knows. known: every stable time that was
   ever put in a client request, a response, or a slice message of the replica;
   a message may be delivered late, twice or never.
   sent, got, rootDone, rootSends, report and minima are history: reports sent and
   stable times applied by each node, rounds completed and broadcast by the root, the
   last report of each node, and the minimum of every round completed by the root.
   */
  datatype State = State(
    nodes: seq<Node>, up: seq<seq<Vec>>, down: seq<seq<Vec>>, inbox: seq<seq<Vec>>,
    starts: seq<nat>, phase: Phase, clients: seq<Vec>, known: set<Vec>,
    sent: seq<nat>, got: seq<nat>, rootDone: nat, rootSends: nat, report: seq<Vec>, minima: seq<Vec>)

  ghost predicate Shape(cfg: Config, st: State) {
    && ValidConfig(cfg)
    && |st.nodes| == |st.up| == |st.down| == |st.inbox| == |st.starts| == cfg.n
    && |st.sent| == |st.got| == |st.report| == cfg.n
    && forall p :: 0 <= p < cfg.n ==> |st.nodes[p].received| == cfg.fanout
  }

  ghost function Init(cfg: Config, clients: nat): State
    requires ValidConfig(cfg)
  {
    var z := Zero(cfg.dim);
    State(
      seq(cfg.n, _ => Node(z, z, Cleared(cfg.fanout))),
      seq(cfg.n, _ => []), seq(cfg.n, _ => []), seq(cfg.n, _ => []),
      seq(cfg.n, (c: int) => if IsLeaf(cfg.fanout, cfg.n, Nat(c)) then 1 else 0),
      Idle, seq(clients, _ => z), {},
      seq(cfg.n, _ => 0), seq(cfg.n, _ => 0), 0, 0, seq(cfg.n, _ => z), [])
  }

  function Nat(i: int): nat { if i < 0 then 0 else i }

  // Actions that read a server's version vector take the current summaries of the
  // replica's servers as an argument: one vector per partition.
  datatype Action =
    | Start(c: nat) | DeliverLst(c: nat) | RootUpdate | RootSend
    | DeliverGst(c: nat) | ApplyGst(c: nat)
    | Raise(p: nat, v: Vec) | Publish(p: nat)
    | ClientReceive(k: nat, v: Vec) | ClientSend(k: nat)

  ghost predicate Enabled(cfg: Config, st: State, a: Action)
    requires Shape(cfg, st)
  {
    match a
    case Start(c) => c < cfg.n && st.starts[c] > 0
    case DeliverLst(c) => 1 <= c < cfg.n && st.up[c] != []
    case RootUpdate => st.phase == Locking
    case RootSend => st.phase == Unlocking
    case DeliverGst(c) => 1 <= c < cfg.n && st.down[c] != []
    case ApplyGst(c) => 1 <= c < cfg.n && st.inbox[c] != []
    case Raise(p, v) => p < cfg.n && v in st.known
    case Publish(p) => p < cfg.n
    case ClientReceive(k, v) => k < |st.clients| && v in st.known
    case ClientSend(k) => k < |st.clients|
  }

  /** `v` is sent to every child of `p`. */
  ghost function Broadcast(cfg: Config, down: seq<seq<Vec>>, p: nat, v: Vec): (d: seq<seq<Vec>>)
    requires ValidConfig(cfg)
    ensures |d| == |down|
  {
    seq(|down|, c requires 0 <= c < |down| =>
      if IsChild(cfg.fanout, cfg.n, p, c) then down[c] + [v] else down[c])
  }

  ghost function DoStart(cfg: Config, st: State, sum: seq<Vec>, c: nat): (st': State)
    requires Shape(cfg, st) && |sum| == cfg.n && Enabled(cfg, st, Start(c))
    ensures Shape(cfg, st')
  {
    if c == 0 then // only one partition: the round is done on the spot
      st.(nodes := st.nodes[0 := UpdateGst(st.nodes[0], sum[0])])
    else
      st.(up := st.up[c := st.up[c] + [sum[c]]], starts := st.starts[c := st.starts[c] - 1],
        sent := st.sent[c := st.sent[c] + 1], report := st.report[c := sum[c]])
  }

  ghost function DoCollect(cfg: Config, st: State, c: nat): (st': State)
    requires Shape(cfg, st) && Enabled(cfg, st, DeliverLst(c))
    ensures Shape(cfg, st')
  {
    var p := Parent(cfg.fanout, c);
    st.(nodes := st.nodes[p := Collect(cfg, st.nodes[p], c, st.up[c][0])], up := st.up[c := st.up[c][1..]])
  }

  ghost function DoComplete(cfg: Config, st: State, sum: seq<Vec>, c: nat): (st': State)
    requires Shape(cfg, st) && |sum| == cfg.n && Enabled(cfg, st, DeliverLst(c))
    ensures Shape(cfg, st')
  {
    var p := Parent(cfg.fanout, c);
    var nd := Complete(cfg, st.nodes[p], st.up[c][0], sum[p]);
    var nodes := st.nodes[p := nd];
    var up := st.up[c := st.up[c][1..]];
    if p == 0 then
      st.(nodes := nodes, up := up, phase := Locking, rootDone := st.rootDone + 1, minima := st.minima + [nd.minLst])
    else
      st.(nodes := nodes, up := up[p := up[p] + [nd.minLst]],
        sent := st.sent[p := st.sent[p] + 1], report := st.report[p := nd.minLst])
  }

  ghost function DoRootUpdate(cfg: Config, st: State): (st': State)
    requires Shape(cfg, st)
    ensures Shape(cfg, st')
  {
    st.(nodes := st.nodes[0 := UpdateGst(st.nodes[0], st.nodes[0].minLst)], phase := Unlocking)
  }

  ghost function DoRootSend(cfg: Config, st: State): (st': State)
    requires Shape(cfg, st)
    ensures Shape(cfg, st')
  {
    st.(down := Broadcast(cfg, st.down, 0, st.nodes[0].gst), phase := Idle, rootSends := st.rootSends + 1)
  }

  ghost function DoDeliverGst(cfg: Config, st: State, c: nat): (st': State)
    requires Shape(cfg, st) && Enabled(cfg, st, DeliverGst(c))
    ensures Shape(cfg, st')
  {
    var v := st.down[c][0];
    var rest := st.down[c := st.down[c][1..]];
    st.(down := if cfg.forwardFirst then Broadcast(cfg, rest, c, v) else rest,
      inbox := st.inbox[c := st.inbox[c] + [v]])
  }

  ghost function DoApplyGst(cfg: Config, st: State, c: nat): (st': State)
    requires Shape(cfg, st) && Enabled(cfg, st, ApplyGst(c))
    ensures Shape(cfg, st')
  {
    var v := st.inbox[c][0];
    st.(nodes := st.nodes[c := UpdateGst(st.nodes[c], v)],
      inbox := st.inbox[c := st.inbox[c][1..]],
      down := if cfg.forwardFirst then st.down else Broadcast(cfg, st.down, c, v),
      got := st.got[c := st.got[c] + 1],
      starts := if IsLeaf(cfg.fanout, cfg.n, c) then st.starts[c := st.starts[c] + 1] else st.starts)
  }

  ghost function Apply(cfg: Config, st: State, sum: seq<Vec>, a: Action): (st': State)
    requires Shape(cfg, st) && |sum| == cfg.n && Enabled(cfg, st, a)
    ensures Shape(cfg, st')
  {
    match a
    case Start(c) => DoStart(cfg, st, sum, c)
    case DeliverLst(c) =>
      var p := Parent(cfg.fanout, c);
      if Completes(cfg, p, st.nodes[p]) then DoComplete(cfg, st, sum, c) else DoCollect(cfg, st, c)
    case RootUpdate => DoRootUpdate(cfg, st)
    case RootSend => DoRootSend(cfg, st)
    case DeliverGst(c) => DoDeliverGst(cfg, st, c)
    case ApplyGst(c) => DoApplyGst(cfg, st, c)
    case Raise(p, v) => st.(nodes := st.nodes[p := UpdateGst(st.nodes[p], v)])
    case Publish(p) => st.(known := st.known + {st.nodes[p].gst})
    case ClientReceive(k, v) => st.(clients := st.clients[k := MaxV(st.clients[k], v)])
    case ClientSend(k) => st.(known := st.known + {st.clients[k]})
  }
}
