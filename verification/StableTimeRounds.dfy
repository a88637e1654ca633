/**
 Round discipline of the stable-time computation, for every run and any number
 of cores: along each edge of the tree the counters of reports and stable times
 fit together, so a child never reports twice in a round and the root's minimum
 is used before it can be overwritten.
 */
module StableTimeRounds {
  import opened Vectors
  import opened Tree
  import opened StableTime

  /** Stable times that node `p` has passed on to its children. */
  ghost function Passed(cfg: Config, st: State, p: nat): int
    requires Shape(cfg, st) && p < cfg.n
  {
    if p == 0 then st.rootSends
    else st.got[p] + (if cfg.forwardFirst then |st.inbox[p]| else 0)
  }

  /** Rounds completed at node `p`. */
  ghost function Rounds(st: State, p: nat): int
    requires p < |st.sent|
  {
    if p == 0 then st.rootDone else st.sent[p]
  }

  ghost predicate Reported(cfg: Config, st: State, c: nat)
    requires Shape(cfg, st) && 1 <= c < cfg.n
  {
    st.nodes[Parent(cfg.fanout, c)].received[ChildIndex(cfg.fanout, c)]
  }

  /** The counters along the edge from `c` to its parent. */
  ghost predicate Edge(cfg: Config, st: State, c: nat)
    requires Shape(cfg, st) && 1 <= c < cfg.n
  {
    var p := Parent(cfg.fanout, c);
    && |st.up[c]| + (if Reported(cfg, st, c) then 1 else 0) == st.sent[c] - Rounds(st, p)
    && |st.down[c]| + |st.inbox[c]| == Passed(cfg, st, p) - st.got[c]
    && st.sent[c] <= Passed(cfg, st, c) + 1
    && st.got[c] + |st.down[c]| + |st.inbox[c]| <= st.sent[c]
    && (if IsLeaf(cfg.fanout, cfg.n, c) then st.starts[c] + st.sent[c] == st.got[c] + 1 else st.starts[c] == 0)
  }

  ghost predicate RootOk(cfg: Config, st: State)
    requires Shape(cfg, st)
  {
    && st.rootDone == st.rootSends + (if st.phase == Idle then 0 else 1)
    && (cfg.n > 1 ==> st.starts[0] == 0)
  }

  ghost predicate BitsAt(cfg: Config, p: nat, nd: Node)
    requires ValidConfig(cfg) && |nd.received| == cfg.fanout
  {
    forall i :: NumChildren(cfg.fanout, cfg.n, p) <= i < cfg.fanout ==> !nd.received[i]
  }

  /** Only the slots of existing children are ever marked. */
  ghost predicate Bits(cfg: Config, st: State)
    requires Shape(cfg, st)
  {
    forall p :: 0 <= p < cfg.n ==> BitsAt(cfg, p, st.nodes[p])
  }

  ghost predicate RoundInv(cfg: Config, st: State) {
    && Shape(cfg, st)
    && RootOk(cfg, st)
    && Bits(cfg, st)
    && forall c :: 1 <= c < cfg.n ==> Edge(cfg, st, c)
  }

  // ---- counting marks

  lemma {:induction false} CountBound(bits: seq<bool>, k: nat)
    requires forall i :: k <= i < |bits| ==> !bits[i]
    ensures Count(bits) <= k
    ensures Count(bits) == 0 <==> forall i :: 0 <= i < |bits| ==> !bits[i]
  {
    if bits != [] {
      CountBound(bits[1..], if k == 0 then 0 else k - 1);
      assert forall i :: 0 <= i < |bits| - 1 ==> bits[1..][i] == bits[i + 1];
      assert forall i :: 1 <= i < |bits| ==> bits[i] == bits[1..][i - 1];
    }
  }

  lemma {:induction false} CountOneMissing(bits: seq<bool>, k: nat, i: nat)
    requires forall j :: k <= j < |bits| ==> !bits[j]
    requires i < k <= |bits| && !bits[i]
    ensures Count(bits) <= k - 1
  {
    if i == 0 {
      CountBound(bits[1..], k - 1);
    } else {
      CountOneMissing(bits[1..], k - 1, i - 1);
    }
  }

  lemma {:induction false} CountTwoMissing(bits: seq<bool>, k: nat, i: nat, j: nat)
    requires forall m :: k <= m < |bits| ==> !bits[m]
    requires i < j < k <= |bits| && !bits[i] && !bits[j]
    ensures Count(bits) <= k - 2
  {
    if i == 0 {
      CountOneMissing(bits[1..], k - 1, j - 1);
    } else {
      CountTwoMissing(bits[1..], k - 1, i - 1, j - 1);
    }
  }

  // ---- consequences

  /** The number of rounds a child has reported is at most one ahead of its parent. */
  lemma AtMostOneAhead(cfg: Config, st: State, c: nat)
    requires RoundInv(cfg, st) && 1 <= c < cfg.n
    ensures st.sent[c] <= Rounds(st, Parent(cfg.fanout, c)) + 1
    ensures Parent(cfg.fanout, c) == 0 && st.phase != Idle ==> st.up[c] == [] && !Reported(cfg, st, c)
  {
    var p := Parent(cfg.fanout, c);
    assert Edge(cfg, st, c);
    if p > 0 {
      assert Edge(cfg, st, p);
    }
  }

  /**
   The assertion on a second report of the same child in one round never fires,
   and no report can reach the root between the completion of a round and the
   use of its minimum.
   */
  lemma NoDoubleReport(cfg: Config, st: State, c: nat)
    requires RoundInv(cfg, st) && 1 <= c < cfg.n && st.up[c] != []
    ensures !Reported(cfg, st, c) && |st.up[c]| == 1
    ensures Parent(cfg.fanout, c) == 0 ==> st.phase == Idle
  {
    AtMostOneAhead(cfg, st, c);
    assert Edge(cfg, st, c);
  }

  /** When the count is one short, the only missing report is the one being handled. */
  lemma AllOthersReported(cfg: Config, st: State, c: nat)
    requires RoundInv(cfg, st) && 1 <= c < cfg.n && st.up[c] != []
    requires Completes(cfg, Parent(cfg.fanout, c), st.nodes[Parent(cfg.fanout, c)])
    ensures forall d :: 1 <= d < cfg.n && Parent(cfg.fanout, d) == Parent(cfg.fanout, c) && d != c ==>
      Reported(cfg, st, d)
  {
    var p := Parent(cfg.fanout, c);
    NoDoubleReport(cfg, st, c);
    IndexBijection(cfg.fanout, cfg.n, p);
    var bits := st.nodes[p].received;
    assert BitsAt(cfg, p, st.nodes[p]);
    var k := NumChildren(cfg.fanout, cfg.n, p);
    var i := ChildIndex(cfg.fanout, c);
    forall d | 1 <= d < cfg.n && Parent(cfg.fanout, d) == p && d != c
      ensures Reported(cfg, st, d)
    {
      assert IsChild(cfg.fanout, cfg.n, p, d) && IsChild(cfg.fanout, cfg.n, p, c);
      var j := ChildIndex(cfg.fanout, d);
      if !bits[j] {
        if i < j { CountTwoMissing(bits, k, i, j); } else { CountTwoMissing(bits, k, j, i); }
      }
    }
  }

  // ---- preservation

  lemma InitRounds(cfg: Config, clients: nat)
    requires ValidConfig(cfg)
    ensures RoundInv(cfg, Init(cfg, clients))
  {
    var st := Init(cfg, clients);
    LeafHasNoChild(cfg.fanout, cfg.n, 0);
    forall c | 1 <= c < cfg.n
      ensures Edge(cfg, st, c)
    {
    }
    if cfg.n > 1 {
      ChildRange(cfg.fanout, 0, 1);
    }
  }

  lemma StartEdge(cfg: Config, st: State, sum: seq<Vec>, c: nat, d: nat)
    requires RoundInv(cfg, st) && |sum| == cfg.n && Enabled(cfg, st, Start(c)) && 1 <= d < cfg.n
    ensures Edge(cfg, DoStart(cfg, st, sum, c), d)
  {
    assert Edge(cfg, st, d);
    if c > 0 {
      assert Edge(cfg, st, c);
      LeafHasNoChild(cfg.fanout, cfg.n, c);
      assert !IsChild(cfg.fanout, cfg.n, c, d);
    }
  }

  /** A report that does not complete the round only moves from the channel to its mark. */
  lemma CollectEdge(cfg: Config, st: State, c: nat, d: nat)
    requires RoundInv(cfg, st) && Enabled(cfg, st, DeliverLst(c)) && 1 <= d < cfg.n
    ensures Edge(cfg, DoCollect(cfg, st, c), d)
  {
    var p := Parent(cfg.fanout, c);
    NoDoubleReport(cfg, st, c);
    assert Edge(cfg, st, d);
    if Parent(cfg.fanout, d) == p {
      IndexBijection(cfg.fanout, cfg.n, p);
      assert IsChild(cfg.fanout, cfg.n, p, c) && IsChild(cfg.fanout, cfg.n, p, d);
    }
  }

  lemma CollectBits(cfg: Config, st: State, c: nat)
    requires RoundInv(cfg, st) && Enabled(cfg, st, DeliverLst(c))
    ensures Bits(cfg, DoCollect(cfg, st, c))
  {
    var p := Parent(cfg.fanout, c);
    IndexBijection(cfg.fanout, cfg.n, p);
    assert IsChild(cfg.fanout, cfg.n, p, c);
    assert BitsAt(cfg, p, st.nodes[p]);
  }

  /** The last report clears every mark and counts one more round at the parent. */
  lemma CompleteChildEdge(cfg: Config, st: State, sum: seq<Vec>, c: nat, d: nat)
    requires RoundInv(cfg, st) && |sum| == cfg.n && Enabled(cfg, st, DeliverLst(c)) && 1 <= d < cfg.n
    requires Completes(cfg, Parent(cfg.fanout, c), st.nodes[Parent(cfg.fanout, c)])
    requires Parent(cfg.fanout, d) == Parent(cfg.fanout, c)
    ensures Edge(cfg, DoComplete(cfg, st, sum, c), d)
  {
    NoDoubleReport(cfg, st, c);
    AllOthersReported(cfg, st, c);
    assert Edge(cfg, st, d);
  }

  lemma CompleteSelfEdge(cfg: Config, st: State, sum: seq<Vec>, c: nat)
    requires RoundInv(cfg, st) && |sum| == cfg.n && Enabled(cfg, st, DeliverLst(c))
    requires Parent(cfg.fanout, c) >= 1
    ensures Edge(cfg, DoComplete(cfg, st, sum, c), Parent(cfg.fanout, c))
  {
    var p := Parent(cfg.fanout, c);
    assert Edge(cfg, st, p) && Edge(cfg, st, c);
    LeafHasNoChild(cfg.fanout, cfg.n, p);
    assert IsChild(cfg.fanout, cfg.n, p, c);
  }

  lemma CompleteOtherEdge(cfg: Config, st: State, sum: seq<Vec>, c: nat, d: nat)
    requires RoundInv(cfg, st) && |sum| == cfg.n && Enabled(cfg, st, DeliverLst(c)) && 1 <= d < cfg.n
    requires Parent(cfg.fanout, d) != Parent(cfg.fanout, c) && d != Parent(cfg.fanout, c)
    ensures Edge(cfg, DoComplete(cfg, st, sum, c), d)
  {
    assert Edge(cfg, st, d);
  }

  lemma RootSendEdge(cfg: Config, st: State, d: nat)
    requires RoundInv(cfg, st) && Enabled(cfg, st, RootSend) && 1 <= d < cfg.n
    ensures Edge(cfg, DoRootSend(cfg, st), d)
  {
    assert Edge(cfg, st, d);
  }

  lemma DeliverGstEdge(cfg: Config, st: State, c: nat, d: nat)
    requires RoundInv(cfg, st) && Enabled(cfg, st, DeliverGst(c)) && 1 <= d < cfg.n
    ensures Edge(cfg, DoDeliverGst(cfg, st, c), d)
  {
    assert Edge(cfg, st, c) && Edge(cfg, st, d);
  }

  lemma ApplyGstEdge(cfg: Config, st: State, c: nat, d: nat)
    requires RoundInv(cfg, st) && Enabled(cfg, st, ApplyGst(c)) && 1 <= d < cfg.n
    ensures Edge(cfg, DoApplyGst(cfg, st, c), d)
  {
    assert Edge(cfg, st, c) && Edge(cfg, st, d);
    if d == c { ApplyOwnEdge(cfg, st, c); } else { ApplyOtherEdge(cfg, st, c, d); }
  }

  lemma ApplyOwnEdge(cfg: Config, st: State, c: nat)
    requires Shape(cfg, st) && Enabled(cfg, st, ApplyGst(c)) && Edge(cfg, st, c)
    ensures Edge(cfg, DoApplyGst(cfg, st, c), c)
  {
  }

  lemma ApplyOtherEdge(cfg: Config, st: State, c: nat, d: nat)
    requires Shape(cfg, st) && Enabled(cfg, st, ApplyGst(c)) && 1 <= d < cfg.n && d != c
    requires Edge(cfg, st, c) && Edge(cfg, st, d)
    ensures Edge(cfg, DoApplyGst(cfg, st, c), d)
  {
  }

  lemma OtherEdge(cfg: Config, st: State, sum: seq<Vec>, a: Action, d: nat)
    requires RoundInv(cfg, st) && |sum| == cfg.n && Enabled(cfg, st, a) && 1 <= d < cfg.n
    requires a.RootUpdate? || a.Raise? || a.Publish? || a.ClientReceive? || a.ClientSend?
    ensures Edge(cfg, Apply(cfg, st, sum, a), d)
  {
    assert Edge(cfg, st, d);
  }

  lemma StepEdge(cfg: Config, st: State, sum: seq<Vec>, a: Action, d: nat)
    requires RoundInv(cfg, st) && |sum| == cfg.n && Enabled(cfg, st, a) && 1 <= d < cfg.n
    ensures Edge(cfg, Apply(cfg, st, sum, a), d)
  {
    match a {
      case Start(c) => StartEdge(cfg, st, sum, c, d);
      case DeliverLst(c) =>
        var p := Parent(cfg.fanout, c);
        if !Completes(cfg, p, st.nodes[p]) {
          CollectEdge(cfg, st, c, d);
        } else if d == p {
          CompleteSelfEdge(cfg, st, sum, c);
        } else if Parent(cfg.fanout, d) == p {
          CompleteChildEdge(cfg, st, sum, c, d);
        } else {
          CompleteOtherEdge(cfg, st, sum, c, d);
        }
      case RootSend => RootSendEdge(cfg, st, d);
      case DeliverGst(c) => DeliverGstEdge(cfg, st, c, d);
      case ApplyGst(c) => ApplyGstEdge(cfg, st, c, d);
      case _ => OtherEdge(cfg, st, sum, a, d);
    }
  }

  lemma StepRoot(cfg: Config, st: State, sum: seq<Vec>, a: Action)
    requires RoundInv(cfg, st) && |sum| == cfg.n && Enabled(cfg, st, a)
    ensures RootOk(cfg, Apply(cfg, st, sum, a)) && Bits(cfg, Apply(cfg, st, sum, a))
  {
    if a.DeliverLst? {
      NoDoubleReport(cfg, st, a.c);
      CollectBits(cfg, st, a.c);
    }
  }

  /** Every step of the replica keeps the round discipline. */
  lemma StepRounds(cfg: Config, st: State, sum: seq<Vec>, a: Action)
    requires RoundInv(cfg, st) && |sum| == cfg.n && Enabled(cfg, st, a)
    ensures RoundInv(cfg, Apply(cfg, st, sum, a))
  {
    StepRoot(cfg, st, sum, a);
    forall d | 1 <= d < cfg.n
      ensures Edge(cfg, Apply(cfg, st, sum, a), d)
    {
      StepEdge(cfg, st, sum, a, d);
    }
  }
}
