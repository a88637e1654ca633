/**
 Safety of the stable time: as long as the servers' summaries never decrease,
 every stable time held by a server or a client of the replica, or travelling in
 a message, is at most the summary of every partition. The report of a node is
 exactly the minimum over the node and the reports of its children.
 */
module StableTimeSafety {
  import opened Vectors
  import opened Tree
  import opened StableTime
  import opened StableTimeRounds

  ghost predicate SumOk(cfg: Config, sum: seq<Vec>) {
    |sum| == cfg.n && forall q :: 0 <= q < cfg.n ==> |sum[q]| == cfg.dim
  }

  /** `v` is at most the summary of every partition. */
  ghost predicate Below(v: Vec, sum: seq<Vec>) { forall q :: 0 <= q < |sum| ==> Leq(v, sum[q]) }

  ghost predicate AllBelow(vs: seq<Vec>, sum: seq<Vec>) { forall i :: 0 <= i < |vs| ==> Below(vs[i], sum) }

  /** `v` is at most the summary of every partition in the subtree of `c`. */
  ghost predicate Covers(cfg: Config, v: Vec, c: nat, sum: seq<Vec>)
    requires ValidConfig(cfg)
  {
    forall q :: 0 <= q < |sum| && InSubtree(cfg.fanout, c, q) ==> Leq(v, sum[q])
  }

  ghost predicate AllCover(cfg: Config, vs: seq<Vec>, c: nat, sum: seq<Vec>)
    requires ValidConfig(cfg)
  {
    forall i :: 0 <= i < |vs| ==> |vs[i]| == cfg.dim && Covers(cfg, vs[i], c, sum)
  }

  /** The minimum collected by the parent of `c` covers `c` once `c` has reported. */
  ghost predicate Collected(cfg: Config, st: State, c: nat, sum: seq<Vec>)
    requires Shape(cfg, st) && 1 <= c < cfg.n
  {
    Reported(cfg, st, c) ==> Covers(cfg, st.nodes[Parent(cfg.fanout, c)].minLst, c, sum)
  }

  ghost predicate Safe(cfg: Config, st: State, sum: seq<Vec>)
    requires Shape(cfg, st)
  {
    && SumOk(cfg, sum)
    && (forall p :: 0 <= p < cfg.n ==> |st.nodes[p].minLst| == cfg.dim && Below(st.nodes[p].gst, sum))
    && (forall c :: 0 <= c < cfg.n ==> AllBelow(st.down[c], sum) && AllBelow(st.inbox[c], sum))
    && AllBelow(st.clients, sum)
    && (forall v :: v in st.known ==> Below(v, sum))
    && (forall c :: 1 <= c < cfg.n ==> AllCover(cfg, st.up[c], c, sum) && Collected(cfg, st, c, sum))
    && (st.phase == Locking ==> Below(st.nodes[0].minLst, sum))
  }

  lemma LeqTrans(a: Vec, b: Vec, c: Vec)
    requires Leq(a, b) && Leq(b, c)
    ensures Leq(a, c)
  {
  }

  lemma BelowMax(a: Vec, b: Vec, sum: seq<Vec>)
    requires Below(a, sum) && Below(b, sum)
    ensures Below(MaxV(a, b), sum)
  {
    forall q | 0 <= q < |sum|
      ensures Leq(MaxV(a, b), sum[q])
    {
      assert Leq(a, sum[q]) && Leq(b, sum[q]);
    }
  }

  lemma CoversLess(cfg: Config, a: Vec, b: Vec, c: nat, sum: seq<Vec>)
    requires ValidConfig(cfg) && Leq(a, b) && Covers(cfg, b, c, sum)
    ensures Covers(cfg, a, c, sum)
  {
    forall q | 0 <= q < |sum| && InSubtree(cfg.fanout, c, q)
      ensures Leq(a, sum[q])
    {
      LeqTrans(a, b, sum[q]);
    }
  }

  // ---- growth of the summaries

  ghost predicate Grows(sum: seq<Vec>, sum': seq<Vec>) {
    |sum| == |sum'| && forall q :: 0 <= q < |sum| ==> Leq(sum[q], sum'[q])
  }

  lemma BelowGrows(v: Vec, sum: seq<Vec>, sum': seq<Vec>)
    requires Grows(sum, sum') && Below(v, sum)
    ensures Below(v, sum')
  {
    forall q | 0 <= q < |sum|
      ensures Leq(v, sum'[q])
    {
      LeqTrans(v, sum[q], sum'[q]);
    }
  }

  lemma CoversGrows(cfg: Config, v: Vec, c: nat, sum: seq<Vec>, sum': seq<Vec>)
    requires ValidConfig(cfg) && Grows(sum, sum') && Covers(cfg, v, c, sum)
    ensures Covers(cfg, v, c, sum')
  {
    forall q | 0 <= q < |sum| && InSubtree(cfg.fanout, c, q)
      ensures Leq(v, sum'[q])
    {
      LeqTrans(v, sum[q], sum'[q]);
    }
  }

  lemma AllBelowGrows(vs: seq<Vec>, sum: seq<Vec>, sum': seq<Vec>)
    requires Grows(sum, sum') && AllBelow(vs, sum)
    ensures AllBelow(vs, sum')
  {
    forall i | 0 <= i < |vs| ensures Below(vs[i], sum') { BelowGrows(vs[i], sum, sum'); }
  }

  /** Safety survives any growth of the version vectors. */
  lemma SafeGrows(cfg: Config, st: State, sum: seq<Vec>, sum': seq<Vec>)
    requires Shape(cfg, st) && Safe(cfg, st, sum) && Grows(sum, sum')
    ensures Safe(cfg, st, sum')
  {
    forall p | 0 <= p < cfg.n ensures Below(st.nodes[p].gst, sum') { BelowGrows(st.nodes[p].gst, sum, sum'); }
    forall c | 0 <= c < cfg.n
      ensures AllBelow(st.down[c], sum') && AllBelow(st.inbox[c], sum')
    {
      AllBelowGrows(st.down[c], sum, sum');
      AllBelowGrows(st.inbox[c], sum, sum');
    }
    AllBelowGrows(st.clients, sum, sum');
    forall v | v in st.known ensures Below(v, sum') { BelowGrows(v, sum, sum'); }
    forall c | 1 <= c < cfg.n
      ensures AllCover(cfg, st.up[c], c, sum') && Collected(cfg, st, c, sum')
    {
      forall i | 0 <= i < |st.up[c]|
        ensures Covers(cfg, st.up[c][i], c, sum')
      {
        CoversGrows(cfg, st.up[c][i], c, sum, sum');
      }
      if Reported(cfg, st, c) { CoversGrows(cfg, st.nodes[Parent(cfg.fanout, c)].minLst, c, sum, sum'); }
    }
    if st.phase == Locking { BelowGrows(st.nodes[0].minLst, sum, sum'); }
  }

  // ---- steps

  lemma InitSafe(cfg: Config, clients: nat, sum: seq<Vec>)
    requires ValidConfig(cfg) && SumOk(cfg, sum)
    requires forall q :: 0 <= q < cfg.n ==> Leq(Zero(cfg.dim), sum[q])
    ensures Shape(cfg, Init(cfg, clients)) && Safe(cfg, Init(cfg, clients), sum)
  {
  }

  lemma SoleCovers(cfg: Config, v: Vec, c: nat, sum: seq<Vec>)
    requires ValidConfig(cfg) && SumOk(cfg, sum) && c < cfg.n && IsLeaf(cfg.fanout, cfg.n, c)
    requires Leq(v, sum[c])
    ensures Covers(cfg, v, c, sum)
  {
    forall q | 0 <= q < cfg.n && InSubtree(cfg.fanout, c, q)
      ensures q == c
    {
      if q != c {
        var ch := BelowSomeChild(cfg.fanout, cfg.n, c, q);
        LeafHasNoChild(cfg.fanout, cfg.n, c);
      }
    }
  }

  lemma StartSafe(cfg: Config, st: State, sum: seq<Vec>, c: nat)
    requires RoundInv(cfg, st) && Safe(cfg, st, sum) && Enabled(cfg, st, Start(c))
    ensures Safe(cfg, DoStart(cfg, st, sum, c), sum)
  {
    var st' := DoStart(cfg, st, sum, c);
    if c == 0 {
      assert cfg.n == 1;
      assert Below(sum[0], sum);
      BelowMax(st.nodes[0].gst, sum[0], sum);
    } else {
      assert Edge(cfg, st, c);
      SoleCovers(cfg, sum[c], c, sum);
    }
  }

  /** The minimum of the reports so far covers every child that has reported. */
  lemma MergedCovers(cfg: Config, st: State, sum: seq<Vec>, c: nat, d: nat)
    requires RoundInv(cfg, st) && Safe(cfg, st, sum) && Enabled(cfg, st, DeliverLst(c))
    requires 1 <= d < cfg.n && Parent(cfg.fanout, d) == Parent(cfg.fanout, c)
    requires d == c || Reported(cfg, st, d)
    ensures Covers(cfg, Merged(st.nodes[Parent(cfg.fanout, c)], st.up[c][0]), d, sum)
  {
    var nd := st.nodes[Parent(cfg.fanout, c)];
    CountBound(nd.received, |nd.received|);
    assert AllCover(cfg, st.up[c], c, sum) && Collected(cfg, st, d, sum);
    if d == c {
      CoversLess(cfg, Merged(nd, st.up[c][0]), st.up[c][0], d, sum);
    } else {
      CoversLess(cfg, Merged(nd, st.up[c][0]), nd.minLst, d, sum);
    }
  }

  lemma CollectSafe(cfg: Config, st: State, sum: seq<Vec>, c: nat)
    requires RoundInv(cfg, st) && Safe(cfg, st, sum) && Enabled(cfg, st, DeliverLst(c))
    ensures Safe(cfg, DoCollect(cfg, st, c), sum)
  {
    var p := Parent(cfg.fanout, c);
    var st' := DoCollect(cfg, st, c);
    NoDoubleReport(cfg, st, c);
    assert AllCover(cfg, st.up[c], c, sum);
    assert st'.nodes[p].gst == st.nodes[p].gst;
    forall d | 1 <= d < cfg.n
      ensures AllCover(cfg, st'.up[d], d, sum) && Collected(cfg, st', d, sum)
    {
      assert AllCover(cfg, st.up[d], d, sum) && Collected(cfg, st, d, sum);
      if Parent(cfg.fanout, d) == p && Reported(cfg, st', d) {
        CollectMark(cfg, st, c, d);
        MergedCovers(cfg, st, sum, c, d);
      }
    }
  }

  lemma CollectMark(cfg: Config, st: State, c: nat, d: nat)
    requires RoundInv(cfg, st) && Enabled(cfg, st, DeliverLst(c))
    requires 1 <= d < cfg.n && Parent(cfg.fanout, d) == Parent(cfg.fanout, c)
    ensures Reported(cfg, DoCollect(cfg, st, c), d) <==> d == c || Reported(cfg, st, d)
  {
    var p := Parent(cfg.fanout, c);
    IndexBijection(cfg.fanout, cfg.n, p);
    assert IsChild(cfg.fanout, cfg.n, p, c) && IsChild(cfg.fanout, cfg.n, p, d);
  }

  /** A completed minimum covers the whole subtree of the node. */
  lemma CompleteCovers(cfg: Config, st: State, sum: seq<Vec>, c: nat)
    requires RoundInv(cfg, st) && Safe(cfg, st, sum) && Enabled(cfg, st, DeliverLst(c))
    requires Completes(cfg, Parent(cfg.fanout, c), st.nodes[Parent(cfg.fanout, c)])
    ensures var p := Parent(cfg.fanout, c);
      Covers(cfg, Complete(cfg, st.nodes[p], st.up[c][0], sum[p]).minLst, p, sum)
  {
    var p := Parent(cfg.fanout, c);
    var merged := Merged(st.nodes[p], st.up[c][0]);
    var m := MinV(merged, sum[p]);
    assert AllCover(cfg, st.up[c], c, sum);
    AllOthersReported(cfg, st, c);
    forall q | 0 <= q < cfg.n && InSubtree(cfg.fanout, p, q)
      ensures Leq(m, sum[q])
    {
      if q != p {
        var ch := BelowSomeChild(cfg.fanout, cfg.n, p, q);
        MergedCovers(cfg, st, sum, c, ch);
        LeqTrans(m, merged, sum[q]);
      }
    }
  }

  lemma CompleteSafe(cfg: Config, st: State, sum: seq<Vec>, c: nat)
    requires RoundInv(cfg, st) && Safe(cfg, st, sum) && Enabled(cfg, st, DeliverLst(c))
    requires Completes(cfg, Parent(cfg.fanout, c), st.nodes[Parent(cfg.fanout, c)])
    ensures Safe(cfg, DoComplete(cfg, st, sum, c), sum)
  {
    var p := Parent(cfg.fanout, c);
    var st' := DoComplete(cfg, st, sum, c);
    CompleteCovers(cfg, st, sum, c);
    assert AllCover(cfg, st.up[c], c, sum);
    assert st'.nodes[p].gst == st.nodes[p].gst && |st'.nodes[p].minLst| == cfg.dim;
    if p == 0 {
      forall q | 0 <= q < cfg.n ensures InSubtree(cfg.fanout, 0, q) { RootCovers(cfg.fanout, q); }
    }
    forall d | 1 <= d < cfg.n
      ensures AllCover(cfg, st'.up[d], d, sum) && Collected(cfg, st', d, sum)
    {
      CompleteEdge(cfg, st, sum, c, d);
    }
  }

  lemma CompleteEdge(cfg: Config, st: State, sum: seq<Vec>, c: nat, d: nat)
    requires RoundInv(cfg, st) && Safe(cfg, st, sum) && Enabled(cfg, st, DeliverLst(c)) && 1 <= d < cfg.n
    requires Completes(cfg, Parent(cfg.fanout, c), st.nodes[Parent(cfg.fanout, c)])
    requires var p := Parent(cfg.fanout, c); Covers(cfg, Complete(cfg, st.nodes[p], st.up[c][0], sum[p]).minLst, p, sum)
    ensures var st' := DoComplete(cfg, st, sum, c); AllCover(cfg, st'.up[d], d, sum) && Collected(cfg, st', d, sum)
  {
    assert AllCover(cfg, st.up[d], d, sum);
    CompleteCollected(cfg, st, sum, c, d);
  }

  lemma CompleteCollected(cfg: Config, st: State, sum: seq<Vec>, c: nat, d: nat)
    requires Shape(cfg, st) && |sum| == cfg.n && Enabled(cfg, st, DeliverLst(c)) && 1 <= d < cfg.n
    requires Collected(cfg, st, d, sum)
    ensures Collected(cfg, DoComplete(cfg, st, sum, c), d, sum)
  {
  }

  lemma RootUpdateSafe(cfg: Config, st: State, sum: seq<Vec>)
    requires RoundInv(cfg, st) && Safe(cfg, st, sum) && Enabled(cfg, st, RootUpdate)
    ensures Safe(cfg, DoRootUpdate(cfg, st), sum)
  {
    var st' := DoRootUpdate(cfg, st);
    BelowMax(st.nodes[0].gst, st.nodes[0].minLst, sum);
    forall d | 1 <= d < cfg.n ensures Collected(cfg, st', d, sum) { assert Collected(cfg, st, d, sum); }
  }

  lemma RootSendSafe(cfg: Config, st: State, sum: seq<Vec>)
    requires RoundInv(cfg, st) && Safe(cfg, st, sum) && Enabled(cfg, st, RootSend)
    ensures Safe(cfg, DoRootSend(cfg, st), sum)
  {
    var st' := DoRootSend(cfg, st);
    forall d | 1 <= d < cfg.n ensures Collected(cfg, st', d, sum) { assert Collected(cfg, st, d, sum); }
  }

  lemma DeliverGstSafe(cfg: Config, st: State, sum: seq<Vec>, c: nat)
    requires RoundInv(cfg, st) && Safe(cfg, st, sum) && Enabled(cfg, st, DeliverGst(c))
    ensures Safe(cfg, DoDeliverGst(cfg, st, c), sum)
  {
    var st' := DoDeliverGst(cfg, st, c);
    assert AllBelow(st.down[c], sum);
    forall d | 0 <= d < cfg.n
      ensures AllBelow(st'.down[d], sum) && AllBelow(st'.inbox[d], sum)
    {
      assert AllBelow(st.down[d], sum) && AllBelow(st.inbox[d], sum);
    }
    forall d | 1 <= d < cfg.n ensures Collected(cfg, st', d, sum) { assert Collected(cfg, st, d, sum); }
  }

  lemma ApplyGstSafe(cfg: Config, st: State, sum: seq<Vec>, c: nat)
    requires RoundInv(cfg, st) && Safe(cfg, st, sum) && Enabled(cfg, st, ApplyGst(c))
    ensures Safe(cfg, DoApplyGst(cfg, st, c), sum)
  {
    var st' := DoApplyGst(cfg, st, c);
    assert AllBelow(st.inbox[c], sum);
    BelowMax(st.nodes[c].gst, st.inbox[c][0], sum);
    forall d | 0 <= d < cfg.n
      ensures AllBelow(st'.down[d], sum) && AllBelow(st'.inbox[d], sum)
    {
      assert AllBelow(st.down[d], sum) && AllBelow(st.inbox[d], sum);
    }
    forall d | 1 <= d < cfg.n ensures Collected(cfg, st', d, sum) { assert Collected(cfg, st, d, sum); }
  }

  lemma TrafficSafe(cfg: Config, st: State, sum: seq<Vec>, a: Action)
    requires RoundInv(cfg, st) && Safe(cfg, st, sum) && Enabled(cfg, st, a)
    requires a.Raise? || a.Publish? || a.ClientReceive? || a.ClientSend?
    ensures Safe(cfg, Apply(cfg, st, sum, a), sum)
  {
    var st' := Apply(cfg, st, sum, a);
    match a {
      case Raise(p, v) => BelowMax(st.nodes[p].gst, v, sum);
      case ClientReceive(k, v) => BelowMax(st.clients[k], v, sum);
      case _ =>
    }
    forall d | 1 <= d < cfg.n ensures Collected(cfg, st', d, sum) { assert Collected(cfg, st, d, sum); }
  }

  /** Every step of the replica keeps every stable time below every summary. */
  lemma StepSafe(cfg: Config, st: State, sum: seq<Vec>, a: Action)
    requires RoundInv(cfg, st) && Safe(cfg, st, sum) && Enabled(cfg, st, a)
    ensures Safe(cfg, Apply(cfg, st, sum, a), sum)
  {
    match a {
      case Start(c) => StartSafe(cfg, st, sum, c);
      case DeliverLst(c) =>
        var p := Parent(cfg.fanout, c);
        if Completes(cfg, p, st.nodes[p]) { CompleteSafe(cfg, st, sum, c); } else { CollectSafe(cfg, st, sum, c); }
      case RootUpdate => RootUpdateSafe(cfg, st, sum);
      case RootSend => RootSendSafe(cfg, st, sum);
      case DeliverGst(c) => DeliverGstSafe(cfg, st, sum, c);
      case ApplyGst(c) => ApplyGstSafe(cfg, st, sum, c);
      case _ => TrafficSafe(cfg, st, sum, a);
    }
  }

  /** No step lowers the stable time of any server. */
  lemma StepMonotone(cfg: Config, st: State, sum: seq<Vec>, a: Action, p: nat)
    requires RoundInv(cfg, st) && Safe(cfg, st, sum) && Enabled(cfg, st, a) && p < cfg.n
    ensures Leq(st.nodes[p].gst, Apply(cfg, st, sum, a).nodes[p].gst)
  {
    assert Below(st.nodes[p].gst, sum);
    assert Leq(st.nodes[p].gst, sum[0]);
    match a {
      case Start(c) => assert Leq(st.nodes[p].gst, sum[0]);
      case RootUpdate => assert |st.nodes[0].minLst| == cfg.dim;
      case ApplyGst(c) => assert Below(st.inbox[c][0], sum) && Leq(st.inbox[c][0], sum[0]);
      case Raise(p', v) => assert Below(v, sum) && Leq(v, sum[0]);
      case _ =>
    }
  }
}
