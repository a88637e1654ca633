/**
 A forwarded minimum is exactly the minimum over the node's own summary and the
 reports its children sent in this round: a lower bound of all of them with every
 entry attained by one of them.
 */
module StableTimeExact {
  import opened Vectors
  import opened Tree
  import opened StableTime
  import opened StableTimeRounds

  ghost predicate IsMin(m: Vec, vs: set<Vec>) {
    && (forall v :: v in vs ==> Leq(m, v))
    && forall i :: 0 <= i < |m| ==> Attained(vs, i, m[i])
  }

  ghost predicate Attained(vs: set<Vec>, i: nat, t: Time) { exists v :: v in vs && i < |v| && v[i] == t }

  lemma IsMinAdd(m: Vec, vs: set<Vec>, v: Vec)
    requires IsMin(m, vs) && |v| == |m|
    ensures IsMin(MinV(m, v), vs + {v})
  {
    var m' := MinV(m, v);
    forall w | w in vs + {v}
      ensures Leq(m', w)
    {
      if w in vs { assert Leq(m, w); }
    }
    forall i | 0 <= i < |m'|
      ensures Attained(vs + {v}, i, m'[i])
    {
      assert Attained(vs, i, m[i]);
      var w :| w in vs && i < |w| && w[i] == m[i];
      if m'[i] == v[i] { assert v in vs + {v}; } else { assert w in vs + {v}; }
    }
  }

  /** The reports of the children of `p` that have reported in the current round. */
  ghost function Reports(cfg: Config, st: State, p: nat): set<Vec>
    requires Shape(cfg, st)
  {
    set c | 1 <= c < cfg.n && Parent(cfg.fanout, c) == p && Reported(cfg, st, c) :: st.report[c]
  }

  /** The last reports of all the children of `p`. */
  ghost function ChildReports(cfg: Config, st: State, p: nat): set<Vec>
    requires Shape(cfg, st)
  {
    set c | 1 <= c < cfg.n && Parent(cfg.fanout, c) == p :: st.report[c]
  }

  ghost predicate ExactAt(cfg: Config, st: State, p: nat)
    requires Shape(cfg, st) && p < cfg.n
  {
    Count(st.nodes[p].received) > 0 ==> IsMin(st.nodes[p].minLst, Reports(cfg, st, p))
  }

  ghost predicate ExactInv(cfg: Config, st: State)
    requires Shape(cfg, st)
  {
    && (forall c :: 1 <= c < cfg.n && st.up[c] != [] ==> st.up[c][0] == st.report[c])
    && (forall c :: 0 <= c < cfg.n ==> |st.report[c]| == cfg.dim && |st.nodes[c].minLst| == cfg.dim)
    && forall p :: 0 <= p < cfg.n ==> ExactAt(cfg, st, p)
  }

  ghost predicate SumDims(cfg: Config, sum: seq<Vec>) {
    |sum| == cfg.n && forall q :: 0 <= q < cfg.n ==> |sum[q]| == cfg.dim
  }

  lemma NoReports(cfg: Config, st: State, p: nat)
    requires RoundInv(cfg, st) && p < cfg.n && Count(st.nodes[p].received) == 0
    ensures Reports(cfg, st, p) == {}
  {
    CountBound(st.nodes[p].received, |st.nodes[p].received|);
    forall c | 1 <= c < cfg.n && Parent(cfg.fanout, c) == p
      ensures !Reported(cfg, st, c)
    {
    }
  }

  /** The running minimum after one more report. */
  lemma MergedExact(cfg: Config, st: State, c: nat)
    requires RoundInv(cfg, st) && ExactInv(cfg, st) && Enabled(cfg, st, DeliverLst(c))
    ensures var p := Parent(cfg.fanout, c);
      IsMin(Merged(st.nodes[p], st.up[c][0]), Reports(cfg, st, p) + {st.report[c]})
  {
    var p := Parent(cfg.fanout, c);
    assert ExactAt(cfg, st, p);
    if Count(st.nodes[p].received) == 0 {
      NoReports(cfg, st, p);
      assert st.report[c] in {st.report[c]};
      assert Reports(cfg, st, p) + {st.report[c]} == {st.report[c]};
    } else {
      IsMinAdd(st.nodes[p].minLst, Reports(cfg, st, p), st.up[c][0]);
    }
  }

  /** The minimum used at the end of a round is exact. */
  lemma CompleteExact(cfg: Config, st: State, sum: seq<Vec>, c: nat)
    requires RoundInv(cfg, st) && ExactInv(cfg, st) && SumDims(cfg, sum) && Enabled(cfg, st, DeliverLst(c))
    requires Completes(cfg, Parent(cfg.fanout, c), st.nodes[Parent(cfg.fanout, c)])
    ensures var p := Parent(cfg.fanout, c);
      IsMin(DoComplete(cfg, st, sum, c).nodes[p].minLst, ChildReports(cfg, st, p) + {sum[p]})
  {
    var p := Parent(cfg.fanout, c);
    var all := Reports(cfg, st, p) + {st.report[c]};
    MergedExact(cfg, st, c);
    AllOthersReported(cfg, st, c);
    forall v | v in ChildReports(cfg, st, p)
      ensures v in all
    {
      var d :| 1 <= d < cfg.n && Parent(cfg.fanout, d) == p && st.report[d] == v;
      if d != c { assert Reported(cfg, st, d); }
    }
    assert all == ChildReports(cfg, st, p);
    IsMinAdd(Merged(st.nodes[p], st.up[c][0]), all, sum[p]);
  }

  lemma SameReports(cfg: Config, st: State, st': State, p: nat)
    requires Shape(cfg, st) && Shape(cfg, st')
    requires forall c :: 1 <= c < cfg.n && Parent(cfg.fanout, c) == p ==> Reported(cfg, st', c) == Reported(cfg, st, c)
    requires forall c :: 1 <= c < cfg.n && Parent(cfg.fanout, c) == p && Reported(cfg, st, c) ==>
      st'.report[c] == st.report[c]
    ensures Reports(cfg, st', p) == Reports(cfg, st, p)
  {
    forall v | v in Reports(cfg, st, p)
      ensures v in Reports(cfg, st', p)
    {
      var c :| 1 <= c < cfg.n && Parent(cfg.fanout, c) == p && Reported(cfg, st, c) && st.report[c] == v;
      assert Reported(cfg, st', c) && st'.report[c] == v;
    }
    forall v | v in Reports(cfg, st', p)
      ensures v in Reports(cfg, st, p)
    {
      var c :| 1 <= c < cfg.n && Parent(cfg.fanout, c) == p && Reported(cfg, st', c) && st'.report[c] == v;
      assert Reported(cfg, st, c);
    }
  }

  lemma StartExact(cfg: Config, st: State, sum: seq<Vec>, c: nat)
    requires RoundInv(cfg, st) && ExactInv(cfg, st) && SumDims(cfg, sum) && Enabled(cfg, st, Start(c))
    ensures ExactInv(cfg, DoStart(cfg, st, sum, c))
  {
    var st' := DoStart(cfg, st, sum, c);
    StepRounds(cfg, st, sum, Start(c));
    if c > 0 {
      NoDoubleReport(cfg, st', c);
      assert st'.up[c] == [sum[c]];
    }
    forall p | 0 <= p < cfg.n
      ensures ExactAt(cfg, st', p)
    {
      assert ExactAt(cfg, st, p);
      SameReports(cfg, st, st', p);
    }
  }

  lemma CollectExact(cfg: Config, st: State, c: nat)
    requires RoundInv(cfg, st) && ExactInv(cfg, st) && Enabled(cfg, st, DeliverLst(c))
    ensures ExactInv(cfg, DoCollect(cfg, st, c))
  {
    var p := Parent(cfg.fanout, c);
    var st' := DoCollect(cfg, st, c);
    NoDoubleReport(cfg, st, c);
    MergedExact(cfg, st, c);
    CollectReports(cfg, st, c);
    forall q | 0 <= q < cfg.n
      ensures ExactAt(cfg, st', q)
    {
      assert ExactAt(cfg, st, q);
      if q != p { SameReports(cfg, st, st', q); }
    }
  }

  lemma CollectReports(cfg: Config, st: State, c: nat)
    requires RoundInv(cfg, st) && Enabled(cfg, st, DeliverLst(c))
    ensures var p := Parent(cfg.fanout, c);
      Reports(cfg, DoCollect(cfg, st, c), p) == Reports(cfg, st, p) + {st.report[c]}
  {
    var p := Parent(cfg.fanout, c);
    var st' := DoCollect(cfg, st, c);
    IndexBijection(cfg.fanout, cfg.n, p);
    forall d | 1 <= d < cfg.n && Parent(cfg.fanout, d) == p
      ensures Reported(cfg, st', d) <==> d == c || Reported(cfg, st, d)
    {
      assert IsChild(cfg.fanout, cfg.n, p, c) && IsChild(cfg.fanout, cfg.n, p, d);
    }
    assert Reported(cfg, st', c);
    assert st.report[c] in Reports(cfg, st', p);
    forall v | v in Reports(cfg, st, p)
      ensures v in Reports(cfg, st', p)
    {
      var d :| 1 <= d < cfg.n && Parent(cfg.fanout, d) == p && Reported(cfg, st, d) && st.report[d] == v;
      assert Reported(cfg, st', d);
    }
  }

  lemma CompleteKeepsExact(cfg: Config, st: State, sum: seq<Vec>, c: nat)
    requires RoundInv(cfg, st) && ExactInv(cfg, st) && SumDims(cfg, sum) && Enabled(cfg, st, DeliverLst(c))
    requires Completes(cfg, Parent(cfg.fanout, c), st.nodes[Parent(cfg.fanout, c)])
    ensures ExactInv(cfg, DoComplete(cfg, st, sum, c))
  {
    var p := Parent(cfg.fanout, c);
    var st' := DoComplete(cfg, st, sum, c);
    StepRounds(cfg, st, sum, DeliverLst(c));
    NoDoubleReport(cfg, st, c);
    if p > 0 { NoDoubleReport(cfg, st', p); }
    CountBound(st'.nodes[p].received, 0);
    forall q | 0 <= q < cfg.n
      ensures ExactAt(cfg, st', q)
    {
      if q != p { CompleteElsewhere(cfg, st, sum, c, q); }
    }
  }

  lemma CompleteElsewhere(cfg: Config, st: State, sum: seq<Vec>, c: nat, q: nat)
    requires RoundInv(cfg, st) && ExactInv(cfg, st) && SumDims(cfg, sum) && Enabled(cfg, st, DeliverLst(c))
    requires Completes(cfg, Parent(cfg.fanout, c), st.nodes[Parent(cfg.fanout, c)])
    requires RoundInv(cfg, DoComplete(cfg, st, sum, c)) && q < cfg.n && q != Parent(cfg.fanout, c)
    ensures ExactAt(cfg, DoComplete(cfg, st, sum, c), q)
  {
    var p := Parent(cfg.fanout, c);
    var st' := DoComplete(cfg, st, sum, c);
    if p > 0 { NoDoubleReport(cfg, st', p); }
    assert ExactAt(cfg, st, q);
    SameReports(cfg, st, st', q);
  }

  lemma OtherExact(cfg: Config, st: State, sum: seq<Vec>, a: Action)
    requires RoundInv(cfg, st) && ExactInv(cfg, st) && SumDims(cfg, sum) && Enabled(cfg, st, a)
    requires !a.Start? && !a.DeliverLst?
    ensures ExactInv(cfg, Apply(cfg, st, sum, a))
  {
    var st' := Apply(cfg, st, sum, a);
    assert st'.up == st.up && st'.report == st.report;
    forall p | 0 <= p < cfg.n
      ensures st'.nodes[p].received == st.nodes[p].received && st'.nodes[p].minLst == st.nodes[p].minLst
    {
    }
    forall p | 0 <= p < cfg.n
      ensures ExactAt(cfg, st', p)
    {
      assert ExactAt(cfg, st, p);
      SameReports(cfg, st, st', p);
    }
  }

  /** Every step keeps the running minima exact. */
  lemma StepExact(cfg: Config, st: State, sum: seq<Vec>, a: Action)
    requires RoundInv(cfg, st) && ExactInv(cfg, st) && SumDims(cfg, sum) && Enabled(cfg, st, a)
    ensures ExactInv(cfg, Apply(cfg, st, sum, a))
  {
    match a {
      case Start(c) => StartExact(cfg, st, sum, c);
      case DeliverLst(c) =>
        var p := Parent(cfg.fanout, c);
        if Completes(cfg, p, st.nodes[p]) { CompleteKeepsExact(cfg, st, sum, c); } else { CollectExact(cfg, st, c); }
      case _ => OtherExact(cfg, st, sum, a);
    }
  }

  lemma InitExact(cfg: Config, clients: nat)
    requires ValidConfig(cfg)
    ensures Shape(cfg, Init(cfg, clients)) && ExactInv(cfg, Init(cfg, clients))
  {
    var st := Init(cfg, clients);
    forall p | 0 <= p < cfg.n
      ensures ExactAt(cfg, st, p)
    {
      CountBound(st.nodes[p].received, 0);
    }
  }
}
