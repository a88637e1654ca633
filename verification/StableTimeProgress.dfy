/**
 What a round of the stable-time computation achieves: its minimum reaches every server,
 and from the round after the current one on the minimum covers whatever all servers have
 now. So a stable time is at most two rounds behind the version vectors of the replica.
 */
module StableTimeProgress {
  import opened Vectors
  import opened Tree
  import opened StableTime
  import opened StableTimeRounds
  import opened StableTimeSafety

  // ---- the minimum of a round reaches every server

  /** Rounds whose minimum the root has applied to its own stable time. */
  ghost function Updated(st: State): int { st.rootDone - if st.phase == Locking then 1 else 0 }

  ghost predicate RootReach(cfg: Config, st: State)
    requires Shape(cfg, st)
  {
    && |st.minima| == st.rootDone && (forall j :: 0 <= j < |st.minima| ==> |st.minima[j]| == cfg.dim)
    && (forall j :: 0 <= j < Updated(st) && j < |st.minima| ==> Leq(st.minima[j], st.nodes[0].gst))
    && (st.phase == Locking ==> st.rootDone > 0 && st.minima[st.rootDone - 1] == st.nodes[0].minLst)
  }

  ghost predicate CarriesAt(minima: seq<Vec>, n: int, v: Vec) { 0 <= n < |minima| && Leq(minima[n], v) }

  /** The i-th stable time of `vs` is at least the minimum of round number `from` + i. */
  ghost predicate Carries(minima: seq<Vec>, from: int, vs: seq<Vec>) {
    forall i :: 0 <= i < |vs| ==> CarriesAt(minima, from + i, vs[i])
  }

  /** What node `c` has applied, received and will receive. */
  ghost predicate NodeReach(cfg: Config, st: State, c: nat)
    requires Shape(cfg, st) && c < cfg.n
  {
    && st.got[c] <= |st.minima|
    && (forall j :: 0 <= j < st.got[c] ==> Leq(st.minima[j], st.nodes[c].gst))
    && Carries(st.minima, st.got[c], st.inbox[c]) && Carries(st.minima, st.got[c] + |st.inbox[c]|, st.down[c])
  }

  ghost predicate Reach(cfg: Config, st: State)
    requires Shape(cfg, st)
  {
    RootReach(cfg, st) && forall c :: 1 <= c < cfg.n ==> NodeReach(cfg, st, c)
  }

  lemma InitReach(cfg: Config, clients: nat)
    requires ValidConfig(cfg)
    ensures Shape(cfg, Init(cfg, clients)) && Reach(cfg, Init(cfg, clients))
  {
  }

  lemma CarriesMore(minima: seq<Vec>, minima': seq<Vec>, from: int, vs: seq<Vec>)
    requires Carries(minima, from, vs) && minima <= minima'
    ensures Carries(minima', from, vs)
  {
    forall i | 0 <= i < |vs|
      ensures CarriesAt(minima', from + i, vs[i])
    {
      assert CarriesAt(minima, from + i, vs[i]) && minima'[from + i] == minima[from + i];
    }
  }

  /** Growing stable times and more minima keep what was reached. */
  lemma NodeKeeps(cfg: Config, st: State, st': State, c: nat)
    requires Shape(cfg, st) && Shape(cfg, st') && c < cfg.n && NodeReach(cfg, st, c) && st.minima <= st'.minima
    requires st'.got[c] == st.got[c] && st'.inbox[c] == st.inbox[c] && st'.down[c] == st.down[c]
    requires Leq(st.nodes[c].gst, st'.nodes[c].gst)
    ensures NodeReach(cfg, st', c)
  {
    forall j | 0 <= j < st'.got[c]
      ensures Leq(st'.minima[j], st'.nodes[c].gst)
    {
      assert st'.minima[j] == st.minima[j];
      LeqTrans(st.minima[j], st.nodes[c].gst, st'.nodes[c].gst);
    }
    CarriesMore(st.minima, st'.minima, st.got[c], st.inbox[c]);
    CarriesMore(st.minima, st'.minima, st.got[c] + |st.inbox[c]|, st.down[c]);
  }

  /** A stable time that carries round number `got` + |inbox| + |down| joins the channel. */
  lemma NodeSent(cfg: Config, st: State, st': State, c: nat, v: Vec)
    requires Shape(cfg, st) && Shape(cfg, st') && c < cfg.n && NodeReach(cfg, st, c) && st'.minima == st.minima
    requires st'.got[c] == st.got[c] && st'.inbox[c] == st.inbox[c] && st'.down[c] == st.down[c] + [v]
    requires st'.nodes[c].gst == st.nodes[c].gst
    requires var i := st.got[c] + |st.inbox[c]| + |st.down[c]|; i < |st.minima| && Leq(st.minima[i], v)
    ensures NodeReach(cfg, st', c)
  {
  }

  lemma CompleteReach(cfg: Config, st: State, sum: seq<Vec>, c: nat)
    requires RoundInv(cfg, st) && Safe(cfg, st, sum) && Reach(cfg, st) && Enabled(cfg, st, DeliverLst(c))
    requires Completes(cfg, Parent(cfg.fanout, c), st.nodes[Parent(cfg.fanout, c)])
    ensures Reach(cfg, DoComplete(cfg, st, sum, c))
  {
    var st' := DoComplete(cfg, st, sum, c);
    NoDoubleReport(cfg, st, c);
    assert AllCover(cfg, st.up[c], c, sum);
    forall d | 1 <= d < cfg.n ensures NodeReach(cfg, st', d) { NodeKeeps(cfg, st, st', d); }
  }

  lemma RootUpdateReach(cfg: Config, st: State, sum: seq<Vec>)
    requires RoundInv(cfg, st) && Safe(cfg, st, sum) && Reach(cfg, st) && Enabled(cfg, st, RootUpdate)
    ensures Reach(cfg, DoRootUpdate(cfg, st))
  {
    var st' := DoRootUpdate(cfg, st);
    assert Below(st.nodes[0].gst, sum) && Leq(st.nodes[0].gst, sum[0]);
    assert Leq(st.nodes[0].gst, st'.nodes[0].gst) && Leq(st.nodes[0].minLst, st'.nodes[0].gst);
    forall j | 0 <= j < Updated(st')
      ensures Leq(st'.minima[j], st'.nodes[0].gst)
    {
      if j < Updated(st) { LeqTrans(st.minima[j], st.nodes[0].gst, st'.nodes[0].gst); }
    }
    forall d | 1 <= d < cfg.n ensures NodeReach(cfg, st', d) { NodeKeeps(cfg, st, st', d); }
  }

  lemma RootSendReach(cfg: Config, st: State)
    requires RoundInv(cfg, st) && Reach(cfg, st) && Enabled(cfg, st, RootSend)
    ensures Reach(cfg, DoRootSend(cfg, st))
  {
    var st' := DoRootSend(cfg, st);
    forall d | 1 <= d < cfg.n
      ensures NodeReach(cfg, st', d)
    {
      assert Edge(cfg, st, d) && NodeReach(cfg, st, d);
      if Parent(cfg.fanout, d) == 0 { NodeSent(cfg, st, st', d, st.nodes[0].gst); }
      else { NodeKeeps(cfg, st, st', d); }
    }
  }

  lemma DeliverGstReach(cfg: Config, st: State, c: nat)
    requires RoundInv(cfg, st) && Reach(cfg, st) && Enabled(cfg, st, DeliverGst(c))
    ensures Reach(cfg, DoDeliverGst(cfg, st, c))
  {
    var st' := DoDeliverGst(cfg, st, c);
    assert Edge(cfg, st, c) && NodeReach(cfg, st, c);
    forall d | 1 <= d < cfg.n
      ensures NodeReach(cfg, st', d)
    {
      assert Edge(cfg, st, d) && NodeReach(cfg, st, d);
      if d == c { ShiftIn(st.minima, st.got[c], st.inbox[c], st.down[c]); }
      else { DeliverOther(cfg, st, st', c, d); }
    }
  }

  lemma DeliverOther(cfg: Config, st: State, st': State, c: nat, d: nat)
    requires Shape(cfg, st) && Enabled(cfg, st, DeliverGst(c)) && st' == DoDeliverGst(cfg, st, c) && 1 <= d < cfg.n
    requires d != c && Edge(cfg, st, d) && NodeReach(cfg, st, c) && NodeReach(cfg, st, d)
    ensures NodeReach(cfg, st', d)
  {
    assert CarriesAt(st.minima, st.got[c] + |st.inbox[c]| + 0, st.down[c][0]);
    if cfg.forwardFirst && Parent(cfg.fanout, d) == c { NodeSent(cfg, st, st', d, st.down[c][0]); }
    else { NodeKeeps(cfg, st, st', d); }
  }

  /** The head of `b` moves to the end of `a`. */
  lemma ShiftIn(minima: seq<Vec>, from: nat, a: seq<Vec>, b: seq<Vec>)
    requires b != [] && Carries(minima, from, a) && Carries(minima, from + |a|, b)
    ensures Carries(minima, from, a + [b[0]]) && Carries(minima, from + |a| + 1, b[1..])
  {
    var rest := b[1..];
    forall i | 0 <= i < |rest|
      ensures CarriesAt(minima, from + |a| + 1 + i, rest[i])
    {
      assert rest[i] == b[i + 1] && CarriesAt(minima, from + |a| + (i + 1), b[i + 1]);
    }
    assert CarriesAt(minima, from + |a| + 0, b[0]);
  }

  lemma ApplyGstReach(cfg: Config, st: State, sum: seq<Vec>, c: nat)
    requires RoundInv(cfg, st) && Safe(cfg, st, sum) && Reach(cfg, st) && Enabled(cfg, st, ApplyGst(c))
    ensures Reach(cfg, DoApplyGst(cfg, st, c))
  {
    var st' := DoApplyGst(cfg, st, c);
    assert Edge(cfg, st, c) && NodeReach(cfg, st, c);
    forall d | 1 <= d < cfg.n
      ensures NodeReach(cfg, st', d)
    {
      assert Edge(cfg, st, d) && NodeReach(cfg, st, d);
      if d == c {
        assert Below(st.nodes[c].gst, sum) && AllBelow(st.inbox[c], sum);
        ApplySizes(st.nodes[c].gst, st.inbox[c][0], sum);
        ApplyNode(cfg, st, st', c);
      } else {
        ApplyOther(cfg, st, st', c, d);
      }
    }
  }

  lemma ApplySizes(a: Vec, b: Vec, sum: seq<Vec>)
    requires Below(a, sum) && Below(b, sum) && |sum| > 0
    ensures |a| == |b|
  {
    assert Leq(a, sum[0]) && Leq(b, sum[0]);
  }

  lemma ApplyOther(cfg: Config, st: State, st': State, c: nat, d: nat)
    requires Shape(cfg, st) && Enabled(cfg, st, ApplyGst(c)) && st' == DoApplyGst(cfg, st, c) && 1 <= d < cfg.n
    requires d != c
    requires Edge(cfg, st, d) && NodeReach(cfg, st, c) && NodeReach(cfg, st, d)
    ensures NodeReach(cfg, st', d)
  {
    assert CarriesAt(st.minima, st.got[c] + 0, st.inbox[c][0]);
    if !cfg.forwardFirst && Parent(cfg.fanout, d) == c { NodeSent(cfg, st, st', d, st.inbox[c][0]); }
    else { NodeKeeps(cfg, st, st', d); }
  }

  lemma ApplyNode(cfg: Config, st: State, st': State, c: nat)
    requires Shape(cfg, st) && Enabled(cfg, st, ApplyGst(c)) && st' == DoApplyGst(cfg, st, c) && NodeReach(cfg, st, c)
    requires |st.nodes[c].gst| == |st.inbox[c][0]| && st'.down[c] == st.down[c]
    ensures NodeReach(cfg, st', c)
  {
    var v, inbox := st.inbox[c][0], st.inbox[c];
    assert CarriesAt(st.minima, st.got[c] + 0, inbox[0]);
    forall j | 0 <= j < st'.got[c]
      ensures Leq(st'.minima[j], st'.nodes[c].gst)
    {
      if j < st.got[c] { LeqTrans(st.minima[j], st.nodes[c].gst, st'.nodes[c].gst); }
      else { LeqTrans(st.minima[j], v, st'.nodes[c].gst); }
    }
    var none: seq<Vec> := [];
    ShiftIn(st.minima, st.got[c], none, inbox);
    assert inbox[1..] == st'.inbox[c];
  }

  /** Steps that touch neither the rounds nor what travels down. */
  lemma OtherReach(cfg: Config, st: State, sum: seq<Vec>, a: Action)
    requires RoundInv(cfg, st) && Safe(cfg, st, sum) && Reach(cfg, st) && Enabled(cfg, st, a)
    requires a.Start? || a.Raise? || a.Publish? || a.ClientReceive? || a.ClientSend?
    ensures Reach(cfg, Apply(cfg, st, sum, a))
  {
    var st' := Apply(cfg, st, sum, a);
    forall p | 0 <= p < cfg.n ensures Leq(st.nodes[p].gst, st'.nodes[p].gst) { StepMonotone(cfg, st, sum, a, p); }
    forall j | 0 <= j < Updated(st')
      ensures Leq(st'.minima[j], st'.nodes[0].gst)
    {
      LeqTrans(st.minima[j], st.nodes[0].gst, st'.nodes[0].gst);
    }
    forall d | 1 <= d < cfg.n ensures NodeReach(cfg, st', d) { NodeKeeps(cfg, st, st', d); }
  }

  lemma CollectReach(cfg: Config, st: State, c: nat)
    requires RoundInv(cfg, st) && Reach(cfg, st) && Enabled(cfg, st, DeliverLst(c))
    requires forall p :: 0 <= p < cfg.n ==> |st.nodes[p].gst| == cfg.dim
    ensures Reach(cfg, DoCollect(cfg, st, c))
  {
    var st' := DoCollect(cfg, st, c);
    NoDoubleReport(cfg, st, c);
    forall d | 1 <= d < cfg.n ensures NodeReach(cfg, st', d) { NodeKeeps(cfg, st, st', d); }
  }

  /** Every step keeps: the minimum of a round is at most every stable time that has applied it, or will. */
  lemma StepReach(cfg: Config, st: State, sum: seq<Vec>, a: Action)
    requires RoundInv(cfg, st) && Safe(cfg, st, sum) && Reach(cfg, st) && Enabled(cfg, st, a)
    ensures Reach(cfg, Apply(cfg, st, sum, a))
  {
    match a {
      case DeliverLst(c) =>
        if Completes(cfg, Parent(cfg.fanout, c), st.nodes[Parent(cfg.fanout, c)]) { CompleteReach(cfg, st, sum, c); }
        else {
          assert forall p :: 0 <= p < cfg.n ==> Below(st.nodes[p].gst, sum) && Leq(st.nodes[p].gst, sum[0]);
          CollectReach(cfg, st, c);
        }
      case RootUpdate => RootUpdateReach(cfg, st, sum);
      case RootSend => RootSendReach(cfg, st);
      case DeliverGst(c) => DeliverGstReach(cfg, st, c);
      case ApplyGst(c) => ApplyGstReach(cfg, st, sum, c);
      case _ => OtherReach(cfg, st, sum, a);
    }
  }

  // ---- the minimum of a later round covers what all servers have now

  /**
   Whatever belongs to round number `m` or a later one is at least `b`: reports under way,
   running minima and completed minima.
   */
  ghost predicate Fresh(cfg: Config, st: State, m: nat, b: Vec)
    requires Shape(cfg, st)
  {
    && (forall j :: m <= j < |st.minima| ==> Leq(b, st.minima[j]))
    && (forall c :: 1 <= c < cfg.n && st.sent[c] > m && st.up[c] != [] ==> Leq(b, st.up[c][0]))
    && forall p :: 0 <= p < cfg.n && Rounds(st, p) >= m && Count(st.nodes[p].received) > 0 ==>
      Leq(b, st.nodes[p].minLst)
  }

  /** No node has passed on more stable times than the root has sent. */
  lemma {:induction false} PassedBound(cfg: Config, st: State, p: nat)
    requires RoundInv(cfg, st) && p < cfg.n
    ensures Passed(cfg, st, p) <= st.rootSends
    decreases p
  {
    if p > 0 {
      assert Edge(cfg, st, p);
      PassedBound(cfg, st, Parent(cfg.fanout, p));
    }
  }

  /** Nobody has reported for the round after the next one. */
  lemma SentBound(cfg: Config, st: State, c: nat)
    requires RoundInv(cfg, st) && 1 <= c < cfg.n
    ensures st.sent[c] <= st.rootSends + 1
  {
    assert Edge(cfg, st, c);
    PassedBound(cfg, st, c);
  }

  /** A marked slot belongs to a child that has reported. */
  lemma SomeoneReported(cfg: Config, st: State, p: nat) returns (c: nat)
    requires RoundInv(cfg, st) && p < cfg.n && Count(st.nodes[p].received) > 0
    ensures 1 <= c < cfg.n && Parent(cfg.fanout, c) == p && Reported(cfg, st, c)
  {
    var bits := st.nodes[p].received;
    CountBound(bits, |bits|);
    var i :| 0 <= i < |bits| && bits[i];
    assert BitsAt(cfg, p, st.nodes[p]);
    IndexBijection(cfg.fanout, cfg.n, p);
    c := ChildAt(cfg.fanout, p, i);
    assert IsChild(cfg.fanout, cfg.n, p, c) && ChildIndex(cfg.fanout, c) == i;
  }

  lemma FreshStarts(cfg: Config, st: State, b: Vec)
    requires RoundInv(cfg, st) && |st.minima| == st.rootDone
    ensures Fresh(cfg, st, st.rootSends + 1, b)
  {
    forall c | 1 <= c < cfg.n ensures st.sent[c] <= st.rootSends + 1 { SentBound(cfg, st, c); }
    forall p | 0 <= p < cfg.n && Count(st.nodes[p].received) > 0
      ensures Rounds(st, p) < st.rootSends + 1
    {
      var c := SomeoneReported(cfg, st, p);
      assert Edge(cfg, st, c);
    }
  }

  /** The running minimum after one more report of the current round of `p`. */
  lemma MergedFresh(cfg: Config, st: State, c: nat, m: nat, b: Vec)
    requires RoundInv(cfg, st) && Fresh(cfg, st, m, b) && Enabled(cfg, st, DeliverLst(c))
    requires var p := Parent(cfg.fanout, c);
      Rounds(st, p) >= m && |st.nodes[p].minLst| == |st.up[c][0]|
    ensures Leq(b, Merged(st.nodes[Parent(cfg.fanout, c)], st.up[c][0]))
  {
    var p := Parent(cfg.fanout, c);
    NoDoubleReport(cfg, st, c);
    assert Edge(cfg, st, c);
    assert Leq(b, st.up[c][0]);
    if Count(st.nodes[p].received) > 0 { MinAbove(b, st.nodes[p].minLst, st.up[c][0]); }
  }

  lemma MinAbove(b: Vec, x: Vec, y: Vec)
    requires Leq(b, x) && Leq(b, y)
    ensures Leq(b, MinV(x, y))
  {
  }

  lemma CollectFresh(cfg: Config, st: State, c: nat, m: nat, b: Vec)
    requires RoundInv(cfg, st) && Fresh(cfg, st, m, b) && Enabled(cfg, st, DeliverLst(c))
    requires |st.nodes[Parent(cfg.fanout, c)].minLst| == |st.up[c][0]|
    ensures Fresh(cfg, DoCollect(cfg, st, c), m, b)
  {
    NoDoubleReport(cfg, st, c);
    if Rounds(st, Parent(cfg.fanout, c)) >= m { MergedFresh(cfg, st, c, m, b); }
  }

  lemma CompleteFresh(cfg: Config, st: State, sum: seq<Vec>, c: nat, m: nat, b: Vec)
    requires RoundInv(cfg, st) && Fresh(cfg, st, m, b) && Enabled(cfg, st, DeliverLst(c)) && |st.minima| == st.rootDone
    requires |sum| == cfg.n && Completes(cfg, Parent(cfg.fanout, c), st.nodes[Parent(cfg.fanout, c)])
    requires var p := Parent(cfg.fanout, c); |st.nodes[p].minLst| == |st.up[c][0]| == |sum[p]| && Leq(b, sum[p])
    ensures Fresh(cfg, DoComplete(cfg, st, sum, c), m, b)
  {
    var p, st' := Parent(cfg.fanout, c), DoComplete(cfg, st, sum, c);
    NoDoubleReport(cfg, st, c);
    if Rounds(st, p) >= m {
      MergedFresh(cfg, st, c, m, b);
      MinAbove(b, Merged(st.nodes[p], st.up[c][0]), sum[p]);
      assert Leq(b, st'.nodes[p].minLst);
    }
    CountBound(st'.nodes[p].received, 0);
    StepRounds(cfg, st, sum, DeliverLst(c));
    if p > 0 {
      NoDoubleReport(cfg, st', p);
      assert st'.up[p] == [st'.nodes[p].minLst];
    }
  }

  lemma StartFresh(cfg: Config, st: State, sum: seq<Vec>, c: nat, m: nat, b: Vec)
    requires RoundInv(cfg, st) && Fresh(cfg, st, m, b) && Enabled(cfg, st, Start(c)) && |sum| == cfg.n && Leq(b, sum[c])
    ensures Fresh(cfg, DoStart(cfg, st, sum, c), m, b)
  {
    if c > 0 {
      StartReport(cfg, st, sum, c);
      LeafUnmarked(cfg, st, c);
    }
  }

  lemma StartReport(cfg: Config, st: State, sum: seq<Vec>, c: nat)
    requires RoundInv(cfg, st) && Enabled(cfg, st, Start(c)) && |sum| == cfg.n && c > 0
    ensures DoStart(cfg, st, sum, c).up[c] == [sum[c]]
  {
    StepRounds(cfg, st, sum, Start(c));
    NoDoubleReport(cfg, DoStart(cfg, st, sum, c), c);
  }

  lemma LeafUnmarked(cfg: Config, st: State, c: nat)
    requires RoundInv(cfg, st) && Enabled(cfg, st, Start(c)) && c > 0
    ensures Count(st.nodes[c].received) == 0
  {
    assert Edge(cfg, st, c);
    LeafHasNoChild(cfg.fanout, cfg.n, c);
    if Count(st.nodes[c].received) > 0 {
      var d := SomeoneReported(cfg, st, c);
      assert IsChild(cfg.fanout, cfg.n, c, d);
    }
  }

  lemma OtherFresh(cfg: Config, st: State, sum: seq<Vec>, a: Action, m: nat, b: Vec)
    requires Shape(cfg, st) && Fresh(cfg, st, m, b) && |sum| == cfg.n && Enabled(cfg, st, a) && !a.Start?
    requires !a.DeliverLst?
    ensures Fresh(cfg, Apply(cfg, st, sum, a), m, b)
  {
    var st' := Apply(cfg, st, sum, a);
    assert st'.up == st.up && st'.sent == st.sent && st'.rootDone == st.rootDone && st'.minima == st.minima;
    forall p | 0 <= p < cfg.n
      ensures st'.nodes[p].received == st.nodes[p].received && st'.nodes[p].minLst == st.nodes[p].minLst
    {
    }
  }

  /** As long as all summaries are at least `b`, so is everything of round `m` or later. */
  lemma StepFresh(cfg: Config, st: State, sum: seq<Vec>, a: Action, m: nat, b: Vec)
    requires RoundInv(cfg, st) && Safe(cfg, st, sum) && Fresh(cfg, st, m, b) && Enabled(cfg, st, a)
    requires |st.minima| == st.rootDone && Below(b, sum)
    ensures Fresh(cfg, Apply(cfg, st, sum, a), m, b)
  {
    match a {
      case Start(c) =>
        assert Leq(b, sum[c]);
        StartFresh(cfg, st, sum, c, m, b);
      case DeliverLst(c) =>
        var p := Parent(cfg.fanout, c);
        assert AllCover(cfg, st.up[c], c, sum) && |st.up[c][0]| == cfg.dim && Leq(b, sum[p]);
        if Completes(cfg, p, st.nodes[p]) { CompleteFresh(cfg, st, sum, c, m, b); }
        else { CollectFresh(cfg, st, c, m, b); }
      case _ => OtherFresh(cfg, st, sum, a, m, b);
    }
  }

  // ---- what messages carry

  /**
   Stable times also travel with requests and responses: a server or client that receives
   one has at least it afterwards, in each entry either its own or the received one, and
   what is sent is what the sender has. With one partition a round is a single step.
   */
  lemma Spreads(cfg: Config, st: State, sum: seq<Vec>, a: Action)
    requires RoundInv(cfg, st) && Safe(cfg, st, sum) && Enabled(cfg, st, a)
    ensures var st' := Apply(cfg, st, sum, a);
      match a
      case Raise(p, v) => Joined(st.nodes[p].gst, v, st'.nodes[p].gst)
      case ClientReceive(k, v) => Joined(st.clients[k], v, st'.clients[k])
      case Publish(p) => st'.known == st.known + {st.nodes[p].gst}
      case ClientSend(k) => st'.known == st.known + {st.clients[k]}
      case Start(c) => c == 0 ==> Joined(st.nodes[0].gst, sum[0], st'.nodes[0].gst)
      case _ => st'.known == st.known && st'.clients == st.clients
  {
    assert forall p :: 0 <= p < cfg.n ==> Below(st.nodes[p].gst, sum) && Leq(st.nodes[p].gst, sum[0]);
    match a {
      case Raise(p, v) => assert Below(v, sum) && Leq(v, sum[0]);
      case ClientReceive(k, v) =>
        assert Below(v, sum) && Leq(v, sum[0]);
        assert Below(st.clients[k], sum) && Leq(st.clients[k], sum[0]);
      case _ =>
    }
  }

  /** `c` is the entry-wise maximum of `a` and `b`. */
  ghost predicate Joined(a: Vec, b: Vec, c: Vec) {
    Leq(a, c) && Leq(b, c) && forall i :: 0 <= i < |c| ==> c[i] == a[i] || c[i] == b[i]
  }
}
