/**
 Read-only transactions of GentleRain Vector next to a run of the store (System): every
 slice is read from the store of its server in the state in which it is served, at the
 stable vector of that server with its clock in the own entry, once both have reached
 what the request carries (src/server/protocols/grv/rotx.c:43-109 and
 src/server/protocols/grv/slice.c:14-78).

 Whatever a transaction returns, everything it depends on is at the replica, and it returns
 at least the cut at which it started. It need not be one snapshot.
 */
module GrvTransactions {
  import opened Vectors
  import opened Store
  import opened Replication
  import ReplicaGroup
  import Convergence
  import SingleCore
  import StableTimeSafety
  import System
  import Guarantees
  import T = Transactions
  import TR = TransactionRuns

  /** A run of the store and the server (replica `r`, partition `p`) that coordinates. */
  datatype Env = Env(cfg: System.Config, ss: seq<System.State>, acts: seq<System.Action>, r: nat, p: nat)

  ghost predicate ValidEnv(e: Env) {
    System.Run(e.cfg, e.ss, e.acts) && e.cfg.policy == Grv && e.r < e.cfg.replicas && e.p < e.cfg.partitions
  }

  function Conf(e: Env): T.Config { T.Config(e.cfg.partitions, e.cfg.replicas) }

  ghost function StoreIn(e: Env, at: nat, q: nat): Items
    requires ValidEnv(e) && at < |e.ss| && q < e.cfg.partitions
  {
    System.RunShape(e.cfg, e.ss, e.acts, at);
    System.StoreAt(e.cfg, e.ss[at], e.r, q)
  }

  ghost function ClockIn(e: Env, at: nat, q: nat): Time
    requires ValidEnv(e) && at < |e.ss| && q < e.cfg.partitions
  {
    System.RunShape(e.cfg, e.ss, e.acts, at);
    e.ss[at].groups[q][e.r].clock
  }

  ghost function GstIn(e: Env, at: nat, q: nat): (v: Vec)
    requires ValidEnv(e) && at < |e.ss| && q < e.cfg.partitions
    ensures |v| == e.cfg.replicas
  {
    GstCovered(e, at, q);
    System.Gst(e.cfg, e.ss[at], e.r, q)
  }

  /** A stable vector is below all version vectors of the replica. */
  lemma GstCovered(e: Env, at: nat, q: nat)
    requires ValidEnv(e) && at < |e.ss| && q < e.cfg.partitions
    ensures System.Shape(e.cfg, e.ss[at]) && |System.Gst(e.cfg, e.ss[at], e.r, q)| == e.cfg.replicas
    ensures Guarantees.Covered(e.cfg, e.ss[at], e.r, System.Gst(e.cfg, e.ss[at], e.r, q))
  {
    System.StableTimeSafe(e.cfg, e.ss, e.acts, at, e.r);
    var gst := System.Gst(e.cfg, e.ss[at], e.r, q);
    assert System.IsStable(e.cfg, e.ss[at], e.r, gst);
    assert System.BelowVector(Grv, gst, System.VersionVector(e.cfg, e.ss[at], e.r, q));
    forall q' | 0 <= q' < e.cfg.partitions
      ensures Leq(gst, System.VersionVector(e.cfg, e.ss[at], e.r, q'))
    {
      assert System.BelowVector(Grv, gst, System.VersionVector(e.cfg, e.ss[at], e.r, q'));
    }
  }

  /** The vector of a slice: the stable vector of the server, with its clock as the own entry. */
  ghost function TimesIn(e: Env, at: nat, q: nat, clock: Time): (v: Vec)
    requires ValidEnv(e) && at < |e.ss| && q < e.cfg.partitions
    ensures |v| == e.cfg.replicas
  {
    GstIn(e, at, q)[e.r := clock]
  }

  // ---- the machine

  /** The client's vector and dependency time, and the coordinator's vector and snapshot time, at the start. */
  datatype Cut = Cut(known: Vec, dep: Time, gst: Vec, time: Time, at: nat)

  /** A slice was read in state `at` of the store, when the clock of its server was `clock`. */
  datatype Served = Served(at: nat, clock: Time)

  /** `now` is the current state of the store; `cuts` and `served`, by transaction and partition, are history. */
  datatype State = State(tr: TR.State, now: nat, cuts: seq<Cut>, served: map<(nat, nat), Served>)

  const Init := State(TR.Init, 0, [], map[])

  datatype Action =
    | Elapse
    | Start(client: nat, keys: seq<nat>, known: Vec, dep: Time, clock: Time)
    | Serve(i: nat, clock: Time)
    | Collect(i: nat)

  /** The server has raised its stable vector to the one of the request and waited for its clock. */
  ghost predicate CanServe(e: Env, s: State, i: nat, clock: Time)
    requires ValidEnv(e) && s.now < |e.ss|
  {
    && i < |s.tr.net| && s.tr.net[i].Request? && |s.tr.net[i].keys| == |s.tr.net[i].ids| &&
      TR.Live(s.tr, s.tr.net[i].id)
    && var q, tx := s.tr.net[i].part, s.tr.slots[s.tr.net[i].id].value.tx;
    && q < e.cfg.partitions && tx < |s.cuts|
    && Leq(s.cuts[tx].gst, GstIn(e, s.now, q)) && s.cuts[tx].time <= clock && ClockIn(e, s.now, q) <= clock
  }

  ghost predicate Next(e: Env, s: State, a: Action, s': State)
    requires ValidEnv(e)
  {
    && s.now < |e.ss|
    && match a
       case Elapse => s.now + 1 < |e.ss| && s' == s.(now := s.now + 1)
       // the coordinator has raised its stable vector to that of the client
       case Start(client, keys, known, dep, clock) =>
         && Leq(known, GstIn(e, s.now, e.p)) && ClockIn(e, s.now, e.p) <= clock
         && s' == s.(tr := TR.DoStart(Conf(e), s.tr, client, keys),
           cuts := s.cuts + [Cut(known, dep, GstIn(e, s.now, e.p), Max(clock, dep), s.now)])
       case Serve(i, clock) =>
         && CanServe(e, s, i, clock)
         && var q, tx := s.tr.net[i].part, s.tr.slots[s.tr.net[i].id].value.tx;
            s' == s.(tr := TR.DoServe(s.tr, i, StoreIn(e, s.now, q), TimesIn(e, s.now, q, clock)),
              served := s.served[(tx, q) := Served(s.now, clock)])
       case Collect(i) => TR.Next(Conf(e), s.tr, TR.Collect(i), s'.tr) && s' == s.(tr := s'.tr)
  }

  // ---- invariant

  ghost predicate CutOk(e: Env, s: State, cut: Cut)
    requires ValidEnv(e) && s.now < |e.ss|
  {
    cut.at <= s.now && cut.gst == GstIn(e, cut.at, e.p) && Leq(cut.known, cut.gst) && cut.dep <= cut.time
  }

  ghost predicate ServedOk(e: Env, s: State, cut: Cut, q: nat, sv: Served)
    requires ValidEnv(e) && s.now < |e.ss| && q < e.cfg.partitions
  {
    && cut.at <= sv.at <= s.now && Leq(cut.gst, GstIn(e, sv.at, q))
    && cut.time <= sv.clock && ClockIn(e, sv.at, q) <= sv.clock
  }

  /** The read for index `k` of transaction `tx` is that of its slice. */
  ghost predicate ReadOk(e: Env, s: State, tx: nat, k: nat)
    requires ValidEnv(e) && s.now < |e.ss|
  {
    && tx < |s.cuts| == |s.tr.started| && k < |s.tr.started[tx].keys| && (tx, k) in s.tr.performed
    && var key := s.tr.started[tx].keys[k];
    && var q := T.Owner(Conf(e), key);
    && q < e.cfg.partitions && (tx, q) in s.served
    && var sv := s.served[(tx, q)];
    && ServedOk(e, s, s.cuts[tx], q, sv)
    && s.tr.performed[(tx, k)] == T.ReadOf(StoreIn(e, sv.at, q), key, TimesIn(e, sv.at, q, sv.clock))
  }

  ghost predicate Fits(e: Env, s: State) {
    && ValidEnv(e) && s.now < |e.ss| && |s.cuts| == |s.tr.started|
    && forall tx :: 0 <= tx < |s.cuts| ==> CutOk(e, s, s.cuts[tx])
  }

  ghost predicate Inv(e: Env, s: State) {
    && Fits(e, s) && TR.Inv(Conf(e), s.tr)
    && forall tx, k :: (tx, k) in s.tr.performed ==> ReadOk(e, s, tx, k)
  }

  /** Stored versions come from existing replicas. */
  lemma StoreSourced(e: Env, at: nat, q: nat)
    requires ValidEnv(e) && at < |e.ss| && q < e.cfg.partitions
    ensures TR.Sourced(Conf(e), StoreIn(e, at, q))
  {
    System.RunInv(e.cfg, e.ss, e.acts, at);
    var g := e.ss[at].groups[q];
    var items: Items := StoreIn(e, at, q);
    assert SingleCore.Inv(Grv, g) && Convergence.OriginInv(g);
    forall k: nat, i | k in items && 0 <= i < |items[k]|
      ensures items[k][i].source < e.cfg.replicas
    {
      assert items[k][i] in ChainOf(items, k);
      assert Convergence.Origin(g, e.r, k, items[k][i]);
    }
  }

  /** What was read stays read. */
  lemma ReadKeeps(e: Env, s: State, s': State, tx: nat, k: nat)
    requires ValidEnv(e) && s.now <= s'.now < |e.ss| && ReadOk(e, s, tx, k)
    requires s.cuts <= s'.cuts && s.tr.started <= s'.tr.started && |s'.cuts| == |s'.tr.started|
    requires (tx, k) in s'.tr.performed && s'.tr.performed[(tx, k)] == s.tr.performed[(tx, k)]
    requires var q := T.Owner(Conf(e), s.tr.started[tx].keys[k]);
      (tx, q) in s'.served && s'.served[(tx, q)] == s.served[(tx, q)]
    ensures ReadOk(e, s', tx, k)
  {
  }

  lemma QuietInv(e: Env, s: State, s': State)
    requires Inv(e, s) && Fits(e, s') && TR.Inv(Conf(e), s'.tr) && s.now <= s'.now
    requires s.cuts <= s'.cuts && s.tr.started <= s'.tr.started && s'.tr.performed == s.tr.performed
    requires s'.served == s.served
    ensures Inv(e, s')
  {
    forall tx, k | (tx, k) in s'.tr.performed
      ensures ReadOk(e, s', tx, k)
    {
      assert ReadOk(e, s, tx, k);
      ReadKeeps(e, s, s', tx, k);
    }
  }

  // ---- steps

  lemma StartInv(e: Env, s: State, a: Action, s': State)
    requires Inv(e, s) && a.Start? && Next(e, s, a, s')
    ensures Inv(e, s')
  {
    TR.StartInv(Conf(e), s.tr, a.client, a.keys);
    StartFits(e, s, a, s');
    QuietInv(e, s, s');
  }

  lemma StartFits(e: Env, s: State, a: Action, s': State)
    requires Fits(e, s) && a.Start? && Next(e, s, a, s')
    ensures Fits(e, s')
  {
    forall tx | 0 <= tx < |s'.cuts|
      ensures CutOk(e, s', s'.cuts[tx])
    {
      if tx < |s.cuts| { assert CutOk(e, s, s.cuts[tx]); }
    }
  }

  /** An earlier read is of another slice. */
  lemma OtherSlice(c: T.Config, s: TR.State, i: nat, tx: nat, k: nat)
    requires TR.Inv(c, s) && i < |s.net| && s.net[i].Request? && (tx, k) in s.performed
    ensures TR.Live(s, s.net[i].id) && tx < |s.started| && k < |s.started[tx].keys|
    ensures s.slots[s.net[i].id].value.tx != tx || s.net[i].part != T.Owner(c, s.started[tx].keys[k])
  {
    var m := s.net[i];
    assert TR.MsgOk(c, s, m) && TR.RotxOk(c, s, m.id) && TR.ReadOk(c, s, tx, k);
    var rx := s.slots[m.id].value;
    assert rx.tx == tx ==> k !in m.ids;
  }

  /** The keys of a slice belong to its partition. */
  lemma SliceKeys(c: T.Config, s: TR.State, i: nat, j: nat)
    requires TR.Inv(c, s) && i < |s.net| && s.net[i].Request? && j < |s.net[i].ids|
    ensures TR.Live(s, s.net[i].id) && |s.net[i].keys| == |s.net[i].ids|
    ensures var m := s.net[i]; var tx := s.slots[m.id].value.tx;
      && tx < |s.started| && m.ids[j] < |s.started[tx].keys|
      && m.keys[j] == s.started[tx].keys[m.ids[j]] && T.Owner(c, m.keys[j]) == m.part
  {
    var m := s.net[i];
    assert TR.MsgOk(c, s, m) && TR.RotxOk(c, s, m.id);
    assert m.ids[j] in m.ids;
  }

  lemma ServeNew(e: Env, s: State, i: nat, clock: Time, s': State, j: nat)
    requires Inv(e, s) && Next(e, s, Serve(i, clock), s') && j < |s.tr.net[i].ids|
    ensures ReadOk(e, s', s.tr.slots[s.tr.net[i].id].value.tx, s.tr.net[i].ids[j])
  {
    var m, tx := s.tr.net[i], s.tr.slots[s.tr.net[i].id].value.tx;
    assert TR.MsgOk(Conf(e), s.tr, m);
    TR.ServeLog(Conf(e), s.tr, i, StoreIn(e, s.now, m.part), TimesIn(e, s.now, m.part, clock));
    SliceKeys(Conf(e), s.tr, i, j);
    assert CutOk(e, s, s.cuts[tx]);
  }

  lemma ServeOld(e: Env, s: State, i: nat, clock: Time, s': State, tx: nat, k: nat)
    requires Inv(e, s) && Next(e, s, Serve(i, clock), s') && (tx, k) in s.tr.performed
    ensures ReadOk(e, s', tx, k)
  {
    var m := s.tr.net[i];
    assert ReadOk(e, s, tx, k) && TR.MsgOk(Conf(e), s.tr, m);
    OtherSlice(Conf(e), s.tr, i, tx, k);
    TR.ServeLog(Conf(e), s.tr, i, StoreIn(e, s.now, m.part), TimesIn(e, s.now, m.part, clock));
    ReadKeeps(e, s, s', tx, k);
  }

  lemma ServeReads(e: Env, s: State, i: nat, clock: Time, s': State, tx: nat, k: nat)
    requires Inv(e, s) && Next(e, s, Serve(i, clock), s') && (tx, k) in s'.tr.performed
    ensures ReadOk(e, s', tx, k)
  {
    var m := s.tr.net[i];
    assert TR.MsgOk(Conf(e), s.tr, m);
    TR.ServeLog(Conf(e), s.tr, i, StoreIn(e, s.now, m.part), TimesIn(e, s.now, m.part, clock));
    if (tx, k) in s.tr.performed {
      ServeOld(e, s, i, clock, s', tx, k);
    } else {
      var j :| 0 <= j < |m.ids| && m.ids[j] == k;
      ServeNew(e, s, i, clock, s', j);
    }
  }

  lemma ServeInv(e: Env, s: State, i: nat, clock: Time, s': State)
    requires Inv(e, s) && Next(e, s, Serve(i, clock), s')
    ensures Inv(e, s')
  {
    var q := s.tr.net[i].part;
    StoreSourced(e, s.now, q);
    TR.StepInv(Conf(e), s.tr, TR.Serve(i, StoreIn(e, s.now, q), TimesIn(e, s.now, q, clock)), s'.tr);
    forall tx | 0 <= tx < |s'.cuts| ensures CutOk(e, s', s'.cuts[tx]) { assert CutOk(e, s, s.cuts[tx]); }
    forall tx, k | (tx, k) in s'.tr.performed ensures ReadOk(e, s', tx, k) { ServeReads(e, s, i, clock, s', tx, k); }
  }

  lemma StepInv(e: Env, s: State, a: Action, s': State)
    requires Inv(e, s) && Next(e, s, a, s')
    ensures Inv(e, s')
  {
    match a {
      case Elapse =>
        forall tx | 0 <= tx < |s'.cuts| ensures CutOk(e, s', s'.cuts[tx]) { assert CutOk(e, s, s.cuts[tx]); }
        QuietInv(e, s, s');
      case Start(_, _, _, _, _) => StartInv(e, s, a, s');
      case Serve(i, clock) => ServeInv(e, s, i, clock, s');
      case Collect(i) =>
        TR.StepInv(Conf(e), s.tr, TR.Collect(i), s'.tr);
        forall tx | 0 <= tx < |s'.cuts| ensures CutOk(e, s', s'.cuts[tx]) { assert CutOk(e, s, s.cuts[tx]); }
        QuietInv(e, s, s');
    }
  }

  ghost predicate Run(e: Env, js: seq<State>, acts: seq<Action>) {
    && ValidEnv(e) && |js| == |acts| + 1 && js[0] == Init
    && forall k {:trigger acts[k]} :: 0 <= k < |acts| ==> Next(e, js[k], acts[k], js[k + 1])
  }

  lemma InitInv(e: Env)
    requires ValidEnv(e)
    ensures Inv(e, Init)
  {
  }

  lemma {:induction false} RunInv(e: Env, js: seq<State>, acts: seq<Action>, k: nat)
    requires Run(e, js, acts) && k < |js|
    ensures Inv(e, js[k])
    decreases k
  {
    if k == 0 {
      InitInv(e);
    } else {
      RunInv(e, js, acts, k - 1);
      StepInv(e, js[k - 1], acts[k - 1], js[k]);
    }
  }

  // ---- what a transaction returns

  /** The version that index `k` of transaction `tx` returns, if any. */
  ghost function Found(e: Env, s: State, tx: nat, k: nat): Option<Version>
    requires ValidEnv(e) && s.now < |e.ss| && ReadOk(e, s, tx, k)
  {
    var key := s.tr.started[tx].keys[k];
    var q := T.Owner(Conf(e), key);
    var sv := s.served[(tx, q)];
    ReadAt(ChainOf(StoreIn(e, sv.at, q), key), T.AtSnapshot(TimesIn(e, sv.at, q, sv.clock)))
  }

  /** Every update that the vector of `v` covers is stored, or superseded, at its partition in state `at`. */
  ghost predicate Closed(e: Env, at: nat, v: Version)
    requires ValidEnv(e) && at < |e.ss|
  {
    forall q, u :: 0 <= q < e.cfg.partitions && CoveredBy(e, at, v, q, u) ==>
      ReplicaGroup.Settled(StoreIn(e, at, q), u)
  }

  /** `u` was issued at partition `q` before state `at`, and the vector of `v` covers it. */
  ghost predicate CoveredBy(e: Env, at: nat, v: Version, q: nat, u: Update)
    requires ValidEnv(e) && at < |e.ss| && q < e.cfg.partitions
  {
    System.RunShape(e.cfg, e.ss, e.acts, at);
    && u.source < e.cfg.replicas && u in e.ss[at].groups[q][u.source].log
    && u.source < |v.deps| && u.time <= v.deps[u.source]
  }

  /** What is below a stable vector of an earlier state has been handled. */
  lemma StableSettled(e: Env, at: nat, later: nat, q: nat, q': nat, u: Update)
    requires ValidEnv(e) && at <= later < |e.ss| && q < e.cfg.partitions && q' < e.cfg.partitions
    requires System.Shape(e.cfg, e.ss[later]) && u.source < e.cfg.replicas && u in e.ss[later].groups[q'][u.source].log
    requires u.source == e.r || u.time <= GstIn(e, at, q)[u.source]
    ensures ReplicaGroup.Settled(StoreIn(e, later, q'), u)
  {
    if u.source == e.r {
      System.RunInv(e.cfg, e.ss, e.acts, later);
      assert SingleCore.Inv(Grv, e.ss[later].groups[q']);
      assert ReplicaGroup.OwnOk(e.ss[later].groups[q'][e.r], e.r);
    } else {
      GstCovered(e, at, q);
      Guarantees.NothingBelow(e.cfg, e.ss, e.acts, at, later, e.r, q', 0, GstIn(e, at, q));
      assert Leq(GstIn(e, at, q), System.VersionVector(e.cfg, e.ss[later], e.r, q'));
      Guarantees.PrefixCompleteInRuns(e.cfg, e.ss, e.acts, later, e.r, q', u);
    }
  }

  lemma SliceClosed(e: Env, at: nat, later: nat, q: nat, clock: Time, v: Version)
    requires ValidEnv(e) && at <= later < |e.ss| && q < e.cfg.partitions
    requires InVectorSnapshot(TimesIn(e, at, q, clock), v)
    ensures Closed(e, later, v)
  {
    forall q', u | 0 <= q' < e.cfg.partitions && CoveredBy(e, later, v, q', u)
      ensures ReplicaGroup.Settled(StoreIn(e, later, q'), u)
    {
      System.RunShape(e.cfg, e.ss, e.acts, later);
      StableSettled(e, at, later, q, q', u);
    }
  }

  /**
   Whatever a transaction returns for a key, from the own replica or another one: everything
   that its vector covers, from every replica, is stored or superseded at every partition
   of the replica, in the state in which it is read and in every later one.
   */
  lemma ReturnsAreClosed(e: Env, js: seq<State>, acts: seq<Action>, n: nat, j: nat, k: nat, later: nat)
    requires Run(e, js, acts) && n < |js| && j < |js[n].tr.answers| && k < |js[n].tr.answers[j].values|
    ensures var s := js[n]; var a := s.tr.answers[j];
      && s.now < |e.ss| && ReadOk(e, s, a.tx, k)
      && match Found(e, s, a.tx, k)
         case None => a.values[k] == Some(0)
         case Some(v) =>
           && a.values[k] == Some(v.value)
           && (ServedAt(e, s, a.tx, k) <= later < |e.ss| ==> Closed(e, later, v))
  {
    RunInv(e, js, acts, n);
    var s, a := js[n], js[n].tr.answers[j];
    assert TR.AnswerOk(Conf(e), s.tr, a);
    assert a.values[k].Some? && (a.tx, k) in s.tr.performed;
    assert ReadOk(e, s, a.tx, k);
    var q := T.Owner(Conf(e), s.tr.started[a.tx].keys[k]);
    var sv := s.served[(a.tx, q)];
    if Found(e, s, a.tx, k).Some? && sv.at <= later < |e.ss| {
      SliceClosed(e, sv.at, later, q, sv.clock, Found(e, s, a.tx, k).value);
    }
  }

  /** The state of the store in which the slice of index `k` was read. */
  ghost function ServedAt(e: Env, s: State, tx: nat, k: nat): nat
    requires ValidEnv(e) && s.now < |e.ss| && ReadOk(e, s, tx, k)
  {
    s.served[(tx, T.Owner(Conf(e), s.tr.started[tx].keys[k]))].at
  }

  lemma ChainIsOrdered(e: Env, at: nat, q: nat, key: nat)
    requires ValidEnv(e) && at < |e.ss| && q < e.cfg.partitions
    ensures Ordered(ChainOf(StoreIn(e, at, q), key))
  {
    System.RunShape(e.cfg, e.ss, e.acts, at);
    Guarantees.ChainOrdered(e.cfg, e.ss, e.acts, at, e.r, q, key);
  }

  /** The dependencies of `v` on other replicas are stable, and those on the own one are not after `clock`. */
  ghost predicate Within(gst: Vec, own: nat, clock: Time, v: Version) {
    |v.deps| <= |gst| && forall i :: 0 <= i < |v.deps| ==> v.deps[i] <= if i == own then clock else gst[i]
  }

  /** The answer for index `k` is at least as new as `t`. */
  ghost predicate AsNew(e: Env, s: State, tx: nat, k: nat, t: Time)
    requires ValidEnv(e) && s.now < |e.ss| && ReadOk(e, s, tx, k)
  {
    Found(e, s, tx, k).Some? && t <= Found(e, s, tx, k).value.time
  }

  /** The server of index `k` had a version at least as new as `t` within the vector of the slice. */
  ghost predicate WithinSlice(e: Env, s: State, tx: nat, k: nat, t: Time)
    requires ValidEnv(e) && s.now < |e.ss| && ReadOk(e, s, tx, k)
  {
    var key := s.tr.started[tx].keys[k];
    var q := T.Owner(Conf(e), key);
    var sv := s.served[(tx, q)];
    exists v :: v in ChainOf(StoreIn(e, sv.at, q), key) && t <= v.time && Within(GstIn(e, sv.at, q), e.r, sv.clock, v)
  }

  /** Exactly what a transaction returns for a key. */
  lemma AsNewIff(e: Env, js: seq<State>, acts: seq<Action>, n: nat, tx: nat, k: nat, t: Time)
    requires Run(e, js, acts) && n < |js| && (tx, k) in js[n].tr.performed
    ensures js[n].now < |e.ss| && ReadOk(e, js[n], tx, k)
    ensures AsNew(e, js[n], tx, k, t) <==> WithinSlice(e, js[n], tx, k, t)
  {
    RunInv(e, js, acts, n);
    var s := js[n];
    assert ReadOk(e, s, tx, k);
    var key := s.tr.started[tx].keys[k];
    var q := T.Owner(Conf(e), key);
    var sv := s.served[(tx, q)];
    ChainIsOrdered(e, sv.at, q, key);
    NewestWithin(ChainOf(StoreIn(e, sv.at, q), key), GstIn(e, sv.at, q), e.r, sv.clock, t);
  }

  lemma NewestWithin(chain: Chain, gst: Vec, own: nat, clock: Time, t: Time)
    requires Ordered(chain) && own < |gst|
    ensures var found := ReadAt(chain, T.AtSnapshot(gst[own := clock]));
      found.Some? && t <= found.value.time <==> exists v :: v in chain && t <= v.time && Within(gst, own, clock, v)
  {
    ReadNewest(chain, T.AtSnapshot(gst[own := clock]));
    assert forall v :: InVectorSnapshot(gst[own := clock], v) <==> Within(gst, own, clock, v);
  }

  /**
   A transaction returns at least the cut at which it started, and the cut covers what its
   client knew: for every version `x` of a requested key that was at the replica then, with
   a vector within the cut, the answer is at least as new as `x`.
   */
  lemma ReturnsStartCut(e: Env, js: seq<State>, acts: seq<Action>, n: nat, tx: nat, k: nat, x: Version)
    requires Run(e, js, acts) && n < |js| && (tx, k) in js[n].tr.performed
    ensures js[n].now < |e.ss| && ReadOk(e, js[n], tx, k)
    ensures var s := js[n]; var cut, key := s.cuts[tx], s.tr.started[tx].keys[k];
      && |cut.gst| == e.cfg.replicas && cut.at <= s.now && Leq(cut.known, cut.gst) && cut.dep <= cut.time
      && var chain := ChainOf(StoreIn(e, cut.at, T.Owner(Conf(e), key)), key);
         x in chain && Within(cut.gst, e.r, cut.time, x) ==> AsNew(e, s, tx, k, x.time)
  {
    RunInv(e, js, acts, n);
    var s := js[n];
    assert ReadOk(e, s, tx, k) && CutOk(e, s, s.cuts[tx]);
    var cut, key := s.cuts[tx], s.tr.started[tx].keys[k];
    var q := T.Owner(Conf(e), key);
    var sv := s.served[(tx, q)];
    if x in ChainOf(StoreIn(e, cut.at, q), key) && Within(cut.gst, e.r, cut.time, x) {
      StillStored(e, cut.at, sv.at, q, key, x);
      WiderVector(cut.gst, GstIn(e, sv.at, q), e.r, cut.time, sv.clock, x);
      AsNewIff(e, js, acts, n, tx, k, x.time);
    }
  }

  lemma StillStored(e: Env, at: nat, later: nat, q: nat, key: nat, x: Version)
    requires ValidEnv(e) && at <= later < |e.ss| && q < e.cfg.partitions && x in ChainOf(StoreIn(e, at, q), key)
    ensures x in ChainOf(StoreIn(e, later, q), key)
  {
    System.RunShape(e.cfg, e.ss, e.acts, at);
    System.RunShape(e.cfg, e.ss, e.acts, later);
    Guarantees.ChainGrows(e.cfg, e.ss, e.acts, at, later, e.r, q, key);
    assert x in System.KeyChain(e.cfg, e.ss[at], e.r, q, key);
  }

  lemma WiderVector(gst: Vec, gst': Vec, own: nat, time: Time, time': Time, x: Version)
    requires Leq(gst, gst') && own < |gst| && time <= time' && Within(gst, own, time, x)
    ensures Within(gst', own, time', x)
  {
  }

  /** `u` is not stored at the server of index `k`, and the version that replaced it is beyond the slice. */
  ghost predicate Replaced(e: Env, s: State, tx: nat, k: nat, u: Update)
    requires ValidEnv(e) && s.now < |e.ss| && ReadOk(e, s, tx, k)
  {
    var key := s.tr.started[tx].keys[k];
    var q := T.Owner(Conf(e), key);
    var sv := s.served[(tx, q)];
    var chain := ChainOf(StoreIn(e, sv.at, q), key);
    && VersionOf(u) !in chain
    && exists v :: v in chain && ReplicaGroup.Newer(v, u) && !Within(GstIn(e, sv.at, q), e.r, sv.clock, v)
  }

  /**
   What a slice contains. An update of the key that is stable where the slice is read, or
   was issued at the replica, and whose vector is within that of the slice, is returned as
   itself or as a newer version, or was discarded for a version beyond the slice.
   */
  lemma SliceComplete(e: Env, js: seq<State>, acts: seq<Action>, n: nat, tx: nat, k: nat, u: Update)
    requires Run(e, js, acts) && n < |js| && (tx, k) in js[n].tr.performed
    ensures js[n].now < |e.ss| && ReadOk(e, js[n], tx, k)
    ensures var s := js[n]; var key := s.tr.started[tx].keys[k]; var q := T.Owner(Conf(e), key);
      var sv := s.served[(tx, q)];
      IsStable(e, sv.at, q, u) && u.key == key && Within(GstIn(e, sv.at, q), e.r, sv.clock, VersionOf(u)) ==>
        AsNew(e, s, tx, k, u.time) || Replaced(e, s, tx, k, u)
  {
    AsNewIff(e, js, acts, n, tx, k, u.time);
    var s := js[n];
    var key := s.tr.started[tx].keys[k];
    var q := T.Owner(Conf(e), key);
    var sv := s.served[(tx, q)];
    if IsStable(e, sv.at, q, u) && u.key == key {
      System.RunShape(e.cfg, e.ss, e.acts, sv.at);
      StableSettled(e, sv.at, sv.at, q, q, u);
    }
  }

  /** `u` was issued at partition `q` before state `at`, here or at or below the stable vector. */
  ghost predicate IsStable(e: Env, at: nat, q: nat, u: Update)
    requires ValidEnv(e) && at < |e.ss| && q < e.cfg.partitions
  {
    System.RunShape(e.cfg, e.ss, e.acts, at);
    && u.source < e.cfg.replicas && u in e.ss[at].groups[q][u.source].log
    && (u.source == e.r || u.time <= GstIn(e, at, q)[u.source])
  }
}
