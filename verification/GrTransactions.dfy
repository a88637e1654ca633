/**
 A whole read-only transaction of GentleRain: the coordinator of GrRotx, the gathering of
 GrSnapshots and the store of System run together. The stable time of the coordinator is
 that of its server in the store, and every new stable time wakes transactions up; under
 the lock a snapshot gets its time and its slices are asked for; the last slice answers
 the client. The two models number the slots of a snapshot separately: `Job` links them.
 */
module GrTransactions {
  import opened Vectors
  import opened Store
  import opened Replication
  import PtrArrays
  import System
  import Guarantees
  import Client
  import R = GrRotx
  import RR = GrRotxRuns
  import S = GrSnapshots

  /** Gathering number n works for snapshot slot `sid` of transaction `tx`. */
  datatype Job = Job(sid: nat, tx: nat)

  /** `jobs` and `asked` are history; transaction number tx was requested in state asked[tx] of the store. */
  datatype State = State(rx: R.State, sn: S.State, jobs: seq<Job>, asked: seq<nat>)

  const Init := State(R.Init, S.Init, [], [])

  /** `Elapse` is one step of the store. */
  datatype Action =
    | Request(req: R.Tx)
    | Elapse
    | TakeSnapshot(i: nat)
    | ChooseTime(sid: nat, later: nat)
    | Serve(i: nat)
    | Collect(i: nat)
    | Finish(i: nat)

  /** The critical section merges the stable time of the request, which is a step of the store, and chooses. */
  ghost predicate Chooses(e: S.Env, s: State, sid: nat, later: nat, s': State)
    requires S.ValidEnv(e)
  {
    && s.sn.now <= later <= s.sn.now + 1 && later < |e.ss|
    && Begins(s, sid, later, s') && s'.rx.gst == S.GstIn(e, later, e.p)
  }

  /** Snapshot slot `sid` gets its time, and its gathering begins in state `later` of the store. */
  ghost predicate Begins(s: State, sid: nat, later: nat, s': State) {
    && RR.LiveSnap(s.rx, sid) && s.rx.snaps[sid].value.time.None? && RR.Live(s.rx, s.rx.snaps[sid].value.rid)
    && s'.rx == R.DoChoose(s.rx, sid)
    && s'.sn == S.DoBegin(s.sn.(now := later), s.rx.snaps[sid].value.keys, s'.rx.gst)
    && s'.jobs == s.jobs + [Job(sid, s.rx.rotxs[s.rx.snaps[sid].value.rid].value.tx)] && s'.asked == s.asked
  }

  /** Reply `i` is the last one of its snapshot. */
  predicate Last(sn: S.State, i: nat) {
    S.HasPlace(sn, i) && sn.snaps[sn.net[i].sid].value.received + 1 == |sn.snaps[sn.net[i].sid].value.keys|
  }

  /** The last reply completes the snapshot, and the snapshot answers the client of its transaction. */
  ghost predicate Finishes(s: State, i: nat, s': State) {
    && Last(s.sn, i)
    && var sn := S.Filled(s.sn.snaps[s.sn.net[i].sid].value, s.sn.net[i]);
    && s'.sn == S.DoCollect(s.sn, i) && s'.jobs == s.jobs && s'.asked == s.asked
    && sn.no < |s.jobs| && R.CanRespond(s.rx, s.jobs[sn.no].sid)
    && s'.rx == R.DoRespond(s.rx, s.jobs[sn.no].sid, R.Response(sn.values, sn.updateTime, sn.gst))
  }

  ghost predicate Next(e: S.Env, s: State, a: Action, s': State)
    requires S.ValidEnv(e)
  {
    && s.sn.now < |e.ss|
    && match a
       case Request(req) => s' == s.(rx := R.DoRequest(s.rx, req), asked := s.asked + [s.sn.now])
       case Elapse =>
         && s.sn.now + 1 < |e.ss|
         && s' == s.(rx := R.UpdateGst(s.rx, S.GstIn(e, s.sn.now + 1, e.p)), sn := s.sn.(now := s.sn.now + 1))
       case TakeSnapshot(i) => i < |s.rx.events| && s' == s.(rx := R.DoSnapshot(s.rx, i))
       case ChooseTime(sid, later) => Chooses(e, s, sid, later, s')
       case Serve(i) => S.Next(e, s.sn, S.Serve(i), s'.sn) && s' == s.(sn := s'.sn)
       case Collect(i) => S.Collects(s.sn, i, s'.sn) && !Last(s.sn, i) && s' == s.(sn := s'.sn)
       case Finish(i) => Finishes(s, i, s')
  }

  // ---- invariant

  /** The slot of the job holds the snapshot `tk`, with its time chosen, for the transaction of the job. */
  ghost predicate Works(rx: R.State, job: Job, tk: S.Taken) {
    && RR.LiveSnap(rx, job.sid)
    && var snap := rx.snaps[job.sid].value;
    && snap.time == Some(tk.time) && snap.keys == tk.keys
    && RR.Live(rx, snap.rid) && rx.rotxs[snap.rid].value.tx == job.tx
  }

  /** An answered transaction got what its gathering found. */
  ghost predicate Passed(s: State, j: nat)
    requires j < |s.rx.answers| == |s.sn.answers|
  {
    var a, b := s.rx.answers[j], s.sn.answers[j];
    && b.no < |s.jobs| == |s.sn.taken| && a.tx == s.jobs[b.no].tx && a.tx < |s.rx.started|
    && a.time == s.sn.taken[b.no].time && s.sn.taken[b.no].keys == s.rx.started[a.tx].keys
    && a.response == R.Response(b.values, b.updateTime, b.gst)
  }

  ghost predicate Linked(s: State) {
    && |s.jobs| == |s.sn.taken| && |s.rx.answers| == |s.sn.answers|
    && (forall m, n :: 0 <= m < n < |s.jobs| ==> s.jobs[m].tx != s.jobs[n].tx)
    && (forall id {:trigger S.Live(s.sn, id)} :: S.Live(s.sn, id) ==>
      s.sn.snaps[id].value.no < |s.jobs| &&
        Works(s.rx, s.jobs[s.sn.snaps[id].value.no], s.sn.taken[s.sn.snaps[id].value.no]))
    && (forall j :: 0 <= j < |s.rx.answers| ==> Passed(s, j))
    && forall sid :: RR.LiveSnap(s.rx, sid) && s.rx.snaps[sid].value.time.Some? ==> Gathered(s, sid)
  }

  /** The transaction of snapshot slot `sid` has a gathering. */
  ghost predicate Gathered(s: State, sid: int)
    requires RR.LiveSnap(s.rx, sid)
  {
    var rid := s.rx.snaps[sid].value.rid;
    RR.Live(s.rx, rid) && exists n :: 0 <= n < |s.jobs| && s.jobs[n].tx == s.rx.rotxs[rid].value.tx
  }

  /** A snapshot is chosen after its transaction was requested. */
  ghost predicate Timely(s: State) {
    && |s.asked| == |s.rx.started| && |s.jobs| == |s.sn.taken|
    && (forall tx :: 0 <= tx < |s.asked| ==> s.asked[tx] <= s.sn.now)
    && forall n :: 0 <= n < |s.jobs| ==> s.jobs[n].tx < |s.asked| && s.asked[s.jobs[n].tx] <= s.sn.taken[n].at
  }

  ghost predicate Inv(e: S.Env, s: State) {
    && S.Inv(e, s.sn) && RR.Inv(s.rx) && Linked(s) && Timely(s)
    && SameGst(e, s)
  }

  ghost predicate SameGst(e: S.Env, s: State) {
    S.ValidEnv(e) && s.sn.now < |e.ss| && s.rx.gst == S.GstIn(e, s.sn.now, e.p)
  }

  // ---- steps of the coordinator alone

  /** Slots keep their snapshots and transactions. */
  ghost predicate Keeps(rx: R.State, rx': R.State) {
    && rx'.answers == rx.answers && rx.started <= rx'.started
    && (forall id :: RR.Live(rx, id) ==> RR.Live(rx', id) && rx'.rotxs[id].value.tx == rx.rotxs[id].value.tx)
    && (forall sid :: RR.LiveSnap(rx, sid) ==> RR.LiveSnap(rx', sid) && rx'.snaps[sid] == rx.snaps[sid])
    && forall sid :: RR.LiveSnap(rx', sid) && rx'.snaps[sid].value.time.Some? ==> RR.LiveSnap(rx, sid)
  }

  lemma KeepsLinked(s: State, rx': R.State)
    requires Linked(s) && Keeps(s.rx, rx')
    ensures Linked(s.(rx := rx'))
  {
    var s' := s.(rx := rx');
    forall id | S.Live(s'.sn, id)
      ensures s.sn.snaps[id].value.no < |s.jobs| &&
        Works(rx', s.jobs[s.sn.snaps[id].value.no], s.sn.taken[s.sn.snaps[id].value.no])
    {
      assert S.Live(s.sn, id);
    }
    forall j | 0 <= j < |rx'.answers| ensures Passed(s', j) { assert Passed(s, j); }
    forall sid | RR.LiveSnap(rx', sid) && rx'.snaps[sid].value.time.Some?
      ensures Gathered(s', sid)
    {
      assert Gathered(s, sid);
    }
  }

  lemma RequestKeeps(rx: R.State, req: R.Tx)
    ensures Keeps(rx, R.DoRequest(rx, req))
  {
  }

  lemma UpdateKeeps(rx: R.State, gst: Time)
    ensures Keeps(rx, R.UpdateGst(rx, gst))
  {
    forall id | RR.Live(rx, id)
      ensures RR.Live(R.UpdateGst(rx, gst), id) && R.UpdateGst(rx, gst).rotxs[id].value.tx == rx.rotxs[id].value.tx
    {
      RR.AfterUpdate(rx, gst, id);
    }
  }

  lemma SnapshotKeeps(rx: R.State, i: nat)
    requires i < |rx.events|
    ensures Keeps(rx, R.DoSnapshot(rx, i))
  {
  }

  lemma GstGrows(e: S.Env, at: nat, later: nat)
    requires S.ValidEnv(e) && at <= later < |e.ss|
    ensures S.GstIn(e, at, e.p) <= S.GstIn(e, later, e.p)
  {
    S.GstScalar(e, at, e.p);
    S.GstScalar(e, later, e.p);
    System.StableTimeGrows(e.cfg, e.ss, e.acts, at, later, e.r, e.p);
  }

  lemma ElapseInv(e: S.Env, s: State, s': State)
    requires Inv(e, s) && Next(e, s, Elapse, s')
    ensures Inv(e, s')
  {
    var now' := s.sn.now + 1;
    S.ElapseInv(e, s.sn, now');
    RR.UpdateInv(s.rx, S.GstIn(e, now', e.p));
    GstGrows(e, s.sn.now, now');
    ElapseLinked(s, S.GstIn(e, now', e.p), s');
  }

  lemma ElapseLinked(s: State, gst: Time, s': State)
    requires Linked(s) && Timely(s) && s' == s.(rx := R.UpdateGst(s.rx, gst), sn := s.sn.(now := s.sn.now + 1))
    ensures Linked(s') && Timely(s')
  {
    UpdateKeeps(s.rx, gst);
    KeepsLinked(s, s'.rx);
    SameGather(s.(rx := s'.rx), s'.sn);
  }

  // ---- steps of the gathering alone

  lemma SameGather(s: State, sn': S.State)
    requires Linked(s) && sn'.taken == s.sn.taken && sn'.answers == s.sn.answers
    requires forall id :: S.Live(sn', id) ==> S.Live(s.sn, id) && sn'.snaps[id].value.no == s.sn.snaps[id].value.no
    ensures Linked(s.(sn := sn'))
  {
    var s' := s.(sn := sn');
    forall j | 0 <= j < |s'.rx.answers| ensures Passed(s', j) { assert Passed(s, j); }
    forall sid | RR.LiveSnap(s.rx, sid) && s.rx.snaps[sid].value.time.Some?
      ensures Gathered(s', sid)
    {
      assert Gathered(s, sid);
    }
  }

  // ---- the time is chosen

  /** The gathering of a transaction that still has its slot is not complete. */
  lemma StillOpen(s: State, rid: nat, n: nat) returns (id: int)
    requires Linked(s) && RR.OnlyOnce(s.rx) && S.OnlyOnce(s.sn) && RR.Live(s.rx, rid)
    requires n < |s.jobs| && s.jobs[n].tx == s.rx.rotxs[rid].value.tx
    ensures S.Live(s.sn, id) && s.sn.snaps[id].value.no == n && Works(s.rx, s.jobs[n], s.sn.taken[n])
  {
    forall j | 0 <= j < |s.sn.answers| ensures s.sn.answers[j].no != n { assert Passed(s, j); }
    assert S.Somewhere(s.sn, n);
    id :| S.Live(s.sn, id) && s.sn.snaps[id].value.no == n;
  }

  /** A transaction whose snapshot has no time yet has no gathering. */
  lemma NotGathered(s: State, sid: nat, n: nat)
    requires Linked(s) && RR.OnlyOnce(s.rx) && RR.OneEach(s.rx) && S.OnlyOnce(s.sn)
    requires RR.LiveSnap(s.rx, sid) && s.rx.snaps[sid].value.time.None? && RR.Live(s.rx, s.rx.snaps[sid].value.rid)
    requires n < |s.jobs|
    ensures s.jobs[n].tx != s.rx.rotxs[s.rx.snaps[sid].value.rid].value.tx
  {
    var rid := s.rx.snaps[sid].value.rid;
    if s.jobs[n].tx == s.rx.rotxs[rid].value.tx {
      var _ := StillOpen(s, rid, n);
    }
  }

  lemma ChooseWorks(s: State, sid: nat, rx': R.State, job: Job, tk: S.Taken)
    requires RR.LiveSnap(s.rx, sid) && s.rx.snaps[sid].value.time.None? && rx' == R.DoChoose(s.rx, sid)
    requires Works(s.rx, job, tk)
    ensures Works(rx', job, tk)
  {
    RR.AfterUpdate(s.rx, s.rx.snaps[sid].value.gst, s.rx.snaps[job.sid].value.rid);
  }

  lemma ChooseNew(s: State, sid: nat, rx': R.State, at: nat)
    requires RR.LiveSnap(s.rx, sid) && RR.Live(s.rx, s.rx.snaps[sid].value.rid) && rx' == R.DoChoose(s.rx, sid)
    ensures var snap := s.rx.snaps[sid].value;
      Works(rx', Job(sid, s.rx.rotxs[snap.rid].value.tx), S.Taken(snap.keys, rx'.gst, at))
  {
    RR.AfterUpdate(s.rx, s.rx.snaps[sid].value.gst, s.rx.snaps[sid].value.rid);
  }

  lemma ChooseGathered(s: State, sid: nat, s': State, sid': int)
    requires Linked(s) && RR.LiveSnap(s.rx, sid) && RR.Live(s.rx, s.rx.snaps[sid].value.rid)
    requires s'.rx == R.DoChoose(s.rx, sid)
    requires s'.jobs == s.jobs + [Job(sid, s.rx.rotxs[s.rx.snaps[sid].value.rid].value.tx)]
    requires RR.LiveSnap(s'.rx, sid') && s'.rx.snaps[sid'].value.time.Some?
    ensures Gathered(s', sid')
  {
    RR.AfterUpdate(s.rx, s.rx.snaps[sid].value.gst, s'.rx.snaps[sid'].value.rid);
    if sid' == sid {
      assert s'.jobs[|s.jobs|].tx == s'.rx.rotxs[s'.rx.snaps[sid'].value.rid].value.tx;
    } else {
      assert RR.LiveSnap(s.rx, sid') && Gathered(s, sid');
      var n :| 0 <= n < |s.jobs| && s.jobs[n].tx == s.rx.rotxs[s.rx.snaps[sid'].value.rid].value.tx;
      assert s'.jobs[n] == s.jobs[n];
    }
  }

  /** The slot of a gathering after the choice, whether it is the new one or not. */
  lemma ChooseSlot(s: State, sid: nat, later: nat, s': State, id: int)
    requires Linked(s) && Begins(s, sid, later, s') && S.Live(s'.sn, id)
    ensures s'.sn.snaps[id].value.no < |s'.jobs| == |s'.sn.taken|
    ensures Works(s'.rx, s'.jobs[s'.sn.snaps[id].value.no], s'.sn.taken[s'.sn.snaps[id].value.no])
  {
    if id == PtrArrays.FirstFree(s.sn.snaps) {
      ChooseNew(s, sid, s'.rx, later);
    } else {
      assert S.Live(s.sn, id);
      ChooseWorks(s, sid, s'.rx, s.jobs[s.sn.snaps[id].value.no], s.sn.taken[s.sn.snaps[id].value.no]);
    }
  }

  lemma ChooseLinked(s: State, sid: nat, later: nat, s': State)
    requires Linked(s) && Begins(s, sid, later, s')
    requires forall n :: 0 <= n < |s.jobs| ==> s.jobs[n].tx != s'.jobs[|s.jobs|].tx
    ensures Linked(s')
  {
    forall id | S.Live(s'.sn, id)
      ensures s'.sn.snaps[id].value.no < |s'.jobs| == |s'.sn.taken|
      ensures Works(s'.rx, s'.jobs[s'.sn.snaps[id].value.no], s'.sn.taken[s'.sn.snaps[id].value.no])
    {
      ChooseSlot(s, sid, later, s', id);
    }
    forall j | 0 <= j < |s'.rx.answers| ensures Passed(s', j) { assert Passed(s, j); }
    forall sid' | RR.LiveSnap(s'.rx, sid') && s'.rx.snaps[sid'].value.time.Some?
      ensures Gathered(s', sid')
    {
      ChooseGathered(s, sid, s', sid');
    }
  }

  lemma ChooseInv(e: S.Env, s: State, sid: nat, later: nat, s': State)
    requires Inv(e, s) && Chooses(e, s, sid, later, s')
    ensures Inv(e, s')
  {
    S.ElapseInv(e, s.sn, later);
    S.BeginInv(e, s.sn.(now := later), s.rx.snaps[sid].value.keys);
    RR.ChooseInv(s.rx, sid);
    forall n | 0 <= n < |s.jobs| ensures s.jobs[n].tx != s'.jobs[|s.jobs|].tx { NotGathered(s, sid, n); }
    ChooseLinked(s, sid, later, s');
    ChooseTimely(s, sid, later, s');
  }

  lemma ChooseTimely(s: State, sid: nat, later: nat, s': State)
    requires Timely(s) && RR.Inv(s.rx) && Begins(s, sid, later, s') && s.sn.now <= later
    ensures Timely(s')
  {
    assert RR.RotxOk(s.rx, s.rx.snaps[sid].value.rid);
  }

  // ---- the answer

  /** The slot of the last reply is that of a transaction, so it can be answered. */
  lemma FinishPossible(e: S.Env, s: State, i: nat)
    requires Inv(e, s) && Last(s.sn, i)
    ensures exists s' :: Finishes(s, i, s')
  {
    var sn := S.Filled(s.sn.snaps[s.sn.net[i].sid].value, s.sn.net[i]);
    assert S.Live(s.sn, s.sn.net[i].sid);
    assert Works(s.rx, s.jobs[sn.no], s.sn.taken[sn.no]);
    var rx' := R.DoRespond(s.rx, s.jobs[sn.no].sid, R.Response(sn.values, sn.updateTime, sn.gst));
    assert Finishes(s, i, s.(rx := rx', sn := S.DoCollect(s.sn, i)));
  }

  /** Another snapshot keeps its slot and its transaction. */
  lemma FinishWorks(s: State, no: nat, response: R.Response, n: nat)
    requires Linked(s) && RR.Inv(s.rx) && no < |s.jobs| && n < |s.jobs| && n != no
    requires Works(s.rx, s.jobs[no], s.sn.taken[no]) && Works(s.rx, s.jobs[n], s.sn.taken[n])
    ensures Works(R.DoRespond(s.rx, s.jobs[no].sid, response), s.jobs[n], s.sn.taken[n])
  {
    assert s.jobs[no].tx != s.jobs[n].tx;
    assert s.rx.snaps[s.jobs[no].sid].value.rid != s.rx.snaps[s.jobs[n].sid].value.rid;
  }

  lemma FinishPassed(s: State, i: nat, s': State, j: nat)
    requires Linked(s) && RR.Inv(s.rx) && Finishes(s, i, s') && j < |s'.rx.answers| == |s'.sn.answers|
    ensures Passed(s', j)
  {
    if j < |s.rx.answers| {
      assert Passed(s, j);
    } else {
      assert S.Live(s.sn, s.sn.net[i].sid);
      var no := s.sn.snaps[s.sn.net[i].sid].value.no;
      assert Works(s.rx, s.jobs[no], s.sn.taken[no]);
      FinishKeys(s, no);
    }
  }

  lemma FinishKeys(s: State, no: nat)
    requires RR.Inv(s.rx) && no < |s.jobs| == |s.sn.taken| && Works(s.rx, s.jobs[no], s.sn.taken[no])
    ensures s.jobs[no].tx < |s.rx.started| && s.sn.taken[no].keys == s.rx.started[s.jobs[no].tx].keys
  {
    assert RR.SnapOk(s.rx, s.jobs[no].sid) && RR.RotxOk(s.rx, s.rx.snaps[s.jobs[no].sid].value.rid);
  }

  /** The slot of a gathering that is still open. */
  lemma FinishSlot(s: State, i: nat, s': State, id: int)
    requires Linked(s) && RR.Inv(s.rx) && S.OnlyOnce(s.sn) && Finishes(s, i, s') && S.Live(s'.sn, id)
    ensures s'.sn.snaps[id].value.no < |s'.jobs| == |s'.sn.taken|
    ensures Works(s'.rx, s'.jobs[s'.sn.snaps[id].value.no], s'.sn.taken[s'.sn.snaps[id].value.no])
  {
    var c := s.sn.net[i].sid;
    var sn := S.Filled(s.sn.snaps[c].value, s.sn.net[i]);
    assert S.Live(s.sn, c) && S.Live(s.sn, id) && id != c && s'.sn.snaps[id] == s.sn.snaps[id];
    FinishWorks(s, sn.no, R.Response(sn.values, sn.updateTime, sn.gst), s.sn.snaps[id].value.no);
  }

  lemma FinishGathered(s: State, i: nat, s': State, sid: int)
    requires Linked(s) && RR.OneEach(s.rx) && Finishes(s, i, s')
    requires RR.LiveSnap(s'.rx, sid) && s'.rx.snaps[sid].value.time.Some?
    ensures Gathered(s', sid)
  {
    assert RR.LiveSnap(s.rx, sid) && Gathered(s, sid);
  }

  lemma FinishLinked(s: State, i: nat, s': State)
    requires Linked(s) && RR.Inv(s.rx) && S.OnlyOnce(s.sn) && Finishes(s, i, s')
    ensures Linked(s')
  {
    forall id | S.Live(s'.sn, id)
      ensures s'.sn.snaps[id].value.no < |s'.jobs| == |s'.sn.taken|
      ensures Works(s'.rx, s'.jobs[s'.sn.snaps[id].value.no], s'.sn.taken[s'.sn.snaps[id].value.no])
    {
      FinishSlot(s, i, s', id);
    }
    forall j | 0 <= j < |s'.rx.answers| ensures Passed(s', j) { FinishPassed(s, i, s', j); }
    forall sid | RR.LiveSnap(s'.rx, sid) && s'.rx.snaps[sid].value.time.Some?
      ensures Gathered(s', sid)
    {
      FinishGathered(s, i, s', sid);
    }
  }

  lemma FinishInv(e: S.Env, s: State, i: nat, s': State)
    requires Inv(e, s) && Finishes(s, i, s')
    ensures Inv(e, s')
  {
    S.CollectInv(e, s.sn, i, s'.sn);
    var sn := S.Filled(s.sn.snaps[s.sn.net[i].sid].value, s.sn.net[i]);
    RR.StepInv(s.rx, R.Respond(s.jobs[sn.no].sid, R.Response(sn.values, sn.updateTime, sn.gst)), s'.rx);
    FinishLinked(s, i, s');
    assert Timely(s');
  }

  // ---- runs

  lemma RequestInv(e: S.Env, s: State, req: R.Tx, s': State)
    requires Inv(e, s) && Next(e, s, Request(req), s')
    ensures Inv(e, s')
  {
    RR.StepInv(s.rx, R.Request(req), s'.rx);
    RequestLinked(s, req, s');
  }

  lemma RequestLinked(s: State, req: R.Tx, s': State)
    requires Linked(s) && Timely(s) && s' == s.(rx := R.DoRequest(s.rx, req), asked := s.asked + [s.sn.now])
    ensures Linked(s') && Timely(s')
  {
    RequestKeeps(s.rx, req);
    KeepsLinked(s, s'.rx);
    SameLinks(s.(rx := s'.rx), s');
  }

  lemma TakeInv(e: S.Env, s: State, i: nat, s': State)
    requires Inv(e, s) && Next(e, s, TakeSnapshot(i), s')
    ensures Inv(e, s')
  {
    RR.StepInv(s.rx, R.TakeSnapshot(i), s'.rx);
    TakeLinked(s, i, s');
  }

  lemma TakeLinked(s: State, i: nat, s': State)
    requires Linked(s) && Timely(s) && i < |s.rx.events| && s' == s.(rx := R.DoSnapshot(s.rx, i))
    ensures Linked(s') && Timely(s')
  {
    SnapshotKeeps(s.rx, i);
    KeepsLinked(s, s'.rx);
  }

  lemma SameLinks(s: State, s': State)
    requires Linked(s) && s' == s.(asked := s'.asked)
    ensures Linked(s')
  {
    forall j | 0 <= j < |s'.rx.answers| ensures Passed(s', j) { assert Passed(s, j); }
    forall sid | RR.LiveSnap(s'.rx, sid) && s'.rx.snaps[sid].value.time.Some?
      ensures Gathered(s', sid)
    {
      assert Gathered(s, sid);
    }
  }

  /** A step of the gathering alone. */
  lemma GatherInv(e: S.Env, s: State, sn': S.State)
    requires Inv(e, s) && S.Inv(e, sn') && sn'.now == s.sn.now && sn'.taken == s.sn.taken && sn'.answers == s.sn.answers
    requires forall id :: S.Live(sn', id) ==> S.Live(s.sn, id) && sn'.snaps[id].value.no == s.sn.snaps[id].value.no
    ensures Inv(e, s.(sn := sn'))
  {
    SameGather(s, sn');
  }

  lemma ServeInv(e: S.Env, s: State, i: nat, s': State)
    requires Inv(e, s) && Next(e, s, Serve(i), s')
    ensures Inv(e, s')
  {
    S.ServeInv(e, s.sn, i, s'.sn);
    GatherInv(e, s, s'.sn);
  }

  lemma CollectKeeps(sn: S.State, i: nat, sn': S.State)
    requires S.Collects(sn, i, sn') && !Last(sn, i)
    ensures sn'.now == sn.now && sn'.taken == sn.taken && sn'.answers == sn.answers
    ensures forall id :: S.Live(sn', id) ==> S.Live(sn, id) && sn'.snaps[id].value.no == sn.snaps[id].value.no
  {
  }

  lemma CollectInv(e: S.Env, s: State, i: nat, s': State)
    requires Inv(e, s) && Next(e, s, Collect(i), s')
    ensures Inv(e, s')
  {
    S.CollectInv(e, s.sn, i, s'.sn);
    CollectKeeps(s.sn, i, s'.sn);
    GatherInv(e, s, s'.sn);
  }

  lemma StepInv(e: S.Env, s: State, a: Action, s': State)
    requires Inv(e, s) && Next(e, s, a, s')
    ensures Inv(e, s')
  {
    match a {
      case Request(req) => RequestInv(e, s, req, s');
      case Elapse => ElapseInv(e, s, s');
      case TakeSnapshot(i) => TakeInv(e, s, i, s');
      case ChooseTime(sid, later) => ChooseInv(e, s, sid, later, s');
      case Serve(i) => ServeInv(e, s, i, s');
      case Collect(i) => CollectInv(e, s, i, s');
      case Finish(i) => FinishInv(e, s, i, s');
    }
  }

  ghost predicate Run(e: S.Env, js: seq<State>, acts: seq<Action>) {
    && S.ValidEnv(e) && |js| == |acts| + 1 && js[0] == Init
    && forall k {:trigger acts[k]} :: 0 <= k < |acts| ==> Next(e, js[k], acts[k], js[k + 1])
  }

  lemma InitGst(e: S.Env)
    requires S.ValidEnv(e)
    ensures S.GstIn(e, 0, e.p) == 0.0
  {
    S.GstScalar(e, 0, e.p);
    assert e.ss[0] == System.Init(e.cfg);
  }

  lemma InitInv(e: S.Env)
    requires S.ValidEnv(e)
    ensures Inv(e, Init)
  {
    InitGst(e);
    S.InitInv(e);
    InitLinked();
  }

  lemma InitLinked()
    ensures RR.Inv(R.Init) && Linked(Init) && Timely(Init)
  {
  }

  lemma {:induction false} RunInv(e: S.Env, js: seq<State>, acts: seq<Action>, k: nat)
    requires Run(e, js, acts) && k < |js|
    ensures Inv(e, js[k])
    decreases k
  {
    if k == 0 {
      InitInv(e);
    } else {
      RunInv(e, js, acts, k - 1);
      StepInv(e, js[k - 1], acts[k - 1], js[k]);
    }
  }

  // ---- what a client gets

  /** `u` has been issued when the store is in state `at`, at the owner of its key. */
  ghost predicate Issued(e: S.Env, at: nat, u: Update)
    requires S.ValidEnv(e) && at < |e.ss|
  {
    System.RunShape(e.cfg, e.ss, e.acts, at);
    u.source < e.cfg.replicas && u in e.ss[at].groups[S.Owner(e, u.key)][u.source].log
  }

  lemma LogGrows(cfg: System.Config, s: System.State, act: System.Action, q: nat, i: nat)
    requires System.Shape(cfg, s) && System.Enabled(cfg, s, act) && q < cfg.partitions && i < cfg.replicas
    ensures s.groups[q][i].log <= System.Apply(cfg, s, act).groups[q][i].log
  {
  }

  lemma {:induction false} IssuedLater(e: S.Env, at: nat, later: nat, u: Update)
    requires S.ValidEnv(e) && at <= later < |e.ss| && Issued(e, at, u)
    ensures Issued(e, later, u)
    decreases later
  {
    if at < later {
      IssuedLater(e, at, later - 1, u);
      LogGrows(e.cfg, e.ss[later - 1], e.acts[later - 1], S.Owner(e, u.key), u.source);
    }
  }

  /** The response holds, for every key, the newest version at or below `time` of state `at` of the store. */
  ghost predicate ReadsOf(e: S.Env, at: nat, keys: seq<nat>, time: Time, resp: R.Response)
    requires S.ValidEnv(e) && at < |e.ss|
  {
    && |resp.values| == |keys| > 0
    && (forall i :: 0 <= i < |keys| ==> resp.values[i] == S.SliceRead(S.ChainIn(e, at, keys[i]), time).value)
    && (forall i :: 0 <= i < |keys| ==> S.SliceRead(S.ChainIn(e, at, keys[i]), time).time <= resp.updateTime)
    && (resp.updateTime == 0.0 ||
      exists i :: 0 <= i < |keys| && S.SliceRead(S.ChainIn(e, at, keys[i]), time).time == resp.updateTime)
  }

  /** Answer `j` is one snapshot of the store, taken in state `at`, at a time that covers what the client knew. */
  ghost predicate OneSnapshot(e: S.Env, s: State, j: nat, at: nat) {
    && j < |s.rx.answers| && S.ValidEnv(e) && at <= s.sn.now < |e.ss|
    && var a := s.rx.answers[j];
    && a.tx < |s.rx.started| == |s.asked| && s.asked[a.tx] <= at
    && var req := s.rx.started[a.tx];
    && a.client == req.client && req.dep <= a.time && req.gst <= a.time == S.GstIn(e, at, e.p)
    && ReadsOf(e, at, req.keys, a.time, a.response)
    && a.time <= a.response.gst && S.Stable(e, s.sn.now, a.response.gst)
  }

  /** Every answer of every run is one snapshot, and no transaction is answered twice. */
  lemma TransactionIsOneSnapshot(e: S.Env, js: seq<State>, acts: seq<Action>, k: nat, j: nat)
    requires Run(e, js, acts) && k < |js| && j < |js[k].rx.answers|
    ensures exists at :: OneSnapshot(e, js[k], j, at)
    ensures forall i :: 0 <= i < |js[k].rx.answers| && js[k].rx.answers[i].tx == js[k].rx.answers[j].tx ==> i == j
  {
    RunInv(e, js, acts, k);
    var s := js[k];
    AnswerSnapshot(e, s, j);
  }

  lemma AnswerSnapshot(e: S.Env, s: State, j: nat)
    requires Inv(e, s) && j < |s.rx.answers|
    ensures OneSnapshot(e, s, j, s.sn.taken[s.sn.answers[j].no].at)
  {
    var a, b := s.rx.answers[j], s.sn.answers[j];
    assert Passed(s, j) && RR.AnswerOk(s.rx, a) && S.AnswerOk(e, s.sn, b);
    var tk := s.sn.taken[b.no];
    assert s.asked[s.jobs[b.no].tx] <= tk.at;
    assert forall i: nat :: i < |b.values| ==>
      S.Due(e, s.sn, b.no, i) == S.SliceRead(S.ChainIn(e, tk.at, tk.keys[i]), tk.time);
  }

  /** `u` is not in the snapshot: a version later than the snapshot took its place, or it is stuck. */
  ghost predicate Lost(e: S.Env, at: nat, u: Update, time: Time)
    requires S.ValidEnv(e) && at < |e.ss|
  {
    System.RunShape(e.cfg, e.ss, e.acts, at);
    var q := S.Owner(e, u.key);
    var items := System.StoreAt(e.cfg, e.ss[at], e.r, q);
    && VersionOf(u) !in ChainOf(items, u.key)
    && (Guarantees.ReplacedLater(items, u, time) || Guarantees.Stuck(e.cfg, e.ss[at], e.r, q, u))
  }

  /** The value for index `i` is that of a version at least as new as `u`. */
  ghost predicate AsNew(e: S.Env, at: nat, time: Time, resp: R.Response, i: nat, u: Update)
    requires S.ValidEnv(e) && at < |e.ss| && i < |resp.values|
  {
    exists v :: v in S.ChainIn(e, at, u.key) && u.time <= v.time <= time && resp.values[i] == v.value
  }

  ghost predicate SeenOrLost(e: S.Env, a: R.Answer, at: nat, i: nat, u: Update)
    requires S.ValidEnv(e) && at < |e.ss|
  {
    i < |a.response.values| && (AsNew(e, at, a.time, a.response, i, u) || Lost(e, at, u, a.time))
  }

  lemma SnapshotHasPast(e: S.Env, at: nat, keys: seq<nat>, time: Time, resp: R.Response, i: nat, u: Update)
    requires S.ValidEnv(e) && at < |e.ss| && ReadsOf(e, at, keys, time, resp) && time == S.GstIn(e, at, e.p)
    requires i < |keys| && u.key == keys[i] && Issued(e, at, u) && u.time <= time
    ensures AsNew(e, at, time, resp, i, u) || Lost(e, at, u, time)
  {
    S.GstScalar(e, at, e.p);
    var q := S.Owner(e, u.key);
    Guarantees.SnapshotComplete(e.cfg, e.ss, e.acts, at, e.r, e.p, q, u, time);
    var items := System.StoreAt(e.cfg, e.ss[at], e.r, q);
    if Guarantees.SnapshotHas(items, u, time) {
      var read := ReadAt(ChainOf(items, u.key), v => InSnapshot(time, v));
      assert read.value in S.ChainIn(e, at, u.key);
    }
  }

  /**
   What a transaction guarantees its client. If its dependency time is that of a session,
   then for every requested key and every update of it that the client had read or written
   before, the answer holds that update or a newer version, unless the update was
   discarded in favour of a version later than the snapshot or is stuck.
   */
  lemma ClientSeesItsPast(e: S.Env, js: seq<State>, acts: seq<Action>, k: nat, j: nat,
    session: seq<Client.ScalarResponse>, i: nat, u: Update, seen: Client.ScalarResponse)
    requires Run(e, js, acts) && k < |js| && j < |js[k].rx.answers|
    requires js[k].rx.answers[j].tx < |js[k].rx.started| == |js[k].asked|
    requires var req := js[k].rx.started[js[k].rx.answers[j].tx];
      req.dep == Client.ScalarAfter(session).dep && i < |req.keys| && u.key == req.keys[i]
    requires seen in session && u.time == seen.time
    requires js[k].asked[js[k].rx.answers[j].tx] < |e.ss| && Issued(e, js[k].asked[js[k].rx.answers[j].tx], u)
    ensures exists at :: OneSnapshot(e, js[k], j, at) && SeenOrLost(e, js[k].rx.answers[j], at, i, u)
  {
    TransactionIsOneSnapshot(e, js, acts, k, j);
    var at :| OneSnapshot(e, js[k], j, at);
    var a := js[k].rx.answers[j];
    Client.ScalarCovers(session);
    IssuedLater(e, js[k].asked[a.tx], at, u);
    SnapshotHasPast(e, at, js[k].rx.started[a.tx].keys, a.time, a.response, i, u);
  }

  /**
   Nothing is lost: once all messages are delivered and all times chosen, exactly the
   transactions that asked for a snapshot of at least one key are answered, and the others
   wait for the stable time or have no key.
   */
  lemma AnsweredIffAsked(e: S.Env, js: seq<State>, acts: seq<Action>, k: nat, tx: nat)
    requires Run(e, js, acts) && k < |js| && tx < |js[k].rx.started|
    requires js[k].sn.net == [] && js[k].rx.events == []
    requires forall sid :: RR.LiveSnap(js[k].rx, sid) ==> js[k].rx.snaps[sid].value.time.Some?
    ensures (exists j :: 0 <= j < |js[k].rx.answers| && js[k].rx.answers[j].tx == tx) <==>
      tx in js[k].rx.requested && js[k].rx.started[tx].keys != []
    ensures tx !in js[k].rx.requested ==> js[k].rx.started[tx].dep >= js[k].rx.gst
  {
    RunInv(e, js, acts, k);
    var s := js[k];
    assert RR.Somewhere(s.rx, tx);
    if j :| 0 <= j < |s.rx.answers| && s.rx.answers[j].tx == tx {
      AnsweredHasKeys(e, s, j);
    } else {
      var id :| RR.Live(s.rx, id) && s.rx.rotxs[id].value.tx == tx;
      assert RR.RotxOk(s.rx, id);
      if !s.rx.rotxs[id].value.waiting {
        assert RR.Asked(s.rx, id);
        var sid :| RR.LiveSnap(s.rx, sid) && s.rx.snaps[sid].value.rid == id;
        UnansweredHasNoKeys(e, s, sid);
      }
    }
  }

  lemma AnsweredHasKeys(e: S.Env, s: State, j: nat)
    requires Inv(e, s) && j < |s.rx.answers|
    ensures s.rx.answers[j].tx in s.rx.requested && s.rx.answers[j].tx < |s.rx.started| &&
      s.rx.started[s.rx.answers[j].tx].keys != []
  {
    assert Passed(s, j) && S.AnswerOk(e, s.sn, s.sn.answers[j]);
  }

  lemma UnansweredHasNoKeys(e: S.Env, s: State, sid: nat)
    requires Inv(e, s) && s.sn.net == [] && RR.LiveSnap(s.rx, sid) && s.rx.snaps[sid].value.time.Some?
    ensures RR.Live(s.rx, s.rx.snaps[sid].value.rid) && s.rx.rotxs[s.rx.snaps[sid].value.rid].value.req.keys == []
  {
    assert Gathered(s, sid) && RR.SnapOk(s.rx, sid);
    var rid := s.rx.snaps[sid].value.rid;
    var n :| 0 <= n < |s.jobs| && s.jobs[n].tx == s.rx.rotxs[rid].value.tx;
    var id := StillOpen(s, rid, n);
    OpenHasNoKeys(e, s.sn, id);
  }

  lemma OpenHasNoKeys(e: S.Env, sn: S.State, id: int)
    requires S.Inv(e, sn) && sn.net == [] && S.Live(sn, id)
    ensures sn.snaps[id].value.no < |sn.taken| && sn.taken[sn.snaps[id].value.no].keys == []
  {
    assert S.SnapOk(e, sn, id);
    assert sn.snaps[id].value.todo == {};
  }
}
