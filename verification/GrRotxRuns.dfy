/**
 Every run of GentleRain's transaction coordinator, for any order of events and lock
 grants: a waiting transaction has a dependency time at or above the stable time, each
 transaction asks for its snapshot exactly once, and the snapshot time covers its
 dependency time and the stable time its client knew.
 */
module GrRotxRuns {
  import opened Vectors
  import opened Store
  import opened PtrArrays
  import opened GrRotx

  ghost predicate Live(s: State, id: int) { 0 <= id < |s.rotxs| && s.rotxs[id].Some? }

  ghost predicate LiveSnap(s: State, sid: int) { 0 <= sid < |s.snaps| && s.snaps[sid].Some? }

  // ---- invariants

  ghost predicate RotxOk(s: State, id: int)
    requires Live(s, id)
  {
    var rx := s.rotxs[id].value;
    && rx.tx < |s.started| && s.started[rx.tx] == rx.req
    && (if rx.waiting then rx.req.dep >= s.gst else rx.req.dep <= s.gst)
  }

  ghost predicate EventOk(s: State, e: SnapshotRequest) {
    Live(s, e.rid) && !s.rotxs[e.rid].value.waiting && e == Prepared(e.rid, s.rotxs[e.rid].value)
  }

  ghost predicate SnapOk(s: State, sid: int)
    requires LiveSnap(s, sid)
  {
    var snap := s.snaps[sid].value;
    && Live(s, snap.rid) && !s.rotxs[snap.rid].value.waiting
    && var req := s.rotxs[snap.rid].value.req;
    && snap.keys == req.keys
    && match snap.time
       case None => snap.gst == req.gst
       case Some(t) => req.dep <= t && req.gst <= t <= s.gst
  }

  /** Every transaction that does not wait has exactly one snapshot request or snapshot. */
  ghost predicate OneEach(s: State) {
    && (forall i, j :: 0 <= i < j < |s.events| ==> s.events[i].rid != s.events[j].rid)
    && (forall i, j :: 0 <= i < j < |s.snaps| && LiveSnap(s, i) && LiveSnap(s, j) ==>
      s.snaps[i].value.rid != s.snaps[j].value.rid)
    && (forall i, j :: 0 <= i < |s.events| && LiveSnap(s, j) ==> s.events[i].rid != s.snaps[j].value.rid)
    && forall id :: Live(s, id) && !s.rotxs[id].value.waiting ==> Asked(s, id)
  }

  ghost predicate Asked(s: State, id: int) {
    (exists i :: 0 <= i < |s.events| && s.events[i].rid == id) ||
      (exists j :: LiveSnap(s, j) && s.snaps[j].value.rid == id)
  }

  ghost predicate Distinct(xs: seq<nat>) { forall i, j :: 0 <= i < j < |xs| ==> xs[i] != xs[j] }

  /** Snapshots are asked for at most once, and not by those that wait. */
  ghost predicate RequestedOk(s: State) {
    && Distinct(s.requested)
    && (forall tx :: tx in s.requested ==> tx < |s.started|)
    && (forall id :: Live(s, id) ==> (s.rotxs[id].value.waiting <==> s.rotxs[id].value.tx !in s.requested))
    && forall j :: 0 <= j < |s.answers| ==> s.answers[j].tx in s.requested
  }

  ghost predicate AnswerOk(s: State, a: Answer) {
    && a.tx < |s.started| && a.client == s.started[a.tx].client
    && s.started[a.tx].dep <= a.time && s.started[a.tx].gst <= a.time <= s.gst
  }

  /** Every transaction is in one slot or answered once. */
  ghost predicate OnlyOnce(s: State) {
    && (forall i, j :: 0 <= i < j < |s.rotxs| && Live(s, i) && Live(s, j) ==>
      s.rotxs[i].value.tx != s.rotxs[j].value.tx)
    && (forall i, j :: 0 <= i < j < |s.answers| ==> s.answers[i].tx != s.answers[j].tx)
    && (forall i, j :: Live(s, i) && 0 <= j < |s.answers| ==> s.rotxs[i].value.tx != s.answers[j].tx)
    && forall tx :: 0 <= tx < |s.started| ==> Somewhere(s, tx)
  }

  ghost predicate Somewhere(s: State, tx: nat) {
    || (exists id :: Live(s, id) && s.rotxs[id].value.tx == tx)
    || exists j :: 0 <= j < |s.answers| && s.answers[j].tx == tx
  }

  ghost predicate Parts(s: State) {
    && (forall id :: Live(s, id) ==> RotxOk(s, id))
    && (forall i :: 0 <= i < |s.events| ==> EventOk(s, s.events[i]))
    && (forall sid :: LiveSnap(s, sid) ==> SnapOk(s, sid))
    && forall j :: 0 <= j < |s.answers| ==> AnswerOk(s, s.answers[j])
  }

  ghost predicate Inv(s: State) { Parts(s) && OneEach(s) && RequestedOk(s) && OnlyOnce(s) }

  // ---- a request

  lemma RequestParts(s: State, req: Tx)
    requires Inv(s)
    ensures Parts(DoRequest(s, req))
  {
    var s' := DoRequest(s, req);
    forall id | Live(s', id)
      ensures RotxOk(s', id)
    {
      if id != FirstFree(s.rotxs) { assert Live(s, id) && RotxOk(s, id); }
    }
    forall i | 0 <= i < |s'.events|
      ensures EventOk(s', s'.events[i])
    {
      if i < |s.events| { assert EventOk(s, s.events[i]); }
    }
    forall sid | LiveSnap(s', sid)
      ensures SnapOk(s', sid)
    {
      assert LiveSnap(s, sid) && SnapOk(s, sid);
    }
    forall j | 0 <= j < |s'.answers|
      ensures AnswerOk(s', s'.answers[j])
    {
      assert AnswerOk(s, s.answers[j]);
    }
  }

  lemma RequestOneEach(s: State, req: Tx)
    requires Inv(s)
    ensures OneEach(DoRequest(s, req))
  {
    var s', f := DoRequest(s, req), FirstFree(s.rotxs);
    assert forall i :: 0 <= i < |s.events| ==> EventOk(s, s.events[i]) && s.events[i].rid != f;
    assert forall j :: LiveSnap(s, j) ==> SnapOk(s, j) && s.snaps[j].value.rid != f;
    RequestDistinct(s, req);
    forall id | Live(s', id) && !s'.rotxs[id].value.waiting
      ensures Asked(s', id)
    {
      RequestAsked(s, req, id);
    }
  }

  lemma RequestDistinct(s: State, req: Tx)
    requires OneEach(s)
    requires forall i :: 0 <= i < |s.events| ==> s.events[i].rid != FirstFree(s.rotxs)
    requires forall j :: LiveSnap(s, j) ==> s.snaps[j].value.rid != FirstFree(s.rotxs)
    ensures var s' := DoRequest(s, req);
      && (forall i, j :: 0 <= i < j < |s'.events| ==> s'.events[i].rid != s'.events[j].rid)
      && s'.snaps == s.snaps
      && forall i, j :: 0 <= i < |s'.events| && LiveSnap(s', j) ==> s'.events[i].rid != s'.snaps[j].value.rid
  {
    assert forall j :: LiveSnap(DoRequest(s, req), j) <==> LiveSnap(s, j);
  }

  lemma RequestAsked(s: State, req: Tx, id: int)
    requires OneEach(s) && Live(DoRequest(s, req), id) && !DoRequest(s, req).rotxs[id].value.waiting
    ensures Asked(DoRequest(s, req), id)
  {
    var s', f := DoRequest(s, req), FirstFree(s.rotxs);
    if id == f {
      assert s'.events[|s.events|].rid == f;
    } else {
      assert Live(s, id) && Asked(s, id);
      if i :| 0 <= i < |s.events| && s.events[i].rid == id {
        assert s'.events[i].rid == id;
      } else {
        var j :| LiveSnap(s, j) && s.snaps[j].value.rid == id;
        assert LiveSnap(s', j);
      }
    }
  }

  lemma RequestRequested(s: State, req: Tx)
    requires Inv(s)
    ensures RequestedOk(DoRequest(s, req))
  {
    var s', f := DoRequest(s, req), FirstFree(s.rotxs);
    assert forall id :: Live(s', id) && id != f ==> Live(s, id) && RotxOk(s, id);
    DistinctJoin(s.requested, [|s.started|]);
  }

  lemma RequestOnlyOnce(s: State, req: Tx)
    requires Inv(s)
    ensures OnlyOnce(DoRequest(s, req))
  {
    var s', f := DoRequest(s, req), FirstFree(s.rotxs);
    assert forall id :: Live(s', id) && id != f ==> Live(s, id) && RotxOk(s, id);
    assert Live(s', f) && s'.rotxs[f].value.tx == |s.started|;
    forall tx | 0 <= tx < |s'.started|
      ensures Somewhere(s', tx)
    {
      if tx < |s.started| {
        assert Somewhere(s, tx);
        if id :| Live(s, id) && s.rotxs[id].value.tx == tx { assert Live(s', id); }
      }
    }
  }

  // ---- a new stable time

  /** What becomes of a slot when the stable time rises to `gst`. */
  lemma AfterUpdate(s: State, gst: Time, id: int)
    ensures Live(UpdateGst(s, gst), id) <==> Live(s, id)
    ensures Live(s, id) ==>
      var rx := s.rotxs[id].value;
      UpdateGst(s, gst).rotxs[id].value == rx.(waiting := rx.waiting && !(s.gst < gst && rx.req.dep < gst))
  {
  }

  lemma NewEvents(s: State, gst: Time, i: nat)
    requires s.gst < gst && |s.events| <= i < |UpdateGst(s, gst).events|
    ensures var e := UpdateGst(s, gst).events[i];
      Live(s, e.rid) && Wakes(s.rotxs[e.rid], gst) && e == Prepared(e.rid, s.rotxs[e.rid].value)
  {
    var ids := WokenIds(s.rotxs, gst, |s.rotxs|);
    assert ids[i - |s.events|] in ids;
  }

  lemma UpdateParts(s: State, gst: Time)
    requires Inv(s)
    ensures Parts(UpdateGst(s, gst))
  {
    var s' := UpdateGst(s, gst);
    forall id | Live(s', id)
      ensures RotxOk(s', id)
    {
      AfterUpdate(s, gst, id);
      assert RotxOk(s, id);
    }
    forall i | 0 <= i < |s'.events|
      ensures EventOk(s', s'.events[i])
    {
      AfterUpdate(s, gst, s'.events[i].rid);
      if i < |s.events| { assert EventOk(s, s.events[i]); } else { NewEvents(s, gst, i); }
    }
    forall sid | LiveSnap(s', sid)
      ensures SnapOk(s', sid)
    {
      assert LiveSnap(s, sid) && SnapOk(s, sid);
      AfterUpdate(s, gst, s.snaps[sid].value.rid);
    }
    forall j | 0 <= j < |s'.answers|
      ensures AnswerOk(s', s'.answers[j])
    {
      assert AnswerOk(s, s.answers[j]);
    }
  }

  lemma UpdateEventsDistinct(s: State, gst: Time, i: nat, j: nat)
    requires Inv(s) && i < j < |UpdateGst(s, gst).events|
    ensures UpdateGst(s, gst).events[i].rid != UpdateGst(s, gst).events[j].rid
  {
    if j >= |s.events| {
      NewEvents(s, gst, j);
      if i < |s.events| {
        assert EventOk(s, s.events[i]);
      } else {
        var ids := WokenIds(s.rotxs, gst, |s.rotxs|);
        assert ids[i - |s.events|] < ids[j - |s.events|];
      }
    }
  }

  lemma UpdateEventsApart(s: State, gst: Time, i: nat, j: int)
    requires Inv(s) && i < |UpdateGst(s, gst).events| && LiveSnap(s, j)
    ensures UpdateGst(s, gst).events[i].rid != s.snaps[j].value.rid
  {
    assert SnapOk(s, j);
    if i >= |s.events| { NewEvents(s, gst, i); }
  }

  lemma UpdateAsked(s: State, gst: Time, id: int)
    requires Inv(s) && Live(s, id) && !UpdateGst(s, gst).rotxs[id].value.waiting
    ensures Asked(UpdateGst(s, gst), id)
  {
    var s' := UpdateGst(s, gst);
    AfterUpdate(s, gst, id);
    if s.rotxs[id].value.waiting {
      var ids := WokenIds(s.rotxs, gst, |s.rotxs|);
      assert id in ids;
      var k :| 0 <= k < |ids| && ids[k] == id;
      assert s'.events[|s.events| + k].rid == id;
    } else {
      assert Asked(s, id);
      if i :| 0 <= i < |s.events| && s.events[i].rid == id {
        assert s'.events[i].rid == id;
      } else {
        var j :| LiveSnap(s, j) && s.snaps[j].value.rid == id;
        assert LiveSnap(s', j);
      }
    }
  }

  lemma UpdateOneEach(s: State, gst: Time)
    requires Inv(s)
    ensures OneEach(UpdateGst(s, gst))
  {
    var s' := UpdateGst(s, gst);
    assert forall j :: LiveSnap(s', j) <==> LiveSnap(s, j);
    forall i, j | 0 <= i < j < |s'.events|
      ensures s'.events[i].rid != s'.events[j].rid
    {
      UpdateEventsDistinct(s, gst, i, j);
    }
    forall i, j | 0 <= i < |s'.events| && LiveSnap(s', j)
      ensures s'.events[i].rid != s'.snaps[j].value.rid
    {
      UpdateEventsApart(s, gst, i, j);
    }
    forall id | Live(s', id) && !s'.rotxs[id].value.waiting
      ensures Asked(s', id)
    {
      AfterUpdate(s, gst, id);
      UpdateAsked(s, gst, id);
    }
  }

  /** The transactions that ask now had not asked before, and are all different. */
  lemma NewRequests(s: State, gst: Time)
    requires Inv(s)
    ensures var txs := TxsOf(s.rotxs, WokenIds(s.rotxs, gst, |s.rotxs|));
      Distinct(txs) && forall tx :: tx in txs ==> tx !in s.requested && tx < |s.started|
  {
    var ids := WokenIds(s.rotxs, gst, |s.rotxs|);
    var txs := TxsOf(s.rotxs, ids);
    forall i | 0 <= i < |txs|
      ensures Live(s, ids[i]) && txs[i] == s.rotxs[ids[i]].value.tx && txs[i] !in s.requested && txs[i] < |s.started|
    {
      assert ids[i] in ids;
      assert Live(s, ids[i]) && RotxOk(s, ids[i]);
    }
    forall i, j | 0 <= i < j < |txs|
      ensures txs[i] != txs[j]
    {
      assert ids[i] < ids[j];
    }
  }

  lemma UpdateRequestedIff(s: State, gst: Time, id: int)
    requires Inv(s) && Live(s, id) && s.gst < gst
    ensures var s' := UpdateGst(s, gst); s'.rotxs[id].value.waiting <==> s.rotxs[id].value.tx !in s'.requested
  {
    var ids := WokenIds(s.rotxs, gst, |s.rotxs|);
    var txs := TxsOf(s.rotxs, ids);
    var rx := s.rotxs[id].value;
    AfterUpdate(s, gst, id);
    if id in ids {
      var k :| 0 <= k < |ids| && ids[k] == id;
      assert txs[k] == rx.tx;
    } else if rx.tx in txs {
      var k :| 0 <= k < |txs| && txs[k] == rx.tx;
      assert ids[k] in ids;
      assert Live(s, ids[k]);
      assert ids[k] != id;
    }
  }

  lemma UpdateRequested(s: State, gst: Time)
    requires Inv(s)
    ensures RequestedOk(UpdateGst(s, gst))
  {
    if s.gst < gst {
      var s' := UpdateGst(s, gst);
      var txs := TxsOf(s.rotxs, WokenIds(s.rotxs, gst, |s.rotxs|));
      NewRequests(s, gst);
      DistinctJoin(s.requested, txs);
      forall id | Live(s', id)
        ensures s'.rotxs[id].value.waiting <==> s'.rotxs[id].value.tx !in s'.requested
      {
        AfterUpdate(s, gst, id);
        UpdateRequestedIff(s, gst, id);
      }
    }
  }

  lemma DistinctJoin(xs: seq<nat>, ys: seq<nat>)
    requires Distinct(xs) && Distinct(ys) && forall y :: y in ys ==> y !in xs
    ensures Distinct(xs + ys)
  {
    forall i, j | 0 <= i < j < |xs + ys|
      ensures (xs + ys)[i] != (xs + ys)[j]
    {
      if i < |xs| <= j { assert ys[j - |xs|] in ys; }
    }
  }

  lemma UpdateOnlyOnce(s: State, gst: Time)
    requires Inv(s)
    ensures OnlyOnce(UpdateGst(s, gst))
  {
    var s' := UpdateGst(s, gst);
    forall id | Live(s', id) || Live(s, id)
      ensures Live(s', id) && Live(s, id) && s'.rotxs[id].value.tx == s.rotxs[id].value.tx
    {
      AfterUpdate(s, gst, id);
    }
    forall tx | 0 <= tx < |s'.started|
      ensures Somewhere(s', tx)
    {
      assert Somewhere(s, tx);
    }
  }

  lemma UpdateInv(s: State, gst: Time)
    requires Inv(s)
    ensures Inv(UpdateGst(s, gst))
  {
    UpdateParts(s, gst);
    UpdateOneEach(s, gst);
    UpdateRequested(s, gst);
    UpdateOnlyOnce(s, gst);
  }

  // ---- the snapshot

  lemma SnapshotParts(s: State, i: nat)
    requires Inv(s) && i < |s.events|
    ensures Parts(DoSnapshot(s, i))
  {
    var s' := DoSnapshot(s, i);
    assert EventOk(s, s.events[i]);
    assert forall id :: Live(s', id) <==> Live(s, id);
    forall id | Live(s', id)
      ensures RotxOk(s', id)
    {
      assert RotxOk(s, id);
    }
    forall j | 0 <= j < |s'.events|
      ensures EventOk(s', s'.events[j])
    {
      assert EventOk(s, s.events[if j < i then j else j + 1]);
    }
    forall sid | LiveSnap(s', sid)
      ensures SnapOk(s', sid)
    {
      if sid != FirstFree(s.snaps) { assert LiveSnap(s, sid) && SnapOk(s, sid); }
    }
    forall j | 0 <= j < |s'.answers|
      ensures AnswerOk(s', s'.answers[j])
    {
      assert AnswerOk(s, s.answers[j]);
    }
  }

  lemma SnapshotAsked(s: State, i: nat, id: int)
    requires i < |s.events| && Asked(s, id)
    ensures Asked(DoSnapshot(s, i), id)
  {
    var s' := DoSnapshot(s, i);
    if id == s.events[i].rid {
      assert LiveSnap(s', FirstFree(s.snaps));
    } else if j :| 0 <= j < |s.events| && s.events[j].rid == id {
      assert s'.events[if j < i then j else j - 1].rid == id;
    } else {
      var j :| LiveSnap(s, j) && s.snaps[j].value.rid == id;
      assert LiveSnap(s', j);
    }
  }

  /** The request that became a snapshot is gone. */
  lemma SnapshotDistinct(s: State, i: nat)
    requires OneEach(s) && i < |s.events|
    ensures var s' := DoSnapshot(s, i);
      && (forall j, k :: 0 <= j < k < |s'.events| ==> s'.events[j].rid != s'.events[k].rid)
      && (forall j, k :: 0 <= j < k < |s'.snaps| && LiveSnap(s', j) && LiveSnap(s', k) ==>
        s'.snaps[j].value.rid != s'.snaps[k].value.rid)
      && (forall j, k :: 0 <= j < |s'.events| && LiveSnap(s', k) ==> s'.events[j].rid != s'.snaps[k].value.rid)
  {
    var s', f := DoSnapshot(s, i), FirstFree(s.snaps);
    assert forall j :: 0 <= j < |s'.events| ==> s'.events[j] == s.events[if j < i then j else j + 1];
    assert forall j :: LiveSnap(s', j) && j != f ==> LiveSnap(s, j) && s'.snaps[j] == s.snaps[j];
  }

  lemma SnapshotOneEach(s: State, i: nat)
    requires Inv(s) && i < |s.events|
    ensures OneEach(DoSnapshot(s, i))
  {
    var s' := DoSnapshot(s, i);
    SnapshotDistinct(s, i);
    forall id | Live(s', id) && !s'.rotxs[id].value.waiting
      ensures Asked(s', id)
    {
      assert Live(s, id) && Asked(s, id);
      SnapshotAsked(s, i, id);
    }
  }

  lemma SameOnce(s: State, s': State)
    requires RequestedOk(s) && OnlyOnce(s)
    requires s'.rotxs == s.rotxs && s'.started == s.started && s'.requested == s.requested && s'.answers == s.answers
    ensures RequestedOk(s') && OnlyOnce(s')
  {
    assert forall id :: Live(s', id) <==> Live(s, id);
    forall tx | 0 <= tx < |s'.started|
      ensures Somewhere(s', tx)
    {
      assert Somewhere(s, tx);
    }
  }

  lemma ChooseInv(s: State, sid: nat)
    requires Inv(s) && LiveSnap(s, sid) && s.snaps[sid].value.time.None?
    ensures Inv(DoChoose(s, sid))
  {
    var snap := s.snaps[sid].value;
    var s1, s' := UpdateGst(s, snap.gst), DoChoose(s, sid);
    UpdateInv(s, snap.gst);
    assert LiveSnap(s1, sid) && SnapOk(s1, sid);
    ChooseParts(s1, s', sid);
    ChooseOneEach(s1, s', sid);
    SameOnce(s1, s');
  }

  lemma ChooseOneEach(s: State, s': State, sid: nat)
    requires OneEach(s) && LiveSnap(s, sid)
    requires s' == s.(snaps := s.snaps[sid := Some(s.snaps[sid].value.(gst := 0.0, time := Some(s.gst)))])
    ensures OneEach(s')
  {
    assert forall j :: LiveSnap(s', j) <==> LiveSnap(s, j);
    assert forall j :: LiveSnap(s, j) ==> s'.snaps[j].value.rid == s.snaps[j].value.rid;
    forall id | Live(s', id) && !s'.rotxs[id].value.waiting
      ensures Asked(s', id)
    {
      assert Live(s, id) && Asked(s, id);
      ChooseAsked(s, s', id);
    }
  }

  lemma ChooseAsked(s: State, s': State, id: int)
    requires Asked(s, id) && s'.events == s.events
    requires forall j :: LiveSnap(s, j) ==> LiveSnap(s', j) && s'.snaps[j].value.rid == s.snaps[j].value.rid
    ensures Asked(s', id)
  {
    if i :| 0 <= i < |s.events| && s.events[i].rid == id {
      assert s'.events[i].rid == id;
    } else {
      var j :| LiveSnap(s, j) && s.snaps[j].value.rid == id;
      assert LiveSnap(s', j);
    }
  }

  lemma ChooseParts(s: State, s': State, sid: nat)
    requires Parts(s) && LiveSnap(s, sid) && s.snaps[sid].value.time.None? && s.snaps[sid].value.gst <= s.gst
    requires s' == s.(snaps := s.snaps[sid := Some(s.snaps[sid].value.(gst := 0.0, time := Some(s.gst)))])
    ensures Parts(s')
  {
    assert SnapOk(s, sid);
    assert RotxOk(s, s.snaps[sid].value.rid);
    forall id | Live(s', id)
      ensures RotxOk(s', id)
    {
      assert Live(s, id) && RotxOk(s, id);
    }
    forall i | 0 <= i < |s'.events|
      ensures EventOk(s', s'.events[i])
    {
      assert EventOk(s, s.events[i]);
    }
    forall j | LiveSnap(s', j)
      ensures SnapOk(s', j)
    {
      assert LiveSnap(s, j) && SnapOk(s, j);
    }
    forall j | 0 <= j < |s'.answers|
      ensures AnswerOk(s', s'.answers[j])
    {
      assert AnswerOk(s, s.answers[j]);
    }
  }

  // ---- the answer

  lemma RespondParts(s: State, sid: nat, response: Response)
    requires Inv(s) && LiveSnap(s, sid) && SnapOk(s, sid) && s.snaps[sid].value.time.Some?
    ensures Parts(DoRespond(s, sid, response))
  {
    var s', rid := DoRespond(s, sid, response), s.snaps[sid].value.rid;
    assert RotxOk(s, rid);
    forall id | Live(s', id)
      ensures RotxOk(s', id)
    {
      assert Live(s, id) && RotxOk(s, id);
    }
    forall i | 0 <= i < |s'.events|
      ensures EventOk(s', s'.events[i])
    {
      assert EventOk(s, s.events[i]);
    }
    forall j | LiveSnap(s', j)
      ensures SnapOk(s', j)
    {
      assert LiveSnap(s, j) && SnapOk(s, j);
    }
    forall j | 0 <= j < |s'.answers|
      ensures AnswerOk(s', s'.answers[j])
    {
      if j < |s.answers| { assert AnswerOk(s, s.answers[j]); }
    }
  }

  lemma RespondOneEach(s: State, sid: nat, response: Response)
    requires Inv(s) && LiveSnap(s, sid) && SnapOk(s, sid) && s.snaps[sid].value.time.Some?
    ensures OneEach(DoRespond(s, sid, response))
  {
    var s', rid := DoRespond(s, sid, response), s.snaps[sid].value.rid;
    assert forall j :: LiveSnap(s', j) ==> LiveSnap(s, j) && s'.snaps[j] == s.snaps[j];
    forall id | Live(s', id) && !s'.rotxs[id].value.waiting
      ensures Asked(s', id)
    {
      assert Live(s, id) && Asked(s, id) && id != rid;
      if i :| 0 <= i < |s.events| && s.events[i].rid == id {
        assert s'.events[i].rid == id;
      } else {
        var j :| LiveSnap(s, j) && s.snaps[j].value.rid == id;
        assert LiveSnap(s', j);
      }
    }
  }

  lemma RespondOnce(s: State, sid: nat, response: Response)
    requires Inv(s) && LiveSnap(s, sid) && SnapOk(s, sid) && s.snaps[sid].value.time.Some?
    ensures RequestedOk(DoRespond(s, sid, response)) && OnlyOnce(DoRespond(s, sid, response))
  {
    var s', rid := DoRespond(s, sid, response), s.snaps[sid].value.rid;
    assert forall id :: Live(s', id) ==> Live(s, id) && id != rid && s'.rotxs[id] == s.rotxs[id];
    forall tx | 0 <= tx < |s'.started|
      ensures Somewhere(s', tx)
    {
      RespondSomewhere(s, sid, response, tx);
    }
  }

  lemma RespondSomewhere(s: State, sid: nat, response: Response, tx: nat)
    requires LiveSnap(s, sid) && SnapOk(s, sid) && s.snaps[sid].value.time.Some? && Somewhere(s, tx)
    ensures Somewhere(DoRespond(s, sid, response), tx)
  {
    var s' := DoRespond(s, sid, response);
    if id :| Live(s, id) && s.rotxs[id].value.tx == tx {
      if id == s.snaps[sid].value.rid { assert s'.answers[|s.answers|].tx == tx; } else { assert Live(s', id); }
    } else {
      var j :| 0 <= j < |s.answers| && s.answers[j].tx == tx;
      assert s'.answers[j] == s.answers[j];
    }
  }

  // ---- runs

  lemma StepInv(s: State, a: Action, s': State)
    requires Inv(s) && Next(s, a, s')
    ensures Inv(s')
  {
    match a {
      case Request(req) =>
        RequestParts(s, req);
        RequestOneEach(s, req);
        RequestRequested(s, req);
        RequestOnlyOnce(s, req);
      case RaiseGst(gst) => UpdateInv(s, gst);
      case TakeSnapshot(i) =>
        SnapshotParts(s, i);
        SnapshotOneEach(s, i);
        SameOnce(s, s');
      case ChooseTime(sid) => ChooseInv(s, sid);
      case Respond(sid, response) =>
        assert LiveSnap(s, sid) && SnapOk(s, sid);
        RespondParts(s, sid, response);
        RespondOneEach(s, sid, response);
        RespondOnce(s, sid, response);
    }
  }

  ghost predicate Run(ss: seq<State>, acts: seq<Action>) {
    && |ss| == |acts| + 1 && ss[0] == Init
    && forall k {:trigger acts[k]} :: 0 <= k < |acts| ==> Next(ss[k], acts[k], ss[k + 1])
  }

  lemma {:induction false} RunInv(ss: seq<State>, acts: seq<Action>, k: nat)
    requires Run(ss, acts) && k < |ss|
    ensures Inv(ss[k])
    decreases k
  {
    if k > 0 {
      RunInv(ss, acts, k - 1);
      StepInv(ss[k - 1], acts[k - 1], ss[k]);
    }
  }

  /**
   A waiting transaction depends on a time at or above the stable time and has not
   asked for its snapshot; one that does not wait has asked exactly once.
   */
  lemma WaitingIffNotRequested(ss: seq<State>, acts: seq<Action>, k: nat, id: nat)
    requires Run(ss, acts) && k < |ss| && Live(ss[k], id)
    ensures var rx := ss[k].rotxs[id].value;
      if rx.waiting then rx.req.dep >= ss[k].gst && rx.tx !in ss[k].requested
      else rx.req.dep <= ss[k].gst && multiset(ss[k].requested)[rx.tx] == 1
  {
    RunInv(ss, acts, k);
    assert RotxOk(ss[k], id);
    CountOnce(ss[k].requested, ss[k].rotxs[id].value.tx);
  }

  lemma {:induction false} CountOnce(xs: seq<nat>, x: nat)
    requires Distinct(xs)
    ensures multiset(xs)[x] == if x in xs then 1 else 0
  {
    if xs != [] {
      assert xs == [xs[0]] + xs[1..];
      CountOnce(xs[1..], x);
    }
  }

  /** Every answer comes from one snapshot, whose time covers the dependency time and the client's stable time. */
  lemma SnapshotCovers(ss: seq<State>, acts: seq<Action>, k: nat, j: nat)
    requires Run(ss, acts) && k < |ss| && j < |ss[k].answers|
    ensures AnswerOk(ss[k], ss[k].answers[j])
    ensures multiset(ss[k].requested)[ss[k].answers[j].tx] == 1
    ensures forall i :: 0 <= i < |ss[k].answers| && ss[k].answers[i].tx == ss[k].answers[j].tx ==> i == j
  {
    RunInv(ss, acts, k);
    CountOnce(ss[k].requested, ss[k].answers[j].tx);
  }

  /** Nothing is lost: with no request or snapshot under way, whoever is not answered waits. */
  lemma OnlyWaitersRemain(ss: seq<State>, acts: seq<Action>, k: nat, tx: nat)
    requires Run(ss, acts) && k < |ss| && tx < |ss[k].started|
    requires ss[k].events == [] && forall sid :: !LiveSnap(ss[k], sid)
    ensures (exists j :: 0 <= j < |ss[k].answers| && ss[k].answers[j].tx == tx) <==> tx in ss[k].requested
    ensures tx !in ss[k].requested ==> ss[k].started[tx].dep >= ss[k].gst
  {
    RunInv(ss, acts, k);
    var s := ss[k];
    assert Somewhere(s, tx);
    if id :| Live(s, id) && s.rotxs[id].value.tx == tx {
      assert RotxOk(s, id);
      assert !s.rotxs[id].value.waiting ==> Asked(s, id);
    }
  }

  /**
   The two tests differ at equality: with a dependency time equal to the stable time,
   a new transaction starts at once, while one that waited for exactly that stable time
   keeps waiting until the next one.
   */
  lemma WakeIsStrict(s: State, req: Tx, id: nat)
    requires Inv(s) && Live(s, id) && s.rotxs[id].value.waiting && s.gst < req.dep == s.rotxs[id].value.req.dep
    ensures UpdateGst(s, req.dep).rotxs[id] == s.rotxs[id]
    ensures var s1 := UpdateGst(s, req.dep);
      DoRequest(s1, req).rotxs[FirstFree(s1.rotxs)] == Some(Rotx(req, false, |s.started|))
    ensures forall t :: t > req.dep ==> UpdateGst(s, t).rotxs[id] == Some(s.rotxs[id].value.(waiting := false))
  {
    AfterUpdate(s, req.dep, id);
    assert FirstFree(UpdateGst(s, req.dep).rotxs) != id;
    forall t | t > req.dep
      ensures UpdateGst(s, t).rotxs[id] == Some(s.rotxs[id].value.(waiting := false))
    {
      AfterUpdate(s, t, id);
    }
  }
}
