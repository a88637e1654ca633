/**
 Read-only transactions of GentleRain at the coordinating server: a transaction waits
 until the stable time reaches its dependency time, then asks for a snapshot once;
 the snapshot time is chosen under the lock (src/server/protocols/gr/rotx.c,
 src/server/protocols/gr/snapshot.c and `gr_update_gst`).
 */
module GrRotx {
  import opened Vectors
  import opened Store
  import opened PtrArrays

  /** What a client asks for, with its dependency time and the stable time it knows. */
  datatype Tx = Tx(client: nat, dep: Time, gst: Time, keys: seq<nat>)

  /** A transaction slot. `tx` is history: the number of the request. */
  datatype Rotx = Rotx(req: Tx, waiting: bool, tx: nat)

  /** A scheduled GR_GET_SNAPSHOT_REQUEST for transaction slot `rid`. */
  datatype SnapshotRequest = SnapshotRequest(rid: nat, gst: Time, keys: seq<nat>)

  /** `time` is uninitialised until it is chosen under the lock. */
  datatype Snapshot = Snapshot(rid: nat, gst: Time, keys: seq<nat>, time: Option<Time>)

  /** What the gathered snapshot holds. */
  datatype Response = Response(values: seq<nat>, updateTime: Time, gst: Time)

  /** The message to the client; `tx` and the snapshot time are history. */
  datatype Answer = Answer(client: nat, response: Response, tx: nat, time: Time)

  /** `requested` (the transactions that asked for a snapshot), `started` and `answers` are history. */
  datatype State = State(gst: Time, rotxs: seq<Option<Rotx>>, events: seq<SnapshotRequest>,
    snaps: seq<Option<Snapshot>>, started: seq<Tx>, requested: seq<nat>, answers: seq<Answer>)

  const Init := State(0.0, [], [], [], [], [], [])

  // ---- waking up

  predicate Wakes(slot: Option<Rotx>, gst: Time) { slot.Some? && slot.value.waiting && slot.value.req.dep < gst }

  /** The slots below `n` that the foreach callback wakes up, in slot order. */
  function WokenIds(rotxs: seq<Option<Rotx>>, gst: Time, n: nat): (ids: seq<nat>)
    requires n <= |rotxs|
    ensures forall i: nat :: i in ids <==> i < n && Wakes(rotxs[i], gst)
    ensures forall i, j :: 0 <= i < j < |ids| ==> ids[i] < ids[j]
  {
    if n == 0 then []
    else
      var ids := WokenIds(rotxs, gst, n - 1);
      assert forall i :: 0 <= i < |ids| ==> ids[i] in ids;
      if Wakes(rotxs[n - 1], gst) then ids + [n - 1] else ids
  }

  function Awake(rotxs: seq<Option<Rotx>>, gst: Time, n: nat): (r: seq<Option<Rotx>>)
    requires n <= |rotxs|
    ensures |r| == |rotxs|
  {
    seq(|rotxs|, i requires 0 <= i < |rotxs| =>
      if i < n && Wakes(rotxs[i], gst) then Some(rotxs[i].value.(waiting := false)) else rotxs[i])
  }

  /** The request that slot `id` keeps until it is sent. */
  function Prepared(id: nat, rx: Rotx): SnapshotRequest { SnapshotRequest(id, rx.req.gst, rx.req.keys) }

  function RequestsFor(rotxs: seq<Option<Rotx>>, ids: seq<nat>): seq<SnapshotRequest> {
    seq(|ids|, i requires 0 <= i < |ids| =>
      if ids[i] < |rotxs| && rotxs[ids[i]].Some? then Prepared(ids[i], rotxs[ids[i]].value)
      else SnapshotRequest(ids[i], 0.0, []))
  }

  function TxsOf(rotxs: seq<Option<Rotx>>, ids: seq<nat>): seq<nat> {
    seq(|ids|, i requires 0 <= i < |ids| =>
      if ids[i] < |rotxs| && rotxs[ids[i]].Some? then rotxs[ids[i]].value.tx else 0)
  }

  // ---- the handlers

  function DoRequest(s: State, req: Tx): State {
    var id, rx := FirstFree(s.rotxs), Rotx(req, req.dep > s.gst, |s.started|);
    var s1 := s.(rotxs := Placed(s.rotxs, rx), started := s.started + [req]);
    if req.dep <= s.gst then s1.(events := s.events + [Prepared(id, rx)], requested := s.requested + [rx.tx]) else s1
  }

  /** `gr_update_gst`, called with the stable times of requests, slices and broadcasts. */
  function UpdateGst(s: State, gst: Time): State {
    if s.gst < gst then
      var ids := WokenIds(s.rotxs, gst, |s.rotxs|);
      s.(gst := gst, rotxs := Awake(s.rotxs, gst, |s.rotxs|), events := s.events + RequestsFor(s.rotxs, ids),
        requested := s.requested + TxsOf(s.rotxs, ids))
    else s
  }

  function DoSnapshot(s: State, i: nat): State
    requires i < |s.events|
  {
    var ev := s.events[i];
    s.(snaps := Placed(s.snaps, Snapshot(ev.rid, ev.gst, ev.keys, None)), events := s.events[..i] + s.events[i + 1..])
  }

  function DoChoose(s: State, sid: nat): State
    requires sid < |s.snaps| && s.snaps[sid].Some?
  {
    var snap := s.snaps[sid].value;
    var s1 := UpdateGst(s, snap.gst);
    s1.(snaps := s.snaps[sid := Some(snap.(gst := 0.0, time := Some(s1.gst)))])
  }

  predicate CanRespond(s: State, sid: nat) {
    && sid < |s.snaps| && s.snaps[sid].Some? && s.snaps[sid].value.time.Some?
    && s.snaps[sid].value.rid < |s.rotxs| && s.rotxs[s.snaps[sid].value.rid].Some?
  }

  /** All slices are in: the client is answered, both slots are free again. */
  function DoRespond(s: State, sid: nat, response: Response): State
    requires CanRespond(s, sid)
  {
    var snap := s.snaps[sid].value;
    var rx := s.rotxs[snap.rid].value;
    s.(snaps := s.snaps[sid := None], rotxs := s.rotxs[snap.rid := None],
      answers := s.answers + [Answer(rx.req.client, response, rx.tx, snap.time.value)])
  }

  datatype Action =
    | Request(req: Tx)
    | RaiseGst(gst: Time)
    | TakeSnapshot(i: nat)
    | ChooseTime(sid: nat)
    | Respond(sid: nat, response: Response)

  /** Events are delivered, and locks granted, in any order. */
  ghost predicate Next(s: State, a: Action, s': State) {
    match a
    case Request(req) => s' == DoRequest(s, req)
    case RaiseGst(gst) => s' == UpdateGst(s, gst)
    case TakeSnapshot(i) => i < |s.events| && s' == DoSnapshot(s, i)
    case ChooseTime(sid) => sid < |s.snaps| && s.snaps[sid].Some? && s.snaps[sid].value.time.None? &&
      s' == DoChoose(s, sid)
    case Respond(sid, response) => CanRespond(s, sid) && s' == DoRespond(s, sid, response)
  }

  // ---- the server as the C code updates it

  class Server {
    var gst: Time
    const rotxs: PtrArray<Rotx>
    const snaps: PtrArray<Snapshot>
    var events: seq<SnapshotRequest>
    ghost var started: seq<Tx>
    ghost var requested: seq<nat>
    ghost var answers: seq<Answer>

    ghost predicate Valid()
      reads this, rotxs, snaps
    {
      (rotxs as object) != snaps
    }

    ghost function Abs(): State
      reads this, rotxs, snaps
    {
      State(gst, rotxs.data, events, snaps.data, started, requested, answers)
    }

    constructor ()
      ensures Valid() && fresh(rotxs) && fresh(snaps) && Abs() == Init
    {
      gst, events, started, requested, answers := 0.0, [], [], [], [];
      rotxs := new PtrArray();
      snaps := new PtrArray();
    }

    method SendSnapshotRequest(id: nat)
      requires id < |rotxs.data| && rotxs.data[id].Some?
      modifies this`events, this`requested
      ensures events == old(events) + [Prepared(id, rotxs.data[id].value)]
      ensures requested == old(requested) + [rotxs.data[id].value.tx]
    {
      var rx := rotxs.data[id].value;
      events := events + [SnapshotRequest(id, rx.req.gst, rx.req.keys)];
      requested := requested + [rx.tx];
    }

    /** `tx` numbers the request. */
    method ProcessRequest(tx: nat, req: Tx)
      requires Valid() && tx == |started|
      modifies this, rotxs
      ensures Valid() && Abs() == DoRequest(old(Abs()), req)
    {
      var id := rotxs.Put(Rotx(req, req.dep > gst, tx));
      started := started + [req];
      if req.dep <= gst {
        SendSnapshotRequest(id);
      }
    }

    /** The callback of the foreach, for slot `i`. */
    method GstUpdateCallback(i: nat)
      requires Valid() && i < |rotxs.data|
      modifies this`events, this`requested, rotxs
      ensures Valid()
      ensures var slot := old(rotxs.data)[i];
        && rotxs.data == (if Wakes(slot, gst) then old(rotxs.data)[i := Some(slot.value.(waiting := false))]
          else old(rotxs.data))
        && events == old(events) + (if Wakes(slot, gst) then [Prepared(i, slot.value)] else [])
        && requested == old(requested) + if Wakes(slot, gst) then [slot.value.tx] else []
    {
      var slot := rotxs.data[i];
      if slot.Some? && slot.value.waiting && slot.value.req.dep < gst {
        rotxs.Set(i, Some(slot.value.(waiting := false)));
        SendSnapshotRequest(i);
      }
    }

    /** The foreach over the waiting transactions. */
    method OnGstUpdated()
      requires Valid()
      modifies this`events, this`requested, rotxs
      ensures Valid()
      ensures var was := old(rotxs.data); var ids := WokenIds(was, gst, |was|);
        && rotxs.data == Awake(was, gst, |was|) && events == old(events) + RequestsFor(was, ids)
        && requested == old(requested) + TxsOf(was, ids)
    {
      ghost var was := rotxs.data;
      var i := 0;
      while i < |rotxs.data|
        invariant 0 <= i <= |was|
        invariant rotxs.data == Awake(was, gst, i)
        invariant events == old(events) + RequestsFor(was, WokenIds(was, gst, i))
        invariant requested == old(requested) + TxsOf(was, WokenIds(was, gst, i))
      {
        ForeachStep(was, gst, events, requested, i);
        GstUpdateCallback(i);
        i := i + 1;
      }
    }

    method UpdateStableTime(t: Time)
      requires Valid()
      modifies this, rotxs
      ensures Valid() && Abs() == UpdateGst(old(Abs()), t)
    {
      if gst < t {
        gst := t;
        OnGstUpdated();
      }
    }

    method ProcessSnapshotRequest(i: nat)
      requires Valid() && i < |events|
      modifies this, snaps
      ensures Valid() && Abs() == DoSnapshot(old(Abs()), i)
    {
      var _ := snaps.Put(Snapshot(events[i].rid, events[i].gst, events[i].keys, None));
      events := events[..i] + events[i + 1..];
    }

    method SnapshotLocked(sid: nat)
      requires Valid() && sid < |snaps.data| && snaps.data[sid].Some?
      modifies this, rotxs, snaps
      ensures Valid() && Abs() == DoChoose(old(Abs()), sid)
    {
      var snap := snaps.data[sid].value;
      UpdateStableTime(snap.gst);
      snaps.Set(sid, Some(snap.(gst := 0.0, time := Some(gst))));
    }

    /** What the snapshot gathered goes to the client of the transaction. */
    method SendResponse(sid: nat, response: Response)
      requires Valid() && CanRespond(Abs(), sid)
      modifies this, rotxs, snaps
      ensures Valid() && Abs() == DoRespond(old(Abs()), sid, response)
    {
      var snap := snaps.data[sid].value;
      var rx := rotxs.data[snap.rid].value;
      var sent := Response(response.values, response.updateTime, response.gst);
      answers := answers + [Answer(rx.req.client, sent, rx.tx, snap.time.value)];
      rotxs.Set(snap.rid, None);
      snaps.Set(sid, None);
    }
  }

  lemma AwakeStep(was: seq<Option<Rotx>>, gst: Time, i: nat)
    requires i < |was|
    ensures Awake(was, gst, i)[i] == was[i]
    ensures Awake(was, gst, i + 1) ==
      if Wakes(was[i], gst) then Awake(was, gst, i)[i := Some(was[i].value.(waiting := false))] else Awake(was, gst, i)
  {
    var a := Awake(was, gst, i + 1);
    if Wakes(was[i], gst) {
      assert a == Awake(was, gst, i)[i := Some(was[i].value.(waiting := false))];
    } else {
      assert a == Awake(was, gst, i);
    }
  }

  lemma RequestsStep(was: seq<Option<Rotx>>, gst: Time, i: nat)
    requires i < |was|
    ensures RequestsFor(was, WokenIds(was, gst, i + 1)) ==
      RequestsFor(was, WokenIds(was, gst, i)) + if Wakes(was[i], gst) then [Prepared(i, was[i].value)] else []
    ensures TxsOf(was, WokenIds(was, gst, i + 1)) ==
      TxsOf(was, WokenIds(was, gst, i)) + if Wakes(was[i], gst) then [was[i].value.tx] else []
  {
    if Wakes(was[i], gst) {
      var ids := WokenIds(was, gst, i);
      assert WokenIds(was, gst, i + 1) == ids + [i];
      SnocIds(was, ids, i);
    }
  }

  /** One iteration of the foreach, when `events` and `requested` come after what there was before. */
  lemma ForeachStep(was: seq<Option<Rotx>>, gst: Time, events: seq<SnapshotRequest>, requested: seq<nat>, i: nat)
    requires i < |was|
    ensures Awake(was, gst, i)[i] == was[i]
    ensures Awake(was, gst, i + 1) ==
      if Wakes(was[i], gst) then Awake(was, gst, i)[i := Some(was[i].value.(waiting := false))] else Awake(was, gst, i)
    ensures forall before :: events == before + RequestsFor(was, WokenIds(was, gst, i)) ==>
      events + (if Wakes(was[i], gst) then [Prepared(i, was[i].value)] else []) ==
        before + RequestsFor(was, WokenIds(was, gst, i + 1))
    ensures forall before :: requested == before + TxsOf(was, WokenIds(was, gst, i)) ==>
      requested + (if Wakes(was[i], gst) then [was[i].value.tx] else []) ==
        before + TxsOf(was, WokenIds(was, gst, i + 1))
  {
    AwakeStep(was, gst, i);
    RequestsStep(was, gst, i);
  }

  lemma SnocIds(was: seq<Option<Rotx>>, ids: seq<nat>, i: nat)
    requires i < |was| && was[i].Some?
    ensures RequestsFor(was, ids + [i]) == RequestsFor(was, ids) + [Prepared(i, was[i].value)]
    ensures TxsOf(was, ids + [i]) == TxsOf(was, ids) + [was[i].value.tx]
  {
  }
}
