/**
 How GentleRain gathers a snapshot (src/server/protocols/gr/snapshot.c and slice.c):
 once the snapshot time is chosen, one slice request per key goes to the owner of the
 key; the owner raises its stable time, reads at the snapshot time and replies.

 The machine runs next to a run of the whole store (System): slices are served, and
 replies arrive, at any later states of it and in any order, with any number of
 snapshots at once. Every answer is one snapshot: exactly what could have been read at
 all partitions in the state in which the time was chosen.
 */
module GrSnapshots {
  import opened Vectors
  import opened Store
  import opened Replication
  import opened PtrArrays
  import System
  import StableTimeSafety
  import Guarantees

  datatype Read = Read(value: nat, time: Time)

  /**
   `no` (the number of the snapshot), `todo` and `replies` are history: indices without a value,
   stable times received.
   */
  datatype Snapshot = Snapshot(keys: seq<nat>, time: Time, values: seq<nat>, updateTime: Time, gst: Time, received: nat,
    no: nat, todo: set<nat>, replies: set<Time>)

  datatype Msg =
    | Ask(sid: nat, keyId: nat, key: nat, time: Time)
    | Reply(sid: nat, keyId: nat, read: Read, gst: Time)

  datatype Answer = Answer(no: nat, values: seq<nat>, updateTime: Time, gst: Time)

  /** A snapshot that was taken: its time was chosen in state `at` of the store. */
  datatype Taken = Taken(keys: seq<nat>, time: Time, at: nat)

  /** `now` is the current state of the store; `taken` and `answers` are history. */
  datatype State = State(snaps: seq<Option<Snapshot>>, net: seq<Msg>, answers: seq<Answer>, taken: seq<Taken>, now: nat)

  const Init := State([], [], [], [], 0)

  // ---- the handlers

  function SliceRead(chain: Chain, t: Time): Read {
    match ReadAt(chain, v => InSnapshot(t, v))
    case None => Read(0, 0.0)
    case Some(v) => Read(v.value, v.time)
  }

  /** All indices below `n`. */
  function AllIds(n: nat): (ids: set<nat>)
    ensures |ids| == n && forall i: nat :: i in ids <==> i < n
  {
    if n == 0 then {} else AllIds(n - 1) + {n - 1}
  }

  function NewSnapshot(keys: seq<nat>, time: Time, no: nat): Snapshot {
    Snapshot(keys, time, seq(|keys|, _ => 0), 0.0, 0.0, 0, no, AllIds(|keys|), {})
  }

  /** One slice request per key. */
  function Asks(sid: nat, keys: seq<nat>, time: Time): (r: seq<Msg>)
    ensures |r| == |keys| && forall i :: 0 <= i < |r| ==> r[i] == Ask(sid, i, keys[i], time)
  {
    seq(|keys|, i requires 0 <= i < |keys| => Ask(sid, i, keys[i], time))
  }

  /** A reply goes into its place. */
  function Filled(sn: Snapshot, m: Msg): Snapshot
    requires m.Reply? && m.keyId < |sn.values|
  {
    sn.(values := sn.values[m.keyId := m.read.value], updateTime := Max(sn.updateTime, m.read.time),
      gst := Max(sn.gst, m.gst),
      received := sn.received + 1, todo := sn.todo - {m.keyId}, replies := sn.replies + {m.gst})
  }

  function DoBegin(s: State, keys: seq<nat>, time: Time): State {
    s.(snaps := Placed(s.snaps, NewSnapshot(keys, time, |s.taken|)),
      net := s.net + Asks(FirstFree(s.snaps), keys, time),
      taken := s.taken + [Taken(keys, time, s.now)])
  }

  function DoServe(s: State, i: nat, chain: Chain, gst: Time): State
    requires i < |s.net| && s.net[i].Ask?
  {
    var m := s.net[i];
    s.(net := s.net[i := Reply(m.sid, m.keyId, SliceRead(chain, m.time), gst)])
  }

  predicate HasPlace(s: State, i: nat) {
    i < |s.net| && s.net[i].Reply? && Live(s, s.net[i].sid) && s.net[i].keyId < |s.snaps[s.net[i].sid].value.values|
  }

  /** The completion test: the last value answers the client and frees the slot. */
  function DoCollect(s: State, i: nat): State
    requires HasPlace(s, i)
  {
    var m := s.net[i];
    var sn := Filled(s.snaps[m.sid].value, m);
    var done := sn.received == |sn.keys|;
    s.(net := s.net[..i] + s.net[i + 1..],
      snaps := s.snaps[m.sid := if done then None else Some(sn)],
      answers := s.answers + if done then [Answer(sn.no, sn.values, sn.updateTime, sn.gst)] else [])
  }

  predicate Collects(s: State, i: nat, s': State) { HasPlace(s, i) && s' == DoCollect(s, i) }

  predicate Live(s: State, id: int) { 0 <= id < |s.snaps| && s.snaps[id].Some? }

  /** The coordinating server, on its slots. `sent` and `answers` are what it hands to the network. */
  class Coordinator {
    const snaps: PtrArray<Snapshot>
    var sent: seq<Msg>
    var answers: seq<Answer>

    constructor ()
      ensures fresh(snaps) && snaps.data == [] && sent == [] && answers == []
    {
      snaps := new PtrArray();
      sent, answers := [], [];
    }

    /** The loop over the keys, after the unlock. */
    method SendSlices(sid: nat)
      requires sid < |snaps.data| && snaps.data[sid].Some?
      modifies this`sent
      ensures sent == old(sent) + Asks(sid, snaps.data[sid].value.keys, snaps.data[sid].value.time)
    {
      var sn := snaps.data[sid].value;
      for i := 0 to |sn.keys|
        invariant sent == old(sent) + Asks(sid, sn.keys, sn.time)[..i]
      {
        sent := sent + [Ask(sid, i, sn.keys[i], sn.time)];
      }
    }

    /** Puts the value into its place; answers and frees the slot when it was the last. */
    method ProcessSliceResponse(m: Msg)
      requires m.Reply? && m.sid < |snaps.data| && snaps.data[m.sid].Some? && m.keyId < |snaps.data[m.sid].value.values|
      modifies this`answers, snaps
      ensures var sn := Filled(old(snaps.data)[m.sid].value, m);
        && snaps.data == old(snaps.data)[m.sid := if sn.received == |sn.keys| then None else Some(sn)]
        && answers == old(answers) +
          if sn.received == |sn.keys| then [Answer(sn.no, sn.values, sn.updateTime, sn.gst)] else []
    {
      var sn := snaps.data[m.sid].value;
      sn := sn.(values := sn.values[m.keyId := m.read.value], todo := sn.todo - {m.keyId},
        replies := sn.replies + {m.gst});
      if sn.updateTime < m.read.time { sn := sn.(updateTime := m.read.time); }
      if sn.gst < m.gst { sn := sn.(gst := m.gst); }
      sn := sn.(received := sn.received + 1);
      if sn.received == |sn.keys| {
        answers := answers + [Answer(sn.no, sn.values, sn.updateTime, sn.gst)];
        snaps.Set(m.sid, None);
      } else {
        snaps.Set(m.sid, Some(sn));
      }
    }
  }

  /** The read of the slice request handler. */
  method ServeSlice(store: KeyValueStore, m: Msg, gst: Time) returns (reply: Msg)
    requires m.Ask?
    ensures reply == Reply(m.sid, m.keyId, SliceRead(ChainOf(store.items, m.key), m.time), gst)
  {
    var value, time, _ := store.GetValueAt(m.key, v => InSnapshot(m.time, v));
    reply := Reply(m.sid, m.keyId, Read(value, time), gst);
  }

  // ---- next to a run of the store

  /** A run of the store and the server (replica `r`, partition `p`) that coordinates. */
  datatype Env = Env(cfg: System.Config, ss: seq<System.State>, acts: seq<System.Action>, r: nat, p: nat)

  ghost predicate ValidEnv(e: Env) {
    System.Run(e.cfg, e.ss, e.acts) && e.cfg.policy == Gr && e.r < e.cfg.replicas && e.p < e.cfg.partitions
  }

  function Owner(e: Env, key: nat): nat
    requires e.cfg.partitions > 0
  {
    key % e.cfg.partitions
  }

  /** The versions of `key` in state `at` of the store, at its owner in the coordinator's replica. */
  ghost function ChainIn(e: Env, at: nat, key: nat): Chain
    requires ValidEnv(e) && at < |e.ss|
  {
    System.RunShape(e.cfg, e.ss, e.acts, at);
    System.KeyChain(e.cfg, e.ss[at], e.r, Owner(e, key), key)
  }

  ghost function GstIn(e: Env, at: nat, q: nat): (t: Time)
    requires ValidEnv(e) && at < |e.ss| && q < e.cfg.partitions
  {
    GstScalar(e, at, q);
    System.Gst(e.cfg, e.ss[at], e.r, q)[0]
  }

  lemma GstScalar(e: Env, at: nat, q: nat)
    requires ValidEnv(e) && at < |e.ss| && q < e.cfg.partitions
    ensures System.Shape(e.cfg, e.ss[at]) && |System.Gst(e.cfg, e.ss[at], e.r, q)| == 1
  {
    System.StableTimeSafe(e.cfg, e.ss, e.acts, at, e.r);
    assert System.IsStable(e.cfg, e.ss[at], e.r, System.Gst(e.cfg, e.ss[at], e.r, q));
    assert System.BelowVector(Gr, System.Gst(e.cfg, e.ss[at], e.r, q), System.VersionVector(e.cfg, e.ss[at], e.r, 0));
  }

  /** `t` is at most every entry of every version vector of the replica. */
  ghost predicate Stable(e: Env, at: nat, t: Time)
    requires ValidEnv(e) && at < |e.ss|
  {
    System.RunShape(e.cfg, e.ss, e.acts, at);
    Guarantees.Covered(e.cfg, e.ss[at], e.r, Guarantees.Everywhere(e.cfg.replicas, t))
  }

  lemma GstStable(e: Env, at: nat, q: nat)
    requires ValidEnv(e) && at < |e.ss| && q < e.cfg.partitions
    ensures Stable(e, at, GstIn(e, at, q))
  {
    GstScalar(e, at, q);
    Guarantees.SnapshotCovered(e.cfg, e.ss, e.acts, at, e.r, q, GstIn(e, at, q));
  }

  lemma StableLater(e: Env, at: nat, later: nat, t: Time)
    requires ValidEnv(e) && at <= later < |e.ss| && Stable(e, at, t)
    ensures Stable(e, later, t)
  {
    System.RunShape(e.cfg, e.ss, e.acts, at);
    Guarantees.NothingBelow(e.cfg, e.ss, e.acts, at, later, e.r, 0, 0, Guarantees.Everywhere(e.cfg.replicas, t));
  }

  /** A slice finds the same version in every state from the one in which the time was chosen. */
  lemma SliceReadFixed(e: Env, at: nat, later: nat, key: nat, t: Time)
    requires ValidEnv(e) && at <= later < |e.ss| && t == GstIn(e, at, e.p)
    ensures SliceRead(ChainIn(e, later, key), t) == SliceRead(ChainIn(e, at, key), t)
  {
    GstScalar(e, at, e.p);
    Guarantees.SnapshotStable(e.cfg, e.ss, e.acts, at, later, e.r, e.p, t, Owner(e, key), key);
  }

  datatype Action =
    | Elapse(later: nat)
    | Begin(keys: seq<nat>)
    | Serve(i: nat)
    | Collect(i: nat)

  ghost predicate Next(e: Env, s: State, a: Action, s': State)
    requires ValidEnv(e)
  {
    && s.now < |e.ss|
    && match a
       case Elapse(later) => s.now <= later < |e.ss| && s' == s.(now := later)
       // the time is the stable time that the critical section has left
       case Begin(keys) => s' == DoBegin(s, keys, GstIn(e, s.now, e.p))
       // the owner has raised its stable time to the snapshot time
       case Serve(i) =>
         && i < |s.net| && s.net[i].Ask?
         && var q := Owner(e, s.net[i].key);
         && s.net[i].time <= GstIn(e, s.now, q)
         && s' == DoServe(s, i, ChainIn(e, s.now, s.net[i].key), GstIn(e, s.now, q))
       case Collect(i) => Collects(s, i, s')
  }

  // ---- invariants

  ghost predicate Fits(e: Env, s: State) {
    && ValidEnv(e) && s.now < |e.ss|
    && forall n :: 0 <= n < |s.taken| ==> s.taken[n].at <= s.now && s.taken[n].time == GstIn(e, s.taken[n].at, e.p)
  }

  /** What index `k` of snapshot `n` should read. */
  ghost function Due(e: Env, s: State, n: nat, k: nat): Read
    requires Fits(e, s) && n < |s.taken| && k < |s.taken[n].keys|
  {
    SliceRead(ChainIn(e, s.taken[n].at, s.taken[n].keys[k]), s.taken[n].time)
  }

  ghost predicate Outstanding(net: seq<Msg>, id: int, k: nat) {
    exists j :: 0 <= j < |net| && net[j].sid == id && net[j].keyId == k
  }

  /** `values` and `updateTime` are right for the indices outside `todo`. */
  ghost predicate Right(e: Env, s: State, n: nat, values: seq<nat>, updateTime: Time, todo: set<nat>)
    requires Fits(e, s) && n < |s.taken|
  {
    && |values| == |s.taken[n].keys| && updateTime >= 0.0
    && (forall k: nat :: k < |values| && k !in todo ==>
      values[k] == Due(e, s, n, k).value && Due(e, s, n, k).time <= updateTime)
    && (updateTime == 0.0 || exists k: nat :: k < |values| && k !in todo && Due(e, s, n, k).time == updateTime)
  }

  /** `gst` is the largest stable time received; all of them cover the snapshot and are stable. */
  ghost predicate LargestReply(e: Env, s: State, n: nat, gst: Time, replies: set<Time>)
    requires Fits(e, s) && n < |s.taken|
  {
    && (forall t :: t in replies ==> s.taken[n].time <= t <= gst && Stable(e, s.now, t))
    && (gst in replies || gst == 0.0)
  }

  ghost predicate SnapOk(e: Env, s: State, id: int)
    requires Fits(e, s) && Live(s, id)
  {
    var sn := s.snaps[id].value;
    && sn.no < |s.taken| && sn.keys == s.taken[sn.no].keys && sn.time == s.taken[sn.no].time
    && Right(e, s, sn.no, sn.values, sn.updateTime, sn.todo) && LargestReply(e, s, sn.no, sn.gst, sn.replies)
    && sn.received + |sn.todo| == |sn.keys| && (sn.todo == {} ==> sn.keys == [])
    && forall k: nat :: k in sn.todo <==> k < |sn.keys| && Outstanding(s.net, id, k)
  }

  ghost predicate MsgOk(e: Env, s: State, m: Msg)
    requires Fits(e, s)
  {
    && Live(s, m.sid) && s.snaps[m.sid].value.no < |s.taken|
    && var n := s.snaps[m.sid].value.no;
    && m.keyId < |s.taken[n].keys|
    && match m
       case Ask(_, k, key, time) => key == s.taken[n].keys[k] && time == s.taken[n].time
       case Reply(_, k, read, gst) => read == Due(e, s, n, k) && s.taken[n].time <= gst && Stable(e, s.now, gst)
  }

  ghost predicate AnswerOk(e: Env, s: State, a: Answer)
    requires Fits(e, s)
  {
    && a.no < |s.taken| && s.taken[a.no].keys != [] && Right(e, s, a.no, a.values, a.updateTime, {})
    && s.taken[a.no].time <= a.gst && Stable(e, s.now, a.gst)
  }

  ghost predicate DistinctMsgs(net: seq<Msg>) {
    forall i, j :: 0 <= i < j < |net| ==> net[i].sid != net[j].sid || net[i].keyId != net[j].keyId
  }

  /** Every snapshot is in one slot or answered once. */
  ghost predicate OnlyOnce(s: State) {
    && (forall i, j :: Live(s, i) && Live(s, j) && i != j ==> s.snaps[i].value.no != s.snaps[j].value.no)
    && (forall i, j :: 0 <= i < j < |s.answers| ==> s.answers[i].no != s.answers[j].no)
    && (forall i, j :: Live(s, i) && 0 <= j < |s.answers| ==> s.snaps[i].value.no != s.answers[j].no)
    && forall n :: 0 <= n < |s.taken| ==> Somewhere(s, n)
  }

  ghost predicate Answered(s: State, n: nat) { exists j :: 0 <= j < |s.answers| && s.answers[j].no == n }

  ghost predicate Somewhere(s: State, n: nat) {
    (exists id :: Live(s, id) && s.snaps[id].value.no == n) || Answered(s, n)
  }

  ghost predicate Inv(e: Env, s: State) {
    && Fits(e, s)
    && (forall id :: Live(s, id) ==> SnapOk(e, s, id))
    && (forall j :: 0 <= j < |s.net| ==> MsgOk(e, s, s.net[j]))
    && (forall j :: 0 <= j < |s.answers| ==> AnswerOk(e, s, s.answers[j]))
    && DistinctMsgs(s.net) && OnlyOnce(s)
  }

  // ---- time passes

  lemma ElapseInv(e: Env, s: State, later: nat)
    requires Inv(e, s) && s.now <= later < |e.ss|
    ensures Inv(e, s.(now := later))
  {
    var s' := s.(now := later);
    forall t | Stable(e, s.now, t) ensures Stable(e, later, t) { StableLater(e, s.now, later, t); }
    assert Fits(e, s');
    forall id | Live(s', id)
      ensures SnapOk(e, s', id)
    {
      assert Live(s, id) && SnapOk(e, s, id);
      RightKeeps(e, s, s', s.snaps[id].value);
    }
    forall j | 0 <= j < |s'.net| ensures MsgOk(e, s', s'.net[j]) { assert MsgOk(e, s, s.net[j]); }
    forall j | 0 <= j < |s'.answers| ensures AnswerOk(e, s', s'.answers[j]) { ElapseAnswer(e, s, later, j); }
    forall n | 0 <= n < |s'.taken| ensures Somewhere(s', n) { SomewhereKeeps(s, s', n); }
  }

  lemma ElapseAnswer(e: Env, s: State, later: nat, j: nat)
    requires Inv(e, s) && s.now <= later < |e.ss| && Fits(e, s.(now := later)) && j < |s.answers|
    requires Stable(e, later, s.answers[j].gst)
    ensures AnswerOk(e, s.(now := later), s.answers[j])
  {
    assert AnswerOk(e, s, s.answers[j]);
    AnswerKeeps(e, s, s.(now := later), s.answers[j]);
  }

  /** What was right stays right: the state in which a time was chosen is past. */
  lemma RightKeeps(e: Env, s: State, s': State, sn: Snapshot)
    requires Fits(e, s) && Fits(e, s') && sn.no < |s.taken| <= |s'.taken| && s'.taken[sn.no] == s.taken[sn.no]
    requires Right(e, s, sn.no, sn.values, sn.updateTime, sn.todo)
    ensures Right(e, s', sn.no, sn.values, sn.updateTime, sn.todo)
  {
    assert forall k: nat :: k < |s.taken[sn.no].keys| ==> Due(e, s', sn.no, k) == Due(e, s, sn.no, k);
  }

  /** A slot that no message comes to or goes from. */
  lemma SnapKeeps(e: Env, s: State, s': State, id: int)
    requires Fits(e, s) && Fits(e, s') && s'.now == s.now && s.taken <= s'.taken
    requires Live(s, id) && Live(s', id) && s'.snaps[id] == s.snaps[id] && SnapOk(e, s, id)
    requires forall k: nat :: Outstanding(s'.net, id, k) <==> Outstanding(s.net, id, k)
    ensures SnapOk(e, s', id)
  {
    RightKeeps(e, s, s', s.snaps[id].value);
  }

  lemma AnswerKeeps(e: Env, s: State, s': State, a: Answer)
    requires Fits(e, s) && Fits(e, s') && a.no < |s.taken| <= |s'.taken| && s'.taken[a.no] == s.taken[a.no]
    requires Right(e, s, a.no, a.values, a.updateTime, {})
    ensures Right(e, s', a.no, a.values, a.updateTime, {})
  {
    assert forall k: nat :: k < |s.taken[a.no].keys| ==> Due(e, s', a.no, k) == Due(e, s, a.no, k);
  }

  lemma SomewhereKeeps(s: State, s': State, n: nat)
    requires n < |s.taken| && OnlyOnce(s) && s.answers <= s'.answers
    requires forall id :: Live(s, id) ==> Live(s', id) && s'.snaps[id].value.no == s.snaps[id].value.no
    ensures Somewhere(s', n)
  {
    assert Somewhere(s, n);
    if Answered(s, n) {
      var j :| 0 <= j < |s.answers| && s.answers[j].no == n;
      assert s'.answers[j] == s.answers[j];
    } else {
      var id :| Live(s, id) && s.snaps[id].value.no == n;
      assert Live(s', id);
    }
  }

  // ---- a snapshot begins

  lemma BeginFits(e: Env, s: State, keys: seq<nat>)
    requires Inv(e, s)
    ensures Fits(e, DoBegin(s, keys, GstIn(e, s.now, e.p)))
  {
  }

  lemma BeginNew(e: Env, s: State, keys: seq<nat>)
    requires Inv(e, s) && Fits(e, DoBegin(s, keys, GstIn(e, s.now, e.p)))
    ensures Live(DoBegin(s, keys, GstIn(e, s.now, e.p)), FirstFree(s.snaps))
    ensures SnapOk(e, DoBegin(s, keys, GstIn(e, s.now, e.p)), FirstFree(s.snaps))
  {
    var time, f := GstIn(e, s.now, e.p), FirstFree(s.snaps);
    var s' := DoBegin(s, keys, time);
    assert |keys| > 0 ==> 0 in AllIds(|keys|);
    forall k: nat
      ensures k in AllIds(|keys|) <==> k < |keys| && Outstanding(s'.net, f, k)
    {
      if k < |keys| { assert s'.net[|s.net| + k] == Ask(f, k, keys[k], time); }
    }
  }

  lemma BeginOld(e: Env, s: State, keys: seq<nat>, id: int)
    requires Inv(e, s) && Fits(e, DoBegin(s, keys, GstIn(e, s.now, e.p))) && Live(s, id)
    ensures Live(DoBegin(s, keys, GstIn(e, s.now, e.p)), id)
    ensures SnapOk(e, DoBegin(s, keys, GstIn(e, s.now, e.p)), id)
  {
    var time, f := GstIn(e, s.now, e.p), FirstFree(s.snaps);
    var s' := DoBegin(s, keys, time);
    forall k: nat
      ensures Outstanding(s'.net, id, k) <==> Outstanding(s.net, id, k)
    {
      AppendOther(s.net, Asks(f, keys, time), id, k, f);
    }
    SnapKeeps(e, s, s', id);
  }

  lemma AppendOther(net: seq<Msg>, more: seq<Msg>, id: int, k: nat, f: nat)
    requires id != f && forall j :: 0 <= j < |more| ==> more[j].sid == f
    ensures Outstanding(net + more, id, k) <==> Outstanding(net, id, k)
  {
    if Outstanding(net, id, k) {
      var j :| 0 <= j < |net| && net[j].sid == id && net[j].keyId == k;
      assert (net + more)[j] == net[j];
    }
  }

  lemma BeginMsgs(e: Env, s: State, keys: seq<nat>, j: nat)
    requires Inv(e, s) && Fits(e, DoBegin(s, keys, GstIn(e, s.now, e.p)))
    requires j < |DoBegin(s, keys, GstIn(e, s.now, e.p)).net|
    ensures MsgOk(e, DoBegin(s, keys, GstIn(e, s.now, e.p)), DoBegin(s, keys, GstIn(e, s.now, e.p)).net[j])
  {
    if j < |s.net| { assert MsgOk(e, s, s.net[j]); }
  }

  lemma BeginDistinct(e: Env, s: State, keys: seq<nat>, time: Time)
    requires Inv(e, s)
    ensures DistinctMsgs(DoBegin(s, keys, time).net)
  {
    var f := FirstFree(s.snaps);
    forall j | 0 <= j < |s.net| ensures s.net[j].sid != f { assert MsgOk(e, s, s.net[j]); }
    AppendDistinct(s.net, Asks(f, keys, time), f);
  }

  lemma AppendDistinct(net: seq<Msg>, more: seq<Msg>, f: nat)
    requires DistinctMsgs(net) && DistinctMsgs(more) && forall j :: 0 <= j < |net| ==> net[j].sid != f
    requires forall j :: 0 <= j < |more| ==> more[j].sid == f
    ensures DistinctMsgs(net + more)
  {
  }

  lemma BeginOnce(e: Env, s: State, keys: seq<nat>, time: Time)
    requires Inv(e, s)
    ensures OnlyOnce(DoBegin(s, keys, time))
  {
    var s', f := DoBegin(s, keys, time), FirstFree(s.snaps);
    assert forall id :: Live(s', id) && id != f ==> Live(s, id) && SnapOk(e, s, id) && s'.snaps[id] == s.snaps[id];
    assert forall j :: 0 <= j < |s.answers| ==> AnswerOk(e, s, s.answers[j]);
    forall n | 0 <= n < |s'.taken|
      ensures Somewhere(s', n)
    {
      if n < |s.taken| { SomewhereKeeps(s, s', n); } else { assert Live(s', f) && s'.snaps[f].value.no == n; }
    }
  }

  lemma BeginInv(e: Env, s: State, keys: seq<nat>)
    requires Inv(e, s)
    ensures Inv(e, DoBegin(s, keys, GstIn(e, s.now, e.p)))
  {
    var s' := DoBegin(s, keys, GstIn(e, s.now, e.p));
    BeginFits(e, s, keys);
    forall id | Live(s', id)
      ensures SnapOk(e, s', id)
    {
      if id == FirstFree(s.snaps) { BeginNew(e, s, keys); } else { BeginOld(e, s, keys, id); }
    }
    forall j | 0 <= j < |s'.net| ensures MsgOk(e, s', s'.net[j]) { BeginMsgs(e, s, keys, j); }
    forall j | 0 <= j < |s'.answers| ensures AnswerOk(e, s', s'.answers[j]) {
      assert AnswerOk(e, s, s.answers[j]);
      AnswerKeeps(e, s, s', s.answers[j]);
    }
    BeginDistinct(e, s, keys, GstIn(e, s.now, e.p));
    BeginOnce(e, s, keys, GstIn(e, s.now, e.p));
  }

  // ---- a slice is served

  lemma ServeMsg(e: Env, s: State, i: nat, s': State)
    requires Inv(e, s) && Next(e, s, Serve(i), s')
    ensures Fits(e, s') && MsgOk(e, s', s'.net[i])
  {
    var m := s.net[i];
    assert MsgOk(e, s, m);
    var n := s.snaps[m.sid].value.no;
    SliceReadFixed(e, s.taken[n].at, s.now, m.key, m.time);
    GstStable(e, s.now, Owner(e, m.key));
    assert Due(e, s', n, m.keyId) == s'.net[i].read;
  }

  lemma ServeSnap(e: Env, s: State, i: nat, s': State, id: int)
    requires Inv(e, s) && Next(e, s, Serve(i), s') && Fits(e, s') && Live(s, id)
    ensures SnapOk(e, s', id)
  {
    forall k: nat
      ensures Outstanding(s'.net, id, k) <==> Outstanding(s.net, id, k)
    {
      SamePlaces(s.net, s'.net, id, k);
    }
    SnapKeeps(e, s, s', id);
  }

  lemma ServeOthers(e: Env, s: State, i: nat, s': State, j: nat)
    requires Inv(e, s) && Next(e, s, Serve(i), s') && Fits(e, s') && j < |s.net| && j != i
    ensures MsgOk(e, s', s'.net[j])
  {
    assert MsgOk(e, s, s.net[j]);
  }

  lemma ServeAnswers(e: Env, s: State, i: nat, s': State, j: nat)
    requires Inv(e, s) && Next(e, s, Serve(i), s') && Fits(e, s') && j < |s.answers|
    ensures AnswerOk(e, s', s'.answers[j])
  {
    assert AnswerOk(e, s, s.answers[j]);
    AnswerKeeps(e, s, s', s.answers[j]);
  }

  lemma ServeOnce(s: State, i: nat, chain: Chain, gst: Time)
    requires DistinctMsgs(s.net) && OnlyOnce(s) && i < |s.net| && s.net[i].Ask?
    ensures DistinctMsgs(DoServe(s, i, chain, gst).net) && OnlyOnce(DoServe(s, i, chain, gst))
  {
    var s' := DoServe(s, i, chain, gst);
    assert forall id :: Live(s, id) <==> Live(s', id);
    forall n | 0 <= n < |s'.taken| ensures Somewhere(s', n) { SomewhereKeeps(s, s', n); }
  }

  lemma ServeInv(e: Env, s: State, i: nat, s': State)
    requires Inv(e, s) && Next(e, s, Serve(i), s')
    ensures Inv(e, s')
  {
    ServeMsg(e, s, i, s');
    forall id | Live(s', id) ensures SnapOk(e, s', id) { ServeSnap(e, s, i, s', id); }
    forall j | 0 <= j < |s'.net| ensures MsgOk(e, s', s'.net[j]) { if j != i { ServeOthers(e, s, i, s', j); } }
    forall j | 0 <= j < |s'.answers| ensures AnswerOk(e, s', s'.answers[j]) { ServeAnswers(e, s, i, s', j); }
    ServeOnce(s, i, ChainIn(e, s.now, s.net[i].key), GstIn(e, s.now, Owner(e, s.net[i].key)));
  }

  lemma SamePlaces(a: seq<Msg>, b: seq<Msg>, id: int, k: nat)
    requires |a| == |b| && forall j :: 0 <= j < |a| ==> a[j].sid == b[j].sid && a[j].keyId == b[j].keyId
    ensures Outstanding(a, id, k) <==> Outstanding(b, id, k)
  {
    if Outstanding(a, id, k) {
      var j :| 0 <= j < |a| && a[j].sid == id && a[j].keyId == k;
      assert b[j].sid == id;
    }
    if Outstanding(b, id, k) {
      var j :| 0 <= j < |b| && b[j].sid == id && b[j].keyId == k;
      assert a[j].sid == id;
    }
  }

  // ---- a reply is collected

  /** Taking message `i` out leaves every other place as it was. */
  lemma Without(net: seq<Msg>, i: nat, id: int, k: nat)
    requires i < |net| && DistinctMsgs(net)
    ensures DistinctMsgs(net[..i] + net[i + 1..])
    ensures Outstanding(net[..i] + net[i + 1..], id, k) <==>
      Outstanding(net, id, k) && !(net[i].sid == id && net[i].keyId == k)
  {
    var rest := net[..i] + net[i + 1..];
    assert forall j :: 0 <= j < |rest| ==> rest[j] == net[if j < i then j else j + 1];
    if Outstanding(net, id, k) {
      var j :| 0 <= j < |net| && net[j].sid == id && net[j].keyId == k;
      if j != i { assert rest[if j < i then j else j - 1] == net[j]; }
    }
  }

  /** The slot after the reply, whether or not it is the last. */
  lemma FilledRight(e: Env, s: State, i: nat)
    requires Inv(e, s) && i < |s.net| && s.net[i].Reply?
    ensures HasPlace(s, i)
    ensures var sn, sn' := s.snaps[s.net[i].sid].value, Filled(s.snaps[s.net[i].sid].value, s.net[i]);
      && sn.no < |s.taken| && sn.keys == s.taken[sn.no].keys
      && Right(e, s, sn.no, sn'.values, sn'.updateTime, sn'.todo) && LargestReply(e, s, sn.no, sn'.gst, sn'.replies)
      && sn'.received + |sn'.todo| == |sn.keys|
  {
    var m := s.net[i];
    assert MsgOk(e, s, m) && SnapOk(e, s, m.sid);
    var sn, sn' := s.snaps[m.sid].value, Filled(s.snaps[m.sid].value, m);
    assert Outstanding(s.net, m.sid, m.keyId);
    assert m.keyId in sn.todo;
    assert sn'.todo == sn.todo - {m.keyId};
    FilledTimes(e, s, sn, m);
    FilledReplies(e, s, sn, m);
  }

  lemma FilledReplies(e: Env, s: State, sn: Snapshot, m: Msg)
    requires Fits(e, s) && sn.no < |s.taken| && m.Reply? && m.keyId < |sn.values|
    requires LargestReply(e, s, sn.no, sn.gst, sn.replies) && s.taken[sn.no].time <= m.gst && Stable(e, s.now, m.gst)
    ensures LargestReply(e, s, sn.no, Filled(sn, m).gst, Filled(sn, m).replies)
  {
  }

  lemma FilledTimes(e: Env, s: State, sn: Snapshot, m: Msg)
    requires Fits(e, s) && sn.no < |s.taken| && m.Reply? && m.keyId < |sn.values|
    requires Right(e, s, sn.no, sn.values, sn.updateTime, sn.todo) && m.keyId in sn.todo
    requires m.read == Due(e, s, sn.no, m.keyId)
    ensures Right(e, s, sn.no, Filled(sn, m).values, Filled(sn, m).updateTime, Filled(sn, m).todo)
  {
    var sn' := Filled(sn, m);
    if sn.updateTime < m.read.time {
      assert m.keyId !in sn'.todo && Due(e, s, sn.no, m.keyId).time == sn'.updateTime;
    } else if sn.updateTime != 0.0 {
      var k: nat :| k < |sn.values| && k !in sn.todo && Due(e, s, sn.no, k).time == sn.updateTime;
      assert k !in sn'.todo;
    }
  }

  lemma CollectFits(e: Env, s: State, i: nat, s': State)
    requires Inv(e, s) && Collects(s, i, s')
    ensures Fits(e, s')
  {
  }

  /** When the count is complete, no message of the snapshot is left. */
  lemma CompleteIsAlone(e: Env, s: State, i: nat, j: nat)
    requires Inv(e, s) && HasPlace(s, i) && j < |s.net| && j != i
    requires s.snaps[s.net[i].sid].value.received + 1 == |s.snaps[s.net[i].sid].value.keys|
    ensures s.net[j].sid != s.net[i].sid
  {
    var m, m' := s.net[i], s.net[j];
    assert SnapOk(e, s, m.sid) && MsgOk(e, s, m) && MsgOk(e, s, m');
    var todo := s.snaps[m.sid].value.todo;
    assert Outstanding(s.net, m.sid, m.keyId) && Outstanding(s.net, m'.sid, m'.keyId);
    assert m.keyId in todo && |todo - {m.keyId}| == 0;
    assert todo - {m.keyId} == {};
  }

  lemma CollectSame(e: Env, s: State, i: nat, s': State)
    requires Inv(e, s) && Collects(s, i, s') && Fits(e, s') && Live(s', s.net[i].sid)
    ensures SnapOk(e, s', s.net[i].sid)
  {
    var m := s.net[i];
    FilledRight(e, s, i);
    assert SnapOk(e, s, m.sid);
    var sn' := s'.snaps[m.sid].value;
    RightKeeps(e, s, s', sn');
    TodoLeft(s.net, i, m.sid, s.snaps[m.sid].value.todo, |sn'.keys|);
  }

  lemma TodoLeft(net: seq<Msg>, i: nat, id: int, todo: set<nat>, n: nat)
    requires i < |net| && DistinctMsgs(net) && net[i].sid == id
    requires forall k: nat :: k in todo <==> k < n && Outstanding(net, id, k)
    ensures forall k: nat :: k in todo - {net[i].keyId} <==> k < n && Outstanding(net[..i] + net[i + 1..], id, k)
  {
    forall k: nat
      ensures k in todo - {net[i].keyId} <==> k < n && Outstanding(net[..i] + net[i + 1..], id, k)
    {
      Without(net, i, id, k);
    }
  }

  lemma CollectOther(e: Env, s: State, i: nat, s': State, id: int)
    requires Inv(e, s) && Collects(s, i, s') && Fits(e, s') && Live(s', id) && id != s.net[i].sid
    ensures SnapOk(e, s', id)
  {
    forall k: nat ensures Outstanding(s'.net, id, k) <==> Outstanding(s.net, id, k) { Without(s.net, i, id, k); }
    SnapKeeps(e, s, s', id);
  }

  lemma MsgKeeps(e: Env, s: State, s': State, m: Msg)
    requires Fits(e, s) && Fits(e, s') && s'.now == s.now && s'.taken == s.taken && MsgOk(e, s, m)
    requires Live(s', m.sid) && s'.snaps[m.sid].value.no == s.snaps[m.sid].value.no
    ensures MsgOk(e, s', m)
  {
  }

  /** The slot of every other message stays in use. */
  lemma CollectLive(e: Env, s: State, i: nat, s': State, j: nat)
    requires Inv(e, s) && Collects(s, i, s') && j < |s.net| && j != i
    ensures MsgOk(e, s, s.net[j]) && Live(s', s.net[j].sid) &&
      s'.snaps[s.net[j].sid].value.no == s.snaps[s.net[j].sid].value.no
  {
    if s'.snaps[s.net[i].sid].None? { CompleteIsAlone(e, s, i, j); }
  }

  lemma CollectMsg(e: Env, s: State, i: nat, s': State, j: nat)
    requires Inv(e, s) && Collects(s, i, s') && Fits(e, s') && j < |s.net| && j != i
    ensures MsgOk(e, s', s.net[j])
  {
    CollectLive(e, s, i, s', j);
    MsgKeeps(e, s, s', s.net[j]);
  }

  /** What remains was there before. */
  lemma Remaining(net: seq<Msg>, i: nat, j: nat) returns (j0: nat)
    requires i < |net| && j < |net[..i] + net[i + 1..]|
    ensures j0 < |net| && j0 != i && (net[..i] + net[i + 1..])[j] == net[j0]
  {
    j0 := if j < i then j else j + 1;
  }

  lemma CollectAnswers(e: Env, s: State, i: nat, s': State, j: nat)
    requires Inv(e, s) && Collects(s, i, s') && Fits(e, s') && j < |s'.answers|
    ensures AnswerOk(e, s', s'.answers[j])
  {
    if j < |s.answers| {
      assert AnswerOk(e, s, s.answers[j]);
      AnswerKeeps(e, s, s', s.answers[j]);
    } else {
      LastAnswer(e, s, i);
      AnswerKeeps(e, s, s', s'.answers[j]);
    }
  }

  /** What the last reply completes. */
  lemma LastAnswer(e: Env, s: State, i: nat)
    requires Inv(e, s) && HasPlace(s, i)
    requires Filled(s.snaps[s.net[i].sid].value, s.net[i]).received == |s.snaps[s.net[i].sid].value.keys|
    ensures var sn' := Filled(s.snaps[s.net[i].sid].value, s.net[i]);
      AnswerOk(e, s, Answer(sn'.no, sn'.values, sn'.updateTime, sn'.gst))
  {
    FilledRight(e, s, i);
    var sn' := Filled(s.snaps[s.net[i].sid].value, s.net[i]);
    assert s.net[i].gst in sn'.replies;
    assert sn'.todo == {};
    ZeroStable(e, s.now);
  }

  lemma ZeroStable(e: Env, at: nat)
    requires ValidEnv(e) && at < |e.ss|
    ensures Stable(e, at, 0.0)
  {
    System.RunShape(e.cfg, e.ss, e.acts, at);
    Guarantees.NonNegative(e.cfg, e.ss, e.acts, at, e.r);
  }

  lemma CollectOnce(s: State, i: nat)
    requires OnlyOnce(s) && HasPlace(s, i)
    ensures OnlyOnce(DoCollect(s, i))
  {
    var s', c := DoCollect(s, i), s.net[i].sid;
    assert forall id :: Live(s', id) ==> Live(s, id) && s'.snaps[id].value.no == s.snaps[id].value.no;
    forall n | 0 <= n < |s'.taken|
      ensures Somewhere(s', n)
    {
      if s'.snaps[c].None? && s.snaps[c].value.no == n {
        assert s'.answers[|s.answers|].no == n;
      } else {
        CollectSomewhere(s, s', c, n);
      }
    }
  }

  lemma CollectSomewhere(s: State, s': State, c: nat, n: nat)
    requires n < |s.taken| && OnlyOnce(s) && s.answers <= s'.answers && c < |s.snaps| == |s'.snaps|
    requires forall id :: Live(s, id) && id != c ==> s'.snaps[id] == s.snaps[id]
    requires Live(s, c) && (Live(s', c) ==> s'.snaps[c].value.no == s.snaps[c].value.no)
    requires (s'.snaps[c].None? ==> s.snaps[c].value.no != n)
    ensures Somewhere(s', n)
  {
    assert Somewhere(s, n);
    if Answered(s, n) {
      var j :| 0 <= j < |s.answers| && s.answers[j].no == n;
      assert s'.answers[j] == s.answers[j];
    } else {
      var id :| Live(s, id) && s.snaps[id].value.no == n;
      assert Live(s', id);
    }
  }

  lemma CollectInv(e: Env, s: State, i: nat, s': State)
    requires Inv(e, s) && Collects(s, i, s')
    ensures Inv(e, s')
  {
    CollectFits(e, s, i, s');
    forall id | Live(s', id)
      ensures SnapOk(e, s', id)
    {
      if id == s.net[i].sid { CollectSame(e, s, i, s'); } else { CollectOther(e, s, i, s', id); }
    }
    forall j | 0 <= j < |s'.net| ensures MsgOk(e, s', s'.net[j]) {
      var j0 := Remaining(s.net, i, j);
      CollectMsg(e, s, i, s', j0);
    }
    forall j | 0 <= j < |s'.answers| ensures AnswerOk(e, s', s'.answers[j]) { CollectAnswers(e, s, i, s', j); }
    Without(s.net, i, 0, 0);
    CollectOnce(s, i);
  }

  // ---- runs

  lemma StepInv(e: Env, s: State, a: Action, s': State)
    requires Inv(e, s) && Next(e, s, a, s')
    ensures Inv(e, s')
  {
    match a {
      case Elapse(later) => ElapseInv(e, s, later);
      case Begin(keys) => BeginInv(e, s, keys);
      case Serve(i) => ServeInv(e, s, i, s');
      case Collect(i) => CollectInv(e, s, i, s');
    }
  }

  ghost predicate Run(e: Env, gs: seq<State>, acts: seq<Action>) {
    && ValidEnv(e) && |gs| == |acts| + 1 && gs[0] == Init
    && forall k {:trigger acts[k]} :: 0 <= k < |acts| ==> Next(e, gs[k], acts[k], gs[k + 1])
  }

  lemma InitInv(e: Env)
    requires ValidEnv(e)
    ensures Inv(e, Init)
  {
  }

  lemma {:induction false} RunInv(e: Env, gs: seq<State>, acts: seq<Action>, k: nat)
    requires Run(e, gs, acts) && k < |gs|
    ensures Inv(e, gs[k])
    decreases k
  {
    if k == 0 {
      InitInv(e);
    } else {
      RunInv(e, gs, acts, k - 1);
      StepInRun(e, gs, acts, k - 1);
    }
  }

  lemma StepInRun(e: Env, gs: seq<State>, acts: seq<Action>, k: nat)
    requires Run(e, gs, acts) && k < |acts| && Inv(e, gs[k])
    ensures Inv(e, gs[k + 1])
  {
    StepInv(e, gs[k], acts[k], gs[k + 1]);
  }

  /** No message arrives for a free slot, also when slots are used again, and every value has its place. */
  lemma NeverStale(e: Env, gs: seq<State>, acts: seq<Action>, k: nat, i: nat)
    requires Run(e, gs, acts) && k < |gs| && i < |gs[k].net|
    ensures Live(gs[k], gs[k].net[i].sid)
    ensures gs[k].net[i].Reply? ==> HasPlace(gs[k], i)
  {
    RunInv(e, gs, acts, k);
    assert MsgOk(e, gs[k], gs[k].net[i]);
    if gs[k].net[i].Reply? { FilledRight(e, gs[k], i); }
  }

  /**
   Every answer is one snapshot. It is the only answer of its snapshot; the value for
   every key, duplicates included, is the newest version at or below the snapshot time
   that its owner had in the one state in which the time was chosen; the update time is
   the largest of theirs; and the stable time covers the snapshot and is stable now.
   */
  lemma AnswerIsOneSnapshot(e: Env, gs: seq<State>, acts: seq<Action>, k: nat, j: nat)
    requires Run(e, gs, acts) && k < |gs| && j < |gs[k].answers|
    ensures var s, a := gs[k], gs[k].answers[j];
      && (forall j' :: 0 <= j' < |s.answers| && s.answers[j'].no == a.no ==> j' == j)
      && a.no < |s.taken| && ValidEnv(e) && s.taken[a.no].at <= s.now < |e.ss|
      && var tk := s.taken[a.no];
      && tk.time == GstIn(e, tk.at, e.p) && |a.values| == |tk.keys| > 0
      && (forall i :: 0 <= i < |tk.keys| ==>
        a.values[i] == SliceRead(ChainIn(e, tk.at, tk.keys[i]), tk.time).value
        && SliceRead(ChainIn(e, tk.at, tk.keys[i]), tk.time).time <= a.updateTime)
      && (a.updateTime == 0.0 || exists i ::
        0 <= i < |tk.keys| && SliceRead(ChainIn(e, tk.at, tk.keys[i]), tk.time).time == a.updateTime)
      && tk.time <= a.gst && Stable(e, s.now, a.gst)
  {
    RunInv(e, gs, acts, k);
    var s, a := gs[k], gs[k].answers[j];
    assert AnswerOk(e, s, a);
    assert forall i: nat :: i < |a.values| ==>
      Due(e, s, a.no, i) == SliceRead(ChainIn(e, s.taken[a.no].at, s.taken[a.no].keys[i]), s.taken[a.no].time);
  }

  /** Once all messages are delivered, exactly the snapshots with keys are answered. */
  lemma AnsweredIffKeys(e: Env, gs: seq<State>, acts: seq<Action>, k: nat, n: nat)
    requires Run(e, gs, acts) && k < |gs| && n < |gs[k].taken| && gs[k].net == []
    ensures Answered(gs[k], n) <==> gs[k].taken[n].keys != []
  {
    RunInv(e, gs, acts, k);
    var s := gs[k];
    if Answered(s, n) {
      var j :| 0 <= j < |s.answers| && s.answers[j].no == n;
      assert AnswerOk(e, s, s.answers[j]);
    } else {
      assert Somewhere(s, n);
      var id :| Live(s, id) && s.snaps[id].value.no == n;
      assert SnapOk(e, s, id);
      var sn := s.snaps[id].value;
      assert forall k :: k !in sn.todo;
      assert sn.todo == {};
    }
  }
}
