/**
 Every run of a coordinator of read-only transactions: requests start at any time,
 slices are served and responses arrive in any order, slots are used again. Each
 transaction is answered exactly once, after every index holds the value read
 for its own key, with the largest update time of each source replica.
 */
module TransactionRuns {
  import opened Vectors
  import opened Store
  import opened PtrArrays
  import opened Transactions

  datatype Tx = Tx(client: nat, keys: seq<nat>)

  /**
   `net` holds the slice messages in flight. `started`, `answers` and `performed` are
   history; `performed[(tx, k)]` is the read made for index `k` of transaction `tx`.
   */
  datatype State = State(slots: seq<Option<Rotx>>, net: seq<Msg>, answers: seq<Answer>,
    started: seq<Tx>, performed: map<(nat, nat), Read>)

  const Init := State([], [], [], [], map[])

  datatype Action =
    | Start(client: nat, keys: seq<nat>)
    | Serve(i: nat, items: Items, times: Vec)
    | Collect(i: nat)

  function Perform(log: map<(nat, nat), Read>, tx: nat, ids: seq<nat>, found: seq<Read>, n: nat): map<(nat, nat), Read>
    requires n <= |ids| && n <= |found|
  {
    if n == 0 then log else Perform(log, tx, ids, found, n - 1)[(tx, ids[n - 1]) := found[n - 1]]
  }

  function DoStart(c: Config, s: State, client: nat, keys: seq<nat>): State {
    s.(slots := Placed(s.slots, NewRotx(c, |s.started|, client, keys)),
      net := s.net + Slices(c, FirstFree(s.slots), keys, c.partitions),
      started := s.started + [Tx(client, keys)])
  }

  /** A server reads the slice from its store, with its own snapshot vector. */
  function DoServe(s: State, i: nat, items: Items, times: Vec): State
    requires i < |s.net| && s.net[i].Request? && |s.net[i].keys| == |s.net[i].ids|
    requires s.net[i].id < |s.slots| && s.slots[s.net[i].id].Some?
  {
    var m := s.net[i];
    var found := ReadAll(items, m.keys, times);
    s.(net := s.net[i := Response(m.id, m.part, m.ids, found)],
      performed := Perform(s.performed, s.slots[m.id].value.tx, m.ids, found, |m.ids|))
  }

  function DoCollect(s: State, i: nat): State
    requires i < |s.net| && s.net[i].Response? && |s.net[i].found| == |s.net[i].ids|
    requires s.net[i].id < |s.slots| && s.slots[s.net[i].id].Some?
  {
    var m := s.net[i];
    var rx := Gathered(s.slots[m.id].value, m);
    var done := rx.received == |rx.values|;
    s.(net := s.net[..i] + s.net[i + 1..],
      slots := s.slots[m.id := if done then None else Some(rx)],
      answers := s.answers + if done then [Answer(rx.tx, rx.client, rx.values, rx.deps)] else [])
  }

  /** Stored versions name existing replicas as their source. */
  ghost predicate Sourced(c: Config, items: Items) {
    forall k, i :: k in items && 0 <= i < |items[k]| ==> items[k][i].source < c.replicas
  }

  ghost predicate Enabled(c: Config, s: State, a: Action) {
    match a
    case Start(_, _) => true
    case Serve(i, items, _) => i < |s.net| && s.net[i].Request? && Sourced(c, items)
    case Collect(i) => i < |s.net| && s.net[i].Response?
  }

  // ---- invariants

  ghost predicate Live(s: State, id: int) { 0 <= id < |s.slots| && s.slots[id].Some? }

  ghost predicate ReadOk(c: Config, s: State, tx: nat, k: nat) {
    (tx, k) in s.performed ==>
      && tx < |s.started| && k < |s.started[tx].keys|
      && s.performed[(tx, k)].key == s.started[tx].keys[k] && s.performed[(tx, k)].source < c.replicas
  }

  ghost predicate MsgOk(c: Config, s: State, m: Msg) {
    && Live(s, m.id)
    && var rx := s.slots[m.id].value;
       && m.part < c.partitions && m.ids == SliceIds(c, rx.keys, m.part) && m.ids != []
       && match m
          case Request(_, _, ids, keys) =>
            keys == Picked(rx.keys, ids) && forall i :: 0 <= i < |ids| ==> (rx.tx, ids[i]) !in s.performed
          case Response(_, _, ids, found) =>
            && |found| == |ids|
            && forall i :: 0 <= i < |ids| ==> (rx.tx, ids[i]) in s.performed && s.performed[(rx.tx, ids[i])] == found[i]
  }

  ghost predicate Outstanding(net: seq<Msg>, id: int, p: nat) {
    exists i :: 0 <= i < |net| && net[i].id == id && net[i].part == p
  }

  /** Per source, the largest update time among the values that are in. */
  ghost predicate SourceMax(log: map<(nat, nat), Read>, tx: nat, values: seq<Option<nat>>, deps: Vec) {
    && (forall k :: 0 <= k < |values| && values[k].Some? ==>
      (tx, k) in log && log[(tx, k)].source < |deps| && log[(tx, k)].time <= deps[log[(tx, k)].source])
    && forall i :: 0 <= i < |deps| ==> deps[i] >= 0.0 && (deps[i] == 0.0 || Attained(log, tx, values, i, deps[i]))
  }

  ghost predicate Attained(log: map<(nat, nat), Read>, tx: nat, values: seq<Option<nat>>, i: nat, t: Time) {
    exists k :: 0 <= k < |values| && values[k].Some? && (tx, k) in log && log[(tx, k)].source == i &&
      log[(tx, k)].time == t
  }

  ghost predicate ValuesRead(log: map<(nat, nat), Read>, tx: nat, values: seq<Option<nat>>) {
    forall k :: 0 <= k < |values| && values[k].Some? ==> (tx, k) in log && values[k].value == log[(tx, k)].value
  }

  function Filled(values: seq<Option<nat>>): nat {
    if values == [] then 0 else Filled(values[..|values| - 1]) + if values[|values| - 1].Some? then 1 else 0
  }

  ghost predicate RotxOk(c: Config, s: State, id: int)
    requires Live(s, id)
  {
    var rx := s.slots[id].value;
    && rx.tx < |s.started| && s.started[rx.tx] == Tx(rx.client, rx.keys)
    && |rx.values| == |rx.keys| && |rx.deps| == c.replicas
    && rx.received == Filled(rx.values) && (rx.received == |rx.values| ==> rx.keys == [])
    && ValuesRead(s.performed, rx.tx, rx.values) && SourceMax(s.performed, rx.tx, rx.values, rx.deps)
  }

  /** An index is open exactly while a message for its slice is in flight. */
  ghost predicate OpenOk(c: Config, s: State, id: int)
    requires Live(s, id)
  {
    var rx := s.slots[id].value;
    |rx.values| == |rx.keys| && forall k :: 0 <= k < |rx.keys| ==>
      (rx.values[k].None? <==> Outstanding(s.net, id, Owner(c, rx.keys[k])))
  }

  /** What the client may rely on. */
  ghost predicate AnswerOk(c: Config, s: State, a: Answer) {
    && a.tx < |s.started| && a.client == s.started[a.tx].client
    && |a.values| == |s.started[a.tx].keys| > 0 && |a.deps| == c.replicas
    && (forall k :: 0 <= k < |a.values| ==> a.values[k].Some?)
    && ValuesRead(s.performed, a.tx, a.values) && SourceMax(s.performed, a.tx, a.values, a.deps)
  }

  ghost predicate DistinctMsgs(net: seq<Msg>) {
    forall i, j :: 0 <= i < j < |net| ==> net[i].id != net[j].id || net[i].part != net[j].part
  }

  ghost predicate DistinctSlots(s: State) {
    forall i, j :: 0 <= i < j < |s.slots| && Live(s, i) && Live(s, j) ==> s.slots[i].value.tx != s.slots[j].value.tx
  }

  ghost predicate DistinctAnswers(s: State) {
    forall i, j :: 0 <= i < j < |s.answers| ==> s.answers[i].tx != s.answers[j].tx
  }

  ghost predicate NotBoth(s: State) {
    forall i, j :: Live(s, i) && 0 <= j < |s.answers| ==> s.slots[i].value.tx != s.answers[j].tx
  }

  ghost predicate Somewhere(s: State, tx: nat) {
    || (exists id :: Live(s, id) && s.slots[id].value.tx == tx)
    || exists j :: 0 <= j < |s.answers| && s.answers[j].tx == tx
  }

  ghost predicate Inv(c: Config, s: State) {
    && (forall tx, k :: ReadOk(c, s, tx, k))
    && (forall i :: 0 <= i < |s.net| ==> MsgOk(c, s, s.net[i]))
    && DistinctMsgs(s.net)
    && (forall id :: Live(s, id) ==> RotxOk(c, s, id))
    && (forall id :: Live(s, id) ==> OpenOk(c, s, id))
    && (forall j :: 0 <= j < |s.answers| ==> AnswerOk(c, s, s.answers[j]))
    && OnlyOnce(s)
  }

  /** Every transaction is in one slot or answered once. */
  ghost predicate OnlyOnce(s: State) {
    DistinctSlots(s) && DistinctAnswers(s) && NotBoth(s) && forall tx :: 0 <= tx < |s.started| ==> Somewhere(s, tx)
  }

  // ---- a transaction starts

  lemma StartMsgs(c: Config, s: State, client: nat, keys: seq<nat>, i: nat)
    requires Inv(c, s) && c.partitions > 0 && i < |DoStart(c, s, client, keys).net|
    ensures var s' := DoStart(c, s, client, keys); MsgOk(c, s', s'.net[i])
    ensures i < |s.net| <==> DoStart(c, s, client, keys).net[i].id != FirstFree(s.slots)
  {
    var s', id := DoStart(c, s, client, keys), FirstFree(s.slots);
    var m := s'.net[i];
    if i < |s.net| {
      assert MsgOk(c, s, m);
    } else {
      SlicesAre(c, id, keys, c.partitions);
      assert m == Slices(c, id, keys, c.partitions)[i - |s.net|];
      forall k | 0 <= k < |m.ids|
        ensures (|s.started|, m.ids[k]) !in s.performed
      {
        assert ReadOk(c, s, |s.started|, m.ids[k]);
      }
    }
  }

  lemma StartDistinct(c: Config, s: State, client: nat, keys: seq<nat>)
    requires Inv(c, s) && c.partitions > 0
    ensures DistinctMsgs(DoStart(c, s, client, keys).net)
  {
    var net', id := DoStart(c, s, client, keys).net, FirstFree(s.slots);
    SlicesAre(c, id, keys, c.partitions);
    forall i, j | 0 <= i < j < |net'|
      ensures net'[i].id != net'[j].id || net'[i].part != net'[j].part
    {
      StartMsgs(c, s, client, keys, i);
      StartMsgs(c, s, client, keys, j);
    }
  }

  lemma StartRotx(c: Config, s: State, client: nat, keys: seq<nat>, id: nat)
    requires Inv(c, s) && Live(DoStart(c, s, client, keys), id)
    ensures RotxOk(c, DoStart(c, s, client, keys), id)
  {
    if id != FirstFree(s.slots) {
      assert Live(s, id) && RotxOk(c, s, id);
    } else {
      AllOpen(seq(|keys|, _ => None));
    }
  }

  lemma {:induction false} AllOpen(values: seq<Option<nat>>)
    requires forall k :: 0 <= k < |values| ==> values[k].None?
    ensures Filled(values) == 0
  {
    if values != [] { AllOpen(values[..|values| - 1]); }
  }

  lemma StartOpen(c: Config, s: State, client: nat, keys: seq<nat>, id: nat)
    requires Inv(c, s) && c.partitions > 0 && Live(DoStart(c, s, client, keys), id)
    ensures OpenOk(c, DoStart(c, s, client, keys), id)
  {
    var s', f := DoStart(c, s, client, keys), FirstFree(s.slots);
    var rx := s'.slots[id].value;
    if id != f { assert Live(s, id) && OpenOk(c, s, id); }
    forall k | 0 <= k < |rx.keys|
      ensures rx.values[k].None? <==> Outstanding(s'.net, id, Owner(c, rx.keys[k]))
    {
      if id != f {
        StartOthers(c, s, client, keys, id, Owner(c, rx.keys[k]));
      } else {
        StartSent(c, s, client, keys, k);
      }
    }
  }

  lemma StartOthers(c: Config, s: State, client: nat, keys: seq<nat>, id: nat, p: nat)
    requires Inv(c, s) && c.partitions > 0 && id != FirstFree(s.slots)
    ensures Outstanding(DoStart(c, s, client, keys).net, id, p) <==> Outstanding(s.net, id, p)
  {
    var net' := DoStart(c, s, client, keys).net;
    if Outstanding(s.net, id, p) {
      var i :| 0 <= i < |s.net| && s.net[i].id == id && s.net[i].part == p;
      assert net'[i] == s.net[i];
    }
    if Outstanding(net', id, p) {
      var i :| 0 <= i < |net'| && net'[i].id == id && net'[i].part == p;
      StartMsgs(c, s, client, keys, i);
      assert net'[i] == s.net[i];
    }
  }

  lemma StartSent(c: Config, s: State, client: nat, keys: seq<nat>, k: nat)
    requires c.partitions > 0 && k < |keys|
    ensures Outstanding(DoStart(c, s, client, keys).net, FirstFree(s.slots), Owner(c, keys[k]))
  {
    var f, p := FirstFree(s.slots), Owner(c, keys[k]);
    var slices := Slices(c, f, keys, c.partitions);
    assert k in SliceIds(c, keys, p);
    SliceSent(c, f, keys, c.partitions, p);
    SlicesAre(c, f, keys, c.partitions);
    var i :| 0 <= i < |slices| && slices[i].part == p;
    assert DoStart(c, s, client, keys).net[|s.net| + i] == slices[i];
  }

  lemma StartOnce(c: Config, s: State, client: nat, keys: seq<nat>)
    requires Inv(c, s)
    ensures OnlyOnce(DoStart(c, s, client, keys))
  {
    var s', f := DoStart(c, s, client, keys), FirstFree(s.slots);
    assert forall id :: Live(s', id) && id != f ==> Live(s, id) && RotxOk(c, s, id);
    assert Live(s', f) && s'.slots[f].value.tx == |s.started|;
    forall tx | 0 <= tx < |s'.started|
      ensures Somewhere(s', tx)
    {
      if tx < |s.started| {
        assert Somewhere(s, tx);
        if id :| Live(s, id) && s.slots[id].value.tx == tx { assert Live(s', id); }
      }
    }
  }

  lemma StartInv(c: Config, s: State, client: nat, keys: seq<nat>)
    requires Inv(c, s) && c.partitions > 0
    ensures Inv(c, DoStart(c, s, client, keys))
  {
    var s' := DoStart(c, s, client, keys);
    forall tx, k
      ensures ReadOk(c, s', tx, k)
    {
      assert ReadOk(c, s, tx, k);
    }
    forall i | 0 <= i < |s'.net|
      ensures MsgOk(c, s', s'.net[i])
    {
      StartMsgs(c, s, client, keys, i);
    }
    StartDistinct(c, s, client, keys);
    forall id | Live(s', id)
      ensures RotxOk(c, s', id) && OpenOk(c, s', id)
    {
      StartRotx(c, s, client, keys, id);
      StartOpen(c, s, client, keys, id);
    }
    forall j | 0 <= j < |s'.answers|
      ensures AnswerOk(c, s', s'.answers[j])
    {
      assert AnswerOk(c, s, s.answers[j]);
    }
    StartOnce(c, s, client, keys);
  }

  // ---- a slice is served

  ghost predicate Extends(log: map<(nat, nat), Read>, log': map<(nat, nat), Read>) {
    forall x :: x in log ==> x in log' && log'[x] == log[x]
  }

  ghost predicate Ascending(ids: seq<nat>) { forall i, j :: 0 <= i < j < |ids| ==> ids[i] < ids[j] }

  lemma {:induction false} PerformAt(log: map<(nat, nat), Read>, tx: nat, ids: seq<nat>, found: seq<Read>, n: nat,
    i: nat)
    requires n <= |ids| && n <= |found| && Ascending(ids) && i < n
    ensures var log' := Perform(log, tx, ids, found, n); (tx, ids[i]) in log' && log'[(tx, ids[i])] == found[i]
  {
    if i < n - 1 { PerformAt(log, tx, ids, found, n - 1, i); }
  }

  lemma {:induction false} PerformElse(log: map<(nat, nat), Read>, tx: nat, ids: seq<nat>, found: seq<Read>, n: nat,
    x: (nat, nat))
    requires n <= |ids| && n <= |found| && (x.0 != tx || x.1 !in ids)
    ensures var log' := Perform(log, tx, ids, found, n); (x in log' <==> x in log) && (x in log ==> log'[x] == log[x])
  {
    if n > 0 {
      PerformElse(log, tx, ids, found, n - 1, x);
      assert ids[n - 1] in ids;
    }
  }

  lemma ValuesExtend(log: map<(nat, nat), Read>, log': map<(nat, nat), Read>, tx: nat, values: seq<Option<nat>>,
    deps: Vec)
    requires Extends(log, log') && ValuesRead(log, tx, values) && SourceMax(log, tx, values, deps)
    ensures ValuesRead(log', tx, values) && SourceMax(log', tx, values, deps)
  {
    forall i | 0 <= i < |deps| && deps[i] != 0.0
      ensures Attained(log', tx, values, i, deps[i])
    {
      assert Attained(log, tx, values, i, deps[i]);
    }
  }

  lemma ServeLog(c: Config, s: State, i: nat, items: Items, times: Vec)
    requires Inv(c, s) && i < |s.net| && s.net[i].Request? && MsgOk(c, s, s.net[i])
    ensures var m, log' := s.net[i], DoServe(s, i, items, times).performed; var tx := s.slots[m.id].value.tx;
      && Extends(s.performed, log')
      && (forall x :: x in log' ==> x in s.performed || (x.0 == tx && x.1 in m.ids))
      && forall j :: 0 <= j < |m.ids| ==>
        (tx, m.ids[j]) in log' && log'[(tx, m.ids[j])] == ReadOf(items, m.keys[j], times)
  {
    var m := s.net[i];
    var tx, found := s.slots[m.id].value.tx, ReadAll(items, m.keys, times);
    forall x: (nat, nat) | x.0 != tx || x.1 !in m.ids
      ensures var log' := DoServe(s, i, items, times).performed;
        (x in log' <==> x in s.performed) && (x in s.performed ==> log'[x] == s.performed[x])
    {
      PerformElse(s.performed, tx, m.ids, found, |m.ids|, x);
    }
    forall j | 0 <= j < |m.ids|
      ensures var log' := DoServe(s, i, items, times).performed;
        (tx, m.ids[j]) in log' && log'[(tx, m.ids[j])] == found[j]
    {
      PerformAt(s.performed, tx, m.ids, found, |m.ids|, j);
    }
  }

  lemma ServeReads(c: Config, s: State, i: nat, items: Items, times: Vec, tx: nat, k: nat)
    requires Inv(c, s) && i < |s.net| && s.net[i].Request? && MsgOk(c, s, s.net[i]) && Sourced(c, items)
    requires c.replicas > 0
    ensures ReadOk(c, DoServe(s, i, items, times), tx, k)
  {
    ServeLog(c, s, i, items, times);
    assert ReadOk(c, s, tx, k);
    var m := s.net[i];
    assert RotxOk(c, s, m.id);
    if (tx, k) !in s.performed && (tx, k) in DoServe(s, i, items, times).performed {
      var j :| 0 <= j < |m.ids| && m.ids[j] == k;
      ReadSourced(c, items, m.keys[j], times);
    }
  }

  lemma ReadSourced(c: Config, items: Items, key: nat, times: Vec)
    requires Sourced(c, items) && c.replicas > 0
    ensures ReadOf(items, key, times).key == key && ReadOf(items, key, times).source < c.replicas
  {
  }

  lemma ServeMsgs(c: Config, s: State, i: nat, items: Items, times: Vec, j: nat)
    requires Inv(c, s) && i < |s.net| && s.net[i].Request? && MsgOk(c, s, s.net[i]) && j < |s.net|
    ensures var s' := DoServe(s, i, items, times); MsgOk(c, s', s'.net[j])
  {
    ServeLog(c, s, i, items, times);
    var m, n := s.net[i], s.net[j];
    assert MsgOk(c, s, n);
    if j != i && n.Request? {
      var rx, ry := s.slots[m.id].value, s.slots[n.id].value;
      forall k | 0 <= k < |n.ids|
        ensures (ry.tx, n.ids[k]) !in DoServe(s, i, items, times).performed
      {
        if ry.tx == rx.tx {
          assert n.id == m.id;
          assert n.ids[k] in SliceIds(c, rx.keys, n.part);
          assert n.part != m.part;
        }
      }
    }
  }

  lemma ServeSlots(c: Config, s: State, i: nat, items: Items, times: Vec, id: int)
    requires Inv(c, s) && i < |s.net| && s.net[i].Request? && MsgOk(c, s, s.net[i]) && Live(s, id)
    ensures RotxOk(c, DoServe(s, i, items, times), id) && OpenOk(c, DoServe(s, i, items, times), id)
  {
    ServeLog(c, s, i, items, times);
    var s', rx := DoServe(s, i, items, times), s.slots[id].value;
    assert RotxOk(c, s, id) && OpenOk(c, s, id);
    ValuesExtend(s.performed, s'.performed, rx.tx, rx.values, rx.deps);
    forall k | 0 <= k < |rx.keys|
      ensures rx.values[k].None? <==> Outstanding(s'.net, id, Owner(c, rx.keys[k]))
    {
      SameShape(s.net, s'.net, id, Owner(c, rx.keys[k]));
    }
  }

  lemma SameShape(a: seq<Msg>, b: seq<Msg>, id: int, p: nat)
    requires |a| == |b| && forall i :: 0 <= i < |a| ==> a[i].id == b[i].id && a[i].part == b[i].part
    ensures Outstanding(a, id, p) <==> Outstanding(b, id, p)
  {
    if Outstanding(a, id, p) {
      var i :| 0 <= i < |a| && a[i].id == id && a[i].part == p;
      assert b[i].id == id;
    }
    if Outstanding(b, id, p) {
      var i :| 0 <= i < |b| && b[i].id == id && b[i].part == p;
      assert a[i].id == id;
    }
  }

  lemma ServeAnswer(c: Config, s: State, i: nat, items: Items, times: Vec, j: nat)
    requires Inv(c, s) && i < |s.net| && s.net[i].Request? && MsgOk(c, s, s.net[i]) && j < |s.answers|
    requires Extends(s.performed, DoServe(s, i, items, times).performed)
    ensures AnswerOk(c, DoServe(s, i, items, times), s.answers[j])
  {
    var a := s.answers[j];
    assert AnswerOk(c, s, a);
    ValuesExtend(s.performed, DoServe(s, i, items, times).performed, a.tx, a.values, a.deps);
  }

  lemma ServeInv(c: Config, s: State, i: nat, items: Items, times: Vec)
    requires Inv(c, s) && i < |s.net| && s.net[i].Request? && MsgOk(c, s, s.net[i]) && Sourced(c, items)
    requires c.replicas > 0
    ensures Inv(c, DoServe(s, i, items, times))
  {
    var s' := DoServe(s, i, items, times);
    ServeLog(c, s, i, items, times);
    forall tx, k
      ensures ReadOk(c, s', tx, k)
    {
      ServeReads(c, s, i, items, times, tx, k);
    }
    forall j | 0 <= j < |s'.net|
      ensures MsgOk(c, s', s'.net[j])
    {
      ServeMsgs(c, s, i, items, times, j);
    }
    forall id | Live(s', id)
      ensures RotxOk(c, s', id) && OpenOk(c, s', id)
    {
      assert Live(s, id);
      ServeSlots(c, s, i, items, times, id);
    }
    forall j | 0 <= j < |s'.answers|
      ensures AnswerOk(c, s', s'.answers[j])
    {
      ServeAnswer(c, s, i, items, times, j);
    }
    ServeOnce(s, i, items, times);
  }

  lemma ServeOnce(s: State, i: nat, items: Items, times: Vec)
    requires OnlyOnce(s) && i < |s.net| && s.net[i].Request? && |s.net[i].keys| == |s.net[i].ids|
    requires Live(s, s.net[i].id)
    ensures OnlyOnce(DoServe(s, i, items, times))
  {
    var s' := DoServe(s, i, items, times);
    assert forall id :: Live(s', id) <==> Live(s, id);
    forall tx | 0 <= tx < |s'.started|
      ensures Somewhere(s', tx)
    {
      assert Somewhere(s, tx);
    }
  }

  // ---- a response is gathered

  lemma {:induction false} FilledUpdate(values: seq<Option<nat>>, k: nat, v: nat)
    requires k < |values| && values[k].None?
    ensures Filled(values[k := Some(v)]) == Filled(values) + 1
  {
    var n := |values| - 1;
    if k < n {
      assert values[k := Some(v)][..n] == values[..n][k := Some(v)];
      FilledUpdate(values[..n], k, v);
    } else {
      assert values[k := Some(v)][..n] == values[..n];
    }
  }

  lemma {:induction false} FilledAll(values: seq<Option<nat>>)
    ensures Filled(values) <= |values|
    ensures Filled(values) == |values| <==> forall k :: 0 <= k < |values| ==> values[k].Some?
  {
    if values != [] { FilledAll(values[..|values| - 1]); }
  }

  /** What a response must be for its slot. */
  ghost predicate Fits(log: map<(nat, nat), Read>, rx: Rotx, ids: seq<nat>, found: seq<Read>) {
    && Ascending(ids) && |found| == |ids|
    && (forall i :: 0 <= i < |ids| ==> ids[i] < |rx.values| && rx.values[ids[i]].None?)
    && forall i :: 0 <= i < |ids| ==>
      (rx.tx, ids[i]) in log && log[(rx.tx, ids[i])] == found[i] && found[i].source < |rx.deps|
  }

  lemma {:induction false} GatherElse(rx: Rotx, ids: seq<nat>, found: seq<Read>, n: nat, k: nat)
    requires n <= |ids| && n <= |found| && k < |rx.values| && k !in ids[..n]
    ensures Gather(rx, ids, found, n).values[k] == rx.values[k]
  {
    if n > 0 {
      assert ids[..n] == ids[..n - 1] + [ids[n - 1]];
      GatherElse(rx, ids, found, n - 1, k);
    }
  }

  lemma {:induction false} GatherSets(log: map<(nat, nat), Read>, rx: Rotx, ids: seq<nat>, found: seq<Read>, n: nat,
    i: nat)
    requires Fits(log, rx, ids, found) && n <= |ids| && i < n
    ensures Gather(rx, ids, found, n).values[ids[i]] == Some(found[i].value)
  {
    if i < n - 1 { GatherSets(log, rx, ids, found, n - 1, i); }
  }

  lemma SourceMaxStep(log: map<(nat, nat), Read>, tx: nat, values: seq<Option<nat>>, deps: Vec, k: nat)
    requires SourceMax(log, tx, values, deps) && k < |values| && values[k].None?
    requires (tx, k) in log && log[(tx, k)].source < |deps|
    ensures var r := log[(tx, k)]; SourceMax(log, tx, values[k := Some(r.value)], RaiseDep(deps, r))
  {
    var r := log[(tx, k)];
    var values', deps' := values[k := Some(r.value)], RaiseDep(deps, r);
    forall i | 0 <= i < |deps'| && deps'[i] != 0.0
      ensures Attained(log, tx, values', i, deps'[i])
    {
      if deps'[i] == deps[i] {
        assert Attained(log, tx, values, i, deps[i]);
        var j :| 0 <= j < |values| && values[j].Some? && (tx, j) in log && log[(tx, j)].source == i &&
          log[(tx, j)].time == deps[i];
        assert values'[j] == values[j];
      } else {
        assert values'[k].Some?;
      }
    }
  }

  /** Value `n` of the response falls on an index that is still open. */
  lemma GatherOpen(log: map<(nat, nat), Read>, rx: Rotx, ids: seq<nat>, found: seq<Read>, n: nat)
    requires Fits(log, rx, ids, found) && n < |ids|
    ensures Gather(rx, ids, found, n).values[ids[n]].None?
  {
    assert ids[n] !in ids[..n];
    GatherElse(rx, ids, found, n, ids[n]);
  }

  lemma {:induction false} GatherCounts(log: map<(nat, nat), Read>, rx: Rotx, ids: seq<nat>, found: seq<Read>, n: nat)
    requires Fits(log, rx, ids, found) && n <= |ids|
    ensures Filled(Gather(rx, ids, found, n).values) == Filled(rx.values) + n
  {
    if n > 0 {
      GatherCounts(log, rx, ids, found, n - 1);
      GatherOpen(log, rx, ids, found, n - 1);
      FilledUpdate(Gather(rx, ids, found, n - 1).values, ids[n - 1], found[n - 1].value);
    }
  }

  lemma {:induction false} GatherReads(log: map<(nat, nat), Read>, rx: Rotx, ids: seq<nat>, found: seq<Read>, n: nat)
    requires Fits(log, rx, ids, found) && n <= |ids| && ValuesRead(log, rx.tx, rx.values)
    ensures ValuesRead(log, rx.tx, Gather(rx, ids, found, n).values)
  {
    if n > 0 { GatherReads(log, rx, ids, found, n - 1); }
  }

  ghost predicate RotxMax(log: map<(nat, nat), Read>, r: Rotx) { SourceMax(log, r.tx, r.values, r.deps) }

  lemma FillMax(log: map<(nat, nat), Read>, r: Rotx, k: nat, read: Read)
    requires RotxMax(log, r) && k < |r.values| && r.values[k].None?
    requires (r.tx, k) in log && log[(r.tx, k)] == read && read.source < |r.deps|
    ensures RotxMax(log, Fill(r, k, read))
  {
    SourceMaxStep(log, r.tx, r.values, r.deps, k);
  }

  lemma {:induction false} GatherMax(log: map<(nat, nat), Read>, rx: Rotx, ids: seq<nat>, found: seq<Read>, n: nat)
    requires Fits(log, rx, ids, found) && n <= |ids| && RotxMax(log, rx)
    ensures RotxMax(log, Gather(rx, ids, found, n))
  {
    if n > 0 {
      GatherMax(log, rx, ids, found, n - 1);
      GatherOpen(log, rx, ids, found, n - 1);
      FillMax(log, Gather(rx, ids, found, n - 1), ids[n - 1], found[n - 1]);
    }
  }

  lemma ResponseFits(c: Config, s: State, i: nat)
    requires Inv(c, s) && i < |s.net| && s.net[i].Response?
    ensures MsgOk(c, s, s.net[i]) && Fits(s.performed, s.slots[s.net[i].id].value, s.net[i].ids, s.net[i].found)
  {
    var m := s.net[i];
    assert MsgOk(c, s, m);
    var rx := s.slots[m.id].value;
    assert RotxOk(c, s, m.id) && OpenOk(c, s, m.id);
    forall j | 0 <= j < |m.ids|
      ensures m.ids[j] < |rx.values| && rx.values[m.ids[j]].None? && m.found[j].source < |rx.deps|
    {
      assert m.ids[j] in SliceIds(c, rx.keys, m.part);
      assert Outstanding(s.net, m.id, m.part);
      assert ReadOk(c, s, rx.tx, m.ids[j]);
    }
  }

  lemma WithoutMsg(net: seq<Msg>, i: nat, id: int, p: nat)
    requires i < |net| && DistinctMsgs(net)
    ensures DistinctMsgs(net[..i] + net[i + 1..])
    ensures Outstanding(net[..i] + net[i + 1..], id, p) <==>
      Outstanding(net, id, p) && !(net[i].id == id && net[i].part == p)
  {
    var net' := net[..i] + net[i + 1..];
    forall j | 0 <= j < |net'|
      ensures net'[j] == net[if j < i then j else j + 1]
    {
    }
    if Outstanding(net, id, p) && !(net[i].id == id && net[i].part == p) {
      var j :| 0 <= j < |net| && net[j].id == id && net[j].part == p;
      assert net'[if j < i then j else j - 1] == net[j];
    }
  }

  /** The slot after the response, before the test for completion. */
  function Updated(s: State, i: nat): Rotx
    requires i < |s.net| && s.net[i].Response? && |s.net[i].found| == |s.net[i].ids| && Live(s, s.net[i].id)
  {
    Gathered(s.slots[s.net[i].id].value, s.net[i])
  }

  lemma UpdatedOk(c: Config, s: State, i: nat)
    requires Inv(c, s) && i < |s.net| && s.net[i].Response? && MsgOk(c, s, s.net[i])
    ensures var rx := Updated(s, i);
      && ValuesRead(s.performed, rx.tx, rx.values) && SourceMax(s.performed, rx.tx, rx.values, rx.deps)
      && rx.received == Filled(rx.values) && rx.keys != []
  {
    var m := s.net[i];
    var rx := s.slots[m.id].value;
    ResponseFits(c, s, i);
    assert RotxOk(c, s, m.id);
    GatherCounts(s.performed, rx, m.ids, m.found, |m.ids|);
    GatherReads(s.performed, rx, m.ids, m.found, |m.ids|);
    GatherMax(s.performed, rx, m.ids, m.found, |m.ids|);
    assert m.ids[0] in SliceIds(c, rx.keys, m.part);
  }

  lemma UpdatedOpen(c: Config, s: State, i: nat, k: nat)
    requires Inv(c, s) && i < |s.net| && s.net[i].Response? && MsgOk(c, s, s.net[i]) && k < |Updated(s, i).keys|
    ensures |Updated(s, i).values| == |Updated(s, i).keys|
    ensures Updated(s, i).values[k].None? <==>
      Outstanding(DoCollect(s, i).net, s.net[i].id, Owner(c, Updated(s, i).keys[k]))
  {
    var m := s.net[i];
    var rx := s.slots[m.id].value;
    ResponseFits(c, s, i);
    assert RotxOk(c, s, m.id) && OpenOk(c, s, m.id);
    WithoutMsg(s.net, i, m.id, Owner(c, rx.keys[k]));
    assert k in m.ids <==> Owner(c, rx.keys[k]) == m.part;
    if k in m.ids {
      var j :| 0 <= j < |m.ids| && m.ids[j] == k;
      GatherSets(s.performed, rx, m.ids, m.found, |m.ids|, j);
    } else {
      assert m.ids[..|m.ids|] == m.ids;
      GatherElse(rx, m.ids, m.found, |m.ids|, k);
    }
  }

  /** When the last value is in, no message of the transaction is left: the slot may be used again. */
  lemma CompleteIsAlone(c: Config, s: State, i: nat, j: nat)
    requires Inv(c, s) && i < |s.net| && s.net[i].Response? && MsgOk(c, s, s.net[i])
    requires Updated(s, i).received == |Updated(s, i).values| && j < |s.net| && j != i
    ensures s.net[j].id != s.net[i].id
  {
    var rx := Updated(s, i);
    UpdatedOk(c, s, i);
    FilledAll(rx.values);
    var n, p := s.net[j], s.net[j].part;
    assert MsgOk(c, s, n);
    if n.id == s.net[i].id {
      var k := n.ids[0];
      assert k in SliceIds(c, rx.keys, p);
      UpdatedOpen(c, s, i, k);
      WithoutMsg(s.net, i, n.id, p);
    }
  }

  lemma CollectMsgs(c: Config, s: State, i: nat, j: nat)
    requires Inv(c, s) && i < |s.net| && s.net[i].Response? && MsgOk(c, s, s.net[i]) && j < |s.net| && j != i
    ensures MsgOk(c, DoCollect(s, i), s.net[j])
  {
    assert MsgOk(c, s, s.net[j]);
    if Updated(s, i).received == |Updated(s, i).values| { CompleteIsAlone(c, s, i, j); }
  }

  lemma CollectSlots(c: Config, s: State, i: nat, id: int)
    requires Inv(c, s) && i < |s.net| && s.net[i].Response? && MsgOk(c, s, s.net[i]) && Live(DoCollect(s, i), id)
    ensures RotxOk(c, DoCollect(s, i), id) && OpenOk(c, DoCollect(s, i), id)
  {
    var s' := DoCollect(s, i);
    assert Live(s, id) && RotxOk(c, s, id) && OpenOk(c, s, id);
    var rx := s'.slots[id].value;
    if id == s.net[i].id {
      UpdatedOk(c, s, i);
    }
    forall k | 0 <= k < |rx.keys|
      ensures rx.values[k].None? <==> Outstanding(s'.net, id, Owner(c, rx.keys[k]))
    {
      if id == s.net[i].id { UpdatedOpen(c, s, i, k); } else { WithoutMsg(s.net, i, id, Owner(c, rx.keys[k])); }
    }
  }

  lemma CollectAnswers(c: Config, s: State, i: nat, j: nat)
    requires Inv(c, s) && i < |s.net| && s.net[i].Response? && MsgOk(c, s, s.net[i]) && j < |DoCollect(s, i).answers|
    ensures AnswerOk(c, DoCollect(s, i), DoCollect(s, i).answers[j])
  {
    if j < |s.answers| {
      assert AnswerOk(c, s, s.answers[j]);
    } else {
      UpdatedOk(c, s, i);
      assert RotxOk(c, s, s.net[i].id);
      FilledAll(Updated(s, i).values);
    }
  }

  lemma CollectOnce(c: Config, s: State, i: nat)
    requires Inv(c, s) && i < |s.net| && s.net[i].Response? && MsgOk(c, s, s.net[i])
    ensures OnlyOnce(DoCollect(s, i))
  {
    var s' := DoCollect(s, i);
    assert forall id :: Live(s', id) ==> Live(s, id) && s'.slots[id].value.tx == s.slots[id].value.tx;
    forall tx | 0 <= tx < |s'.started|
      ensures Somewhere(s', tx)
    {
      CollectSomewhere(c, s, i, tx);
    }
  }

  lemma CollectSomewhere(c: Config, s: State, i: nat, tx: nat)
    requires i < |s.net| && s.net[i].Response? && MsgOk(c, s, s.net[i]) && Somewhere(s, tx)
    ensures Somewhere(DoCollect(s, i), tx)
  {
    var s' := DoCollect(s, i);
    if id :| Live(s, id) && s.slots[id].value.tx == tx {
      if !Live(s', id) { assert s'.answers[|s.answers|].tx == tx; }
    } else {
      var j :| 0 <= j < |s.answers| && s.answers[j].tx == tx;
      assert s'.answers[j] == s.answers[j];
    }
  }

  lemma CollectInv(c: Config, s: State, i: nat)
    requires Inv(c, s) && i < |s.net| && s.net[i].Response? && MsgOk(c, s, s.net[i])
    ensures Inv(c, DoCollect(s, i))
  {
    var s' := DoCollect(s, i);
    forall tx, k
      ensures ReadOk(c, s', tx, k)
    {
      assert ReadOk(c, s, tx, k);
    }
    CollectMessages(c, s, i);
    CollectRest(c, s, i);
    CollectOnce(c, s, i);
  }

  lemma CollectMessages(c: Config, s: State, i: nat)
    requires Inv(c, s) && i < |s.net| && s.net[i].Response? && MsgOk(c, s, s.net[i])
    ensures var s' := DoCollect(s, i); DistinctMsgs(s'.net) && forall j :: 0 <= j < |s'.net| ==> MsgOk(c, s', s'.net[j])
  {
    var s' := DoCollect(s, i);
    WithoutMsg(s.net, i, 0, 0);
    forall j | 0 <= j < |s'.net|
      ensures MsgOk(c, s', s'.net[j])
    {
      var k := Remaining(s.net, i, j);
      CollectMsgs(c, s, i, k);
    }
  }

  /** What remains was there before. */
  lemma Remaining(net: seq<Msg>, i: nat, j: nat) returns (k: nat)
    requires i < |net| && j < |net[..i] + net[i + 1..]|
    ensures k < |net| && k != i && (net[..i] + net[i + 1..])[j] == net[k]
  {
    k := if j < i then j else j + 1;
  }

  lemma CollectRest(c: Config, s: State, i: nat)
    requires Inv(c, s) && i < |s.net| && s.net[i].Response? && MsgOk(c, s, s.net[i])
    ensures var s' := DoCollect(s, i);
      && (forall id :: Live(s', id) ==> RotxOk(c, s', id) && OpenOk(c, s', id))
      && forall j :: 0 <= j < |s'.answers| ==> AnswerOk(c, s', s'.answers[j])
  {
    var s' := DoCollect(s, i);
    forall id | Live(s', id)
      ensures RotxOk(c, s', id) && OpenOk(c, s', id)
    {
      CollectSlots(c, s, i, id);
    }
    forall j | 0 <= j < |s'.answers|
      ensures AnswerOk(c, s', s'.answers[j])
    {
      CollectAnswers(c, s, i, j);
    }
  }

  // ---- runs

  ghost predicate Next(c: Config, s: State, a: Action, s': State) {
    && Enabled(c, s, a)
    && match a
       case Start(client, keys) => s' == DoStart(c, s, client, keys)
       case Serve(i, items, times) =>
         && |s.net[i].keys| == |s.net[i].ids| && Live(s, s.net[i].id) && s' == DoServe(s, i, items, times)
       case Collect(i) =>
         && |s.net[i].found| == |s.net[i].ids| && Live(s, s.net[i].id) && s' == DoCollect(s, i)
  }

  lemma StepInv(c: Config, s: State, a: Action, s': State)
    requires c.partitions > 0 && c.replicas > 0 && Inv(c, s) && Next(c, s, a, s')
    ensures Inv(c, s')
  {
    match a {
      case Start(client, keys) => StartInv(c, s, client, keys);
      case Serve(i, items, times) =>
        assert MsgOk(c, s, s.net[i]);
        ServeInv(c, s, i, items, times);
      case Collect(i) =>
        assert MsgOk(c, s, s.net[i]);
        CollectInv(c, s, i);
    }
  }

  ghost predicate Run(c: Config, ss: seq<State>, acts: seq<Action>) {
    && |ss| == |acts| + 1 && ss[0] == Init
    && forall k {:trigger acts[k]} :: 0 <= k < |acts| ==> Next(c, ss[k], acts[k], ss[k + 1])
  }

  lemma {:induction false} RunInv(c: Config, ss: seq<State>, acts: seq<Action>, k: nat)
    requires c.partitions > 0 && c.replicas > 0 && Run(c, ss, acts) && k < |ss|
    ensures Inv(c, ss[k])
    decreases k
  {
    if k > 0 {
      RunInv(c, ss, acts, k - 1);
      StepInv(c, ss[k - 1], acts[k - 1], ss[k]);
    }
  }

  /**
   No message can arrive for a slot that is free, and none goes to the wrong user of
   a slot that is used again; the array accesses are safe and every step can be taken.
   */
  lemma NeverStale(c: Config, ss: seq<State>, acts: seq<Action>, k: nat, i: nat)
    requires c.partitions > 0 && c.replicas > 0 && Run(c, ss, acts) && k < |ss| && i < |ss[k].net|
    ensures Live(ss[k], ss[k].net[i].id)
    ensures forall items | Sourced(c, items) :: exists a, s' ::
      (a == Serve(i, items, []) || a == Collect(i)) && Next(c, ss[k], a, s')
    ensures ss[k].net[i].Response? ==> forall j :: 0 <= j < |ss[k].net[i].ids| ==>
      ss[k].net[i].ids[j] < |ss[k].slots[ss[k].net[i].id].value.values|
  {
    RunInv(c, ss, acts, k);
    assert MsgOk(c, ss[k], ss[k].net[i]);
    if ss[k].net[i].Response? {
      ResponseFits(c, ss[k], i);
      assert Next(c, ss[k], Collect(i), DoCollect(ss[k], i));
    } else {
      forall items | Sourced(c, items)
        ensures exists s' :: Next(c, ss[k], Serve(i, items, []), s')
      {
        assert Next(c, ss[k], Serve(i, items, []), DoServe(ss[k], i, items, []));
      }
    }
  }

  ghost predicate Answered(s: State, tx: nat) { exists j :: 0 <= j < |s.answers| && s.answers[j].tx == tx }

  /**
   Exactly one response per transaction, with the values read for its own keys and
   the per-source maximum of their update times, and never for a request without keys.
   */
  lemma AnsweredOnceAndRight(c: Config, ss: seq<State>, acts: seq<Action>, k: nat, j: nat)
    requires c.partitions > 0 && c.replicas > 0 && Run(c, ss, acts) && k < |ss| && j < |ss[k].answers|
    ensures forall j' :: 0 <= j' < |ss[k].answers| && ss[k].answers[j'].tx == ss[k].answers[j].tx ==> j' == j
    ensures AnswerOk(c, ss[k], ss[k].answers[j])
    ensures var a := ss[k].answers[j]; forall i :: 0 <= i < |a.values| ==>
      (a.tx, i) in ss[k].performed && ss[k].performed[(a.tx, i)].key == ss[k].started[a.tx].keys[i]
        && a.values[i] == Some(ss[k].performed[(a.tx, i)].value)
  {
    RunInv(c, ss, acts, k);
    var s, a := ss[k], ss[k].answers[j];
    assert AnswerOk(c, s, a);
    forall i | 0 <= i < |a.values|
      ensures (a.tx, i) in s.performed && s.performed[(a.tx, i)].key == s.started[a.tx].keys[i] &&
        a.values[i] == Some(s.performed[(a.tx, i)].value)
    {
      assert ReadOk(c, s, a.tx, i);
    }
  }

  /**
   Once all messages are delivered, a transaction has been answered if and only if it
   asked for at least one key: the response is only sent from the slice response
   handler, and a request without keys has no slices.
   */
  lemma AnsweredIffKeys(c: Config, ss: seq<State>, acts: seq<Action>, k: nat, tx: nat)
    requires c.partitions > 0 && c.replicas > 0 && Run(c, ss, acts) && k < |ss| && tx < |ss[k].started|
    requires ss[k].net == []
    ensures Answered(ss[k], tx) <==> ss[k].started[tx].keys != []
  {
    RunInv(c, ss, acts, k);
    var s := ss[k];
    if Answered(s, tx) {
      var j :| 0 <= j < |s.answers| && s.answers[j].tx == tx;
      assert AnswerOk(c, s, s.answers[j]);
    } else {
      assert Somewhere(s, tx);
      var id :| Live(s, id) && s.slots[id].value.tx == tx;
      assert RotxOk(c, s, id) && OpenOk(c, s, id);
      FilledAll(s.slots[id].value.values);
    }
  }
}
