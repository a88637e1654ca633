/**
 Read-only transactions of GentleRain Vector: the coordinating server splits the keys
 of a request into one slice per partition, and gathers the slice responses in a slot
 of its transaction array (src/server/protocols/grv/rotx.c and src/server/protocols/grv/slice.c).
 */
module Transactions {
  import opened Vectors
  import opened Store
  import opened PtrArrays

  // ---- messages

  datatype Config = Config(partitions: nat, replicas: nat)

  /** What the chain walk gives for one key. `key` is history: what was read. */
  datatype Read = Read(key: nat, value: nat, time: Time, source: nat)

  /** `part` names the serving partition: the receiver of a request, the sender of a response. */
  datatype Msg =
    | Request(id: nat, part: nat, ids: seq<nat>, keys: seq<nat>)
    | Response(id: nat, part: nat, ids: seq<nat>, found: seq<Read>)

  /**
   `values[k]` is uninitialised memory until the response for index k is in.
   `tx` and `keys` are history: which request this is.
   */
  datatype Rotx = Rotx(client: nat, deps: Vec, values: seq<Option<nat>>, received: nat, tx: nat, keys: seq<nat>)

  datatype Answer = Answer(tx: nat, client: nat, values: seq<Option<nat>>, deps: Vec)

  // ---- scatter

  function Owner(c: Config, key: nat): nat { if c.partitions == 0 then 0 else key % c.partitions }

  /** The indices below `n` whose keys belong to partition `p`. */
  function IdsBelow(c: Config, keys: seq<nat>, p: nat, n: nat): (ids: seq<nat>)
    requires n <= |keys|
    ensures forall k: nat :: k in ids <==> k < n && Owner(c, keys[k]) == p
    ensures forall i, j :: 0 <= i < j < |ids| ==> ids[i] < ids[j]
  {
    if n == 0 then []
    else
      var ids := IdsBelow(c, keys, p, n - 1);
      assert forall i :: 0 <= i < |ids| ==> ids[i] in ids;
      if Owner(c, keys[n - 1]) == p then ids + [n - 1] else ids
  }

  function SliceIds(c: Config, keys: seq<nat>, p: nat): seq<nat> { IdsBelow(c, keys, p, |keys|) }

  function Picked(keys: seq<nat>, ids: seq<nat>): seq<nat> {
    seq(|ids|, i requires 0 <= i < |ids| => if ids[i] < |keys| then keys[ids[i]] else 0)
  }

  /** The slices for the partitions below `n`; a partition without keys gets none. */
  function Slices(c: Config, id: nat, keys: seq<nat>, n: nat): seq<Msg> {
    if n == 0 then []
    else
      var ids := SliceIds(c, keys, n - 1);
      Slices(c, id, keys, n - 1) + if ids == [] then [] else [Request(id, n - 1, ids, Picked(keys, ids))]
  }

  ghost predicate IsSlice(c: Config, id: nat, keys: seq<nat>, m: Msg) {
    m.Request? && m.id == id && m.ids == SliceIds(c, keys, m.part) && m.ids != [] && m.keys == Picked(keys, m.ids)
  }

  lemma {:induction false} SlicesAre(c: Config, id: nat, keys: seq<nat>, n: nat)
    ensures forall i :: 0 <= i < |Slices(c, id, keys, n)| ==>
      IsSlice(c, id, keys, Slices(c, id, keys, n)[i]) && Slices(c, id, keys, n)[i].part < n
    ensures forall i, j :: 0 <= i < j < |Slices(c, id, keys, n)| ==>
      Slices(c, id, keys, n)[i].part < Slices(c, id, keys, n)[j].part
  {
    if n > 0 { SlicesAre(c, id, keys, n - 1); }
  }

  lemma {:induction false} SliceSent(c: Config, id: nat, keys: seq<nat>, n: nat, p: nat)
    requires p < n && SliceIds(c, keys, p) != []
    ensures exists i :: 0 <= i < |Slices(c, id, keys, n)| && Slices(c, id, keys, n)[i].part == p
  {
    var prev := Slices(c, id, keys, n - 1);
    if p < n - 1 {
      SliceSent(c, id, keys, n - 1, p);
      var i :| 0 <= i < |prev| && prev[i].part == p;
      assert Slices(c, id, keys, n)[i] == prev[i];
    } else {
      assert Slices(c, id, keys, n)[|prev|].part == p;
    }
  }

  /**
   The slices partition the key indices, duplicate keys included: index `k` is in
   exactly one slice, at exactly one place, with its own key, and the slice goes to the
   partition that owns the key.
   */
  lemma SlicesPartition(c: Config, id: nat, keys: seq<nat>, k: nat)
    requires c.partitions > 0 && k < |keys|
    ensures exists i, j :: Carries(Slices(c, id, keys, c.partitions), i, j, k, keys[k], Owner(c, keys[k]))
    ensures forall i, j, i', j' ::
      Mentions(Slices(c, id, keys, c.partitions), i, j, k) && Mentions(Slices(c, id, keys, c.partitions), i', j', k) ==>
        i == i' && j == j'
  {
    var p := Owner(c, keys[k]);
    assert k in SliceIds(c, keys, p);
    SliceSent(c, id, keys, c.partitions, p);
    SlicesAre(c, id, keys, c.partitions);
    var ss := Slices(c, id, keys, c.partitions);
    var i :| 0 <= i < |ss| && ss[i].part == p;
    var j :| 0 <= j < |ss[i].ids| && ss[i].ids[j] == k;
    assert Carries(ss, i, j, k, keys[k], p);
    forall i', j' | Mentions(ss, i', j', k)
      ensures i == i' && j == j'
    {
      assert ss[i'].ids[j'] in SliceIds(c, keys, ss[i'].part);
      SamePart(ss, i, i');
    }
  }

  /** Place `j` of message `i` is index `k`. */
  ghost predicate Mentions(ss: seq<Msg>, i: int, j: int, k: nat) {
    0 <= i < |ss| && 0 <= j < |ss[i].ids| && ss[i].ids[j] == k
  }

  ghost predicate Carries(ss: seq<Msg>, i: int, j: int, k: nat, key: nat, p: nat) {
    Mentions(ss, i, j, k) && ss[i].Request? && ss[i].part == p && |ss[i].keys| == |ss[i].ids| && ss[i].keys[j] == key
  }

  lemma SamePart(ss: seq<Msg>, i: nat, j: nat)
    requires forall i, j :: 0 <= i < j < |ss| ==> ss[i].part < ss[j].part
    requires i < |ss| && j < |ss| && ss[i].part == ss[j].part
    ensures i == j
  {
  }

  // ---- reading a slice

  function AtSnapshot(times: Vec): Version -> bool { v => InVectorSnapshot(times, v) }

  function ReadOf(items: Items, key: nat, times: Vec): Read {
    match ReadAt(ChainOf(items, key), AtSnapshot(times))
    case None => Read(key, 0, 0.0, 0)
    case Some(v) => Read(key, v.value, v.time, v.source)
  }

  function ReadAll(items: Items, keys: seq<nat>, times: Vec): seq<Read> {
    seq(|keys|, i requires 0 <= i < |keys| => ReadOf(items, keys[i], times))
  }

  /** The loop of the slice request handler. */
  method ServeSlice(store: KeyValueStore, keys: seq<nat>, times: Vec) returns (found: seq<Read>)
    ensures found == ReadAll(store.items, keys, times)
  {
    found := [];
    for i := 0 to |keys|
      invariant found == ReadAll(store.items, keys[..i], times)
    {
      var value, time, source := store.GetValueAt(keys[i], AtSnapshot(times));
      assert keys[..i + 1] == keys[..i] + [keys[i]];
      found := found + [Read(keys[i], value, time, source)];
    }
    assert keys[..|keys|] == keys;
  }

  // ---- gather

  function RaiseDep(deps: Vec, r: Read): Vec {
    if r.source < |deps| && deps[r.source] < r.time then deps[r.source := r.time] else deps
  }

  /** The first `n` values of a response go into their places. */
  function Gather(rx: Rotx, ids: seq<nat>, found: seq<Read>, n: nat): (r: Rotx)
    requires n <= |ids| && n <= |found|
    ensures |r.values| == |rx.values| && |r.deps| == |rx.deps|
    ensures r.tx == rx.tx && r.keys == rx.keys && r.client == rx.client && r.received == rx.received
  {
    if n == 0 then rx else Fill(Gather(rx, ids, found, n - 1), ids[n - 1], found[n - 1])
  }

  function Fill(r: Rotx, k: nat, read: Read): (r': Rotx)
    ensures r'.tx == r.tx && r'.keys == r.keys && r'.client == r.client && r'.received == r.received
    ensures |r'.values| == |r.values| && |r'.deps| == |r.deps|
  {
    r.(deps := RaiseDep(r.deps, read), values := if k < |r.values| then r.values[k := Some(read.value)] else r.values)
  }

  function Gathered(rx: Rotx, m: Msg): Rotx
    requires m.Response? && |m.found| == |m.ids|
  {
    var r := Gather(rx, m.ids, m.found, |m.ids|);
    r.(received := rx.received + |m.ids|)
  }

  /** The coordinating server. `sent` and `answers` are what it hands to the network. */
  class Coordinator {
    const config: Config
    const slots: PtrArray<Rotx>
    var sent: seq<Msg>
    var answers: seq<Answer>

    constructor (config: Config)
      ensures fresh(slots) && slots.data == [] && sent == [] && answers == [] && this.config == config
    {
      this.config := config;
      slots := new PtrArray();
      sent, answers := [], [];
    }

    /** Starts transaction `tx`: takes a slot and sends one slice to each partition that has keys. */
    method ProcessRequest(tx: nat, client: nat, keys: seq<nat>)
      modifies this, slots
      ensures slots.data == Placed(old(slots.data), NewRotx(config, tx, client, keys))
      ensures sent == old(sent) + Slices(config, FirstFree(old(slots.data)), keys, config.partitions)
      ensures answers == old(answers)
    {
      var id := slots.Put(NewRotx(config, tx, client, keys));
      var p := 0;
      while p < config.partitions
        invariant 0 <= p <= config.partitions && answers == old(answers)
        invariant slots.data == Placed(old(slots.data), NewRotx(config, tx, client, keys))
        invariant sent == old(sent) + Slices(config, id, keys, p)
      {
        SendSlice(id, p, keys);
        p := p + 1;
      }
    }

    method SendSlice(id: nat, p: nat, keys: seq<nat>)
      modifies this`sent
      ensures sent == old(sent) +
        if SliceIds(config, keys, p) == [] then []
        else [Request(id, p, SliceIds(config, keys, p), Picked(keys, SliceIds(config, keys, p)))]
    {
      var ids, picked := [], [];
      for k := 0 to |keys|
        invariant ids == IdsBelow(config, keys, p, k)
        invariant picked == Picked(keys, ids)
      {
        if Owner(config, keys[k]) == p {
          ids, picked := ids + [k], picked + [keys[k]];
        }
      }
      if ids != [] {
        sent := sent + [Request(id, p, ids, picked)];
      }
    }

    /** Gathers a response; answers the client and frees the slot when all values are in. */
    method ProcessSliceResponse(m: Msg)
      requires m.Response? && |m.found| == |m.ids| && m.id < |slots.data| && slots.data[m.id].Some?
      requires forall i :: 0 <= i < |m.ids| ==> m.ids[i] < |slots.data[m.id].value.values|
      requires forall i :: 0 <= i < |m.ids| ==> m.found[i].source < |slots.data[m.id].value.deps|
      modifies this, slots
      ensures var rx := Gathered(old(slots.data)[m.id].value, m);
        && slots.data == old(slots.data)[m.id := if rx.received == |rx.values| then None else Some(rx)]
        && answers == old(answers) +
          (if rx.received == |rx.values| then [Answer(rx.tx, rx.client, rx.values, rx.deps)] else [])
      ensures sent == old(sent)
    {
      var rx0 := slots.data[m.id].value;
      var deps, values := rx0.deps, rx0.values;
      for i := 0 to |m.ids|
        invariant |values| == |rx0.values| && |deps| == |rx0.deps|
        invariant values == Gather(rx0, m.ids, m.found, i).values && deps == Gather(rx0, m.ids, m.found, i).deps
      {
        var r := m.found[i];
        if deps[r.source] < r.time { deps := deps[r.source := r.time]; }
        values := values[m.ids[i] := Some(r.value)];
      }
      var rx := rx0.(deps := deps, values := values, received := rx0.received + |m.ids|);
      if rx.received == |rx.values| {
        answers := answers + [Answer(rx.tx, rx.client, rx.values, rx.deps)];
        slots.Set(m.id, None);
      } else {
        slots.Set(m.id, Some(rx));
      }
    }
  }

  function NewRotx(c: Config, tx: nat, client: nat, keys: seq<nat>): Rotx {
    Rotx(client, Zero(c.replicas), seq(|keys|, _ => None), 0, tx, keys)
  }
}
