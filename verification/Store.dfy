/**
 The per-key version chains of a server (src/server/protocols/gr/store.c and
 src/server/protocols/grv/store.c). A chain lists the versions of a key newest
 first, in the order of the `previous_version` links.
 */
module Store {
  import opened Vectors

  datatype Option<+T> = None | Some(value: T)

  // For GentleRain `deps` is history only: the dependency time of the put request.
  datatype Version = Version(value: nat, time: Time, deps: Vec, source: nat)

  type Chain = seq<Version>
  type Items = map<nat, Chain>

  function ChainOf(items: Items, key: nat): Chain { if key in items then items[key] else [] }

  // ---- visibility, the predicates passed to the chain walk

  predicate GrVisible(own: nat, gst: Time, v: Version) { v.source == own || v.time <= gst }

  predicate GrvVisible(own: nat, gst: Vec, v: Version) {
    || v.source == own
    || (|v.deps| <= |gst| && forall i :: 0 <= i < |v.deps| && i != own ==> v.deps[i] <= gst[i])
  }

  predicate InSnapshot(time: Time, v: Version) { v.time <= time }

  predicate InVectorSnapshot(times: Vec, v: Version) {
    |v.deps| <= |times| && forall i :: 0 <= i < |v.deps| ==> v.deps[i] <= times[i]
  }

  /** The newest version that satisfies `visible`. */
  function ReadAt(chain: Chain, visible: Version -> bool): (r: Option<Version>)
    ensures r.Some? ==> r.value in chain && visible(r.value)
    ensures r.None? ==> forall v :: v in chain ==> !visible(v)
  {
    if chain == [] then None
    else if visible(chain[0]) then Some(chain[0])
    else
      assert forall v :: v in chain ==> v == chain[0] || v in chain[1..];
      ReadAt(chain[1..], visible)
  }

  /** Update time and source of the newest version, as read for conflict detection. */
  function HeadTime(chain: Chain): Time { if chain == [] then 0.0 else chain[0].time }

  function HeadSource(chain: Chain): nat { if chain == [] then 0 else chain[0].source }

  /** A put older than the newest version is discarded. */
  predicate Discards(chain: Chain, v: Version) { chain != [] && chain[0].time > v.time }

  function Put(items: Items, key: nat, v: Version): Items {
    if Discards(ChainOf(items, key), v) then items else items[key := [v] + ChainOf(items, key)]
  }

  predicate Ordered(chain: Chain) {
    forall i, j :: 0 <= i < j < |chain| ==> chain[i].time >= chain[j].time
  }

  ghost predicate AllOrdered(items: Items) { forall k :: k in items ==> Ordered(items[k]) }

  /** Chains stay ordered by update time. */
  lemma PutOrdered(items: Items, key: nat, v: Version)
    requires AllOrdered(items)
    ensures AllOrdered(Put(items, key, v))
  {
    var chain := ChainOf(items, key);
    assert Ordered(chain);
    if !Discards(chain, v) {
      var c' := [v] + chain;
      forall i, j | 0 <= i < j < |c'|
        ensures c'[i].time >= c'[j].time
      {
        if i == 0 { assert chain[0].time >= chain[j - 1].time; } else { assert chain[i - 1].time >= chain[j - 1].time; }
      }
    }
  }

  /** In an ordered chain the walk returns the newest of all visible versions. */
  lemma {:induction false} ReadNewest(chain: Chain, visible: Version -> bool)
    requires Ordered(chain)
    ensures ReadAt(chain, visible).Some? <==> exists v :: v in chain && visible(v)
    ensures ReadAt(chain, visible).Some? ==>
      forall v :: v in chain && visible(v) ==> v.time <= ReadAt(chain, visible).value.time
  {
    if chain != [] {
      assert forall v :: v in chain ==> v.time <= chain[0].time;
      if !visible(chain[0]) {
        assert forall i, j :: 0 <= i < j < |chain[1..]| ==>
          chain[1..][i] == chain[i + 1] && chain[1..][j] == chain[j + 1];
        ReadNewest(chain[1..], visible);
        assert forall v :: v in chain ==> v == chain[0] || v in chain[1..];
      } else {
        assert chain[0] in chain;
      }
    }
  }

  /** Versions in front of the first visible one do not matter. */
  lemma {:induction false} ReadSkips(front: Chain, chain: Chain, visible: Version -> bool)
    requires forall v :: v in front ==> !visible(v)
    ensures ReadAt(front + chain, visible) == ReadAt(chain, visible)
  {
    if front == [] {
      assert front + chain == chain;
    } else {
      assert (front + chain)[1..] == front[1..] + chain;
      assert front[0] in front;
      ReadSkips(front[1..], chain, visible);
    }
  }

  // ---- garbage collection

  /**
   Index at which the chain is cut: the newest version is always kept, then everything down to the
   first version below `gst`.
   */
  function CutIndex(chain: Chain, gst: Time, i: nat): (n: nat)
    requires i <= |chain|
    ensures i <= n <= |chain|
    ensures n < |chain| ==> chain[n].time < gst
    ensures forall j :: i <= j < n ==> chain[j].time >= gst
    decreases |chain| - i
  {
    if i == |chain| then i else if chain[i].time < gst then i else CutIndex(chain, gst, i + 1)
  }

  function Collect(chain: Chain, gst: Time): Chain {
    if |chain| == 0 then chain
    else
      var n := CutIndex(chain, gst, 1);
      if n == |chain| then chain else chain[..n + 1]
  }

  /**
   Exactly what is collected: a front part of the chain stays. Behind the newest version it
   has nothing older than `gst` but its last, and that is older if anything was cut off.
   */
  lemma CollectExact(chain: Chain, gst: Time)
    ensures var c := Collect(chain, gst);
      && c <= chain && (forall j :: 1 <= j < |c| - 1 ==> c[j].time >= gst)
      && (c != chain ==> |c| >= 2 && c[|c| - 1].time < gst)
  {
    if chain != [] {
      var n := CutIndex(chain, gst, 1);
      if n < |chain| { assert chain[..n + 1] <= chain; }
    }
  }

  lemma {:induction false} ReadPrefix(chain: Chain, k: nat, visible: Version -> bool)
    requires k < |chain| && visible(chain[k])
    ensures ReadAt(chain[..k + 1], visible) == ReadAt(chain, visible)
  {
    if !visible(chain[0]) {
      assert chain[..k + 1][1..] == chain[1..][..k];
      ReadPrefix(chain[1..], k - 1, visible);
    }
  }

  /** Garbage collection preserves every read whose visibility admits all versions below `gst`. */
  lemma CollectPreserves(chain: Chain, gst: Time, visible: Version -> bool)
    requires forall v :: v in chain && v.time < gst ==> visible(v)
    ensures ReadAt(Collect(chain, gst), visible) == ReadAt(chain, visible)
  {
    if |chain| > 0 {
      var n := CutIndex(chain, gst, 1);
      if n < |chain| {
        assert chain[n] in chain;
        ReadPrefix(chain, n, visible);
      }
    }
  }

  /** In particular a snapshot read at or above `gst`, and a get at a stable time at or above `gst`. */
  lemma CollectKeepsReads(chain: Chain, gst: Time, t: Time, own: nat)
    requires gst <= t
    ensures ReadAt(Collect(chain, gst), v => InSnapshot(t, v)) == ReadAt(chain, v => InSnapshot(t, v))
    ensures ReadAt(Collect(chain, gst), v => GrVisible(own, t, v)) == ReadAt(chain, v => GrVisible(own, t, v))
  {
    CollectPreserves(chain, gst, v => InSnapshot(t, v));
    CollectPreserves(chain, gst, v => GrVisible(own, t, v));
  }

  /** The store as the C code updates it. */
  class KeyValueStore {
    var items: Items

    constructor ()
      ensures items == map[]
    {
      items := map[];
    }

    /** Walks the chain from the newest version; (0, 0, 0) stands for "no version". */
    method GetValueAt(key: nat, visible: Version -> bool) returns (value: nat, time: Time, source: nat)
      ensures match ReadAt(ChainOf(items, key), visible)
        case Some(v) => value == v.value && time == v.time && source == v.source
        case None => value == 0 && time == 0.0 && source == 0
    {
      var chain := ChainOf(items, key);
      var i := 0;
      while i < |chain| && !visible(chain[i])
        invariant 0 <= i <= |chain|
        invariant forall j :: 0 <= j < i ==> !visible(chain[j])
      {
        i := i + 1;
      }
      assert chain == chain[..i] + chain[i..];
      assert forall v :: v in chain[..i] ==> !visible(v);
      ReadSkips(chain[..i], chain[i..], visible);
      if i == |chain| {
        value, time, source := 0, 0.0, 0;
      } else {
        value, time, source := chain[i].value, chain[i].time, chain[i].source;
      }
    }

    method PutValue(key: nat, v: Version) returns (stored: bool)
      modifies this
      ensures items == Put(old(items), key, v)
      ensures stored == !Discards(ChainOf(old(items), key), v)
    {
      var chain := ChainOf(items, key);
      if chain != [] && chain[0].time > v.time {
        return false;
      }
      items := items[key := [v] + chain];
      return true;
    }

    /** One item of the garbage collection loop. */
    method CollectKey(key: nat, gst: Time)
      requires key in items
      modifies this
      ensures items == old(items)[key := Collect(old(items)[key], gst)]
    {
      var chain := items[key];
      var i := 1;
      while i < |chain| && chain[i].time >= gst
        invariant 1 <= i
        invariant |chain| > 0 ==> i <= |chain| && CutIndex(chain, gst, 1) == CutIndex(chain, gst, i)
      {
        i := i + 1;
      }
      if i < |chain| {
        items := items[key := chain[..i + 1]];
      } else {
        assert items == items[key := chain];
      }
    }
  }

  /** The loop of `grv_is_value_visible`. */
  method IsVisible(own: nat, gst: array<Time>, v: Version) returns (r: bool)
    requires |v.deps| == gst.Length
    ensures r == GrvVisible(own, gst[..], v)
  {
    if v.source == own { return true; }
    var i := 0;
    while i < gst.Length
      invariant 0 <= i <= gst.Length
      invariant forall j :: 0 <= j < i && j != own ==> v.deps[j] <= gst[j]
    {
      if i != own && v.deps[i] > gst[i] {
        assert gst[..][i] == gst[i];
        return false;
      }
      i := i + 1;
    }
    return true;
  }
}
