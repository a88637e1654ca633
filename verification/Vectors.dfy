/**
 Timestamps and vectors of timestamps (one entry per source replica), with the
 two in-place updates `set_max` and `set_min` that all the protocol code uses.
 */
module Vectors {

  // Timestamps are C doubles; rounding plays no part in the protocol.
  type Time = real
  type Vec = seq<Time>

  predicate Leq(a: Vec, b: Vec) {
    |a| == |b| && forall i :: 0 <= i < |a| ==> a[i] <= b[i]
  }

  function Max(a: Time, b: Time): Time { if a < b then b else a }

  function Min(a: Time, b: Time): Time { if a > b then b else a }

  /** Entry by entry `set_max`; an entry missing from `b` leaves `a` alone. */
  function MaxV(a: Vec, b: Vec): (m: Vec)
    ensures |m| == |a|
    ensures |a| == |b| ==> Leq(a, m) && Leq(b, m)
    ensures |a| == |b| ==> forall i :: 0 <= i < |m| ==> m[i] == a[i] || m[i] == b[i]
  {
    seq(|a|, i requires 0 <= i < |a| => if i < |b| then Max(a[i], b[i]) else a[i])
  }

  /** Entry by entry `set_min`. */
  function MinV(a: Vec, b: Vec): (m: Vec)
    ensures |m| == |a|
    ensures |a| == |b| ==> Leq(m, a) && Leq(m, b)
    ensures |a| == |b| ==> forall i :: 0 <= i < |m| ==> m[i] == a[i] || m[i] == b[i]
  {
    seq(|a|, i requires 0 <= i < |a| => if i < |b| then Min(a[i], b[i]) else a[i])
  }

  function Zero(n: nat): (z: Vec)
    ensures |z| == n && forall i :: 0 <= i < n ==> z[i] == 0.0
  {
    seq(n, _ => 0.0)
  }

  /** The smallest entry of a non-empty vector. */
  function MinEntry(v: Vec): (m: Time)
    requires |v| > 0
    ensures forall i :: 0 <= i < |v| ==> m <= v[i]
    ensures m in v
  {
    if |v| == 1 then v[0]
    else
      assert forall i :: 0 <= i < |v| - 1 ==> v[..|v|-1][i] == v[i];
      Min(MinEntry(v[..|v| - 1]), v[|v| - 1])
  }

  /** The largest entry of a non-empty vector. */
  function MaxEntry(v: Vec): (m: Time)
    requires |v| > 0
    ensures forall i :: 0 <= i < |v| ==> v[i] <= m
    ensures m in v
  {
    if |v| == 1 then v[0]
    else
      assert forall i :: 0 <= i < |v| - 1 ==> v[..|v|-1][i] == v[i];
      Max(MaxEntry(v[..|v| - 1]), v[|v| - 1])
  }
}
