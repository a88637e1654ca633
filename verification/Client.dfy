/**
 The times a GentleRain Vector client keeps (src/client/protocols/grv.c): the
 stable vector it has seen and, per source replica, the newest version it has read
 or written. A put request carries the entry-wise maximum of both.
 */
module Client {
  import opened Vectors

  datatype Response =
    | GetResponse(gst: Vec, time: Time, source: nat)
    | PutResponse(time: Time, source: nat)
    | RotxResponse(deps: Vec)

  datatype Session = Session(deps: Vec, gst: Vec)

  predicate Fits(n: nat, r: Response) {
    match r
    case GetResponse(gst, _, source) => |gst| == n && source < n
    case PutResponse(_, source) => source < n
    case RotxResponse(deps) => |deps| == n
  }

  function Receive(s: Session, r: Response): Session
    requires |s.deps| == |s.gst| && Fits(|s.deps|, r)
  {
    match r
    case GetResponse(gst, t, source) => Session(s.deps[source := Max(s.deps[source], t)], MaxV(s.gst, gst))
    case PutResponse(t, source) => s.(deps := s.deps[source := Max(s.deps[source], t)])
    case RotxResponse(deps) => s.(deps := MaxV(s.deps, deps))
  }

  /** The dependency vector of a put request. */
  function RequestDeps(s: Session): Vec
    requires |s.deps| == |s.gst|
  {
    MaxV(s.gst, s.deps)
  }

  /** The session after a sequence of responses. */
  function After(n: nat, rs: seq<Response>): (s: Session)
    requires forall r :: r in rs ==> Fits(n, r)
    ensures |s.deps| == |s.gst| == n
  {
    if rs == [] then Session(Zero(n), Zero(n))
    else
      assert forall r :: r in rs[..|rs| - 1] ==> r in rs;
      Receive(After(n, rs[..|rs| - 1]), rs[|rs| - 1])
  }

  /** The response tells of a version of `source` with time `t`. */
  predicate Shows(r: Response, source: nat, t: Time) {
    match r
    case GetResponse(_, time, src) => src == source && time == t
    case PutResponse(time, src) => src == source && time == t
    case RotxResponse(deps) => source < |deps| && deps[source] == t
  }

  /** The client has read or written a version of `source` with time `t`. */
  ghost predicate Observed(rs: seq<Response>, source: nat, t: Time) {
    exists r :: r in rs && Shows(r, source, t)
  }

  /** One response later: `last` and everything covered before is covered. */
  lemma ReceiveCovers(s: Session, last: Response, source: nat, t: Time)
    requires |s.deps| == |s.gst| && Fits(|s.deps|, last) && source < |s.deps|
    ensures |Receive(s, last).deps| == |Receive(s, last).gst| == |s.deps|
    ensures Leq(RequestDeps(s), RequestDeps(Receive(s, last)))
    ensures Shows(last, source, t) ==> t <= RequestDeps(Receive(s, last))[source]
  {
    var s1 := Receive(s, last);
    assert Leq(s.deps, s1.deps) && Leq(s.gst, s1.gst);
  }

  /** Whatever a client has observed in its session is covered by the dependency vector of its next put. */
  lemma {:induction false} ObservedCovered(n: nat, rs: seq<Response>, source: nat, t: Time)
    requires (forall r :: r in rs ==> Fits(n, r)) && source < n && Observed(rs, source, t)
    ensures t <= RequestDeps(After(n, rs))[source]
  {
    var init, last := rs[..|rs| - 1], rs[|rs| - 1];
    assert rs == init + [last];
    ReceiveCovers(After(n, init), last, source, t);
    if !Shows(last, source, t) {
      var r :| r in rs && Shows(r, source, t);
      assert r in init;
      ObservedCovered(n, init, source, t);
    }
  }

  /** So is every stable vector it was given. */
  lemma {:induction false} StableCovered(n: nat, rs: seq<Response>, r: Response)
    requires (forall x :: x in rs ==> Fits(n, x)) && r in rs && r.GetResponse?
    ensures Leq(r.gst, RequestDeps(After(n, rs)))
  {
    var init, last := rs[..|rs| - 1], rs[|rs| - 1];
    assert rs == init + [last];
    if n > 0 { ReceiveCovers(After(n, init), last, 0, 0.0); }
    if r in init { StableCovered(n, init, r); }
  }

  lemma ReceiveGrows(s: Session, r: Response)
    requires |s.deps| == |s.gst| && Fits(|s.deps|, r)
    ensures |RequestDeps(s)| == |RequestDeps(Receive(s, r))| && Leq(RequestDeps(s), RequestDeps(Receive(s, r)))
  {
  }

  /** The vector of a put request only grows along a session. */
  lemma {:induction false} RequestGrows(n: nat, rs: seq<Response>, k: nat)
    requires (forall r :: r in rs ==> Fits(n, r)) && k <= |rs|
    ensures (forall r :: r in rs[..k] ==> Fits(n, r))
    ensures Leq(RequestDeps(After(n, rs[..k])), RequestDeps(After(n, rs)))
    decreases |rs|
  {
    if k < |rs| {
      var init, last := rs[..|rs| - 1], rs[|rs| - 1];
      assert rs == init + [last] && rs[..k] == init[..k];
      RequestGrows(n, init, k);
      ReceiveGrows(After(n, init), last);
    } else {
      assert rs[..k] == rs;
    }
  }

  /** Both, for everything in the session. */
  lemma RequestCovers(n: nat, rs: seq<Response>)
    requires forall r :: r in rs ==> Fits(n, r)
    ensures forall source: nat, t :: source < n && Observed(rs, source, t) ==> t <= RequestDeps(After(n, rs))[source]
    ensures forall r :: r in rs && r.GetResponse? ==> Leq(r.gst, RequestDeps(After(n, rs)))
  {
    forall source: nat, t | source < n && Observed(rs, source, t)
      ensures t <= RequestDeps(After(n, rs))[source]
    {
      ObservedCovered(n, rs, source, t);
    }
    forall r | r in rs && r.GetResponse? ensures Leq(r.gst, RequestDeps(After(n, rs))) { StableCovered(n, rs, r); }
  }

  /** A get of the session answered with time `t` in entry `i` of its stable vector. */
  ghost predicate WasStable(rs: seq<Response>, i: nat, t: Time) {
    exists r :: r in rs && r.GetResponse? && i < |r.gst| && r.gst[i] == t
  }

  /**
   Exactly what a client knows: entry i of its stable vector is the largest entry i that a
   get answered, entry i of its dependency vector the largest time of a version of source i
   that it has read or written, and 0.0 if there is none.
   */
  lemma {:induction false} SessionExact(n: nat, rs: seq<Response>, i: nat)
    requires (forall r :: r in rs ==> Fits(n, r)) && i < n
    ensures forall t :: WasStable(rs, i, t) ==> t <= After(n, rs).gst[i]
    ensures After(n, rs).gst[i] == 0.0 || WasStable(rs, i, After(n, rs).gst[i])
    ensures forall t :: Observed(rs, i, t) ==> t <= After(n, rs).deps[i]
    ensures After(n, rs).deps[i] == 0.0 || Observed(rs, i, After(n, rs).deps[i])
  {
    if rs != [] {
      var init, last := rs[..|rs| - 1], rs[|rs| - 1];
      assert rs == init + [last];
      SessionExact(n, init, i);
      SessionStable(n, init, last, i);
      SessionObserved(n, init, last, i);
    }
  }

  /** A put request depends on nothing else: each entry was observed or stable, or is 0.0. */
  lemma RequestExact(n: nat, rs: seq<Response>, i: nat)
    requires (forall r :: r in rs ==> Fits(n, r)) && i < n
    ensures var t := RequestDeps(After(n, rs))[i]; t == 0.0 || Observed(rs, i, t) || WasStable(rs, i, t)
  {
    SessionExact(n, rs, i);
  }

  lemma SessionStable(n: nat, init: seq<Response>, last: Response, i: nat)
    requires (forall r :: r in init ==> Fits(n, r)) && Fits(n, last) && i < n
    ensures forall t :: WasStable(init + [last], i, t) <==> WasStable(init, i, t) || WasStable([last], i, t)
    ensures var s, s' := After(n, init), Receive(After(n, init), last);
      s'.gst[i] == if last.GetResponse? then Max(s.gst[i], last.gst[i]) else s.gst[i]
    ensures forall t :: WasStable([last], i, t) <==> last.GetResponse? && t == last.gst[i]
  {
    assert forall r :: r in init + [last] <==> r in init || r == last;
    assert last in [last];
  }

  lemma SessionObserved(n: nat, init: seq<Response>, last: Response, i: nat)
    requires (forall r :: r in init ==> Fits(n, r)) && Fits(n, last) && i < n
    ensures forall t :: Observed(init + [last], i, t) <==> Observed(init, i, t) || Shows(last, i, t)
    ensures var s, s' := After(n, init), Receive(After(n, init), last);
      && (s'.deps[i] == s.deps[i] || Shows(last, i, s'.deps[i])) && s.deps[i] <= s'.deps[i]
      && forall t :: Shows(last, i, t) ==> t <= s'.deps[i]
  {
    assert forall r :: r in init + [last] <==> r in init || r == last;
  }

  /** The client state as the C code updates it. */
  class ClientState {
    const deps: array<Time>
    const gst: array<Time>

    ghost predicate Valid() { deps.Length == gst.Length && deps != gst }

    ghost function State(): Session
      reads deps, gst
    {
      Session(deps[..], gst[..])
    }

    constructor (n: nat)
      ensures Valid() && State() == After(n, []) && fresh(deps) && fresh(gst)
    {
      deps := new Time[n](_ => 0.0);
      gst := new Time[n](_ => 0.0);
    }

    method RaiseAll(a: array<Time>, v: Vec)
      requires |v| == a.Length
      modifies a
      ensures a[..] == MaxV(old(a[..]), v)
    {
      var i := 0;
      while i < a.Length
        invariant 0 <= i <= a.Length
        invariant forall j :: 0 <= j < i ==> a[j] == Max(old(a[j]), v[j])
        invariant forall j :: i <= j < a.Length ==> a[j] == old(a[j])
      {
        if a[i] < v[i] { a[i] := v[i]; }
        i := i + 1;
      }
    }

    method OnResponse(r: Response)
      requires Valid() && Fits(deps.Length, r)
      modifies deps, gst
      ensures State() == Receive(old(State()), r)
    {
      ghost var before := State();
      match r {
        case GetResponse(g, t, source) =>
          RaiseAll(gst, g);
          if deps[source] < t { deps[source] := t; }
          assert deps[..] == before.deps[source := Max(before.deps[source], t)];
        case PutResponse(t, source) =>
          if deps[source] < t { deps[source] := t; }
          assert deps[..] == before.deps[source := Max(before.deps[source], t)];
        case RotxResponse(d) =>
          RaiseAll(deps, d);
      }
    }

    method PutRequestDeps() returns (d: array<Time>)
      requires Valid()
      ensures fresh(d) && d[..] == RequestDeps(State())
    {
      d := new Time[deps.Length];
      var i := 0;
      while i < d.Length
        invariant 0 <= i <= d.Length
        invariant forall j :: 0 <= j < i ==> d[j] == Max(gst[j], deps[j])
      {
        d[i] := if gst[i] > deps[i] then gst[i] else deps[i];
        i := i + 1;
      }
    }
  }

  // ---- GentleRain: one dependency time instead of a vector

  /** The stable time and update time of a response; a put response carries no stable time. */
  datatype ScalarResponse = ScalarResponse(gst: Time, time: Time)

  datatype ScalarSession = ScalarSession(dep: Time, gst: Time)

  function ScalarAfter(rs: seq<ScalarResponse>): ScalarSession {
    if rs == [] then ScalarSession(0.0, 0.0)
    else
      var s, r := ScalarAfter(rs[..|rs| - 1]), rs[|rs| - 1];
      ScalarSession(Max(s.dep, r.time), Max(s.gst, r.gst))
  }

  /** The dependency time is the largest update time the client has seen, the stable time the largest stable time. */
  lemma {:induction false} ScalarCovers(rs: seq<ScalarResponse>)
    ensures forall r :: r in rs ==> r.time <= ScalarAfter(rs).dep && r.gst <= ScalarAfter(rs).gst
    ensures ScalarAfter(rs).dep == 0.0 || exists r :: r in rs && r.time == ScalarAfter(rs).dep
    ensures ScalarAfter(rs).gst == 0.0 || exists r :: r in rs && r.gst == ScalarAfter(rs).gst
  {
    if rs != [] {
      var init, last := rs[..|rs| - 1], rs[|rs| - 1];
      assert rs == init + [last];
      ScalarCovers(init);
      assert forall r :: r in init || r == last <==> r in rs;
    }
  }

  class ScalarClientState {
    var dep: Time
    var gst: Time

    constructor ()
      ensures ScalarSession(dep, gst) == ScalarAfter([])
    {
      dep, gst := 0.0, 0.0;
    }

    /** `rs` is everything received before. */
    method UpdateTimes(r: ScalarResponse, ghost rs: seq<ScalarResponse>)
      requires ScalarSession(dep, gst) == ScalarAfter(rs)
      modifies this
      ensures ScalarSession(dep, gst) == ScalarAfter(rs + [r])
    {
      assert (rs + [r])[..|rs|] == rs;
      if dep < r.time { dep := r.time; }
      if gst < r.gst { gst := r.gst; }
    }
  }
}
