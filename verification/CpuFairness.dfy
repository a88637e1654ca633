/**
 Waiting for a lock is fair, in every run on any number of cores: requests are woken in
 the order in which they blocked. And time passes as handlers say: the event that ends a
 handler, or asks for its lock or unlock, happens exactly when its time has elapsed.
 */
module CpuFairness {
  import opened Vectors
  import opened Cpu
  import opened CpuInvariants
  import opened CpuWork

  // ---- who blocks and who is woken

  /** The lock request at the front of the run queue, if there is one. */
  function Front(q: seq<Item>): seq<Request> { if q != [] && q[0].Retry? then [q[0].req] else [] }

  /** The lock request that event `e` tries. */
  ghost function Tried(s: State, e: Event): seq<Request>
    requires Refs(s) && Enabled(s, e)
  {
    match e
    case Arrive(_, _) => []
    case Kick => Front(s.queue)
    case Fire(i) =>
      match s.pending[i].ev
      case FreeCore => Front(s.queue)
      case LockMsg(q) => [q]
      case UnlockMsg(_, _, more) => if more then [] else Front(Wakes(s, e) + s.queue)
  }

  /** Lock `l` as that request finds it: after the release, if the event is an unlock. */
  ghost function FoundLock(s: State, e: Event, l: nat): Lock
    requires Refs(s) && Enabled(s, e) && l < |s.locks|
  {
    if e.Fire? && s.pending[e.i].ev.UnlockMsg? && s.pending[e.i].ev.lock == l then
      Release(s.locks[l], s.pending[e.i].ev.kind, s.pending[e.i].task)
    else s.locks[l]
  }

  /** The request that event `e` blocks on lock `l`. */
  ghost function BlockedBy(s: State, e: Event, l: nat): seq<Request>
    requires Refs(s) && Enabled(s, e) && l < |s.locks|
  {
    var t := Tried(s, e);
    if t != [] && t[0].lock == l && Blocked(FoundLock(s, e, l), t[0].kind) then t else []
  }

  /** The request for lock `l` that event `e` moves to the run queue. */
  ghost function WokenBy(s: State, e: Event, l: nat): seq<Request>
    requires Refs(s) && Enabled(s, e)
  {
    if Wakes(s, e) != [] && Wakes(s, e)[0].Retry? && Wakes(s, e)[0].req.lock == l then [Wakes(s, e)[0].req] else []
  }

  lemma LockWaiters(s: State, q: Request, o: Outcome, l: nat)
    requires q.lock < |s.locks| && l < |s.locks|
    ensures |OnLock(s, q, o).locks| == |s.locks|
    ensures OnLock(s, q, o).locks[l].waiters ==
      s.locks[l].waiters + if q.lock == l && Blocked(s.locks[l], q.kind) then [q] else []
  {
  }

  lemma NextWaiters(s: State, o: Outcome, l: nat)
    requires Refs(s) && l < |s.locks|
    ensures |ProcessNext(s, o).locks| == |s.locks|
    ensures var t := Front(s.queue);
      ProcessNext(s, o).locks[l].waiters ==
        s.locks[l].waiters + if t != [] && t[0].lock == l && Blocked(s.locks[l], t[0].kind) then t else []
  {
    if s.queue != [] {
      assert ItemOk(s.locks, s.queue[0]);
      if s.queue[0].Retry? { LockWaiters(s.(queue := s.queue[1..], busy := s.busy + 1), s.queue[0].req, o, l); }
    }
  }

  lemma UnlockWaiters(s: State, t: nat, kind: Kind, k: nat, more: bool, o: Outcome, l: nat)
    requires Refs(s) && k < |s.locks| && l < |s.locks|
    ensures |OnUnlock(s, t, kind, k, more, o).locks| == |s.locks|
    ensures var found := if l == k then Release(s.locks[l], kind, t) else s.locks[l];
      var front := if more then [] else Front(Woken(s.locks[k], kind) + s.queue);
      OnUnlock(s, t, kind, k, more, o).locks[l].waiters ==
        found.waiters + if front != [] && front[0].lock == l && Blocked(found, front[0].kind) then front else []
  {
    ReleasedRefs(s, t, kind, k);
    if !more { NextWaiters(Ended(Released(s, t, kind, k), t), o, l); }
  }

  /** What an unlock takes from the waiters is their first one, if it frees the lock. */
  lemma ReleaseWaiters(locks: seq<Lock>, l: nat, kind: Kind, t: nat)
    requires l < |locks| && WaitersOk(locks, l)
    ensures var w, k := Woken(locks[l], kind), locks[l];
      && (w != [] ==> |w| == 1 && w[0].Retry? && w[0].req.lock == l)
      && k.waiters == (if w == [] then [] else [w[0].req]) + Release(k, kind, t).waiters
  {
  }

  lemma UnlockQueue(s: State, i: nat, o: Outcome, l: nat)
    requires Refs(s) && Enabled(s, Fire(i)) && s.pending[i].ev.UnlockMsg? && l < |s.locks|
    ensures |Dispatch(s, Fire(i), o).locks| == |s.locks|
    ensures WokenBy(s, Fire(i), l) + Dispatch(s, Fire(i), o).locks[l].waiters ==
      s.locks[l].waiters + BlockedBy(s, Fire(i), l)
  {
    var p := s.pending[i];
    FiredRefs(s, i);
    UnlockWaiters(Fired(s, i), p.task, p.ev.kind, p.ev.lock, p.ev.more, o, l);
    FreedNotBlocked(s, i, l);
    UnlockTakes(s, i, l);
    FiredUnlock(s, i, o);
  }

  lemma FiredUnlock(s: State, i: nat, o: Outcome)
    requires i < |s.pending| && s.pending[i].ev.UnlockMsg?
    ensures var p := s.pending[i];
      Dispatch(s, Fire(i), o) == OnUnlock(Fired(s, i), p.task, p.ev.kind, p.ev.lock, p.ev.more, o)
  {
  }

  /** An unlock takes whom it wakes from the front of the waiters, and nobody else. */
  lemma UnlockTakes(s: State, i: nat, l: nat)
    requires Refs(s) && Enabled(s, Fire(i)) && s.pending[i].ev.UnlockMsg? && l < |s.locks|
    ensures s.locks[l].waiters == WokenBy(s, Fire(i), l) + FoundLock(s, Fire(i), l).waiters
  {
    var p := s.pending[i];
    assert EventOk(s.locks, p) && WaitersOk(s.locks, p.ev.lock);
    ReleaseWaiters(s.locks, p.ev.lock, p.ev.kind, p.task);
  }

  /** The waiter that an unlock wakes finds the lock free. */
  lemma FreedNotBlocked(s: State, i: nat, l: nat)
    requires Refs(s) && Enabled(s, Fire(i)) && s.pending[i].ev.UnlockMsg? && l < |s.locks|
    ensures WokenBy(s, Fire(i), l) != [] ==> BlockedBy(s, Fire(i), l) == []
  {
    var p := s.pending[i];
    assert EventOk(s.locks, p) && WaitersOk(s.locks, p.ev.lock);
    ReleaseWaiters(s.locks, p.ev.lock, p.ev.kind, p.task);
  }

  /** A blocked request joins the waiters at the end, and the first waiter is the one that is woken. */
  lemma WaitersStep(s: State, e: Event, o: Outcome, l: nat)
    requires Refs(s) && Enabled(s, e) && l < |s.locks|
    ensures |Dispatch(s, e, o).locks| == |s.locks|
    ensures WokenBy(s, e, l) + Dispatch(s, e, o).locks[l].waiters == s.locks[l].waiters + BlockedBy(s, e, l)
  {
    match e {
      case Arrive(_, _) =>
      case Kick =>
        RefsMove(s, s.(kick := false));
        NextWaiters(s.(kick := false), o, l);
      case Fire(i) =>
        if s.pending[i].ev.UnlockMsg? { UnlockQueue(s, i, o, l); } else { FireQueue(s, i, o, l); }
    }
  }

  lemma FireQueue(s: State, i: nat, o: Outcome, l: nat)
    requires Refs(s) && Enabled(s, Fire(i)) && !s.pending[i].ev.UnlockMsg? && l < |s.locks|
    ensures |Dispatch(s, Fire(i), o).locks| == |s.locks|
    ensures Dispatch(s, Fire(i), o).locks[l].waiters == s.locks[l].waiters + BlockedBy(s, Fire(i), l)
  {
    FiredRefs(s, i);
    match s.pending[i].ev {
      case FreeCore => NextWaiters(Ended(Fired(s, i).(busy := s.busy - 1), s.pending[i].task), o, l);
      case LockMsg(q) => LockWaiters(Fired(s, i), q, o, l);
    }
  }

  // ---- when a request blocks

  /** Somebody holds the lock in a way that excludes a request of this kind. */
  predicate Excluded(k: Lock, kind: Kind) { k.writers != multiset{} || (kind == Write && k.readers != multiset{}) }

  lemma BlockedIffExcluded(k: Lock, kind: Kind)
    requires LockInv(k)
    ensures Blocked(k, kind) <==> Excluded(k, kind)
  {
  }

  lemma FoundLockInv(s: State, e: Event, l: nat)
    requires Refs(s) && Exclusion(s) && Holders(s) && Enabled(s, e) && l < |s.locks|
    ensures LockInv(FoundLock(s, e, l))
  {
    if e.Fire? && s.pending[e.i].ev.UnlockMsg? && s.pending[e.i].ev.lock == l {
      assert UnlockHeld(s, s.pending[e.i]);
      ReleaseInv(s.locks[l], s.pending[e.i].ev.kind, s.pending[e.i].task);
    }
  }

  /**
   A request blocks if and only if it has to: when a writer holds the lock, or it asks for
   writing and readers hold it. Readers share.
   */
  lemma BlocksOnlyIfExcluded(cores: nat, kinds: seq<bool>, ss: seq<State>, steps: seq<Step>, k: nat, l: nat)
    requires cores >= 1 && Run(cores, kinds, ss, steps) && k < |steps| && l < |ss[k].locks|
    ensures Refs(ss[k])
    ensures var s, e := ss[k], steps[k].e; var t := Tried(s, e);
      BlockedBy(s, e, l) != [] <==> t != [] && t[0].lock == l && Excluded(FoundLock(s, e, l), t[0].kind)
  {
    RunInv(cores, kinds, ss, steps, k);
    FoundLockInv(ss[k], steps[k].e, l);
    var t := Tried(ss[k], steps[k].e);
    if t != [] { BlockedIffExcluded(FoundLock(ss[k], steps[k].e, l), t[0].kind); }
  }

  // ---- over a run

  /** A request that blocked, and when. */
  datatype Block = Block(req: Request, step: nat, time: Time)

  function Stamped(reqs: seq<Request>, step: nat, time: Time): (bs: seq<Block>)
    ensures |bs| == |reqs| && forall i :: 0 <= i < |bs| ==> bs[i] == Block(reqs[i], step, time)
  {
    seq(|reqs|, i requires 0 <= i < |reqs| => Block(reqs[i], step, time))
  }

  ghost predicate StepOk(s: State, e: Event, n: nat) { Refs(s) && Enabled(s, e) && |s.locks| == n }

  /** The first `k` steps go on with the same `n` locks. */
  ghost predicate Proceeds(ss: seq<State>, steps: seq<Step>, k: nat, n: nat) {
    k <= |steps| && |ss| == |steps| + 1 && forall j :: 0 <= j < k ==> StepOk(ss[j], steps[j].e, n)
  }

  /** All requests that blocked on lock `l` in the first `k` steps, in order. */
  ghost function Blocks(ss: seq<State>, steps: seq<Step>, l: nat, k: nat, n: nat): seq<Block>
    requires Proceeds(ss, steps, k, n) && l < n
  {
    if k == 0 then []
    else
      assert StepOk(ss[k - 1], steps[k - 1].e, n);
      Blocks(ss, steps, l, k - 1, n) + Stamped(BlockedBy(ss[k - 1], steps[k - 1].e, l), k - 1, ss[k].now)
  }

  /** All requests for lock `l` that were moved to the run queue in the first `k` steps, in order. */
  ghost function Wakeups(ss: seq<State>, steps: seq<Step>, l: nat, k: nat, n: nat): seq<Request>
    requires Proceeds(ss, steps, k, n)
  {
    if k == 0 then []
    else
      assert StepOk(ss[k - 1], steps[k - 1].e, n);
      Wakeups(ss, steps, l, k - 1, n) + WokenBy(ss[k - 1], steps[k - 1].e, l)
  }

  lemma SameLocks(s: State, e: Event, o: Outcome)
    requires Refs(s) && Enabled(s, e)
    ensures |Dispatch(s, e, o).locks| == |s.locks|
  {
    if s.locks != [] { WaitersStep(s, e, o, 0); } else { NoLocks(s, e, o); }
  }

  lemma NoLocks(s: State, e: Event, o: Outcome)
    requires Refs(s) && Enabled(s, e) && s.locks == []
    ensures Dispatch(s, e, o).locks == []
  {
    if s.queue != [] { assert ItemOk(s.locks, s.queue[0]); }
    if e.Fire? { assert EventOk(s.locks, s.pending[e.i]); }
  }

  lemma {:induction false} RunProceeds(cores: nat, kinds: seq<bool>, ss: seq<State>, steps: seq<Step>, k: nat)
    requires cores >= 1 && Run(cores, kinds, ss, steps) && k <= |steps|
    ensures Proceeds(ss, steps, k, |kinds|) && |ss[k].locks| == |kinds|
  {
    if k > 0 {
      RunProceeds(cores, kinds, ss, steps, k - 1);
      RunRefs(cores, kinds, ss, steps, k - 1);
      SameLocks(ss[k - 1], steps[k - 1].e, steps[k - 1].o);
      ProceedsMore(ss, steps, k - 1, |kinds|);
    }
  }

  lemma RunRefs(cores: nat, kinds: seq<bool>, ss: seq<State>, steps: seq<Step>, k: nat)
    requires cores >= 1 && Run(cores, kinds, ss, steps) && k < |ss|
    ensures Refs(ss[k])
  {
    RunInv(cores, kinds, ss, steps, k);
  }

  lemma ProceedsMore(ss: seq<State>, steps: seq<Step>, k: nat, n: nat)
    requires Proceeds(ss, steps, k, n) && k < |steps| && StepOk(ss[k], steps[k].e, n)
    ensures Proceeds(ss, steps, k + 1, n)
  {
  }

  // ---- time

  /** Nothing is scheduled in the past. */
  ghost predicate OnTime(s: State) { forall i :: 0 <= i < |s.pending| ==> s.now <= s.pending[i].time }

  /** When event `e` happens. */
  function TimeOf(s: State, e: Event): Time {
    match e
    case Kick => s.now
    case Arrive(_, time) => time
    case Fire(i) => if i < |s.pending| then s.pending[i].time else s.now
  }

  /** The event that the last handler of `s'` asked for: when its time has elapsed, for its own task. */
  ghost predicate Asked(s': State, o: Outcome) {
    && s'.trace != [] && s'.pending != []
    && var h, p := s'.trace[|s'.trace| - 1], s'.pending[|s'.pending| - 1];
    && h.time == s'.now && p.time == s'.now + o.elapsed && p.task == h.task
    && match o.wish
       case Finish => p.ev == FreeCore
       case WantLock(kind, l) => p.ev == LockMsg(Request(kind, l, h.task))
       case WantUnlock(kind, l, more) => p.ev == UnlockMsg(kind, l, more)
  }

  /** Event `e` is over and leaves `rest`: no handler ran, or one ran now and asked for what `o` says. */
  ghost predicate Timed(s: State, e: Event, o: Outcome, s': State) {
    && s'.now == TimeOf(s, e)
    && (s'.trace == s.trace || (|s'.trace| == |s.trace| + 1 && s'.trace[..|s.trace|] == s.trace && Asked(s', o)))
    && (s'.trace == s.trace ==> |s'.pending| <= |s.pending|)
    && forall i :: 0 <= i < |s'.pending| && (s'.trace == s.trace || i < |s'.pending| - 1) ==> s'.pending[i] in s.pending
  }

  lemma NextTimed(s: State, o: Outcome)
    requires Refs(s)
    ensures Timed(s, Kick, o, ProcessNext(s, o))
  {
    if s.queue != [] { assert ItemOk(s.locks, s.queue[0]); }
  }

  /** Time goes on as the handlers say. */
  lemma DispatchTimed(s: State, e: Event, o: Outcome)
    requires Refs(s) && Enabled(s, e)
    ensures Timed(s, e, o, Dispatch(s, e, o))
  {
    match e {
      case Arrive(_, _) =>
      case Kick =>
        RefsMove(s, s.(kick := false));
        NextTimed(s.(kick := false), o);
      case Fire(i) =>
        FiredRefs(s, i);
        FireTimed(s, i, o);
    }
  }

  lemma FireTimed(s: State, i: nat, o: Outcome)
    requires Refs(s) && Enabled(s, Fire(i)) && Refs(Fired(s, i))
    requires Refs(Ended(Fired(s, i).(busy := s.busy - 1), s.pending[i].task))
    ensures Timed(s, Fire(i), o, Dispatch(s, Fire(i), o))
  {
    var p, s1 := s.pending[i], Fired(s, i);
    assert forall j :: 0 <= j < |s1.pending| ==> s1.pending[j] in s.pending;
    assert EventOk(s.locks, p);
    match p.ev {
      case FreeCore => NextTimed(Ended(s1.(busy := s.busy - 1), p.task), o);
      case LockMsg(q) =>
      case UnlockMsg(kind, l, more) =>
        ReleasedRefs(s1, p.task, kind, l);
        if !more { NextTimed(Ended(Released(s1, p.task, kind, l), p.task), o); }
    }
  }

  lemma StepOnTime(s: State, e: Event, o: Outcome)
    requires Refs(s) && Enabled(s, e) && OnTime(s) && HandlerProper(s, Dispatch(s, e, o), o)
    ensures OnTime(Dispatch(s, e, o)) && s.now <= Dispatch(s, e, o).now
  {
    DispatchTimed(s, e, o);
    TimedOnTime(s, e, o, Dispatch(s, e, o));
  }

  lemma TimedOnTime(s: State, e: Event, o: Outcome, s': State)
    requires Enabled(s, e) && OnTime(s) && Timed(s, e, o, s') && (s'.trace != s.trace ==> o.elapsed >= 0.0)
    ensures OnTime(s') && s.now <= s'.now
  {
    forall p | p in s.pending
      ensures s'.now <= p.time
    {
      var j :| 0 <= j < |s.pending| && s.pending[j] == p;
    }
  }

  lemma {:induction false} RunOnTime(cores: nat, kinds: seq<bool>, ss: seq<State>, steps: seq<Step>, k: nat)
    requires cores >= 1 && Run(cores, kinds, ss, steps) && k <= |steps|
    ensures OnTime(ss[k]) && (k > 0 ==> ss[k - 1].now <= ss[k].now)
  {
    if k > 0 {
      RunOnTime(cores, kinds, ss, steps, k - 1);
      RunRefs(cores, kinds, ss, steps, k - 1);
      StepOnTime(ss[k - 1], steps[k - 1].e, steps[k - 1].o);
    }
  }

  // ---- first blocked, first woken

  /** `reqs` are the requests of `bs`, in order. */
  ghost predicate Matches(bs: seq<Block>, reqs: seq<Request>) {
    |bs| == |reqs| && forall i :: 0 <= i < |bs| ==> bs[i].req == reqs[i]
  }

  /** Blocks are listed in the order in which they happened. */
  ghost predicate InTime(bs: seq<Block>, k: nat, now: Time) {
    && (forall i :: 0 <= i < |bs| ==> bs[i].step < k && bs[i].time <= now)
    && forall i, j :: 0 <= i < j < |bs| ==> bs[i].step < bs[j].step && bs[i].time <= bs[j].time
  }

  lemma OneMore(bs: seq<Block>, woken: seq<Request>, waiters: seq<Request>, b: seq<Request>, w: seq<Request>,
    waiters': seq<Request>, step: nat, now: Time, time: Time)
    requires Matches(bs, woken + waiters) && w + waiters' == waiters + b && |b| <= 1
    requires InTime(bs, step, now) && now <= time
    ensures Matches(bs + Stamped(b, step, time), woken + w + waiters')
    ensures InTime(bs + Stamped(b, step, time), step + 1, time)
  {
    assert woken + w + waiters' == woken + (w + waiters') == woken + waiters + b;
  }

  /**
   First blocked, first woken: in every state of every run, the requests that have blocked on
   a lock so far, in the order of time, are those that were moved to the run queue, in the
   order in which that happened, followed by those that still wait.
   */
  lemma {:induction false} FirstBlockedFirstWoken(cores: nat, kinds: seq<bool>, ss: seq<State>, steps: seq<Step>,
    k: nat, l: nat)
    requires cores >= 1 && Run(cores, kinds, ss, steps) && k <= |steps| && l < |kinds|
    ensures Proceeds(ss, steps, k, |kinds|) && |ss[k].locks| == |kinds|
    ensures Matches(Blocks(ss, steps, l, k, |kinds|), Wakeups(ss, steps, l, k, |kinds|) + ss[k].locks[l].waiters)
    ensures InTime(Blocks(ss, steps, l, k, |kinds|), k, ss[k].now)
    decreases k
  {
    RunProceeds(cores, kinds, ss, steps, k);
    if k > 0 {
      FirstBlockedFirstWoken(cores, kinds, ss, steps, k - 1, l);
      RunOnTime(cores, kinds, ss, steps, k);
      FifoStep(ss, steps, k - 1, l, |kinds|);
    }
  }

  lemma FifoStep(ss: seq<State>, steps: seq<Step>, k: nat, l: nat, n: nat)
    requires Proceeds(ss, steps, k + 1, n) && Proceeds(ss, steps, k, n) && l < n && ss[k].now <= ss[k + 1].now
    requires ss[k + 1] == Dispatch(ss[k], steps[k].e, steps[k].o) && |ss[k].locks| == |ss[k + 1].locks| == n
    requires Matches(Blocks(ss, steps, l, k, n), Wakeups(ss, steps, l, k, n) + ss[k].locks[l].waiters)
    requires InTime(Blocks(ss, steps, l, k, n), k, ss[k].now)
    ensures Matches(Blocks(ss, steps, l, k + 1, n), Wakeups(ss, steps, l, k + 1, n) + ss[k + 1].locks[l].waiters)
    ensures InTime(Blocks(ss, steps, l, k + 1, n), k + 1, ss[k + 1].now)
  {
    var s, e := ss[k], steps[k].e;
    assert StepOk(s, e, n);
    WaitersStep(s, e, steps[k].o, l);
    OneMore(Blocks(ss, steps, l, k, n), Wakeups(ss, steps, l, k, n), s.locks[l].waiters, BlockedBy(s, e, l),
      WokenBy(s, e, l), ss[k + 1].locks[l].waiters, k, s.now, ss[k + 1].now);
  }
}
