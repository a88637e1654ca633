/**
 What every run of the processor keeps, for any number of cores and locks: the
 busy counter counts the scheduled core-holding events, no task is lost or
 duplicated, locks exclude, and nobody waits for a wake-up that cannot come.
 */
module CpuInvariants {
  import opened Vectors
  import opened Cpu

  // ---- references

  ghost predicate RequestOk(locks: seq<Lock>, q: Request) { q.lock < |locks| && (q.kind == Read ==> locks[q.lock].rw) }

  ghost predicate ItemOk(locks: seq<Lock>, it: Item) { it.Retry? ==> RequestOk(locks, it.req) }

  ghost predicate EventOk(locks: seq<Lock>, p: Pending) {
    match p.ev
    case FreeCore => true
    case LockMsg(q) => RequestOk(locks, q) && q.task == p.task
    case UnlockMsg(_, l, _) => l < |locks|
  }

  ghost predicate WaitersOk(locks: seq<Lock>, l: nat)
    requires l < |locks|
  {
    forall i :: 0 <= i < |locks[l].waiters| ==> locks[l].waiters[i].lock == l && RequestOk(locks, locks[l].waiters[i])
  }

  ghost predicate Refs(s: State) {
    && (forall i :: 0 <= i < |s.queue| ==> ItemOk(s.locks, s.queue[i]))
    && (forall i :: 0 <= i < |s.pending| ==> EventOk(s.locks, s.pending[i]))
    && forall l :: 0 <= l < |s.locks| ==> WaitersOk(s.locks, l)
  }

  /** Locks are never added, removed or turned into another kind. */
  ghost predicate SameKinds(a: seq<Lock>, b: seq<Lock>) {
    |a| == |b| && forall l :: 0 <= l < |a| ==> a[l].rw == b[l].rw
  }

  lemma RefsMove(s: State, s': State)
    requires Refs(s) && SameKinds(s.locks, s'.locks)
    requires forall it :: it in s'.queue ==> it in s.queue || ItemOk(s'.locks, it)
    requires forall p :: p in s'.pending ==> p in s.pending || EventOk(s'.locks, p)
    requires forall l :: 0 <= l < |s.locks| ==> s'.locks[l].waiters == s.locks[l].waiters || WaitersOk(s'.locks, l)
    ensures Refs(s')
  {
    forall i | 0 <= i < |s'.queue|
      ensures ItemOk(s'.locks, s'.queue[i])
    {
      assert s'.queue[i] in s'.queue;
    }
    forall i | 0 <= i < |s'.pending|
      ensures EventOk(s'.locks, s'.pending[i])
    {
      assert s'.pending[i] in s'.pending;
    }
    forall l | 0 <= l < |s.locks|
      ensures WaitersOk(s'.locks, l)
    {
      assert WaitersOk(s.locks, l);
    }
  }

  lemma RunRefs(s: State, t: nat, o: Outcome)
    requires Refs(s) && Proper(s.locks, t, o)
    ensures Refs(RunHandler(s, t, o))
  {
    var s' := RunHandler(s, t, o);
    RefsMove(s, s');
  }

  /** The handler that runs, if any, behaves. */
  ghost predicate HandlerProper(s: State, s': State, o: Outcome) {
    |s'.trace| > |s.trace| ==> Proper(s'.locks, s'.trace[|s'.trace| - 1].task, o)
  }

  lemma LockRefs(s: State, q: Request, o: Outcome)
    requires Refs(s) && RequestOk(s.locks, q) && HandlerProper(s, OnLock(s, q, o), o)
    ensures Refs(OnLock(s, q, o))
  {
    var k := s.locks[q.lock];
    assert WaitersOk(s.locks, q.lock);
    if Blocked(k, q.kind) {
      RefsMove(s, OnLock(s, q, o));
    } else {
      var s1 := s.(busy := s.busy - 1, locks := s.locks[q.lock := Grant(k, q.kind, q.task)]);
      RefsMove(s, s1);
      RunRefs(s1, q.task, o);
    }
  }

  lemma NextRefs(s: State, o: Outcome)
    requires Refs(s) && HandlerProper(s, ProcessNext(s, o), o)
    ensures Refs(ProcessNext(s, o))
  {
    if s.queue != [] {
      var s1 := s.(queue := s.queue[1..]);
      RefsMove(s, s1);
      match s.queue[0] {
        case User(t) => RunRefs(s1, t, o);
        case Retry(q) =>
          RefsMove(s1, s1.(busy := s1.busy + 1));
          LockRefs(s1.(busy := s1.busy + 1), q, o);
      }
    }
  }

  lemma ReleasedRefs(s: State, t: nat, kind: Kind, l: nat)
    requires Refs(s) && l < |s.locks|
    ensures Refs(Released(s, t, kind, l)) && Refs(Ended(Released(s, t, kind, l), t))
  {
    var s1 := Released(s, t, kind, l);
    assert WaitersOk(s.locks, l);
    RefsMove(s, s1);
    RefsMove(s1, Ended(s1, t));
  }

  lemma UnlockRefs(s: State, t: nat, kind: Kind, l: nat, more: bool, o: Outcome)
    requires Refs(s) && l < |s.locks| && HandlerProper(s, OnUnlock(s, t, kind, l, more, o), o)
    ensures Refs(OnUnlock(s, t, kind, l, more, o))
  {
    ReleasedRefs(s, t, kind, l);
    if more { RunRefs(Released(s, t, kind, l), t, o); } else { NextRefs(Ended(Released(s, t, kind, l), t), o); }
  }

  lemma FiredRefs(s: State, i: nat)
    requires Refs(s) && i < |s.pending|
    ensures Refs(Fired(s, i)) && Refs(Ended(Fired(s, i).(busy := s.busy - 1), s.pending[i].task))
    ensures EventOk(s.locks, s.pending[i])
  {
    RefsMove(s, Fired(s, i));
    RefsMove(Fired(s, i), Ended(Fired(s, i).(busy := s.busy - 1), s.pending[i].task));
  }

  lemma ArriveRefs(s: State, t: nat, time: Time, o: Outcome)
    requires Refs(s) && HandlerProper(s, Dispatch(s, Arrive(t, time), o), o)
    ensures Refs(Dispatch(s, Arrive(t, time), o))
  {
    var s1 := s.(now := time, arrived := s.arrived + [t]);
    if s.busy >= s.cores {
      RefsMove(s, Dispatch(s, Arrive(t, time), o));
    } else {
      RefsMove(s, s1);
      RunRefs(s1, t, o);
    }
  }

  lemma AfterFiredRefs(s: State, p: Pending, o: Outcome)
    requires Refs(s) && EventOk(s.locks, p) && HandlerProper(s, AfterFired(s, p, o), o)
    ensures Refs(AfterFired(s, p, o))
  {
    match p.ev {
      case FreeCore =>
        RefsMove(s, Ended(s.(busy := s.busy - 1), p.task));
        NextRefs(Ended(s.(busy := s.busy - 1), p.task), o);
      case LockMsg(q) => LockRefs(s, q, o);
      case UnlockMsg(kind, l, more) => UnlockRefs(s, p.task, kind, l, more, o);
    }
  }

  lemma DispatchRefs(s: State, e: Event, o: Outcome)
    requires Refs(s) && Enabled(s, e) && HandlerProper(s, Dispatch(s, e, o), o)
    ensures Refs(Dispatch(s, e, o))
  {
    match e {
      case Kick =>
        RefsMove(s, s.(kick := false));
        NextRefs(s.(kick := false), o);
      case Arrive(t, time) => ArriveRefs(s, t, time, o);
      case Fire(i) =>
        FiredRefs(s, i);
        AfterFiredRefs(Fired(s, i), s.pending[i], o);
    }
  }

  // ---- cores

  /** The busy counter is the number of scheduled core-holding events and never exceeds the cores. */
  ghost predicate Cores(s: State) {
    s.busy == |s.pending| && s.busy <= s.cores && (s.kick ==> s.busy < s.cores)
  }

  lemma LockCores(s: State, q: Request, o: Outcome)
    requires q.lock < |s.locks| && s.busy == |s.pending| + 1 <= s.cores && !s.kick
    ensures Cores(OnLock(s, q, o))
  {
  }

  lemma NextCores(s: State, o: Outcome)
    requires Refs(s) && s.busy == |s.pending| < s.cores && !s.kick
    ensures Cores(ProcessNext(s, o))
  {
    if s.queue != [] && s.queue[0].Retry? {
      assert ItemOk(s.locks, s.queue[0]);
      LockCores(s.(queue := s.queue[1..], busy := s.busy + 1), s.queue[0].req, o);
    }
  }

  lemma UnlockCores(s: State, t: nat, kind: Kind, l: nat, more: bool, o: Outcome)
    requires Refs(s) && l < |s.locks| && s.busy == |s.pending| + 1 <= s.cores && !s.kick
    ensures Cores(OnUnlock(s, t, kind, l, more, o))
  {
    if !more {
      ReleasedRefs(s, t, kind, l);
      NextCores(Ended(Released(s, t, kind, l), t), o);
    }
  }

  lemma DispatchCores(s: State, e: Event, o: Outcome)
    requires Refs(s) && Cores(s) && Enabled(s, e)
    ensures Cores(Dispatch(s, e, o))
  {
    match e {
      case Kick =>
        RefsMove(s, s.(kick := false));
        NextCores(s.(kick := false), o);
      case Arrive(t, time) =>
      case Fire(i) =>
        var p := s.pending[i];
        FiredRefs(s, i);
        match p.ev {
          case FreeCore => NextCores(Ended(Fired(s, i).(busy := s.busy - 1), p.task), o);
          case LockMsg(q) => LockCores(Fired(s, i), q, o);
          case UnlockMsg(kind, l, more) => UnlockCores(Fired(s, i), p.task, kind, l, more, o);
        }
    }
  }

  // ---- conservation of tasks

  function PendingTasks(ps: seq<Pending>): seq<nat> { seq(|ps|, i requires 0 <= i < |ps| => ps[i].task) }

  function QueueTasks(q: seq<Item>): seq<nat> { seq(|q|, i requires 0 <= i < |q| => TaskOf(q[i])) }

  function RequestTasks(q: seq<Request>): seq<nat> { seq(|q|, i requires 0 <= i < |q| => q[i].task) }

  function Occurs(xs: seq<nat>, t: nat): nat { multiset(xs)[t] }

  function Waiting(locks: seq<Lock>, t: nat): nat {
    if locks == [] then 0 else Occurs(RequestTasks(locks[0].waiters), t) + Waiting(locks[1..], t)
  }

  /** How often task `t` is on a core, in the run queue, or waiting for a lock. */
  function Live(s: State, t: nat): nat {
    Occurs(PendingTasks(s.pending), t) + Occurs(QueueTasks(s.queue), t) + Waiting(s.locks, t)
  }

  function One(a: nat, b: nat): nat { if a == b then 1 else 0 }

  lemma {:induction false} WaitingUpdate(locks: seq<Lock>, l: nat, k: Lock, t: nat)
    requires l < |locks|
    ensures Waiting(locks[l := k], t) ==
      Waiting(locks, t) - Occurs(RequestTasks(locks[l].waiters), t) + Occurs(RequestTasks(k.waiters), t)
  {
    if l == 0 {
      assert locks[l := k][1..] == locks[1..];
    } else {
      assert locks[l := k][1..] == locks[1..][l - 1 := k];
      WaitingUpdate(locks[1..], l - 1, k, t);
    }
  }

  lemma RunLive(s: State, u: nat, o: Outcome, t: nat)
    ensures Live(RunHandler(s, u, o), t) == Live(s, t) + One(u, t)
  {
    var s' := RunHandler(s, u, o);
    assert PendingTasks(s'.pending) == PendingTasks(s.pending) + [u];
  }

  lemma BlockLive(locks: seq<Lock>, q: Request, t: nat)
    requires q.lock < |locks|
    ensures var k := locks[q.lock];
      Waiting(locks[q.lock := k.(waiters := k.waiters + [q])], t) == Waiting(locks, t) + One(q.task, t)
  {
    var k := locks[q.lock];
    assert RequestTasks(k.waiters + [q]) == RequestTasks(k.waiters) + [q.task];
    WaitingUpdate(locks, q.lock, k.(waiters := k.waiters + [q]), t);
  }

  lemma GrantLive(locks: seq<Lock>, q: Request, t: nat)
    requires q.lock < |locks|
    ensures Waiting(locks[q.lock := Grant(locks[q.lock], q.kind, q.task)], t) == Waiting(locks, t)
  {
    WaitingUpdate(locks, q.lock, Grant(locks[q.lock], q.kind, q.task), t);
  }

  lemma LockLive(s: State, q: Request, o: Outcome, t: nat)
    requires q.lock < |s.locks|
    ensures Live(OnLock(s, q, o), t) == Live(s, t) + One(q.task, t)
    ensures OnLock(s, q, o).done == s.done && OnLock(s, q, o).arrived == s.arrived
  {
    if Blocked(s.locks[q.lock], q.kind) {
      BlockLive(s.locks, q, t);
    } else {
      GrantedLive(s, q, o, t);
    }
  }

  lemma GrantedLive(s: State, q: Request, o: Outcome, t: nat)
    requires q.lock < |s.locks|
    ensures var s1 := s.(busy := s.busy - 1, locks := s.locks[q.lock := Grant(s.locks[q.lock], q.kind, q.task)]);
      Live(RunHandler(s1, q.task, o), t) == Live(s, t) + One(q.task, t)
  {
    var s1 := s.(busy := s.busy - 1, locks := s.locks[q.lock := Grant(s.locks[q.lock], q.kind, q.task)]);
    GrantLive(s.locks, q, t);
    RunLive(s1, q.task, o, t);
  }

  lemma PopLive(queue: seq<Item>, t: nat)
    requires queue != []
    ensures Occurs(QueueTasks(queue), t) == One(TaskOf(queue[0]), t) + Occurs(QueueTasks(queue[1..]), t)
  {
    assert QueueTasks(queue) == [TaskOf(queue[0])] + QueueTasks(queue[1..]);
  }

  lemma NextLive(s: State, o: Outcome, t: nat)
    requires Refs(s)
    ensures Live(ProcessNext(s, o), t) == Live(s, t)
    ensures ProcessNext(s, o).done == s.done && ProcessNext(s, o).arrived == s.arrived
  {
    if s.queue != [] {
      assert ItemOk(s.locks, s.queue[0]);
      var s1 := s.(queue := s.queue[1..]);
      PopLive(s.queue, t);
      match s.queue[0] {
        case User(u) => RunLive(s1, u, o, t);
        case Retry(q) => LockLive(s1.(busy := s.busy + 1), q, o, t);
      }
    }
  }

  lemma WokenLive(k: Lock, kind: Kind, u: nat, queue: seq<Item>, t: nat)
    ensures Occurs(RequestTasks(Release(k, kind, u).waiters), t) + Occurs(QueueTasks(Woken(k, kind) + queue), t)
      == Occurs(RequestTasks(k.waiters), t) + Occurs(QueueTasks(queue), t)
  {
    if Frees(k, kind) && k.waiters != [] {
      assert RequestTasks(k.waiters) == [k.waiters[0].task] + RequestTasks(k.waiters[1..]);
      assert QueueTasks([Retry(k.waiters[0])] + queue) == [k.waiters[0].task] + QueueTasks(queue);
    } else {
      assert Release(k, kind, u).waiters == k.waiters;
      assert Woken(k, kind) + queue == queue;
    }
  }

  lemma ReleasedLive(s: State, u: nat, kind: Kind, l: nat, t: nat)
    requires l < |s.locks|
    ensures Live(Released(s, u, kind, l), t) == Live(s, t)
  {
    WaitingUpdate(s.locks, l, Release(s.locks[l], kind, u), t);
    WokenLive(s.locks[l], kind, u, s.queue, t);
  }

  lemma UnlockLive(s: State, u: nat, kind: Kind, l: nat, more: bool, o: Outcome, t: nat)
    requires Refs(s) && l < |s.locks|
    ensures var s' := OnUnlock(s, u, kind, l, more, o);
      Live(s', t) + s'.done[t] == Live(s, t) + s.done[t] + One(u, t) && s'.arrived == s.arrived
  {
    ReleasedLive(s, u, kind, l, t);
    var s1 := Released(s, u, kind, l);
    if more {
      RunLive(s1, u, o, t);
    } else {
      ReleasedRefs(s, u, kind, l);
      NextLive(Ended(s1, u), o, t);
    }
  }

  lemma FiredLive(s: State, i: nat, t: nat)
    requires i < |s.pending|
    ensures Live(Fired(s, i), t) + One(s.pending[i].task, t) == Live(s, t)
  {
    var a, p, b := s.pending[..i], s.pending[i], s.pending[i + 1..];
    assert s.pending == a + [p] + b;
    assert PendingTasks(s.pending) == PendingTasks(a) + [p.task] + PendingTasks(b);
    assert PendingTasks(a + b) == PendingTasks(a) + PendingTasks(b);
  }

  ghost predicate Accounted(s: State, t: nat) { Live(s, t) + s.done[t] == Occurs(s.arrived, t) }

  ghost predicate Distinct(xs: seq<nat>) { forall i, j :: 0 <= i < j < |xs| ==> xs[i] != xs[j] }

  /** Every task that arrived is in exactly one place, or has ended, exactly once. */
  ghost predicate Conserved(s: State) { Distinct(s.arrived) && forall t :: Accounted(s, t) }

  lemma ArriveConserves(s: State, u: nat, time: Time, o: Outcome, t: nat)
    requires Accounted(s, t)
    ensures Accounted(Dispatch(s, Arrive(u, time), o), t)
  {
    var s1 := s.(now := time, arrived := s.arrived + [u]);
    if s.busy >= s.cores {
      assert QueueTasks(s.queue + [User(u)]) == QueueTasks(s.queue) + [u];
    } else {
      RunLive(s1, u, o, t);
    }
  }

  lemma FireConserves(s: State, i: nat, o: Outcome, t: nat)
    requires Refs(s) && i < |s.pending| && Accounted(s, t)
    ensures Accounted(Dispatch(s, Fire(i), o), t) && Dispatch(s, Fire(i), o).arrived == s.arrived
  {
    FiredLive(s, i, t);
    FiredRefs(s, i);
    HandOver(Fired(s, i), s.pending[i], o, t);
    assert Dispatch(s, Fire(i), o) == AfterFired(Fired(s, i), s.pending[i], o);
  }

  /** What the dispatcher does with a fired event. */
  lemma HandOver(s: State, p: Pending, o: Outcome, t: nat)
    requires Refs(s) && Refs(Ended(s.(busy := s.busy - 1), p.task)) && EventOk(s.locks, p)
    ensures var s' := AfterFired(s, p, o);
      Live(s', t) + s'.done[t] == Live(s, t) + s.done[t] + One(p.task, t) && s'.arrived == s.arrived
  {
    match p.ev {
      case FreeCore => FreeLive(s, p.task, o, t);
      case LockMsg(q) => LockLive(s, q, o, t);
      case UnlockMsg(kind, l, more) => UnlockLive(s, p.task, kind, l, more, o, t);
    }
  }

  lemma FreeLive(s: State, u: nat, o: Outcome, t: nat)
    requires Refs(Ended(s.(busy := s.busy - 1), u))
    ensures var s' := ProcessNext(Ended(s.(busy := s.busy - 1), u), o);
      Live(s', t) + s'.done[t] == Live(s, t) + s.done[t] + One(u, t) && s'.arrived == s.arrived
  {
    NextLive(Ended(s.(busy := s.busy - 1), u), o, t);
  }

  /** Each event adds the arriving task or moves one task; it loses or copies none. */
  lemma DispatchConserves(s: State, e: Event, o: Outcome)
    requires Refs(s) && Enabled(s, e) && Conserved(s)
    ensures Conserved(Dispatch(s, e, o))
  {
    var s' := Dispatch(s, e, o);
    forall t
      ensures Accounted(s', t) && s'.arrived == s.arrived + if e.Arrive? then [e.task] else []
    {
      assert Accounted(s, t);
      match e {
        case Kick =>
          RefsMove(s, s.(kick := false));
          NextLive(s.(kick := false), o, t);
        case Arrive(u, time) => ArriveConserves(s, u, time, o, t);
        case Fire(i) => FireConserves(s, i, o, t);
      }
    }
    assert Accounted(s', 0);
  }

  // ---- exclusion

  /**
   `counter` counts the readers; the lock is marked exactly while somebody holds
   it; at most one writer, and then no reader; a mutex has no readers.
   */
  ghost predicate LockInv(k: Lock) {
    && k.counter == |k.readers|
    && (k.locked <==> |k.readers| + |k.writers| > 0)
    && |k.writers| <= 1
    && (|k.writers| == 1 ==> |k.readers| == 0)
    && (!k.rw ==> |k.readers| == 0)
  }

  lemma GrantInv(k: Lock, kind: Kind, t: nat)
    requires LockInv(k) && !Blocked(k, kind) && (kind == Read ==> k.rw)
    ensures LockInv(Grant(k, kind, t))
  {
  }

  lemma ReleaseInv(k: Lock, kind: Kind, t: nat)
    requires LockInv(k) && Holds(k, kind, t)
    ensures LockInv(Release(k, kind, t)) && k.locked && (kind == Read ==> k.counter > 0)
  {
    if kind == Read {
      assert |k.readers - multiset{t}| == |k.readers| - 1;
    } else {
      assert |k.writers - multiset{t}| == |k.writers| - 1;
    }
  }

  ghost predicate Exclusion(s: State) { forall l :: 0 <= l < |s.locks| ==> LockInv(s.locks[l]) }

  /** The task of a pending unlock still holds what it is about to release. */
  ghost predicate UnlockHeld(s: State, p: Pending) {
    p.ev.UnlockMsg? ==> p.ev.lock < |s.locks| && Holds(s.locks[p.ev.lock], p.ev.kind, p.task)
  }

  ghost predicate Holders(s: State) { forall i :: 0 <= i < |s.pending| ==> UnlockHeld(s, s.pending[i]) }

  lemma RunHolders(s: State, t: nat, o: Outcome)
    requires Holders(s) && Proper(s.locks, t, o)
    ensures Holders(RunHandler(s, t, o))
  {
    var s' := RunHandler(s, t, o);
    forall i | 0 <= i < |s'.pending|
      ensures UnlockHeld(s', s'.pending[i])
    {
      if i < |s.pending| { assert UnlockHeld(s, s.pending[i]); }
    }
  }

  lemma LockExcludes(s: State, q: Request, o: Outcome)
    requires RequestOk(s.locks, q) && Exclusion(s) && Holders(s) && HandlerProper(s, OnLock(s, q, o), o)
    ensures Exclusion(OnLock(s, q, o)) && Holders(OnLock(s, q, o))
  {
    var k := s.locks[q.lock];
    if Blocked(k, q.kind) {
      LockChanged(s, OnLock(s, q, o), q.lock);
    } else {
      GrantInv(k, q.kind, q.task);
      var s1 := s.(busy := s.busy - 1, locks := s.locks[q.lock := Grant(k, q.kind, q.task)]);
      LockChanged(s, s1, q.lock);
      RunHolders(s1, q.task, o);
    }
  }

  /** Lock `l` changes consistently and nobody loses it. */
  lemma LockChanged(s: State, s1: State, l: nat)
    requires l < |s.locks| && Exclusion(s) && Holders(s)
    requires s1.pending == s.pending && |s1.locks| == |s.locks| && s1.locks == s.locks[l := s1.locks[l]]
    requires LockInv(s1.locks[l])
    requires s.locks[l].readers <= s1.locks[l].readers && s.locks[l].writers <= s1.locks[l].writers
    ensures Exclusion(s1) && Holders(s1)
  {
    forall i | 0 <= i < |s1.pending|
      ensures UnlockHeld(s1, s1.pending[i])
    {
      assert UnlockHeld(s, s.pending[i]);
    }
  }

  lemma NextExcludes(s: State, o: Outcome)
    requires Refs(s) && Exclusion(s) && Holders(s) && HandlerProper(s, ProcessNext(s, o), o)
    ensures Exclusion(ProcessNext(s, o)) && Holders(ProcessNext(s, o))
  {
    if s.queue != [] {
      var s1 := s.(queue := s.queue[1..]);
      assert ItemOk(s.locks, s.queue[0]);
      assert forall i :: 0 <= i < |s1.pending| ==> UnlockHeld(s, s.pending[i]) ==> UnlockHeld(s1, s1.pending[i]);
      match s.queue[0] {
        case User(t) => RunHolders(s1, t, o);
        case Retry(q) =>
          var s2 := s1.(busy := s1.busy + 1);
          assert forall i :: 0 <= i < |s2.pending| ==> UnlockHeld(s1, s1.pending[i]) ==> UnlockHeld(s2, s2.pending[i]);
          LockExcludes(s2, q, o);
      }
    }
  }

  /** Releasing does not take the lock away from anybody else. */
  lemma ReleaseKeepsOthers(s: State, s1: State, t: nat, kind: Kind, l: nat)
    requires l < |s.locks| && Holders(s)
    requires s1.locks == s.locks[l := Release(s.locks[l], kind, t)] && s1.pending == s.pending
    requires forall i :: 0 <= i < |s.pending| ==> s.pending[i].task != t
    ensures Holders(s1)
  {
    forall i | 0 <= i < |s1.pending|
      ensures UnlockHeld(s1, s1.pending[i])
    {
      assert UnlockHeld(s, s.pending[i]);
    }
  }

  lemma UnlockExcludes(s: State, t: nat, kind: Kind, l: nat, more: bool, o: Outcome)
    requires Refs(s) && Exclusion(s) && Holders(s) && l < |s.locks| && Holds(s.locks[l], kind, t)
    requires forall i :: 0 <= i < |s.pending| ==> s.pending[i].task != t
    requires HandlerProper(s, OnUnlock(s, t, kind, l, more, o), o)
    ensures Exclusion(OnUnlock(s, t, kind, l, more, o)) && Holders(OnUnlock(s, t, kind, l, more, o))
  {
    ReleaseInv(s.locks[l], kind, t);
    var s1 := Released(s, t, kind, l);
    ReleaseKeepsOthers(s, s1, t, kind, l);
    if more {
      RunHolders(s1, t, o);
    } else {
      ReleaseKeepsOthers(s, Ended(s1, t), t, kind, l);
      ReleasedRefs(s, t, kind, l);
      NextExcludes(Ended(s1, t), o);
    }
  }

  /** The task of a fired event is on no other core. */
  lemma SolePending(s: State, i: nat, j: nat)
    requires Conserved(s) && i < |s.pending| && j < |s.pending| && i != j
    ensures s.pending[i].task != s.pending[j].task
  {
    DistinctOnce(s.arrived, s.pending[i].task);
    assert Accounted(s, s.pending[i].task);
    var ts := PendingTasks(s.pending);
    assert multiset(ts)[s.pending[i].task] <= 1;
    if ts[i] == ts[j] { TwiceInside(ts, i, j); }
  }

  lemma {:induction false} DistinctOnce(xs: seq<nat>, x: nat)
    requires forall i, j :: 0 <= i < j < |xs| ==> xs[i] != xs[j]
    ensures multiset(xs)[x] <= 1
  {
    if xs != [] {
      assert xs == [xs[0]] + xs[1..];
      DistinctOnce(xs[1..], x);
      if x == xs[0] { assert x !in xs[1..]; }
    }
  }

  lemma TwiceInside(xs: seq<nat>, i: nat, j: nat)
    requires i < |xs| && j < |xs| && i != j && xs[i] == xs[j]
    ensures multiset(xs)[xs[i]] >= 2
  {
    var a, b := if i < j then i else j, if i < j then j else i;
    assert xs == xs[..a] + [xs[a]] + xs[a + 1..b] + [xs[b]] + xs[b + 1..];
  }

  lemma FiredHolders(s: State, i: nat)
    requires Conserved(s) && Holders(s) && i < |s.pending|
    ensures Holders(Fired(s, i))
    ensures forall j :: 0 <= j < |Fired(s, i).pending| ==> Fired(s, i).pending[j].task != s.pending[i].task
  {
    var s1 := Fired(s, i);
    forall j | 0 <= j < |s1.pending|
      ensures UnlockHeld(s1, s1.pending[j]) && s1.pending[j].task != s.pending[i].task
    {
      var m := if j < i then j else j + 1;
      assert s1.pending[j] == s.pending[m] && UnlockHeld(s, s.pending[m]);
      SolePending(s, m, i);
    }
  }

  lemma FireExcludes(s: State, i: nat, o: Outcome)
    requires Refs(s) && Conserved(s) && Exclusion(s) && Holders(s) && i < |s.pending|
    requires HandlerProper(s, Dispatch(s, Fire(i), o), o)
    ensures Exclusion(Dispatch(s, Fire(i), o)) && Holders(Dispatch(s, Fire(i), o))
  {
    FiredRefs(s, i);
    FiredHolders(s, i);
    FiredExclusion(s, i);
    FiredExcludes(s, Fired(s, i), s.pending[i], o);
  }

  lemma FiredExcludes(s: State, s1: State, p: Pending, o: Outcome)
    requires Refs(s1) && Exclusion(s1) && Holders(s1) && EventOk(s1.locks, p) && UnlockHeld(s1, p)
    requires s1.trace == s.trace
    requires forall i :: 0 <= i < |s1.pending| ==> s1.pending[i].task != p.task
    requires HandlerProper(s, AfterFired(s1, p, o), o)
    ensures Exclusion(AfterFired(s1, p, o)) && Holders(AfterFired(s1, p, o))
  {
    AfterFiredExcludes(s1, p, o);
  }

  lemma FiredExclusion(s: State, i: nat)
    requires Exclusion(s) && Holders(s) && i < |s.pending|
    ensures Exclusion(Fired(s, i)) && UnlockHeld(Fired(s, i), s.pending[i])
  {
    assert UnlockHeld(s, s.pending[i]);
  }

  lemma AfterFiredExcludes(s: State, p: Pending, o: Outcome)
    requires Refs(s) && Exclusion(s) && Holders(s) && EventOk(s.locks, p) && UnlockHeld(s, p)
    requires forall i :: 0 <= i < |s.pending| ==> s.pending[i].task != p.task
    requires HandlerProper(s, AfterFired(s, p, o), o)
    ensures Exclusion(AfterFired(s, p, o)) && Holders(AfterFired(s, p, o))
  {
    match p.ev {
      case FreeCore => FreeExcludes(s, p.task, o);
      case LockMsg(q) => LockExcludes(s, q, o);
      case UnlockMsg(kind, l, more) => UnlockExcludes(s, p.task, kind, l, more, o);
    }
  }

  lemma FreeExcludes(s: State, t: nat, o: Outcome)
    requires Refs(s) && Exclusion(s) && Holders(s)
    requires HandlerProper(s, ProcessNext(Ended(s.(busy := s.busy - 1), t), o), o)
    ensures var s' := ProcessNext(Ended(s.(busy := s.busy - 1), t), o); Exclusion(s') && Holders(s')
  {
    var s1 := Ended(s.(busy := s.busy - 1), t);
    RefsMove(s, s1);
    assert forall i :: 0 <= i < |s1.pending| ==> UnlockHeld(s, s1.pending[i]) && UnlockHeld(s1, s1.pending[i]);
    NextExcludes(s1, o);
  }

  lemma DispatchExcludes(s: State, e: Event, o: Outcome)
    requires Refs(s) && Conserved(s) && Exclusion(s) && Holders(s) && Enabled(s, e)
    requires HandlerProper(s, Dispatch(s, e, o), o)
    ensures Exclusion(Dispatch(s, e, o)) && Holders(Dispatch(s, e, o))
  {
    match e {
      case Kick =>
        var s1 := s.(kick := false);
        RefsMove(s, s1);
        assert forall j :: 0 <= j < |s1.pending| ==> UnlockHeld(s, s.pending[j]) ==> UnlockHeld(s1, s1.pending[j]);
        NextExcludes(s1, o);
      case Arrive(t, time) =>
        var s1 := s.(now := time, arrived := s.arrived + [t]);
        assert forall j :: 0 <= j < |s1.pending| ==> UnlockHeld(s, s.pending[j]) ==> UnlockHeld(s1, s1.pending[j]);
        if s.busy < s.cores {
          RunHolders(s1, t, o);
        } else {
          var s2 := Dispatch(s, e, o);
          assert forall j :: 0 <= j < |s2.pending| ==> UnlockHeld(s, s.pending[j]) ==> UnlockHeld(s2, s2.pending[j]);
        }
      case Fire(i) => FireExcludes(s, i, o);
    }
  }

  // ---- wake-ups

  ghost predicate Retried(queue: seq<Item>, l: nat) {
    exists i :: 0 <= i < |queue| && queue[i].Retry? && queue[i].req.lock == l
  }

  /**
   A non-empty run queue has an event that will pop it or pass its core on within its task
   (`CpuWork.EventUsesCore`); whoever waits for a lock has somebody holding it or a retry
   for it in the run queue.
   */
  ghost predicate NoLostWakeup(s: State) {
    && (s.queue != [] ==> s.busy > 0 || s.kick)
    && Wakers(s)
  }

  ghost predicate Wakers(s: State) {
    forall l :: 0 <= l < |s.locks| && s.locks[l].waiters != [] ==> s.locks[l].locked || Retried(s.queue, l)
  }

  lemma LockWakes(s: State, q: Request, o: Outcome)
    requires q.lock < |s.locks| && s.busy >= 1
    requires forall l :: 0 <= l < |s.locks| && l != q.lock && s.locks[l].waiters != [] ==>
      s.locks[l].locked || Retried(s.queue, l)
    ensures NoLostWakeup(OnLock(s, q, o))
  {
  }

  lemma NextWakes(s: State, o: Outcome)
    requires Refs(s) && Wakers(s) && s.busy >= 0
    ensures NoLostWakeup(ProcessNext(s, o))
  {
    if s.queue != [] {
      var it, rest := s.queue[0], s.queue[1..];
      assert ItemOk(s.locks, it);
      forall l | 0 <= l < |s.locks| && s.locks[l].waiters != [] && !(it.Retry? && it.req.lock == l)
        ensures s.locks[l].locked || Retried(rest, l)
      {
        if !s.locks[l].locked {
          var i :| 0 <= i < |s.queue| && s.queue[i].Retry? && s.queue[i].req.lock == l;
          assert rest[i - 1] == s.queue[i];
        }
      }
      if it.Retry? {
        LockWakes(s.(queue := rest, busy := s.busy + 1), it.req, o);
      }
    }
  }

  lemma RetriedLater(queue: seq<Item>, front: seq<Item>, l: nat)
    requires Retried(queue, l)
    ensures Retried(front + queue, l)
  {
    var i :| 0 <= i < |queue| && queue[i].Retry? && queue[i].req.lock == l;
    assert (front + queue)[|front| + i] == queue[i];
  }

  lemma ReleasedWakers(s: State, t: nat, kind: Kind, l: nat)
    requires Refs(s) && Wakers(s) && Exclusion(s) && l < |s.locks| && Holds(s.locks[l], kind, t)
    ensures Wakers(Released(s, t, kind, l))
  {
    var k, s1 := s.locks[l], Released(s, t, kind, l);
    assert WaitersOk(s.locks, l) && LockInv(k);
    forall m | 0 <= m < |s1.locks| && s1.locks[m].waiters != []
      ensures s1.locks[m].locked || Retried(s1.queue, m)
    {
      if m == l && Frees(k, kind) {
        assert s1.queue[0] == Retry(k.waiters[0]);
      } else if !s1.locks[m].locked {
        RetriedLater(s.queue, Woken(k, kind), m);
      }
    }
  }

  lemma UnlockWakes(s: State, t: nat, kind: Kind, l: nat, more: bool, o: Outcome)
    requires Refs(s) && Wakers(s) && Exclusion(s) && l < |s.locks| && s.busy >= 1 && Holds(s.locks[l], kind, t)
    ensures NoLostWakeup(OnUnlock(s, t, kind, l, more, o))
  {
    ReleasedWakers(s, t, kind, l);
    if !more {
      ReleasedRefs(s, t, kind, l);
      NextWakes(Ended(Released(s, t, kind, l), t), o);
    }
  }

  lemma ArriveWakes(s: State, t: nat, time: Time, o: Outcome)
    requires Cores(s) && NoLostWakeup(s) && s.cores >= 1
    ensures NoLostWakeup(Dispatch(s, Arrive(t, time), o))
  {
    var s' := Dispatch(s, Arrive(t, time), o);
    forall l | 0 <= l < |s'.locks| && s'.locks[l].waiters != []
      ensures s'.locks[l].locked || Retried(s'.queue, l)
    {
      if !s.locks[l].locked {
        var i :| 0 <= i < |s.queue| && s.queue[i].Retry? && s.queue[i].req.lock == l;
        assert s'.queue[i] == s.queue[i];
      }
    }
  }

  lemma DispatchWakes(s: State, e: Event, o: Outcome)
    requires Refs(s) && Cores(s) && Exclusion(s) && Holders(s) && NoLostWakeup(s) && s.cores >= 1 && Enabled(s, e)
    ensures NoLostWakeup(Dispatch(s, e, o))
  {
    match e {
      case Kick =>
        RefsMove(s, s.(kick := false));
        NextWakes(s.(kick := false), o);
      case Arrive(t, time) => ArriveWakes(s, t, time, o);
      case Fire(i) =>
        var p := s.pending[i];
        FiredRefs(s, i);
        assert UnlockHeld(s, p);
        match p.ev {
          case FreeCore => NextWakes(Ended(Fired(s, i).(busy := s.busy - 1), p.task), o);
          case LockMsg(q) => LockWakes(Fired(s, i), q, o);
          case UnlockMsg(kind, l, more) => UnlockWakes(Fired(s, i), p.task, kind, l, more, o);
        }
    }
  }

  // ---- runs

  ghost predicate Inv(s: State) {
    s.cores >= 1 && Refs(s) && Cores(s) && Conserved(s) && Exclusion(s) && Holders(s) && NoLostWakeup(s)
  }

  lemma InitInv(cores: nat, kinds: seq<bool>)
    requires cores >= 1
    ensures Inv(Init(cores, kinds))
  {
    var s := Init(cores, kinds);
    forall t
      ensures Accounted(s, t)
    {
      NobodyWaits(s.locks, t);
      assert PendingTasks([]) == [] && QueueTasks([]) == [];
    }
  }

  lemma {:induction false} NobodyWaits(locks: seq<Lock>, t: nat)
    requires forall l :: 0 <= l < |locks| ==> locks[l].waiters == []
    ensures Waiting(locks, t) == 0
  {
    if locks != [] {
      assert locks[0].waiters == [] && RequestTasks([]) == [];
      NobodyWaits(locks[1..], t);
    }
  }

  /** One event, with any behaviour of the handler it runs, keeps every invariant. */
  lemma StepInv(s: State, e: Event, o: Outcome)
    requires Inv(s) && Enabled(s, e) && HandlerProper(s, Dispatch(s, e, o), o)
    ensures Inv(Dispatch(s, e, o))
  {
    DispatchRefs(s, e, o);
    DispatchCores(s, e, o);
    DispatchConserves(s, e, o);
    DispatchExcludes(s, e, o);
    DispatchWakes(s, e, o);
  }

  datatype Step = Step(e: Event, o: Outcome)

  ghost predicate Run(cores: nat, kinds: seq<bool>, ss: seq<State>, steps: seq<Step>) {
    && |ss| == |steps| + 1
    && ss[0] == Init(cores, kinds)
    && forall k {:trigger steps[k]} :: 0 <= k < |steps| ==>
      && Enabled(ss[k], steps[k].e)
      && ss[k + 1] == Dispatch(ss[k], steps[k].e, steps[k].o)
      && HandlerProper(ss[k], ss[k + 1], steps[k].o)
  }

  /** Core conservation, task conservation, exclusion and wake-ups in every state of every run. */
  lemma {:induction false} RunInv(cores: nat, kinds: seq<bool>, ss: seq<State>, steps: seq<Step>, k: nat)
    requires cores >= 1 && Run(cores, kinds, ss, steps) && k < |ss|
    ensures Inv(ss[k])
    decreases k
  {
    if k == 0 {
      InitInv(cores, kinds);
    } else {
      RunInv(cores, kinds, ss, steps, k - 1);
      StepInv(ss[k - 1], steps[k - 1].e, steps[k - 1].o);
    }
  }

  // ---- assertions

  /** The assertions the C code makes when it handles event `e`. */
  ghost predicate Asserts(s: State, e: Event) {
    match e
    case Kick => 0 <= s.busy < s.cores && CanPop(s.locks, s.queue)
    case Arrive(_, _) => true
    case Fire(i) =>
      && i < |s.pending| && 0 < s.busy <= s.cores
      && match s.pending[i].ev
         case FreeCore => CanPop(s.locks, s.queue)
         case LockMsg(q) => q.lock < |s.locks|
         case UnlockMsg(kind, l, _) => CanUnlock(s.locks, s.queue, kind, l)
  }

  /** None of the scheduler's assertions fires: they are preconditions of the `Processor` methods. */
  lemma AssertionsNeverFire(s: State, e: Event)
    requires Inv(s) && Enabled(s, e)
    ensures Asserts(s, e)
  {
    if s.queue != [] { assert ItemOk(s.locks, s.queue[0]); }
    if e.Fire? {
      var p := s.pending[e.i];
      assert EventOk(s.locks, p) && UnlockHeld(s, p);
      if p.ev.UnlockMsg? {
        assert LockInv(s.locks[p.ev.lock]) && WaitersOk(s.locks, p.ev.lock);
        ReleaseInv(s.locks[p.ev.lock], p.ev.kind, p.task);
      }
    }
  }

  /** Readers and a writer never hold a lock together, and two writers never do. */
  lemma NeverTogether(s: State, l: nat, t: nat, u: nat)
    requires Inv(s) && l < |s.locks| && Holds(s.locks[l], Write, t)
    ensures s.locks[l].locked && !Holds(s.locks[l], Read, u)
    ensures Holds(s.locks[l], Write, u) ==> u == t
  {
    var k := s.locks[l];
    assert LockInv(k);
    assert u in k.readers ==> |k.readers| > 0;
    if u in k.writers && u != t {
      assert multiset{t, u} <= k.writers;
      assert |multiset{t, u}| == 2;
      SubCount(multiset{t, u}, k.writers);
    }
  }

  lemma SubCount(a: multiset<nat>, b: multiset<nat>)
    requires a <= b
    ensures |a| <= |b|
  {
    assert b == a + (b - a);
  }
}
