/**
 The processor with one core, running handlers that give back the locks they take.
 No lock request ever blocks, user events are handled in arrival order, all the
 handlers of one task run without another task's handler between them, and at
 strictly increasing times. This is why the protocol modules may treat a whole
 chain of lock, critical section, unlock and continuation as one step.
 */
module CpuSingleCore {
  import opened Vectors
  import opened Cpu
  import opened CpuInvariants

  function Tasks(trace: seq<Handled>): seq<nat> { seq(|trace|, i requires 0 <= i < |trace| => trace[i].task) }

  /** Runs of equal elements become one element. */
  function Collapse(xs: seq<nat>): seq<nat> {
    if xs == [] then []
    else
      var front, x := xs[..|xs| - 1], xs[|xs| - 1];
      if front != [] && front[|front| - 1] == x then Collapse(front) else Collapse(front) + [x]
  }

  lemma CollapseSnoc(xs: seq<nat>, x: nat)
    ensures Collapse(xs + [x]) == if xs != [] && xs[|xs| - 1] == x then Collapse(xs) else Collapse(xs) + [x]
  {
    assert (xs + [x])[..|xs|] == xs;
  }

  lemma {:induction false} CollapseKeeps(xs: seq<nat>, i: nat)
    requires i < |xs|
    ensures xs[i] in Collapse(xs)
  {
    var front := xs[..|xs| - 1];
    if i < |front| {
      CollapseKeeps(front, i);
    } else if front != [] && front[|front| - 1] == xs[i] {
      CollapseKeeps(front, |front| - 1);
    }
  }

  /** If nothing comes back after a pause, equal elements are next to each other. */
  lemma {:induction false} Contiguous(xs: seq<nat>, i: nat, j: nat, k: nat)
    requires Distinct(Collapse(xs)) && i < j < k < |xs| && xs[i] == xs[k]
    ensures xs[j] == xs[i]
    decreases |xs|
  {
    var front := xs[..|xs| - 1];
    CollapseSnoc(front, xs[|xs| - 1]);
    assert front + [xs[|xs| - 1]] == xs;
    assert Collapse(front) == Collapse(xs)[..|Collapse(front)|];
    if k < |front| {
      Contiguous(front, i, j, k);
    } else {
      CollapseKeeps(front, i);
      assert front[|front| - 1] == xs[k];
      if j < |front| - 1 { Contiguous(front, i, j, |front| - 1); }
    }
  }

  // ---- handlers that give back what they take

  ghost predicate HoldsNothing(locks: seq<Lock>, t: nat) {
    forall l :: 0 <= l < |locks| ==> t !in locks[l].readers && t !in locks[l].writers
  }

  ghost predicate OnlyHeldBy(locks: seq<Lock>, t: nat) {
    forall l :: 0 <= l < |locks| ==> LockOnlyHeldBy(locks[l], t)
  }

  ghost predicate LockOnlyHeldBy(k: Lock, t: nat) {
    (forall u :: u in k.readers ==> u == t) && (forall u :: u in k.writers ==> u == t)
  }

  ghost predicate NobodyHolds(locks: seq<Lock>) {
    forall l :: 0 <= l < |locks| ==> locks[l].readers == multiset{} && locks[l].writers == multiset{}
  }

  /**
   A task ends holding nothing, and does not ask for a lock that it holds itself
   in a conflicting mode.
   */
  ghost predicate TidyEvent(locks: seq<Lock>, t: nat, ev: CoreEvent) {
    match ev
    case FreeCore => HoldsNothing(locks, t)
    case LockMsg(q) => q.lock < |locks| && t !in locks[q.lock].writers &&
      (q.kind == Write ==> t !in locks[q.lock].readers)
    case UnlockMsg(kind, l, more) => l < |locks| && (more || HoldsNothing(locks[l := Release(locks[l], kind, t)], t))
  }

  ghost predicate Tidy(s: State, s': State, o: Outcome) {
    |s'.trace| > |s.trace| ==> var t := s'.trace[|s'.trace| - 1].task; TidyEvent(s'.locks, t, Requested(t, o))
  }

  // ---- the invariant of one core

  /** Nothing waits except user events in the run queue. */
  ghost predicate Quiet(s: State) {
    && !s.kick
    && (forall i :: 0 <= i < |s.queue| ==> s.queue[i].User?)
    && forall l :: 0 <= l < |s.locks| ==> s.locks[l].waiters == []
  }

  /** Times never go back, and advance between two handlers of one task. */
  ghost predicate Timed(trace: seq<Handled>) {
    forall i, j :: 0 <= i < j < |trace| ==>
      trace[i].time <= trace[j].time && (trace[i].task == trace[j].task ==> trace[i].time < trace[j].time)
  }

  ghost predicate Order(s: State) { s.arrived == Collapse(Tasks(s.trace)) + QueueTasks(s.queue) }

  /** The core is with the task of the last handler; it alone may hold locks. */
  ghost predicate Working(s: State) {
    && |s.pending| == 1 && s.trace != []
    && var p, h := s.pending[0], s.trace[|s.trace| - 1];
       && p.task == h.task && TidyEvent(s.locks, p.task, p.ev) && OnlyHeldBy(s.locks, p.task)
       && h.time <= s.now <= p.time && (!p.ev.FreeCore? ==> h.time < p.time)
  }

  ghost predicate Resting(s: State) {
    s.pending == [] && s.queue == [] && NobodyHolds(s.locks) && (s.trace != [] ==> s.trace[|s.trace| - 1].time <= s.now)
  }

  ghost predicate Single(s: State) {
    s.cores == 1 && Quiet(s) && Order(s) && Timed(s.trace) && (Working(s) || Resting(s))
  }

  /** Between two handlers: the core is about to run one of task `t`. */
  ghost predicate Ready(s: State, t: nat) {
    && s.cores == 1 && Quiet(s) && s.pending == [] && Timed(s.trace) && OnlyHeldBy(s.locks, t)
    && (s.trace != [] && s.trace[|s.trace| - 1].task == t ==> Order(s) && s.trace[|s.trace| - 1].time < s.now)
    && (s.trace == [] || s.trace[|s.trace| - 1].task != t ==>
      && s.arrived == Collapse(Tasks(s.trace)) + [t] + QueueTasks(s.queue)
      && Distinct(s.arrived)
      && (s.trace != [] ==> s.trace[|s.trace| - 1].time <= s.now))
  }

  lemma TimedSnoc(trace: seq<Handled>, h: Handled)
    requires Timed(trace)
    requires trace != [] ==> var g := trace[|trace| - 1]; g.time <= h.time && (g.task == h.task ==> g.time < h.time)
    requires forall i :: 0 <= i < |trace| && trace[i].task == h.task ==> trace[|trace| - 1].task == h.task
    ensures Timed(trace + [h])
  {
  }

  lemma ReadyTimes(s: State, t: nat, i: nat)
    requires Ready(s, t) && i < |s.trace| && s.trace[i].task == t
    ensures s.trace[|s.trace| - 1].task == t
  {
    if s.trace[|s.trace| - 1].task != t {
      Apart(Collapse(Tasks(s.trace)), t, QueueTasks(s.queue));
      CollapseKeeps(Tasks(s.trace), i);
    }
  }

  lemma Apart(xs: seq<nat>, x: nat, ys: seq<nat>)
    requires Distinct(xs + [x] + ys)
    ensures x !in xs
  {
    var zs := xs + [x] + ys;
    assert zs[|xs|] == x && forall i :: 0 <= i < |xs| ==> zs[i] == xs[i];
  }

  lemma RunTimed(s: State, t: nat)
    requires Ready(s, t)
    ensures Timed(s.trace + [Handled(t, s.now)])
  {
    forall i | 0 <= i < |s.trace| && s.trace[i].task == t
      ensures s.trace[|s.trace| - 1].task == t
    {
      ReadyTimes(s, t, i);
    }
    TimedSnoc(s.trace, Handled(t, s.now));
  }

  lemma RunOrder(s: State, t: nat, o: Outcome)
    requires Ready(s, t)
    ensures Order(RunHandler(s, t, o))
  {
    assert Tasks(s.trace + [Handled(t, s.now)]) == Tasks(s.trace) + [t];
    CollapseSnoc(Tasks(s.trace), t);
  }

  lemma RunSingle(s: State, t: nat, o: Outcome)
    requires Ready(s, t) && Proper(s.locks, t, o) && TidyEvent(s.locks, t, Requested(t, o))
    ensures Single(RunHandler(s, t, o))
  {
    var s' := RunHandler(s, t, o);
    RunTimed(s, t);
    RunOrder(s, t, o);
    assert s'.trace[|s'.trace| - 1] == Handled(t, s.now);
    assert s'.pending == [Pending(s.now + o.elapsed, t, Requested(t, o))];
  }

  // ---- one event

  lemma OnlyWorker(locks: seq<Lock>, t: nat, u: nat)
    requires NobodyHolds(locks) || (OnlyHeldBy(locks, t) && HoldsNothing(locks, t))
    ensures NobodyHolds(locks) && OnlyHeldBy(locks, u)
  {
    if OnlyHeldBy(locks, t) && HoldsNothing(locks, t) {
      forall l | 0 <= l < |locks|
        ensures locks[l].readers == multiset{} && locks[l].writers == multiset{}
      {
        assert LockOnlyHeldBy(locks[l], t);
      }
    }
  }

  /** An idle core takes the next user event, in arrival order. */
  lemma NextSingle(s: State, o: Outcome)
    requires s.cores == 1 && Quiet(s) && s.pending == [] && Timed(s.trace) && NobodyHolds(s.locks) && Order(s)
    requires Distinct(s.arrived)
    requires s.trace != [] && s.trace[|s.trace| - 1].time <= s.now
    requires HandlerProper(s, ProcessNext(s, o), o) && Tidy(s, ProcessNext(s, o), o)
    ensures Single(ProcessNext(s, o))
  {
    if s.queue != [] {
      var s1, t := s.(queue := s.queue[1..]), s.queue[0].task;
      assert QueueTasks(s.queue) == [t] + QueueTasks(s1.queue);
      assert s.arrived == Collapse(Tasks(s.trace)) + [t] + QueueTasks(s1.queue);
      OnlyWorker(s.locks, t, t);
      NotLast(s, t);
      RunSingle(s1, t, o);
    }
  }

  lemma NotLast(s: State, t: nat)
    requires Distinct(s.arrived) && s.trace != [] && s.queue != [] && Order(s) && TaskOf(s.queue[0]) == t
    ensures s.trace[|s.trace| - 1].task != t
  {
    var c := Collapse(Tasks(s.trace));
    CollapseKeeps(Tasks(s.trace), |s.trace| - 1);
    assert s.arrived == c + [t] + QueueTasks(s.queue)[1..];
    Apart(c, t, QueueTasks(s.queue)[1..]);
  }

  lemma ArriveSingle(s: State, t: nat, time: Time, o: Outcome)
    requires Inv(s) && Single(s) && Enabled(s, Arrive(t, time))
    requires HandlerProper(s, Dispatch(s, Arrive(t, time), o), o) && Tidy(s, Dispatch(s, Arrive(t, time), o), o)
    ensures Single(Dispatch(s, Arrive(t, time), o))
  {
    var s1 := s.(now := time, arrived := s.arrived + [t]);
    if s.busy >= s.cores {
      assert QueueTasks(s.queue + [User(t)]) == QueueTasks(s.queue) + [t];
    } else {
      ArriveReady(s, t, time);
      RunSingle(s1, t, o);
    }
  }

  lemma ArriveReady(s: State, t: nat, time: Time)
    requires Inv(s) && Single(s) && Enabled(s, Arrive(t, time)) && s.busy < s.cores
    ensures Ready(s.(now := time, arrived := s.arrived + [t]), t)
  {
    assert Resting(s);
    assert QueueTasks([]) == [];
    OnlyWorker(s.locks, t, t);
    if s.trace != [] { LastArrived(s); }
  }

  lemma LastArrived(s: State)
    requires s.trace != [] && Order(s)
    ensures s.trace[|s.trace| - 1].task in s.arrived
  {
    CollapseKeeps(Tasks(s.trace), |s.trace| - 1);
  }

  /** No lock request ever blocks. */
  lemma NeverBlocks(s: State)
    requires Inv(s) && Single(s) && Working(s) && s.pending[0].ev.LockMsg?
    ensures var q := s.pending[0].ev.req; q.lock < |s.locks| && !Blocked(s.locks[q.lock], q.kind)
  {
    var q, t := s.pending[0].ev.req, s.pending[0].task;
    var k := s.locks[q.lock];
    assert LockInv(k) && LockOnlyHeldBy(k, t);
    NoMember(k.writers, t);
    if q.kind == Write { NoMember(k.readers, t); }
  }

  lemma NoMember(m: multiset<nat>, t: nat)
    requires t !in m && forall u :: u in m ==> u == t
    ensures |m| == 0
  {
    assert m == multiset{};
  }

  lemma FiredSingle(s: State, i: nat)
    requires Single(s) && i < |s.pending|
    ensures i == 0 && Working(s) && Fired(s, i).pending == []
  {
  }

  lemma LockSingle(s: State, o: Outcome)
    requires Inv(s) && Single(s) && Working(s) && s.pending[0].ev.LockMsg?
    requires HandlerProper(s, Dispatch(s, Fire(0), o), o) && Tidy(s, Dispatch(s, Fire(0), o), o)
    ensures Single(Dispatch(s, Fire(0), o))
  {
    var q := s.pending[0].ev.req;
    NeverBlocks(s);
    assert EventOk(s.locks, s.pending[0]);
    var k := s.locks[q.lock];
    var s1 := Fired(s, 0).(busy := s.busy - 1, locks := s.locks[q.lock := Grant(k, q.kind, q.task)]);
    GrantOnly(s.locks, q.lock, q.kind, q.task);
    assert Dispatch(s, Fire(0), o) == RunHandler(s1, q.task, o);
    RunSingle(s1, q.task, o);
  }

  lemma GrantOnly(locks: seq<Lock>, l: nat, kind: Kind, t: nat)
    requires l < |locks| && OnlyHeldBy(locks, t)
    ensures OnlyHeldBy(locks[l := Grant(locks[l], kind, t)], t)
  {
    var k := Grant(locks[l], kind, t);
    assert LockOnlyHeldBy(locks[l], t);
    assert LockOnlyHeldBy(k, t);
  }

  lemma ReleaseOnly(locks: seq<Lock>, l: nat, kind: Kind, t: nat)
    requires l < |locks| && OnlyHeldBy(locks, t)
    ensures OnlyHeldBy(locks[l := Release(locks[l], kind, t)], t)
  {
    assert LockOnlyHeldBy(locks[l], t);
    assert LockOnlyHeldBy(Release(locks[l], kind, t), t);
  }

  lemma FreeSingle(s: State, o: Outcome)
    requires Inv(s) && Single(s) && Working(s) && s.pending[0].ev.FreeCore?
    requires HandlerProper(s, Dispatch(s, Fire(0), o), o) && Tidy(s, Dispatch(s, Fire(0), o), o)
    ensures Single(Dispatch(s, Fire(0), o))
  {
    var p := s.pending[0];
    var s1 := Ended(Fired(s, 0).(busy := s.busy - 1), p.task);
    OnlyWorker(s.locks, p.task, p.task);
    NextSingle(s1, o);
  }

  lemma UnlockSingle(s: State, o: Outcome)
    requires Inv(s) && Single(s) && Working(s) && s.pending[0].ev.UnlockMsg?
    requires HandlerProper(s, Dispatch(s, Fire(0), o), o) && Tidy(s, Dispatch(s, Fire(0), o), o)
    ensures Single(Dispatch(s, Fire(0), o))
  {
    var p := s.pending[0];
    var s1 := Released(Fired(s, 0), p.task, p.ev.kind, p.ev.lock);
    UnlockedState(s);
    if p.ev.more {
      UnlockedMore(s, s1, p.task, o);
    } else {
      UnlockedLast(s, s1, p.task, o);
    }
  }

  lemma UnlockedMore(s: State, s1: State, t: nat, o: Outcome)
    requires s1.cores == 1 && Quiet(s1) && s1.pending == [] && Timed(s1.trace) && Order(s1) && OnlyHeldBy(s1.locks, t)
    requires s1.trace != [] && s1.trace[|s1.trace| - 1].task == t && s1.trace[|s1.trace| - 1].time < s1.now
    requires s1.trace == s.trace && HandlerProper(s, RunHandler(s1, t, o), o) && Tidy(s, RunHandler(s1, t, o), o)
    ensures Single(RunHandler(s1, t, o))
  {
    RunSingle(s1, t, o);
  }

  lemma UnlockedLast(s: State, s1: State, t: nat, o: Outcome)
    requires s1.cores == 1 && Quiet(s1) && s1.pending == [] && Timed(s1.trace) && Order(s1) && Distinct(s1.arrived)
    requires OnlyHeldBy(s1.locks, t) && HoldsNothing(s1.locks, t)
    requires s1.trace != [] && s1.trace[|s1.trace| - 1].time <= s1.now && s1.trace == s.trace
    requires HandlerProper(s, ProcessNext(Ended(s1, t), o), o) && Tidy(s, ProcessNext(Ended(s1, t), o), o)
    ensures Single(ProcessNext(Ended(s1, t), o))
  {
    UnlockedNext(s1, t, o);
  }

  /** After the release nothing is woken, and the task may go on. */
  lemma UnlockedState(s: State)
    requires Inv(s) && Single(s) && Working(s) && s.pending[0].ev.UnlockMsg?
    ensures var p := s.pending[0];
      && p.ev.lock < |s.locks|
      && var s1 := Released(Fired(s, 0), p.task, p.ev.kind, p.ev.lock);
      && s1.queue == s.queue && s1.pending == [] && Quiet(s1) && Order(s1) && Timed(s1.trace) &&
        OnlyHeldBy(s1.locks, p.task)
      && s1.trace == s.trace && s1.now == p.time && s1.arrived == s.arrived && s1.cores == 1
  {
    var p := s.pending[0];
    assert EventOk(s.locks, p);
    ReleaseOnly(s.locks, p.ev.lock, p.ev.kind, p.task);
  }

  lemma UnlockedNext(s: State, t: nat, o: Outcome)
    requires s.cores == 1 && Quiet(s) && s.pending == [] && Timed(s.trace) && Order(s) && Distinct(s.arrived)
    requires OnlyHeldBy(s.locks, t) && HoldsNothing(s.locks, t)
    requires s.trace != [] && s.trace[|s.trace| - 1].time <= s.now
    requires HandlerProper(s, ProcessNext(Ended(s, t), o), o) && Tidy(s, ProcessNext(Ended(s, t), o), o)
    ensures Single(ProcessNext(Ended(s, t), o))
  {
    OnlyWorker(s.locks, t, t);
    NextSingle(Ended(s, t), o);
  }

  lemma StepSingle(s: State, e: Event, o: Outcome)
    requires Inv(s) && Single(s) && Enabled(s, e)
    requires HandlerProper(s, Dispatch(s, e, o), o) && Tidy(s, Dispatch(s, e, o), o)
    ensures Single(Dispatch(s, e, o))
  {
    match e {
      case Kick =>
      case Arrive(t, time) => ArriveSingle(s, t, time, o);
      case Fire(i) =>
        FiredSingle(s, i);
        match s.pending[0].ev {
          case FreeCore => FreeSingle(s, o);
          case LockMsg(_) => LockSingle(s, o);
          case UnlockMsg(_, _, _) => UnlockSingle(s, o);
        }
    }
  }

  // ---- whole runs

  ghost predicate TidyRun(kinds: seq<bool>, ss: seq<State>, steps: seq<Step>) {
    && Run(1, kinds, ss, steps)
    && forall k {:trigger steps[k]} :: 0 <= k < |steps| ==> Tidy(ss[k], ss[k + 1], steps[k].o)
  }

  lemma {:induction false} TidyRunInv(kinds: seq<bool>, ss: seq<State>, steps: seq<Step>, k: nat)
    requires TidyRun(kinds, ss, steps) && k < |ss|
    ensures Inv(ss[k]) && Single(ss[k])
    decreases k
  {
    RunInv(1, kinds, ss, steps, k);
    if k == 0 {
      InitSingle(kinds);
    } else {
      TidyRunInv(kinds, ss, steps, k - 1);
      TidyStep(kinds, ss, steps, k - 1);
    }
  }

  lemma InitSingle(kinds: seq<bool>)
    ensures Single(Init(1, kinds))
  {
    assert Tasks([]) == [] && QueueTasks([]) == [];
  }

  lemma TidyStep(kinds: seq<bool>, ss: seq<State>, steps: seq<Step>, k: nat)
    requires TidyRun(kinds, ss, steps) && k < |steps| && Inv(ss[k]) && Single(ss[k])
    ensures Single(ss[k + 1])
  {
    StepSingle(ss[k], steps[k].e, steps[k].o);
  }

  /** Nobody ever waits for a lock, and a lock message that fires is granted its lock. */
  lemma NoRequestBlocks(kinds: seq<bool>, ss: seq<State>, steps: seq<Step>, k: nat)
    requires TidyRun(kinds, ss, steps) && k < |steps|
    ensures forall l :: 0 <= l < |ss[k].locks| ==> ss[k].locks[l].waiters == []
    ensures steps[k].e.Fire? && steps[k].e.i < |ss[k].pending| && ss[k].pending[steps[k].e.i].ev.LockMsg? ==>
      && |ss[k + 1].trace| == |ss[k].trace| + 1
      && ss[k + 1].trace[|ss[k].trace|].task == ss[k].pending[steps[k].e.i].task
  {
    TidyRunInv(kinds, ss, steps, k);
    var s, e := ss[k], steps[k].e;
    if e.Fire? && e.i < |s.pending| && s.pending[e.i].ev.LockMsg? {
      NeverBlocks(s);
      assert EventOk(s.locks, s.pending[0]);
    }
  }

  /** The tasks in the order of their handlers are the first tasks that arrived; the rest is queued in order. */
  lemma ArrivalOrder(kinds: seq<bool>, ss: seq<State>, steps: seq<Step>, k: nat)
    requires TidyRun(kinds, ss, steps) && k < |ss|
    ensures ss[k].arrived == Collapse(Tasks(ss[k].trace)) + QueueTasks(ss[k].queue)
    ensures Distinct(Collapse(Tasks(ss[k].trace)))
  {
    TidyRunInv(kinds, ss, steps, k);
    var c := Collapse(Tasks(ss[k].trace));
    assert c == ss[k].arrived[..|c|];
  }

  /**
   Atomicity: between two handlers of a task (a lock request and the continuation of
   its unlock, say) no handler of another task runs, and time strictly advances.
   */
  lemma Atomicity(kinds: seq<bool>, ss: seq<State>, steps: seq<Step>, n: nat, i: nat, j: nat, k: nat)
    requires TidyRun(kinds, ss, steps) && n < |ss|
    requires i < j < k < |ss[n].trace| && ss[n].trace[i].task == ss[n].trace[k].task
    ensures ss[n].trace[j].task == ss[n].trace[i].task
    ensures ss[n].trace[i].time < ss[n].trace[j].time < ss[n].trace[k].time
  {
    TidyRunInv(kinds, ss, steps, n);
    ArrivalOrder(kinds, ss, steps, n);
    Contiguous(Tasks(ss[n].trace), i, j, k);
    assert Tasks(ss[n].trace)[j] == ss[n].trace[j].task;
  }
}
