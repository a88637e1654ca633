/**
 What the cores of a processor do with the run queue: every event pops it or passes its
 core on to the next handler of the same task, and no core is idle while the queue is not
 empty, except after exactly one kind of step.
 */
module CpuWork {
  import opened Vectors
  import opened Cpu
  import opened CpuInvariants

  // ---- what an event does with its core

  /** The waiter, if any, that the event puts at the front of the run queue. */
  ghost function Wakes(s: State, e: Event): seq<Item>
    requires Refs(s) && Enabled(s, e)
  {
    if e.Fire? && s.pending[e.i].ev.UnlockMsg? then
      assert EventOk(s.locks, s.pending[e.i]);
      Woken(s.locks[s.pending[e.i].ev.lock], s.pending[e.i].ev.kind)
    else []
  }

  /** The first item of `q` was taken: its handler has run, or its lock is taken and the next item follows at once. */
  ghost predicate Popped(s: State, q: seq<Item>, s': State) {
    && q != [] && s'.queue == q[1..]
    && (s'.trace == s.trace + [Handled(TaskOf(q[0]), s'.now)] || (s'.kick && s'.trace == s.trace && q[0].Retry?))
  }

  /** The next handler of `task` has run on the core of the event. */
  ghost predicate Continued(s: State, task: nat, s': State) {
    s'.trace == s.trace + [Handled(task, s'.now)] && s'.busy == s.busy
  }

  lemma NextPops(s: State, o: Outcome)
    requires Refs(s) && s.queue != [] && !s.kick
    ensures Popped(s, s.queue, ProcessNext(s, o)) && ProcessNext(s, o).now == s.now
  {
    assert ItemOk(s.locks, s.queue[0]);
  }

  lemma UnlockUses(s: State, t: nat, kind: Kind, l: nat, more: bool, o: Outcome)
    requires Refs(s) && l < |s.locks| && !s.kick
    ensures var s', q := OnUnlock(s, t, kind, l, more, o), Woken(s.locks[l], kind) + s.queue;
      && s'.now == s.now
      && if more then s'.queue == q && Continued(s, t, s') else if q == [] then s'.queue == [] else Popped(s, q, s')
  {
    ReleasedRefs(s, t, kind, l);
    var s1 := Ended(Released(s, t, kind, l), t);
    if !more && s1.queue != [] { NextPops(s1, o); }
  }

  /** A CPU_EVENT and the end of a task let the queue be popped. */
  lemma FreedUses(s: State, e: Event, o: Outcome)
    requires Refs(s) && Enabled(s, e) && (e.Kick? || (e.Fire? && s.pending[e.i].ev.FreeCore?))
    ensures var s' := Dispatch(s, e, o); if s.queue == [] then s'.queue == [] else Popped(s, s.queue, s')
  {
    if e.Kick? {
      RefsMove(s, s.(kick := false));
      if s.queue != [] { NextPops(s.(kick := false), o); }
    } else {
      FiredRefs(s, e.i);
      if s.queue != [] { NextPops(Ended(Fired(s, e.i).(busy := s.busy - 1), s.pending[e.i].task), o); }
    }
  }

  /** A lock message goes on with its task or, if it must wait, lets the queue be popped at once. */
  lemma LockUses(s: State, i: nat, o: Outcome)
    requires Refs(s) && Enabled(s, Fire(i)) && s.pending[i].ev.LockMsg?
    ensures var s' := Dispatch(s, Fire(i), o); s'.queue == s.queue && (Continued(s, s.pending[i].task, s') || s'.kick)
  {
    assert EventOk(s.locks, s.pending[i]);
  }

  /** Every event but a new arrival pops the run queue, the waiter it wakes included, or passes its core on. */
  ghost predicate UsesCore(s: State, e: Event, o: Outcome)
    requires Refs(s) && Enabled(s, e) && !e.Arrive?
  {
    var s', q := Dispatch(s, e, o), Wakes(s, e) + s.queue;
    if e.Kick? || s.pending[e.i].ev.FreeCore? || (s.pending[e.i].ev.UnlockMsg? && !s.pending[e.i].ev.more)
    then if q == [] then s'.queue == [] else Popped(s, q, s')
    else s'.queue == q && (Continued(s, s.pending[e.i].task, s') || (s.pending[e.i].ev.LockMsg? && s'.kick))
  }

  lemma UnlockEventUses(s: State, i: nat, o: Outcome)
    requires Refs(s) && Enabled(s, Fire(i)) && s.pending[i].ev.UnlockMsg?
    ensures UsesCore(s, Fire(i), o)
  {
    FiredRefs(s, i);
    var p := s.pending[i];
    UnlockUses(Fired(s, i), p.task, p.ev.kind, p.ev.lock, p.ev.more, o);
  }

  lemma EventUsesCore(s: State, e: Event, o: Outcome)
    requires Refs(s) && Enabled(s, e) && !e.Arrive?
    ensures UsesCore(s, e, o)
  {
    if e.Fire? && s.pending[e.i].ev.UnlockMsg? {
      UnlockEventUses(s, e.i, o);
    } else {
      assert [] + s.queue == s.queue;
      if e.Fire? && s.pending[e.i].ev.LockMsg? { LockUses(s, e.i, o); } else { FreedUses(s, e, o); }
    }
  }

  // ---- work conservation

  /** No core is idle while the run queue is not empty; a pending CPU_EVENT is as good as a busy core. */
  predicate Conserving(s: State) { s.queue != [] ==> s.busy + (if s.kick then 1 else 0) >= s.cores }

  /** An unlock wakes a waiter, keeps its own core for its continuation, and another core is idle. */
  ghost predicate LeavesIdle(s: State, e: Event)
    requires Refs(s) && Enabled(s, e)
  {
    e.Fire? && s.pending[e.i].ev.UnlockMsg? && s.pending[e.i].ev.more && Wakes(s, e) != [] && s.busy < s.cores
  }

  lemma NextConserves(s: State, o: Outcome)
    requires Refs(s) && !s.kick && (|s.queue| > 1 ==> s.busy + 1 >= s.cores)
    ensures Conserving(ProcessNext(s, o))
  {
    if s.queue != [] { assert ItemOk(s.locks, s.queue[0]); }
  }

  lemma UnlockConserves(s: State, t: nat, kind: Kind, l: nat, more: bool, o: Outcome)
    requires Refs(s) && l < |s.locks| && !s.kick && (s.queue != [] ==> s.busy >= s.cores)
    ensures Conserving(OnUnlock(s, t, kind, l, more, o)) <==>
      !(more && Woken(s.locks[l], kind) != [] && s.busy < s.cores)
  {
    ReleasedRefs(s, t, kind, l);
    if !more { NextConserves(Ended(Released(s, t, kind, l), t), o); }
  }

  /** A step keeps all cores at work if and only if it is not such an unlock. */
  lemma ConservingIff(s: State, e: Event, o: Outcome)
    requires Inv(s) && Enabled(s, e) && Conserving(s)
    ensures Conserving(Dispatch(s, e, o)) <==> !LeavesIdle(s, e)
  {
    match e {
      case Kick =>
        RefsMove(s, s.(kick := false));
        NextConserves(s.(kick := false), o);
      case Arrive(t, time) =>
      case Fire(i) =>
        FiredRefs(s, i);
        var p := s.pending[i];
        match p.ev {
          case FreeCore => NextConserves(Ended(Fired(s, i).(busy := s.busy - 1), p.task), o);
          case LockMsg(q) =>
          case UnlockMsg(kind, l, more) => UnlockConserves(Fired(s, i), p.task, kind, l, more, o);
        }
    }
  }

  /** The step of a run at which a core stays idle. */
  ghost predicate Idles(s: State, e: Event) { Refs(s) && Enabled(s, e) && LeavesIdle(s, e) }

  lemma StepConserving(s: State, step: Step)
    requires Inv(s) && Enabled(s, step.e) && Conserving(s) && !Idles(s, step.e)
    ensures Conserving(Dispatch(s, step.e, step.o))
  {
    ConservingIff(s, step.e, step.o);
  }

  /** In every run without such a step, no core is ever idle while the run queue is not empty. */
  lemma {:induction false} RunConserving(cores: nat, kinds: seq<bool>, ss: seq<State>, steps: seq<Step>, k: nat)
    requires cores >= 1 && Run(cores, kinds, ss, steps) && k < |ss|
    requires forall j :: 0 <= j < k ==> !Idles(ss[j], steps[j].e)
    ensures Conserving(ss[k])
    decreases k
  {
    if k > 0 {
      RunConserving(cores, kinds, ss, steps, k - 1);
      RunInv(cores, kinds, ss, steps, k - 1);
      StepConserving(ss[k - 1], steps[k - 1]);
    }
  }

  // ---- a run that leaves a core idle

  /** A state of two cores and one mutex, after the user events `arrived`. */
  function TwoCores(busy: int, queue: seq<Item>, k: Lock, pending: seq<Pending>, kick: bool, now: Time,
      trace: seq<Handled>, arrived: seq<nat>): State
  {
    State(2, busy, queue, [k], pending, kick, now, trace, arrived, multiset{})
  }

  function Mutex(locked: bool, waiters: seq<Request>, writers: multiset<nat>): Lock {
    Lock(false, 0, locked, waiters, multiset{}, writers)
  }

  const LockIt := Outcome(1.0, WantLock(Write, 0))
  const UnlockIt := Outcome(5.0, WantUnlock(Write, 0, true))
  const Done := Outcome(1.0, Finish)
  const Asking1 := Pending(1.0, 1, LockMsg(Request(Write, 0, 1)))
  const Asking2 := Pending(3.0, 2, LockMsg(Request(Write, 0, 2)))
  const Leaving1 := Pending(6.0, 1, UnlockMsg(Write, 0, true))
  const Trace2 := [Handled(1, 0.0), Handled(1, 1.0)]
  const Trace3 := [Handled(1, 0.0), Handled(1, 1.0), Handled(2, 2.0)]
  const Waiting2 := Mutex(true, [Request(Write, 0, 2)], multiset{1})

  const Idle1 := TwoCores(1, [], Mutex(false, [], multiset{}), [Asking1], false, 0.0, [Handled(1, 0.0)], [1])
  const Idle2 := TwoCores(1, [], Mutex(true, [], multiset{1}), [Leaving1], false, 1.0, Trace2, [1])
  const Idle3 := TwoCores(2, [], Mutex(true, [], multiset{1}), [Leaving1, Asking2], false, 2.0, Trace3, [1, 2])
  const Idle4 := TwoCores(1, [], Waiting2, [Leaving1], true, 3.0, Trace3, [1, 2])
  const Idle5 := TwoCores(1, [], Waiting2, [Leaving1], false, 3.0, Trace3, [1, 2])
  const Idle6 := TwoCores(1, [Retry(Request(Write, 0, 2))], Mutex(false, [], multiset{}), 
    [Pending(7.0, 1, FreeCore)], false, 6.0, Trace3 + [Handled(1, 6.0)], [1, 2])

  ghost predicate Goes(s: State, step: Step, s': State) {
    Enabled(s, step.e) && s' == Dispatch(s, step.e, step.o) && HandlerProper(s, s', step.o)
  }

  lemma IdleStep1()
    ensures Goes(Init(2, [false]), Step(Arrive(1, 0.0), LockIt), Idle1)
  {
    assert Init(2, [false]).locks == [Mutex(false, [], multiset{})];
  }

  lemma IdleStep2()
    ensures Goes(Idle1, Step(Fire(0), UnlockIt), Idle2)
  {
    assert Fired(Idle1, 0).pending == [];
    assert multiset{} + multiset{1} == multiset{1};
    assert Grant(Idle1.locks[0], Write, 1) == Idle2.locks[0];
    assert Idle1.locks[0 := Grant(Idle1.locks[0], Write, 1)] == Idle2.locks;
    assert Idle1.trace + [Handled(1, 1.0)] == Idle2.trace;
  }

  lemma IdleStep3()
    ensures Goes(Idle2, Step(Arrive(2, 2.0), LockIt), Idle3)
  {
  }

  lemma IdleStep4()
    ensures Goes(Idle3, Step(Fire(1), Done), Idle4)
  {
    assert Fired(Idle3, 1).pending == [Leaving1];
    assert Idle3.locks[0].waiters + [Request(Write, 0, 2)] == Idle4.locks[0].waiters;
    assert Idle3.locks[0 := Waiting2] == Idle4.locks;
  }

  lemma IdleStep5()
    ensures Goes(Idle4, Step(Kick, Done), Idle5)
  {
  }

  lemma IdleStep6()
    ensures Goes(Idle5, Step(Fire(0), Done), Idle6)
  {
    var s := Fired(Idle5, 0);
    assert s.pending == [];
    assert multiset{1} - multiset{1} == multiset{};
    assert Release(Waiting2, Write, 1) == Mutex(false, [], multiset{});
    assert s.locks[0 := Mutex(false, [], multiset{})] == Idle6.locks;
    assert Woken(Waiting2, Write) + s.queue == Idle6.queue;
    assert Dispatch(Idle5, Fire(0), Done) == RunHandler(Released(s, 1, Write, 0), 1, Done);
  }

  /**
   The scheduler is not work-conserving: unlocking puts the waiter into the run queue
   without waking an idle core for it. On two cores, after the six events below,
   one core is idle, no event will use it, and yet the run queue is not empty.
   */
  lemma IdleCoreWithWork()
    ensures exists ss: seq<State>, steps: seq<Step> :: Run(2, [false], ss, steps) && IdleAtEnd(ss)
  {
    IdleStep1();
    IdleStep2();
    IdleStep3();
    IdleStep4();
    IdleStep5();
    IdleStep6();
    var ss, steps := SixSteps(Init(2, [false]), Idle1, Idle2, Idle3, Idle4, Idle5, Idle6,
      Step(Arrive(1, 0.0), LockIt), Step(Fire(0), UnlockIt), Step(Arrive(2, 2.0), LockIt),
      Step(Fire(1), Done), Step(Kick, Done), Step(Fire(0), Done));
  }

  /** The run queue is not empty, and neither a busy core nor a wake-up will let the idle core see it. */
  ghost predicate IdleAtEnd(ss: seq<State>) {
    |ss| > 0 && var s := ss[|ss| - 1]; s.queue != [] && s.busy < s.cores && !s.kick
  }

  lemma SixSteps(a: State, b: State, c: State, d: State, e: State, f: State, g: State,
      s1: Step, s2: Step, s3: Step, s4: Step, s5: Step, s6: Step) returns (ss: seq<State>, steps: seq<Step>)
    requires a == Init(2, [false]) && Goes(a, s1, b) && Goes(b, s2, c) && Goes(c, s3, d)
    requires Goes(d, s4, e) && Goes(e, s5, f) && Goes(f, s6, g)
    ensures Run(2, [false], ss, steps) && |ss| == 7 && ss[6] == g
  {
    ss, steps := [a], [];
    ss, steps := OneStep(ss, steps, s1, b);
    ss, steps := OneStep(ss, steps, s2, c);
    ss, steps := OneStep(ss, steps, s3, d);
    ss, steps := OneStep(ss, steps, s4, e);
    ss, steps := OneStep(ss, steps, s5, f);
    ss, steps := OneStep(ss, steps, s6, g);
  }

  lemma OneStep(ss: seq<State>, steps: seq<Step>, step: Step, s: State) returns (ss': seq<State>, steps': seq<Step>)
    requires Run(2, [false], ss, steps) && Goes(ss[|ss| - 1], step, s)
    ensures Run(2, [false], ss', steps') && |ss'| == |ss| + 1 && ss'[|ss|] == s
  {
    ss', steps' := ss + [s], steps + [step];
  }
}
