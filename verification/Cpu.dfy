/**
 The simulated multi-core processor of a server (src/cpu): a counter of busy
 cores, a run queue, mutexes and reader/writer locks with waiting queues. Locking
 is in continuation style: a handler asks for a lock and ends; the lock message,
 once granted, runs the next handler of the same task.

 The user's event handler is abstract: it takes some time and asks for at most one
 lock or unlock (`Outcome`). A task is one user event with all its continuations.
 */
module Cpu {
  import opened Vectors

  datatype Kind = Read | Write

  /** A lock message: `task` wants `lock` and continues when it has it. */
  datatype Request = Request(kind: Kind, lock: nat, task: nat)

  /** What the run queue holds: user events, and lock messages to be tried again. */
  datatype Item = User(task: nat) | Retry(req: Request)

  function TaskOf(it: Item): nat {
    match it
    case User(t) => t
    case Retry(req) => req.task
  }

  /**
   A mutex (rw false, never read-locked) or a reader/writer lock. `counter` and
   `locked` are the C fields; `readers` and `writers` are history: who holds it.
   */
  datatype Lock = Lock(rw: bool, counter: nat, locked: bool, waiters: seq<Request>,
    readers: multiset<nat>, writers: multiset<nat>)

  datatype CoreEvent = FreeCore | LockMsg(req: Request) | UnlockMsg(kind: Kind, lock: nat, more: bool)

  /** A scheduled event that holds a core for `task`. */
  datatype Pending = Pending(time: Time, task: nat, ev: CoreEvent)

  /** One execution of a user handler. */
  datatype Handled = Handled(task: nat, time: Time)

  /**
   `kick` is the pending zero-delay CPU_EVENT. `trace`, `arrived` and `done` are
   history: the handlers run so far, the user events received, the tasks ended.
   */
  datatype State = State(cores: nat, busy: int, queue: seq<Item>, locks: seq<Lock>,
    pending: seq<Pending>, kick: bool, now: Time,
    trace: seq<Handled>, arrived: seq<nat>, done: multiset<nat>)

  datatype Wish = Finish | WantLock(kind: Kind, lock: nat) | WantUnlock(kind: Kind, lock: nat, more: bool)

  datatype Outcome = Outcome(elapsed: Time, wish: Wish)

  datatype Event = Arrive(task: nat, time: Time) | Fire(i: nat) | Kick

  function Init(cores: nat, kinds: seq<bool>): State {
    var locks := seq(|kinds|, i requires 0 <= i < |kinds| => Lock(kinds[i], 0, false, [], multiset{}, multiset{}));
    State(cores, 0, [], locks, [], false, 0.0, [], [], multiset{})
  }

  // ---- locks

  predicate Blocked(k: Lock, kind: Kind) { k.locked && (kind == Read ==> k.counter == 0) }

  function Grant(k: Lock, kind: Kind, t: nat): Lock {
    match kind
    case Read => k.(counter := k.counter + 1, locked := true, readers := k.readers + multiset{t})
    case Write => k.(locked := true, writers := k.writers + multiset{t})
  }

  /** The lock becomes free: a write unlock, or the last read unlock. */
  predicate Frees(k: Lock, kind: Kind) { kind == Write || k.counter <= 1 }

  function Release(k: Lock, kind: Kind, t: nat): Lock {
    var k1 := match kind
      case Read => k.(counter := if k.counter == 0 then 0 else k.counter - 1, readers := k.readers - multiset{t})
      case Write => k.(writers := k.writers - multiset{t});
    if Frees(k, kind) then
      k1.(locked := false, waiters := if k.waiters == [] then [] else k.waiters[1..])
    else k1
  }

  /** The waiter that an unlock puts at the front of the run queue. */
  function Woken(k: Lock, kind: Kind): seq<Item> {
    if Frees(k, kind) && k.waiters != [] then [Retry(k.waiters[0])] else []
  }

  // ---- the scheduler

  function Requested(t: nat, o: Outcome): CoreEvent {
    match o.wish
    case Finish => FreeCore
    case WantLock(kind, l) => LockMsg(Request(kind, l, t))
    case WantUnlock(kind, l, more) => UnlockMsg(kind, l, more)
  }

  /** A user handler takes a core and schedules the event that will give it back. */
  function RunHandler(s: State, t: nat, o: Outcome): (r: State)
    ensures r.cores == s.cores
  {
    s.(busy := s.busy + 1, trace := s.trace + [Handled(t, s.now)],
      pending := s.pending + [Pending(s.now + o.elapsed, t, Requested(t, o))])
  }

  function OnLock(s: State, req: Request, o: Outcome): (r: State)
    ensures r.cores == s.cores
  {
    if req.lock >= |s.locks| then s
    else
      var k := s.locks[req.lock];
      var s1 := s.(busy := s.busy - 1);
      if Blocked(k, req.kind) then
        s1.(locks := s.locks[req.lock := k.(waiters := k.waiters + [req])], kick := true)
      else
        RunHandler(s1.(locks := s.locks[req.lock := Grant(k, req.kind, req.task)]), req.task, o)
  }

  function Process(s: State, it: Item, o: Outcome): (r: State)
    ensures r.cores == s.cores
  {
    match it
    case User(t) => RunHandler(s, t, o)
    case Retry(req) => OnLock(s.(busy := s.busy + 1), req, o)
  }

  function ProcessNext(s: State, o: Outcome): (r: State)
    ensures r.cores == s.cores
  {
    if s.queue == [] then s else Process(s.(queue := s.queue[1..]), s.queue[0], o)
  }

  /** The lock is released and its first waiter, if any, moves to the front of the run queue. */
  function Released(s: State, t: nat, kind: Kind, l: nat): (r: State)
    requires l < |s.locks|
    ensures r.cores == s.cores
  {
    s.(busy := s.busy - 1, locks := s.locks[l := Release(s.locks[l], kind, t)],
      queue := Woken(s.locks[l], kind) + s.queue)
  }

  function Ended(s: State, t: nat): (r: State)
    ensures r.cores == s.cores
  {
    s.(done := s.done + multiset{t})
  }

  function OnUnlock(s: State, t: nat, kind: Kind, l: nat, more: bool, o: Outcome): (r: State)
    ensures r.cores == s.cores
  {
    if l >= |s.locks| then s
    else if more then RunHandler(Released(s, t, kind, l), t, o)
    else ProcessNext(Ended(Released(s, t, kind, l), t), o)
  }

  /** Event `i` leaves the schedule and its time becomes the current time. */
  function Fired(s: State, i: nat): (r: State)
    requires i < |s.pending|
    ensures r.cores == s.cores
  {
    s.(now := s.pending[i].time, pending := s.pending[..i] + s.pending[i + 1..])
  }

  /** Event `p`, just taken from the schedule, is handled. */
  function AfterFired(s: State, p: Pending, o: Outcome): (r: State)
    ensures r.cores == s.cores
  {
    match p.ev
    case FreeCore => ProcessNext(Ended(s.(busy := s.busy - 1), p.task), o)
    case LockMsg(q) => OnLock(s, q, o)
    case UnlockMsg(kind, l, more) => OnUnlock(s, p.task, kind, l, more, o)
  }

  /** The event dispatcher. `o` is what the user handler does, if one runs. */
  function Dispatch(s: State, e: Event, o: Outcome): (r: State)
    ensures r.cores == s.cores
  {
    match e
    case Kick => ProcessNext(s.(kick := false), o)
    case Arrive(t, time) =>
      var s1 := s.(now := time, arrived := s.arrived + [t]);
      if s.busy >= s.cores then s1.(queue := s.queue + [User(t)]) else RunHandler(s1, t, o)
    case Fire(i) =>
      if i >= |s.pending| then s
      else AfterFired(Fired(s, i), s.pending[i], o)
  }

  /**
   Events are delivered in time order; a zero-delay CPU_EVENT comes before any
   other event of the server. Task numbers name user events.
   */
  ghost predicate Enabled(s: State, e: Event) {
    match e
    case Kick => s.kick
    case Arrive(t, time) =>
      && !s.kick && time >= s.now && t !in s.arrived
      && forall i :: 0 <= i < |s.pending| ==> time <= s.pending[i].time
    case Fire(i) =>
      && !s.kick && i < |s.pending|
      && forall j :: 0 <= j < |s.pending| ==> s.pending[i].time <= s.pending[j].time
  }

  predicate Holds(k: Lock, kind: Kind, t: nat) { t in if kind == Read then k.readers else k.writers }

  /**
   What the code expects of a handler of task `t` that runs with the locks `locks`:
   time passes, it names existing locks, reads only reader/writer locks, and unlocks
   only what it holds.
   */
  ghost predicate Proper(locks: seq<Lock>, t: nat, o: Outcome) {
    && o.elapsed >= 0.0
    && match o.wish
       case Finish => true
       case WantLock(kind, l) => o.elapsed > 0.0 && l < |locks| && (kind == Read ==> locks[l].rw)
       case WantUnlock(kind, l, _) => o.elapsed > 0.0 && l < |locks| && Holds(locks[l], kind, t)
  }

  /** The assertions on lock numbers when the run queue is popped, */
  predicate CanPop(locks: seq<Lock>, queue: seq<Item>) {
    queue != [] && queue[0].Retry? ==> queue[0].req.lock < |locks|
  }

  /** and the assertions of the unlock handlers. */
  predicate CanUnlock(locks: seq<Lock>, queue: seq<Item>, kind: Kind, l: nat) {
    && l < |locks| && locks[l].locked
    && (if kind == Read then locks[l].counter > 0 else locks[l].counter == 0 || locks[l].waiters != [])
    && CanPop(locks, queue) && (locks[l].waiters != [] ==> locks[l].waiters[0].lock < |locks|)
  }

  lemma WokenCanPop(locks: seq<Lock>, queue: seq<Item>, kind: Kind, l: nat, t: nat)
    requires CanUnlock(locks, queue, kind, l)
    ensures CanPop(locks[l := Release(locks[l], kind, t)], Woken(locks[l], kind) + queue)
  {
  }

  /** The processor as the C code runs it; `scheduled` receives the events handed to the simulator. */
  class Processor {
    const cores: nat
    var busy: int
    var queue: seq<Item>
    var locks: seq<Lock>
    var scheduled: seq<Pending>
    var kick: bool
    var now: Time
    ghost var trace: seq<Handled>
    ghost var arrived: seq<nat>
    ghost var done: multiset<nat>

    ghost function Abs(): State
      reads this
    {
      State(cores, busy, queue, locks, scheduled, kick, now, trace, arrived, done)
    }

    constructor (cores: nat, kinds: seq<bool>)
      ensures Abs() == Init(cores, kinds)
    {
      this.cores := cores;
      busy, queue, scheduled, kick, now := 0, [], [], false, 0.0;
      locks := seq(|kinds|, i requires 0 <= i < |kinds| => Lock(kinds[i], 0, false, [], multiset{}, multiset{}));
      trace, arrived, done := [], [], multiset{};
    }

    /** `cpu_busy_cores_inc` and `cpu_busy_cores_dec`, with their assertions as preconditions. */
    method BusyInc()
      requires busy < cores
      modifies this`busy
      ensures busy == old(busy) + 1
    {
      busy := busy + 1;
    }

    method BusyDec()
      requires busy > 0
      modifies this`busy
      ensures busy == old(busy) - 1
    {
      busy := busy - 1;
    }

    /** Runs the user handler and schedules what it asked for. */
    method UserHandler(t: nat, o: Outcome)
      requires busy < cores
      modifies this
      ensures Abs() == RunHandler(old(Abs()), t, o)
    {
      BusyInc();
      trace := trace + [Handled(t, now)];
      var ev;
      match o.wish {
        case Finish => ev := FreeCore;
        case WantLock(kind, l) => ev := LockMsg(Request(kind, l, t));
        case WantUnlock(kind, l, more) => ev := UnlockMsg(kind, l, more);
      }
      scheduled := scheduled + [Pending(now + o.elapsed, t, ev)];
    }

    method CpuProcess(it: Item, o: Outcome)
      requires busy < cores && (it.Retry? ==> it.req.lock < |locks| && busy >= 0)
      modifies this
      ensures Abs() == Process(old(Abs()), it, o)
      decreases if it.Retry? then 2 else 0
    {
      match it {
        case User(t) => UserHandler(t, o);
        case Retry(req) =>
          BusyInc();
          LockRequest(req, o);
      }
    }

    method CpuProcessNext(o: Outcome)
      requires 0 <= busy < cores && CanPop(locks, queue)
      modifies this
      ensures Abs() == ProcessNext(old(Abs()), o)
      decreases 3
    {
      if queue != [] {
        var it := queue[0];
        queue := queue[1..];
        CpuProcess(it, o);
      }
    }

    method LockRequest(req: Request, o: Outcome)
      requires 0 < busy <= cores && req.lock < |locks|
      modifies this
      ensures Abs() == OnLock(old(Abs()), req, o)
      decreases 1
    {
      BusyDec();
      var k := locks[req.lock];
      if k.locked && (req.kind == Read ==> k.counter == 0) {
        locks := locks[req.lock := k.(waiters := k.waiters + [req])];
        kick := true;
      } else {
        match req.kind {
          case Read =>
            var readers := k.readers + multiset{req.task};
            locks := locks[req.lock := k.(counter := k.counter + 1, locked := true, readers := readers)];
          case Write => locks := locks[req.lock := k.(locked := true, writers := k.writers + multiset{req.task})];
        }
        CpuProcess(User(req.task), o);
      }
    }

    /** Releases the lock and moves the first waiter, if any, to the front of the run queue. */
    method ReleaseLock(t: nat, kind: Kind, l: nat)
      requires l < |locks| && locks[l].locked && (kind == Read ==> locks[l].counter > 0)
      modifies this`locks, this`queue
      ensures locks == old(locks)[l := Release(old(locks)[l], kind, t)]
      ensures queue == Woken(old(locks)[l], kind) + old(queue)
    {
      var k := locks[l];
      var free := true;
      var k1;
      match kind {
        case Read =>
          k1 := k.(counter := k.counter - 1, readers := k.readers - multiset{t});
          free := k1.counter == 0;
        case Write =>
          k1 := k.(writers := k.writers - multiset{t});
      }
      if free {
        k1 := k1.(locked := false);
        if k.waiters != [] {
          k1 := k1.(waiters := k.waiters[1..]);
          queue := [Retry(k.waiters[0])] + queue;
        }
      }
      locks := locks[l := k1];
    }

    method UnlockRequest(t: nat, kind: Kind, l: nat, more: bool, o: Outcome)
      requires 0 < busy <= cores && CanUnlock(locks, queue, kind, l)
      modifies this
      ensures Abs() == OnUnlock(old(Abs()), t, kind, l, more, o)
    {
      ghost var before := Abs();
      WokenCanPop(locks, queue, kind, l, t);
      BusyDec();
      ReleaseLock(t, kind, l);
      assert Abs() == Released(before, t, kind, l);
      if more {
        CpuProcess(User(t), o);
      } else {
        done := done + multiset{t};
        CpuProcessNext(o);
      }
    }

    /** Queues a user event when all cores are busy, runs it otherwise. */
    method UserEvent(t: nat, time: Time, o: Outcome)
      modifies this
      ensures Abs() == Dispatch(old(Abs()), Arrive(t, time), o)
    {
      now := time;
      arrived := arrived + [t];
      if busy >= cores {
        queue := queue + [User(t)];
      } else {
        CpuProcess(User(t), o);
      }
    }

    method CpuEvent(o: Outcome)
      requires 0 <= busy < cores && CanPop(locks, queue)
      modifies this
      ensures Abs() == Dispatch(old(Abs()), Kick, o)
    {
      kick := false;
      CpuProcessNext(o);
    }

    method FreeCoreEvent(i: nat, o: Outcome)
      requires i < |scheduled| && scheduled[i].ev == FreeCore && 0 < busy <= cores
      requires CanPop(locks, queue)
      modifies this
      ensures Abs() == Dispatch(old(Abs()), Fire(i), o)
    {
      var p := scheduled[i];
      now := p.time;
      scheduled := scheduled[..i] + scheduled[i + 1..];
      done := done + multiset{p.task};
      BusyDec();
      CpuProcessNext(o);
    }

    method LockEvent(i: nat, o: Outcome)
      requires i < |scheduled| && !scheduled[i].ev.FreeCore? && 0 < busy <= cores
      requires match scheduled[i].ev
        case FreeCore => true
        case LockMsg(req) => req.lock < |locks|
        case UnlockMsg(kind, l, _) => CanUnlock(locks, queue, kind, l)
      modifies this
      ensures Abs() == Dispatch(old(Abs()), Fire(i), o)
    {
      var p := scheduled[i];
      now := p.time;
      scheduled := scheduled[..i] + scheduled[i + 1..];
      match p.ev {
        case LockMsg(req) => LockRequest(req, o);
        case UnlockMsg(kind, l, more) => UnlockRequest(p.task, kind, l, more, o);
      }
    }
  }
}
