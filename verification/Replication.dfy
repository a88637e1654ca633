/**
 Replication of updates between the servers of one partition, one per replica
 (replication.c, heartbeat.c, the locked part of getput.c and the clock tick of
 gr.c / grv.c).

 A handler of the C code is one function here. `Arrive`, `Locked` and `Unlocked`
 are the three handlers an update goes through; between them other handlers of
 the server may run when it has several cores.
 */
module Replication {
  import opened Vectors
  import opened Store

  /** The two protocols: GentleRain and GentleRain Vector. */
  datatype Policy = Gr | Grv

  datatype Update = Update(key: nat, value: nat, time: Time, deps: Vec, source: nat, prevTime: Time, prevSource: nat)

  function VersionOf(u: Update): Version { Version(u.value, u.time, u.deps, u.source) }

  datatype Message = UpdateMsg(u: Update) | Heartbeat(time: Time)

  function Stamp(m: Message): Time {
    match m
    case UpdateMsg(u) => u.time
    case Heartbeat(t) => t
  }

  /** The lock or unlock message an update in progress is waiting for. */
  datatype Progress = Free | Locking(u: Update) | Unlocking(u: Update)

  /** The state the replication handlers of one server read and write. */
  datatype Replica = Replica(vv: Vec, items: Items, queues: seq<seq<Update>>, progress: seq<Progress>)

  predicate Sized(rp: Replica, n: nat) { |rp.vv| == |rp.queues| == |rp.progress| == n }

  /** Only the queue and the progress of source `i` differ. */
  ghost predicate Others(rp: Replica, rp': Replica, i: nat) {
    && |rp'.queues| == |rp.queues| && |rp'.progress| == |rp.progress|
    && (forall k :: 0 <= k < |rp.queues| && k != i ==> rp'.queues[k] == rp.queues[k])
    && (forall k :: 0 <= k < |rp.progress| && k != i ==> rp'.progress[k] == rp.progress[k])
  }

  datatype Decision = Drop | Stall | Take

  /**
   Conflict detection. The update names the version it replaced at its source; if
   that is not the newest version here, there is a conflict and the older of the
   two loses. GentleRain then also leaves a newer update where it is.
   */
  function Decide(pol: Policy, items: Items, u: Update): Decision {
    var chain := ChainOf(items, u.key);
    var t, src := HeadTime(chain), HeadSource(chain);
    if u.prevTime == t && u.prevSource == src then Take
    else if u.time < t || (u.time == t && u.source < src) then Drop
    else if pol == Gr then Stall
    else Take
  }

  /** Starts on the head of the queue of source `i`. */
  function Work(pol: Policy, rp: Replica, i: nat): (rp': Replica)
    requires i < |rp.queues| == |rp.progress| && rp.queues[i] != []
    ensures |rp'.queues| == |rp'.progress| == |rp.queues|
    ensures rp'.vv == rp.vv && rp'.items == rp.items && Others(rp, rp', i)
    ensures |rp'.queues[i]| <= |rp.queues[i]|
    decreases |rp.queues[i]|, 1
  {
    match Decide(pol, rp.items, rp.queues[i][0])
    case Drop => Unlocked(pol, rp, i)
    case Stall => rp.(progress := rp.progress[i := Free])
    case Take => rp.(progress := rp.progress[i := Locking(rp.queues[i][0])])
  }

  /** Removes the finished update and goes on with the next one, if any. */
  function Unlocked(pol: Policy, rp: Replica, i: nat): (rp': Replica)
    requires i < |rp.queues| == |rp.progress| && rp.queues[i] != []
    ensures |rp'.queues| == |rp'.progress| == |rp.queues|
    ensures rp'.vv == rp.vv && rp'.items == rp.items && Others(rp, rp', i)
    ensures |rp'.queues[i]| < |rp.queues[i]|
    decreases |rp.queues[i]|, 0
  {
    var rp1 := rp.(queues := rp.queues[i := rp.queues[i][1..]], progress := rp.progress[i := Free]);
    if rp1.queues[i] == [] then rp1 else Work(pol, rp1, i)
  }

  /** A new update from source `i`. */
  function Arrive(pol: Policy, rp: Replica, i: nat, u: Update): (rp': Replica)
    requires i < |rp.queues| == |rp.progress|
    ensures |rp'.queues| == |rp'.progress| == |rp.queues|
    ensures rp'.vv == rp.vv && rp'.items == rp.items && Others(rp, rp', i)
    ensures |rp'.queues[i]| <= |rp.queues[i]| + 1
  {
    var rp1 := rp.(queues := rp.queues[i := rp.queues[i] + [u]]);
    if rp.queues[i] == [] then Work(pol, rp1, i) else rp1
  }

  /** The critical section of an update from source `i`. */
  function Locked(rp: Replica, i: nat): Replica
    requires i < |rp.vv| && i < |rp.progress| && rp.progress[i].Locking?
  {
    var u := rp.progress[i].u;
    rp.(items := Put(rp.items, u.key, VersionOf(u)), vv := rp.vv[i := u.time],
      progress := rp.progress[i := Unlocking(u)])
  }

  /** A heartbeat of source `i` only ever raises its entry. */
  function OnHeartbeat(rp: Replica, i: nat, t: Time): Replica
    requires i < |rp.vv|
  {
    rp.(vv := rp.vv[i := Max(rp.vv[i], t)])
  }

  /** The update a local put at replica `r` creates, before it is stored. */
  function LocalUpdate(rp: Replica, r: nat, key: nat, value: nat, deps: Vec, t: Time): Update {
    var chain := ChainOf(rp.items, key);
    Update(key, value, t, deps, r, HeadTime(chain), HeadSource(chain))
  }

  predicate PutDiscarded(rp: Replica, key: nat, t: Time) {
    var chain := ChainOf(rp.items, key);
    chain != [] && chain[0].time > t
  }

  /** The critical section of a local put at replica `r`. */
  function PutLocked(rp: Replica, r: nat, key: nat, value: nat, deps: Vec, t: Time): Replica
    requires r < |rp.vv|
  {
    rp.(items := Put(rp.items, key, VersionOf(LocalUpdate(rp, r, key, value, deps, t))), vv := rp.vv[r := t])
  }

  /** The critical section of a clock tick. */
  function TickLocked(rp: Replica, r: nat, t: Time): Replica
    requires r < |rp.vv|
  {
    rp.(vv := rp.vv[r := t])
  }

  /**
   The handlers as the C code runs them, on arrays and queues changed in place.
   `pending` records the lock message each source's update has asked for.
   */
  class Server {
    const policy: Policy
    const replica: nat
    const vv: array<Time>
    const queues: array<seq<Update>>
    const pending: array<Progress>
    const store: KeyValueStore

    ghost predicate Valid()
      reads queues
    {
      && vv.Length == queues.Length == pending.Length
      && forall i, k :: 0 <= i < queues.Length && 0 <= k < |queues[i]| ==> queues[i][k].source == i
    }

    ghost function State(): Replica
      reads vv, queues, pending, store
    {
      Replica(vv[..], store.items, queues[..], pending[..])
    }

    constructor (policy: Policy, replica: nat, replicas: nat)
      ensures Valid() && this.policy == policy && this.replica == replica
      ensures State() == Replica(Zero(replicas), map[], seq(replicas, _ => []), seq(replicas, _ => Free))
    {
      this.policy := policy;
      this.replica := replica;
      vv := new Time[replicas](_ => 0.0);
      queues := new seq<Update>[replicas](_ => []);
      pending := new Progress[replicas](_ => Free);
      store := new KeyValueStore();
    }

    method ProcessReplicaUpdate(u: Update)
      requires Valid() && u.source < vv.Length && u.source != replica
      modifies queues, pending
      ensures Valid() && State() == Arrive(policy, old(State()), u.source, u)
    {
      var immediately := queues[u.source] == [];
      queues[u.source] := queues[u.source] + [u];
      assert queues[..] == old(State()).queues[u.source := old(State()).queues[u.source] + [u]];
      if immediately {
        UpdateWork(u);
      }
    }

    method UpdateWork(u: Update)
      requires Valid() && u.source < vv.Length && u.source != replica && queues[u.source] != []
      requires queues[u.source][0] == u
      modifies queues, pending
      ensures Valid() && State() == Work(policy, old(State()), u.source)
      decreases |queues[u.source]|, 1
    {
      ghost var before := State();
      var _, time, source := store.GetValueAt(u.key, _ => true);
      assert ReadAt(ChainOf(store.items, u.key), _ => true) ==
        if ChainOf(store.items, u.key) == [] then None else Some(ChainOf(store.items, u.key)[0]);
      if u.prevTime != time || u.prevSource != source {
        if u.time < time || (u.time == time && u.source < source) {
          UpdateUnlocked(u);
          return;
        }
        if policy == Gr {
          pending[u.source] := Free;
          assert pending[..] == before.progress[u.source := Free];
          return;
        }
      }
      pending[u.source] := Locking(u);
      assert pending[..] == before.progress[u.source := Locking(u)];
    }

    method UpdateLocked(u: Update)
      requires Valid() && u.source < vv.Length && pending[u.source] == Locking(u)
      modifies vv, pending, store
      ensures Valid() && State() == Locked(old(State()), u.source)
    {
      ghost var before := State();
      var _ := store.PutValue(u.key, VersionOf(u));
      vv[u.source] := u.time;
      pending[u.source] := Unlocking(u);
      assert vv[..] == before.vv[u.source := u.time];
      assert pending[..] == before.progress[u.source := Unlocking(u)];
    }

    method UpdateUnlocked(u: Update)
      requires Valid() && u.source < vv.Length && u.source != replica && queues[u.source] != []
      requires queues[u.source][0] == u
      modifies queues, pending
      ensures Valid() && State() == Unlocked(policy, old(State()), u.source)
      decreases |queues[u.source]|, 0
    {
      ghost var before := State();
      queues[u.source] := queues[u.source][1..];
      pending[u.source] := Free;
      assert queues[..] == before.queues[u.source := before.queues[u.source][1..]];
      assert pending[..] == before.progress[u.source := Free];
      if queues[u.source] != [] {
        UpdateWork(queues[u.source][0]);
      }
    }

    method ProcessHeartbeatLocked(i: nat, t: Time)
      requires Valid() && i < vv.Length
      modifies vv
      ensures Valid() && State() == OnHeartbeat(old(State()), i, t)
    {
      ghost var before := State();
      if vv[i] < t { vv[i] := t; }
      assert vv[..] == before.vv[i := Max(before.vv[i], t)];
    }

    /** Stores the value and returns the update to replicate, unless it was discarded. */
    method PutRequestLocked(key: nat, value: nat, deps: Vec, clock: Time) returns (u: Update, discarded: bool)
      requires Valid() && replica < vv.Length
      modifies vv, store
      ensures Valid() && State() == PutLocked(old(State()), replica, key, value, deps, clock)
      ensures discarded == PutDiscarded(old(State()), key, clock)
      ensures u == LocalUpdate(old(State()), replica, key, value, deps, clock)
    {
      ghost var before := State();
      var _, prevTime, prevSource := store.GetValueAt(key, _ => true);
      assert ReadAt(ChainOf(store.items, key), _ => true) ==
        if ChainOf(store.items, key) == [] then None else Some(ChainOf(store.items, key)[0]);
      u := Update(key, value, clock, deps, replica, prevTime, prevSource);
      var stored := store.PutValue(key, VersionOf(u));
      vv[replica] := clock;
      assert vv[..] == before.vv[replica := clock];
      discarded := !stored;
    }

    /** A clock tick: raises the server's own entry unless a put did so within `interval`. */
    method ClockTick(clock: Time, interval: Time, lockedClock: Time) returns (sendTime: bool)
      requires Valid() && replica < vv.Length
      modifies vv
      ensures Valid() && sendTime == (clock >= old(vv[replica]) + interval)
      ensures State() == if sendTime then TickLocked(old(State()), replica, lockedClock) else old(State())
    {
      ghost var before := State();
      sendTime := clock >= vv[replica] + interval;
      if sendTime {
        vv[replica] := lockedClock;
        assert vv[..] == before.vv[replica := lockedClock];
      }
    }
  }
}
