/**
 The sending side of a network interface (`network_send`, src/network.c): messages
 are transmitted one after the other and then travel for a fixed delay per destination.
 */
module Network {
  import opened Vectors

  /** A message of `size` bytes for `to`, handed to the interface at time `now`. */
  datatype Send = Send(now: Time, to: nat, size: nat)

  function Transmission(rate: Time, m: Send): (t: Time)
    requires rate > 0.0
    ensures t >= 0.0
  {
    m.size as real / rate
  }

  /** From `start` to `end` exactly `size` bytes leave, `rate` per unit of time. */
  predicate Sends(rate: Time, size: nat, start: Time, end: Time) {
    start <= end && (end - start) * rate == size as real
  }

  lemma TransmissionBytes(rate: Time, m: Send, start: Time, end: Time)
    requires rate > 0.0 && end == start + Transmission(rate, m)
    ensures Sends(rate, m.size, start, end)
  {
    var t := Transmission(rate, m);
    assert end - start == t && t * rate == m.size as real;
  }

  /** The end of the last transmission after the first `n` sends. */
  function Busy(rate: Time, sends: seq<Send>, n: nat): (t: Time)
    requires rate > 0.0 && n <= |sends|
    ensures t >= 0.0
  {
    if n == 0 then 0.0 else Max(Busy(rate, sends, n - 1), sends[n - 1].now) + Transmission(rate, sends[n - 1])
  }

  /** When the message of send `i` is received. */
  function Reception(rate: Time, delays: Vec, sends: seq<Send>, i: nat): Time
    requires rate > 0.0 && i < |sends| && sends[i].to < |delays|
  {
    Busy(rate, sends, i + 1) + delays[sends[i].to]
  }

  lemma {:induction false} BusyGrows(rate: Time, sends: seq<Send>, i: nat, j: nat)
    requires rate > 0.0 && i <= j <= |sends|
    ensures Busy(rate, sends, i) <= Busy(rate, sends, j)
    decreases j
  {
    if i < j { BusyGrows(rate, sends, i, j - 1); }
  }

  /** Messages to one destination arrive in the order they were sent, whatever the send times. */
  lemma FifoPerDestination(rate: Time, delays: Vec, sends: seq<Send>, i: nat, j: nat)
    requires rate > 0.0 && i <= j < |sends| && sends[i].to == sends[j].to < |delays|
    ensures Reception(rate, delays, sends, i) <= Reception(rate, delays, sends, j)
  {
    BusyGrows(rate, sends, i + 1, j + 1);
  }

  /** Transmissions do not overlap and none starts before its message is sent. */
  lemma NoOverlap(rate: Time, sends: seq<Send>, i: nat, j: nat)
    requires rate > 0.0 && i < j < |sends|
    ensures var start := Busy(rate, sends, j + 1) - Transmission(rate, sends[j]);
      Busy(rate, sends, i + 1) <= start && sends[j].now <= start
  {
    BusyGrows(rate, sends, i + 1, j);
  }

  /**
   Every reception time, over any sequence of sends: a transmission starts when its message
   is sent and the one before has ended, takes as long as its bytes need, and the message
   then travels for the delay of its destination.
   */
  lemma ReceptionTime(rate: Time, delays: Vec, sends: seq<Send>, i: nat)
    requires rate > 0.0 && i < |sends| && forall j :: 0 <= j < |sends| ==> sends[j].to < |delays|
    ensures var before := if i == 0 then 0.0 else Reception(rate, delays, sends, i - 1) - delays[sends[i - 1].to];
      var end := Reception(rate, delays, sends, i) - delays[sends[i].to];
      Sends(rate, sends[i].size, if before < sends[i].now then sends[i].now else before, end)
  {
    var before := Busy(rate, sends, i);
    TransmissionBytes(rate, sends[i], if before < sends[i].now then sends[i].now else before, Busy(rate, sends, i + 1));
  }

  /** The bytes of the sends i .. n - 1. */
  function Bytes(sends: seq<Send>, i: nat, n: nat): nat
    requires i <= n <= |sends|
    decreases n
  {
    if i == n then 0 else Bytes(sends, i, n - 1) + sends[n - 1].size
  }

  /** The load is the time that these bytes need. */
  lemma {:induction false} LoadIsBytes(rate: Time, sends: seq<Send>, i: nat, n: nat)
    requires rate > 0.0 && i <= n <= |sends|
    ensures Load(rate, sends, i, n) * rate == Bytes(sends, i, n) as real
    decreases n
  {
    if i < n {
      LoadIsBytes(rate, sends, i, n - 1);
      var load, t := Load(rate, sends, i, n - 1), Transmission(rate, sends[n - 1]);
      TransmissionBytes(rate, sends[n - 1], 0.0, t);
      assert (load + t) * rate == load * rate + t * rate;
    }
  }

  /** The transmission times of the sends i .. n - 1. */
  function Load(rate: Time, sends: seq<Send>, i: nat, n: nat): Time
    requires rate > 0.0 && i <= n <= |sends|
    decreases n
  {
    if i == n then 0.0 else Load(rate, sends, i, n - 1) + Transmission(rate, sends[n - 1])
  }

  /**
   `busy_until` covers all transmission time accepted, also counted from any send on,
   and is no later than that: it is the largest of these bounds.
   */
  lemma {:induction false} BusyIsLargest(rate: Time, sends: seq<Send>, n: nat)
    requires rate > 0.0 && n <= |sends|
    ensures Busy(rate, sends, n) >= Load(rate, sends, 0, n)
    ensures forall i :: 0 <= i < n ==> Busy(rate, sends, n) >= sends[i].now + Load(rate, sends, i, n)
    ensures Busy(rate, sends, n) == Load(rate, sends, 0, n) || exists i ::
      0 <= i < n && Busy(rate, sends, n) == sends[i].now + Load(rate, sends, i, n)
  {
    if n > 0 {
      BusyIsLargest(rate, sends, n - 1);
      var b, m := Busy(rate, sends, n - 1), sends[n - 1];
      assert Load(rate, sends, n - 1, n) == Transmission(rate, m);
      if b < m.now {
        assert Busy(rate, sends, n) == m.now + Load(rate, sends, n - 1, n);
      } else if b != Load(rate, sends, 0, n - 1) {
        var i :| 0 <= i < n - 1 && b == sends[i].now + Load(rate, sends, i, n - 1);
        assert Busy(rate, sends, n) == sends[i].now + Load(rate, sends, i, n);
      }
    }
  }

  class Interface {
    const rate: Time
    const delays: Vec
    var busyUntil: Time
    const lastReception: array<Time>
    ghost var sends: seq<Send>

    /** The reason why the ordering assertion holds at the next send. */
    ghost predicate Valid()
      reads this, lastReception
    {
      && rate > 0.0 && lastReception.Length == |delays| && busyUntil == Busy(rate, sends, |sends|)
      && forall d :: 0 <= d < |delays| && delays[d] >= 0.0 ==> lastReception[d] <= busyUntil + delays[d]
    }

    constructor (rate: Time, delays: Vec)
      requires rate > 0.0
      ensures Valid() && sends == [] && this.rate == rate && this.delays == delays && fresh(lastReception)
    {
      this.rate, this.delays := rate, delays;
      busyUntil, sends := 0.0, [];
      lastReception := new Time[|delays|](_ => 0.0);
    }

    method TransmissionTime(m: Send) returns (t: Time)
      requires rate > 0.0
      ensures t == Transmission(rate, m)
    {
      t := m.size as real / rate;
    }

    /** A negative delay stands for "disconnected". */
    method NetworkSend(m: Send) returns (when: Time)
      requires Valid() && m.to < |delays| && delays[m.to] >= 0.0
      modifies this, lastReception
      ensures Valid() && sends == old(sends) + [m]
      ensures when == Reception(rate, delays, sends, |old(sends)|)
      ensures Sends(rate, m.size, Max(old(busyUntil), m.now), when - delays[m.to])
      ensures when >= old(lastReception[m.to]) && lastReception[m.to] == when
      ensures forall d :: 0 <= d < lastReception.Length && d != m.to ==> lastReception[d] == old(lastReception[d])
    {
      var transmission := TransmissionTime(m);
      if busyUntil < m.now {
        busyUntil := m.now;
      }
      busyUntil := busyUntil + transmission;
      when := busyUntil + delays[m.to];
      BusyPrefix(rate, sends, m, |sends|);
      TransmissionBytes(rate, m, Max(old(busyUntil), m.now), when - delays[m.to]);
      assert when >= lastReception[m.to];
      lastReception[m.to] := when;
      sends := sends + [m];
    }
  }

  lemma {:induction false} BusyPrefix(rate: Time, sends: seq<Send>, m: Send, n: nat)
    requires rate > 0.0 && n <= |sends|
    ensures Busy(rate, sends + [m], n) == Busy(rate, sends, n)
  {
    if n > 0 { BusyPrefix(rate, sends, m, n - 1); }
  }
}
