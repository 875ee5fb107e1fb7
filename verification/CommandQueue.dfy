/** The command queue and the wait for a re-pair request (src/bt_kbd.c:36-44, 88-107, 605, 665-675). */
module CommandQueue {

  datatype Command = StartPairing | SelectDevice(index: int)

  const CAPACITY: nat := 4

  /** A full queue refuses the command. */
  function Enqueue(q: seq<Command>, cmd: Command): seq<Command> {
    if |q| < CAPACITY then q + [cmd] else q
  }

  predicate NoStart(q: seq<Command>) {
    forall n :: 0 <= n < |q| ==> q[n] != StartPairing
  }

  /** The position of the first StartPairing, |q| when there is none. */
  function FirstStart(q: seq<Command>): (i: nat)
    ensures i <= |q|
    ensures i < |q| ==> q[i] == StartPairing
    ensures forall j :: 0 <= j < i ==> q[j] != StartPairing
  {
    if q == [] then 0 else if q[0] == StartPairing then 0 else 1 + FirstStart(q[1..])
  }

  /** No sleep takes more than b ticks longer than asked. */
  ghost predicate Within(late: nat -> nat, b: nat) {
    forall k: nat :: late(k) <= b
  }

  class Queue {
    var items: seq<Command>
    var now: nat  // the tick count

    ghost predicate Valid()
      reads this
    {
      |items| <= CAPACITY
    }

    constructor ()
      ensures Valid() && items == [] && now == 0
    {
      items, now := [], 0;
    }

    /** A full queue refuses the command once the send times out. */
    method Send(cmd: Command) returns (accepted: bool)
      requires Valid()
      modifies this`items
      ensures Valid()
      ensures accepted == (|old(items)| < CAPACITY)
      ensures items == Enqueue(old(items), cmd)
    {
      accepted := |items| < CAPACITY;
      if accepted {
        items := items + [cmd];
      }
    }

    /** Take the head at once, or find the queue empty for `ticks` and `late` more ticks. */
    method Receive(ticks: nat, late: nat) returns (received: bool, cmd: Command)
      modifies this
      ensures received == (old(items) != [])
      ensures received ==> cmd == old(items)[0] && items == old(items)[1..] && now == old(now)
      ensures !received ==> items == [] && now == old(now) + ticks + late
    {
      if items != [] {
        cmd := items[0];
        items := items[1..];
        return true, cmd;
      }
      now := now + ticks + late;
      return false, StartPairing;
    }

    /** Wait up to `wait` ticks in slices of `slice` ticks, with no sends meanwhile; `late` says how much
        longer than asked each sleep takes. It stops at the first StartPairing queued, dropping what was
        before it, and otherwise empties the queue and gives up at the deadline, or later by at most what the last
        sleep before it and the check after it take too long. */
    method WaitForStartPairing(wait: nat, slice: nat, late: nat -> nat) returns (found: bool)
      requires Valid() && slice > 0
      modifies this
      ensures Valid()
      ensures found <==> StartPairing in old(items)
      ensures found ==> items == old(items)[FirstStart(old(items)) + 1..] && now == old(now)
      ensures !found ==> items == [] && now >= old(now) + wait
      ensures !found ==> forall b: nat :: Within(late, b) ==> now <= old(now) + wait + 2 * b
      ensures !found && Within(late, 0) ==> now == old(now) + wait
    {
      var deadline := now + wait;
      var k := 0;
      while true
        invariant Valid()
        invariant FirstStart(old(items)) < |old(items)| ==> now == old(now) && items != []
        invariant items == [] || now == old(now)
        invariant |items| <= |old(items)| && items == old(items)[|old(items)| - |items|..]
        invariant |old(items)| - |items| <= FirstStart(old(items))
        invariant forall b: nat :: Within(late, b) ==> now <= deadline + b
        decreases |items|, if now < deadline then deadline - now else 0
      {
        var remain := if now < deadline then deadline - now else 0;
        var step := if remain > slice then slice else remain;
        var received, cmd := Receive(step, late(k));
        if received {
          if cmd == StartPairing {
            return true;
          }
        } else {
          if remain == 0 {
            return false;
          }
          k := k + 1;
        }
      }
    }
  }
}
