/**
 * The round countdown started by a `timeStart` envelope: a task holding a
 * private `time`, copied from the room's `roundTime`, that a single-thread
 * scheduler runs once per period. A run with `time > 0` emits `time` and
 * decrements it; a run with `time <= 0` shuts the scheduler down, after
 * which the task is never run again. Periods are discrete steps here.
 */
module RoundTimer {
  import opened Wrappers

  /** The tick values a countdown from `n` emits: n, n-1, ..., 1. */
  function Descending(n: int): (ticks: seq<int>)
    decreases n
    ensures |ticks| == if n > 0 then n else 0
    ensures forall i :: 0 <= i < |ticks| ==> ticks[i] == n - i
  {
    if n <= 0 then [] else [n] + Descending(n - 1)
  }

  /** Every emitted value is positive, at most `n`, and each is smaller than the one before. */
  lemma DescendingShape(n: int)
    ensures forall i :: 0 <= i < |Descending(n)| ==> 0 < Descending(n)[i] <= n
    ensures forall i, j :: 0 <= i < j < |Descending(n)| ==> Descending(n)[i] > Descending(n)[j]
  {
  }

  /** Descending(n) is Descending(n) up to the current value followed by the rest. */
  lemma {:induction false} DescendingSplit(n: int, k: int)
    requires 0 < k <= n
    ensures Descending(n) == Descending(n)[..n - k] + [k] + Descending(k - 1)
  {
    var d := Descending(n);
    var e := Descending(n)[..n - k] + [k] + Descending(k - 1);
    assert |e| == |d|;
    forall i | 0 <= i < |d| ensures d[i] == e[i] {
      if i > n - k {
        assert e[i] == Descending(k - 1)[i - (n - k) - 1];
      }
    }
  }

  /** The anonymous `Runnable` together with its scheduler. */
  class Countdown {
    /** The room whose sessions receive the ticks. */
    const roomId: string
    /** The task's private counter. */
    var time: int
    /** False once the scheduler has been shut down. */
    var running: bool

    constructor (roomId: string, roundTime: int)
      ensures this.roomId == roomId && time == roundTime && running
    {
      this.roomId := roomId;
      time := roundTime;
      running := true;
    }

    /** One period of the scheduler: run the task unless the scheduler is shut down. */
    method Fire() returns (tick: Option<int>)
      modifies this
      ensures old(running) && old(time) > 0 ==> tick == Some(old(time)) && time == old(time) - 1 && running
      ensures old(running) && old(time) <= 0 ==> tick == None && time == old(time) && !running
      ensures !old(running) ==> tick == None && time == old(time) && !running
    {
      tick := None;
      if running {
        if time > 0 {
          tick := Some(time);
          time := time - 1;
        } else {
          running := false;
        }
      }
    }
  }

  /** Run a countdown from `roundTime` until its scheduler shuts down, collecting the ticks. */
  method RunCountdown(roundTime: int) returns (ticks: seq<int>)
    ensures ticks == Descending(roundTime)
  {
    var c := new Countdown("", roundTime);
    ticks := [];
    while c.running
      invariant c.running ==> c.time <= roundTime
      invariant c.running ==> ticks + Descending(c.time) == Descending(roundTime)
      invariant !c.running ==> ticks == Descending(roundTime)
      decreases c.running, if c.time > 0 then c.time else 0
    {
      var tick := c.Fire();
      if tick.Some? {
        DescendingSplit(roundTime, tick.value);
        ticks := ticks + [tick.value];
      }
    }
  }
}
