/** The replay rate limiter over any monotone, non-negative clock and any sleep that never
    wakes early. Times are real numbers of seconds. */
module RateLimiter {

  /** One call of `wait`: what the clock read, and by how much its sleep, if any, overshot. */
  datatype Call = Call(now: real, late: real)

  function Max(a: real, b: real): real { if a >= b then a else b }

  class Limiter {
    const interval: real
    var next: real

    /** `rate == None` (no limit) is the interval 0. */
    constructor (interval: real)
      requires interval >= 0.0
      ensures this.interval == interval && next == 0.0
    {
      this.interval, next := interval, 0.0;
    }

    /** Returns the time at which `wait` returns. */
    method Wait(call: Call) returns (back: real)
      requires call.late >= 0.0
      modifies this
      ensures back == if interval == 0.0 then call.now else Back(old(next), call)
      ensures next == if interval == 0.0 then old(next) else Slot(old(next), call) + interval
    {
      if interval == 0.0 {
        return call.now;
      }
      var now := call.now;
      back := now;
      if next > now {
        back := now + (next - now) + call.late;  // asleep until `next`, or later
        now := next;
      }
      next := Max(now, next) + interval;
    }

    /** A sequence of waits, each started no earlier than the previous one returned. */
    method WaitAll(calls: seq<Call>) returns (backs: seq<real>)
      requires interval > 0.0 && next == 0.0 && forall i :: 0 <= i < |calls| ==> calls[i].late >= 0.0
      modifies this
      ensures backs == Backs(interval, calls)
    {
      backs := [];
      for i := 0 to |calls|
        invariant backs == Backs(interval, calls[..i]) && next == NextAfter(interval, calls[..i])
      {
        assert calls[..i + 1][..i] == calls[..i];
        var back := Wait(calls[i]);
        backs := backs + [back];
      }
      assert calls[..|calls|] == calls;
    }
  }

  /** The slot a call is given, and when it returns. */
  function Slot(next: real, call: Call): real {
    Max(call.now, next)
  }

  function Back(next: real, call: Call): real {
    if next > call.now then next + call.late else call.now
  }

  function NextAfter(interval: real, calls: seq<Call>): real {
    if calls == [] then 0.0 else Slot(NextAfter(interval, calls[..|calls| - 1]), calls[|calls| - 1]) + interval
  }

  function Backs(interval: real, calls: seq<Call>): (r: seq<real>)
    ensures |r| == |calls|
  {
    if calls == [] then []
    else
      var front, last := calls[..|calls| - 1], calls[|calls| - 1];
      Backs(interval, front) + [Back(NextAfter(interval, front), last)]
  }

  /** A run of the limiter: the clock never goes back, not even over a wait, and no sleep
      wakes early. */
  ghost predicate IsRun(interval: real, calls: seq<Call>) {
    && interval > 0.0
    && (forall i :: 0 <= i < |calls| ==> calls[i].now >= 0.0 && calls[i].late >= 0.0)
    && (forall i :: 0 <= i < |calls| - 1 ==> calls[i + 1].now >= Backs(interval, calls)[i])
  }

  lemma {:induction false} BacksPrefix(interval: real, calls: seq<Call>, i: nat)
    requires i < |calls|
    ensures Backs(interval, calls)[i] == Back(NextAfter(interval, calls[..i]), calls[i])
    ensures NextAfter(interval, calls[..i + 1]) == Slot(NextAfter(interval, calls[..i]), calls[i]) + interval
  {
    assert calls[..i + 1][..i] == calls[..i];
    if i < |calls| - 1 {
      var front := calls[..|calls| - 1];
      BacksPrefix(interval, front, i);
      assert front[..i] == calls[..i];
    } else {
      assert calls[..i] == calls[..|calls| - 1];
    }
  }

  function SlotAt(interval: real, calls: seq<Call>, i: nat): real
    requires i < |calls|
  {
    Slot(NextAfter(interval, calls[..i]), calls[i])
  }

  /** `n` intervals. */
  function Times(n: nat, interval: real): real {
    if n == 0 then 0.0 else Times(n - 1, interval) + interval
  }

  lemma {:induction false} TimesIsProduct(n: nat, interval: real)
    ensures Times(n, interval) == n as real * interval
  {
    if n > 0 {
      TimesIsProduct(n - 1, interval);
      assert n as real * interval == ((n - 1) as real + 1.0) * interval == (n - 1) as real * interval + interval;
    }
  }

  /** Slots are an interval apart, and no call returns before its slot. */
  lemma {:induction false} SlotsSpaced(interval: real, calls: seq<Call>, i: nat, j: nat)
    requires IsRun(interval, calls) && i <= j < |calls|
    ensures SlotAt(interval, calls, j) >= SlotAt(interval, calls, i) + Times(j - i, interval)
    ensures Backs(interval, calls)[j] >= SlotAt(interval, calls, j)
    ensures calls[j].late == 0.0 ==> Backs(interval, calls)[j] == SlotAt(interval, calls, j)
    decreases j
  {
    BacksPrefix(interval, calls, j);
    if i < j {
      SlotsSpaced(interval, calls, i, j - 1);
      BacksPrefix(interval, calls, j - 1);
    }
  }

  /** The rate bound. Returns of the i-th and j-th wait are at least (j - i - 1) intervals
      apart even when sleeps overshoot, and (j - i) apart when the i-th one does not. */
  lemma RateBound(interval: real, calls: seq<Call>, i: nat, j: nat)
    requires IsRun(interval, calls) && i < j < |calls|
    ensures Backs(interval, calls)[j] >= Backs(interval, calls)[i] + Times(j - i - 1, interval)
    ensures calls[i].late == 0.0 ==> Backs(interval, calls)[j] >= Backs(interval, calls)[i] + Times(j - i, interval)
  {
    SlotsSpaced(interval, calls, i, i);
    SlotsSpaced(interval, calls, i, j);
    SlotsSpaced(interval, calls, i + 1, j);
  }

  /** The n-th wait returns at least n - 1 intervals after the first, whatever overshoots:
      the first one never sleeps. */
  lemma FromTheFirst(interval: real, calls: seq<Call>, n: nat)
    requires IsRun(interval, calls) && 1 <= n <= |calls|
    ensures Backs(interval, calls)[n - 1] >= Backs(interval, calls)[0] + Times(n - 1, interval)
  {
    BacksPrefix(interval, calls, 0);
    SlotsSpaced(interval, calls, 0, n - 1);
  }

  /** And it waits no longer than it must: a caller that calls again at once, with sleeps that
      are exact, gets through exactly once per interval; one that comes later does not wait. */
  lemma {:induction false} FullSpeed(interval: real, calls: seq<Call>, j: nat)
    requires IsRun(interval, calls) && j < |calls|
    requires forall i :: 0 <= i < j ==> calls[i + 1].now == Backs(interval, calls)[i]
    requires forall i :: 0 <= i <= j ==> calls[i].late == 0.0
    ensures Backs(interval, calls)[j] == calls[0].now + Times(j, interval)
    decreases j
  {
    BacksPrefix(interval, calls, j);
    if j > 0 {
      FullSpeed(interval, calls, j - 1);
      BacksPrefix(interval, calls, j - 1);
      SlotsSpaced(interval, calls, j - 1, j - 1);
    }
  }

  lemma NoNeedlessWait(interval: real, calls: seq<Call>, j: nat)
    requires IsRun(interval, calls) && j + 1 < |calls|
    ensures calls[j + 1].now >= SlotAt(interval, calls, j) + interval ==>
              Backs(interval, calls)[j + 1] == calls[j + 1].now
  {
    BacksPrefix(interval, calls, j);
    BacksPrefix(interval, calls, j + 1);
  }

  /** One interval less is the best there is: after an overshoot the next wait may return at once. */
  lemma OvershootIsTight(interval: real)
    requires interval > 0.0
    ensures exists calls ::
              IsRun(interval, calls) && |calls| == 3 && Backs(interval, calls)[2] == Backs(interval, calls)[1]
  {
    var calls := [Call(0.0, 0.0), Call(0.0, interval), Call(2.0 * interval, 0.0)];
    BacksPrefix(interval, calls, 0);
    BacksPrefix(interval, calls, 1);
    BacksPrefix(interval, calls, 2);
    assert calls[..0] == [];
    assert IsRun(interval, calls);
  }
}
