/** The limit on how often a process may be restarted automatically. */
module RestartLimiter {

  /** An approved restart: when, and in which counting interval. */
  datatype Approval = Approval(time: int, interval: nat)

  function InInterval(log: seq<Approval>, k: nat): nat {
    if log == [] then 0
    else InInterval(log[..|log|-1], k) + (if log[|log|-1].interval == k then 1 else 0)
  }

  function InWindow(log: seq<Approval>, from: int, to: int): nat {
    if log == [] then 0
    else InWindow(log[..|log|-1], from, to) + (if from <= log[|log|-1].time < to then 1 else 0)
  }

  /** Approvals in the half-open window of a length. */
  function Window(log: seq<Approval>, from: int, length: nat): nat {
    InWindow(log, from, from + length)
  }

  /** Intervals begin at least `length` apart, and an approval lies in its interval. */
  ghost predicate Recorded(log: seq<Approval>, starts: seq<int>, length: nat) {
    && (forall k :: 0 <= k < |starts| - 1 ==> starts[k] + length <= starts[k+1])
    && (forall i :: 0 <= i < |log| ==> log[i].interval < |starts| && starts[log[i].interval] <= log[i].time)
    && (forall i :: 0 <= i < |log| ==>
          log[i].time < starts[log[i].interval] + length || log[i].time == starts[log[i].interval])
  }

  lemma {:induction false} StartsApart(starts: seq<int>, length: nat, j: nat, k: nat)
    requires (forall i :: 0 <= i < |starts| - 1 ==> starts[i] + length <= starts[i+1]) && j < k < |starts|
    ensures starts[j] + length <= starts[k]
    decreases k
  {
    assert starts[k-1] + length <= starts[k-1+1];
    if j < k - 1 {
      StartsApart(starts, length, j, k - 1);
    }
  }

  /** Approvals in the same window are in the same interval or in neighbouring ones. */
  lemma Neighbours(log: seq<Approval>, starts: seq<int>, length: nat, from: int, i: nat, j: nat)
    requires Recorded(log, starts, length) && i < |log| && j < |log| && log[i].interval + 1 < log[j].interval
    requires from <= log[i].time
    ensures log[j].time >= from + length
  {
    var a, b := log[i].interval, log[j].interval;
    StartsApart(starts, length, a, a + 1);
    StartsApart(starts, length, a + 1, b);
  }

  ghost predicate Within(log: seq<Approval>, from: int, to: int, k: nat) {
    forall i :: 0 <= i < |log| && from <= log[i].time < to ==> log[i].interval == k || log[i].interval == k + 1
  }

  lemma {:induction false} TwoIntervals(log: seq<Approval>, from: int, to: int, k: nat)
    requires Within(log, from, to, k)
    ensures InWindow(log, from, to) <= InInterval(log, k) + InInterval(log, k + 1)
  {
    if log != [] {
      TwoIntervals(log[..|log|-1], from, to, k);
    }
  }

  lemma {:induction false} Nothing(log: seq<Approval>, from: int, to: int)
    requires forall i :: 0 <= i < |log| ==> !(from <= log[i].time < to)
    ensures InWindow(log, from, to) == 0
  {
    if log != [] {
      Nothing(log[..|log|-1], from, to);
    }
  }

  /** The lowest interval among the approvals in a window. */
  lemma {:induction false} Lowest(log: seq<Approval>, from: int, to: int) returns (i: nat)
    requires exists j :: 0 <= j < |log| && from <= log[j].time < to
    ensures i < |log| && from <= log[i].time < to
    ensures forall j :: 0 <= j < |log| && from <= log[j].time < to ==> log[i].interval <= log[j].interval
  {
    var n := |log| - 1;
    if exists j :: 0 <= j < n && from <= log[j].time < to {
      var r := log[..n];
      var j0 :| 0 <= j0 < n && from <= log[j0].time < to;
      assert from <= r[j0].time < to;
      i := Lowest(r, from, to);
      assert forall j :: 0 <= j < n ==> r[j] == log[j];
      if from <= log[n].time < to && log[n].interval < log[i].interval {
        i := n;
      }
    } else {
      i := n;
    }
  }

  /** No window as long as the interval sees more than twice the maximum. */
  lemma WindowLimit(log: seq<Approval>, starts: seq<int>, length: nat, max: nat, from: int)
    requires Recorded(log, starts, length) && forall k {:trigger Few(log, k, max)} :: Few(log, k, max)
    ensures Window(log, from, length) <= 2 * max
  {
    var to := from + length;
    if exists j :: 0 <= j < |log| && from <= log[j].time < to {
      var i := Lowest(log, from, to);
      var k := log[i].interval;
      forall j | 0 <= j < |log| && from <= log[j].time < to ensures log[j].interval == k || log[j].interval == k + 1 {
        if log[j].interval > k + 1 {
          Neighbours(log, starts, length, from, i, j);
        }
      }
      TwoIntervals(log, from, to, k);
      assert Few(log, k, max) && Few(log, k + 1, max);
    } else {
      Nothing(log, from, to);
    }
  }

  lemma {:induction false} NewInterval(log: seq<Approval>, k: nat)
    requires forall i :: 0 <= i < |log| ==> log[i].interval < k
    ensures InInterval(log, k) == 0
  {
    if log != [] {
      NewInterval(log[..|log|-1], k);
    }
  }

  ghost predicate Few(log: seq<Approval>, k: nat, max: nat) {
    InInterval(log, k) <= max
  }

  /** The limiter and its record agree: the latest interval and its count, and no interval over the maximum. */
  ghost predicate Sound(max: nat, length: nat, time: int, count: nat, starts: seq<int>, log: seq<Approval>) {
    && starts != [] && starts[|starts|-1] == time && Recorded(log, starts, length)
    && InInterval(log, |starts| - 1) == count
    && (forall k {:trigger Few(log, k, max)} :: Few(log, k, max))
  }

  lemma Logged(log: seq<Approval>, a: Approval, k: nat)
    ensures InInterval(log + [a], k) == InInterval(log, k) + (if a.interval == k then 1 else 0)
  {
    assert (log + [a])[..|log + [a]| - 1] == log;
  }

  /** One more approval in the same interval. */
  lemma SameInterval(max: nat, length: nat, time: int, count: nat, starts: seq<int>, log: seq<Approval>, now: int)
    requires Sound(max, length, time, count, starts, log) && time <= now < time + length && count < max
    ensures Sound(max, length, time, count + 1, starts, log + [Approval(now, |starts| - 1)])
  {
    var a := Approval(now, |starts| - 1);
    Logged(log, a, |starts| - 1);
    forall k ensures Few(log + [a], k, max) {
      assert Few(log, k, max);
      Logged(log, a, k);
    }
  }

  /** The first approval of a new interval. */
  lemma NextInterval(max: nat, length: nat, time: int, count: nat, starts: seq<int>, log: seq<Approval>, now: int)
    requires Sound(max, length, time, count, starts, log) && time + length <= now && 0 < max
    ensures Sound(max, length, now, 1, starts + [now], log + [Approval(now, |starts|)])
  {
    var a, starts' := Approval(now, |starts|), starts + [now];
    NewInterval(log, |starts|);
    Logged(log, a, |starts|);
    forall k ensures Few(log + [a], k, max) {
      assert Few(log, k, max);
      Logged(log, a, k);
    }
    NextRecorded(length, starts, log, now);
  }

  lemma NextRecorded(length: nat, starts: seq<int>, log: seq<Approval>, now: int)
    requires starts != [] && Recorded(log, starts, length) && starts[|starts|-1] + length <= now
    ensures Recorded(log + [Approval(now, |starts|)], starts + [now], length)
  {
    var starts' := starts + [now];
    forall k | 0 <= k < |starts'| - 1 ensures starts'[k] + length <= starts'[k+1] {
      assert k < |starts| - 1 ==> starts[k] + length <= starts[k+1];
    }
  }

  /** A maximum of zero stands for no limit, and then nothing is counted. */
  method Check(max: nat, length: nat, time: int, count: nat, now: int, ghost starts: seq<int>, ghost log: seq<Approval>)
    returns (ok: bool, time': int, count': nat, ghost starts': seq<int>, ghost log': seq<Approval>)
    requires Sound(max, length, time, count, starts, log) && time <= now
    ensures Sound(max, length, time', count', starts', log') && time' <= now
    ensures ok <==> max == 0 || !(now - time < length && count >= max)
    ensures !ok || max == 0 ==> log' == log && starts' == starts
    ensures ok && max > 0 ==> log' == log + [Approval(now, |starts'| - 1)]
  {
    if max == 0 {
      return true, time, count, starts, log;
    }
    if now - time < length {
      if count >= max {
        return false, time, count, starts, log;
      }
      SameInterval(max, length, time, count, starts, log, now);
      return true, time, count + 1, starts, log + [Approval(now, |starts| - 1)];
    }
    NextInterval(max, length, time, count, starts, log, now);
    return true, now, 1, starts + [now], log + [Approval(now, |starts|)];
  }

  class Limiter {
    const max: nat
    const interval: nat
    var intervalTime: int
    var intervalCount: nat

    ghost var now: int
    ghost var starts: seq<int>
    ghost var log: seq<Approval>

    ghost predicate Valid()
      reads this
    {
      intervalTime <= now && Sound(max, interval, intervalTime, intervalCount, starts, log)
    }

    /** A process that was started other than by an automatic restart. */
    constructor (max: nat, interval: nat, startTime: int)
      ensures Valid() && this.max == max && this.interval == interval && log == [] && now == startTime
    {
      this.max, this.interval := max, interval;
      intervalTime, intervalCount := startTime, 0;
      now, starts, log := startTime, [startTime], [];
    }

    /** Whether the process may restart now. Refused exactly if there is a maximum and it has been reached in an
        interval that is not over yet. */
    method CheckRestart(current: int) returns (ok: bool)
      requires Valid() && current >= now
      modifies this
      ensures Valid() && now == current
      ensures ok <==> max == 0 || !(current - old(intervalTime) < interval && old(intervalCount) >= max)
      ensures !ok || max == 0 ==> log == old(log) && starts == old(starts)
      ensures ok && max > 0 ==> log == old(log) + [Approval(current, |starts| - 1)]
    {
      var time, count;
      ghost var starts', log';
      ok, time, count, starts', log' := Check(max, interval, intervalTime, intervalCount, current, starts, log);
      assert Sound(max, interval, time, count, starts', log');
      now, intervalTime, intervalCount, starts, log := current, time, count, starts', log';
    }

    /** At any time: no counting interval has approved more than the maximum, and no window of that length more than
        twice as many. */
    lemma Limited(k: nat, from: int)
      requires Valid()
      ensures InInterval(log, k) <= max && Window(log, from, interval) <= 2 * max
    {
      assert Few(log, k, max);
      WindowLimit(log, starts, interval, max, from);
    }
  }
}
