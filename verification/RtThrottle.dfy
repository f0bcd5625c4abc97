/**
 The budget of one real-time run queue: execution time is charged to it, the queue is
 throttled once it has used more than its runtime, and the period timer pays back.
 The runtime is fixed and not shared with other CPUs here.
 */
module RtThrottle {

  /** A runtime the kernel would throttle on: positive and below the period. */
  datatype Limits = Limits(runtime: nat, period: nat)

  ghost predicate Proper(l: Limits) { 0 < l.runtime < l.period }

  /**
   rtTime and throttled are the fields of the source; running says that the processor executes a task of the queue. The
   rest is history: all time charged, periods elapsed, and for the throttling now in force how far the charge that
   caused it went over, and what was charged after it.
   */
  datatype State = State(rtTime: nat, throttled: bool, running: bool, charged: nat, periods: nat, overshoot: nat,
                         late: nat)

  const INIT := State(0, false, false, 0, 0, 0, 0)

  /** update_curr_rt on one level, with sched_rt_runtime_exceeded. */
  function Charge(l: Limits, s: State, delta: nat): State {
    var t := s.rtTime + delta;
    if s.throttled then s.(rtTime := t, charged := s.charged + delta, late := s.late + delta)
    else if l.runtime >= l.period || t <= l.runtime then s.(rtTime := t, charged := s.charged + delta)
    else s.(rtTime := t, charged := s.charged + delta, throttled := true, overshoot := t - l.runtime, late := 0)
  }

  /** What do_sched_rt_period_timer pays back for the periods that have passed. */
  function Repaid(l: Limits, s: State, overrun: nat): nat {
    if s.rtTime < overrun * l.runtime then s.rtTime else overrun * l.runtime
  }

  /** do_sched_rt_period_timer on one run queue */
  function Timer(l: Limits, s: State, overrun: nat): State {
    if s.rtTime == 0 then s.(periods := s.periods + overrun)
    else
      var t := s.rtTime - Repaid(l, s, overrun);
      s.(rtTime := t, periods := s.periods + overrun, throttled := s.throttled && t >= l.runtime)
  }

  /** _pick_next_task_rt: a throttled queue is not picked; of any other, runs says whether the scheduler picked it. */
  function Reschedule(s: State, runs: bool): State { s.(running := runs && !s.throttled) }

  /** The time by which the current throttling has gone beyond the runtime. */
  function Spill(s: State): nat { if s.throttled then s.overshoot + s.late else 0 }

  ghost predicate Inv(l: Limits, s: State) {
    && s.rtTime <= l.runtime + Spill(s)
    && s.charged <= s.periods * l.runtime + s.rtTime
  }

  datatype Step = DoCharge(delta: nat) | DoTimer(overrun: nat) | DoReschedule(runs: bool)

  /** Time is charged to the queue only while a task of it runs. */
  predicate Enabled(s: State, step: Step) { step.DoCharge? ==> s.running }

  function Next(l: Limits, s: State, step: Step): State {
    match step
    case DoCharge(delta) => Charge(l, s, delta)
    case DoTimer(overrun) => Timer(l, s, overrun)
    case DoReschedule(runs) => Reschedule(s, runs)
  }

  lemma Distribute(a: nat, b: nat, x: nat)
    ensures (a + b) * x == a * x + b * x
  {
  }

  lemma NextInv(l: Limits, s: State, step: Step)
    requires Proper(l) && Inv(l, s)
    ensures Inv(l, Next(l, s, step))
    ensures !Next(l, s, step).throttled ==> Next(l, s, step).rtTime <= l.runtime
  {
    if step.DoTimer? {
      Distribute(s.periods, step.overrun, l.runtime);
    }
  }

  /** The charge that throttles goes over by no more than itself. */
  lemma OvershootBound(l: Limits, s: State, delta: nat)
    requires Proper(l) && Inv(l, s) && !s.throttled && Charge(l, s, delta).throttled
    ensures 0 < Charge(l, s, delta).overshoot <= delta && Charge(l, s, delta).late == 0
  {
  }

  function RunSteps(l: Limits, s: State, steps: seq<Step>): State
    decreases |steps|
  {
    if steps == [] then s else RunSteps(l, Next(l, s, steps[0]), steps[1..])
  }

  function ChargedBy(steps: seq<Step>): nat {
    if steps == [] then 0 else (match steps[0] case DoCharge(d) => d case _ => 0) + ChargedBy(steps[1..])
  }

  function PeriodsIn(steps: seq<Step>): nat {
    if steps == [] then 0 else (match steps[0] case DoTimer(n) => n case _ => 0) + PeriodsIn(steps[1..])
  }

  lemma {:induction false} RunInv(l: Limits, s: State, steps: seq<Step>)
    requires Proper(l) && Inv(l, s)
    ensures Inv(l, RunSteps(l, s, steps))
    ensures RunSteps(l, s, steps).charged == s.charged + ChargedBy(steps)
    ensures RunSteps(l, s, steps).periods == s.periods + PeriodsIn(steps)
    decreases |steps|
  {
    if steps != [] {
      NextInv(l, s, steps[0]);
      RunInv(l, Next(l, s, steps[0]), steps[1..]);
    }
  }

  /** The guarantee in terms of the history kept in the state. */
  lemma HistoryBound(l: Limits, steps: seq<Step>)
    requires Proper(l)
    ensures var s := RunSteps(l, INIT, steps);
            && ChargedBy(steps) <= (PeriodsIn(steps) + 1) * l.runtime + Spill(s)
            && (!s.throttled ==> s.rtTime <= l.runtime)
  {
    RunInv(l, INIT, steps);
    Distribute(PeriodsIn(steps), 1, l.runtime);
  }

  // ---- from the throttling to the reschedule ----

  predicate Possible(l: Limits, s: State, steps: seq<Step>)
    decreases |steps|
  {
    steps != [] ==> Enabled(s, steps[0]) && Possible(l, Next(l, s, steps[0]), steps[1..])
  }

  /** The steps before the first reschedule. */
  function BeforeReschedule(steps: seq<Step>): seq<Step> {
    if steps == [] || steps[0].DoReschedule? then [] else [steps[0]] + BeforeReschedule(steps[1..])
  }

  /** The queue is throttled in every state of the run. */
  predicate StaysThrottled(l: Limits, s: State, steps: seq<Step>)
    decreases |steps|
  {
    s.throttled && (steps != [] ==> StaysThrottled(l, Next(l, s, steps[0]), steps[1..]))
  }

  /** A throttled queue that has been switched away from is charged no more. */
  lemma {:induction false} NothingAfterReschedule(l: Limits, s: State, steps: seq<Step>)
    requires Possible(l, s, steps) && StaysThrottled(l, s, steps) && !s.running
    ensures RunSteps(l, s, steps).late == s.late && RunSteps(l, s, steps).overshoot == s.overshoot
    decreases |steps|
  {
    if steps != [] {
      NothingAfterReschedule(l, Next(l, s, steps[0]), steps[1..]);
    }
  }

  /** What a throttled queue is charged late is exactly what is charged before the next reschedule. */
  lemma {:induction false} LateUntilReschedule(l: Limits, s: State, steps: seq<Step>)
    requires Possible(l, s, steps) && StaysThrottled(l, s, steps)
    ensures RunSteps(l, s, steps).late == s.late + ChargedBy(BeforeReschedule(steps))
    ensures RunSteps(l, s, steps).overshoot == s.overshoot
    decreases |steps|
  {
    if steps != [] {
      var s1 := Next(l, s, steps[0]);
      if steps[0].DoReschedule? {
        NothingAfterReschedule(l, s1, steps[1..]);
      } else {
        LateUntilReschedule(l, s1, steps[1..]);
        var rest := BeforeReschedule(steps[1..]);
        assert ([steps[0]] + rest)[1..] == rest;
      }
    }
  }

  /** The queue has been throttled since the charge at position i, by which time went over by over. */
  predicate ThrottledSince(l: Limits, s: State, steps: seq<Step>, i: nat, over: nat) {
    && i < |steps| && steps[i].DoCharge?
    && var before := RunSteps(l, s, steps[..i]);
       var after := Charge(l, before, steps[i].delta);
       !before.throttled && StaysThrottled(l, after, steps[i + 1..]) && after.overshoot == over
  }

  lemma {:induction false} RunSplit(l: Limits, s: State, steps: seq<Step>, i: nat)
    requires i <= |steps|
    ensures RunSteps(l, s, steps) == RunSteps(l, RunSteps(l, s, steps[..i]), steps[i..])
    ensures Possible(l, s, steps) ==> Possible(l, RunSteps(l, s, steps[..i]), steps[i..])
    decreases |steps|
  {
    if i == 0 {
      assert steps[..0] == [] && steps[0..] == steps;
    } else {
      RunSplit(l, Next(l, s, steps[0]), steps[1..], i - 1);
      assert steps[..i][1..] == steps[1..][..i - 1] && steps[1..][i - 1..] == steps[i..];
    }
  }

  /** A run that ends throttled has a charge that throttled it for good. */
  lemma {:induction false} FindThrottling(l: Limits, s: State, steps: seq<Step>) returns (i: nat)
    requires RunSteps(l, s, steps).throttled && !StaysThrottled(l, s, steps)
    ensures i < |steps| && steps[i].DoCharge? && !RunSteps(l, s, steps[..i]).throttled
    ensures StaysThrottled(l, Charge(l, RunSteps(l, s, steps[..i]), steps[i].delta), steps[i + 1..])
    decreases |steps|
  {
    var s1 := Next(l, s, steps[0]);
    if StaysThrottled(l, s1, steps[1..]) {
      i := 0;
      assert steps[..0] == [];
    } else {
      var j := FindThrottling(l, s1, steps[1..]);
      i := j + 1;
      assert steps[..i][1..] == steps[1..][..j] && steps[1..][j + 1..] == steps[i + 1..];
    }
  }

  /**
   The bandwidth guarantee: however time is charged, after K periods a queue that is not throttled has consumed at most
   K + 1 runtimes; one that is, at most that, the overshoot of the charge that throttled it, which is a part of that
   charge, and what was charged between it and the next reschedule.
   */
  lemma BandwidthBound(l: Limits, steps: seq<Step>)
    requires Proper(l) && Possible(l, INIT, steps)
    ensures var s := RunSteps(l, INIT, steps);
            !s.throttled ==> s.rtTime <= l.runtime && ChargedBy(steps) <= (PeriodsIn(steps) + 1) * l.runtime
    ensures RunSteps(l, INIT, steps).throttled ==>
              exists i: nat, over: nat ::
                && ThrottledSince(l, INIT, steps, i, over) && 0 < over <= steps[i].delta
                && ChargedBy(steps) <=
                   (PeriodsIn(steps) + 1) * l.runtime + over + ChargedBy(BeforeReschedule(steps[i + 1..]))
  {
    HistoryBound(l, steps);
    var s := RunSteps(l, INIT, steps);
    if s.throttled {
      var i := FindThrottling(l, INIT, steps);
      var before := RunSteps(l, INIT, steps[..i]);
      var after := Charge(l, before, steps[i].delta);
      RunInv(l, INIT, steps[..i]);
      OvershootBound(l, before, steps[i].delta);
      RunSplit(l, INIT, steps, i);
      assert steps[i..][1..] == steps[i + 1..] && steps[i..][0] == steps[i];
      LateUntilReschedule(l, after, steps[i + 1..]);
      assert ThrottledSince(l, INIT, steps, i, after.overshoot);
    }
  }

  /** Nothing is forgiven: what is not yet paid back is still on the books. */
  lemma {:induction false} NothingForgiven(l: Limits, s: State, steps: seq<Step>)
    ensures RunSteps(l, s, steps).charged - RunSteps(l, s, steps).rtTime == s.charged - s.rtTime + RepaidIn(l, s, steps)
    decreases |steps|
  {
    if steps != [] {
      NothingForgiven(l, Next(l, s, steps[0]), steps[1..]);
    }
  }

  function RepaidIn(l: Limits, s: State, steps: seq<Step>): nat
    decreases |steps|
  {
    if steps == [] then 0
    else (match steps[0] case DoTimer(n) => Repaid(l, s, n) case _ => 0) + RepaidIn(l, Next(l, s, steps[0]), steps[1..])
  }

  /** Periods that are made up for at once count like as many made up for in turn. */
  lemma TimerSplits(l: Limits, s: State, m: nat, n: nat)
    ensures Timer(l, s, m + n) == Timer(l, Timer(l, s, m), n)
  {
    Distribute(m, n, l.runtime);
  }

  function Ticks(n: nat): (r: seq<Step>)
    ensures |r| == n
  {
    if n == 0 then [] else [DoTimer(1)] + Ticks(n - 1)
  }

  /**
   A throttled queue that is charged no more is released by the first timer period n for which less than
   n + 1 runtimes were owed, neither earlier nor later.
   */
  lemma {:induction false} ReleasedAfter(l: Limits, s: State, n: nat)
    requires Proper(l) && s.throttled && s.rtTime >= l.runtime
    ensures RunSteps(l, s, Ticks(n)).throttled <==> s.rtTime >= (n + 1) * l.runtime
    decreases n
  {
    Distribute(n, 1, l.runtime);
    if n > 0 {
      var s1 := Timer(l, s, 1);
      assert Ticks(n)[1..] == Ticks(n - 1);
      assert 1 * l.runtime == l.runtime;
      if s1.throttled {
        ReleasedAfter(l, s1, n - 1);
      } else {
        StaysReleased(l, s1, n - 1);
        Distribute(n - 1, 2, l.runtime);
      }
    }
  }

  lemma {:induction false} StaysReleased(l: Limits, s: State, n: nat)
    requires !s.throttled
    ensures !RunSteps(l, s, Ticks(n)).throttled
    decreases n
  {
    if n > 0 {
      assert Ticks(n)[1..] == Ticks(n - 1);
      StaysReleased(l, Timer(l, s, 1), n - 1);
    }
  }

  /** The fields of struct rt_rq this concerns. */
  class RtBudget {
    const limits: Limits
    var rtTime: nat
    var throttled: bool
    var running: bool
    ghost var charged: nat
    ghost var periods: nat
    ghost var overshoot: nat
    ghost var late: nat

    ghost function Value(): State
      reads this
    {
      State(rtTime, throttled, running, charged, periods, overshoot, late)
    }

    constructor (l: Limits)
      ensures limits == l && Value() == INIT && Inv(l, Value())
    {
      limits := l;
      rtTime, throttled, running := 0, false, false;
      charged, periods, overshoot, late := 0, 0, 0, 0;
    }

    /** sched_rt_runtime_exceeded without sharing: is the queue throttled now? */
    method RuntimeExceeded() returns (exceeded: bool)
      modifies this`throttled, this`overshoot, this`late
      ensures throttled == (old(throttled) || (limits.runtime < limits.period && rtTime > limits.runtime))
      ensures overshoot == if throttled && !old(throttled) then rtTime - limits.runtime else old(overshoot)
      ensures late == if throttled && !old(throttled) then 0 else old(late)
      ensures exceeded == throttled
    {
      if throttled {
        return true;
      }
      if limits.runtime >= limits.period {
        return false;
      }
      if rtTime > limits.runtime {
        throttled := true;
        overshoot, late := rtTime - limits.runtime, 0;
        return true;
      }
      return false;
    }

    /** The body of the loop in update_curr_rt; the result asks for a reschedule. */
    method UpdateCurr(delta: nat) returns (resched: bool)
      requires Proper(limits) && Inv(limits, Value()) && running
      modifies this
      ensures Inv(limits, Value()) && Value() == Charge(limits, old(Value()), delta)
      ensures resched <==> throttled
    {
      NextInv(limits, Value(), DoCharge(delta));
      rtTime := rtTime + delta;
      charged := charged + delta;
      late := if throttled then late + delta else late;
      resched := RuntimeExceeded();
    }

    /** The throttling test of _pick_next_task_rt. */
    method PickQueue(runs: bool)
      requires Proper(limits) && Inv(limits, Value())
      modifies this`running
      ensures Inv(limits, Value()) && Value() == Reschedule(old(Value()), runs)
    {
      running := runs;
      if throttled {
        running := false;
      }
    }

    /** do_sched_rt_period_timer on this queue; the result asks for the group to be enqueued again. */
    method PeriodTimer(overrun: nat) returns (enqueue: bool)
      requires Proper(limits) && Inv(limits, Value())
      modifies this
      ensures Inv(limits, Value()) && Value() == Timer(limits, old(Value()), overrun)
      ensures enqueue <==> old(throttled) && !throttled
    {
      NextInv(limits, Value(), DoTimer(overrun));
      enqueue := false;
      periods := periods + overrun;
      if rtTime != 0 {
        var runtime := limits.runtime;
        rtTime := rtTime - if rtTime < overrun * runtime then rtTime else overrun * runtime;
        if throttled && rtTime < runtime {
          throttled := false;
          enqueue := true;
        }
      }
    }
  }
}
