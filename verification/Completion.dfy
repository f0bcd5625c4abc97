/**
 Completions: waiters sleep on a queue until enough completions have been posted. Every
 critical section under the wait-queue lock is one step; between steps anything may happen.
 */
module Completion {
  import opened Common
  import opened ListOps

  const UINT_MAX: nat := 0xFFFF_FFFF

  type Thread = nat

  /** A wait_queue_t: whom to wake, and whether waking it uses up one of the exclusive wakeups. */
  datatype Entry = Entry(task: Thread, exclusive: bool)

  /** The tasks of the queue, in order. */
  function Tasks(q: seq<Entry>): (r: seq<Thread>)
    ensures |r| == |q|
    ensures forall i :: 0 <= i < |q| ==> r[i] == q[i].task
  {
    seq(|q|, i requires 0 <= i < |q| => q[i].task)
  }

  /**
   __wake_up_common as a function of the sleepers: try_to_wake_up succeeds on exactly the sleeping tasks, and the
   scan stops after nr exclusive successes. With nr = 0 the counter passes zero and never stops it.
   */
  function WakeScan(q: seq<Entry>, asleep: set<Thread>, nr: int): set<Thread> {
    if q == [] then asleep
    else if q[0].task !in asleep then WakeScan(q[1..], asleep, nr)
    else if q[0].exclusive && nr - 1 == 0 then asleep - {q[0].task}
    else WakeScan(q[1..], asleep - {q[0].task}, if q[0].exclusive then nr - 1 else nr)
  }

  /** done is the unsigned counter of the source; posted and satisfied record the history. */
  datatype State = State(done: nat, queue: seq<Entry>, asleep: set<Thread>, posted: nat, satisfied: nat)

  const INIT := State(0, [], {}, 0, 0)

  predicate Waiting(s: State, t: Thread) { t in Tasks(s.queue) }

  /** The waiters that have been woken but are still on the queue. */
  function Woken(s: State): int { |s.queue| - |s.asleep| }

  function Min(a: int, b: int): int { if a < b then a else b }

  ghost predicate Shape(s: State) {
    && NoDup(Tasks(s.queue))
    && (forall i :: 0 <= i < |s.queue| ==> s.queue[i].exclusive)
    && (forall t :: t in s.asleep ==> Waiting(s, t))
  }

  /** No wakeup is lost, and the counter is exact modulo its width. */
  ghost predicate Inv(s: State) {
    && Shape(s)
    && Woken(s) >= Min(s.done, |s.queue|)
    && s.satisfied <= s.posted
    && s.done == (s.posted - s.satisfied) % WORD
  }

  /** complete and complete_all: post n completions and wake up to nr exclusive waiters. */
  function Post(s: State, n: nat, nr: int): State {
    s.(done := (s.done + n) % WORD, asleep := WakeScan(s.queue, s.asleep, nr), posted := s.posted + n)
  }

  /** Use up one posted completion. */
  function Consume(s: State): State
    requires s.done > 0
  {
    s.(done := s.done - 1, satisfied := s.satisfied + 1)
  }

  function Remove(q: seq<Entry>, t: Thread): (r: seq<Entry>) {
    if q == [] then [] else if q[0].task == t then q[1..] else [q[0]] + Remove(q[1..], t)
  }

  /** The first critical section of do_wait_for_common. A pending signal leaves before sleeping. */
  function WaitBegin(s: State, t: Thread, signal: bool): State {
    if s.done > 0 then Consume(s)
    else if signal then s
    else s.(queue := s.queue + [Entry(t, true)], asleep := s.asleep + {t})
  }

  /**
   A later critical section, after schedule_timeout returned: keep waiting while nothing is posted and time is left,
   else leave the queue, with a completion if there is one.
   */
  function Resume(s: State, t: Thread, timeLeft: bool, signal: bool): State {
    if s.done == 0 && timeLeft && !signal then s.(asleep := s.asleep + {t})
    else
      var s1 := s.(queue := Remove(s.queue, t));
      if s1.done == 0 then s1 else Consume(s1)
  }

  function TryWait(s: State): State {
    if s.done == 0 then s else Consume(s)
  }

  datatype Step =
    | DoComplete
    | DoCompleteAll
    | DoTryWait
    | DoWaitBegin(t: Thread, signal: bool)
    | DoResume(t: Thread, timeLeft: bool, signal: bool)
    | DoWakeOther(t: Thread)

  /** A thread begins a wait only when it is not in one, resumes only when awake; timers and signals wake sleepers. */
  predicate Enabled(s: State, step: Step) {
    match step
    case DoWaitBegin(t, _) => !Waiting(s, t)
    case DoResume(t, _, _) => Waiting(s, t) && t !in s.asleep
    case DoWakeOther(t) => t in s.asleep
    case _ => true
  }

  function Next(s: State, step: Step): State {
    match step
    case DoComplete => Post(s, 1, 1)
    case DoCompleteAll => Post(s, UINT_MAX / 2, 0)
    case DoTryWait => TryWait(s)
    case DoWaitBegin(t, signal) => WaitBegin(s, t, signal)
    case DoResume(t, timeLeft, signal) => Resume(s, t, timeLeft, signal)
    case DoWakeOther(t) => s.(asleep := s.asleep - {t})
  }

  // ---- wakeups ----

  lemma {:induction false} ScanOne(q: seq<Entry>, asleep: set<Thread>)
    requires forall i :: 0 <= i < |q| ==> q[i].exclusive
    ensures forall k :: 0 <= k < |q| && q[k].task in asleep && (forall j :: 0 <= j < k ==> q[j].task !in asleep) ==>
              WakeScan(q, asleep, 1) == asleep - {q[k].task}
    ensures (forall j :: 0 <= j < |q| ==> q[j].task !in asleep) ==> WakeScan(q, asleep, 1) == asleep
  {
    if q != [] && q[0].task !in asleep {
      ScanOne(q[1..], asleep);
      forall k | 0 <= k < |q| && q[k].task in asleep && (forall j :: 0 <= j < k ==> q[j].task !in asleep)
        ensures WakeScan(q, asleep, 1) == asleep - {q[k].task}
      {
        assert q[1..][k - 1] == q[k];
        assert forall j :: 0 <= j < k - 1 ==> q[1..][j] == q[j + 1];
      }
    }
  }

  lemma {:induction false} ScanAll(q: seq<Entry>, asleep: set<Thread>, nr: int)
    requires nr <= 0
    ensures forall t :: t in WakeScan(q, asleep, nr) <==> t in asleep && t !in Tasks(q)
  {
    if q != [] {
      ScanAll(q[1..], asleep - {q[0].task}, if q[0].exclusive then nr - 1 else nr);
      ScanAll(q[1..], asleep, nr);
      assert Tasks(q) == [q[0].task] + Tasks(q[1..]);
    }
  }

  /** Waiters are woken in the order in which they queued up: complete wakes the first sleeper and no other. */
  lemma CompleteIsFifo(s: State, k: nat)
    requires Shape(s) && k < |s.queue| && s.queue[k].task in s.asleep
    requires forall j :: 0 <= j < k ==> s.queue[j].task !in s.asleep
    ensures Post(s, 1, 1).asleep == s.asleep - {s.queue[k].task}
  {
    ScanOne(s.queue, s.asleep);
  }

  /** complete_all leaves no sleeper. */
  lemma CompleteAllWakesAll(s: State, n: nat)
    requires Shape(s)
    ensures Post(s, n, 0).asleep == {}
  {
    ScanAll(s.queue, s.asleep, 0);
  }

  lemma SleepersAreWaiters(s: State)
    requires Shape(s)
    ensures |s.asleep| <= |s.queue|
  {
    NoDupSize(Tasks(s.queue));
    SubsetSize(s.asleep, set t | t in Tasks(s.queue));
  }

  lemma {:induction false} SubsetSize(a: set<Thread>, b: set<Thread>)
    requires a <= b
    ensures |a| <= |b|
    decreases |a|
  {
    if a != {} {
      var x :| x in a;
      SubsetSize(a - {x}, b - {x});
    }
  }

  /** Somebody still asleep means complete has somebody to wake. */
  lemma FirstSleeper(s: State) returns (k: nat)
    requires Shape(s) && s.asleep != {}
    ensures k < |s.queue| && s.queue[k].task in s.asleep && forall j :: 0 <= j < k ==> s.queue[j].task !in s.asleep
  {
    var t :| t in s.asleep;
    assert Waiting(s, t);
    k := 0;
    while s.queue[k].task !in s.asleep
      invariant k < |s.queue| && forall j :: 0 <= j < k ==> s.queue[j].task !in s.asleep
      invariant exists i :: k <= i < |s.queue| && Tasks(s.queue)[i] == t
      decreases |s.queue| - k
    {
      k := k + 1;
    }
  }

  // ---- every step keeps the invariant ----

  lemma PostMod(done: nat, posted: nat, satisfied: nat, n: nat)
    requires satisfied <= posted && done == (posted - satisfied) % WORD
    ensures (done + n) % WORD == (posted + n - satisfied) % WORD
  {
    var x := posted - satisfied;
    assert x == WORD * (x / WORD) + x % WORD;
    assert (x + n) % WORD == (x % WORD + n) % WORD;
  }

  lemma ConsumeMod(done: nat, posted: nat, satisfied: nat)
    requires satisfied <= posted && done == (posted - satisfied) % WORD && done > 0
    ensures satisfied + 1 <= posted && done - 1 == (posted - (satisfied + 1)) % WORD
  {
    var x := posted - satisfied;
    assert x == WORD * (x / WORD) + x % WORD;
  }

  lemma CompleteInv(s: State)
    requires Inv(s)
    ensures Inv(Post(s, 1, 1))
  {
    var s' := Post(s, 1, 1);
    PostMod(s.done, s.posted, s.satisfied, 1);
    if s.asleep == {} {
      assert forall j :: 0 <= j < |s.queue| ==> s.queue[j].task !in s.asleep;
      ScanOne(s.queue, s.asleep);
    } else {
      var k := FirstSleeper(s);
      CompleteIsFifo(s, k);
    }
  }

  lemma CompleteAllInv(s: State)
    requires Inv(s)
    ensures Inv(Post(s, UINT_MAX / 2, 0))
  {
    PostMod(s.done, s.posted, s.satisfied, UINT_MAX / 2);
    CompleteAllWakesAll(s, UINT_MAX / 2);
  }

  lemma {:induction false} RemoveTasks(q: seq<Entry>, t: Thread)
    requires NoDup(Tasks(q)) && t in Tasks(q)
    ensures |Remove(q, t)| == |q| - 1
    ensures NoDup(Tasks(Remove(q, t)))
    ensures forall e :: e in Remove(q, t) ==> e in q
    ensures forall u :: u in Tasks(Remove(q, t)) <==> u in Tasks(q) && u != t
  {
    assert Tasks(q) == [q[0].task] + Tasks(q[1..]);
    var rest := Tasks(q[1..]);
    assert NoDup(rest);
    forall u | u in rest
      ensures u != q[0].task
    {
      var i :| 0 <= i < |rest| && rest[i] == u;
      assert Tasks(q)[i + 1] == u && Tasks(q)[0] == q[0].task;
    }
    if q[0].task != t {
      RemoveTasks(q[1..], t);
      assert q[0].task !in Tasks(Remove(q[1..], t));
      assert Tasks(Remove(q, t)) == [q[0].task] + Tasks(Remove(q[1..], t));
    }
  }

  lemma WaitBeginInv(s: State, t: Thread, signal: bool)
    requires Inv(s) && !Waiting(s, t)
    ensures Inv(WaitBegin(s, t, signal))
  {
    if s.done > 0 {
      ConsumeMod(s.done, s.posted, s.satisfied);
    } else if !signal {
      var s' := WaitBegin(s, t, signal);
      assert Tasks(s'.queue) == Tasks(s.queue) + [t];
      SleepersAreWaiters(s);
      assert t !in s.asleep;
    }
  }

  lemma ResumeInv(s: State, t: Thread, timeLeft: bool, signal: bool)
    requires Inv(s) && Waiting(s, t) && t !in s.asleep
    ensures Inv(Resume(s, t, timeLeft, signal))
  {
    var s' := Resume(s, t, timeLeft, signal);
    if s.done == 0 && timeLeft && !signal {
      SleepersAreWaiters(s');
    } else {
      RemoveTasks(s.queue, t);
      forall i | 0 <= i < |s'.queue|
        ensures s'.queue[i].exclusive
      {
        assert s'.queue[i] in s.queue;
      }
      SleepersAreWaiters(s');
      if s.done > 0 {
        ConsumeMod(s.done, s.posted, s.satisfied);
      }
    }
  }

  lemma NextInv(s: State, step: Step)
    requires Inv(s) && Enabled(s, step)
    ensures Inv(Next(s, step))
  {
    hide Inv;
    match step
    case DoComplete => CompleteInv(s);
    case DoCompleteAll => CompleteAllInv(s);
    case DoTryWait => TryWaitInv(s);
    case DoWaitBegin(t, signal) => WaitBeginInv(s, t, signal);
    case DoResume(t, timeLeft, signal) => ResumeInv(s, t, timeLeft, signal);
    case DoWakeOther(t) => WakeOtherInv(s, t);
  }

  lemma TryWaitInv(s: State)
    requires Inv(s)
    ensures Inv(TryWait(s))
  {
    if s.done > 0 {
      ConsumeMod(s.done, s.posted, s.satisfied);
    }
  }

  lemma WakeOtherInv(s: State, t: Thread)
    requires Inv(s) && t in s.asleep
    ensures Inv(s.(asleep := s.asleep - {t}))
  {
    assert |s.asleep - {t}| == |s.asleep| - 1;
  }

  ghost predicate Run(s: State, steps: seq<Step>, s': State)
    decreases |steps|
  {
    if steps == [] then s' == s else Enabled(s, steps[0]) && Run(Next(s, steps[0]), steps[1..], s')
  }

  function PostedBy(steps: seq<Step>): nat {
    if steps == [] then 0
    else (match steps[0] case DoComplete => 1 case DoCompleteAll => UINT_MAX / 2 case _ => 0) + PostedBy(steps[1..])
  }

  /**
   Over every interleaving, enough queued waiters are awake to use up what is posted; the counter is what was posted
   less the waits it satisfied, modulo its width, and exactly that as long as it fits.
   */
  lemma {:induction false} NoLostWakeup(s: State, steps: seq<Step>, s': State)
    requires Inv(s) && Run(s, steps, s')
    ensures Inv(s') && Woken(s') >= Min(s'.done, |s'.queue|)
    ensures s'.posted == s.posted + PostedBy(steps)
    ensures 0 <= s'.done <= s'.posted - s'.satisfied
    ensures s'.done == s'.posted - s'.satisfied <==> s'.posted - s'.satisfied < WORD
    decreases |steps|
  {
    if steps == [] {
      ModSmall(s.posted - s.satisfied);
    } else {
      NextInv(s, steps[0]);
      NoLostWakeup(Next(s, steps[0]), steps[1..], s');
    }
  }

  lemma ModSmall(x: nat)
    ensures 0 <= x % WORD <= x
    ensures x % WORD == x <==> x < WORD
  {
  }

  // ---- leaving ----

  /** Taking a waiter off leaves the others in order. */
  lemma {:induction false} RemoveAt(q: seq<Entry>, t: Thread, k: nat)
    requires k < |q| && q[k].task == t && forall j :: 0 <= j < k ==> q[j].task != t
    ensures Remove(q, t) == q[..k] + q[k + 1..]
  {
    if k > 0 {
      RemoveAt(q[1..], t, k - 1);
      assert [q[0]] + q[1..][..k - 1] == q[..k] && q[1..][k..] == q[k + 1..];
    }
  }

  /**
   A waiter that resumes goes back to sleep exactly if nothing is posted, time is left and no signal is pending, and
   keeps its place; else it is off the queue, the others keep theirs, and it takes a completion exactly if there is one.
   */
  lemma ResumeLeaves(s: State, t: Thread, timeLeft: bool, signal: bool)
    requires Inv(s) && Waiting(s, t) && t !in s.asleep
    ensures var s' := Resume(s, t, timeLeft, signal);
            if s.done == 0 && timeLeft && !signal then
              s'.queue == s.queue && s'.asleep == s.asleep + {t} && s'.done == s.done && s'.satisfied == s.satisfied
            else
              && !Waiting(s', t) && s'.asleep == s.asleep
              && (exists k :: 0 <= k < |s.queue| && s.queue[k].task == t && s'.queue == s.queue[..k] + s.queue[k + 1..])
              && s'.satisfied == s.satisfied + (if s.done > 0 then 1 else 0)
              && s'.done == s.done - (if s.done > 0 then 1 else 0)
  {
    RemoveTasks(s.queue, t);
    var k :| 0 <= k < |s.queue| && Tasks(s.queue)[k] == t;
    forall j | 0 <= j < k ensures s.queue[j].task != t {
      assert Tasks(s.queue)[j] != Tasks(s.queue)[k];
    }
    RemoveAt(s.queue, t, k);
  }

  /** The tasks that have begun to wait and not left, oldest first, and those of them that sleep. */
  datatype Line = Line(waits: seq<Thread>, asleep: set<Thread>)

  /** The first in line that sleeps, if any does. */
  function FirstAsleep(waits: seq<Thread>, asleep: set<Thread>): set<Thread> {
    if waits == [] then {} else if waits[0] in asleep then {waits[0]} else FirstAsleep(waits[1..], asleep)
  }

  /** The line after a step, when done completions are posted. */
  function LineAfter(done: nat, step: Step, l: Line): Line {
    match step
    case DoComplete => l.(asleep := l.asleep - FirstAsleep(l.waits, l.asleep))
    case DoCompleteAll => l.(asleep := {})
    case DoTryWait => l
    case DoWaitBegin(t, signal) => if done == 0 && !signal then Line(l.waits + [t], l.asleep + {t}) else l
    case DoResume(t, timeLeft, signal) =>
      if done > 0 || !timeLeft || signal then l.(waits := Without(l.waits, t)) else l.(asleep := l.asleep + {t})
    case DoWakeOther(t) => l.(asleep := l.asleep - {t})
  }

  function LineAfterAll(s: State, steps: seq<Step>, l: Line): Line
    decreases |steps|
  {
    if steps == [] then l else LineAfterAll(Next(s, steps[0]), steps[1..], LineAfter(s.done, steps[0], l))
  }

  function LineOf(s: State): Line { Line(Tasks(s.queue), s.asleep) }

  lemma {:induction false} WakesFirst(q: seq<Entry>, asleep: set<Thread>)
    requires forall i :: 0 <= i < |q| ==> q[i].exclusive
    ensures WakeScan(q, asleep, 1) == asleep - FirstAsleep(Tasks(q), asleep)
  {
    if q != [] {
      assert Tasks(q) == [q[0].task] + Tasks(q[1..]);
      WakesFirst(q[1..], asleep);
    }
  }

  lemma {:induction false} RemoveIsWithout(q: seq<Entry>, t: Thread)
    requires NoDup(Tasks(q))
    ensures Tasks(Remove(q, t)) == Without(Tasks(q), t)
  {
    if q != [] {
      assert Tasks(q) == [q[0].task] + Tasks(q[1..]);
      RestNoDup(q);
      if q[0].task != t {
        RemoveIsWithout(q[1..], t);
        assert Tasks(Remove(q, t)) == [q[0].task] + Tasks(Remove(q[1..], t));
      }
    }
  }

  /** The head of a list without repetition is not among the rest. */
  lemma RestNoDup(q: seq<Entry>)
    requires NoDup(Tasks(q)) && q != []
    ensures NoDup(Tasks(q[1..])) && q[0].task !in Tasks(q[1..])
  {
    var ts, rest := Tasks(q), Tasks(q[1..]);
    assert forall i :: 0 <= i < |rest| ==> rest[i] == ts[i + 1];
  }

  lemma StepWaiters(s: State, step: Step)
    requires Inv(s) && Enabled(s, step)
    ensures LineOf(Next(s, step)) == LineAfter(s.done, step, LineOf(s))
  {
    match step
    case DoComplete =>
      WakesFirst(s.queue, s.asleep);
      hide Inv, WakeScan, FirstAsleep;
    case DoCompleteAll =>
      CompleteAllWakesAll(s, UINT_MAX / 2);
      hide Inv, WakeScan;
    case DoWaitBegin(t, _) =>
      hide Inv;
      assert Tasks(s.queue + [Entry(t, true)]) == Tasks(s.queue) + [t];
    case DoResume(t, timeLeft, signal) =>
      RemoveIsWithout(s.queue, t);
      hide Inv;
    case _ =>
      hide Inv;
  }

  /**
   Over every interleaving the queue is a line: it holds exactly the tasks that began to wait and have not left, in the
   order in which they began, and asleep are those that nothing has woken since they last went to sleep, complete waking
   the first sleeper in line and complete_all everyone.
   */
  lemma {:induction false} QueueIsWaiters(s: State, steps: seq<Step>, s': State)
    requires Inv(s) && Run(s, steps, s')
    ensures LineOf(s') == LineAfterAll(s, steps, LineOf(s))
    decreases |steps|
  {
    if steps != [] {
      NextInv(s, steps[0]);
      StepWaiters(s, steps[0]);
      QueueIsWaiters(Next(s, steps[0]), steps[1..], s');
    }
  }

  /** While something is posted and somebody waits, some waiter is awake, and whoever resumes first takes it. */
  lemma PostedMeansProgress(s: State)
    requires Inv(s) && s.done > 0 && s.queue != []
    ensures exists t :: Waiting(s, t) && t !in s.asleep
    ensures forall t, timeLeft, signal :: Waiting(s, t) && t !in s.asleep ==>
              Resume(s, t, timeLeft, signal).satisfied == s.satisfied + 1 && !Waiting(Resume(s, t, timeLeft, signal), t)
  {
    NoDupSize(Tasks(s.queue));
    var all := set t | t in Tasks(s.queue);
    if all <= s.asleep {
      SubsetSize(all, s.asleep);
      assert false;
    }
    var t :| t in all && t !in s.asleep;
    assert Waiting(s, t);
    forall u, timeLeft, signal | Waiting(s, u) && u !in s.asleep
      ensures Resume(s, u, timeLeft, signal).satisfied == s.satisfied + 1 && !Waiting(Resume(s, u, timeLeft, signal), u)
    {
      RemoveTasks(s.queue, u);
    }
  }

  /** struct completion with the states of the tasks that wait on it. */
  class CompletionObject {
    var done: nat
    var queue: seq<Entry>
    var asleep: set<Thread>
    ghost var posted: nat
    ghost var satisfied: nat

    ghost function Value(): State
      reads this
    {
      State(done, queue, asleep, posted, satisfied)
    }

    /** init_completion */
    constructor ()
      ensures Value() == INIT && Inv(Value())
    {
      done, queue, asleep := 0, [], {};
      posted, satisfied := 0, 0;
    }

    /** __wake_up_common */
    method WakeUpCommon(nrExclusive: int)
      modifies this`asleep
      ensures asleep == WakeScan(queue, old(asleep), nrExclusive)
    {
      var nr := nrExclusive;
      var i := 0;
      while i < |queue|
        invariant 0 <= i <= |queue|
        invariant WakeScan(queue[i..], asleep, nr) == WakeScan(queue, old(asleep), nrExclusive)
      {
        var curr := queue[i];
        assert queue[i..][1..] == queue[i + 1..];
        if curr.task in asleep {
          asleep := asleep - {curr.task};
          if curr.exclusive {
            nr := nr - 1;
            if nr == 0 {
              return;
            }
          }
        }
        i := i + 1;
      }
    }

    /** complete */
    method Complete()
      modifies this
      ensures Value() == Post(old(Value()), 1, 1)
    {
      done := (done + 1) % WORD;
      posted := posted + 1;
      WakeUpCommon(1);
    }

    /** complete_all */
    method CompleteAll()
      modifies this
      ensures Value() == Post(old(Value()), UINT_MAX / 2, 0)
    {
      done := (done + UINT_MAX / 2) % WORD;
      posted := posted + UINT_MAX / 2;
      WakeUpCommon(0);
    }

    /** do_wait_for_common up to the first sleep; satisfiedNow is true when it returns without waiting. */
    method BeginWait(t: Thread, signal: bool) returns (satisfiedNow: bool)
      modifies this
      ensures Value() == WaitBegin(old(Value()), t, signal)
      ensures satisfiedNow <==> old(done) > 0
    {
      if done == 0 {
        if !signal {
          queue := queue + [Entry(t, true)];
          asleep := asleep + {t};
        }
        return false;
      }
      done := done - 1;
      satisfied := satisfied + 1;
      return true;
    }

    /** __remove_wait_queue */
    method RemoveWaiter(t: Thread)
      modifies this`queue
      ensures queue == Remove(old(queue), t)
    {
      var i := 0;
      while i < |queue| && queue[i].task != t
        invariant 0 <= i <= |queue|
        invariant queue[..i] + Remove(queue[i..], t) == Remove(queue, t)
      {
        assert queue[i..][1..] == queue[i + 1..];
        assert queue[..i + 1] == queue[..i] + [queue[i]];
        i := i + 1;
      }
      if i < |queue| {
        assert queue[i..][1..] == queue[i + 1..];
        queue := queue[..i] + queue[i + 1..];
      } else {
        assert queue[i..] == [];
        assert queue[..i] == queue;
      }
    }

    /** do_wait_for_common from a return of schedule_timeout to the next sleep or to its own return. */
    method ResumeWait(t: Thread, timeLeft: bool, signal: bool) returns (leaves: bool, satisfiedNow: bool)
      modifies this
      ensures Value() == Resume(old(Value()), t, timeLeft, signal)
      ensures leaves <==> !(old(done) == 0 && timeLeft && !signal)
      ensures satisfiedNow <==> old(done) > 0
    {
      if done == 0 && timeLeft {
        if !signal {
          asleep := asleep + {t};
          return false, false;
        }
      }
      RemoveWaiter(t);
      if done == 0 {
        return true, false;
      }
      done := done - 1;
      satisfied := satisfied + 1;
      return true, true;
    }

    /** try_wait_for_completion */
    method TryWaitForCompletion() returns (ret: bool)
      modifies this
      ensures Value() == TryWait(old(Value()))
      ensures ret <==> old(done) > 0
    {
      if done == 0 {
        return false;
      }
      done := done - 1;
      satisfied := satisfied + 1;
      return true;
    }
  }
}
