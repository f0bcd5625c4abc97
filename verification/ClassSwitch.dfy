/**
 The scheduling classes of one run queue: moving a task from one to another, and picking the next
 task from the highest class that has one.
 */
module ClassSwitch {
  import opened Common
  import opened ListOps

  const MAX_USER_RT_PRIO: int := 100
  const EINVAL: int := 22
  const EPERM: int := 1
  const DEFAULT_PRIO: int := 120

  datatype Class = Stop | Rt | Ras | Fair | Idle

  datatype Policy = Normal | Batch | IdlePolicy | Fifo | Rr | RasPolicy | Unknown

  /** hasMm tells a user process from a kernel thread. */
  datatype Task = Task(cls: Class, policy: Policy, onRq: bool, prio: int, normalPrio: int, staticPrio: int,
                       rtPriority: int, resetOnFork: bool, hasMm: bool)

  /** Queue(c) lists the tasks enqueued in class c; hNr is cfs.h_nr_running, nr is nr_running. */
  datatype Rq = Rq(tasks: seq<Task>, stop: seq<nat>, rt: seq<nat>, ras: seq<nat>, fair: seq<nat>,
                   rasNr: int, hNr: int, nr: int, curr: nat, idle: nat) {
    function Queue(c: Class): seq<nat>
    {
      match c case Stop => stop case Rt => rt case Ras => ras case Fair => fair case Idle => []
    }

    function WithQueue(c: Class, q: seq<nat>): Rq
    {
      match c
      case Stop => this.(stop := q)
      case Rt => this.(rt := q)
      case Ras => this.(ras := q)
      case Fair => this.(fair := q)
      case Idle => this
    }

    /** The counters that the enqueue or dequeue hook of a class moves. */
    function Count(c: Class, d: int): Rq
    {
      match c
      case Ras => this.(rasNr := rasNr + d, nr := nr + d)
      case Fair => this.(hNr := hNr + d, nr := nr + d)
      case _ => this.(nr := nr + d)
    }
  }

  predicate RtPrio(prio: int) { prio < MAX_RT_PRIO }
  predicate RtPolicy(p: Policy) { p == Fifo || p == Rr }

  /** normal_prio */
  function NormalPrio(t: Task): int
  {
    if RtPolicy(t.policy) then MAX_RT_PRIO - 1 - t.rtPriority else t.staticPrio
  }

  /** The class that __setscheduler and rt_mutex_setprio choose. */
  function ClassFor(policy: Policy, prio: int): Class
  {
    if policy == RasPolicy then Ras else if RtPrio(prio) then Rt else Fair
  }

  ghost predicate InQueue(r: Rq, p: nat, c: Class) { p in r.Queue(c) }

  /** A task with on_rq is in the queue of its class and no other; any other task is in none. */
  ghost predicate Queued(r: Rq)
  {
    forall p: nat, c :: InQueue(r, p, c) <==> p < |r.tasks| && r.tasks[p].onRq && r.tasks[p].cls == c
  }

  ghost predicate Counted(r: Rq)
  {
    && NoDup(r.stop) && NoDup(r.rt) && NoDup(r.ras) && NoDup(r.fair)
    && r.rasNr == |r.ras| && r.hNr == |r.fair| && r.nr == |r.stop| + |r.rt| + |r.ras| + |r.fair|
  }

  /** The class follows from policy and priority, but for RAS tasks that were forked and never changed since. */
  ghost predicate Classed(r: Rq)
  {
    && r.curr < |r.tasks| && r.idle < |r.tasks|
    && forall p :: 0 <= p < |r.tasks| ==> TaskClassed(r.tasks[p]) && (r.tasks[p].cls == Idle <==> p == r.idle)
  }

  ghost predicate TaskClassed(t: Task)
  {
    && (t.cls == Idle ==> !t.onRq)
    && t.prio <= t.normalPrio == NormalPrio(t) && t.staticPrio >= MAX_RT_PRIO
    && (RtPolicy(t.policy) ==> t.rtPriority >= 1)
    && (t.cls == Rt || t.cls == Ras || t.cls == Fair ==> t.cls == ClassFor(t.policy, t.prio) || ForkedRas(t))
  }

  predicate ForkedRas(t: Task) { t.policy == RasPolicy && t.cls == Fair }

  ghost predicate Inv(r: Rq) { Queued(r) && Counted(r) && Classed(r) }

  // ---- queueing ----

  function Enqueue(r: Rq, p: nat, head: bool): Rq
    requires p < |r.tasks|
  {
    var c := r.tasks[p].cls;
    if c == Idle then r
    else r.WithQueue(c, if head then [p] + r.Queue(c) else r.Queue(c) + [p]).Count(c, 1)
  }

  function Dequeue(r: Rq, p: nat): Rq
    requires p < |r.tasks|
  {
    var c := r.tasks[p].cls;
    if c == Idle then r
    else if c == Ras && p !in r.ras then r.(nr := r.nr - 1)
    else r.WithQueue(c, Without(r.Queue(c), p)).Count(c, -1)
  }

  /** Only the RAS class reorders its queue when a task stops running. */
  function PutPrev(r: Rq, p: nat): Rq
    requires p < |r.tasks|
  {
    if r.tasks[p].cls == Ras && p in r.ras then r.(ras := Without(r.ras, p) + [p]) else r
  }

  /** Dequeue, change, enqueue again: the frame that both class-changing functions share. */
  function Reclass(r: Rq, p: nat, t: Task, head: bool): Rq
    requires p < |r.tasks|
  {
    var onRq := r.tasks[p].onRq;
    var r1 := if onRq then Dequeue(r, p) else r;
    var r2 := if p == r.curr then PutPrev(r1, p) else r1;
    var r3 := r2.(tasks := r2.tasks[p := t]);
    if onRq then Enqueue(r3, p, head) else r3
  }

  /** rt_mutex_setprio */
  function SetPrio(r: Rq, p: nat, prio: int): Rq
    requires p < |r.tasks|
  {
    if p == r.idle then r
    else
      var t := r.tasks[p];
      Reclass(r, p, t.(prio := prio, cls := ClassFor(t.policy, prio)), t.prio < prio)
  }

  /**
   What sched_setscheduler is asked; permitted and groupAllows stand for the capability and group-bandwidth checks, and
   pi is the best priority among the tasks waiting for the task's mutexes.
   */
  datatype Request = Request(policy: Option<Policy>, priority: int, reset: bool, permitted: bool, groupAllows: bool,
                             pi: int)

  function Result(r: Rq, p: nat, q: Request): int
    requires p < |r.tasks|
  {
    var t := r.tasks[p];
    var policy := if q.policy.None? then t.policy else q.policy.value;
    if q.policy == Some(Unknown) then -EINVAL
    else if q.priority < 0 || q.priority > (if t.hasMm then MAX_USER_RT_PRIO else MAX_RT_PRIO) - 1 then -EINVAL
    else if RtPolicy(policy) != (q.priority != 0) then -EINVAL
    else if !q.permitted then -EPERM
    else if t.cls == Stop then -EINVAL
    else if policy == t.policy && (!RtPolicy(policy) || q.priority == t.rtPriority) then 0
    else if RtPolicy(policy) && !q.groupAllows then -EPERM
    else 0
  }

  /** Whether a request that returns 0 changes anything. */
  predicate Changes(r: Rq, p: nat, q: Request)
    requires p < |r.tasks|
  {
    var t := r.tasks[p];
    var policy := if q.policy.None? then t.policy else q.policy.value;
    Result(r, p, q) == 0 && !(policy == t.policy && (!RtPolicy(policy) || q.priority == t.rtPriority))
  }

  /** __setscheduler */
  function Rescheduled(t: Task, policy: Policy, priority: int, reset: bool, pi: int): Task
  {
    var t1 := t.(policy := policy, rtPriority := priority, resetOnFork := reset);
    var normal := NormalPrio(t1);
    var prio := if pi < normal then pi else normal;
    t1.(normalPrio := normal, prio := prio, cls := ClassFor(policy, prio))
  }

  /** __sched_setscheduler */
  function SetScheduler(r: Rq, p: nat, q: Request): Rq
    requires p < |r.tasks|
  {
    if !Changes(r, p, q) then r else Reclass(r, p, Target(r.tasks[p], q), false)
  }

  /** What a request that changes something makes of the task. */
  function Target(t: Task, q: Request): Task
  {
    var policy := if q.policy.None? then t.policy else q.policy.value;
    var reset := if q.policy.None? then t.resetOnFork else q.reset;
    Rescheduled(t, policy, q.priority, reset, q.pi)
  }

  /** A change of one task and its place keeps everyone else where they are. */
  lemma QueuedUpdate(r: Rq, e: Rq, p: nat, t: Task)
    requires Queued(r) && p < |r.tasks| && e.tasks == r.tasks[p := t]
    requires forall x: nat, c :: InQueue(e, x, c) <==> if x == p then t.onRq && t.cls == c else InQueue(r, x, c)
    ensures Queued(e)
  {
    hide InQueue;
  }

  lemma EnqueueMembers(r: Rq, p: nat, head: bool)
    requires p < |r.tasks| && r.tasks[p].cls != Idle
    ensures forall x: nat, c :: InQueue(Enqueue(r, p, head), x, c) <==>
            InQueue(r, x, c) || (x == p && c == r.tasks[p].cls)
  {}

  lemma EnqueueCounted(r: Rq, p: nat, head: bool)
    requires Counted(r) && p < |r.tasks| && r.tasks[p].cls != Idle && !InQueue(r, p, r.tasks[p].cls)
    ensures Counted(Enqueue(r, p, head))
  {}

  lemma EnqueueInv(r: Rq, p: nat, head: bool, t: Task)
    requires Queued(r) && Counted(r) && p < |r.tasks| && !r.tasks[p].onRq && t.cls != Idle && t.onRq
    ensures var r1 := r.(tasks := r.tasks[p := t]); Queued(Enqueue(r1, p, head)) && Counted(Enqueue(r1, p, head))
  {
    var r1 := r.(tasks := r.tasks[p := t]);
    assert forall x: nat, c :: InQueue(r1, x, c) <==> InQueue(r, x, c);
    assert !InQueue(r, p, t.cls);
    EnqueueMembers(r1, p, head);
    EnqueueCounted(r1, p, head);
    var e := Enqueue(r1, p, head);
    assert e.tasks == r1.tasks;
    hide InQueue, Counted, Enqueue;
    QueuedUpdate(r, e, p, t);
  }

  lemma DequeueMembers(r: Rq, p: nat)
    requires p < |r.tasks| && r.tasks[p].cls != Idle
    ensures forall x: nat, c :: InQueue(Dequeue(r, p), x, c) <==> InQueue(r, x, c) && !(x == p && c == r.tasks[p].cls)
  {}

  lemma DequeueCounted(r: Rq, p: nat)
    requires Counted(r) && p < |r.tasks| && r.tasks[p].cls != Idle && InQueue(r, p, r.tasks[p].cls)
    ensures Counted(Dequeue(r, p))
  {
    WithoutNoDup(r.Queue(r.tasks[p].cls), p);
    hide NoDup, Without;
  }

  lemma DequeueInv(r: Rq, p: nat, t: Task)
    requires Queued(r) && Counted(r) && p < |r.tasks| && r.tasks[p].onRq && r.tasks[p].cls != Idle && !t.onRq
    ensures var e := Dequeue(r, p).(tasks := r.tasks[p := t]); Queued(e) && Counted(e)
  {
    assert InQueue(r, p, r.tasks[p].cls);
    DequeueCounted(r, p);
    DequeueMembers(r, p);
    var e := Dequeue(r, p).(tasks := r.tasks[p := t]);
    assert forall x: nat, c :: InQueue(e, x, c) <==> InQueue(Dequeue(r, p), x, c);
    assert Counted(e);
    hide InQueue, Counted, Dequeue;
    QueuedUpdate(r, e, p, t);
  }

  lemma PutPrevInv(r: Rq, p: nat)
    requires p < |r.tasks|
    ensures Queued(r) ==> Queued(PutPrev(r, p))
    ensures Counted(r) ==> Counted(PutPrev(r, p))
  {
    if r.tasks[p].cls == Ras && p in r.ras {
      var q := Without(r.ras, p) + [p];
      assert forall x :: x in q <==> x in r.ras;
      assert forall x: nat, c :: InQueue(PutPrev(r, p), x, c) <==> InQueue(r, x, c);
      if NoDup(r.ras) {
        WithoutNoDup(r.ras, p);
      }
    }
  }

  lemma ReclassQueued(r: Rq, p: nat, t: Task, head: bool)
    requires Queued(r) && Counted(r) && p < |r.tasks| && r.tasks[p].cls != Idle && t.cls != Idle &&
             t.onRq == r.tasks[p].onRq
    ensures Queued(Reclass(r, p, t, head)) && Counted(Reclass(r, p, t, head)) &&
            Reclass(r, p, t, head).tasks == r.tasks[p := t]
  {
    if t.onRq {
      var off := r.tasks[p].(onRq := false);
      DequeueInv(r, p, off);
      DequeueMembers(r, p);
      var r1 := Dequeue(r, p);
      assert p !in r1.ras by {
        assert !InQueue(r, p, Ras) || r.tasks[p].cls == Ras;
        assert !InQueue(r1, p, Ras);
      }
      var g := r1.(tasks := r.tasks[p := off]);
      EnqueueInv(g, p, head, t);
      assert g.tasks[p := t] == r.tasks[p := t];
    } else {
      assert !InQueue(r, p, Ras);
      var e := r.(tasks := r.tasks[p := t]);
      assert forall x: nat, c :: InQueue(e, x, c) <==> InQueue(r, x, c);
      QueuedUpdate(r, e, p, t);
    }
  }

  /** Nothing but p has changed, and p is as runnable as before. */
  ghost predicate OnlyTask(r: Rq, e: Rq, p: nat)
  {
    |e.tasks| == |r.tasks| && e.curr == r.curr && e.nr == r.nr &&
    forall x :: 0 <= x < |r.tasks| ==> e.tasks[x].onRq == r.tasks[x].onRq && (x != p ==> e.tasks[x] == r.tasks[x])
  }

  /** Changing a task's priority puts it in the class, and the queue, that its policy and the priority ask for. */
  lemma SetPrioInv(r: Rq, p: nat, prio: int)
    requires Inv(r) && p < |r.tasks| && prio <= r.tasks[p].normalPrio
    ensures Inv(SetPrio(r, p, prio)) && OnlyTask(r, SetPrio(r, p, prio), p)
    ensures p != r.idle ==> var t := SetPrio(r, p, prio).tasks[p]; t.cls == ClassFor(t.policy, prio) && t.prio == prio
  {
    var t := r.tasks[p];
    if p != r.idle {
      ReclassInv(r, p, t.(prio := prio, cls := ClassFor(t.policy, prio)), t.prio < prio);
    }
  }

  lemma ReclassInv(r: Rq, p: nat, t: Task, head: bool)
    requires Inv(r) && p < |r.tasks| && p != r.idle && TaskClassed(t) && t.cls != Idle && t.onRq == r.tasks[p].onRq
    ensures var e := Reclass(r, p, t, head); Inv(e) && e.nr == r.nr && e.curr == r.curr && e.tasks == r.tasks[p := t]
  {
    ReclassQueued(r, p, t, head);
    ReclassSame(r, p, t, head);
    hide Queued, Counted, Reclass, TaskClassed;
  }

  lemma ReclassSame(r: Rq, p: nat, t: Task, head: bool)
    requires p < |r.tasks| && r.tasks[p].cls != Idle && t.cls != Idle
    ensures var e := Reclass(r, p, t, head); e.nr == r.nr && e.curr == r.curr && e.idle == r.idle
  {}

  lemma TargetOk(r: Rq, p: nat, q: Request)
    requires p < |r.tasks| && Changes(r, p, q) && TaskClassed(r.tasks[p]) && r.tasks[p].cls != Idle
    ensures var t := Target(r.tasks[p], q);
            TaskClassed(t) && t.cls != Idle && t.onRq == r.tasks[p].onRq && t.cls == ClassFor(t.policy, t.prio)
  {}

  /** The same for a change of policy; a request that changes nothing leaves everything alone. */
  lemma SetSchedulerInv(r: Rq, p: nat, q: Request)
    requires Inv(r) && p < |r.tasks| && p != r.idle
    ensures Inv(SetScheduler(r, p, q)) && OnlyTask(r, SetScheduler(r, p, q), p)
    ensures Changes(r, p, q) ==> var t := SetScheduler(r, p, q).tasks[p]; t.cls == ClassFor(t.policy, t.prio)
  {
    assert r.tasks[p].cls != Idle && TaskClassed(r.tasks[p]);
    hide Target, Changes, Reclass, Queued, Counted, TaskClassed, ClassFor;
    if Changes(r, p, q) {
      TargetOk(r, p, q);
      ReclassInv(r, p, Target(r.tasks[p], q), false);
    }
  }

  /**
   What a task queued where it stands becomes after a change: out of its old place, at the asked-for end of the new.
   */
  lemma ReclassPlaces(r: Rq, p: nat, t: Task, head: bool, c: Class)
    requires Inv(r) && p < |r.tasks| && p != r.idle && t.cls != Idle
    ensures var (q, e) := (r.Queue(c), Reclass(r, p, t, head));
            if r.tasks[p].onRq && c == t.cls
            then e.Queue(c) == if head then [p] + Without(q, p) else Without(q, p) + [p]
            else e.Queue(c) == Without(q, p)
  {
    assert InQueue(r, p, c) <==> r.tasks[p].onRq && r.tasks[p].cls == c;
    assert InQueue(r, p, Ras) <==> r.tasks[p].onRq && r.tasks[p].cls == Ras;
    hide Queued, Counted, Classed;
  }

  /** A task whose priority falls goes to the head of its list, any other to the tail. */
  lemma SetPrioPlaces(r: Rq, p: nat, prio: int)
    requires Inv(r) && p < |r.tasks| && p != r.idle && r.tasks[p].onRq
    ensures var c := ClassFor(r.tasks[p].policy, prio);
            var q := Without(r.Queue(c), p);
            SetPrio(r, p, prio).Queue(c) == if r.tasks[p].prio < prio then [p] + q else q + [p]
  {
    var t := r.tasks[p];
    ReclassPlaces(r, p, t.(prio := prio, cls := ClassFor(t.policy, prio)), t.prio < prio, ClassFor(t.policy, prio));
  }

  // ---- what a request is granted ----

  /** The policy asked for. */
  function Asked(t: Task, q: Request): Policy { if q.policy.None? then t.policy else q.policy.value }

  /** The request makes sense: a known policy, with a priority from 1 to 99 exactly for a real-time one. */
  predicate MakesSense(t: Task, q: Request)
  {
    && q.policy != Some(Unknown)
    && if Asked(t, q) == Fifo || Asked(t, q) == Rr then 1 <= q.priority <= 99 else q.priority == 0
  }

  /** A request that would leave the policy, and a real-time priority, as they are. */
  predicate AsksNothing(t: Task, q: Request)
  {
    Asked(t, q) == t.policy && (RtPolicy(t.policy) ==> q.priority == t.rtPriority)
  }

  /** A real-time policy, unless it is the one the task has with its priority, needs a group that has runtime. */
  predicate MayRun(t: Task, q: Request) { RtPolicy(Asked(t, q)) && !AsksNothing(t, q) ==> q.groupAllows }

  /** Exactly which requests are granted, and why the others are not. */
  lemma GrantedIff(r: Rq, p: nat, q: Request)
    requires p < |r.tasks|
    ensures var t := r.tasks[p];
            && (Result(r, p, q) == 0 <==> MakesSense(t, q) && q.permitted && t.cls != Stop && MayRun(t, q))
            && (Result(r, p, q) == -EPERM <==> MakesSense(t, q) && (!q.permitted || (t.cls != Stop && !MayRun(t, q))))
            && (Result(r, p, q) == -EINVAL <==> !MakesSense(t, q) || (q.permitted && t.cls == Stop))
  {}

  /**
   A granted request leaves the task with the policy and the real-time priority asked for; its priority is that of the
   policy, or that of a waiter for one of its mutexes if that is more urgent.
   */
  lemma GrantedIsKept(r: Rq, p: nat, q: Request)
    requires Inv(r) && p < |r.tasks| && p != r.idle && Result(r, p, q) == 0
    ensures var (t, t') := (r.tasks[p], SetScheduler(r, p, q).tasks[p]);
            && t'.policy == Asked(t, q) && t'.staticPrio == t.staticPrio
            && (RtPolicy(t'.policy) ==> t'.rtPriority == q.priority && t'.normalPrio == 99 - q.priority)
            && (!RtPolicy(t'.policy) ==> t'.normalPrio == t.staticPrio)
            && (!AsksNothing(t, q) ==> t'.prio == if q.pi < t'.normalPrio then q.pi else t'.normalPrio)
            && (AsksNothing(t, q) ==> t' == t)
  {
    var t := r.tasks[p];
    assert TaskClassed(t) && t.cls != Idle;
    if Changes(r, p, q) {
      TargetOk(r, p, q);
      ReclassInv(r, p, Target(t, q), false);
    }
    hide Queued, Counted, Reclass;
  }

  /**
   The reset-on-fork flag asked for is taken over if and only if something else changes or the flag is set so
   already.
   */
  lemma ResetFlagTaken(r: Rq, p: nat, q: Request)
    requires Inv(r) && p < |r.tasks| && p != r.idle && Result(r, p, q) == 0 && q.policy.Some?
    ensures SetScheduler(r, p, q).tasks[p].resetOnFork == q.reset <==>
            !AsksNothing(r.tasks[p], q) || r.tasks[p].resetOnFork == q.reset
  {
    var t := r.tasks[p];
    assert TaskClassed(t) && t.cls != Idle;
    if Changes(r, p, q) {
      TargetOk(r, p, q);
      ReclassInv(r, p, Target(t, q), false);
    }
    hide Queued, Counted, Reclass;
  }

  /** A task that only asks for the flag does not get it. */
  lemma ResetFlagIgnored(r: Rq, p: nat, q: Request)
    requires p < |r.tasks| && r.tasks[p].policy == Normal && !r.tasks[p].resetOnFork && r.tasks[p].cls == Fair
    requires q.policy == Some(Normal) && q.priority == 0 && q.reset && q.permitted
    ensures Result(r, p, q) == 0 && !SetScheduler(r, p, q).tasks[p].resetOnFork
  {}

  // ---- forking, waking, sleeping ----

  /** sched_fork, on a copy of the parent. */
  function Child(parent: Task): Task
  {
    var t := parent.(onRq := false, prio := parent.normalPrio);
    var t1 :=
      if !t.resetOnFork then t
      else
        var u := if RtPolicy(t.policy) then t.(policy := Normal, staticPrio := DEFAULT_PRIO, rtPriority := 0)
                 else if t.staticPrio < DEFAULT_PRIO then t.(staticPrio := DEFAULT_PRIO) else t;
        u.(prio := u.staticPrio, normalPrio := u.staticPrio, resetOnFork := false);
    if RtPrio(t1.prio) then t1 else t1.(cls := Fair)
  }

  /** activate_task and on_rq = 1 */
  function Wake(r: Rq, p: nat): Rq
    requires p < |r.tasks|
  {
    Enqueue(r, p, false).(tasks := r.tasks[p := r.tasks[p].(onRq := true)])
  }

  /** What the rt and fair classes would run: rt may have nothing to run although tasks are queued, when throttled. */
  datatype Picks = Picks(rt: Option<nat>, fair: Option<nat>)

  ghost predicate PicksOk(r: Rq, k: Picks)
  {
    && (k.rt.Some? ==> k.rt.value in r.rt)
    && (k.fair.Some? ==> k.fair.value in r.fair) && (k.fair.None? ==> r.fair == [])
  }

  /** The scan over all classes from stop to idle. */
  function Scan(r: Rq, k: Picks): nat
  {
    if r.stop != [] then r.stop[0]
    else if k.rt.Some? then k.rt.value
    else if r.rasNr != 0 && r.ras != [] then r.ras[0]
    else if k.fair.Some? then k.fair.value
    else r.idle
  }

  /** pick_next_task */
  function PickNext(r: Rq, k: Picks): nat
  {
    if r.nr == r.hNr && k.fair.Some? then k.fair.value else Scan(r, k)
  }

  /** __schedule */
  function Schedule(r: Rq, sleeps: bool, k: Picks): Rq
    requires r.curr < |r.tasks|
  {
    var r1 := if sleeps then Dequeue(r, r.curr).(tasks := r.tasks[r.curr := r.tasks[r.curr].(onRq := false)]) else r;
    var r2 := PutPrev(r1, r.curr);
    r2.(curr := PickNext(r2, k))
  }

  /** The fair-only shortcut runs the task that the scan over all classes would have found. */
  lemma FastPathAgrees(r: Rq, k: Picks)
    requires Counted(r) && PicksOk(r, k)
    ensures PickNext(r, k) == Scan(r, k)
    ensures PickNext(r, k) in r.stop + r.rt + r.ras + r.fair + [r.idle]
  {}

  /** Classes from the most to the least urgent. */
  function Rank(c: Class): nat {
    match c case Stop => 0 case Rt => 1 case Ras => 2 case Fair => 3 case Idle => 4
  }

  /**
   No queued task is in a higher class than the one that is picked, except real-time tasks that the real-time class does
   not offer because it is throttled; and of the RAS class the first in line is picked.
   */
  lemma PickIsHighest(r: Rq, k: Picks, x: nat)
    requires Inv(r) && PicksOk(r, k) && x < |r.tasks| && r.tasks[x].onRq
    ensures PickNext(r, k) < |r.tasks|
    ensures var c := r.tasks[PickNext(r, k)].cls;
            && (Rank(c) <= Rank(r.tasks[x].cls) || (r.tasks[x].cls == Rt && k.rt.None?))
            && (c == Ras ==> r.ras != [] && PickNext(r, k) == r.ras[0])
            && (c == Stop ==> r.stop != [] && PickNext(r, k) == r.stop[0])
            && (c == Rt ==> k.rt == Some(PickNext(r, k))) && (c == Fair ==> k.fair == Some(PickNext(r, k)))
  {
    var p := PickNext(r, k);
    FastPathAgrees(r, k);
    assert InQueue(r, x, r.tasks[x].cls);
    forall c ensures InQueue(r, p, c) ==> p < |r.tasks| && r.tasks[p].onRq && r.tasks[p].cls == c {}
    assert r.stop != [] ==> InQueue(r, r.stop[0], Stop);
    assert r.ras != [] ==> InQueue(r, r.ras[0], Ras);
    assert k.rt.Some? ==> InQueue(r, k.rt.value, Rt);
    assert k.fair.Some? ==> InQueue(r, k.fair.value, Fair);
    hide Queued, Counted;
  }

  /** The forked child is in the class of its policy except under SCHED_RAS, where it starts in the fair class. */
  lemma ForkClass(parent: Task)
    requires TaskClassed(parent) && parent.cls != Idle && parent.cls != Stop
    ensures var t := Child(parent); TaskClassed(t) && (t.cls == ClassFor(t.policy, t.prio) <==> t.policy != RasPolicy)
    ensures Child(parent).policy == RasPolicy ==> ForkedRas(Child(parent))
  {}

  /**
   A child never inherits a boost. Asked to reset, it has a policy that is not real-time and no better than the default
   nice value, and will not reset its own children; otherwise it is like its parent.
   */
  lemma ForkResets(parent: Task)
    ensures var t := Child(parent);
            if parent.resetOnFork then
              && t.policy == (if RtPolicy(parent.policy) then Normal else parent.policy)
              && (RtPolicy(parent.policy) ==> t.rtPriority == 0 && t.staticPrio == DEFAULT_PRIO)
              && (!RtPolicy(parent.policy) ==>
                    t.rtPriority == parent.rtPriority &&
                    t.staticPrio == if parent.staticPrio < DEFAULT_PRIO then DEFAULT_PRIO else parent.staticPrio)
              && t.prio == t.normalPrio == t.staticPrio >= DEFAULT_PRIO && !t.resetOnFork
            else
              t == parent.(onRq := false, prio := parent.normalPrio, cls := t.cls)
    ensures Child(parent).cls == if RtPrio(Child(parent).prio) then parent.cls else Fair
  {}

  /** Asking for SCHED_RAS again does not move such a child: the policy is unchanged, so nothing is done. */
  lemma ForkedRasStays(r: Rq, p: nat, q: Request)
    requires p < |r.tasks| && ForkedRas(r.tasks[p])
    requires q.policy == Some(RasPolicy) && q.priority == 0 && q.permitted
    ensures Result(r, p, q) == 0 && SetScheduler(r, p, q) == r
  {}

  lemma WakeInv(r: Rq, p: nat)
    requires Inv(r) && p < |r.tasks| && p != r.idle && !r.tasks[p].onRq
    ensures Inv(Wake(r, p)) && Wake(r, p).nr == r.nr + 1 && Wake(r, p).tasks == r.tasks[p := r.tasks[p].(onRq := true)]
  {
    var t := r.tasks[p].(onRq := true);
    EnqueueInv(r, p, false, t);
    var r1 := r.(tasks := r.tasks[p := t]);
    assert Enqueue(r1, p, false) == Wake(r, p);
    hide Queued, Counted;
  }

  lemma SleepInv(r: Rq)
    requires Inv(r) && r.tasks[r.curr].onRq
    ensures var r1 := Dequeue(r, r.curr).(tasks := r.tasks[r.curr := r.tasks[r.curr].(onRq := false)]);
            Inv(r1) && r1.nr == r.nr - 1
  {
    DequeueInv(r, r.curr, r.tasks[r.curr].(onRq := false));
    hide Queued, Counted;
  }

  lemma ScheduleInv(r: Rq, sleeps: bool, k: Picks)
    requires Inv(r) && (sleeps ==> r.tasks[r.curr].onRq)
    ensures PicksOk(if sleeps then Dequeue(r, r.curr) else r, k) ==> Inv(Schedule(r, sleeps, k))
  {
    if sleeps {
      SleepInv(r);
    }
    var r1 := if sleeps then Dequeue(r, r.curr).(tasks := r.tasks[r.curr := r.tasks[r.curr].(onRq := false)]) else r;
    PutPrevInv(r1, r.curr);
    var r2 := PutPrev(r1, r.curr);
    assert r2.rt == r1.rt && r2.fair == r1.fair && r2.tasks == r1.tasks && r2.idle == r1.idle;
    if PicksOk(r1, k) {
      hide Queued, Counted, PutPrev;
      PickedExists(r2, k);
      CurrChanged(r2, PickNext(r2, k));
    }
  }

  lemma CurrChanged(r: Rq, n: nat)
    ensures Queued(r) ==> Queued(r.(curr := n))
    ensures Counted(r) ==> Counted(r.(curr := n))
  {
    assert forall x: nat, c :: InQueue(r.(curr := n), x, c) <==> InQueue(r, x, c);
  }

  lemma PickedExists(r: Rq, k: Picks)
    requires Queued(r) && Counted(r) && PicksOk(r, k) && r.idle < |r.tasks|
    ensures PickNext(r, k) < |r.tasks|
  {
    FastPathAgrees(r, k);
    var n := PickNext(r, k);
    assert InQueue(r, n, Stop) || InQueue(r, n, Rt) || InQueue(r, n, Ras) || InQueue(r, n, Fair) || n == r.idle;
  }

  lemma ForkInv(r: Rq)
    requires Inv(r) && r.tasks[r.curr].cls != Idle && r.tasks[r.curr].cls != Stop
    ensures Inv(r.(tasks := r.tasks + [Child(r.tasks[r.curr])]))
  {
    ForkClass(r.tasks[r.curr]);
    var e := r.(tasks := r.tasks + [Child(r.tasks[r.curr])]);
    assert forall x: nat, c :: InQueue(e, x, c) <==> InQueue(r, x, c);
  }

  /**
   One reschedule: a task that sleeps is off its queue, a RAS task that goes on is last on its own, no other queue
   changes; then the task runs that PickIsHighest describes.
   */
  lemma ScheduleSwitches(r: Rq, sleeps: bool, k: Picks, x: nat, c: Class)
    requires Inv(r) && (sleeps ==> r.tasks[r.curr].onRq)
    requires PicksOk(if sleeps then Dequeue(r, r.curr) else r, k)
    ensures var (r', t) := (Schedule(r, sleeps, k), r.tasks[r.curr]);
            && r'.tasks == (if sleeps then r.tasks[r.curr := t.(onRq := false)] else r.tasks)
            && r'.Queue(c) == (if sleeps then Without(r.Queue(c), r.curr)
                               else if c == Ras && r.curr in r.ras then Without(r.ras, r.curr) + [r.curr]
                                   else r.Queue(c))
            && r'.curr < |r'.tasks|
            && (x < |r'.tasks| && r'.tasks[x].onRq ==>
                  Rank(r'.tasks[r'.curr].cls) <= Rank(r'.tasks[x].cls) || (r'.tasks[x].cls == Rt && k.rt.None?))
  {
    ScheduleInv(r, sleeps, k);
    var r2 := Prepared(r, sleeps);
    PreparedOk(r, sleeps, k);
    PreparedQueues(r, sleeps, c);
    hide Inv, PicksOk, PickNext, Prepared;
    PickedExists(r2, k);
    if x < |r2.tasks| && r2.tasks[x].onRq {
      PickIsHighest(r2, k, x);
    }
  }

  /** What __schedule does before it picks. */
  function Prepared(r: Rq, sleeps: bool): Rq
    requires r.curr < |r.tasks|
  {
    PutPrev(if sleeps then Dequeue(r, r.curr).(tasks := r.tasks[r.curr := r.tasks[r.curr].(onRq := false)])
        else r, r.curr)
  }

  lemma PreparedOk(r: Rq, sleeps: bool, k: Picks)
    requires Inv(r) && (sleeps ==> r.tasks[r.curr].onRq)
    requires PicksOk(if sleeps then Dequeue(r, r.curr) else r, k)
    ensures Inv(Prepared(r, sleeps)) && PicksOk(Prepared(r, sleeps), k)
    ensures Schedule(r, sleeps, k) == Prepared(r, sleeps).(curr := PickNext(Prepared(r, sleeps), k))
    ensures Prepared(r, sleeps).tasks ==
            if sleeps then r.tasks[r.curr := r.tasks[r.curr].(onRq := false)] else r.tasks
  {
    var r1 := if sleeps then Dequeue(r, r.curr).(tasks := r.tasks[r.curr := r.tasks[r.curr].(onRq := false)]) else r;
    if sleeps { SleepInv(r); }
    PutPrevInv(r1, r.curr);
    hide Queued, Counted, Classed;
  }

  lemma PreparedQueues(r: Rq, sleeps: bool, c: Class)
    requires Inv(r) && (sleeps ==> r.tasks[r.curr].onRq)
    ensures Prepared(r, sleeps).Queue(c) ==
            if sleeps then Without(r.Queue(c), r.curr)
            else if c == Ras && r.curr in r.ras then Without(r.ras, r.curr) + [r.curr] else r.Queue(c)
  {
    assert InQueue(r, r.curr, c) <==> r.tasks[r.curr].onRq && r.tasks[r.curr].cls == c;
    assert InQueue(r, r.curr, Ras) <==> r.tasks[r.curr].onRq && r.tasks[r.curr].cls == Ras;
    hide Queued, Counted, Classed;
  }

  datatype Step =
    | DoWake(p: nat)
    | DoSchedule(sleeps: bool, picks: Picks)
    | DoFork
    | DoSetScheduler(p: nat, request: Request)
    | DoSetPrio(p: nat, prio: int)

  ghost predicate Enabled(r: Rq, step: Step)
  {
    match step
    case DoWake(p) => p < |r.tasks| && p != r.idle && !r.tasks[p].onRq
    case DoSchedule(sleeps, k) =>
      r.curr < |r.tasks| && (sleeps ==> r.tasks[r.curr].onRq) && PicksOk(if sleeps then Dequeue(r, r.curr) else r, k)
    case DoFork => r.curr < |r.tasks| && r.tasks[r.curr].cls != Idle && r.tasks[r.curr].cls != Stop
    case DoSetScheduler(p, _) => p < |r.tasks| && p != r.idle
    case DoSetPrio(p, prio) => p < |r.tasks| && prio <= r.tasks[p].normalPrio
  }

  function Next(r: Rq, step: Step): Rq
    requires Enabled(r, step)
  {
    match step
    case DoWake(p) => Wake(r, p)
    case DoSchedule(sleeps, k) => Schedule(r, sleeps, k)
    case DoFork => r.(tasks := r.tasks + [Child(r.tasks[r.curr])])
    case DoSetScheduler(p, q) => SetScheduler(r, p, q)
    case DoSetPrio(p, prio) => SetPrio(r, p, prio)
  }

  lemma NextInv(r: Rq, step: Step)
    requires Inv(r) && Enabled(r, step)
    ensures Inv(Next(r, step))
  {
    match step
    case DoWake(p) => WakeInv(r, p);
    case DoSchedule(sleeps, k) => ScheduleInv(r, sleeps, k);
    case DoFork => ForkInv(r);
    case DoSetScheduler(p, q) => SetSchedulerInv(r, p, q);
    case DoSetPrio(p, prio) => SetPrioInv(r, p, prio);
  }

  ghost predicate Reached(r: Rq, steps: seq<Step>, e: Rq)
    decreases |steps|
  {
    if steps == [] then e == r else Enabled(r, steps[0]) && Reached(Next(r, steps[0]), steps[1..], e)
  }

  lemma {:induction false} ReachedInv(r: Rq, steps: seq<Step>, e: Rq)
    requires Inv(r) && Reached(r, steps, e)
    ensures Inv(e)
    decreases |steps|
  {
    if steps != [] {
      NextInv(r, steps[0]);
      ReachedInv(Next(r, steps[0]), steps[1..], e);
    }
  }

  /** The runnable tasks after a step: those woken that have not gone to sleep since. */
  function RunnableAfter(r: Rq, step: Step, runnable: set<nat>): set<nat>
  {
    match step
    case DoWake(p) => runnable + {p}
    case DoSchedule(sleeps, _) => if sleeps then runnable - {r.curr} else runnable
    case _ => runnable
  }

  ghost function RunnableAfterAll(r: Rq, steps: seq<Step>, runnable: set<nat>): set<nat>
    decreases |steps|
  {
    if steps == [] || !Enabled(r, steps[0]) then runnable
    else RunnableAfterAll(Next(r, steps[0]), steps[1..], RunnableAfter(r, steps[0], runnable))
  }

  function Forks(steps: seq<Step>): nat
  {
    if steps == [] then 0 else (if steps[0].DoFork? then 1 else 0) + Forks(steps[1..])
  }

  ghost predicate RunnableIs(r: Rq, runnable: set<nat>)
  {
    forall p: nat :: p in runnable <==> p < |r.tasks| && r.tasks[p].onRq
  }

  lemma StepRunnable(r: Rq, step: Step, runnable: set<nat>)
    requires Inv(r) && Enabled(r, step) && RunnableIs(r, runnable)
    ensures RunnableIs(Next(r, step), RunnableAfter(r, step, runnable))
    ensures |Next(r, step).tasks| == |r.tasks| + if step.DoFork? then 1 else 0
  {
    hide RunnableIs, Classed, Queued, Counted, PicksOk, Wake, Schedule, SetScheduler, SetPrio;
    match step
    case DoWake(p) =>
      WakeInv(r, p);
      RunnableUpdate(r, Next(r, step), runnable, p);
    case DoSchedule(sleeps, k) =>
      ScheduleSwitches(r, sleeps, k, 0, Fair);
      if sleeps { RunnableUpdate(r, Next(r, step), runnable, r.curr); }
      else { RunnableSame(r, Next(r, step), runnable); }
    case DoFork =>
      RunnableSame(r, Next(r, step), runnable);
    case DoSetScheduler(p, q) =>
      SetSchedulerInv(r, p, q);
      RunnableSame(r, Next(r, step), runnable);
    case DoSetPrio(p, prio) =>
      SetPrioInv(r, p, prio);
      RunnableSame(r, Next(r, step), runnable);
  }

  lemma RunnableSame(r: Rq, e: Rq, runnable: set<nat>)
    requires RunnableIs(r, runnable) && |r.tasks| <= |e.tasks|
    requires forall x :: 0 <= x < |e.tasks| ==> e.tasks[x].onRq == (x < |r.tasks| && r.tasks[x].onRq)
    ensures RunnableIs(e, runnable)
  {}

  lemma RunnableUpdate(r: Rq, e: Rq, runnable: set<nat>, p: nat)
    requires RunnableIs(r, runnable) && p < |r.tasks| == |e.tasks|
    requires forall x :: 0 <= x < |r.tasks| && x != p ==> e.tasks[x] == r.tasks[x]
    ensures RunnableIs(e, if e.tasks[p].onRq then runnable + {p} else runnable - {p})
  {}

  /**
   Over every run the tasks with on_rq are those woken that have not gone to sleep since, and every fork adds a task.
   */
  lemma {:induction false} RunnableTracked(r: Rq, steps: seq<Step>, e: Rq, runnable: set<nat>)
    requires Inv(r) && Reached(r, steps, e) && RunnableIs(r, runnable)
    ensures RunnableIs(e, RunnableAfterAll(r, steps, runnable)) && |e.tasks| == |r.tasks| + Forks(steps)
    decreases |steps|
  {
    hide Inv, Enabled, Next, RunnableIs, RunnableAfter;
    if steps != [] {
      NextInv(r, steps[0]);
      StepRunnable(r, steps[0], runnable);
      RunnableTracked(Next(r, steps[0]), steps[1..], e, RunnableAfter(r, steps[0], runnable));
    }
  }

  /** Before anything is runnable: task 0 idles. */
  function Asleep(tasks: seq<Task>): Rq { Rq(tasks, [], [], [], [], 0, 0, 0, 0, 0) }

  /**
   Through any sequence of wakeups, sleeps, forks and class changes no task is lost or queued twice: it is in the queue
   of its class exactly when it has on_rq, the class counts add up to nr_running, and the shortcut agrees with the full
   scan.
   */
  lemma TasksConserved(tasks: seq<Task>, steps: seq<Step>, r: Rq, p: nat, k: Picks)
    requires tasks != [] && forall i :: 0 <= i < |tasks| ==>
             TaskClassed(tasks[i]) && !tasks[i].onRq && (tasks[i].cls == Idle <==> i == 0)
    requires Reached(Asleep(tasks), steps, r) && p < |r.tasks|
    ensures forall c :: InQueue(r, p, c) <==> r.tasks[p].onRq && r.tasks[p].cls == c
    ensures NoDup(r.stop) && NoDup(r.rt) && NoDup(r.ras) && NoDup(r.fair)
    ensures r.rasNr == |r.ras| && r.hNr == |r.fair| && r.nr == |r.stop| + |r.rt| + |r.ras| + |r.fair|
    ensures PicksOk(r, k) ==> PickNext(r, k) == Scan(r, k)
  {
    assert Inv(Asleep(tasks));
    ReachedInv(Asleep(tasks), steps, r);
    if PicksOk(r, k) {
      FastPathAgrees(r, k);
    }
  }

  /** struct rq, as far as the scheduler core sees it. */
  class ClassRunqueue {
    var tasks: seq<Task>
    var stop: seq<nat>
    var rt: seq<nat>
    var ras: seq<nat>
    var fair: seq<nat>
    var rasNrRunning: int
    var hNrRunning: int
    var nrRunning: int
    var curr: nat
    const idle: nat

    function Value(): Rq
      reads this
    {
      Rq(tasks, stop, rt, ras, fair, rasNrRunning, hNrRunning, nrRunning, curr, idle)
    }

    constructor (tasks: seq<Task>)
      requires tasks != []
      ensures Value() == Asleep(tasks)
    {
      this.tasks := tasks;
      stop, rt, ras, fair := [], [], [], [];
      rasNrRunning, hNrRunning, nrRunning, curr, idle := 0, 0, 0, 0, 0;
    }

    method EnqueueTask(p: nat, head: bool)
      requires p < |tasks| && tasks[p].cls != Idle
      modifies this
      ensures Value() == Enqueue(old(Value()), p, head)
    {
      match tasks[p].cls {
        case Stop => stop := if head then [p] + stop else stop + [p];
        case Rt => rt := if head then [p] + rt else rt + [p];
        case Ras =>
          ras := if head then [p] + ras else ras + [p];
          rasNrRunning := rasNrRunning + 1;
        case Fair =>
          fair := if head then [p] + fair else fair + [p];
          hNrRunning := hNrRunning + 1;
        case Idle =>
      }
      nrRunning := nrRunning + 1;
    }

    method DequeueTask(p: nat)
      requires p < |tasks| && tasks[p].cls != Idle
      modifies this
      ensures Value() == Dequeue(old(Value()), p)
    {
      match tasks[p].cls {
        case Stop => stop := Without(stop, p);
        case Rt => rt := Without(rt, p);
        case Ras =>
          if p in ras {
            ras := Without(ras, p);
            rasNrRunning := rasNrRunning - 1;
          }
        case Fair =>
          fair := Without(fair, p);
          hNrRunning := hNrRunning - 1;
        case Idle =>
      }
      nrRunning := nrRunning - 1;
    }

    method PutPrevTask(p: nat)
      requires p < |tasks|
      modifies this
      ensures Value() == PutPrev(old(Value()), p)
    {
      if tasks[p].cls == Ras && p in ras {
        ras := Without(ras, p) + [p];
      }
    }

    /** The frame of the two class-changing functions. */
    method ChangeTask(p: nat, t: Task, head: bool)
      requires Inv(Value()) && p < |tasks| && p != idle && TaskClassed(t) && t.cls != Idle && t.onRq == tasks[p].onRq
      modifies this
      ensures Value() == Reclass(old(Value()), p, t, head) && Inv(Value())
    {
      ReclassInv(Value(), p, t, head);
      var onRq, running := tasks[p].onRq, p == curr;
      if onRq {
        DequeueTask(p);
      }
      hide Queued, Classed, TaskClassed;
      if running {
        PutPrevInv(Value(), p);
        PutPrevTask(p);
      }
      tasks := tasks[p := t];
      if onRq {
        EnqueueTask(p, head);
      }
    }

    method RtMutexSetprio(p: nat, prio: int)
      requires Inv(Value()) && p < |tasks| && prio <= tasks[p].normalPrio
      modifies this
      ensures Value() == SetPrio(old(Value()), p, prio) && Inv(Value())
    {
      SetPrioInv(Value(), p, prio);
      if p == idle {
        return;
      }
      var oldprio := tasks[p].prio;
      var cls := if tasks[p].policy == RasPolicy then Ras else if RtPrio(prio) then Rt else Fair;
      ChangeTask(p, tasks[p].(cls := cls, prio := prio), oldprio < prio);
    }

    method SchedSetscheduler(p: nat, q: Request) returns (retval: int)
      requires Inv(Value()) && p < |tasks| && p != idle
      modifies this
      ensures retval == Result(old(Value()), p, q)
      ensures Value() == SetScheduler(old(Value()), p, q) && Inv(Value())
    {
      SetSchedulerInv(Value(), p, q);
      hide Queued, Counted;
      var t := tasks[p];
      var policy, reset := t.policy, t.resetOnFork;
      if q.policy.Some? {
        policy, reset := q.policy.value, q.reset;
        if policy == Unknown {
          return -EINVAL;
        }
      }
      if q.priority < 0 || (t.hasMm && q.priority > MAX_USER_RT_PRIO - 1) ||
          (!t.hasMm && q.priority > MAX_RT_PRIO - 1) {
        return -EINVAL;
      }
      if RtPolicy(policy) != (q.priority != 0) {
        return -EINVAL;
      }
      if !q.permitted {
        return -EPERM;
      }
      if t.cls == Stop {
        return -EINVAL;
      }
      if policy == t.policy && (!RtPolicy(policy) || q.priority == t.rtPriority) {
        return 0;
      }
      if RtPolicy(policy) && !q.groupAllows {
        return -EPERM;
      }
      TargetOk(Value(), p, q);
      ChangeTask(p, Rescheduled(t, policy, q.priority, reset, q.pi), false);
      return 0;
    }

    method PickNextTask(k: Picks) returns (p: nat)
      requires Counted(Value()) && PicksOk(Value(), k)
      ensures p == PickNext(Value(), k) == Scan(Value(), k)
    {
      FastPathAgrees(Value(), k);
      if nrRunning == hNrRunning && k.fair.Some? {
        return k.fair.value;
      }
      if stop != [] {
        return stop[0];
      }
      if k.rt.Some? {
        return k.rt.value;
      }
      if rasNrRunning != 0 {
        return ras[0];
      }
      if k.fair.Some? {
        return k.fair.value;
      }
      return idle;
    }

    method WakeTask(p: nat)
      requires Inv(Value()) && p < |tasks| && p != idle && !tasks[p].onRq
      modifies this
      ensures Value() == Wake(old(Value()), p) && Inv(Value())
    {
      WakeInv(Value(), p);
      EnqueueTask(p, false);
      tasks := tasks[p := tasks[p].(onRq := true)];
    }

    /** deactivate_task and on_rq = 0, for the running task */
    method Deactivate()
      requires Inv(Value()) && tasks[curr].onRq
      modifies this
      ensures Value() == old(Dequeue(Value(), curr).(tasks := tasks[curr := tasks[curr].(onRq := false)]))
      ensures Inv(Value())
    {
      SleepInv(Value());
      hide Counted;
      DequeueTask(curr);
      tasks := tasks[curr := tasks[curr].(onRq := false)];
    }

    method ScheduleTask(sleeps: bool, k: Picks)
      requires Inv(Value()) && (sleeps ==> tasks[curr].onRq)
      requires PicksOk(if sleeps then Dequeue(Value(), curr) else Value(), k)
      modifies this
      ensures Value() == Schedule(old(Value()), sleeps, k) && Inv(Value())
    {
      ScheduleInv(Value(), sleeps, k);
      hide Queued, Classed;
      if sleeps {
        Deactivate();
      }
      PutPrevInv(Value(), curr);
      PutPrevTask(curr);
      curr := PickNextTask(k);
    }

    method SchedFork() returns (child: nat)
      requires Inv(Value()) && tasks[curr].cls != Idle && tasks[curr].cls != Stop
      modifies this`tasks
      ensures child == |old(tasks)| && tasks == old(tasks) + [Child(old(tasks[curr]))] && Inv(Value())
    {
      ForkInv(Value());
      var p := tasks[curr].(onRq := false, prio := tasks[curr].normalPrio);
      if p.resetOnFork {
        if RtPolicy(p.policy) {
          p := p.(policy := Normal, staticPrio := DEFAULT_PRIO, rtPriority := 0);
        } else if p.staticPrio < DEFAULT_PRIO {
          p := p.(staticPrio := DEFAULT_PRIO);
        }
        p := p.(prio := p.staticPrio, normalPrio := p.staticPrio, resetOnFork := false);
      }
      if !RtPrio(p.prio) {
        p := p.(cls := Fair);
      }
      child := |tasks|;
      tasks := tasks + [p];
    }
  }
}
