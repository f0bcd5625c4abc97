/**
 Runs of the real-time class on one CPU: enqueue, dequeue, throttle, replenish and yield
 steps over the group tree, and the task picked in every state they can reach.
 */
module RtScheduling {
  import opened Common
  import opened ListOps
  import opened RtPrioArray
  import opened RtHierarchy

  // ---- enqueue and dequeue as a whole ----

  /** Every group off the path of e is where it should be. */
  ghost predicate PlacedOffPath(t: Topology, s: State, e: Id)
    requires WellFormed(t) && Typed(t, s) && t.Entity(e)
  {
    forall g :: g in t.groups && g != ROOT && g !in Path(t, e) ==> Placed(t, s, g)
  }

  /** The same tasks are queued, except possibly e. */
  ghost predicate SameTasksBut(t: Topology, s: State, s': State, e: Id) {
    forall x :: t.Task(x) && x != e ==> (x in s'.linked <==> x in s.linked)
  }

  /** What is off the path stays placed, and no task but e is touched. */
  lemma FrameKeeps(t: Topology, s: State, s1: State, s2: State, e: Id)
    requires WellFormed(t) && Typed(t, s) && Typed(t, s1) && Typed(t, s2) && t.Entity(e)
    requires PathFrame(t, s, s1, e) && PathFrame(t, s1, s2, e) && PlacedOffPath(t, s, e)
    ensures PathFrame(t, s, s2, e) && PlacedOffPath(t, s2, e) && SameTasksBut(t, s, s2, e)
  {
    hide Shape;
    forall g | g in t.groups && g != ROOT && g !in Path(t, e)
      ensures Placed(t, s2, g)
    {
      assert Placed(t, s, g);
    }
  }

  lemma EnqueueInv(t: Topology, s: State, e: Id, head: bool)
    requires Locals(t, s) && t.Entity(e) && PlacedOffPath(t, s, e)
    ensures Inv(t, Enqueue(t, s, e, head))
    ensures t.Task(e) ==> e in Enqueue(t, s, e, head).linked
    ensures SameTasksBut(t, s, Enqueue(t, s, e, head), e)
    ensures PathFrame(t, s, Enqueue(t, s, e, head), e)
  {
    hide Residents, Home, RqOk, Shape, DequeueStack, EnqueueUp, PathFrame, Placed, SameTasksBut;
    var s1 := DequeueStack(t, s, e);
    DequeueStackOk(t, s, e);
    DequeueStackFrame(t, s, e);
    EnqueueUpOk(t, s1, e, head);
    EnqueueUpFrame(t, s1, e, head);
    FrameKeeps(t, s, s1, EnqueueUp(t, s1, e, head), e);
  }

  /** The re-enqueue half of dequeue_rt_entity. */
  lemma ReEnqueueOk(t: Topology, s: State, e: Id)
    requires Locals(t, s) && t.Task(e) && t.Up(e) != ROOT && s.linked !! Path(t, e)
    ensures Locals(t, EnqueueUp(t, s, t.Up(e), false))
    ensures PathFrame(t, s, EnqueueUp(t, s, t.Up(e), false), e)
    ensures e !in EnqueueUp(t, s, t.Up(e), false).linked
    ensures forall x :: x in Path(t, e) && x in t.groups ==> Placed(t, EnqueueUp(t, s, t.Up(e), false), x)
  {
    hide Residents, Home, RqOk, Shape, EnqueueUp;
    assert e !in Path(t, t.Up(e));
    EnqueueUpOk(t, s, t.Up(e), false);
    EnqueueUpFrame(t, s, t.Up(e), false);
    FrameCompose(t, s, s, EnqueueUp(t, s, t.Up(e), false), e);
  }

  lemma DequeueInv(t: Topology, s: State, e: Id)
    requires Locals(t, s) && t.Entity(e) && PlacedOffPath(t, s, e)
    ensures Inv(t, Dequeue(t, s, e))
    ensures t.Task(e) ==> e !in Dequeue(t, s, e).linked
    ensures SameTasksBut(t, s, Dequeue(t, s, e), e)
    ensures PathFrame(t, s, Dequeue(t, s, e), e)
  {
    hide Residents, Home, RqOk, Shape, DequeueStack, EnqueueUp, PathFrame, Placed, SameTasksBut;
    var s1 := DequeueStack(t, s, e);
    DequeueStackOk(t, s, e);
    DequeueStackFrame(t, s, e);
    var s2 := Dequeue(t, s, e);
    if e in t.groups {
      EnqueueUpOk(t, s1, e, false);
      EnqueueUpFrame(t, s1, e, false);
    } else if t.Up(e) != ROOT {
      ReEnqueueOk(t, s1, e);
    } else {
      PathFrameRefl(t, s1, e);
    }
    FrameKeeps(t, s, s1, s2, e);
  }

  lemma PathFrameRefl(t: Topology, s: State, e: Id)
    requires WellFormed(t) && Typed(t, s) && t.Entity(e)
    ensures PathFrame(t, s, s, e)
  {
  }

  // ---- yield ----

  /** requeue_rt_entity */
  function RequeueSe(t: Topology, s: State, e: Id, head: bool): (s': State)
    requires WellFormed(t) && Typed(t, s) && t.Entity(e)
    ensures Typed(t, s')
  {
    if e in s.linked && RtPrio(SePrio(t, s, e))
    then s.(rqs := s.rqs[t.Up(e) := Requeue(s.rqs[t.Up(e)], e, SePrio(t, s, e), head)])
    else s
  }

  /** requeue_task_rt: rotate every entity on the path within its queue. */
  function RequeueUp(t: Topology, s: State, e: Id, head: bool): (s': State)
    requires WellFormed(t) && Typed(t, s) && t.Entity(e)
    ensures Typed(t, s')
    decreases t.Rank(ROOT) - t.Rank(e)
  {
    var s1 := RequeueSe(t, s, e, head);
    if t.Up(e) == ROOT then s1 else RequeueUp(t, s1, t.Up(e), head)
  }

  /** Same links, priorities, counts and throttling; queues differ at most in order. */
  ghost predicate OnlyOrder(t: Topology, s: State, s': State)
    requires Typed(t, s) && Typed(t, s')
  {
    && s'.prio == s.prio && s'.linked == s.linked
    && forall g :: g in t.groups ==>
         s'.rqs[g].throttled == s.rqs[g].throttled && s'.rqs[g].nrRunning == s.rqs[g].nrRunning &&
         s'.rqs[g].highest == s.rqs[g].highest && s'.rqs[g].bitmap == s.rqs[g].bitmap
  }

  lemma RequeueSeOk(t: Topology, s: State, e: Id, head: bool)
    requires Locals(t, s) && t.Entity(e)
    ensures Locals(t, RequeueSe(t, s, e, head)) && OnlyOrder(t, s, RequeueSe(t, s, e, head))
  {
    if e in s.linked {
      assert Home(t, s, e);
      var g, p := t.Up(e), SePrio(t, s, e);
      var s' := RequeueSe(t, s, e, head);
      Apart(t, s, g);
      RequeueRqOk(s.rqs[g], e, p, head);
      RequeueLinkage(t, s, s', g);
    }
  }

  lemma RequeueRqOk(r: RtRq, e: Id, p: int, head: bool)
    requires RqOk(r) && OnceEach(r) && 0 <= p < MAX_RT_PRIO && e in r.queue[p]
    ensures RqOk(Requeue(r, e, p, head))
    ensures forall i, x :: 0 <= i < MAX_RT_PRIO ==> (x in Requeue(r, e, p, head).queue[i] <==> x in r.queue[i])
  {
    RequeueAgrees(r, e, p, head);
  }

  lemma RequeueLinkage(t: Topology, s: State, s': State, g: Id)
    requires Linkage(t, s) && Typed(t, s') && g in t.groups && OnlyAt(t, s, s', g) && OnlyOrder(t, s, s')
    requires forall i, x :: 0 <= i < MAX_RT_PRIO ==> (x in s'.rqs[g].queue[i] <==> x in s.rqs[g].queue[i])
    ensures Linkage(t, s')
  {
    assert Residents(t, s, g);
    forall i, x | 0 <= i < MAX_RT_PRIO && x in s'.rqs[g].queue[i]
      ensures x in s'.linked && t.Entity(x) && t.Up(x) == g && SePrio(t, s', x) == i
    {
      assert x in s.rqs[g].queue[i];
      assert t.Up(x) == g && x in s.linked;
    }
    forall x | x in s'.linked && t.Up(x) == g
      ensures Home(t, s', x)
    {
      assert Home(t, s, x);
    }
    LinkageUpdate(t, s, s', g);
  }

  lemma {:induction false} RequeueUpOk(t: Topology, s: State, e: Id, head: bool)
    requires Locals(t, s) && t.Entity(e)
    ensures Locals(t, RequeueUp(t, s, e, head)) && OnlyOrder(t, s, RequeueUp(t, s, e, head))
    decreases t.Rank(ROOT) - t.Rank(e)
  {
    hide Residents, Home, RqOk, Shape;
    RequeueSeOk(t, s, e, head);
    if t.Up(e) != ROOT {
      RequeueUpOk(t, RequeueSe(t, s, e, head), t.Up(e), head);
    }
  }

  // ---- throttling ----

  function SetThrottled(t: Topology, s: State, g: Id, on: bool): (s': State)
    requires Typed(t, s) && g in t.groups
    ensures Typed(t, s')
  {
    s.(rqs := s.rqs[g := s.rqs[g].(throttled := on)])
  }

  lemma SetThrottledOk(t: Topology, s: State, g: Id, on: bool)
    requires Inv(t, s) && g in t.groups
    ensures Locals(t, SetThrottled(t, s, g, on))
    ensures forall h :: h in t.groups && h != ROOT && h != g ==> Placed(t, SetThrottled(t, s, g, on), h)
    ensures g == ROOT ==> Inv(t, SetThrottled(t, s, g, on))
  {
    var s' := SetThrottled(t, s, g, on);
    SetThrottledLinkage(t, s, s', g);
    forall h | h in t.groups && h != ROOT && h != g
      ensures Placed(t, s', h)
    {
      assert Placed(t, s, h);
    }
  }

  lemma SetThrottledLinkage(t: Topology, s: State, s': State, g: Id)
    requires Linkage(t, s) && Typed(t, s') && g in t.groups && OnlyAt(t, s, s', g)
    requires s'.linked == s.linked && s'.rqs[g].highest == s.rqs[g].highest && s'.rqs[g].queue == s.rqs[g].queue
    ensures Linkage(t, s')
  {
    assert Residents(t, s, g);
    forall i, x | 0 <= i < MAX_RT_PRIO && x in s'.rqs[g].queue[i]
      ensures x in s'.linked && t.Entity(x) && t.Up(x) == g && SePrio(t, s', x) == i
    {
      assert t.Up(x) == g && x in s.linked;
    }
    forall x | x in s'.linked && t.Up(x) == g
      ensures Home(t, s', x)
    {
      assert Home(t, s, x);
    }
    LinkageUpdate(t, s, s', g);
  }

  /** The throttling branch of sched_rt_runtime_exceeded, with sched_rt_rq_dequeue. */
  function Throttle(t: Topology, s: State, g: Id): (s': State)
    requires WellFormed(t) && Typed(t, s) && g in t.groups
    ensures Typed(t, s')
  {
    if s.rqs[g].throttled then s
    else
      var s1 := SetThrottled(t, s, g, true);
      if g != ROOT && g in s1.linked then Dequeue(t, s1, g) else s1
  }

  /** sched_rt_rq_enqueue */
  function SchedRtRqEnqueue(t: Topology, s: State, g: Id): (s': State)
    requires WellFormed(t) && Typed(t, s) && g in t.groups
    ensures Typed(t, s')
  {
    if s.rqs[g].nrRunning != 0 && g != ROOT && g !in s.linked then Enqueue(t, s, g, false) else s
  }

  /** do_sched_rt_period_timer when the replenished queue may run again. */
  function Unthrottle(t: Topology, s: State, g: Id): (s': State)
    requires WellFormed(t) && Typed(t, s) && g in t.groups
    ensures Typed(t, s')
  {
    SchedRtRqEnqueue(t, SetThrottled(t, s, g, false), g)
  }

  /** do_sched_rt_period_timer for a queue that owes no time. */
  function TimerPoke(t: Topology, s: State, g: Id): (s': State)
    requires WellFormed(t) && Typed(t, s) && g in t.groups
    ensures Typed(t, s')
  {
    if s.rqs[g].nrRunning != 0 && !s.rqs[g].throttled then SchedRtRqEnqueue(t, s, g) else s
  }

  lemma ThrottleInv(t: Topology, s: State, g: Id)
    requires Inv(t, s) && g in t.groups
    ensures Inv(t, Throttle(t, s, g)) && Throttle(t, s, g).rqs[g].throttled
    ensures SameTasksBut(t, s, Throttle(t, s, g), g)
    ensures forall h :: h in t.groups && h != g ==> Throttle(t, s, g).rqs[h].throttled == s.rqs[h].throttled
  {
    hide Residents, Home, RqOk, Shape;
    if !s.rqs[g].throttled {
      SetThrottledOk(t, s, g, true);
      var s1 := SetThrottled(t, s, g, true);
      if g != ROOT && g in s1.linked {
        DequeueInv(t, s1, g);
      }
    }
  }

  lemma UnthrottleInv(t: Topology, s: State, g: Id)
    requires Inv(t, s) && g in t.groups
    ensures Inv(t, Unthrottle(t, s, g)) && !Unthrottle(t, s, g).rqs[g].throttled
    ensures SameTasksBut(t, s, Unthrottle(t, s, g), g)
    ensures forall h :: h in t.groups && h != g ==> Unthrottle(t, s, g).rqs[h].throttled == s.rqs[h].throttled
  {
    hide Residents, Home, RqOk, Shape;
    SetThrottledOk(t, s, g, false);
    var s1 := SetThrottled(t, s, g, false);
    assert g != ROOT ==> Placed(t, s, g);
    if s1.rqs[g].nrRunning != 0 && g != ROOT && g !in s1.linked {
      EnqueueInv(t, s1, g, false);
    }
  }

  /** Under the invariant a queue that may run is already queued: the timer has nothing to repair. */
  lemma TimerPokeIsNoOp(t: Topology, s: State, g: Id)
    requires Inv(t, s) && g in t.groups
    ensures TimerPoke(t, s, g) == s
  {
    assert g != ROOT ==> Placed(t, s, g);
  }

  // ---- order within the queues ----

  /**
   The run queue of x afterwards: x is out of every list, but at the head or tail of the list of its new priority if it
   is linked; nothing else has moved.
   */
  ghost predicate Relinked(t: Topology, s: State, s': State, x: Id, head: bool)
    requires WellFormed(t) && Typed(t, s) && Typed(t, s') && t.Entity(x)
  {
    var q, q' := s.rqs[t.Up(x)].queue, s'.rqs[t.Up(x)].queue;
    forall i :: 0 <= i < MAX_RT_PRIO ==>
      q'[i] == if x in s'.linked && i == SePrio(t, s', x) then MovedToEnd(q[i], x, head) else Without(q[i], x)
  }

  /** The run queue of x without x. */
  ghost predicate TakenOff(t: Topology, s: State, s': State, x: Id)
    requires WellFormed(t) && Typed(t, s) && Typed(t, s') && t.Entity(x)
  {
    var q, q' := s.rqs[t.Up(x)].queue, s'.rqs[t.Up(x)].queue;
    forall i :: 0 <= i < MAX_RT_PRIO ==> q'[i] == Without(q[i], x)
  }

  /** Going up the path the run queues are all different. */
  lemma {:induction false} UpRises(t: Topology, e: Id, x: Id)
    requires WellFormed(t) && t.Entity(e) && x in Path(t, e)
    ensures x == e || (t.Up(e) != ROOT && x in Path(t, t.Up(e)))
    ensures t.Rank(t.Up(e)) <= t.Rank(t.Up(x)) && (x != e ==> t.Rank(t.Up(e)) < t.Rank(t.Up(x)))
    decreases t.Rank(ROOT) - t.Rank(e)
  {
    if x != e {
      assert t.Rank(x) < t.Rank(t.Up(x));
    }
  }

  lemma NotLinkedNotQueued(t: Topology, s: State, e: Id)
    requires Linkage(t, s) && t.Entity(e) && e !in s.linked
    ensures TakenOff(t, s, s, e)
  {
    assert Residents(t, s, t.Up(e));
  }

  lemma {:induction false} StackTakesOff(t: Topology, s: State, e: Id)
    requires Locals(t, s) && t.Entity(e)
    ensures forall x :: x in Path(t, e) ==> TakenOff(t, s, DequeueStack(t, s, e), x)
    decreases t.Rank(ROOT) - t.Rank(e)
  {
    hide Residents, Home, RqOk;
    var s1, s2 := s, DequeueStack(t, s, e);
    if t.Up(e) != ROOT {
      StackTakesOff(t, s, t.Up(e));
      DequeueStackOk(t, s, t.Up(e));
      DequeueStackFrame(t, s, t.Up(e));
      s1 := DequeueStack(t, s, t.Up(e));
    }
    assert s1.rqs[t.Up(e)] == s.rqs[t.Up(e)];
    OneTakenOff(t, s1, e);
    assert forall g :: g in t.groups && g != t.Up(e) ==> s2.rqs[g] == s1.rqs[g];
    assert TakenOff(t, s1, s2, e);
    hide Locals, DequeueStack, PathFrame, TakenOff;
    forall x | x in Path(t, e) ensures TakenOff(t, s, s2, x) {
      UpRises(t, e, x);
      TakenOffStep(t, s, s1, s2, e, x);
    }
  }

  lemma OneTakenOff(t: Topology, s: State, e: Id)
    requires Locals(t, s) && t.Entity(e)
    ensures TakenOff(t, s, if e in s.linked && RtPrio(SePrio(t, s, e)) then DelSe(t, s, e) else s, e)
  {
    if e in s.linked {
      assert Home(t, s, e);
    } else {
      NotLinkedNotQueued(t, s, e);
    }
  }

  lemma TakenOffStep(t: Topology, s: State, s1: State, s2: State, e: Id, x: Id)
    requires WellFormed(t) && Typed(t, s) && Typed(t, s1) && Typed(t, s2) && t.Entity(e) && t.Entity(x)
    requires forall g :: g in t.groups && g != t.Up(e) ==> s2.rqs[g] == s1.rqs[g]
    requires if x == e then s1.rqs[t.Up(e)] == s.rqs[t.Up(e)] && TakenOff(t, s1, s2, e)
             else t.Up(x) != t.Up(e) && TakenOff(t, s, s1, x)
    ensures TakenOff(t, s, s2, x)
  {}

  /** Linking the path again puts every entity of it that goes on at the asked-for end. */
  lemma {:induction false} EnqueueUpRelinks(t: Topology, s: State, e: Id, head: bool)
    requires Locals(t, s) && t.Entity(e) && s.linked !! Path(t, e)
    ensures forall x :: x in Path(t, e) ==> Relinked(t, s, EnqueueUp(t, s, e, head), x, head)
    decreases t.Rank(ROOT) - t.Rank(e)
  {
    hide Residents, Home, RqOk;
    var s1, s2 := TryEnqueue(t, s, e, head), EnqueueUp(t, s, e, head);
    RootUnlinked(t, s);
    TryEnqueueOk(t, s, e, head);
    OneRelinked(t, s, e, head);
    hide Locals, TryEnqueue, Relinked, Typed, Placed;
    if t.Up(e) != ROOT {
      assert s1.linked !! Path(t, t.Up(e));
      EnqueueUpRelinks(t, s1, t.Up(e), head);
      EnqueueUpFrame(t, s1, t.Up(e), head);
    }
    hide EnqueueUp, PathFrame;
    forall x | x in Path(t, e) ensures Relinked(t, s, s2, x, head) {
      UpRises(t, e, x);
      RelinkedStep(t, s, s1, s2, e, x, head);
    }
  }

  lemma OneRelinked(t: Topology, s: State, e: Id, head: bool)
    requires Locals(t, s) && t.Entity(e) && e !in s.linked
    ensures Relinked(t, s, TryEnqueue(t, s, e, head), e, head)
  {
    hide Residents, Home, RqOk;
    NotLinkedNotQueued(t, s, e);
  }

  lemma RelinkedStep(t: Topology, s: State, s1: State, s2: State, e: Id, x: Id, head: bool)
    requires WellFormed(t) && Typed(t, s) && Typed(t, s1) && Typed(t, s2) && t.Entity(e) && t.Entity(x)
    requires forall g :: g in t.groups && g != t.Up(e) ==> s1.rqs[g] == s.rqs[g]
    requires if x == e then Relinked(t, s, s1, e, head) && AboveFrame(t, s1, s2, e)
             else t.Up(x) != t.Up(e) && Relinked(t, s1, s2, x, head)
    ensures Relinked(t, s, s2, x, head)
  {
    hide Shape, MovedToEnd;
  }

  /** Enqueueing e moves e and the groups above it to the asked-for end of their lists, and nothing else. */
  lemma EnqueueRelinks(t: Topology, s: State, e: Id, head: bool)
    requires Locals(t, s) && t.Entity(e)
    ensures forall x :: x in Path(t, e) ==> Relinked(t, s, Enqueue(t, s, e, head), x, head)
  {
    hide Residents, Home, RqOk;
    var s1 := DequeueStack(t, s, e);
    DequeueStackOk(t, s, e);
    StackTakesOff(t, s, e);
    EnqueueUpRelinks(t, s1, e, head);
    hide Locals, TakenOff, Relinked, DequeueStack, EnqueueUp;
    forall x | x in Path(t, e) ensures Relinked(t, s, Enqueue(t, s, e, head), x, head) {
      RelinkedAfter(t, s, s1, Enqueue(t, s, e, head), x, head);
    }
  }

  lemma RelinkedAfter(t: Topology, s: State, s1: State, s2: State, x: Id, head: bool)
    requires WellFormed(t) && Typed(t, s) && Typed(t, s1) && Typed(t, s2) && t.Entity(x)
    requires TakenOff(t, s, s1, x) && Relinked(t, s1, s2, x, head)
    ensures Relinked(t, s, s2, x, head)
  {
    forall i | 0 <= i < MAX_RT_PRIO
      ensures Without(Without(s.rqs[t.Up(x)].queue[i], x), x) == Without(s.rqs[t.Up(x)].queue[i], x)
    {
      WithoutRelink(s.rqs[t.Up(x)].queue[i], x);
    }
  }

  /** Dequeueing e takes it off; groups above it that still hold something go to the tail, and nothing else moves. */
  lemma DequeueRelinks(t: Topology, s: State, e: Id)
    requires Locals(t, s) && t.Entity(e)
    ensures forall x :: x in Path(t, e) ==> Relinked(t, s, Dequeue(t, s, e), x, false)
  {
    hide Residents, Home, RqOk;
    var s1, s2 := DequeueStack(t, s, e), Dequeue(t, s, e);
    DequeueStackOk(t, s, e);
    StackTakesOff(t, s, e);
    if e in t.groups {
      EnqueueUpRelinks(t, s1, e, false);
    } else {
      NotLinkedNotQueued(t, s1, e);
      if t.Up(e) != ROOT {
        EnqueueUpRelinks(t, s1, t.Up(e), false);
        EnqueueUpFrame(t, s1, t.Up(e), false);
      }
      assert Relinked(t, s1, s2, e, false);
    }
    hide Locals, TakenOff, Relinked, DequeueStack, EnqueueUp;
    forall x | x in Path(t, e) ensures Relinked(t, s, s2, x, false) {
      UpRises(t, e, x);
      RelinkedAfter(t, s, s1, s2, x, false);
    }
  }

  lemma RelinkedFlag(t: Topology, s: State, s': State, g: Id, on: bool, x: Id)
    requires WellFormed(t) && Typed(t, s) && Typed(t, s') && g in t.groups && t.Entity(x)
    requires Relinked(t, SetThrottled(t, s, g, on), s', x, false)
    ensures Relinked(t, s, s', x, false)
  {
    hide Shape, MovedToEnd;
  }

  /** Throttling moves the path of a linked group likewise; otherwise no list changes. */
  lemma ThrottleRelinks(t: Topology, s: State, g: Id)
    requires Inv(t, s) && g in t.groups && g != ROOT
    ensures g in s.linked ==> forall x :: x in Path(t, g) ==> Relinked(t, s, Throttle(t, s, g), x, false)
    ensures g !in s.linked ==> forall h :: h in t.groups ==> Throttle(t, s, g).rqs[h].queue == s.rqs[h].queue
  {
    hide Residents, Home, RqOk, Shape, Dequeue, Relinked;
    if g in s.linked {
      assert Placed(t, s, g);
      SetThrottledOk(t, s, g, true);
      hide Placed, Locals;
      DequeueRelinks(t, SetThrottled(t, s, g, true), g);
      forall x | x in Path(t, g) ensures Relinked(t, s, Throttle(t, s, g), x, false) {
        RelinkedFlag(t, s, Throttle(t, s, g), g, true, x);
      }
    }
  }

  /** Releasing a group that has something to run puts its path in; otherwise no list changes. */
  lemma UnthrottleRelinks(t: Topology, s: State, g: Id)
    requires Inv(t, s) && g in t.groups && g != ROOT
    ensures s.rqs[g].nrRunning != 0 && g !in s.linked ==>
              forall x :: x in Path(t, g) ==> Relinked(t, s, Unthrottle(t, s, g), x, false)
    ensures s.rqs[g].nrRunning == 0 || g in s.linked ==>
              forall h :: h in t.groups ==> Unthrottle(t, s, g).rqs[h].queue == s.rqs[h].queue
  {
    hide Residents, Home, RqOk, Shape, Enqueue, Relinked, Placed;
    if s.rqs[g].nrRunning != 0 && g !in s.linked {
      SetThrottledOk(t, s, g, false);
      hide Locals;
      EnqueueRelinks(t, SetThrottled(t, s, g, false), g, false);
      forall x | x in Path(t, g) ensures Relinked(t, s, Unthrottle(t, s, g), x, false) {
        RelinkedFlag(t, s, Unthrottle(t, s, g), g, false, x);
      }
    }
  }

  /** A task enters at the head or at the tail of its queue, whether or not it was queued before. */
  lemma TaskEntersAtEnd(t: Topology, s: State, e: Id, head: bool)
    requires Locals(t, s) && t.Task(e)
    ensures var q, q' := s.rqs[t.Up(e)].queue[s.prio[e]], Enqueue(t, s, e, head).rqs[t.Up(e)].queue[s.prio[e]];
            q' == if head then [e] + Without(q, e) else Without(q, e) + [e]
  {
    hide Residents, Home, RqOk, Placed, DequeueStack, EnqueueUp;
    DequeueStackOk(t, s, e);
    DequeueStackFrame(t, s, e);
    EnqueueUpOk(t, DequeueStack(t, s, e), e, head);
    EnqueueUpFrame(t, DequeueStack(t, s, e), e, head);
    EnqueueRelinks(t, s, e, head);
    assert Relinked(t, s, Enqueue(t, s, e, head), e, head);
  }

  // ---- order after a yield ----

  /** The list an entity of the path is on has it at the asked-for end, and is otherwise as it was. */
  ghost predicate Rotated(t: Topology, s: State, s': State, x: Id, head: bool)
    requires WellFormed(t) && Typed(t, s) && Typed(t, s') && t.Entity(x)
  {
    var q, q' := s.rqs[t.Up(x)].queue, s'.rqs[t.Up(x)].queue;
    forall i :: 0 <= i < MAX_RT_PRIO ==>
      q'[i] == if x in s.linked && i == SePrio(t, s, x) then MovedToEnd(q[i], x, head) else q[i]
  }

  /** No entity of the path goes on run queue g. */
  ghost predicate OffPath(t: Topology, e: Id, g: Id)
    requires WellFormed(t) && t.Entity(e)
  {
    forall x {:trigger t.Up(x)} :: x in Path(t, e) ==> t.Up(x) != g
  }

  lemma RequeueSeMoves(t: Topology, s: State, e: Id, head: bool)
    requires Locals(t, s) && t.Entity(e)
    ensures Rotated(t, s, RequeueSe(t, s, e, head), e, head)
    ensures forall g :: g in t.groups && g != t.Up(e) ==> RequeueSe(t, s, e, head).rqs[g] == s.rqs[g]
  {
    if e in s.linked {
      assert Home(t, s, e);
      Apart(t, s, t.Up(e));
      RequeueAgrees(s.rqs[t.Up(e)], e, SePrio(t, s, e), head);
    }
  }

  /**
   A yield moves every linked entity of the path to the end asked for of the list it is on; every other list of every
   run queue stays exactly as it was.
   */
  lemma {:induction false} RequeueMoves(t: Topology, s: State, e: Id, head: bool)
    requires Locals(t, s) && t.Entity(e)
    ensures forall x :: x in Path(t, e) ==> Rotated(t, s, RequeueUp(t, s, e, head), x, head)
    ensures forall g :: g in t.groups && OffPath(t, e, g) ==> RequeueUp(t, s, e, head).rqs[g] == s.rqs[g]
    decreases t.Rank(ROOT) - t.Rank(e)
  {
    hide Residents, Home, RqOk, Shape;
    var s1, s2 := RequeueSe(t, s, e, head), RequeueUp(t, s, e, head);
    RequeueSeMoves(t, s, e, head);
    RequeueSeOk(t, s, e, head);
    var p := t.Up(e);
    if p != ROOT {
      RequeueMoves(t, s1, p, head);
      forall x | x in Path(t, p) ensures t.Up(x) != p {
        UpRises(t, e, x);
      }
      assert OffPath(t, p, p);
    }
    assert s2.rqs[p] == s1.rqs[p];
    hide Locals, OnlyOrder, Rotated, RequeueSe, RequeueUp;
    forall x | x in Path(t, e) ensures Rotated(t, s, s2, x, head) {
      UpRises(t, e, x);
      RotatedStep(t, s, s1, s2, e, x, head);
    }
    forall g | g in t.groups && OffPath(t, e, g) ensures s2.rqs[g] == s.rqs[g] {
      assert e in Path(t, e) && t.Up(e) != g;
      assert p != ROOT ==> OffPath(t, p, g);
    }
  }

  /** A step at e changes nothing that matters further up; what happens there leaves the run queue of e alone. */
  lemma RotatedStep(t: Topology, s: State, s1: State, s2: State, e: Id, x: Id, head: bool)
    requires WellFormed(t) && Typed(t, s) && Typed(t, s1) && Typed(t, s2) && t.Entity(e) && t.Entity(x)
    requires OnlyOrder(t, s, s1) && forall g :: g in t.groups && g != t.Up(e) ==> s1.rqs[g] == s.rqs[g]
    requires if x == e then Rotated(t, s, s1, e, head) && s2.rqs[t.Up(e)] == s1.rqs[t.Up(e)]
             else t.Up(x) != t.Up(e) && Rotated(t, s1, s2, x, head)
    ensures Rotated(t, s, s2, x, head)
  {
    hide Shape, MovedToEnd;
  }

  // ---- picking ----

  /** Neither the run queue of e nor any above it is throttled. */
  predicate MayRun(t: Topology, s: State, e: Id)
    requires WellFormed(t) && Typed(t, s) && t.Entity(e)
    decreases t.Rank(ROOT) - t.Rank(e)
  {
    !s.rqs[t.Up(e)].throttled && (t.Up(e) == ROOT || MayRun(t, s, t.Up(e)))
  }

  /** A queued task with no throttled run queue above it. */
  predicate Runnable(t: Topology, s: State, x: Id)
    requires WellFormed(t) && Typed(t, s)
  {
    t.Task(x) && x in s.linked && MayRun(t, s, x)
  }

  /** What pick_next_rt_entity finds: the BUG_ON cannot fire, and the entity is the most urgent one. */
  lemma HeadOfQueue(t: Topology, s: State, g: Id)
    requires Inv(t, s) && g in t.groups && s.rqs[g].nrRunning != 0
    ensures RtPrio(s.rqs[g].highest) && s.rqs[g].queue[s.rqs[g].highest] != []
    ensures FirstBit(s.rqs[g].bitmap, 0) == s.rqs[g].highest
    ensures var e := s.rqs[g].queue[s.rqs[g].highest][0];
            && t.Entity(e) && t.Up(e) == g && e in s.linked && SePrio(t, s, e) == s.rqs[g].highest
            && (e in t.groups ==> e != ROOT && s.rqs[e].nrRunning != 0 && !s.rqs[e].throttled)
  {
    EmptyAgrees(s.rqs[g]);
    var h := s.rqs[g].highest;
    ResidentAt(t, s, g, h, s.rqs[g].queue[h][0]);
  }

  lemma ResidentAt(t: Topology, s: State, g: Id, i: int, e: Id)
    requires Inv(t, s) && g in t.groups && 0 <= i < MAX_RT_PRIO && e in s.rqs[g].queue[i]
    ensures t.Entity(e) && t.Up(e) == g && e in s.linked && SePrio(t, s, e) == i
    ensures e in t.groups ==> e != ROOT && s.rqs[e].nrRunning != 0 && !s.rqs[e].throttled
  {
    hide Home, RqOk;
    assert Residents(t, s, g);
    assert e in t.groups ==> Placed(t, s, e);
  }

  /** The descent of _pick_next_task_rt from run queue g. */
  function PickFrom(t: Topology, s: State, g: Id): Id
    requires Inv(t, s) && g in t.groups && s.rqs[g].nrRunning != 0
    decreases t.Rank(g)
  {
    HeadOfQueue(t, s, g);
    var e := s.rqs[g].queue[s.rqs[g].highest][0];
    if e in t.groups then PickFrom(t, s, e) else e
  }

  /** _pick_next_task_rt */
  function PickNext(t: Topology, s: State): Option<Id>
    requires Inv(t, s)
  {
    if s.rqs[ROOT].nrRunning == 0 || s.rqs[ROOT].throttled then None else Some(PickFrom(t, s, ROOT))
  }

  lemma {:induction false} PickFromOk(t: Topology, s: State, g: Id)
    requires Inv(t, s) && g in t.groups && s.rqs[g].nrRunning != 0
    requires !s.rqs[g].throttled && (g == ROOT || MayRun(t, s, g))
    ensures Runnable(t, s, PickFrom(t, s, g)) && s.prio[PickFrom(t, s, g)] == s.rqs[g].highest
    ensures s.rqs[t.Up(PickFrom(t, s, g))].queue[s.rqs[g].highest] != []
    ensures s.rqs[t.Up(PickFrom(t, s, g))].queue[s.rqs[g].highest][0] == PickFrom(t, s, g)
    decreases t.Rank(g)
  {
    hide Residents, Home, RqOk, Placed;
    HeadOfQueue(t, s, g);
    var e := s.rqs[g].queue[s.rqs[g].highest][0];
    assert MayRun(t, s, e);
    if e in t.groups {
      PickFromOk(t, s, e);
    }
  }

  /** The cached priority of the topmost run queue is at least as urgent as any entity that may run. */
  lemma {:induction false} UrgencyFlowsUp(t: Topology, s: State, x: Id)
    requires Inv(t, s) && t.Entity(x) && x in s.linked && MayRun(t, s, x)
    ensures s.rqs[ROOT].nrRunning != 0 && !s.rqs[ROOT].throttled
    ensures s.rqs[ROOT].highest <= SePrio(t, s, x)
    decreases t.Rank(ROOT) - t.Rank(x)
  {
    hide Residents;
    var g := t.Up(x);
    assert Home(t, s, x);
    EmptyAgrees(s.rqs[g]);
    if g != ROOT {
      assert Placed(t, s, g);
      UrgencyFlowsUp(t, s, g);
    }
  }

  /**
   The task picked is runnable, no runnable task is more urgent, and it is first among its equals on its
   queue; nothing is picked exactly when no task is runnable.
   */
  lemma PickIsMostUrgent(t: Topology, s: State)
    requires Inv(t, s)
    ensures PickNext(t, s).None? <==> forall x :: t.Task(x) ==> !Runnable(t, s, x)
    ensures PickNext(t, s).Some? ==>
              var p := PickNext(t, s).value;
              && Runnable(t, s, p)
              && (forall x :: Runnable(t, s, x) ==> s.prio[p] <= s.prio[x])
              && s.rqs[t.Up(p)].queue[s.prio[p]] != [] && s.rqs[t.Up(p)].queue[s.prio[p]][0] == p
  {
    hide Residents, Home, RqOk, Placed, MayRun;
    forall x | Runnable(t, s, x)
      ensures PickNext(t, s).Some? && s.rqs[ROOT].highest <= s.prio[x]
    {
      UrgencyFlowsUp(t, s, x);
    }
    if PickNext(t, s).Some? {
      PickFromOk(t, s, ROOT);
    }
  }

  /** The list that a linked entity x is on. */
  function ListOf(t: Topology, s: State, x: Id): seq<Id>
    requires WellFormed(t) && Typed(t, s) && t.Entity(x)
  {
    if RtPrio(SePrio(t, s, x)) then s.rqs[t.Up(x)].queue[SePrio(t, s, x)] else []
  }

  /** No entity of the path of e shares its list. */
  ghost predicate AllAlone(t: Topology, s: State, e: Id)
    requires WellFormed(t) && Typed(t, s) && t.Entity(e)
  {
    forall x :: x in Path(t, e) ==> |ListOf(t, s, x)| == 1
  }

  /** x comes first on its run queue, and is as urgent as the queue. */
  ghost predicate Foremost(t: Topology, s: State, x: Id)
    requires WellFormed(t) && Typed(t, s) && t.Entity(x)
  {
    x in s.linked && ListOf(t, s, x) != [] && ListOf(t, s, x)[0] == x
  }

  /** The descent goes through the first entities. */
  lemma {:induction false} PickedAreForemost(t: Topology, s: State, g: Id)
    requires Inv(t, s) && g in t.groups && s.rqs[g].nrRunning != 0
    requires g != ROOT ==> forall x :: x in Path(t, g) ==> Foremost(t, s, x)
    ensures t.Entity(PickFrom(t, s, g)) && forall x :: x in Path(t, PickFrom(t, s, g)) ==> Foremost(t, s, x)
    decreases t.Rank(g)
  {
    hide Residents, Home, RqOk, Placed;
    HeadOfQueue(t, s, g);
    var e := s.rqs[g].queue[s.rqs[g].highest][0];
    assert Foremost(t, s, e);
    if e in t.groups {
      PickedAreForemost(t, s, e);
    }
  }

  /** Moving the first of a list to the tail brings another one to the front, unless it is alone. */
  lemma MovedAway(q: seq<Id>, x: Id)
    requires NoDup(q) && q != [] && q[0] == x
    ensures MovedToEnd(q, x, false) == q[1..] + [x]
    ensures |q| == 1 ==> MovedToEnd(q, x, false) == q
    ensures |q| > 1 ==> MovedToEnd(q, x, false)[0] != x
  {
    assert x !in q[1..];
  }

  // ---- runs ----

  datatype Step =
    | EnqueueTask(e: Id, head: bool)
    | DequeueTask(e: Id)
    | SetPrio(e: Id, p: int)
    | ThrottleQueue(g: Id)
    | ReplenishQueue(g: Id)
    | PokeQueue(g: Id)
    | Yield(e: Id, head: bool)

  /** Steps name tasks and run queues of this CPU; a priority changes only while its task is off the queues. */
  predicate Enabled(t: Topology, s: State, step: Step) {
    match step
    case EnqueueTask(e, _) => t.Task(e)
    case DequeueTask(e) => t.Task(e)
    case SetPrio(e, p) => t.Task(e) && e !in s.linked && RtPrio(p)
    case ThrottleQueue(g) => g in t.groups
    case ReplenishQueue(g) => g in t.groups
    case PokeQueue(g) => g in t.groups
    case Yield(e, _) => t.Task(e)
  }

  function Next(t: Topology, s: State, step: Step): (s': State)
    requires WellFormed(t) && Typed(t, s) && Enabled(t, s, step)
    ensures Typed(t, s')
  {
    match step
    case EnqueueTask(e, head) => Enqueue(t, s, e, head)
    case DequeueTask(e) => Dequeue(t, s, e)
    case SetPrio(e, p) => s.(prio := s.prio[e := p])
    case ThrottleQueue(g) => Throttle(t, s, g)
    case ReplenishQueue(g) => Unthrottle(t, s, g)
    case PokeQueue(g) => TimerPoke(t, s, g)
    case Yield(e, head) => RequeueUp(t, s, e, head)
  }

  lemma SetPrioLinkage(t: Topology, s: State, s': State, e: Id)
    requires Linkage(t, s) && Typed(t, s') && t.Task(e) && e !in s.linked
    requires s'.rqs == s.rqs && s'.linked == s.linked && forall x :: t.Task(x) && x != e ==> s'.prio[x] == s.prio[x]
    ensures Linkage(t, s')
  {
    forall g, i, x | g in t.groups && 0 <= i < MAX_RT_PRIO && x in s'.rqs[g].queue[i]
      ensures x in s'.linked && t.Entity(x) && t.Up(x) == g && SePrio(t, s', x) == i
    {
      assert Residents(t, s, g);
      assert t.Up(x) == g && x in s.linked;
    }
    forall x | x in s'.linked
      ensures Home(t, s', x)
    {
      assert Home(t, s, x);
    }
  }

  lemma SetPrioInv(t: Topology, s: State, e: Id, p: int)
    requires Inv(t, s) && t.Task(e) && e !in s.linked && RtPrio(p)
    ensures Inv(t, s.(prio := s.prio[e := p]))
  {
    hide Residents, Home, RqOk, Shape;
    var s' := s.(prio := s.prio[e := p]);
    SetPrioLinkage(t, s, s', e);
    assert forall g :: g in t.groups && g != ROOT ==> Placed(t, s, g) ==> Placed(t, s', g);
  }

  lemma YieldInv(t: Topology, s: State, e: Id, head: bool)
    requires Inv(t, s) && t.Task(e)
    ensures Inv(t, RequeueUp(t, s, e, head)) && OnlyOrder(t, s, RequeueUp(t, s, e, head))
  {
    hide Residents, Home, RqOk, RequeueUp;
    RequeueUpOk(t, s, e, head);
    var s' := RequeueUp(t, s, e, head);
    assert forall g :: g in t.groups && g != ROOT ==> Placed(t, s, g) ==> Placed(t, s', g);
  }

  // ---- what a yield achieves ----

  /** Lists of one entity are left alone; a list with company has another entity first. */
  lemma FirstMoves(t: Topology, s: State, s': State, x: Id)
    requires Locals(t, s) && Typed(t, s') && t.Entity(x) && Foremost(t, s, x)
    requires Rotated(t, s, s', x, false) && OnlyOrder(t, s, s')
    ensures |ListOf(t, s, x)| == 1 ==> s'.rqs[t.Up(x)] == s.rqs[t.Up(x)]
    ensures |ListOf(t, s, x)| > 1 ==> !Foremost(t, s', x)
  {
    hide Residents, Home, MovedToEnd, FirstBit, Total;
    assert RqOk(s.rqs[t.Up(x)]);
    FirstMovesIn(s.rqs[t.Up(x)], s'.rqs[t.Up(x)], SePrio(t, s, x), x);
  }

  lemma FirstMovesIn(r: RtRq, r': RtRq, i: nat, x: Id)
    requires |r.queue| == |r'.queue| == MAX_RT_PRIO && i < MAX_RT_PRIO && NoDup(r.queue[i])
    requires r.queue[i] != [] && r.queue[i][0] == x
    requires forall k :: 0 <= k < MAX_RT_PRIO ==>
               r'.queue[k] == if k == i then MovedToEnd(r.queue[k], x, false) else r.queue[k]
    ensures |r.queue[i]| == 1 ==> r'.queue == r.queue
    ensures |r.queue[i]| > 1 ==> r'.queue[i] != [] && r'.queue[i][0] != x
  {
    MovedAway(r.queue[i], x);
    hide MovedToEnd, NoDup;
  }

  /** If every entity of the path is alone, nothing changes. */
  lemma AllAloneStay(t: Topology, s: State, s': State, p: Id)
    requires Locals(t, s) && Typed(t, s') && t.Entity(p) && OnlyOrder(t, s, s') && AllAlone(t, s, p)
    requires forall x :: x in Path(t, p) ==> Foremost(t, s, x) && Rotated(t, s, s', x, false)
    requires forall g :: g in t.groups && OffPath(t, p, g) ==> s'.rqs[g] == s.rqs[g]
    ensures s' == s
  {
    hide Rotated, Residents, Home, RqOk, Shape, Foremost, ListOf;
    forall g | g in t.groups ensures s'.rqs[g] == s.rqs[g] {
      if !OffPath(t, p, g) {
        var x :| x in Path(t, p) && t.Up(x) == g;
        FirstMoves(t, s, s', x);
      }
    }
  }

  /** The picked task and the groups above it are the first of their lists. */
  lemma PathForemost(t: Topology, s: State, p: Id)
    requires Inv(t, s) && PickNext(t, s) == Some(p)
    ensures t.Task(p) && forall x :: x in Path(t, p) ==> Foremost(t, s, x)
  {
    hide Residents, Home, RqOk, Foremost, Placed;
    PickFromOk(t, s, ROOT);
    PickedAreForemost(t, s, ROOT);
  }

  /**
   When the picked task yields, another one is picked exactly if the task, or a group above it, shares its list with
   another entity.
   */
  lemma YieldGivesWay(t: Topology, s: State, p: Id)
    requires Inv(t, s) && PickNext(t, s) == Some(p)
    ensures t.Task(p) && Inv(t, RequeueUp(t, s, p, false))
    ensures PickNext(t, RequeueUp(t, s, p, false)) == Some(p) <==> AllAlone(t, s, p)
  {
    PathForemost(t, s, p);
    YieldInv(t, s, p, false);
    RequeueMoves(t, s, p, false);
    var s' := RequeueUp(t, s, p, false);
    if PickNext(t, s') == Some(p) {
      PathForemost(t, s', p);
    }
    hide Residents, Home, RqOk, Placed, RequeueUp, Rotated, Foremost, OnlyOrder, PickNext, ListOf;
    if AllAlone(t, s, p) {
      AllAloneStay(t, s, s', p);
    } else {
      var x :| x in Path(t, p) && |ListOf(t, s, x)| != 1;
      assert Foremost(t, s, x);
      ListNotEmpty(t, s, x);
      FirstMoves(t, s, s', x);
    }
  }

  lemma ListNotEmpty(t: Topology, s: State, x: Id)
    requires WellFormed(t) && Typed(t, s) && t.Entity(x) && Foremost(t, s, x)
    ensures |ListOf(t, s, x)| >= 1
  {}

  // ---- the invariant over runs ----

  /** The tasks queued after a step. */
  function QueuedAfter(queued: set<Id>, step: Step): set<Id> {
    match step
    case EnqueueTask(e, _) => queued + {e}
    case DequeueTask(e) => queued - {e}
    case _ => queued
  }

  function TasksOf(t: Topology, s: State): set<Id> {
    set x | x in s.linked && t.Task(x)
  }

  /** Every step keeps the invariant, and only enqueue and dequeue change which tasks are queued. */
  lemma NextInv(t: Topology, s: State, step: Step)
    requires Inv(t, s) && Enabled(t, s, step)
    ensures Inv(t, Next(t, s, step))
    ensures TasksOf(t, Next(t, s, step)) == QueuedAfter(TasksOf(t, s), step)
  {
    hide Locals, Placed, Enqueue, Dequeue, Throttle, Unthrottle, RequeueUp;
    match step
    case EnqueueTask(e, head) => EnqueueInv(t, s, e, head);
    case DequeueTask(e) => DequeueInv(t, s, e);
    case SetPrio(e, p) => SetPrioInv(t, s, e, p);
    case ThrottleQueue(g) => ThrottleInv(t, s, g);
    case ReplenishQueue(g) => UnthrottleInv(t, s, g);
    case PokeQueue(g) => TimerPokeIsNoOp(t, s, g);
    case Yield(e, head) => YieldInv(t, s, e, head);
  }

  /** A run from s to s' that takes the given steps. */
  ghost predicate Run(t: Topology, s: State, steps: seq<Step>, s': State)
    requires WellFormed(t) && Typed(t, s)
    decreases |steps|
  {
    if steps == [] then s' == s
    else Enabled(t, s, steps[0]) && Run(t, Next(t, s, steps[0]), steps[1..], s')
  }

  function QueuedAfterAll(queued: set<Id>, steps: seq<Step>): set<Id>
    decreases |steps|
  {
    if steps == [] then queued else QueuedAfterAll(QueuedAfter(queued, steps[0]), steps[1..])
  }

  /**
   Over every run the invariant holds, the queued tasks are those the steps enqueued and did not dequeue,
   and the picked task is a most urgent one among all of them that no throttled run queue holds back.
   */
  lemma {:induction false} RunInv(t: Topology, s: State, steps: seq<Step>, s': State)
    requires Inv(t, s) && Run(t, s, steps, s')
    ensures Inv(t, s')
    ensures TasksOf(t, s') == QueuedAfterAll(TasksOf(t, s), steps)
    ensures PickNext(t, s').Some? ==>
              && Runnable(t, s', PickNext(t, s').value)
              && forall x :: Runnable(t, s', x) ==> s'.prio[PickNext(t, s').value] <= s'.prio[x]
    decreases |steps|
  {
    hide Residents, Home, RqOk, Placed, Next, PickNext, Runnable, QueuedAfter, TasksOf;
    if steps == [] {
      PickIsMostUrgent(t, s);
    } else {
      NextInv(t, s, steps[0]);
      RunInv(t, Next(t, s, steps[0]), steps[1..], s');
    }
  }

  /** The state after init_rt_rq and init_tg_rt_entry: every run queue empty. */
  lemma InitInv(t: Topology, s: State)
    requires WellFormed(t) && Typed(t, s) && s.linked == {}
    requires forall g :: g in t.groups ==> RqOk(s.rqs[g]) && s.rqs[g].nrRunning == 0
    ensures Inv(t, s) && TasksOf(t, s) == {}
  {
    forall g | g in t.groups
      ensures Residents(t, s, g)
    {
      EmptyAgrees(s.rqs[g]);
    }
  }
}
