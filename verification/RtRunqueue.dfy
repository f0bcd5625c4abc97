/**
 The real-time class as the kernel runs it: one object per run queue, updated in place,
 with the loops over scheduling entities. Every method is tied to the functions of
 RtHierarchy and RtScheduling, whose invariants are proved there.
 */
module RtRunqueue {
  import opened Common
  import opened RtHierarchy
  import opened RtPrioArray
  import opened RtScheduling

  class Runqueue {
    const t: Topology
    const rqs: map<Id, RtRqObject>
    var linked: set<Id>
    var prio: map<Id, int>
    var back: map<Id, Id>

    function Value(): State
      reads this`linked, this`prio, rqs.Values
    {
      State(map g | g in rqs :: rqs[g].Value(), linked, prio)
    }

    ghost predicate Valid()
      reads this`linked, this`prio, rqs.Values
    {
      Distinct() && Typed(t, Value())
    }

    /** rt_se_prio */
    method SePriority(e: Id) returns (p: int)
      requires Valid() && t.Entity(e)
      ensures p == SePrio(t, Value(), e)
    {
      if e in t.groups {
        p := rqs[e].highest;
      } else {
        p := prio[e];
      }
    }

    ghost predicate Distinct()
    {
      && WellFormed(t) && rqs.Keys == t.groups
      && (forall g, h :: g in rqs && h in rqs && g != h ==> rqs[g] != rqs[h])
    }

    /** Updating the object of one run queue updates one entry of the value. */
    lemma ValueUpdate(before: State, g: Id)
      requires Distinct() && Typed(t, before) && g in rqs && Shape(rqs[g].Value()) && prio == before.prio
      requires forall h :: h in rqs && h != g ==> rqs[h].Value() == before.rqs[h]
      ensures Valid() && Value() == before.(rqs := before.rqs[g := rqs[g].Value()], linked := linked)
    {
      hide Shape, WellFormed;
      assert Value().rqs == before.rqs[g := rqs[g].Value()];
    }

    method LinkAt(e: Id, p: int, head: bool)
      requires Valid() && t.Entity(e) && p == SePrio(t, Value(), e) && RtPrio(p)
      modifies this`linked, rqs.Values
      ensures Valid() && Value() == AddSe(t, old(Value()), e, head)
    {
      ghost var before := Value();
      var g := t.Up(e);
      rqs[g].Link(e, p, head);
      linked := linked + {e};
      ValueUpdate(before, g);
    }

    /** __enqueue_rt_entity */
    method EnqueueOne(e: Id, head: bool)
      requires Valid() && Locals(t, Value()) && t.Entity(e)
      modifies this`linked, rqs.Values
      ensures Valid() && Value() == TryEnqueue(t, old(Value()), e, head)
    {
      hide Linkage, Derived, Shape, AddSe;
      SePrioInRange(t, Value(), e);
      if e in t.groups {
        if rqs[e].throttled || rqs[e].nrRunning == 0 {
          return;
        }
      }
      var p := SePriority(e);
      LinkAt(e, p, head);
    }

    /** __dequeue_rt_entity */
    method DequeueOne(e: Id)
      requires Valid() && t.Entity(e) && RtPrio(SePrio(t, Value(), e))
      modifies this`linked, rqs.Values
      ensures Valid() && Value() == DelSe(t, old(Value()), e)
    {
      var p := SePriority(e);
      ghost var before := Value();
      var g := t.Up(e);
      rqs[g].Delink(e, p);
      linked := linked - {e};
      ValueUpdate(before, g);
    }

    /** The body of the second loop of dequeue_rt_stack. */
    method DequeueIfQueued(e: Id)
      requires Valid() && Locals(t, Value()) && t.Entity(e)
      modifies this`linked, rqs.Values
      ensures Valid()
      ensures Value() ==
              if e in old(linked) && RtPrio(SePrio(t, old(Value()), e)) then DelSe(t, old(Value()), e) else old(Value())
    {
      hide Residents, Home, RqOk, Shape, DelSe;
      SePrioOfLinked(t, Value(), e);
      if e in linked {
        DequeueOne(e);
      }
    }

    /** The first loop of dequeue_rt_stack: point each entity on the path back at the one below it. */
    method ThreadBack(e: Id) returns (top: Id, ghost path: seq<Id>)
      requires Distinct() && t.Entity(e)
      modifies this`back
      ensures Ascending(t, path, e) && Threaded(path, back) && path != []
      ensures top == path[|path| - 1] && t.Up(top) == ROOT
    {
      path := [];
      var se := e;
      top := ROOT;
      while se != ROOT
        invariant se == if path == [] then e else t.Up(path[|path| - 1])
        invariant top == if path == [] then ROOT else path[|path| - 1]
        invariant Ascending(t, path, e) && Threaded(path, back)
        invariant forall k :: 0 <= k < |path| ==> t.Rank(path[k]) < t.Rank(se)
        decreases t.Rank(ROOT) - t.Rank(se)
      {
        back := back[se := top];
        top := se;
        path := path + [se];
        se := t.Up(se);
      }
    }

    /** dequeue_rt_stack: thread the path through the back pointers, then follow them down. */
    method DequeueRtStack(e: Id)
      requires Valid() && Locals(t, Value()) && t.Entity(e)
      modifies this`linked, this`back, rqs.Values
      ensures Valid() && Value() == DequeueStack(t, old(Value()), e)
      ensures Locals(t, Value()) && linked == old(linked) - Path(t, e)
    {
      hide Linkage, Derived, Typed, DelSe, PathFrame;
      ghost var before := Value();
      var se, path := ThreadBack(e);
      ghost var k := |path| - 1;
      while se != ROOT
        invariant Valid() && Locals(t, Value()) && Ascending(t, path, e) && Threaded(path, back)
        invariant -1 <= k < |path| && se == if k < 0 then ROOT else path[k]
        invariant Value() == if k == |path| - 1 then before else DequeueStack(t, before, path[k + 1])
        decreases k
      {
        ThreadedAt(path, back, k);
        DequeueStackOk(t, before, se);
        DequeueIfQueued(se);
        se := back[se];
        k := k - 1;
      }
      DequeueStackOk(t, before, e);
    }

    /** The loop of enqueue_rt_entity, from e up. */
    method EnqueueRtUp(e: Id, head: bool)
      requires Valid() && Locals(t, Value()) && t.Entity(e) && linked !! Path(t, e)
      modifies this`linked, rqs.Values
      ensures Valid() && Value() == EnqueueUp(t, old(Value()), e, head)
    {
      hide Residents, Home, RqOk, Shape, AddSe;
      ghost var before := Value();
      var se := e;
      while se != ROOT
        invariant Valid() && Locals(t, Value())
        invariant se != ROOT ==> t.Entity(se) && linked !! Path(t, se)
        invariant if se == ROOT then Value() == EnqueueUp(t, before, e, head)
                  else EnqueueUp(t, Value(), se, head) == EnqueueUp(t, before, e, head)
        decreases t.Rank(ROOT) - t.Rank(se)
      {
        ghost var now := Value();
        RootUnlinked(t, now);
        TryEnqueueOk(t, now, se, head);
        EnqueueOne(se, head);
        assert t.Up(se) != ROOT ==> se !in Path(t, t.Up(se));
        se := t.Up(se);
      }
    }

    /** enqueue_rt_entity */
    method EnqueueRtEntity(e: Id, head: bool)
      requires Valid() && Locals(t, Value()) && t.Entity(e)
      modifies this`linked, this`back, rqs.Values
      ensures Valid() && Value() == Enqueue(t, old(Value()), e, head)
    {
      DequeueRtStack(e);
      EnqueueRtUp(e, head);
    }

    /** dequeue_rt_entity: the loop skips a task and any group that has become empty. */
    method DequeueRtEntity(e: Id)
      requires Valid() && Locals(t, Value()) && t.Entity(e)
      modifies this`linked, this`back, rqs.Values
      ensures Valid() && Value() == Dequeue(t, old(Value()), e)
    {
      hide Residents, Home, RqOk, Shape, AddSe;
      DequeueRtStack(e);
      ghost var after := Value();
      ghost var done := if e in t.groups then EnqueueUp(t, after, e, false)
                        else if t.Up(e) == ROOT then after else EnqueueUp(t, after, t.Up(e), false);
      var se := e;
      while se != ROOT
        invariant Valid() && Locals(t, Value())
        invariant se != ROOT ==> t.Entity(se) && linked !! Path(t, se)
        invariant if se == ROOT then Value() == done
                  else if se == e && e !in t.groups then Value() == after
                  else se in t.groups && EnqueueUp(t, Value(), se, false) == done
        decreases t.Rank(ROOT) - t.Rank(se)
      {
        ghost var now := Value();
        RootUnlinked(t, now);
        TryEnqueueOk(t, now, se, false);
        if se in t.groups && rqs[se].nrRunning != 0 {
          EnqueueOne(se, false);
        }
        assert t.Up(se) != ROOT ==> se !in Path(t, t.Up(se));
        se := t.Up(se);
      }
    }

    /** enqueue_task_rt */
    method EnqueueTaskRt(e: Id, head: bool)
      requires Valid() && Inv(t, Value()) && t.Task(e)
      modifies this`linked, this`back, rqs.Values
      ensures Valid() && Inv(t, Value()) && Value() == Enqueue(t, old(Value()), e, head)
    {
      EnqueueInv(t, Value(), e, head);
      EnqueueRtEntity(e, head);
    }

    /** dequeue_task_rt */
    method DequeueTaskRt(e: Id)
      requires Valid() && Inv(t, Value()) && t.Task(e)
      modifies this`linked, this`back, rqs.Values
      ensures Valid() && Inv(t, Value()) && Value() == Dequeue(t, old(Value()), e)
    {
      DequeueInv(t, Value(), e);
      DequeueRtEntity(e);
    }

    method SetThrottledFlag(g: Id, on: bool)
      requires Valid() && g in t.groups
      modifies rqs.Values
      ensures Valid() && Value() == SetThrottled(t, old(Value()), g, on)
    {
      ghost var before := Value();
      rqs[g].throttled := on;
      ValueUpdate(before, g);
    }

    /** sched_rt_runtime_exceeded once the budget is overrun */
    method ThrottleRtRq(g: Id)
      requires Valid() && Inv(t, Value()) && g in t.groups
      modifies this`linked, this`back, rqs.Values
      ensures Valid() && Inv(t, Value()) && Value() == Throttle(t, old(Value()), g)
    {
      hide Residents, Home, RqOk, Shape, SetThrottled, Dequeue, Placed;
      ThrottleInv(t, Value(), g);
      if rqs[g].throttled {
        return;
      }
      SetThrottledOk(t, Value(), g, true);
      SetThrottledFlag(g, true);
      if g != ROOT && g in linked {
        DequeueRtEntity(g);
      }
    }

    /** sched_rt_rq_enqueue */
    method SchedRtRqEnqueueAt(g: Id)
      requires Valid() && Locals(t, Value()) && g in t.groups
      modifies this`linked, this`back, rqs.Values
      ensures Valid() && Value() == SchedRtRqEnqueue(t, old(Value()), g)
    {
      if rqs[g].nrRunning != 0 {
        if g != ROOT && g !in linked {
          EnqueueRtEntity(g, false);
        }
      }
    }

    /** do_sched_rt_period_timer once the replenished queue is below its budget */
    method ReplenishRtRq(g: Id)
      requires Valid() && Inv(t, Value()) && g in t.groups
      modifies this`linked, this`back, rqs.Values
      ensures Valid() && Inv(t, Value()) && Value() == Unthrottle(t, old(Value()), g)
    {
      hide Residents, Home, RqOk, Shape, SetThrottled, Enqueue, Placed;
      UnthrottleInv(t, Value(), g);
      SetThrottledOk(t, Value(), g, false);
      SetThrottledFlag(g, false);
      SchedRtRqEnqueueAt(g);
    }

    /** requeue_rt_entity of a linked entity */
    method MoveAt(e: Id, head: bool)
      requires Valid() && t.Entity(e) && e in linked && RtPrio(SePrio(t, Value(), e))
      modifies rqs.Values
      ensures Valid() && Value() == RequeueSe(t, old(Value()), e, head)
    {
      var p := SePriority(e);
      ghost var before := Value();
      var g := t.Up(e);
      rqs[g].Move(e, p, head);
      ValueUpdate(before, g);
    }

    /** requeue_task_rt */
    method RequeueTaskRt(e: Id, head: bool)
      requires Valid() && Inv(t, Value()) && t.Task(e)
      modifies rqs.Values
      ensures Valid() && Inv(t, Value()) && Value() == RequeueUp(t, old(Value()), e, head)
    {
      hide Residents, Home, RqOk, Shape, RequeueSe, Placed, OnlyOrder;
      ghost var before := Value();
      YieldInv(t, before, e, head);
      var se := e;
      while se != ROOT
        invariant Valid() && Locals(t, Value())
        invariant se != ROOT ==> t.Entity(se)
        invariant if se == ROOT then Value() == RequeueUp(t, before, e, head)
                  else RequeueUp(t, Value(), se, head) == RequeueUp(t, before, e, head)
        decreases t.Rank(ROOT) - t.Rank(se)
      {
        ghost var now := Value();
        RequeueSeOk(t, now, se, head);
        RequeueUnlinked(t, now, se, head);
        if se in linked {
          SePrioOfLinked(t, now, se);
          MoveAt(se, head);
        }
        se := t.Up(se);
      }
    }

    /** _pick_next_task_rt, with pick_next_rt_entity in the loop */
    method PickNextTask() returns (r: Option<Id>)
      requires Valid() && Inv(t, Value())
      ensures r == PickNext(t, Value())
    {
      hide Linkage, Derived, Placed;
      var g := ROOT;
      if rqs[g].nrRunning == 0 {
        return None;
      }
      if rqs[g].throttled {
        return None;
      }
      ghost var v := Value();
      while true
        invariant g in t.groups && v.rqs[g].nrRunning != 0
        invariant PickFrom(t, v, g) == PickFrom(t, v, ROOT)
        decreases t.Rank(g)
      {
        HeadOfQueue(t, v, g);
        var idx := rqs[g].FindFirstBit();
        assert idx < MAX_RT_PRIO;
        var se := rqs[g].queue[idx][0];
        if se !in t.groups {
          return Some(se);
        }
        g := se;
      }
    }
  }

  lemma RequeueUnlinked(t: Topology, s: State, e: Id, head: bool)
    requires WellFormed(t) && Typed(t, s) && t.Entity(e)
    ensures e !in s.linked ==> RequeueSe(t, s, e, head) == s
  {
  }

  lemma SePrioOfLinked(t: Topology, s: State, e: Id)
    requires Locals(t, s) && t.Entity(e)
    ensures e in s.linked ==> RtPrio(SePrio(t, s, e))
  {
    assert e in s.linked ==> Home(t, s, e);
  }

  /** p lists the path of e, bottom up, as far as it goes. */
  ghost predicate Ascending(t: Topology, p: seq<Id>, e: Id) {
    && (p != [] ==> p[0] == e)
    && (forall k :: 0 <= k < |p| ==> t.Entity(p[k]) && p[k] != ROOT)
    && (forall k :: 0 < k < |p| ==> p[k] == t.Up(p[k - 1]))
  }

  /** The back pointers lead down the path and end at its foot. */
  ghost predicate Threaded(p: seq<Id>, back: map<Id, Id>) {
    forall k :: 0 <= k < |p| ==> p[k] in back && back[p[k]] == if k == 0 then ROOT else p[k - 1]
  }

  lemma ThreadedAt(p: seq<Id>, back: map<Id, Id>, k: nat)
    requires Threaded(p, back) && k < |p|
    ensures p[k] in back && back[p[k]] == if k == 0 then ROOT else p[k - 1]
  {}
}
