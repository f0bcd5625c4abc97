/**
 The tree of real-time run queues of one CPU: which entities the scheduler
 links and unlinks, level by level, and which task it then picks.
 */
module RtHierarchy {
  import opened Common
  import opened ListOps
  import opened RtPrioArray

  const ROOT: Id := 0

  /**
   The fixed shape of the group tree on one CPU. ROOT is the run queue of the CPU itself and has no
   entity; every other group is an entity that owns a run queue under the same id; all other ids are tasks.
   parent[e] is the run queue that entity e goes on. rank witnesses that the tree is finite, of any depth.
   */
  datatype Topology = Topology(parent: map<Id, Id>, groups: set<Id>, rank: map<Id, nat>) {
    predicate Entity(e: Id) { e in parent }

    predicate Task(e: Id) { e in parent && e !in groups }

    /** rt_rq_of_se: the run queue an entity goes on. */
    function Up(e: Id): Id { if e in parent then parent[e] else ROOT }

    function Rank(e: Id): nat { if e in rank then rank[e] else 0 }
  }

  ghost predicate WellFormed(t: Topology) {
    && ROOT in t.groups && ROOT !in t.parent
    && (forall g :: g in t.groups && g != ROOT ==> t.Entity(g))
    && (forall e {:trigger t.Up(e)} :: t.Entity(e) ==> t.Up(e) in t.groups)
    && (forall e {:trigger t.Up(e)} :: t.Entity(e) ==> t.Rank(e) < t.Rank(t.Up(e)) <= t.Rank(ROOT))
  }

  /** linked holds the entities whose run_list is on some queue. */
  datatype State = State(rqs: map<Id, RtRq>, linked: set<Id>, prio: map<Id, int>)

  ghost predicate Typed(t: Topology, s: State) {
    && s.rqs.Keys == t.groups
    && (forall g :: g in t.groups ==> Shape(s.rqs[g]))
    && (forall e :: t.Task(e) ==> e in s.prio && 0 <= s.prio[e] < MAX_RT_PRIO)
  }

  /** rt_prio */
  predicate RtPrio(prio: int) { 0 <= prio < MAX_RT_PRIO }

  /** rt_se_prio: a group is as urgent as the most urgent entity in it. */
  function SePrio(t: Topology, s: State, e: Id): int
    requires Typed(t, s) && t.Entity(e)
  {
    if e in t.groups then s.rqs[e].highest else s.prio[e]
  }

  /** Everything linked on run queue g belongs there, at its current priority. */
  ghost predicate Residents(t: Topology, s: State, g: Id)
    requires Typed(t, s) && g in t.groups
  {
    forall i, e :: 0 <= i < MAX_RT_PRIO && e in s.rqs[g].queue[i] ==>
      e in s.linked && t.Entity(e) && t.Up(e) == g && SePrio(t, s, e) == i
  }

  /** A linked entity is found on the queue of its current priority. */
  ghost predicate Home(t: Topology, s: State, e: Id)
    requires WellFormed(t) && Typed(t, s)
  {
    && t.Entity(e)
    && RtPrio(SePrio(t, s, e))
    && e in s.rqs[t.Up(e)].queue[SePrio(t, s, e)]
  }

  /** Every entity is where its priority says, and nowhere else. */
  ghost predicate Linkage(t: Topology, s: State) {
    && WellFormed(t) && Typed(t, s)
    && (forall g :: g in t.groups ==> Residents(t, s, g))
    && (forall e :: e in s.linked ==> Home(t, s, e))
  }

  /** Queue lists, bitmap, count and cached priority agree on every level. */
  ghost predicate Derived(t: Topology, s: State) {
    Typed(t, s) && forall g :: g in t.groups ==> RqOk(s.rqs[g])
  }

  ghost predicate Locals(t: Topology, s: State) {
    Linkage(t, s) && Derived(t, s)
  }

  /** A group is on its parent's queue exactly when it has something to run and may run. */
  ghost predicate Placed(t: Topology, s: State, g: Id)
    requires Typed(t, s) && g in t.groups
  {
    g in s.linked <==> s.rqs[g].nrRunning != 0 && !s.rqs[g].throttled
  }

  /** The invariant of the hierarchy. */
  ghost predicate Inv(t: Topology, s: State) {
    Locals(t, s) && forall g :: g in t.groups && g != ROOT ==> Placed(t, s, g)
  }

  /** e and the group entities above it, bottom up. */
  function Path(t: Topology, e: Id): (p: set<Id>)
    requires WellFormed(t) && t.Entity(e)
    ensures e in p
    ensures forall x :: x in p ==> t.Entity(x) && t.Rank(e) <= t.Rank(x)
    ensures forall x :: x in p && x != e ==> x in t.groups && x != ROOT && t.Rank(e) < t.Rank(x)
    decreases t.Rank(ROOT) - t.Rank(e)
  {
    {e} + if t.Up(e) == ROOT then {} else Path(t, t.Up(e))
  }

  // ---- one entity on one run queue ----

  /** Linking or unlinking e touches the run queue of e and the link of e, but no throttling and no priority. */
  ghost predicate StepFrame(t: Topology, s: State, s': State, e: Id)
    requires Typed(t, s) && Typed(t, s')
  {
    && s'.prio == s.prio
    && (forall x :: x != e ==> (x in s'.linked <==> x in s.linked))
    && (forall g :: g in t.groups ==> s'.rqs[g].throttled == s.rqs[g].throttled)
    && (forall g :: g in t.groups && g != t.Up(e) ==> s'.rqs[g] == s.rqs[g])
  }

  function AddSe(t: Topology, s: State, e: Id, head: bool): (s': State)
    requires WellFormed(t) && Typed(t, s) && t.Entity(e) && RtPrio(SePrio(t, s, e))
    ensures Typed(t, s') && StepFrame(t, s, s', e)
  {
    s.(rqs := s.rqs[t.Up(e) := Add(s.rqs[t.Up(e)], e, SePrio(t, s, e), head)], linked := s.linked + {e})
  }

  function DelSe(t: Topology, s: State, e: Id): (s': State)
    requires WellFormed(t) && Typed(t, s) && t.Entity(e) && RtPrio(SePrio(t, s, e))
    ensures Typed(t, s') && StepFrame(t, s, s', e)
  {
    s.(rqs := s.rqs[t.Up(e) := Del(s.rqs[t.Up(e)], e, SePrio(t, s, e))], linked := s.linked - {e})
  }

  /** s' differs from s only in run queue g and in which of the entities of g are linked. */
  ghost predicate OnlyAt(t: Topology, s: State, s': State, g: Id)
    requires Typed(t, s) && Typed(t, s')
  {
    && s'.prio == s.prio
    && (forall h :: h in t.groups && h != g ==> s'.rqs[h] == s.rqs[h])
    && (forall e {:trigger t.Up(e)} :: t.Up(e) != g ==> (e in s'.linked <==> e in s.linked))
  }

  /**
   Rewriting a run queue disturbs no other run queue, provided the entity of its group is
   unlinked or its cached priority stays the same.
   */
  lemma LinkageUpdate(t: Topology, s: State, s': State, g: Id)
    requires Linkage(t, s) && Typed(t, s') && OnlyAt(t, s, s', g)
    requires g in t.groups && ((g !in s.linked && g !in s'.linked) || s'.rqs[g].highest == s.rqs[g].highest)
    requires Residents(t, s', g)
    requires forall e {:trigger e in s'.linked} :: e in s'.linked && t.Up(e) == g ==> Home(t, s', e)
    ensures Linkage(t, s')
  {
    forall h | h in t.groups && h != g
      ensures Residents(t, s', h)
    {
      assert Residents(t, s, h);
      forall i, e | 0 <= i < MAX_RT_PRIO && e in s'.rqs[h].queue[i]
        ensures e in s'.linked && t.Entity(e) && t.Up(e) == h && SePrio(t, s', e) == i
      {
        assert e in s.rqs[h].queue[i];
        assert t.Up(e) == h && e in s.linked;
      }
    }
    forall e | e in s'.linked
      ensures Home(t, s', e)
    {
      if t.Up(e) != g {
        assert Home(t, s, e);
      }
    }
  }

  lemma AddSeOk(t: Topology, s: State, e: Id, head: bool)
    requires Locals(t, s) && t.Entity(e) && RtPrio(SePrio(t, s, e))
    requires e !in s.linked && t.Up(e) !in s.linked
    ensures Locals(t, AddSe(t, s, e, head))
  {
    AddLinkage(t, s, e, head);
    assert Residents(t, s, t.Up(e));
    AddRqOk(s.rqs[t.Up(e)], e, SePrio(t, s, e), head);
  }

  lemma AddRqOk(r: RtRq, e: Id, p: int, head: bool)
    requires RqOk(r) && 0 <= p < MAX_RT_PRIO && e !in r.queue[p]
    ensures RqOk(Add(r, e, p, head))
  {
    AddAgrees(r, e, p, head);
    assert NoDup(Add(r, e, p, head).queue[p]);
  }

  lemma AddLinkage(t: Topology, s: State, e: Id, head: bool)
    requires Linkage(t, s) && t.Entity(e) && RtPrio(SePrio(t, s, e))
    requires e !in s.linked && t.Up(e) !in s.linked
    ensures Linkage(t, AddSe(t, s, e, head))
  {
    hide Residents, Home;
    var s' := AddSe(t, s, e, head);
    LinkedIn(t, s, s', e);
    LinkageUpdate(t, s, s', t.Up(e));
  }

  lemma LinkedIn(t: Topology, s: State, s': State, e: Id)
    requires Linkage(t, s) && Typed(t, s') && t.Entity(e) && RtPrio(SePrio(t, s, e)) && OnlyAt(t, s, s', t.Up(e))
    requires e !in s.linked && t.Up(e) !in s.linked && s'.linked == s.linked + {e}
    requires forall i, x :: 0 <= i < MAX_RT_PRIO ==>
               (x in s'.rqs[t.Up(e)].queue[i] <==> x in s.rqs[t.Up(e)].queue[i] || (x == e && i == SePrio(t, s, e)))
    ensures Residents(t, s', t.Up(e))
    ensures forall x {:trigger x in s'.linked} :: x in s'.linked && t.Up(x) == t.Up(e) ==> Home(t, s', x)
  {
    var g := t.Up(e);
    assert Residents(t, s, g);
    forall i, x | 0 <= i < MAX_RT_PRIO && x in s'.rqs[g].queue[i]
      ensures x in s'.linked && t.Entity(x) && t.Up(x) == g && SePrio(t, s', x) == i
    {
      if x != e {
        assert x in s.rqs[g].queue[i];
        assert t.Up(x) == g;
      }
    }
    forall x | x in s'.linked && t.Up(x) == g
      ensures Home(t, s', x)
    {
      assert x == e || Home(t, s, x);
    }
  }

  lemma DelSeOk(t: Topology, s: State, e: Id)
    requires Locals(t, s) && t.Entity(e) && e in s.linked && t.Up(e) !in s.linked
    ensures Home(t, s, e) && Locals(t, DelSe(t, s, e))
  {
    DelLinkage(t, s, e);
    Apart(t, s, t.Up(e));
    DelRqOk(s.rqs[t.Up(e)], e, SePrio(t, s, e));
  }

  lemma DelRqOk(r: RtRq, e: Id, p: int)
    requires RqOk(r) && OnceEach(r) && 0 <= p < MAX_RT_PRIO && e in r.queue[p]
    ensures RqOk(Del(r, e, p))
  {
    DelAgrees(r, e, p);
    WithoutNoDup(r.queue[p], e);
    UnlinkIsUpdate(r, e, p);
  }

  /** Entities of one run queue are on one queue each. */
  lemma Apart(t: Topology, s: State, g: Id)
    requires Locals(t, s) && g in t.groups
    ensures OnceEach(s.rqs[g])
  {
    var r := s.rqs[g];
    assert Residents(t, s, g);
    assert RqOk(r);
    forall i, j, e | 0 <= i < |r.queue| && 0 <= j < |r.queue| && e in r.queue[i] && e in r.queue[j]
      ensures i == j
    {
      assert SePrio(t, s, e) == i;
    }
  }

  lemma DelLinkage(t: Topology, s: State, e: Id)
    requires Linkage(t, s) && t.Entity(e) && e in s.linked && t.Up(e) !in s.linked
    ensures Home(t, s, e) && Linkage(t, DelSe(t, s, e))
  {
    assert Home(t, s, e);
    hide Residents;
    var s' := DelSe(t, s, e);
    LinkedOut(t, s, s', e);
    LinkageUpdate(t, s, s', t.Up(e));
  }

  lemma LinkedOut(t: Topology, s: State, s': State, e: Id)
    requires Linkage(t, s) && Typed(t, s') && t.Entity(e) && OnlyAt(t, s, s', t.Up(e))
    requires e in s.linked && t.Up(e) !in s.linked && s'.linked == s.linked - {e}
    requires s'.rqs[t.Up(e)].queue == Unlink(s.rqs[t.Up(e)].queue, e)
    ensures Residents(t, s', t.Up(e))
    ensures forall x {:trigger x in s'.linked} :: x in s'.linked && t.Up(x) == t.Up(e) ==> Home(t, s', x)
  {
    var g := t.Up(e);
    assert Residents(t, s, g);
    forall i, x | 0 <= i < MAX_RT_PRIO && x in s'.rqs[g].queue[i]
      ensures x in s'.linked && t.Entity(x) && t.Up(x) == g && SePrio(t, s', x) == i
    {
      assert x in s.rqs[g].queue[i];
      assert t.Up(x) == g;
    }
    forall x | x in s'.linked && t.Up(x) == g
      ensures Home(t, s', x)
    {
      assert Home(t, s, x);
    }
  }

  // ---- walks along the path of an entity ----

  /** dequeue_rt_stack: unlink the path of e, topmost entity first. */
  function DequeueStack(t: Topology, s: State, e: Id): (s': State)
    requires WellFormed(t) && Typed(t, s) && t.Entity(e)
    ensures Typed(t, s')
    decreases t.Rank(ROOT) - t.Rank(e)
  {
    var s1 := if t.Up(e) == ROOT then s else DequeueStack(t, s, t.Up(e));
    if e in s1.linked && RtPrio(SePrio(t, s1, e)) then DelSe(t, s1, e) else s1
  }

  /** __enqueue_rt_entity: a throttled or empty group stays off. */
  function TryEnqueue(t: Topology, s: State, e: Id, head: bool): (s': State)
    requires WellFormed(t) && Typed(t, s) && t.Entity(e)
    ensures Typed(t, s') && StepFrame(t, s, s', e)
  {
    if e in t.groups && (s.rqs[e].throttled || s.rqs[e].nrRunning == 0) then s
    else if RtPrio(SePrio(t, s, e)) then AddSe(t, s, e, head) else s
  }

  /** The loop of enqueue_rt_entity: link the path of e again, from the bottom up. */
  function EnqueueUp(t: Topology, s: State, e: Id, head: bool): (s': State)
    requires WellFormed(t) && Typed(t, s) && t.Entity(e)
    ensures Typed(t, s')
    decreases t.Rank(ROOT) - t.Rank(e)
  {
    var s1 := TryEnqueue(t, s, e, head);
    if t.Up(e) == ROOT then s1 else EnqueueUp(t, s1, t.Up(e), head)
  }

  /** enqueue_rt_entity */
  function Enqueue(t: Topology, s: State, e: Id, head: bool): (s': State)
    requires WellFormed(t) && Typed(t, s) && t.Entity(e)
    ensures Typed(t, s')
  {
    EnqueueUp(t, DequeueStack(t, s, e), e, head)
  }

  /** dequeue_rt_entity: groups on the path that still hold something go back on. */
  function Dequeue(t: Topology, s: State, e: Id): (s': State)
    requires WellFormed(t) && Typed(t, s) && t.Entity(e)
    ensures Typed(t, s')
  {
    var s1 := DequeueStack(t, s, e);
    if e in t.groups then EnqueueUp(t, s1, e, false)
    else if t.Up(e) == ROOT then s1
    else EnqueueUp(t, s1, t.Up(e), false)
  }

  /** Only run queues above e change; throttling, priorities and links off the path stay. */
  ghost predicate PathFrame(t: Topology, s: State, s': State, e: Id)
    requires WellFormed(t) && Typed(t, s) && Typed(t, s') && t.Entity(e)
  {
    && s'.prio == s.prio
    && (forall x :: x !in Path(t, e) ==> (x in s'.linked <==> x in s.linked))
    && (forall g :: g in t.groups ==> s'.rqs[g].throttled == s.rqs[g].throttled)
    && (forall g :: g in t.groups && g != ROOT && (g == e || g !in Path(t, e)) ==> s'.rqs[g] == s.rqs[g])
  }

  lemma RootUnlinked(t: Topology, s: State)
    requires Linkage(t, s)
    ensures ROOT !in s.linked
  {
    assert ROOT in s.linked ==> Home(t, s, ROOT);
  }

  /** The priority an entity is enqueued with is a real-time priority: the warnings in inc_rt_tasks cannot fire. */
  lemma SePrioInRange(t: Topology, s: State, e: Id)
    requires Locals(t, s) && t.Entity(e)
    ensures e !in t.groups || s.rqs[e].nrRunning != 0 <==> RtPrio(SePrio(t, s, e))
  {
    if e in t.groups {
      EmptyAgrees(s.rqs[e]);
    }
  }

  /** One step at e and a walk above e make a walk from e, in either order. */
  lemma FrameCompose(t: Topology, s: State, s1: State, s2: State, e: Id)
    requires WellFormed(t) && Typed(t, s) && Typed(t, s1) && Typed(t, s2) && t.Entity(e)
    requires (StepFrame(t, s, s1, e) && AboveFrame(t, s1, s2, e)) ||
             (AboveFrame(t, s, s1, e) && StepFrame(t, s1, s2, e))
    ensures PathFrame(t, s, s2, e)
  {
    hide Shape;
    assert t.Up(e) == ROOT || e !in Path(t, t.Up(e));
    assert Path(t, e) == {e} + if t.Up(e) == ROOT then {} else Path(t, t.Up(e));
    forall g | g in t.groups && g != ROOT && (g == e || g !in Path(t, e))
      ensures s2.rqs[g] == s.rqs[g]
    {
      assert g != t.Up(e);
    }
  }

  ghost predicate AboveFrame(t: Topology, s: State, s': State, e: Id)
    requires WellFormed(t) && Typed(t, s) && Typed(t, s') && t.Entity(e)
  {
    if t.Up(e) == ROOT then s' == s else PathFrame(t, s, s', t.Up(e))
  }

  lemma {:induction false} DequeueStackFrame(t: Topology, s: State, e: Id)
    requires WellFormed(t) && Typed(t, s) && t.Entity(e)
    ensures PathFrame(t, s, DequeueStack(t, s, e), e)
    decreases t.Rank(ROOT) - t.Rank(e)
  {
    if t.Up(e) != ROOT {
      DequeueStackFrame(t, s, t.Up(e));
    }
    var s1 := if t.Up(e) == ROOT then s else DequeueStack(t, s, t.Up(e));
    FrameCompose(t, s, s1, DequeueStack(t, s, e), e);
  }

  lemma {:induction false} EnqueueUpFrame(t: Topology, s: State, e: Id, head: bool)
    requires WellFormed(t) && Typed(t, s) && t.Entity(e)
    ensures PathFrame(t, s, EnqueueUp(t, s, e, head), e)
    decreases t.Rank(ROOT) - t.Rank(e)
  {
    var s1 := TryEnqueue(t, s, e, head);
    if t.Up(e) != ROOT {
      EnqueueUpFrame(t, s1, t.Up(e), head);
    }
    FrameCompose(t, s, s1, EnqueueUp(t, s, e, head), e);
  }

  lemma {:induction false} DequeueStackOk(t: Topology, s: State, e: Id)
    requires Locals(t, s) && t.Entity(e)
    ensures Locals(t, DequeueStack(t, s, e))
    ensures DequeueStack(t, s, e).linked == s.linked - Path(t, e)
    decreases t.Rank(ROOT) - t.Rank(e)
  {
    hide Residents, Home, RqOk, Shape, Add, Del;
    var s1 := s;
    if t.Up(e) != ROOT {
      DequeueStackOk(t, s, t.Up(e));
      s1 := DequeueStack(t, s, t.Up(e));
    }
    RootUnlinked(t, s1);
    if e in s1.linked {
      DelSeOk(t, s1, e);
    }
  }

  lemma TryEnqueueOk(t: Topology, s: State, e: Id, head: bool)
    requires Locals(t, s) && t.Entity(e) && e !in s.linked && t.Up(e) !in s.linked
    ensures Locals(t, TryEnqueue(t, s, e, head))
    ensures if e in t.groups then Placed(t, TryEnqueue(t, s, e, head), e) else e in TryEnqueue(t, s, e, head).linked
  {
    SePrioInRange(t, s, e);
    if !(e in t.groups && (s.rqs[e].throttled || s.rqs[e].nrRunning == 0)) {
      AddSeOk(t, s, e, head);
    }
  }

  lemma {:induction false} EnqueueUpOk(t: Topology, s: State, e: Id, head: bool)
    requires Locals(t, s) && t.Entity(e) && s.linked !! Path(t, e)
    ensures Locals(t, EnqueueUp(t, s, e, head))
    ensures t.Task(e) ==> e in EnqueueUp(t, s, e, head).linked
    ensures forall x :: x in Path(t, e) && x in t.groups ==> Placed(t, EnqueueUp(t, s, e, head), x)
    decreases t.Rank(ROOT) - t.Rank(e)
  {
    hide Residents, Home, RqOk, Shape, Add, Del;
    RootUnlinked(t, s);
    TryEnqueueOk(t, s, e, head);
    var s1 := TryEnqueue(t, s, e, head);
    if t.Up(e) != ROOT {
      assert s1.linked !! Path(t, t.Up(e));
      EnqueueUpOk(t, s1, t.Up(e), head);
      EnqueueUpFrame(t, s1, t.Up(e), head);
      var s2 := EnqueueUp(t, s1, t.Up(e), head);
      assert e !in Path(t, t.Up(e));
      assert e in t.groups ==> s2.rqs[e] == s1.rqs[e] && Placed(t, s2, e);
      assert EnqueueUp(t, s, e, head) == s2;
    }
  }
}
