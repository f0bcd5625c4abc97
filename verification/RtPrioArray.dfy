/**
 One real-time run queue: the priority array of struct rt_rq with its bitmap, its
 entity count and its cached highest priority.
 */
module RtPrioArray {
  import opened Common
  import opened ListOps

  /** A scheduling entity, or the run queue owned by a group entity. */
  type Id = nat

  /** The value of a struct rt_rq. */
  datatype RtRq = RtRq(queue: seq<seq<Id>>, bitmap: seq<bool>, nrRunning: int, highest: int, throttled: bool)

  /** Index of the first set bit at or after i, or the length when there is none. */
  function FirstBit(bits: seq<bool>, i: nat): (r: nat)
    requires i <= |bits|
    ensures i <= r <= |bits|
    ensures r < |bits| ==> bits[r]
    ensures forall j :: i <= j < r ==> !bits[j]
    decreases |bits| - i
  {
    if i == |bits| || bits[i] then i else FirstBit(bits, i + 1)
  }

  ghost function Total(queue: seq<seq<Id>>): nat {
    if queue == [] then 0 else |queue[0]| + Total(queue[1..])
  }

  lemma {:induction false} TotalUpdate(queue: seq<seq<Id>>, i: nat, x: seq<Id>)
    requires i < |queue|
    ensures Total(queue[i := x]) == Total(queue) - |queue[i]| + |x|
  {
    if i == 0 {
      assert queue[0 := x][1..] == queue[1..];
    } else {
      assert queue[i := x][1..] == queue[1..][i - 1 := x];
      TotalUpdate(queue[1..], i - 1, x);
    }
  }

  lemma {:induction false} TotalZero(queue: seq<seq<Id>>)
    ensures Total(queue) == 0 <==> forall i :: 0 <= i < |queue| ==> queue[i] == []
  {
    if queue != [] {
      TotalZero(queue[1..]);
      assert forall i :: 0 < i < |queue| ==> queue[i] == queue[1..][i - 1];
      assert forall i :: 0 <= i < |queue| - 1 ==> queue[1..][i] == queue[i + 1];
    }
  }

  /** The arrays have their declared sizes and the delimiter bit is set. */
  ghost predicate Shape(r: RtRq) {
    && |r.queue| == MAX_RT_PRIO
    && |r.bitmap| == MAX_RT_PRIO + 1
    && r.bitmap[MAX_RT_PRIO]
  }

  /** Bitmap, count and cached priority all agree with the queues. */
  ghost predicate Agrees(r: RtRq) {
    && Shape(r)
    && (forall i :: 0 <= i < MAX_RT_PRIO ==> (r.bitmap[i] <==> r.queue[i] != []))
    && r.nrRunning == Total(r.queue)
    && r.highest == FirstBit(r.bitmap, 0)
  }

  /** The derived fields agree, and no queue links an entity twice. */
  ghost predicate RqOk(r: RtRq) {
    Agrees(r) && forall i :: 0 <= i < MAX_RT_PRIO ==> NoDup(r.queue[i])
  }

  /** on_rt_rq: the entity is linked into one of the queues. */
  predicate Queued(r: RtRq, e: Id) {
    exists i :: 0 <= i < |r.queue| && e in r.queue[i]
  }

  /** No entity is linked twice. */
  ghost predicate OnceEach(r: RtRq) {
    && (forall i :: 0 <= i < |r.queue| ==> NoDup(r.queue[i]))
    && (forall i, j, e :: 0 <= i < |r.queue| && 0 <= j < |r.queue| && e in r.queue[i] && e in r.queue[j] ==> i == j)
  }

  /** The enqueue half: link at head or tail, set the bit, count, lower the cached priority. */
  function Add(r: RtRq, e: Id, prio: int, head: bool): RtRq
    requires Shape(r) && 0 <= prio < MAX_RT_PRIO
  {
    r.(queue := r.queue[prio := if head then [e] + r.queue[prio] else r.queue[prio] + [e]],
       bitmap := r.bitmap[prio := true],
       nrRunning := r.nrRunning + 1,
       highest := if prio < r.highest then prio else r.highest)
  }

  /** list_del on whichever queue holds e. */
  function Unlink(queue: seq<seq<Id>>, e: Id): (r: seq<seq<Id>>)
    ensures |r| == |queue|
    ensures forall i :: 0 <= i < |queue| ==> r[i] == Without(queue[i], e)
  {
    seq(|queue|, i requires 0 <= i < |queue| => Without(queue[i], e))
  }

  /** The dequeue half: unlink, clear the bit of an emptied queue, count, recompute the cached priority. */
  function Del(r: RtRq, e: Id, prio: int): RtRq
    requires Shape(r) && 0 <= prio < MAX_RT_PRIO
  {
    var queue := Unlink(r.queue, e);
    var bitmap := if queue[prio] == [] then r.bitmap[prio := false] else r.bitmap;
    var nr := r.nrRunning - 1;
    r.(queue := queue, bitmap := bitmap, nrRunning := nr,
       highest := if nr == 0 then MAX_RT_PRIO
                  else if prio == r.highest then FirstBit(bitmap, 0)
                  else r.highest)
  }

  /** list_move or list_move_tail of a linked entity within the queue of its priority. */
  function Requeue(r: RtRq, e: Id, prio: int, head: bool): RtRq
    requires Shape(r) && 0 <= prio < MAX_RT_PRIO
  {
    var queue := Unlink(r.queue, e);
    r.(queue := queue[prio := if head then [e] + queue[prio] else queue[prio] + [e]])
  }

  lemma FirstBitUnique(bits: seq<bool>, k: nat)
    requires k < |bits| && bits[k] && forall j :: 0 <= j < k ==> !bits[j]
    ensures FirstBit(bits, 0) == k
  {
    var r := FirstBit(bits, 0);
    assert r >= k;
  }

  /** A run queue is counted empty exactly when its cached priority says so and no entity is linked. */
  lemma EmptyAgrees(r: RtRq)
    requires Agrees(r)
    ensures 0 <= r.highest <= MAX_RT_PRIO
    ensures r.nrRunning == 0 <==> r.highest == MAX_RT_PRIO
    ensures r.nrRunning == 0 <==> forall i :: 0 <= i < MAX_RT_PRIO ==> r.queue[i] == []
    ensures r.highest < MAX_RT_PRIO ==> r.queue[r.highest] != []
    ensures forall i :: 0 <= i < MAX_RT_PRIO && r.queue[i] != [] ==> r.highest <= i
  {
    TotalZero(r.queue);
    var h := FirstBit(r.bitmap, 0);
    forall i | 0 <= i < MAX_RT_PRIO && r.queue[i] != []
      ensures r.highest <= i
    {
      assert r.bitmap[i];
    }
  }

  /** Rewriting one queue keeps the entities apart if the new queue brings in only entities that were nowhere else. */
  lemma OnceEachUpdate(r: RtRq, prio: nat, q: seq<Id>)
    requires OnceEach(r) && prio < |r.queue| && NoDup(q)
    requires forall i, x :: 0 <= i < |r.queue| && i != prio && x in q ==> x !in r.queue[i]
    ensures OnceEach(r.(queue := r.queue[prio := q]))
  {
    var r' := r.(queue := r.queue[prio := q]);
    forall i, j, x | 0 <= i < |r'.queue| && 0 <= j < |r'.queue| && x in r'.queue[i] && x in r'.queue[j]
      ensures i == j
    {
      if i != prio && j != prio {
        assert x in r.queue[i] && x in r.queue[j];
      }
    }
  }

  /** Enqueuing keeps bitmap, count and cached priority in step with the queues. */
  lemma AddAgrees(r: RtRq, e: Id, prio: int, head: bool)
    requires Agrees(r) && 0 <= prio < MAX_RT_PRIO
    ensures Agrees(Add(r, e, prio, head))
  {
    var r' := Add(r, e, prio, head);
    TotalUpdate(r.queue, prio, r'.queue[prio]);
    FirstBitUnique(r'.bitmap, r'.highest);
  }

  /** list_del only shortens the one queue that holds the entity. */
  lemma UnlinkIsUpdate(r: RtRq, e: Id, prio: nat)
    requires OnceEach(r) && prio < |r.queue| && e in r.queue[prio]
    ensures Unlink(r.queue, e) == r.queue[prio := Without(r.queue[prio], e)]
  {
    forall i | 0 <= i < |r.queue| && i != prio
      ensures Unlink(r.queue, e)[i] == r.queue[i]
    {
      assert e !in r.queue[i];
    }
  }

  /** Dequeuing keeps them in step too, and the warning in dec_rt_prio cannot fire. */
  lemma DelAgrees(r: RtRq, e: Id, prio: int)
    requires Agrees(r) && OnceEach(r) && 0 <= prio < MAX_RT_PRIO && e in r.queue[prio]
    ensures r.highest <= prio && r.nrRunning > 0
    ensures Agrees(Del(r, e, prio))
  {
    var r' := Del(r, e, prio);
    EmptyAgrees(r);
    UnlinkIsUpdate(r, e, prio);
    WithoutNoDup(r.queue[prio], e);
    TotalUpdate(r.queue, prio, r'.queue[prio]);
    TotalZero(r'.queue);
    if r'.nrRunning == 0 {
      FirstBitUnique(r'.bitmap, MAX_RT_PRIO);
    } else if prio != r.highest {
      FirstBitUnique(r'.bitmap, r.highest);
    }
  }

  /** The queue with x taken out and linked in again at one end. */
  function MovedToEnd(q: seq<Id>, x: Id, head: bool): seq<Id> {
    if head then [x] + Without(q, x) else Without(q, x) + [x]
  }

  /** Rotating an entity puts it at the end asked for of its queue and changes no membership and no derived field. */
  lemma RequeueAgrees(r: RtRq, e: Id, prio: int, head: bool)
    requires Agrees(r) && OnceEach(r) && 0 <= prio < MAX_RT_PRIO && e in r.queue[prio]
    ensures Agrees(Requeue(r, e, prio, head)) && OnceEach(Requeue(r, e, prio, head))
    ensures forall i :: 0 <= i < MAX_RT_PRIO && i != prio ==> Requeue(r, e, prio, head).queue[i] == r.queue[i]
    ensures forall x :: x in Requeue(r, e, prio, head).queue[prio] <==> x in r.queue[prio]
    ensures Requeue(r, e, prio, head).queue[prio] == MovedToEnd(r.queue[prio], e, head)
  {
    var r' := Requeue(r, e, prio, head);
    var q := Without(r.queue[prio], e);
    var q' := if head then [e] + q else q + [e];
    UnlinkIsUpdate(r, e, prio);
    assert r'.queue == r.queue[prio := q'];
    WithoutNoDup(r.queue[prio], e);
    TotalUpdate(r.queue, prio, q');
    assert forall x :: x in q' <==> x in r.queue[prio];
    OnceEachUpdate(r, prio, q');
  }

  /** struct rt_rq, updated in place. */
  class RtRqObject {
    var queue: seq<seq<Id>>
    var bitmap: seq<bool>
    var nrRunning: int
    var highest: int
    var throttled: bool

    function Value(): RtRq
      reads this
    {
      RtRq(queue, bitmap, nrRunning, highest, throttled)
    }

    /** init_rt_rq */
    constructor ()
      ensures Agrees(Value()) && OnceEach(Value())
      ensures nrRunning == 0 && !throttled && forall e :: !Queued(Value(), e)
    {
      queue, bitmap := [], [];
      nrRunning, highest, throttled := 0, MAX_RT_PRIO, false;
      new;
      var i := 0;
      while i < MAX_RT_PRIO
        invariant 0 <= i <= MAX_RT_PRIO && |queue| == |bitmap| == i
        invariant forall k :: 0 <= k < i ==> queue[k] == [] && !bitmap[k]
        invariant nrRunning == 0 && !throttled && highest == MAX_RT_PRIO
      {
        queue, bitmap := queue + [[]], bitmap + [false];
        i := i + 1;
      }
      bitmap := bitmap + [true];
      TotalZero(queue);
      FirstBitUnique(bitmap, MAX_RT_PRIO);
    }

    /** sched_find_first_bit over the bitmap */
    method FindFirstBit() returns (idx: nat)
      requires Shape(Value())
      ensures idx == FirstBit(bitmap, 0)
    {
      idx := 0;
      while !bitmap[idx]
        invariant 0 <= idx <= MAX_RT_PRIO
        invariant FirstBit(bitmap, idx) == FirstBit(bitmap, 0)
        decreases MAX_RT_PRIO - idx
      {
        idx := idx + 1;
      }
    }

    /** inc_rt_prio */
    method IncRtPrio(prio: int)
      modifies this`highest
      ensures highest == if prio < old(highest) then prio else old(highest)
    {
      var prev := highest;
      if prio < prev {
        highest := prio;
      }
    }

    /** dec_rt_prio */
    method DecRtPrio(prio: int)
      requires Shape(Value())
      modifies this`highest
      ensures highest == if nrRunning == 0 then MAX_RT_PRIO
                         else if prio == old(highest) then FirstBit(bitmap, 0) else old(highest)
    {
      var prev := highest;
      if nrRunning != 0 {
        if prio == prev {
          highest := FindFirstBit();
        }
      } else {
        highest := MAX_RT_PRIO;
      }
    }

    /** The linking part of __enqueue_rt_entity, with inc_rt_tasks. */
    method Link(e: Id, prio: int, head: bool)
      requires Shape(Value()) && 0 <= prio < MAX_RT_PRIO
      modifies this
      ensures Value() == Add(old(Value()), e, prio, head)
    {
      queue := queue[prio := if head then [e] + queue[prio] else queue[prio] + [e]];
      bitmap := bitmap[prio := true];
      nrRunning := nrRunning + 1;
      IncRtPrio(prio);
    }

    /** __dequeue_rt_entity, with dec_rt_tasks. */
    method Delink(e: Id, prio: int)
      requires Shape(Value()) && 0 <= prio < MAX_RT_PRIO
      modifies this
      ensures Value() == Del(old(Value()), e, prio)
    {
      queue := Unlink(queue, e);
      if queue[prio] == [] {
        bitmap := bitmap[prio := false];
      }
      nrRunning := nrRunning - 1;
      DecRtPrio(prio);
    }

    /** requeue_rt_entity for a linked entity. */
    method Move(e: Id, prio: int, head: bool)
      requires Shape(Value()) && 0 <= prio < MAX_RT_PRIO
      modifies this`queue
      ensures Value() == Requeue(old(Value()), e, prio, head)
    {
      queue := Unlink(queue, e);
      queue := queue[prio := if head then [e] + queue[prio] else queue[prio] + [e]];
    }
  }
}
