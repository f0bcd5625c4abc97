/**
 The RAS scheduling class: a circular list served round robin, with time slices weighted by the
 group of a task and by how often it has written.
 */
module Ras {
  import opened Common
  import opened ListOps

  datatype Group = Foreground | Background | Unknown

  /** The part of a task that the class uses. */
  datatype Entity = Entity(group: Group, wcounts: nat, weight: nat, slice: nat)

  /** calc_ras_weight */
  function CalcWeight(wcounts: nat): nat
  {
    if wcounts < 16 then 10
    else if wcounts < 32 then 9
    else if wcounts < 64 then 8
    else if wcounts < 128 then 7
    else if wcounts < 256 then 6
    else if wcounts < 512 then 5
    else if wcounts < 1024 then 4
    else if wcounts < 2048 then 3
    else if wcounts < 4096 then 2
    else if wcounts < 8192 then 1
    else 0
  }

  /** The write count from which a task is below weight w. */
  function Band(w: nat): nat
    requires 1 <= w <= 10
  {
    Pow2(14 - w)
  }

  /** The weight drops by one with each doubling of the write count, from 10 below 2^4 to 0 from 2^13 on. */
  lemma WeightBands(wcounts: nat, w: nat)
    requires 1 <= w <= 10
    ensures CalcWeight(wcounts) >= w <==> wcounts < Band(w)
  {
    assert Pow2(4) == 16 && Pow2(5) == 32 && Pow2(6) == 64;
    assert Pow2(7) == 128 && Pow2(8) == 256 && Pow2(9) == 512;
    assert Pow2(10) == 1024 && Pow2(11) == 2048 && Pow2(12) == 4096 && Pow2(13) == 8192;
    hide Pow2;
  }

  /** RAS_FG_TIMESLICE and RAS_BG_TIMESLICE, each with the weighted RAS_INC_TIME */
  function FgSlice(hz: nat, weight: nat): nat { 50 * hz / 1000 + weight * (10 * hz / 1000) }
  function BgSlice(hz: nat, weight: nat): nat { 30 * hz / 1000 + weight * (10 * hz / 1000) }

  function SliceOf(hz: nat, group: Group, weight: nat): nat
  {
    if group == Foreground then FgSlice(hz, weight) else BgSlice(hz, weight)
  }

  /** The longest slice a task can get: a foreground task of full weight. */
  function MaxSlice(hz: nat): nat { 50 * hz / 1000 + 10 * (10 * hz / 1000) }

  function Refilled(hz: nat, e: Entity): Entity
  {
    var w := CalcWeight(e.wcounts);
    e.(weight := w, slice := SliceOf(hz, e.group, w))
  }

  lemma RefilledOk(hz: nat, e: Entity)
    requires 100 <= hz < WORD
    ensures 1 <= Refilled(hz, e).slice <= MaxSlice(hz) < WORD
  {
    var w, inc := CalcWeight(e.wcounts), 10 * hz / 1000;
    assert w * inc <= 10 * inc;
  }

  lemma WeightFalls(a: nat, b: nat)
    ensures a <= b ==> CalcWeight(a) >= CalcWeight(b)
  {}

  /** A task that has written no more gets no shorter a slice, and a foreground task a longer one than any other. */
  lemma SliceFavours(hz: nat, e: Entity, f: Entity)
    requires 100 <= hz && e.wcounts <= f.wcounts
    ensures e.group == f.group ==> Refilled(hz, e).slice >= Refilled(hz, f).slice
    ensures e.group == Foreground && f.group != Foreground ==> Refilled(hz, e).slice > Refilled(hz, f).slice
    ensures e.group == Foreground && f.group != Foreground ==>
            Refilled(hz, e).slice - Refilled(hz, f).slice >= 20 * hz / 1000
  {
    var inc := 10 * hz / 1000;
    WeightFalls(e.wcounts, f.wcounts);
    MulNoLess(CalcWeight(e.wcounts), CalcWeight(f.wcounts), inc);
  }

  /** How many of the bounds of the weights from w on separate two write counts. */
  function BandsBetween(a: nat, b: nat, w: nat): nat
    requires 1 <= w
    decreases 11 - w
  {
    if w > 10 then 0 else (if a < Band(w) <= b then 1 else 0) + BandsBetween(a, b, w + 1)
  }

  lemma {:induction false} WeightsApart(a: nat, b: nat, w: nat)
    requires a <= b && 1 <= w <= 11
    ensures var (hi, lo) := (CalcWeight(a), CalcWeight(b));
            lo <= hi <= 10 && BandsBetween(a, b, w) == if hi < w then 0 else if lo < w then hi - w + 1 else hi - lo
    decreases 11 - w
  {
    WeightFalls(a, b);
    WeightAtMost(a);
    if w <= 10 {
      WeightBands(a, w);
      WeightBands(b, w);
      hide CalcWeight, Band;
      WeightsApart(a, b, w + 1);
    }
  }

  /**
   Within a group a slice is shorter than another by exactly one increment for each power of two between the write
   counts; a task of 2^13 writes or more has the base slice, and a foreground one has the longer base.
   */
  lemma SlicesApart(hz: nat, e: Entity, f: Entity)
    requires e.wcounts <= f.wcounts
    ensures (e.group == Foreground) == (f.group == Foreground) ==>
              Refilled(hz, e).slice - Refilled(hz, f).slice == BandsBetween(e.wcounts, f.wcounts, 1) * (10 * hz / 1000)
    ensures e.group == Foreground && e.wcounts < 16 ==> Refilled(hz, e).slice == MaxSlice(hz)
    ensures f.wcounts >= 8192 ==> Refilled(hz, f).slice == (if f.group == Foreground then 50 else 30) * hz / 1000
  {
    WeightsApart(e.wcounts, f.wcounts, 1);
    Distribute(CalcWeight(e.wcounts), CalcWeight(f.wcounts), 10 * hz / 1000);
  }

  lemma Distribute(a: int, b: int, c: int)
    ensures (a - b) * c == a * c - b * c
  {}

  lemma MulNoLess(a: nat, b: nat, c: nat)
    requires a >= b
    ensures a * c >= b * c
  {}

  /** A run queue as the class sees it; rasNr and nr are ras_nr_running and nr_running. */
  datatype Rq = Rq(hz: nat, tasks: seq<Entity>, queue: seq<nat>, rasNr: int, nr: int, curr: nat, resched: bool)

  ghost predicate Inv(r: Rq)
  {
    && 100 <= r.hz < WORD
    && NoDup(r.queue)
    && r.rasNr == |r.queue| <= r.nr
    && r.curr < |r.tasks|
    && (forall p :: p in r.queue ==> p < |r.tasks| && 1 <= r.tasks[p].slice <= MaxSlice(r.hz))
  }

  // ---- the operations of the class ----

  function Enqueue(r: Rq, p: nat, head: bool): Rq
    requires p < |r.tasks|
  {
    r.(tasks := r.tasks[p := Refilled(r.hz, r.tasks[p])],
       queue := if head then [p] + r.queue else r.queue + [p],
       rasNr := r.rasNr + 1, nr := r.nr + 1)
  }

  function Dequeue(r: Rq, p: nat): Rq
  {
    if p in r.queue then r.(queue := Without(r.queue, p), rasNr := r.rasNr - 1, nr := r.nr - 1)
    else r.(nr := r.nr - 1)
  }

  /** list_move_tail */
  function MovedToTail(q: seq<nat>, p: nat): seq<nat> { Without(q, p) + [p] }

  function PutPrev(r: Rq, p: nat): Rq
  {
    if p in r.queue then r.(queue := MovedToTail(r.queue, p)) else r
  }

  function PickNext(r: Rq): Option<nat>
  {
    if r.rasNr == 0 || r.queue == [] then None else Some(r.queue[0])
  }

  /** What the next and prev pointers of the list head point to: the head itself when the list is empty. */
  function HeadNext(q: seq<nat>): Option<nat> { if q == [] then None else Some(q[0]) }
  function HeadPrev(q: seq<nat>): Option<nat> { if q == [] then None else Some(q[|q| - 1]) }

  /** The slice is an unsigned word. */
  function Decremented(slice: nat): nat { (slice - 1) % WORD }

  /** task_tick */
  function Tick(r: Rq): Rq
    requires r.curr < |r.tasks|
  {
    var e := r.tasks[r.curr];
    var left := Decremented(e.slice);
    if left != 0 then r.(tasks := r.tasks[r.curr := e.(slice := left)])
    else
      var r1 := r.(tasks := r.tasks[r.curr := Refilled(r.hz, e)]);
      if HeadPrev(r.queue) != HeadNext(r.queue) then PutPrev(r1, r.curr).(resched := true) else r1
  }

  /** get_rr_interval also refills the slice of the task it is asked about. */
  function Query(r: Rq, p: nat): Rq
    requires p < |r.tasks|
  {
    r.(tasks := r.tasks[p := Refilled(r.hz, r.tasks[p])])
  }

  /** check_preempt_curr: both weights are recomputed. */
  function CheckPreempt(r: Rq, p: nat): Rq
    requires p < |r.tasks| && r.curr < |r.tasks|
  {
    var wp, wc := CalcWeight(r.tasks[p].wcounts), CalcWeight(r.tasks[r.curr].wcounts);
    var tasks := r.tasks[p := r.tasks[p].(weight := wp)];
    r.(tasks := tasks[r.curr := tasks[r.curr].(weight := wc)], resched := r.resched || wp > wc)
  }

  /** A woken task preempts exactly when a power of two from 2^4 to 2^13 separates the two write counts. */
  lemma PreemptsFewerWrites(r: Rq, p: nat)
    requires p < |r.tasks| && r.curr < |r.tasks| && !r.resched
    ensures CheckPreempt(r, p).resched <==>
            exists w :: 1 <= w <= 10 && r.tasks[p].wcounts < Band(w) <= r.tasks[r.curr].wcounts
    ensures forall x :: 0 <= x < |r.tasks| ==>
              var (e, e') := (r.tasks[x], CheckPreempt(r, p).tasks[x]);
              e' == if x == p || x == r.curr then e.(weight := CalcWeight(e.wcounts)) else e
  {
    var woken, running := r.tasks[p].wcounts, r.tasks[r.curr].wcounts;
    forall w | 1 <= w <= 10
      ensures CalcWeight(woken) >= w <==> woken < Band(w)
      ensures CalcWeight(running) >= w <==> running < Band(w)
    {
      WeightBands(woken, w);
      WeightBands(running, w);
    }
    var top := CalcWeight(woken);
    hide CalcWeight;
    if top > CalcWeight(running) {
      WeightAtMost(woken);
      assert woken < Band(top) <= running;
    }
  }

  lemma WeightAtMost(wcounts: nat)
    ensures CalcWeight(wcounts) <= 10
  {}

  /** One pass of __schedule with no task of a higher class: other runs when the list is empty. */
  function Schedule(r: Rq, sleeps: bool, other: nat): Rq
  {
    var r1 := if sleeps then Dequeue(r, r.curr) else r;
    var r2 := PutPrev(r1, r.curr);
    r2.(curr := match PickNext(r2) case Some(p) => p case None => other, resched := false)
  }

  lemma EnqueueInv(r: Rq, p: nat, head: bool)
    requires Inv(r) && p < |r.tasks| && p !in r.queue
    ensures Inv(Enqueue(r, p, head))
  {
    RefilledOk(r.hz, r.tasks[p]);
  }

  lemma DequeueInv(r: Rq, p: nat)
    requires Inv(r) && (p !in r.queue ==> r.nr > r.rasNr)
    ensures Inv(Dequeue(r, p))
  {
    WithoutNoDup(r.queue, p);
  }

  lemma PutPrevInv(r: Rq, p: nat)
    requires Inv(r)
    ensures Inv(PutPrev(r, p))
  {
    WithoutNoDup(r.queue, p);
  }

  /** The pointer test of the tick means exactly: at least two tasks are queued. */
  lemma EndsDiffer(q: seq<nat>)
    requires NoDup(q)
    ensures HeadPrev(q) != HeadNext(q) <==> |q| >= 2
  {
    if |q| >= 2 {
      assert q[0] != q[|q| - 1];
    }
  }

  lemma TickInv(r: Rq)
    requires Inv(r)
    ensures Inv(Tick(r))
  {
    hide Refilled, MaxSlice, Decremented;
    var e := r.tasks[r.curr];
    var r1 := r.(tasks := r.tasks[r.curr := Refilled(r.hz, e)]);
    RefilledOk(r.hz, e);
    if r.curr in r.queue {
      DecrementedOk(e.slice);
    }
    assert Inv(r1);
    PutPrevInv(r1, r.curr);
  }

  lemma DecrementedOk(slice: nat)
    requires 1 <= slice < WORD
    ensures Decremented(slice) == slice - 1
  {}

  lemma QueryInv(r: Rq, p: nat)
    requires Inv(r) && p < |r.tasks|
    ensures Inv(Query(r, p))
  {
    RefilledOk(r.hz, r.tasks[p]);
  }

  // ---- round robin ----

  /** A processor serving tasks in turn: the current task, whether it wants to go on, and those that wait. */
  datatype RoundRobin = RoundRobin(curr: nat, on: bool, waiting: seq<nat>)

  /** The list without the running task is the line of waiters, wherever the running task stands in it. */
  function View(r: Rq): RoundRobin
  {
    RoundRobin(r.curr, r.curr in r.queue, Without(r.queue, r.curr))
  }

  function Turn(v: RoundRobin, sleeps: bool, other: nat): RoundRobin
  {
    var again := v.on && !sleeps;
    if v.waiting != [] then RoundRobin(v.waiting[0], true, v.waiting[1..] + (if again then [v.curr] else []))
    else if again then v
    else RoundRobin(other, false, [])
  }

  datatype Step =
    | DoTick
    | DoSchedule(sleeps: bool, other: nat)
    | DoEnqueue(p: nat, head: bool)
    | DoDequeue(p: nat)
    | DoYield
    | DoQuery(p: nat)
    | DoCheckPreempt(p: nat)
    | DoWrite(p: nat)

  predicate Enabled(r: Rq, step: Step)
  {
    match step
    case DoTick => r.curr in r.queue && r.curr < |r.tasks|
    case DoSchedule(sleeps, other) => (sleeps ==> r.curr in r.queue) && other < |r.tasks| && other !in r.queue
    case DoEnqueue(p, _) => p < |r.tasks| && p !in r.queue && p != r.curr
    case DoDequeue(p) => p in r.queue && p != r.curr
    case DoYield => true
    case DoQuery(p) => p < |r.tasks|
    case DoCheckPreempt(p) => p < |r.tasks| && r.curr < |r.tasks|
    case DoWrite(p) => p < |r.tasks|
  }

  function Next(r: Rq, step: Step): Rq
    requires Enabled(r, step)
  {
    match step
    case DoTick => Tick(r)
    case DoSchedule(sleeps, other) => Schedule(r, sleeps, other)
    case DoEnqueue(p, head) => Enqueue(r, p, head)
    case DoDequeue(p) => Dequeue(r, p)
    case DoYield => PutPrev(r, r.curr)
    case DoQuery(p) => Query(r, p)
    case DoCheckPreempt(p) => CheckPreempt(r, p)
    case DoWrite(p) => r.(tasks := r.tasks[p := r.tasks[p].(wcounts := r.tasks[p].wcounts + 1)])
  }

  lemma ScheduleInv(r: Rq, sleeps: bool, other: nat)
    requires Inv(r) && Enabled(r, DoSchedule(sleeps, other))
    ensures Inv(Schedule(r, sleeps, other))
  {
    var r1 := if sleeps then Dequeue(r, r.curr) else r;
    if sleeps {
      DequeueInv(r, r.curr);
    }
    PutPrevInv(r1, r.curr);
    var q := PutPrev(r1, r.curr).queue;
    assert q != [] ==> q[0] in q;
  }

  lemma NextInv(r: Rq, step: Step)
    requires Inv(r) && Enabled(r, step)
    ensures Inv(Next(r, step))
  {
    match step
    case DoTick => TickInv(r);
    case DoSchedule(sleeps, other) => ScheduleInv(r, sleeps, other);
    case DoEnqueue(p, head) => EnqueueInv(r, p, head);
    case DoDequeue(p) => DequeueInv(r, p);
    case DoYield => PutPrevInv(r, r.curr);
    case DoQuery(p) => QueryInv(r, p);
    case DoCheckPreempt(p) =>
    case DoWrite(p) =>
  }

  function RoundRobinNext(v: RoundRobin, step: Step): RoundRobin
  {
    match step
    case DoSchedule(sleeps, other) => Turn(v, sleeps, other)
    case DoEnqueue(p, head) => v.(waiting := if head then [p] + v.waiting else v.waiting + [p])
    case DoDequeue(p) => v.(waiting := Without(v.waiting, p))
    case _ => v
  }

  lemma {:induction false} WithoutCommutes(s: seq<nat>, x: nat, y: nat)
    ensures Without(Without(s, x), y) == Without(Without(s, y), x)
  {
    if s != [] {
      WithoutCommutes(s[1..], x, y);
      var a, b := Without(s[1..], x), Without(s[1..], y);
      if s[0] != x { assert ([s[0]] + a)[1..] == a; }
      if s[0] != y { assert ([s[0]] + b)[1..] == b; }
    }
  }

  /** The list after a reschedule, and who runs. */
  lemma ScheduleQueue(r: Rq, sleeps: bool, other: nat)
    requires Inv(r) && Enabled(r, DoSchedule(sleeps, other))
    ensures var r', w, again := Schedule(r, sleeps, other), Without(r.queue, r.curr), r.curr in r.queue && !sleeps;
            var q := if again then w + [r.curr] else w;
            r'.queue == q && r'.curr == (if q == [] then other else q[0]) && other !in q
  {
    WithoutRelink(r.queue, r.curr);
    WithoutNoDup(r.queue, r.curr);
    hide NoDup, Without, MaxSlice;
  }

  lemma TurnRefines(r: Rq, sleeps: bool, other: nat)
    requires Inv(r) && Enabled(r, DoSchedule(sleeps, other))
    ensures View(Schedule(r, sleeps, other)) == Turn(View(r), sleeps, other)
  {
    var w, again := Without(r.queue, r.curr), r.curr in r.queue && !sleeps;
    var back := if again then [r.curr] else [];
    ScheduleQueue(r, sleeps, other);
    WithoutNoDup(r.queue, r.curr);
    assert r.curr !in w && NoDup(w);
    hide Schedule, Inv, Without, NoDup;
    if w != [] {
      TurnList(w, back);
    } else if again {
      assert w + back == [r.curr];
    }
  }

  lemma TurnList(w: seq<nat>, back: seq<nat>)
    requires w != [] && NoDup(w) && w[0] !in back
    ensures w[0] in w + back && Without(w + back, w[0]) == w[1..] + back
  {
    assert w + back == [w[0]] + (w[1..] + back);
    assert w[0] !in w[1..] + back;
    WithoutConcat([w[0]], w[1..] + back, w[0]);
    assert Without([w[0]], w[0]) == [];
  }

  /** The class is round robin: every step of the list is the same step of the line. */
  lemma RefinesRoundRobin(r: Rq, step: Step)
    requires Inv(r) && Enabled(r, step)
    ensures View(Next(r, step)) == RoundRobinNext(View(r), step)
  {
    hide Inv, Refilled, CalcWeight, Schedule, Turn;
    match step
    case DoSchedule(sleeps, other) => TurnRefines(r, sleeps, other);
    case DoEnqueue(p, head) => JoinRefines(r.queue, p, r.curr);
    case DoDequeue(p) => WithoutCommutes(r.queue, p, r.curr);
    case DoTick => WithoutRelink(Without(r.queue, r.curr), r.curr);
    case DoYield => WithoutRelink(Without(r.queue, r.curr), r.curr);
    case _ =>
  }

  lemma JoinRefines(q: seq<nat>, p: nat, curr: nat)
    requires p != curr
    ensures Without([p] + q, curr) == [p] + Without(q, curr) && Without(q + [p], curr) == Without(q, curr) + [p]
  {
    WithoutConcat([p], q, curr);
    WithoutConcat(q, [p], curr);
    assert Without([p], curr) == [p];
  }

  // ---- how long a waiter waits ----

  /** The number of waiters ahead of t. */
  function Ahead(w: seq<nat>, t: nat): nat
    requires t in w
  {
    if w[0] == t then 0 else 1 + Ahead(w[1..], t)
  }

  lemma {:induction false} AheadConcat(a: seq<nat>, b: seq<nat>, t: nat)
    requires t in a
    ensures Ahead(a + b, t) == Ahead(a, t)
  {
    if a[0] != t {
      assert (a + b)[1..] == a[1..] + b;
      AheadConcat(a[1..], b, t);
    }
  }

  lemma {:induction false} AheadWithout(w: seq<nat>, p: nat, t: nat)
    requires t in w && p != t
    ensures Ahead(Without(w, p), t) <= Ahead(w, t)
  {
    if w[0] != t {
      AheadWithout(w[1..], p, t);
      if w[0] != p { assert ([w[0]] + Without(w[1..], p))[1..] == Without(w[1..], p); }
    }
  }

  /** Steps that push a waiter back: an insert at the head, and a slice query on the running task. */
  predicate Disturbs(r: Rq, step: Step)
  {
    (step.DoEnqueue? && step.head) || (step.DoQuery? && step.p == r.curr)
  }

  /** A tick that comes while the reschedule asked for is still pending. */
  predicate Late(r: Rq, step: Step) { step.DoTick? && r.resched }

  /** Ticks that may still pass before t runs. */
  ghost function Patience(r: Rq, t: nat): nat
    requires r.curr < |r.tasks| && t in View(r).waiting
  {
    var k := Ahead(View(r).waiting, t);
    (if r.resched then 0 else r.tasks[r.curr].slice) + Spans(r.hz, k)
  }

  /** k full slices. */
  ghost function Spans(hz: nat, k: nat): nat
  {
    if k == 0 then 0 else Spans(hz, k - 1) + MaxSlice(hz)
  }

  lemma {:induction false} SpansMono(hz: nat, j: nat, k: nat)
    requires j <= k
    ensures Spans(hz, j) <= Spans(hz, k)
  {
    if j < k { SpansMono(hz, j, k - 1); }
  }

  lemma {:induction false} SpansIsProduct(hz: nat, k: nat)
    ensures Spans(hz, k) == k * MaxSlice(hz)
  {
    hide MaxSlice;
    if k > 0 {
      SpansIsProduct(hz, k - 1);
      AddOne(k - 1, MaxSlice(hz));
    }
  }

  lemma AddOne(k: nat, m: nat)
    ensures (k + 1) * m == k * m + m
  {}

  /** A tick uses up patience unless it is late; only a disturbance adds to it, and at most one slice. */
  lemma PatienceFalls(r: Rq, step: Step, t: nat)
    requires Inv(r) && r.curr in r.queue && Enabled(r, step)
    requires t in View(r).waiting && t in View(Next(r, step)).waiting
    ensures Inv(Next(r, step)) && Next(r, step).curr in Next(r, step).queue && Next(r, step).hz == r.hz
    ensures Patience(Next(r, step), t) + (if step.DoTick? then 1 else 0) <=
            Patience(r, t) + (if Disturbs(r, step) then MaxSlice(r.hz) else 0) + (if Late(r, step) then 1 else 0)
  {
    NextInv(r, step);
    RefinesRoundRobin(r, step);
    hide Inv, View, Turn, MaxSlice, Patience, RoundRobinNext;
    match step
    case DoTick => SameView(r, step); TickPatience(r, t);
    case DoSchedule(sleeps, other) => SchedulePatience(r, sleeps, other, t);
    case DoEnqueue(p, head) => EnqueuePatience(r, p, head, t);
    case DoDequeue(p) => DequeuePatience(r, p, t);
    case DoQuery(p) => SameView(r, step); QueryPatience(r, p, t);
    case _ => SameView(r, step); SamePatience(r, Next(r, step), t);
  }

  lemma SameView(r: Rq, step: Step)
    requires Inv(r) && r.curr in r.queue && Enabled(r, step)
    requires step.DoTick? || step.DoYield? || step.DoQuery? || step.DoCheckPreempt? || step.DoWrite?
    ensures var r' := Next(r, step); View(r') == View(r) && r'.hz == r.hz && r'.curr == r.curr && r'.curr in r'.queue
    ensures !step.DoTick? && !step.DoQuery? ==>
              var r' := Next(r, step);
              |r'.tasks| == |r.tasks| && r'.tasks[r.curr].slice == r.tasks[r.curr].slice && (r.resched ==> r'.resched)
  {
    RefinesRoundRobin(r, step);
    assert View(Next(r, step)).on == View(r).on;
    hide Without, Refilled, CalcWeight, NoDup, MaxSlice;
  }

  lemma SamePatience(r: Rq, r': Rq, t: nat)
    requires r.curr < |r.tasks| && r'.curr < |r'.tasks| && t in View(r).waiting
    requires View(r') == View(r) && r'.hz == r.hz && r'.curr == r.curr
    requires r'.tasks[r.curr].slice == r.tasks[r.curr].slice && (r.resched ==> r'.resched)
    ensures Patience(r', t) <= Patience(r, t)
  {}

  lemma QueryPatience(r: Rq, p: nat, t: nat)
    requires Inv(r) && p < |r.tasks| && t in View(r).waiting && View(Query(r, p)) == View(r)
    ensures Patience(Query(r, p), t) <= Patience(r, t) + if p == r.curr then MaxSlice(r.hz) else 0
  {
    RefilledOk(r.hz, r.tasks[p]);
    hide Refilled, MaxSlice, View, Ahead;
  }

  lemma EnqueuePatience(r: Rq, p: nat, head: bool, t: nat)
    requires Inv(r) && r.curr in r.queue && Enabled(r, DoEnqueue(p, head)) && t in View(r).waiting
    requires View(Enqueue(r, p, head)) == RoundRobinNext(View(r), DoEnqueue(p, head))
    ensures var r' := Enqueue(r, p, head);
            && r'.curr in r'.queue && r'.hz == r.hz && |r'.tasks| == |r.tasks| && t in View(r').waiting
            && Patience(r', t) <= Patience(r, t) + if head then MaxSlice(r.hz) else 0
  {
    var w := View(r).waiting;
    assert t in r.queue && t != p;
    assert ([p] + w)[1..] == w;
    AheadConcat(w, [p], t);
    assert Ahead(if head then [p] + w else w + [p], t) == Ahead(w, t) + if head then 1 else 0;
    hide Refilled, MaxSlice, View, Ahead, Inv;
  }

  lemma DequeuePatience(r: Rq, p: nat, t: nat)
    requires Inv(r) && r.curr in r.queue && Enabled(r, DoDequeue(p)) && t in View(r).waiting &&
             t in View(Dequeue(r, p)).waiting
    requires View(Dequeue(r, p)) == RoundRobinNext(View(r), DoDequeue(p))
    ensures var r' := Dequeue(r, p); r'.curr in r'.queue && r'.hz == r.hz && Patience(r', t) <= Patience(r, t)
  {
    var w := View(r).waiting;
    assert t != p;
    AheadWithout(w, p, t);
    SpansMono(r.hz, Ahead(Without(w, p), t), Ahead(w, t));
    hide MaxSlice, View, Ahead, Inv;
  }

  lemma SchedulePatience(r: Rq, sleeps: bool, other: nat, t: nat)
    requires Inv(r) && r.curr in r.queue && Enabled(r, DoSchedule(sleeps, other)) && t in View(r).waiting
    requires var r' := Schedule(r, sleeps, other);
             Inv(r') && View(r') == Turn(View(r), sleeps, other) && t in View(r').waiting
    ensures var r' := Schedule(r, sleeps, other);
            r'.curr in r'.queue && r'.hz == r.hz && Patience(r', t) <= Patience(r, t)
  {
    TurnPatience(r, sleeps, other, t);
    assert View(Schedule(r, sleeps, other)).on;
  }

  lemma TickPatience(r: Rq, t: nat)
    requires Inv(r) && r.curr in r.queue && t in View(r).waiting && View(Tick(r)) == View(r)
    ensures Patience(Tick(r), t) + (if r.resched then 0 else 1) <= Patience(r, t)
  {
    EndsDiffer(r.queue);
    TwoMembers(r.queue, r.curr, t);
  }

  lemma TwoMembers(q: seq<nat>, a: nat, b: nat)
    requires a in q && b in q && a != b
    ensures |q| >= 2
  {}

  lemma TurnPatience(r: Rq, sleeps: bool, other: nat, t: nat)
    requires Inv(r) && r.curr in r.queue && Enabled(r, DoSchedule(sleeps, other)) && t in View(r).waiting
    requires var r' := Schedule(r, sleeps, other);
             Inv(r') && View(r') == Turn(View(r), sleeps, other) && t in View(r').waiting
    ensures Patience(Schedule(r, sleeps, other), t) <= Patience(r, t)
  {
    var r', w := Schedule(r, sleeps, other), View(r).waiting;
    var back := if sleeps then [] else [r.curr];
    assert r'.tasks == r.tasks && r'.hz == r.hz && !r'.resched;
    assert View(r').waiting == w[1..] + back && r'.curr == w[0];
    assert t != r'.curr;
    assert r'.curr in r'.queue by {
      assert View(r').on;
    }
    var slice := r'.tasks[r'.curr].slice;
    assert slice <= MaxSlice(r.hz);
    AheadTurn(w, back, t);
    hide Schedule, Without, NoDup, MaxSlice, View, Ahead, Inv, Turn;
    assert Patience(r', t) == slice + Spans(r.hz, Ahead(w[1..] + back, t));
  }

  lemma AheadTurn(w: seq<nat>, back: seq<nat>, t: nat)
    requires t in w && w[0] != t
    ensures t in w[1..] + back && Ahead(w, t) == Ahead(w[1..] + back, t) + 1
  {
    AheadConcat(w[1..], back, t);
  }

  /** A run in every state of which t waits. */
  ghost predicate Waits(r: Rq, steps: seq<Step>, t: nat)
    decreases |steps|
  {
    && t in View(r).waiting
    && (steps != [] ==> Enabled(r, steps[0]) && Waits(Next(r, steps[0]), steps[1..], t))
  }

  function Ticks(steps: seq<Step>): nat
  {
    if steps == [] then 0 else (if steps[0].DoTick? then 1 else 0) + Ticks(steps[1..])
  }

  /** The disturbances of a run. */
  ghost function Disturbances(r: Rq, steps: seq<Step>, t: nat): nat
    requires Waits(r, steps, t)
    decreases |steps|
  {
    if steps == [] then 0
    else (if Disturbs(r, steps[0]) then 1 else 0) + Disturbances(Next(r, steps[0]), steps[1..], t)
  }

  /** The late ticks of a run. */
  ghost function LateTicks(r: Rq, steps: seq<Step>, t: nat): nat
    requires Waits(r, steps, t)
    decreases |steps|
  {
    if steps == [] then 0 else (if Late(r, steps[0]) then 1 else 0) + LateTicks(Next(r, steps[0]), steps[1..], t)
  }

  lemma {:induction false} TicksWithinPatience(r: Rq, steps: seq<Step>, t: nat)
    requires Inv(r) && r.curr in r.queue && Waits(r, steps, t)
    ensures Ticks(steps) <= Patience(r, t) + Spans(r.hz, Disturbances(r, steps, t)) + LateTicks(r, steps, t)
    decreases |steps|
  {
    hide Inv, View, MaxSlice, Patience, Enabled, Disturbs, Late;
    if steps != [] {
      assert t in View(Next(r, steps[0])).waiting;
      PatienceFalls(r, steps[0], t);
      TicksWithinPatience(Next(r, steps[0]), steps[1..], t);
    }
  }

  /**
   Any run at all in which a task waits, with k waiters ahead of it at first: each insert at the head and each slice
   query on the running task can cost it one longest slice, each tick before a pending reschedule one tick, and nothing
   else costs it anything, whatever is enqueued, dequeued, preempted, yields or goes to sleep meanwhile.
   */
  lemma TicksBound(r: Rq, steps: seq<Step>, t: nat)
    requires Inv(r) && r.curr in r.queue && Waits(r, steps, t)
    ensures Ticks(steps) <=
            (Ahead(View(r).waiting, t) + 1 + Disturbances(r, steps, t)) * MaxSlice(r.hz) + LateTicks(r, steps, t)
  {
    var k, d := Ahead(View(r).waiting, t), Disturbances(r, steps, t);
    TicksWithinPatience(r, steps, t);
    assert r.tasks[r.curr].slice <= MaxSlice(r.hz);
    hide MaxSlice, Inv, View, Waits, Ticks, Ahead, Disturbances, LateTicks;
    SpansIsProduct(r.hz, k);
    SpansIsProduct(r.hz, d);
    AddThree(k, 1, d, MaxSlice(r.hz));
  }

  lemma AddThree(a: nat, b: nat, c: nat, m: nat)
    ensures (a + b + c) * m == a * m + b * m + c * m
  {}

  /** No starvation: undisturbed, and with no late tick, a task runs within k + 1 longest slices. */
  lemma WaitBound(r: Rq, steps: seq<Step>, t: nat)
    requires Inv(r) && r.curr in r.queue && Waits(r, steps, t)
    requires Disturbances(r, steps, t) == 0 && LateTicks(r, steps, t) == 0
    ensures Ticks(steps) <= (Ahead(View(r).waiting, t) + 1) * MaxSlice(r.hz)
  {
    hide Waits, Ticks, Inv, View, MaxSlice, Disturbances, LateTicks;
    TicksBound(r, steps, t);
  }

  // ---- a slice is served in full ----

  ghost predicate Run(r: Rq, steps: seq<Step>, r': Rq)
    decreases |steps|
  {
    if steps == [] then r' == r else Enabled(r, steps[0]) && Run(Next(r, steps[0]), steps[1..], r')
  }

  /** Nothing in the run takes the processor from the running task c or changes its slice. */
  predicate LeavesAlone(steps: seq<Step>, c: nat) {
    forall i :: 0 <= i < |steps| ==> !steps[i].DoSchedule? && steps[i] != DoQuery(c)
  }

  lemma StepKeepsSlice(r: Rq, step: Step)
    requires Inv(r) && r.curr in r.queue && Enabled(r, step) && !step.DoSchedule? && step != DoQuery(r.curr)
    requires step.DoTick? ==> r.tasks[r.curr].slice > 1
    ensures var r' := Next(r, step);
            && Inv(r') && r'.hz == r.hz && r'.curr == r.curr && r'.curr in r'.queue
            && r'.tasks[r.curr].slice == r.tasks[r.curr].slice - (if step.DoTick? then 1 else 0)
            && (!step.DoCheckPreempt? ==> r'.resched == r.resched)
  {
    NextInv(r, step);
    hide Refilled, MaxSlice, CalcWeight;
    if step.DoTick? {
      DecrementedOk(r.tasks[r.curr].slice);
    }
  }

  /** A tick costs the running task one unit of its slice, and nothing else costs it any. */
  lemma {:induction false} SliceRunsDown(r: Rq, steps: seq<Step>, r': Rq)
    requires Inv(r) && r.curr in r.queue && Run(r, steps, r') && LeavesAlone(steps, r.curr)
    requires Ticks(steps) < r.tasks[r.curr].slice
    ensures Inv(r') && r'.hz == r.hz && r'.curr == r.curr && r'.curr in r'.queue
    ensures r'.tasks[r.curr].slice == r.tasks[r.curr].slice - Ticks(steps)
    ensures (forall i :: 0 <= i < |steps| ==> !steps[i].DoCheckPreempt?) ==> r'.resched == r.resched
    decreases |steps|
  {
    hide Inv, Enabled, Next;
    if steps != [] {
      StepKeepsSlice(r, steps[0]);
      SliceRunsDown(Next(r, steps[0]), steps[1..], r');
    }
  }

  /**
   The tick that uses up the slice gives a new one and, if another task is queued, asks for a reschedule and puts the
   task last; no tick before it does, unless a woken task preempts.
   */
  lemma SliceServedInFull(r: Rq, steps: seq<Step>, r': Rq)
    requires Inv(r) && r.curr in r.queue && Run(r, steps, r') && LeavesAlone(steps, r.curr)
    requires Ticks(steps) + 1 == r.tasks[r.curr].slice
    ensures r'.curr == r.curr < |r'.tasks|
    ensures (forall i :: 0 <= i < |steps| ==> !steps[i].DoCheckPreempt?) ==> r'.resched == r.resched
    ensures var r1 := Tick(r');
            && r1.tasks[r.curr].slice == Refilled(r.hz, r'.tasks[r.curr]).slice
            && if |r'.queue| >= 2 then r1.resched && r1.queue == MovedToTail(r'.queue, r.curr)
               else r1.resched == r'.resched && r1.queue == r'.queue
  {
    SliceRunsDown(r, steps, r');
    hide Run, LeavesAlone, MaxSlice, Refilled;
    DecrementedOk(r'.tasks[r.curr].slice);
    EndsDiffer(r'.queue);
  }

  // ---- disturbed runs ----

  /** Two tasks, the first of them running. */
  function Pair(): Rq
  {
    var e := Entity(Foreground, 0, 10, 15);
    Rq(100, [e, e], [0, 1], 2, 2, 0, false)
  }

  /** n times: a tick, then a query of the running task's interval. */
  function Queried(n: nat): seq<Step>
  {
    if n == 0 then [] else [DoTick, DoQuery(0)] + Queried(n - 1)
  }

  /** Querying the running task refills its slice, so a waiter can be held off for any number of ticks. */
  lemma {:induction false} QueriesStarve(n: nat)
    ensures Inv(Pair()) && Waits(Pair(), Queried(n), 1) && Ticks(Queried(n)) == n
    ensures LateTicks(Pair(), Queried(n), 1) == 0
  {
    var r := Pair();
    assert Without([0, 1], 0) == [1] by {
      assert Without([1], 0) == [1];
    }
    if n > 0 {
      assert Refilled(100, r.tasks[0]) == r.tasks[0];
      hide Refilled, MaxSlice, CalcWeight, Without;
      QueriesStarve(n - 1);
      var s := Queried(n);
      assert s[1..] == [DoQuery(0)] + Queried(n - 1) && s[1..][1..] == Queried(n - 1);
      var r1 := Next(r, DoTick);
      assert r1 == r.(tasks := r.tasks[0 := r.tasks[0].(slice := 14)]);
      assert Next(r1, DoQuery(0)) == r;
      assert Waits(r1, s[1..], 1);
    }
  }

  /** Task c runs, task 1 waits, and the task other than 1 and c stands behind; task 3 idles. */
  function Trio(c: nat): Rq
    requires c == 0 || c == 2
  {
    var full, used := Entity(Foreground, 0, 10, 15), Entity(Foreground, 0, 10, 14);
    Rq(100, if c == 0 then [full, full, used, full] else [used, full, full, full], [c, 1, 2 - c], 3, 3, c, false)
  }

  /** The last waiter is dequeued and put back at the head, as a priority change does; a tick; a reschedule. */
  function Overtaken(n: nat, c: nat): seq<Step>
    requires c == 0 || c == 2
  {
    if n == 0 then []
    else
      [DoDequeue(2 - c)] +
      ([DoEnqueue(2 - c, true)] + ([DoTick] + ([DoSchedule(false, 3)] + Overtaken(n - 1, 2 - c))))
  }

  /** The states of one round: task x overtakes task 1 and runs. */
  function Round(c: nat, k: nat): Rq
    requires (c == 0 || c == 2) && k <= 4
  {
    var r, x := Trio(c), 2 - c;
    var full, used := Entity(Foreground, 0, 10, 15), Entity(Foreground, 0, 10, 14);
    match k
    case 0 => r
    case 1 => r.(queue := [c, 1], rasNr := 2, nr := 2)
    case 2 => r.(tasks := r.tasks[x := full], queue := [x, c, 1])
    case 3 => r.(tasks := r.tasks[x := full][c := used], queue := [x, c, 1])
    case _ => Trio(x)
  }

  lemma RoundWaits(c: nat, k: nat)
    requires (c == 0 || c == 2) && k <= 4
    ensures 1 in View(Round(c, k)).waiting && !Round(c, k).resched
  {
    hide Refilled, CalcWeight, MaxSlice, Without;
    var r := Round(c, k);
    assert r.curr != 1;
    assert 1 in r.queue by {
      assert if k == 2 || k == 3 then r.queue[2] == 1 else r.queue[1] == 1;
    }
  }

  lemma RoundDequeue(c: nat)
    requires c == 0 || c == 2
    ensures var r, x := Round(c, 0), 2 - c; Enabled(r, DoDequeue(x)) && Next(r, DoDequeue(x)) == Round(c, 1)
  {
    WithoutThree(c, 1, 2 - c, 2 - c);
    hide Without;
  }

  lemma RoundEnqueue(c: nat)
    requires c == 0 || c == 2
    ensures var r, x := Round(c, 1), 2 - c; Enabled(r, DoEnqueue(x, true)) && Next(r, DoEnqueue(x, true)) == Round(c, 2)
  {
    var x := 2 - c;
    assert Refilled(100, Entity(Foreground, 0, 10, 14)) == Entity(Foreground, 0, 10, 15);
    assert [x] + [c, 1] == [x, c, 1];
    hide Refilled, Without;
  }

  lemma RoundTick(c: nat)
    requires c == 0 || c == 2
    ensures Enabled(Round(c, 2), DoTick) && Next(Round(c, 2), DoTick) == Round(c, 3)
  {
    hide Refilled, Without;
  }

  lemma RoundSchedule(c: nat)
    requires c == 0 || c == 2
    ensures Enabled(Round(c, 3), DoSchedule(false, 3)) && Next(Round(c, 3), DoSchedule(false, 3)) == Round(c, 4)
  {
    var x := 2 - c;
    WithoutThree(x, c, 1, c);
    assert [x, 1] + [c] == [x, 1, c];
    hide Refilled, Without;
    assert Next(Round(c, 3), DoSchedule(false, 3)).tasks == Trio(x).tasks;
  }

  /** A run may start with one more step before which t waits and no reschedule is pending. */
  lemma WaitsStep(r: Rq, step: Step, rest: seq<Step>, t: nat)
    requires Enabled(r, step) && t in View(r).waiting && !r.resched && Waits(Next(r, step), rest, t)
    ensures Waits(r, [step] + rest, t)
    ensures Ticks([step] + rest) == Ticks(rest) + if step.DoTick? then 1 else 0
    ensures LateTicks(r, [step] + rest, t) == LateTicks(Next(r, step), rest, t)
  {
    assert ([step] + rest)[1..] == rest;
  }

  lemma TrioInv(c: nat)
    requires c == 0 || c == 2
    ensures Inv(Trio(c))
  {
    assert MaxSlice(100) == 15;
  }

  lemma OneRound(c: nat, rest: seq<Step>)
    requires (c == 0 || c == 2) && Waits(Trio(2 - c), rest, 1)
    ensures var steps := [DoDequeue(2 - c)] + ([DoEnqueue(2 - c, true)] + ([DoTick] + ([DoSchedule(false, 3)] + rest)));
            && Waits(Trio(c), steps, 1) && Ticks(steps) == Ticks(rest) + 1
            && LateTicks(Trio(c), steps, 1) == LateTicks(Trio(2 - c), rest, 1)
  {
    hide Waits, LateTicks, Ticks, Next, Enabled, View, Trio;
    RoundWaits(c, 0);
    RoundWaits(c, 1);
    RoundWaits(c, 2);
    RoundWaits(c, 3);
    RoundDequeue(c);
    RoundEnqueue(c);
    RoundTick(c);
    RoundSchedule(c);
    assert Round(c, 4) == Trio(2 - c) && Round(c, 0) == Trio(c);
    hide Round;
    WaitsStep(Round(c, 3), DoSchedule(false, 3), rest, 1);
    WaitsStep(Round(c, 2), DoTick, [DoSchedule(false, 3)] + rest, 1);
    WaitsStep(Round(c, 1), DoEnqueue(2 - c, true), [DoTick] + ([DoSchedule(false, 3)] + rest), 1);
    WaitsStep(Round(c, 0), DoDequeue(2 - c),
              [DoEnqueue(2 - c, true)] + ([DoTick] + ([DoSchedule(false, 3)] + rest)), 1);
  }

  /** Tasks put back at the head over and over hold a waiter off for any number of ticks. */
  lemma {:induction false} HeadInsertsStarve(n: nat, c: nat)
    requires c == 0 || c == 2
    ensures Inv(Trio(c)) && Waits(Trio(c), Overtaken(n, c), 1) && Ticks(Overtaken(n, c)) == n
    ensures LateTicks(Trio(c), Overtaken(n, c), 1) == 0
  {
    TrioInv(c);
    if n == 0 {
      RoundWaits(c, 0);
    } else {
      hide Inv, Waits, LateTicks, Ticks, Trio;
      HeadInsertsStarve(n - 1, 2 - c);
      OneRound(c, Overtaken(n - 1, 2 - c));
    }
  }

  lemma WithoutThree(a: nat, b: nat, c: nat, x: nat)
    ensures Without([a, b, c], x) ==
            (if a == x then [] else [a]) + (if b == x then [] else [b]) + (if c == x then [] else [c])
  {
    assert Without([c], x) == if c == x then [] else [c];
    assert [b, c][1..] == [c] && [a, b, c][1..] == [b, c];
    assert Without([b, c], x) == (if b == x then [] else [b]) + (if c == x then [] else [c]);
  }


  /** struct ras_rq with the counters of its run queue. */
  class RasRunqueue {
    const hz: nat
    const tasks: array<Entity>
    var runList: seq<nat>
    var rasNrRunning: int
    var nrRunning: int
    var curr: nat
    var needResched: bool

    function Value(): Rq
      reads this, tasks
    {
      Rq(hz, tasks[..], runList, rasNrRunning, nrRunning, curr, needResched)
    }

    /** init_ras_rq */
    constructor (hz: nat, tasks: array<Entity>, idle: nat)
      requires 100 <= hz < WORD && idle < tasks.Length
      ensures Value() == Rq(hz, tasks[..], [], 0, 0, idle, false) && Inv(Value()) && this.tasks == tasks
    {
      this.hz, this.tasks := hz, tasks;
      runList, rasNrRunning, nrRunning, curr, needResched := [], 0, 0, idle, false;
    }

    /** The slice computation that enqueueing, ticking and querying share. */
    method Refill(p: nat)
      requires p < tasks.Length
      modifies tasks
      ensures tasks[..] == old(tasks[..])[p := Refilled(hz, old(tasks[p]))]
    {
      hide CalcWeight, FgSlice, BgSlice;
      var e := tasks[p];
      var weight := CalcWeight(e.wcounts);
      if e.group == Foreground {
        tasks[p] := e.(weight := weight, slice := FgSlice(hz, weight));
      } else {
        tasks[p] := e.(weight := weight, slice := BgSlice(hz, weight));
      }
    }

    method ListDel(p: nat)
      modifies `runList
      ensures runList == Without(old(runList), p)
    {
      ghost var rest := Without(runList, p);
      var i, done := 0, [];
      while i < |runList|
        invariant 0 <= i <= |runList| && done + Without(runList[i..], p) == rest
      {
        assert runList[i..][1..] == runList[i + 1..];
        if runList[i] != p {
          done := done + [runList[i]];
        }
        i := i + 1;
      }
      runList := done;
    }

    method EnqueueTask(p: nat, head: bool)
      requires p < tasks.Length
      modifies this, tasks
      ensures Value() == Enqueue(old(Value()), p, head)
    {
      Refill(p);
      if head {
        runList := [p] + runList;
      } else {
        runList := runList + [p];
      }
      rasNrRunning := rasNrRunning + 1;
      nrRunning := nrRunning + 1;
    }

    method DequeueTask(p: nat)
      modifies this
      ensures Value() == Dequeue(old(Value()), p)
    {
      if p in runList {
        ListDel(p);
        rasNrRunning := rasNrRunning - 1;
      }
      nrRunning := nrRunning - 1;
    }

    method PickNextTask() returns (next: Option<nat>)
      requires Inv(Value())
      ensures next == PickNext(Value())
      ensures next == None <==> runList == []
    {
      if rasNrRunning == 0 {
        return None;
      }
      return Some(runList[0]);
    }

    method PutPrevTask(p: nat)
      modifies `runList
      ensures Value() == PutPrev(old(Value()), p)
    {
      if p in runList {
        ListDel(p);
        runList := runList + [p];
      }
    }

    method YieldTask()
      modifies `runList
      ensures Value() == PutPrev(old(Value()), curr)
    {
      PutPrevTask(curr);
    }

    method CheckPreemptCurr(p: nat)
      requires p < tasks.Length && curr < tasks.Length
      modifies this, tasks
      ensures Value() == CheckPreempt(old(Value()), p)
    {
      tasks[p] := tasks[p].(weight := CalcWeight(tasks[p].wcounts));
      tasks[curr] := tasks[curr].(weight := CalcWeight(tasks[curr].wcounts));
      if tasks[p].weight > tasks[curr].weight {
        needResched := true;
      }
    }

    method TaskTick()
      requires curr < tasks.Length
      modifies this, tasks
      ensures Value() == Tick(old(Value()))
    {
      tasks[curr] := tasks[curr].(slice := Decremented(tasks[curr].slice));
      if tasks[curr].slice != 0 {
        return;
      }
      Refill(curr);
      if HeadPrev(runList) != HeadNext(runList) {
        PutPrevTask(curr);
        needResched := true;
      }
    }

    method GetRrInterval(p: nat) returns (slice: nat)
      requires p < tasks.Length && 100 <= hz < WORD
      modifies tasks
      ensures Value() == Query(old(Value()), p) && slice == tasks[p].slice
      ensures 1 <= slice <= MaxSlice(hz)
    {
      RefilledOk(hz, tasks[p]);
      Refill(p);
      slice := tasks[p].slice;
    }

    /** The part of __schedule below the higher classes. */
    method ScheduleRas(sleeps: bool, other: nat)
      requires Inv(Value()) && Enabled(Value(), DoSchedule(sleeps, other))
      modifies this
      ensures Value() == Schedule(old(Value()), sleeps, other)
      ensures Inv(Value()) && View(Value()) == Turn(old(View(Value())), sleeps, other)
    {
      ScheduleInv(Value(), sleeps, other);
      TurnRefines(Value(), sleeps, other);
      if sleeps {
        DequeueInv(Value(), curr);
      }
      PutPrevInv(if sleeps then Dequeue(Value(), curr) else Value(), curr);
      hide Inv, Turn, Without;
      if sleeps {
        DequeueTask(curr);
      }
      PutPrevTask(curr);
      var next := PickNextTask();
      match next {
        case Some(p) => curr := p;
        case None => curr := other;
      }
      needResched := false;
    }
  }
}
