/**
 The global load average: per-processor counts of active tasks folded into one global count,
 directly at each processor's tick or through two idle buffers.
 */
module LoadAccounting {

  /** Between two atomic accesses a processor may hold a change that only one side of the books shows. */
  datatype Pc = AtRest | Folded(delta: int) | Removed(delta: int)

  datatype Cpu = Cpu(active: int, pc: Pc) {
    /** What the shared counters should hold on behalf of this processor. */
    function Booked(): int
    {
      match pc
      case AtRest => active
      case Folded(d) => active - d
      case Removed(d) => active - d
    }
  }

  /** calc_load_tasks, calc_load_idle[], what calc_global_load has taken out of a buffer, and the processors. */
  datatype Books = Books(tasks: int, idle0: int, idle1: int, taken: int, cpus: seq<Cpu>)

  function SumBooked(cpus: seq<Cpu>): int
  {
    if cpus == [] then 0 else cpus[0].Booked() + SumBooked(cpus[1..])
  }

  function SumActive(cpus: seq<Cpu>): int
  {
    if cpus == [] then 0 else cpus[0].active + SumActive(cpus[1..])
  }

  /** Every change that a shared counter still lacks is in flight at its processor. */
  ghost predicate Balanced(b: Books)
  {
    && b.tasks + b.idle0 + b.idle1 + b.taken == SumBooked(b.cpus)
    && forall c :: 0 <= c < |b.cpus| && b.cpus[c].pc.Removed? ==> b.cpus[c].pc.delta == b.cpus[c].active
  }

  /** The atomic accesses of all processors. */
  datatype Access =
    | Fold(c: nat, nrActive: int)
    | AddTasks(c: nat)
    | AddIdle(c: nat, idx: nat)
    | TakeIdle(idx: nat)
    | AddTaken
    | SubActive(c: nat)
    | ClearActive(c: nat)

  predicate Ready(b: Books, a: Access)
  {
    match a
    case Fold(c, _) => c < |b.cpus| && b.cpus[c].pc.AtRest?
    case AddTasks(c) => c < |b.cpus| && b.cpus[c].pc.Folded?
    case AddIdle(c, idx) => c < |b.cpus| && b.cpus[c].pc.Folded? && idx < 2
    case TakeIdle(idx) => idx < 2 && b.taken == 0
    case AddTaken => true
    case SubActive(c) => c < |b.cpus| && b.cpus[c].pc.AtRest?
    case ClearActive(c) => c < |b.cpus| && b.cpus[c].pc.Removed?
  }

  function Perform(b: Books, a: Access): Books
    requires Ready(b, a)
  {
    match a
    case Fold(c, nrActive) => b.(cpus := b.cpus[c := Cpu(nrActive, Folded(nrActive - b.cpus[c].active))])
    case AddTasks(c) => b.(tasks := b.tasks + b.cpus[c].pc.delta, cpus := b.cpus[c := b.cpus[c].(pc := AtRest)])
    case AddIdle(c, idx) =>
      var d, cpus := b.cpus[c].pc.delta, b.cpus[c := b.cpus[c].(pc := AtRest)];
      if idx == 0 then b.(idle0 := b.idle0 + d, cpus := cpus) else b.(idle1 := b.idle1 + d, cpus := cpus)
    case TakeIdle(idx) =>
      if idx == 0 then b.(taken := b.idle0, idle0 := 0) else b.(taken := b.idle1, idle1 := 0)
    case AddTaken => b.(tasks := b.tasks + b.taken, taken := 0)
    case SubActive(c) => b.(tasks := b.tasks - b.cpus[c].active,
        cpus := b.cpus[c := b.cpus[c].(pc := Removed(b.cpus[c].active))])
    case ClearActive(c) => b.(cpus := b.cpus[c := Cpu(0, AtRest)])
  }

  lemma {:induction false} SumUpdate(cpus: seq<Cpu>, c: nat, x: Cpu)
    requires c < |cpus|
    ensures SumBooked(cpus[c := x]) == SumBooked(cpus) - cpus[c].Booked() + x.Booked()
  {
    if c == 0 {
      assert cpus[c := x][1..] == cpus[1..];
    } else {
      assert cpus[c := x][1..] == cpus[1..][c - 1 := x];
      SumUpdate(cpus[1..], c - 1, x);
    }
  }

  lemma PerformBalanced(b: Books, a: Access)
    requires Balanced(b) && Ready(b, a)
    ensures Balanced(Perform(b, a))
  {
    match a
    case TakeIdle(_) =>
    case AddTaken =>
    case _ => SumUpdate(b.cpus, a.c, Perform(b, a).cpus[a.c]);
  }

  ghost predicate Possible(b: Books, accesses: seq<Access>)
    decreases |accesses|
  {
    accesses != [] ==> Ready(b, accesses[0]) && Possible(Perform(b, accesses[0]), accesses[1..])
  }

  ghost function Run(b: Books, accesses: seq<Access>): Books
    requires Possible(b, accesses)
    decreases |accesses|
  {
    if accesses == [] then b else Run(Perform(b, accesses[0]), accesses[1..])
  }

  lemma {:induction false} RunBalanced(b: Books, accesses: seq<Access>)
    requires Balanced(b) && Possible(b, accesses)
    ensures Balanced(Run(b, accesses))
    decreases |accesses|
  {
    if accesses != [] {
      PerformBalanced(b, accesses[0]);
      RunBalanced(Perform(b, accesses[0]), accesses[1..]);
    }
  }

  function ColdStart(n: nat): seq<Cpu>
  {
    if n == 0 then [] else [Cpu(0, AtRest)] + ColdStart(n - 1)
  }

  lemma {:induction false} ColdStartBalanced(n: nat)
    ensures Balanced(Books(0, 0, 0, 0, ColdStart(n)))
  {
    if n > 0 {
      ColdStartBalanced(n - 1);
    }
  }

  lemma {:induction false} RestingSum(cpus: seq<Cpu>)
    requires forall c :: 0 <= c < |cpus| ==> cpus[c].pc.AtRest?
    ensures SumBooked(cpus) == SumActive(cpus)
  {
    if cpus != [] {
      RestingSum(cpus[1..]);
    }
  }

  /**
   In every interleaving of any number of processors from boot, nothing is lost or counted twice: whenever no change is
   in flight, the global count and the two buffers add up to the active tasks that the processors reported last.
   */
  lemma Exact(n: nat, accesses: seq<Access>)
    requires Possible(Books(0, 0, 0, 0, ColdStart(n)), accesses)
    ensures var b := Run(Books(0, 0, 0, 0, ColdStart(n)), accesses);
            b.tasks + b.idle0 + b.idle1 + b.taken == SumBooked(b.cpus)
    ensures var b := Run(Books(0, 0, 0, 0, ColdStart(n)), accesses);
            b.taken == 0 && (forall c :: 0 <= c < |b.cpus| ==> b.cpus[c].pc.AtRest?) ==>
              b.tasks + b.idle0 + b.idle1 == SumActive(b.cpus)
  {
    ColdStartBalanced(n);
    RunBalanced(Books(0, 0, 0, 0, ColdStart(n)), accesses);
    var b := Run(Books(0, 0, 0, 0, ColdStart(n)), accesses);
    if forall c :: 0 <= c < |b.cpus| ==> b.cpus[c].pc.AtRest? {
      RestingSum(b.cpus);
    }
  }
}

/** The same books with the clock: sampling windows, the two idle buffers and the catch-up. */
module LoadAverage {
  import opened LoadAccounting
  import opened FixedPower

  const EXP_1: nat := 1884
  const EXP_5: nat := 2014
  const EXP_15: nat := 2037

  function LoadFreq(hz: nat): nat { 5 * hz + 1 }

  /** calc_load_update, calc_load_idx, avenrun[] and the calc_load_update of each run queue beside the books. */
  datatype Load = Load(hz: nat, books: Books, jiffies: nat, update: nat, idx: nat, avenrun: seq<nat>,
                       rqUpdate: seq<nat>)

  ghost predicate Quiet(b: Books)
  {
    Balanced(b) && b.taken == 0 && forall c :: 0 <= c < |b.cpus| ==> b.cpus[c].pc.AtRest?
  }

  ghost predicate Shape(l: Load)
  {
    l.hz >= 2 && Quiet(l.books) && |l.avenrun| == 3 && |l.rqUpdate| == |l.books.cpus|
  }

  function WriteIdx(l: Load): (i: nat)
    ensures i < 2
  {
    if l.jiffies < l.update then l.idx % 2 else (l.idx + 1) % 2
  }

  function ReadIdx(l: Load): (i: nat)
    ensures i < 2
  {
    l.idx % 2
  }

  function Idle(b: Books, i: nat): int { if i == 0 then b.idle0 else b.idle1 }

  /** calc_load_enter_idle */
  function EnterIdle(l: Load, c: nat, nrActive: int): Load
    requires c < |l.books.cpus| && l.books.cpus[c].pc.AtRest?
  {
    l.(books := Perform(Perform(l.books, Fold(c, nrActive)), AddIdle(c, WriteIdx(l))))
  }

  /** calc_load_exit_idle */
  function ExitIdle(l: Load, c: nat): Load
    requires c < |l.rqUpdate|
  {
    if l.jiffies < l.rqUpdate[c] then l
    else if l.jiffies < l.update + 10 then l.(rqUpdate := l.rqUpdate[c := l.update + LoadFreq(l.hz)])
    else l.(rqUpdate := l.rqUpdate[c := l.update])
  }

  /** calc_load_account_active */
  function AccountActive(l: Load, c: nat, nrActive: int): Load
    requires c < |l.books.cpus| == |l.rqUpdate| && l.books.cpus[c].pc.AtRest?
  {
    if l.jiffies < l.rqUpdate[c] then l
    else l.(books := Perform(Perform(l.books, Fold(c, nrActive)), AddTasks(c)),
            rqUpdate := l.rqUpdate[c := l.rqUpdate[c] + LoadFreq(l.hz)])
  }

  /** calc_global_load_remove */
  function Remove(l: Load, c: nat): Load
    requires c < |l.books.cpus| && l.books.cpus[c].pc.AtRest?
  {
    l.(books := Perform(Perform(l.books, SubActive(c)), ClearActive(c)))
  }

  function Scaled(tasks: int): nat { if tasks > 0 then tasks * FIXED_1 else 0 }

  function Averages(a: seq<nat>, active: nat): seq<nat>
    requires |a| == 3
  {
    [CalcLoad(a[0], EXP_1, active), CalcLoad(a[1], EXP_5, active), CalcLoad(a[2], EXP_15, active)]
  }

  function AveragesN(a: seq<nat>, active: nat, n: nat): seq<nat>
    requires |a| == 3
  {
    [CalcLoadN(a[0], EXP_1, active, n), CalcLoadN(a[1], EXP_5, active, n), CalcLoadN(a[2], EXP_15, active, n)]
  }

  /** calc_global_nohz */
  function CatchUp(l: Load): Load
    requires |l.avenrun| == 3
  {
    if l.jiffies < l.update + 10 then l.(idx := l.idx + 1)
    else
      var n := 1 + Whole(l.jiffies - l.update - 10, LoadFreq(l.hz));
      IntMulLe(n, 0, LoadFreq(l.hz));
      l.(avenrun := AveragesN(l.avenrun, Scaled(l.books.tasks), n), update := l.update + n * LoadFreq(l.hz),
          idx := l.idx + 1)
  }

  function Whole(a: nat, d: nat): nat
    requires d > 0
  {
    DivBounds(a, d);
    a / d
  }

  /** calc_global_load */
  function Global(l: Load): Load
    requires |l.avenrun| == 3 && l.books.taken == 0
  {
    if l.jiffies < l.update + 10 then l
    else
      var b := Perform(Perform(l.books, TakeIdle(ReadIdx(l))), AddTaken);
      CatchUp(l.(books := b, avenrun := Averages(l.avenrun, Scaled(b.tasks)), update := l.update + LoadFreq(l.hz)))
  }

  // ---- the clock ----

  /** However many periods were missed, the next one ends in the future and is at most one period away. */
  lemma GlobalCatchesUp(l: Load)
    requires |l.avenrun| == 3 && l.books.taken == 0
    ensures var l' := Global(l); l'.jiffies == l.jiffies < l'.update + 10
    ensures var l' := Global(l); l.update + 10 <= l.jiffies ==> l'.update + 10 <= l.jiffies + LoadFreq(l.hz)
    ensures l.update <= Global(l).update
  {
    var f := LoadFreq(l.hz);
    if l.update + f + 10 <= l.jiffies {
      var delta := l.jiffies - (l.update + f) - 10;
      var n := 1 + Whole(delta, f);
      DivBounds(delta, f);
      assert n * f == f * (delta / f) + f;
      assert Global(l).update == l.update + f + n * f;
    }
  }

  /** A processor that wakes inside a window does not sample in it. */
  lemma ExitIdleSkipsWindow(l: Load, c: nat)
    requires c < |l.rqUpdate| && l.hz >= 2
    ensures l.jiffies < ExitIdle(l, c).rqUpdate[c] || l.update + 10 <= l.jiffies
  {}

  /** A tick folds when it is due, once a period, and the global count then has what the processor reports. */
  lemma TickFolds(l: Load, c: nat, nrActive: int)
    requires c < |l.books.cpus| == |l.rqUpdate| && l.books.cpus[c].pc.AtRest?
    ensures var (b, l') := (l.books, AccountActive(l, c, nrActive));
            if l.jiffies < l.rqUpdate[c] then l' == l
            else
              && l'.books.cpus == b.cpus[c := Cpu(nrActive, AtRest)]
              && l'.books.tasks - b.tasks == nrActive - b.cpus[c].active
              && l'.books.idle0 == b.idle0 && l'.books.idle1 == b.idle1
              && l'.rqUpdate == l.rqUpdate[c := l.rqUpdate[c] + LoadFreq(l.hz)]
  {}

  /** A processor that goes takes its part out of the global count. */
  lemma RemoveTakesOut(l: Load, c: nat)
    requires c < |l.books.cpus| && l.books.cpus[c].pc.AtRest?
    ensures var (b, b') := (l.books, Remove(l, c).books);
            b'.cpus == b.cpus[c := Cpu(0, AtRest)] && b'.tasks == b.tasks - b.cpus[c].active &&
            b'.idle0 == b.idle0 && b'.idle1 == b.idle1
    ensures Remove(l, c).rqUpdate == l.rqUpdate
  {}

  /** When the next window begins. */
  function NextWindow(l: Load): nat { if l.jiffies < l.update then l.update else l.update + LoadFreq(l.hz) }

  /**
   A processor whose own sampling time has passed samples again in the next window if and only if it does not wake
   before the current one: then it is told to wait for the window after.
   */
  lemma ExitIdleSamplesNext(l: Load, c: nat)
    requires c < |l.rqUpdate| && l.rqUpdate[c] <= l.jiffies
    ensures ExitIdle(l, c).rqUpdate[c] <= NextWindow(l) <==> l.update <= l.jiffies
    ensures l.jiffies < l.update + 10 ==> ExitIdle(l, c).rqUpdate[c] == l.update + LoadFreq(l.hz)
    ensures l.update + 10 <= l.jiffies ==> ExitIdle(l, c).rqUpdate[c] == l.update
    ensures ExitIdle(l, c) == l.(rqUpdate := l.rqUpdate[c := ExitIdle(l, c).rqUpdate[c]])
  {}

  /** A processor idle over the sample at 499 wakes at 600 and misses the window at 1000. */
  lemma WakeMissesWindow()
    ensures var l := Load(100, Books(0, 0, 0, 0, [Cpu(0, AtRest)]), 600, 1000, 1, [0, 0, 0], [499]);
            NextWindow(l) == 1000 && ExitIdle(l, 0).rqUpdate == [1501]
  {}

  ghost predicate Between(x: nat, a: nat, b: nat) { a <= x <= b || b <= x <= a }

  /** No average overshoots: each stays between its old value and the scaled active count, even in bulk. */
  lemma AveragesBetween(l: Load, k: nat)
    requires |l.avenrun| == 3 && l.books.taken == 0 && k < 3
    ensures |Global(l).avenrun| == 3
    ensures l.update + 10 <= l.jiffies ==> Between(Global(l).avenrun[k], l.avenrun[k], Scaled(Global(l).books.tasks))
  {
    if l.update + 10 <= l.jiffies {
      var active := Scaled(Global(l).books.tasks);
      var old0 := l.avenrun[k];
      var lo, hi := if old0 < active then old0 else active, if old0 < active then active else old0;
      var exp := if k == 0 then EXP_1 else if k == 1 then EXP_5 else EXP_15;
      CalcLoadBetween(old0, exp, active, lo, hi);
      var mid := CalcLoad(old0, exp, active);
      assert Averages(l.avenrun, active)[k] == mid;
      var update := l.update + LoadFreq(l.hz);
      if update + 10 <= l.jiffies {
        var n := 1 + Whole(l.jiffies - update - 10, LoadFreq(l.hz));
        CalcLoadNBetween(mid, exp, active, n, lo, hi);
        assert Global(l).avenrun == AveragesN(Averages(l.avenrun, active), active, n);
        assert Global(l).avenrun[k] == CalcLoadN(mid, exp, active, n);
      }
    }
  }

  /** One period later each average is the weighted mean, for one, five and fifteen minutes in that order, rounded. */
  lemma SampleWeights(l: Load, k: nat)
    requires |l.avenrun| == 3 && l.books.taken == 0 && k < 3
    requires l.update + 10 <= l.jiffies < l.update + LoadFreq(l.hz) + 10
    ensures |Global(l).avenrun| == 3
    ensures var exp := [1884, 2014, 2037][k];
            var tasks := Global(l).books.tasks;
            var mean := l.avenrun[k] * exp + (if tasks > 0 then 2048 * tasks else 0) * (2048 - exp);
            -1024 <= 2048 * Global(l).avenrun[k] - mean <= 1024
  {
    var exp := [1884, 2014, 2037][k];
    CalcLoadNear(l.avenrun[k], exp, Scaled(Global(l).books.tasks));
    assert Global(l).avenrun == Averages(l.avenrun, Scaled(Global(l).books.tasks));
  }

  // ---- each idle change is folded once, at the right sample ----

  /** A change recorded on entering idle, with the number of the global sample that has to fold it. */
  datatype Record = Record(delta: int, due: nat)

  /** What happened so far: samples taken, records made, records waiting in each buffer, records folded. */
  datatype History = History(samples: nat, made: multiset<Record>, buf0: seq<Record>, buf1: seq<Record>,
                             done: multiset<Record>) {
    function File(i: nat, x: Record): History
    {
      if i == 0 then this.(made := made + multiset{x}, buf0 := buf0 + [x])
      else this.(made := made + multiset{x}, buf1 := buf1 + [x])
    }

    function Fold(i: nat): History
    {
      if i == 0 then this.(samples := samples + 1, done := done + multiset(buf0), buf0 := [])
      else this.(samples := samples + 1, done := done + multiset(buf1), buf1 := [])
    }
  }

  function SumDelta(rs: seq<Record>): int
  {
    if rs == [] then 0 else SumDelta(rs[..|rs| - 1]) + rs[|rs| - 1].delta
  }

  /** A change recorded outside a window belongs to the next sample, one recorded inside it to the one after. */
  function Due(l: Load, h: History): nat { h.samples + (if l.jiffies < l.update then 1 else 2) }

  ghost predicate Inv(l: Load, h: History) { Shape(l) && Filed(l, h) }

  ghost predicate Filed(l: Load, h: History)
  {
    FiledAt(l.books.idle0, l.books.idle1, ReadIdx(l), l.jiffies < l.update, h)
  }

  /** The records account for the two buffers, read being the index that the next sample folds. */
  ghost predicate FiledAt(idle0: int, idle1: int, read: nat, before: bool, h: History)
  {
    idle0 == SumDelta(h.buf0) && idle1 == SumDelta(h.buf1) && DueOk(read, before, h) && Partition(h)
  }

  ghost predicate DueOk(read: nat, before: bool, h: History)
  {
    && (before ==> (if read == 0 then h.buf1 else h.buf0) == [])
    && (forall x :: x in h.buf0 ==> x.due == h.samples + (if read == 0 then 1 else 2))
    && (forall x :: x in h.buf1 ==> x.due == h.samples + (if read == 0 then 2 else 1))
    && (forall x :: x in h.done ==> x.due <= h.samples)
  }

  /** Every record made is in one place. */
  ghost predicate Partition(h: History)
  {
    h.made == h.done + multiset(h.buf0) + multiset(h.buf1)
  }

  datatype Step =
    | Pass(ticks: nat)
    | DoEnterIdle(c: nat, nrActive: int)
    | DoExitIdle(c: nat)
    | DoAccount(c: nat, nrActive: int)
    | DoRemove(c: nat)
    | DoGlobal

  /** A CPU starts an operation only when it is not in the middle of one, and so does the sampler. */
  predicate Enabled(l: Load, step: Step)
  {
    match step
    case Pass(_) => true
    case DoEnterIdle(c, _) => c < |l.books.cpus| && l.books.cpus[c].pc.AtRest?
    case DoExitIdle(c) => c < |l.rqUpdate|
    case DoAccount(c, _) => c < |l.books.cpus| == |l.rqUpdate| && l.books.cpus[c].pc.AtRest?
    case DoRemove(c) => c < |l.books.cpus| && l.books.cpus[c].pc.AtRest?
    case DoGlobal => l.books.taken == 0 && |l.avenrun| == 3
  }

  function Next(l: Load, step: Step): Load
    requires Enabled(l, step)
  {
    match step
    case Pass(ticks) => l.(jiffies := l.jiffies + ticks)
    case DoEnterIdle(c, nrActive) => EnterIdle(l, c, nrActive)
    case DoExitIdle(c) => ExitIdle(l, c)
    case DoAccount(c, nrActive) => AccountActive(l, c, nrActive)
    case DoRemove(c) => Remove(l, c)
    case DoGlobal => Global(l)
  }

  /** The record is filed where the code wrote the change; its due number follows from the clock alone. */
  function Recorded(l: Load, h: History, step: Step): History
    requires Enabled(l, step)
  {
    match step
    case DoEnterIdle(c, nrActive) =>
      var x := Record(nrActive - l.books.cpus[c].active, Due(l, h));
      h.File(WriteIdx(l), x)
    case DoGlobal =>
      if l.jiffies < l.update + 10 then h
      else h.Fold(ReadIdx(l))
    case _ => h
  }

  lemma NextQuiet(l: Load, step: Step)
    requires Shape(l) && Enabled(l, step)
    ensures Shape(Next(l, step))
  {
    var b := l.books;
    match step
    case DoEnterIdle(c, nrActive) =>
      PerformBalanced(b, Fold(c, nrActive));
      PerformBalanced(Perform(b, Fold(c, nrActive)), AddIdle(c, WriteIdx(l)));
    case DoAccount(c, nrActive) =>
      PerformBalanced(b, Fold(c, nrActive));
      PerformBalanced(Perform(b, Fold(c, nrActive)), AddTasks(c));
    case DoRemove(c) =>
      PerformBalanced(b, SubActive(c));
      PerformBalanced(Perform(b, SubActive(c)), ClearActive(c));
    case DoGlobal =>
      PerformBalanced(b, TakeIdle(ReadIdx(l)));
      PerformBalanced(Perform(b, TakeIdle(ReadIdx(l))), AddTaken);
    case _ =>
  }

  lemma FileOk(idle0: int, idle1: int, read: nat, before: bool, h: History, w: nat, x: Record)
    requires read < 2 && FiledAt(idle0, idle1, read, before, h) && x.due == h.samples + (if before then 1 else 2)
    requires w == if before then read else 1 - read
    ensures FiledAt(if w == 0 then idle0 + x.delta else idle0,
                    if w == 0 then idle1 else idle1 + x.delta, read, before, h.File(w, x))
  {
    hide Partition, DueOk, SumDelta;
    FilePartition(h, w, x);
    FileDue(read, before, h, w, x);
    SumDeltaAdd(h.buf0, x);
    SumDeltaAdd(h.buf1, x);
    FileBufs(h, w, x);
    hide *;
    FiledIntro(if w == 0 then idle0 + x.delta else idle0,
               if w == 0 then idle1 else idle1 + x.delta, read, before, h.File(w, x));
  }

  lemma FiledIntro(idle0: int, idle1: int, read: nat, before: bool, h: History)
    requires idle0 == SumDelta(h.buf0) && idle1 == SumDelta(h.buf1) && DueOk(read, before, h) && Partition(h)
    ensures FiledAt(idle0, idle1, read, before, h)
  {}

  lemma FileBufs(h: History, w: nat, x: Record)
    ensures var h' := h.File(w, x);
            h'.buf0 == (if w == 0 then h.buf0 + [x] else h.buf0) && h'.buf1 == (if w == 0 then h.buf1 else h.buf1 + [x])
  {}

  lemma SumDeltaAdd(rs: seq<Record>, x: Record)
    ensures SumDelta(rs + [x]) == SumDelta(rs) + x.delta
  {
    assert (rs + [x])[..|rs|] == rs;
  }

  lemma FilePartition(h: History, w: nat, x: Record)
    requires Partition(h)
    ensures Partition(h.File(w, x))
  {
    assert multiset(h.buf0 + [x]) == multiset(h.buf0) + multiset{x};
    assert multiset(h.buf1 + [x]) == multiset(h.buf1) + multiset{x};
  }

  lemma FileDue(read: nat, before: bool, h: History, w: nat, x: Record)
    requires read < 2 && DueOk(read, before, h) && x.due == h.samples + (if before then 1 else 2)
    requires w == if before then read else 1 - read
    ensures DueOk(read, before, h.File(w, x))
  {}

  lemma FoldOk(idle0: int, idle1: int, read: nat, before: bool, after: bool, h: History)
    requires read < 2 && FiledAt(idle0, idle1, read, before, h)
    ensures FiledAt(if read == 0 then 0 else idle0, if read == 0 then idle1 else 0, 1 - read, after, h.Fold(read))
  {
    FoldPartition(h, read);
    FoldDue(read, before, after, h);
    hide Partition, DueOk;
  }

  lemma FoldPartition(h: History, read: nat)
    requires read < 2 && Partition(h)
    ensures Partition(h.Fold(read))
  {}

  lemma FoldDue(read: nat, before: bool, after: bool, h: History)
    requires read < 2 && DueOk(read, before, h)
    ensures DueOk(1 - read, after, h.Fold(read))
  {
    assert forall x :: x in multiset(h.buf0) <==> x in h.buf0;
    assert forall x :: x in multiset(h.buf1) <==> x in h.buf1;
  }

  lemma EnterIdleEffect(l: Load, c: nat, nrActive: int)
    requires c < |l.books.cpus| && l.books.cpus[c].pc.AtRest?
    ensures var l', d, w := EnterIdle(l, c, nrActive), nrActive - l.books.cpus[c].active, WriteIdx(l);
            l'.books.idle0 == (if w == 0 then l.books.idle0 + d else l.books.idle0) &&
            l'.books.idle1 == (if w == 0 then l.books.idle1 else l.books.idle1 + d) &&
            ReadIdx(l') == ReadIdx(l) && l'.jiffies == l.jiffies && l'.update == l.update
  {}

  lemma WriteIdxSwitches(l: Load)
    ensures WriteIdx(l) == if l.jiffies < l.update then ReadIdx(l) else 1 - ReadIdx(l)
  {
    assert (l.idx + 1) % 2 == 1 - l.idx % 2;
  }

  lemma EnterIdleFiled(l: Load, h: History, c: nat, nrActive: int, x: Record)
    requires FiledAt(l.books.idle0, l.books.idle1, ReadIdx(l), l.jiffies < l.update, h)
    requires c < |l.books.cpus| && l.books.cpus[c].pc.AtRest?
    requires x == Record(nrActive - l.books.cpus[c].active, h.samples + if l.jiffies < l.update then 1 else 2)
    ensures var l' := EnterIdle(l, c, nrActive);
            FiledAt(l'.books.idle0, l'.books.idle1, ReadIdx(l'), l'.jiffies < l'.update, h.File(WriteIdx(l), x))
  {
    hide *;
    EnterIdleEffect(l, c, nrActive);
    WriteIdxSwitches(l);
    FileOk(l.books.idle0, l.books.idle1, ReadIdx(l), l.jiffies < l.update, h, WriteIdx(l), x);
  }

  lemma EnterIdleInv(l: Load, h: History, c: nat, nrActive: int)
    requires Inv(l, h) && c < |l.books.cpus|
    ensures Inv(EnterIdle(l, c, nrActive), Recorded(l, h, DoEnterIdle(c, nrActive)))
  {
    hide FiledAt, EnterIdle, Balanced;
    NextQuiet(l, DoEnterIdle(c, nrActive));
    EnterIdleFiled(l, h, c, nrActive, Record(nrActive - l.books.cpus[c].active, Due(l, h)));
  }

  /** The effect of a sample on the books and the window. */
  lemma GlobalEffect(l: Load)
    requires |l.avenrun| == 3 && l.books.taken == 0 && l.update + 10 <= l.jiffies
    ensures var l', r := Global(l), ReadIdx(l);
            l'.books.idle0 == (if r == 0 then 0 else l.books.idle0) &&
            l'.books.idle1 == (if r == 0 then l.books.idle1 else 0) &&
            ReadIdx(l') == 1 - r
  {
    assert (l.idx + 1) % 2 == 1 - l.idx % 2;
  }

  lemma GlobalInv(l: Load, h: History)
    requires Inv(l, h)
    ensures Inv(Global(l), Recorded(l, h, DoGlobal))
  {
    NextQuiet(l, DoGlobal);
    if l.update + 10 <= l.jiffies {
      GlobalEffect(l);
      var l' := Global(l);
      FoldOk(l.books.idle0, l.books.idle1, ReadIdx(l), l.jiffies < l.update, l'.jiffies < l'.update, h);
      hide FiledAt, Balanced, Global;
    }
  }

  lemma NextInv(l: Load, h: History, step: Step)
    requires Inv(l, h) && Enabled(l, step)
    ensures Inv(Next(l, step), Recorded(l, h, step))
  {
    match step
    case DoEnterIdle(c, nrActive) => EnterIdleInv(l, h, c, nrActive);
    case DoGlobal => GlobalInv(l, h);
    case _ => NextQuiet(l, step);
  }

  /** The states and histories that a run can reach. */
  ghost predicate Reached(l0: Load, h0: History, steps: seq<Step>, l: Load, h: History)
    decreases |steps|
  {
    if steps == [] then l == l0 && h == h0
    else Enabled(l0, steps[0]) && Reached(Next(l0, steps[0]), Recorded(l0, h0, steps[0]), steps[1..], l, h)
  }

  lemma {:induction false} ReachedInv(l0: Load, h0: History, steps: seq<Step>, l: Load, h: History)
    requires Inv(l0, h0) && Reached(l0, h0, steps, l, h)
    ensures Inv(l, h)
    decreases |steps|
  {
    if steps != [] {
      NextInv(l0, h0, steps[0]);
      ReachedInv(Next(l0, steps[0]), Recorded(l0, h0, steps[0]), steps[1..], l, h);
    }
  }

  /** What each processor reported last: on entering idle, at a tick that was due, and nothing once it is gone. */
  function Reported(l: Load, last: seq<int>, step: Step): seq<int>
  {
    match step
    case DoEnterIdle(c, nrActive) => if c < |last| then last[c := nrActive] else last
    case DoAccount(c, nrActive) =>
      if c < |last| && c < |l.rqUpdate| && l.rqUpdate[c] <= l.jiffies then last[c := nrActive] else last
    case DoRemove(c) => if c < |last| then last[c := 0] else last
    case _ => last
  }

  function ReportedAll(l: Load, last: seq<int>, steps: seq<Step>): seq<int>
    decreases |steps|
  {
    if steps == [] || !Enabled(l, steps[0]) then last
    else ReportedAll(Next(l, steps[0]), Reported(l, last, steps[0]), steps[1..])
  }

  /** The processors at rest hold exactly what they reported last. */
  ghost predicate Holds(l: Load, last: seq<int>)
  {
    |last| == |l.books.cpus| && forall c :: 0 <= c < |last| ==> l.books.cpus[c].active == last[c]
  }

  lemma StepHolds(l: Load, last: seq<int>, step: Step)
    requires Shape(l) && Holds(l, last) && Enabled(l, step)
    ensures Holds(Next(l, step), Reported(l, last, step))
  {
    hide Balanced;
    match step
    case DoAccount(c, nrActive) => TickFolds(l, c, nrActive);
    case DoRemove(c) => RemoveTakesOut(l, c);
    case DoGlobal => GlobalCpus(l);
    case _ =>
  }

  lemma GlobalCpus(l: Load)
    requires |l.avenrun| == 3 && l.books.taken == 0
    ensures Global(l).books.cpus == l.books.cpus
  {}

  lemma {:induction false} RunHolds(l0: Load, h0: History, steps: seq<Step>, l: Load, h: History, last: seq<int>)
    requires Inv(l0, h0) && Reached(l0, h0, steps, l, h) && Holds(l0, last)
    ensures Holds(l, ReportedAll(l0, last, steps))
    decreases |steps|
  {
    hide Next, Recorded, Enabled, Filed, Balanced, Holds;
    if steps != [] {
      NextInv(l0, h0, steps[0]);
      StepHolds(l0, last, steps[0]);
      RunHolds(Next(l0, steps[0]), Recorded(l0, h0, steps[0]), steps[1..], l, h, Reported(l0, last, steps[0]));
    }
  }

  function Sum(a: seq<int>): int { if a == [] then 0 else a[0] + Sum(a[1..]) }

  lemma {:induction false} ActiveIsSum(cpus: seq<Cpu>, a: seq<int>)
    requires |a| == |cpus| && forall c :: 0 <= c < |a| ==> cpus[c].active == a[c]
    ensures SumActive(cpus) == Sum(a)
  {
    if a != [] {
      ActiveIsSum(cpus[1..], a[1..]);
    }
  }

  function Boot(hz: nat, n: nat, jiffies: nat): Load
  {
    Load(hz, Books(0, 0, 0, 0, ColdStart(n)), jiffies, jiffies + LoadFreq(hz), 0, [0, 0, 0],
        seq(n, i => jiffies + LoadFreq(hz)))
  }

  lemma BootInv(hz: nat, n: nat, jiffies: nat)
    requires hz >= 2
    ensures Inv(Boot(hz, n, jiffies), History(0, multiset{}, [], [], multiset{}))
  {
    ColdStartBalanced(n);
    ColdStartRests(n);
  }

  lemma {:induction false} ColdStartRests(n: nat)
    ensures |ColdStart(n)| == n && forall c :: 0 <= c < n ==> ColdStart(n)[c].pc.AtRest?
  {
    if n > 0 {
      ColdStartRests(n - 1);
    }
  }

  /**
   Over every run from boot: a recorded change has been folded, with all its copies, exactly when the sample it is due
   at has been taken, and until then waits in the buffers; outside a window the buffer not being read is empty; and the
   global count with the buffers equals what the processors reported.
   */
  lemma FoldedOnceWhenDue(hz: nat, n: nat, jiffies: nat, steps: seq<Step>, l: Load, h: History, x: Record)
    requires hz >= 2 && Reached(Boot(hz, n, jiffies), History(0, multiset{}, [], [], multiset{}), steps, l, h)
    ensures h.done[x] == (if x.due <= h.samples then h.made[x] else 0)
    ensures multiset(h.buf0)[x] + multiset(h.buf1)[x] == (if x.due <= h.samples then 0 else h.made[x])
    ensures l.jiffies < l.update ==> Idle(l.books, 1 - ReadIdx(l)) == 0
    ensures l.books.tasks + l.books.idle0 + l.books.idle1 == SumActive(l.books.cpus)
  {
    BootInv(hz, n, jiffies);
    ReachedInv(Boot(hz, n, jiffies), History(0, multiset{}, [], [], multiset{}), steps, l, h);
    RestingSum(l.books.cpus);
    if x in h.buf0 { assert x.due > h.samples; }
    if x in h.buf1 { assert x.due > h.samples; }
    assert x in multiset(h.buf0) <==> x in h.buf0;
    assert x in multiset(h.buf1) <==> x in h.buf1;
  }

  /** Over every run from boot the global count is what the processors reported last, less what waits in the buffers. */
  lemma CountsReports(hz: nat, n: nat, jiffies: nat, steps: seq<Step>, l: Load, h: History)
    requires hz >= 2 && Reached(Boot(hz, n, jiffies), History(0, multiset{}, [], [], multiset{}), steps, l, h)
    ensures var last := ReportedAll(Boot(hz, n, jiffies), seq(n, _ => 0), steps);
            l.books.tasks == Sum(last) - SumDelta(h.buf0) - SumDelta(h.buf1)
  {
    var l0, h0 := Boot(hz, n, jiffies), History(0, multiset{}, [], [], multiset{});
    BootInv(hz, n, jiffies);
    ColdStartRests(n);
    ColdStartZero(n);
    ReachedInv(l0, h0, steps, l, h);
    RunHolds(l0, h0, steps, l, h, seq(n, _ => 0));
    RestingSum(l.books.cpus);
    ActiveIsSum(l.books.cpus, ReportedAll(l0, seq(n, _ => 0), steps));
  }

  /** Processors that are between operations. */
  function Resting(active: seq<int>): (cpus: seq<Cpu>)
    ensures |cpus| == |active| && forall c :: 0 <= c < |active| ==> cpus[c] == Cpu(active[c], AtRest)
  {
    seq(|active|, c requires 0 <= c < |active| => Cpu(active[c], AtRest))
  }

  /** The file-scope counters of the scheduler core and the load fields of its run queues. */
  class GlobalLoad {
    const hz: nat
    var calcLoadTasks: int
    const calcLoadIdle: array<int>
    var calcLoadUpdate: nat
    var calcLoadIdx: nat
    const avenrun: array<nat>
    const rqActive: array<int>
    const rqUpdate: array<nat>

    ghost predicate Valid()
      reads this
    {
      calcLoadIdle.Length == 2 && avenrun.Length == 3 && rqActive.Length == rqUpdate.Length &&
      calcLoadIdle != rqActive && avenrun != rqUpdate
    }

    ghost function Value(jiffies: nat): Load
      reads this, calcLoadIdle, avenrun, rqActive, rqUpdate
      requires Valid()
    {
      Load(hz, Books(calcLoadTasks, calcLoadIdle[0], calcLoadIdle[1], 0, Resting(rqActive[..])), jiffies,
           calcLoadUpdate, calcLoadIdx, avenrun[..], rqUpdate[..])
    }

    constructor (hz: nat, cpus: nat, jiffies: nat)
      ensures Valid() && fresh(calcLoadIdle) && fresh(avenrun) && fresh(rqActive) && fresh(rqUpdate)
      ensures Value(jiffies) == Boot(hz, cpus, jiffies)
    {
      this.hz, calcLoadTasks, calcLoadUpdate, calcLoadIdx := hz, 0, jiffies + (5 * hz + 1), 0;
      calcLoadIdle := new int[2](i => 0);
      avenrun := new nat[3](i => 0);
      rqActive := new int[cpus](i => 0);
      rqUpdate := new nat[cpus](i => jiffies + (5 * hz + 1));
      new;
      ColdStartRests(cpus);
      ColdStartZero(cpus);
      assert Resting(rqActive[..]) == ColdStart(cpus);
      assert avenrun[..] == [0, 0, 0];
      assert rqUpdate[..] == seq(cpus, i => jiffies + LoadFreq(hz));
    }

    /** calc_load_fold_active */
    method FoldActive(c: nat, nrActive: int) returns (delta: int)
      requires Valid() && c < rqActive.Length
      modifies rqActive
      ensures rqActive[..] == old(rqActive[..])[c := nrActive] && delta == nrActive - old(rqActive[c])
    {
      delta := 0;
      if nrActive != rqActive[c] {
        delta := nrActive - rqActive[c];
        rqActive[c] := nrActive;
      }
    }

    method CalcLoadEnterIdle(c: nat, nrActive: int, jiffies: nat)
      requires Valid() && c < rqActive.Length
      modifies rqActive, calcLoadIdle
      ensures Value(jiffies) == EnterIdle(old(Value(jiffies)), c, nrActive)
    {
      var delta := FoldActive(c, nrActive);
      if delta != 0 {
        var idx := calcLoadIdx;
        if !(jiffies < calcLoadUpdate) {
          idx := idx + 1;
        }
        idx := idx % 2;
        calcLoadIdle[idx] := calcLoadIdle[idx] + delta;
      }
    }

    method CalcLoadExitIdle(c: nat, jiffies: nat)
      requires Valid() && c < rqActive.Length
      modifies rqUpdate
      ensures Value(jiffies) == ExitIdle(old(Value(jiffies)), c)
    {
      if jiffies < rqUpdate[c] {
        return;
      }
      rqUpdate[c] := calcLoadUpdate;
      if jiffies < rqUpdate[c] + 10 {
        rqUpdate[c] := rqUpdate[c] + (5 * hz + 1);
      }
    }

    method CalcLoadAccountActive(c: nat, nrActive: int, jiffies: nat)
      requires Valid() && c < rqActive.Length
      modifies this`calcLoadTasks, rqActive, rqUpdate
      ensures Value(jiffies) == AccountActive(old(Value(jiffies)), c, nrActive)
    {
      if jiffies < rqUpdate[c] {
        return;
      }
      var delta := FoldActive(c, nrActive);
      if delta != 0 {
        calcLoadTasks := calcLoadTasks + delta;
      }
      rqUpdate[c] := rqUpdate[c] + (5 * hz + 1);
    }

    method CalcGlobalLoadRemove(c: nat, jiffies: nat)
      requires Valid() && c < rqActive.Length
      modifies this`calcLoadTasks, rqActive
      ensures Value(jiffies) == Remove(old(Value(jiffies)), c)
    {
      calcLoadTasks := calcLoadTasks - rqActive[c];
      rqActive[c] := 0;
    }

    /** calc_load_fold_idle */
    method FoldIdle() returns (delta: int)
      requires Valid()
      modifies calcLoadIdle
      ensures delta == old(calcLoadIdle[calcLoadIdx % 2])
      ensures calcLoadIdle[..] == old(calcLoadIdle[..])[calcLoadIdx % 2 := 0]
    {
      var idx := calcLoadIdx % 2;
      delta := 0;
      if calcLoadIdle[idx] != 0 {
        delta := calcLoadIdle[idx];
        calcLoadIdle[idx] := 0;
      }
    }

    method AverageStep(active: nat)
      requires Valid()
      modifies avenrun
      ensures avenrun[..] == Averages(old(avenrun[..]), active)
    {
      avenrun[0] := CalcLoad(avenrun[0], EXP_1, active);
      avenrun[1] := CalcLoad(avenrun[1], EXP_5, active);
      avenrun[2] := CalcLoad(avenrun[2], EXP_15, active);
    }

    method CalcLoadNOf(load: nat, exp: nat, active: nat, n: nat) returns (r: nat)
      requires exp <= FIXED_1
      ensures r == CalcLoadN(load, exp, active, n)
    {
      FixedIsPow2();
      var power := FixedPowerInt(exp, FSHIFT, n);
      r := CalcLoad(load, power, active);
    }

    method AverageStepN(active: nat, n: nat)
      requires Valid()
      modifies avenrun
      ensures avenrun[..] == AveragesN(old(avenrun[..]), active, n)
    {
      hide CalcLoadN;
      avenrun[0] := CalcLoadNOf(avenrun[0], EXP_1, active, n);
      avenrun[1] := CalcLoadNOf(avenrun[1], EXP_5, active, n);
      avenrun[2] := CalcLoadNOf(avenrun[2], EXP_15, active, n);
    }

    method CalcGlobalNohz(jiffies: nat)
      requires Valid()
      modifies this`calcLoadUpdate, this`calcLoadIdx, avenrun
      ensures Value(jiffies) == CatchUp(old(Value(jiffies)))
    {
      hide AveragesN, Whole, Scaled, Resting;
      if !(jiffies < calcLoadUpdate + 10) {
        var delta: nat := jiffies - calcLoadUpdate - 10;
        var n := 1 + Whole(delta, 5 * hz + 1);
        AverageStepN(Scaled(calcLoadTasks), n);
        var missed := Periods(n);
        calcLoadUpdate := calcLoadUpdate + missed;
      }
      calcLoadIdx := calcLoadIdx + 1;
    }

    function Periods(n: nat): nat
    {
      IntMulLe(n, 0, 5 * hz + 1);
      n * LoadFreq(hz)
    }

    /** The first half of calc_global_load: the old idle delta joins the global count. */
    method FoldOldIdle(jiffies: nat)
      requires Valid()
      modifies this`calcLoadTasks, calcLoadIdle
      ensures var was := old(Value(jiffies));
              Value(jiffies) == was.(books := Perform(Perform(was.books, TakeIdle(ReadIdx(was))), AddTaken))
    {
      hide Resting;
      var delta := FoldIdle();
      if delta != 0 {
        calcLoadTasks := calcLoadTasks + delta;
      }
    }

    method CalcGlobalLoad(jiffies: nat)
      requires Valid()
      modifies this, calcLoadIdle, avenrun
      ensures Valid() && Value(jiffies) == Global(old(Value(jiffies)))
    {
      hide CatchUp, Averages, Scaled, Resting, Perform;
      if jiffies < calcLoadUpdate + 10 {
        return;
      }
      FoldOldIdle(jiffies);
      AverageStep(Scaled(calcLoadTasks));
      calcLoadUpdate := calcLoadUpdate + (5 * hz + 1);
      CalcGlobalNohz(jiffies);
    }
  }

  lemma {:induction false} ColdStartZero(n: nat)
    ensures |ColdStart(n)| == n && forall c :: 0 <= c < n ==> ColdStart(n)[c] == Cpu(0, AtRest)
  {
    if n > 0 {
      ColdStartZero(n - 1);
    }
  }
}
