/**
 Locking of two run queues at once, by any number of threads. A run queue is its address; each
 function is the sequence of lock operations it performs, which may be interleaved at any point.
 */
module RqLocks {

  /** TryElse is a trylock: when the lock is taken, the operations in fail come first. */
  datatype Op = Lock(rq: nat) | Unlock(rq: nat) | TryElse(rq: nat, fail: seq<Op>) | Return(value: bool)

  function DoubleRqLock(rq1: nat, rq2: nat): seq<Op>
  {
    if rq1 == rq2 then [Lock(rq1)]
    else if rq1 < rq2 then [Lock(rq1), Lock(rq2)]
    else [Lock(rq2), Lock(rq1)]
  }

  function DoubleRqUnlock(rq1: nat, rq2: nat): seq<Op>
  {
    [Unlock(rq1)] + if rq1 != rq2 then [Unlock(rq2)] else []
  }

  /** _double_lock_balance with CONFIG_PREEMPT */
  function FairBalance(thisRq: nat, busiest: nat): seq<Op>
  {
    [Unlock(thisRq)] + DoubleRqLock(thisRq, busiest) + [Return(true)]
  }

  /** _double_lock_balance without CONFIG_PREEMPT */
  function UnfairBalance(thisRq: nat, busiest: nat): seq<Op>
  {
    [Return(false),
     TryElse(busiest, if busiest < thisRq then [Unlock(thisRq), Lock(busiest), Lock(thisRq), Return(true)]
                      else [Lock(busiest)])]
  }

  datatype Call =
    | LockOne(rq: nat)
    | UnlockOne(rq: nat)
    | LockBoth(rq1: nat, rq2: nat)
    | UnlockBoth(rq1: nat, rq2: nat)
    | Balance(fair: bool, thisRq: nat, busiest: nat)
    | UnlockBalance(thisRq: nat, busiest: nat)

  /** What the callers of each function hold. */
  predicate MayCall(held: set<nat>, c: Call)
  {
    match c
    case LockOne(_) => held == {}
    case UnlockOne(rq) => rq in held
    case LockBoth(_, _) => held == {}
    case UnlockBoth(a, b) => held == {a, b}
    case Balance(fair, a, b) => held == {a} && (a != b || fair)
    case UnlockBalance(a, b) => held == {a, b} && a != b
  }

  function Ops(c: Call): seq<Op>
  {
    match c
    case LockOne(rq) => [Lock(rq)]
    case UnlockOne(rq) => [Unlock(rq)]
    case LockBoth(a, b) => DoubleRqLock(a, b)
    case UnlockBoth(a, b) => DoubleRqUnlock(a, b)
    case Balance(fair, a, b) => if fair then FairBalance(a, b) else UnfairBalance(a, b)
    case UnlockBalance(_, b) => [Unlock(b)]
  }

  /** What the caller holds when the function returns. */
  function Goal(held: set<nat>, c: Call): set<nat>
  {
    match c
    case LockOne(rq) => {rq}
    case UnlockOne(rq) => held - {rq}
    case LockBoth(a, b) => {a, b}
    case UnlockBoth(_, _) => {}
    case Balance(_, a, b) => {a, b}
    case UnlockBalance(a, _) => {a}
  }

  /** Of the call in progress, whether it has released a lock, whether a trylock has failed, and what it returns. */
  datatype Past = Past(dropped: bool, missed: bool, ret: bool)

  datatype Thread = Thread(held: set<nat>, todo: seq<Op>, call: Call, goal: set<nat>, past: Past)

  const FRESH := Past(false, false, false)

  /** A balance returns whether it dropped its lock, and drops it only if it is fair or must go by address. */
  predicate BalanceOk(c: Call, past: Past)
  {
    c.Balance? ==> past.ret == past.dropped == (c.fair || (past.missed && c.busiest < c.thisRq))
  }

  /**
   From here to the end of the call, on every path: a blocking acquire is of a higher address than any lock held, only
   held locks are released, and the end is the goal. A balance returns true exactly when it has released its own lock
   meanwhile, and keeps it when its trylock succeeds or addresses rise.
   */
  ghost predicate Safe(held: set<nat>, todo: seq<Op>, call: Call, goal: set<nat>, past: Past)
    decreases Work(todo)
  {
    if todo == [] then held == goal && |held| <= 2 && BalanceOk(call, past)
    else
      var op, rest := todo[0], todo[1..];
      if op.Lock? then Above(op.rq, held) && Safe(held + {op.rq}, rest, call, goal, past)
      else if op.Unlock? then op.rq in held && Safe(held - {op.rq}, rest, call, goal, past.(dropped := true))
      else if op.Return? then Safe(held, rest, call, goal, past.(ret := op.value))
      else
        WorkConcat(op.fail, rest);
        && op.rq !in held && Safe(held + {op.rq}, rest, call, goal, past)
        && Safe(held, op.fail + rest, call, goal, past.(missed := true))
  }

  ghost predicate Above(rq: nat, held: set<nat>) { forall h :: h in held ==> h < rq }

  function Work(todo: seq<Op>): nat
  {
    if todo == [] then 0
    else 1 + (if todo[0].TryElse? then Work(todo[0].fail) else 0) + Work(todo[1..])
  }

  lemma {:induction false} WorkConcat(a: seq<Op>, b: seq<Op>)
    ensures Work(a + b) == Work(a) + Work(b)
  {
    if a == [] {
      assert a + b == b;
    } else {
      assert (a + b)[1..] == a[1..] + b;
      WorkConcat(a[1..], b);
    }
  }

  ghost predicate ThreadOk(t: Thread) { Safe(t.held, t.todo, t.call, t.goal, t.past) }

  ghost predicate Exclusive(ts: seq<Thread>)
  {
    forall i, j :: 0 <= i < j < |ts| ==> ts[i].held !! ts[j].held
  }

  ghost predicate Inv(ts: seq<Thread>)
  {
    Exclusive(ts) && forall i :: 0 <= i < |ts| ==> ThreadOk(ts[i])
  }

  ghost predicate Free(ts: seq<Thread>, rq: nat) { forall i :: 0 <= i < |ts| ==> rq !in ts[i].held }

  datatype Step = Begin(t: nat, call: Call) | Do(t: nat)

  /** A blocking acquire can be performed only when nobody has the lock; anything else always can. */
  ghost predicate Enabled(ts: seq<Thread>, step: Step)
  {
    step.t < |ts| &&
    match step
    case Begin(t, call) => ts[t].todo == [] && MayCall(ts[t].held, call)
    case Do(t) => ts[t].todo != [] && (ts[t].todo[0].Lock? ==> Free(ts, ts[t].todo[0].rq))
  }

  ghost function Perform(ts: seq<Thread>, x: Thread): Thread
    requires x.todo != []
  {
    var rest := x.todo[1..];
    match x.todo[0]
    case Lock(rq) => x.(held := x.held + {rq}, todo := rest)
    case Unlock(rq) => x.(held := x.held - {rq}, todo := rest, past := x.past.(dropped := true))
    case TryElse(rq, fail) => if Free(ts, rq) then x.(held := x.held + {rq}, todo := rest)
        else x.(todo := fail + rest, past := x.past.(missed := true))
    case Return(value) => x.(todo := rest, past := x.past.(ret := value))
  }

  ghost function Next(ts: seq<Thread>, step: Step): seq<Thread>
    requires Enabled(ts, step)
  {
    match step
    case Begin(t, call) => ts[t := Thread(ts[t].held, Ops(call), call, Goal(ts[t].held, call), FRESH)]
    case Do(t) => ts[t := Perform(ts, ts[t])]
  }

  /** Each of the functions is safe from what its callers hold. */
  lemma CallSafe(held: set<nat>, c: Call)
    requires MayCall(held, c) && |held| <= 2
    ensures Safe(held, Ops(c), c, Goal(held, c), FRESH)
  {
    hide Safe;
    match c
    case LockOne(rq) => SafeLast(held, Lock(rq), c, Goal(held, c));
    case UnlockOne(rq) => SafeLast(held, Unlock(rq), c, Goal(held, c));
    case LockBoth(a, b) =>
      LockBothSafe(a, b, c, FRESH, []);
      assert DoubleRqLock(a, b) + [] == DoubleRqLock(a, b);
    case UnlockBoth(a, b) => UnlockBothSafe(a, b, c);
    case Balance(fair, a, b) => if fair { FairSafe(a, b, c); } else { UnfairSafe(a, b, c); }
    case UnlockBalance(a, b) => SafeLast(held, Unlock(b), c, Goal(held, c));
  }

  lemma UnlockBothSafe(a: nat, b: nat, c: Call)
    requires !c.Balance?
    ensures Safe({a, b}, DoubleRqUnlock(a, b), c, {}, FRESH)
  {
    assert {a, b} - {a} == if a == b then {} else {b};
    assert DoubleRqUnlock(a, b)[1..] == if a == b then [] else [Unlock(b)];
  }

  lemma SafeLast(held: set<nat>, op: Op, c: Call, goal: set<nat>)
    requires !c.Balance? && |goal| <= 2
    requires (op.Lock? && held == {} && goal == {op.rq}) || (op.Unlock? && op.rq in held && goal == held - {op.rq})
    ensures Safe(held, [op], c, goal, FRESH)
  {
    assert [op][1..] == [];
  }

  lemma LockBothSafe(a: nat, b: nat, c: Call, past: Past, tail: seq<Op>)
    requires if c.Balance? then tail == [Return(true)] && BalanceOk(c, past.(ret := true)) else tail == []
    ensures Safe({}, DoubleRqLock(a, b) + tail, c, {a, b}, past)
  {
    var ops := DoubleRqLock(a, b) + tail;
    var lo, hi := if a < b then a else b, if a < b then b else a;
    TailSafe({lo, hi}, tail, c, {a, b}, past);
    if a == b {
      assert ops[1..] == tail && {} + {a} == {lo, hi};
    } else {
      assert ops[1..][1..] == tail && {lo} + {hi} == {lo, hi};
      assert ops[0] == Lock(lo) && ops[1..][0] == Lock(hi);
      assert Safe({lo}, ops[1..], c, {a, b}, past);
      assert {} + {lo} == {lo};
    }
  }

  lemma TailSafe(held: set<nat>, tail: seq<Op>, c: Call, goal: set<nat>, past: Past)
    requires held == goal && |held| <= 2
    requires if c.Balance? then tail == [Return(true)] && BalanceOk(c, past.(ret := true)) else tail == []
    ensures Safe(held, tail, c, goal, past)
  {
    if c.Balance? {
      assert tail[1..] == [];
    }
  }

  lemma FairSafe(a: nat, b: nat, c: Call)
    requires c == Balance(true, a, b)
    ensures Safe({a}, FairBalance(a, b), c, {a, b}, FRESH)
  {
    LockBothSafe(a, b, c, FRESH.(dropped := true), [Return(true)]);
    assert FairBalance(a, b)[1..] == DoubleRqLock(a, b) + [Return(true)];
    assert {a} - {a} == {};
  }

  lemma UnfairSafe(a: nat, b: nat, c: Call)
    requires c == Balance(false, a, b) && a != b
    ensures Safe({a}, UnfairBalance(a, b), c, {a, b}, FRESH)
  {
    var ops := UnfairBalance(a, b);
    var fail := ops[1].fail;
    assert ops[1..][1..] == [] && fail + [] == fail && {a} + {b} == {a, b};
    assert Safe({a}, fail, c, {a, b}, FRESH.(missed := true)) by {
      if b < a {
        LockBothSafe(a, b, c, FRESH.(dropped := true, missed := true), [Return(true)]);
        assert fail[1..] == DoubleRqLock(a, b) + [Return(true)];
        assert {a} - {a} == {};
      } else {
        assert fail[1..] == [];
      }
    }
    assert Safe({a}, ops[1..], c, {a, b}, FRESH);
  }

  lemma ExclusiveUpdate(ts: seq<Thread>, t: nat, x: Thread)
    requires Exclusive(ts) && t < |ts|
    requires forall rq :: rq in x.held ==> rq in ts[t].held || Free(ts, rq)
    ensures Exclusive(ts[t := x])
  {
    forall i, rq | 0 <= i < |ts| && i != t && rq in x.held ensures rq !in ts[i].held {
      if rq in ts[t].held {
        assert ts[if i < t then i else t].held !! ts[if i < t then t else i].held;
      }
    }
  }

  lemma NextInv(ts: seq<Thread>, step: Step)
    requires Inv(ts) && Enabled(ts, step)
    ensures Inv(Next(ts, step))
  {
    var t := step.t;
    assert ThreadOk(ts[t]);
    match step
    case Begin(_, call) =>
      CallSafe(ts[t].held, call);
      ExclusiveUpdate(ts, t, Next(ts, step)[t]);
    case Do(_) =>
      ExclusiveUpdate(ts, t, Perform(ts, ts[t]));
  }

  function Start(n: nat): seq<Thread>
  {
    if n == 0 then [] else Start(n - 1) + [Thread({}, [], LockOne(0), {}, FRESH)]
  }

  lemma {:induction false} StartInv(n: nat)
    ensures Inv(Start(n)) && |Start(n)| == n
    ensures forall i :: 0 <= i < n ==> Start(n)[i].held == {}
  {
    if n > 0 {
      StartInv(n - 1);
    }
  }

  ghost predicate Reached(ts: seq<Thread>, steps: seq<Step>, end: seq<Thread>)
    decreases |steps|
  {
    if steps == [] then end == ts else Enabled(ts, steps[0]) && Reached(Next(ts, steps[0]), steps[1..], end)
  }

  lemma {:induction false} ReachedInv(ts: seq<Thread>, steps: seq<Step>, end: seq<Thread>)
    requires Inv(ts) && Reached(ts, steps, end)
    ensures Inv(end)
    decreases |steps|
  {
    if steps != [] {
      NextInv(ts, steps[0]);
      ReachedInv(Next(ts, steps[0]), steps[1..], end);
    }
  }

  /** Thread t is stuck at a lock that thread u has. */
  ghost predicate WaitsFor(ts: seq<Thread>, t: nat, u: nat)
  {
    t < |ts| && u < |ts| && ts[t].todo != [] && ts[t].todo[0].Lock? && ts[t].todo[0].rq in ts[u].held
  }

  /** Threads each waiting for the next and the last for the first. */
  ghost predicate Deadlock(ts: seq<Thread>, cycle: seq<nat>)
  {
    cycle != [] && (forall k :: 0 <= k < |cycle| - 1 ==> WaitsFor(ts, cycle[k], cycle[k + 1])) &&
    WaitsFor(ts, cycle[|cycle| - 1], cycle[0])
  }

  /** The address a thread is waiting to lock. */
  ghost function Wanted(ts: seq<Thread>, t: nat): nat
  {
    if t < |ts| && ts[t].todo != [] && ts[t].todo[0].Lock? then ts[t].todo[0].rq else 0
  }

  lemma WaitsHigher(ts: seq<Thread>, t: nat, u: nat, v: nat)
    requires Inv(ts) && WaitsFor(ts, t, u) && WaitsFor(ts, u, v)
    ensures Wanted(ts, t) < Wanted(ts, u)
  {
    assert ThreadOk(ts[u]);
  }

  ghost function After(cycle: seq<nat>, k: nat): nat
    requires k < |cycle|
  {
    if k + 1 < |cycle| then cycle[k + 1] else cycle[0]
  }

  lemma DeadlockAt(ts: seq<Thread>, cycle: seq<nat>, k: nat)
    requires Deadlock(ts, cycle) && k < |cycle|
    ensures WaitsFor(ts, cycle[k], After(cycle, k))
  {
    if k < |cycle| - 1 {
      assert WaitsFor(ts, cycle[k], cycle[k + 1]);
    }
  }

  /** Along a chain of waiting threads the wanted addresses rise. */
  lemma {:induction false} ChainRises(ts: seq<Thread>, cycle: seq<nat>, k: nat)
    requires Inv(ts) && Deadlock(ts, cycle) && k < |cycle|
    ensures Wanted(ts, cycle[0]) + k <= Wanted(ts, cycle[k])
    decreases k
  {
    if k > 0 {
      ChainRises(ts, cycle, k - 1);
      DeadlockAt(ts, cycle, k - 1);
      DeadlockAt(ts, cycle, k);
      WaitsHigher(ts, cycle[k - 1], cycle[k], After(cycle, k));
    }
  }

  lemma NoCycle(ts: seq<Thread>, cycle: seq<nat>)
    requires Inv(ts)
    ensures !Deadlock(ts, cycle)
  {
    if Deadlock(ts, cycle) {
      var last := |cycle| - 1;
      ChainRises(ts, cycle, last);
      DeadlockAt(ts, cycle, last);
      DeadlockAt(ts, cycle, 0);
      WaitsHigher(ts, cycle[last], cycle[0], After(cycle, 0));
    }
  }

  /**
   Any number of threads, in any interleaving of the locking functions: no cycle of waiting threads ever forms, a
   blocking acquire made while holding a lock is of a higher address, and a function that has finished left its goal. A
   balance drops its lock, and returns true, only if it is the fair one, or its trylock failed and the other lock has
   the lower address.
   */
  lemma NoDeadlock(n: nat, steps: seq<Step>, ts: seq<Thread>, cycle: seq<nat>, t: nat)
    requires Reached(Start(n), steps, ts) && t < |ts|
    ensures !Deadlock(ts, cycle)
    ensures ts[t].todo != [] && ts[t].todo[0].Lock? ==> Above(ts[t].todo[0].rq, ts[t].held)
    ensures ts[t].todo == [] ==> ts[t].held == ts[t].goal && |ts[t].held| <= 2
    ensures ts[t].todo == [] ==> BalanceOk(ts[t].call, ts[t].past)
    ensures forall u :: 0 <= u < |ts| && u != t ==> ts[t].held !! ts[u].held
  {
    StartInv(n);
    ReachedInv(Start(n), steps, ts);
    NoCycle(ts, cycle);
    assert ThreadOk(ts[t]);
  }

  /** Behind every waiting thread there is one that holds a lock and can go on. */
  lemma {:induction false} SomeoneRuns(ts: seq<Thread>, t: nat, u: nat, bound: nat) returns (r: nat)
    requires Inv(ts) && WaitsFor(ts, t, u) && forall i :: 0 <= i < |ts| ==> forall h :: h in ts[i].held ==> h < bound
    ensures r < |ts| && ts[r].held != {} && (ts[r].todo == [] || Enabled(ts, Do(r)))
    decreases bound - ts[t].todo[0].rq
  {
    if ts[u].todo != [] && ts[u].todo[0].Lock? && !Free(ts, ts[u].todo[0].rq) {
      var v :| 0 <= v < |ts| && ts[u].todo[0].rq in ts[v].held;
      WaitsHigher(ts, t, u, v);
      r := SomeoneRuns(ts, u, v, bound);
    } else {
      r := u;
    }
  }
}
