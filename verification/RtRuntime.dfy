/**
 Sharing of real-time runtime between the CPUs of a root domain: a CPU borrows from its
 neighbours, takes back what it lent before it is disabled, and starts afresh when enabled.
 */
module RtRuntime {
  import opened Common

  /** What a CPU contributes: a disabled one is marked infinite and contributes nothing. */
  function Worth(x: int): int { if x == RUNTIME_INF then 0 else x }

  function SumFrom(rt: seq<int>, i: nat): int
    requires i <= |rt|
    decreases |rt| - i
  {
    if i == |rt| then 0 else Worth(rt[i]) + SumFrom(rt, i + 1)
  }

  function CountFrom(rt: seq<int>, i: nat): nat
    requires i <= |rt|
    decreases |rt| - i
  {
    if i == |rt| then 0 else (if rt[i] == RUNTIME_INF then 0 else 1) + CountFrom(rt, i + 1)
  }

  lemma {:induction false} SumUpdate(rt: seq<int>, k: nat, x: int, i: nat)
    requires k < |rt| && i <= |rt|
    ensures SumFrom(rt[k := x], i) == SumFrom(rt, i) + if i <= k then Worth(x) - Worth(rt[k]) else 0
    decreases |rt| - i
  {
    if i < |rt| {
      SumUpdate(rt, k, x, i + 1);
    }
  }

  lemma {:induction false} CountUpdate(rt: seq<int>, k: nat, x: int, i: nat)
    requires k < |rt| && i <= |rt|
    ensures CountFrom(rt[k := x], i) ==
            CountFrom(rt, i) + if i > k || (x == RUNTIME_INF) == (rt[k] == RUNTIME_INF) then 0
                               else if x == RUNTIME_INF then -1 else 1
    decreases |rt| - i
  {
    if i < |rt| {
      CountUpdate(rt, k, x, i + 1);
    }
  }

  /** No enabled CPU owes runtime. */
  ghost predicate NonNegative(rt: seq<int>) {
    forall k :: 0 <= k < |rt| ==> 0 <= rt[k] <= RUNTIME_INF
  }

  /** The enabled CPUs hold between them exactly one group runtime each. */
  ghost predicate Conserved(rt: seq<int>, groupRuntime: int) {
    && NonNegative(rt)
    && SumFrom(rt, 0) == CountFrom(rt, 0) * groupRuntime
  }

  /** Whatever is borrowed, no enabled CPU can come to look disabled. */
  ghost predicate Fits(rt: seq<int>, groupRuntime: int) {
    0 <= groupRuntime && |rt| * groupRuntime < RUNTIME_INF
  }

  lemma {:induction false} PartOfSum(rt: seq<int>, k: nat, i: nat)
    requires NonNegative(rt) && i <= k < |rt|
    ensures Worth(rt[k]) <= SumFrom(rt, i)
    decreases |rt| - i
  {
    SumNonNegative(rt, i + 1);
    if i < k {
      PartOfSum(rt, k, i + 1);
    }
  }

  lemma {:induction false} SumNonNegative(rt: seq<int>, i: nat)
    requires NonNegative(rt) && i <= |rt|
    ensures SumFrom(rt, i) >= 0 && CountFrom(rt, i) <= |rt| - i
    decreases |rt| - i
  {
    if i < |rt| {
      SumNonNegative(rt, i + 1);
    }
  }

  lemma TotalBound(rt: seq<int>, groupRuntime: int)
    requires Conserved(rt, groupRuntime) && Fits(rt, groupRuntime)
    ensures SumFrom(rt, 0) < RUNTIME_INF
  {
    SumNonNegative(rt, 0);
    MulMono(CountFrom(rt, 0), |rt|, groupRuntime);
  }

  // ---- borrowing ----

  /** What self takes from CPU i: a fair part of its spare runtime, but not beyond the period. */
  function Diff(rt: seq<int>, time: seq<int>, self: nat, period: int, i: nat): int
    requires |time| == |rt| && self < |rt| && i < |rt| && rt[i] > time[i]
  {
    var diff := (rt[i] - time[i]) / |rt|;
    if rt[self] + diff > period then period - rt[self] else diff
  }

  /** Skipped: self, disabled CPUs, and CPUs with nothing to spare. */
  predicate Spares(rt: seq<int>, time: seq<int>, self: nat, i: nat)
    requires |time| == |rt| && i < |rt|
  {
    i != self && rt[i] != RUNTIME_INF && rt[i] > time[i]
  }

  function Take(rt: seq<int>, self: nat, i: nat, diff: int): seq<int>
    requires self < |rt| && i < |rt|
  {
    rt[i := rt[i] - diff][self := rt[self] + diff]
  }

  /** do_balance_runtime from CPU i on, with whether anything was offered so far. */
  function Balance(rt: seq<int>, time: seq<int>, self: nat, period: int, i: nat, more: bool): (seq<int>, bool)
    requires |time| == |rt| && self < |rt| && i <= |rt|
    decreases |rt| - i
  {
    if i == |rt| then (rt, more)
    else if !Spares(rt, time, self, i) then Balance(rt, time, self, period, i + 1, more)
    else
      var rt' := Take(rt, self, i, Diff(rt, time, self, period, i));
      if rt'[self] == period then (rt', true) else Balance(rt', time, self, period, i + 1, true)
  }

  lemma DiffBound(rt: seq<int>, time: seq<int>, self: nat, period: int, i: nat)
    requires |time| == |rt| && self < |rt| && i < |rt| && rt[i] > time[i] && rt[self] <= period
    ensures 0 <= Diff(rt, time, self, period, i) <= rt[i] - time[i]
    ensures rt[self] + Diff(rt, time, self, period, i) <= period
  {
    DivAtMost(rt[i] - time[i], |rt|);
  }

  lemma DivAtMost(x: nat, n: nat)
    requires n > 0
    ensures 0 <= x / n <= x
  {
    var q := x / n;
    assert n * q <= x;
    MulAtLeast(n, q);
  }

  lemma MulAtLeast(n: nat, q: nat)
    requires n > 0
    ensures q <= n * q
  {
    assert (n - 1) * q >= 0;
  }

  lemma TakeConserves(rt: seq<int>, self: nat, i: nat, diff: int)
    requires self < |rt| && i < |rt| && i != self && rt[i] != RUNTIME_INF && rt[self] != RUNTIME_INF
    requires rt[i] - diff != RUNTIME_INF && rt[self] + diff != RUNTIME_INF
    ensures SumFrom(Take(rt, self, i, diff), 0) == SumFrom(rt, 0)
    ensures CountFrom(Take(rt, self, i, diff), 0) == CountFrom(rt, 0)
  {
    hide SumFrom, CountFrom;
    var x, y := rt[i] - diff, rt[self] + diff;
    var rt1 := rt[i := x];
    assert rt1[self] == rt[self];
    SumUpdate(rt, i, x, 0);
    SumUpdate(rt1, self, y, 0);
    CountUpdate(rt, i, x, 0);
    CountUpdate(rt1, self, y, 0);
  }

  /**
   Borrowing moves runtime and creates none: the sum over enabled CPUs stays; no donor ends below what it has already
   used; and a borrower that starts within its period stays within it.
   */
  lemma {:induction false} BalanceOk(rt: seq<int>, time: seq<int>, self: nat, period: int, i: nat, more: bool)
    requires |time| == |rt| && self < |rt| && i <= |rt| && NonNegative(rt)
    requires forall k :: 0 <= k < |time| ==> time[k] >= 0
    requires rt[self] <= period < RUNTIME_INF
    ensures var rt' := Balance(rt, time, self, period, i, more).0;
            && |rt'| == |rt| && NonNegative(rt')
            && SumFrom(rt', 0) == SumFrom(rt, 0) && CountFrom(rt', 0) == CountFrom(rt, 0)
            && rt[self] <= rt'[self] <= period
            && (forall k :: 0 <= k < |rt| && k != self ==>
                  rt'[k] <= rt[k] && (rt'[k] == rt[k] || time[k] <= rt'[k]) &&
                  (rt'[k] == RUNTIME_INF <==> rt[k] == RUNTIME_INF))
    decreases |rt| - i
  {
    if i < |rt| {
      if Spares(rt, time, self, i) {
        var diff := Diff(rt, time, self, period, i);
        DiffBound(rt, time, self, period, i);
        TakeConserves(rt, self, i, diff);
        var rt' := Take(rt, self, i, diff);
        if rt'[self] != period {
          BalanceOk(rt', time, self, period, i + 1, true);
        }
      } else {
        BalanceOk(rt, time, self, period, i + 1, more);
      }
    }
  }

  /** The flag says whether some neighbour had runtime to spare when its turn came. */
  lemma {:induction false} BalanceMore(rt: seq<int>, time: seq<int>, self: nat, period: int, i: nat)
    requires |time| == |rt| && self < |rt| && i <= |rt|
    ensures Balance(rt, time, self, period, i, true).1
    ensures Balance(rt, time, self, period, i, false).1 <==> exists k :: i <= k < |rt| && Spares(rt, time, self, k)
    decreases |rt| - i
  {
    if i < |rt| {
      if Spares(rt, time, self, i) {
        var rt' := Take(rt, self, i, Diff(rt, time, self, period, i));
        if rt'[self] != period {
          BalanceMore(rt', time, self, period, i + 1);
        }
      }
      BalanceMore(rt, time, self, period, i + 1);
    }
  }

  // ---- how much is borrowed ----

  function Min(a: int, b: int): int { if a < b then a else b }

  /** One n-th of what CPU k has left of its runtime. */
  function Offer(rt: seq<int>, time: seq<int>, self: nat, k: nat): nat
    requires |time| == |rt| && k < |rt|
  {
    if Spares(rt, time, self, k) then (rt[k] - time[k]) / |rt| else 0
  }

  /** The offers of the CPUs from i up to j. */
  function Offers(rt: seq<int>, time: seq<int>, self: nat, i: nat, j: nat): nat
    requires |time| == |rt| && j <= |rt|
    decreases j - i
  {
    if i >= j then 0 else Offer(rt, time, self, i) + Offers(rt, time, self, i + 1, j)
  }

  lemma {:induction false} OffersFrame(rt: seq<int>, rt1: seq<int>, time: seq<int>, self: nat, i: nat, j: nat)
    requires |time| == |rt| == |rt1| && j <= |rt| && forall k :: i <= k < j && k != self ==> rt1[k] == rt[k]
    ensures Offers(rt1, time, self, i, j) == Offers(rt, time, self, i, j)
    decreases j - i
  {
    if i < j {
      OffersFrame(rt, rt1, time, self, i + 1, j);
    }
  }

  lemma MinStep(room: nat, o: nat, x: nat)
    ensures Min(room, o + x) == Min(room, o) + Min(room - Min(room, o), x)
  {}

  /** What the CPUs from i up to j give: their offers, or the room there is if that is less. */
  function GivenBy(rt: seq<int>, time: seq<int>, self: nat, period: int, i: nat, j: nat): int
    requires |time| == |rt| && self < |rt| && j <= |rt|
  {
    Min(period - rt[self], Offers(rt, time, self, i, j))
  }

  /** What CPU k gives. */
  function Gift(rt: seq<int>, time: seq<int>, self: nat, period: int, i: nat, k: nat): int
    requires |time| == |rt| && self < |rt| && k < |rt|
  {
    GivenBy(rt, time, self, period, i, k + 1) - GivenBy(rt, time, self, period, i, k)
  }

  ghost predicate Gives(rt: seq<int>, rt': seq<int>, time: seq<int>, self: nat, period: int, i: nat)
    requires |time| == |rt| && self < |rt| && i <= |rt|
  {
    && |rt'| == |rt| && rt'[self] == rt[self] + GivenBy(rt, time, self, period, i, |rt|)
    && (forall k :: 0 <= k < i && k != self ==> rt'[k] == rt[k])
    && (forall k :: i <= k < |rt| && k != self ==> rt[k] - rt'[k] == Gift(rt, time, self, period, i, k))
  }

  lemma GivesStep(rt: seq<int>, rt1: seq<int>, rt': seq<int>, time: seq<int>, self: nat, period: int, i: nat)
    requires |time| == |rt| && self < |rt| && i < |rt| && rt[self] <= period && (i == self ==> rt1 == rt)
    requires var m := Min(period - rt[self], Offer(rt, time, self, i)); rt1 == rt[i := rt[i] - m][self := rt[self] + m]
    requires Gives(rt1, rt', time, self, period, i + 1)
    ensures Gives(rt, rt', time, self, period, i)
  {
    var room, o := period - rt[self], Offer(rt, time, self, i);
    hide Offer;
    forall j | i < j <= |rt|
      ensures GivenBy(rt, time, self, period, i, j) == Min(room, o) + GivenBy(rt1, time, self, period, i + 1, j)
    {
      OffersFrame(rt, rt1, time, self, i + 1, j);
      MinStep(room, o, Offers(rt, time, self, i + 1, j));
    }
    hide GivenBy, Min, Offers;
    assert GivenBy(rt, time, self, period, i, i) == 0 && GivenBy(rt1, time, self, period, i + 1, i + 1) == 0 by {
      NothingYet(rt, time, self, period, i);
      NothingYet(rt1, time, self, period, i + 1);
    }
  }

  lemma NothingYet(rt: seq<int>, time: seq<int>, self: nat, period: int, i: nat)
    requires |time| == |rt| && self < |rt| && i <= |rt| && rt[self] <= period
    ensures GivenBy(rt, time, self, period, i, i) == 0
  {}

  /** No room, or nobody left to ask. */
  lemma GivesNothing(rt: seq<int>, time: seq<int>, self: nat, period: int, i: nat)
    requires |time| == |rt| && self < |rt| && i <= |rt| && rt[self] <= period
    requires rt[self] == period || i == |rt|
    ensures Gives(rt, rt, time, self, period, i)
  {
    hide Offers;
    if i == |rt| { NothingYet(rt, time, self, period, i); }
  }

  /**
   The CPUs are asked in order, each gives one n-th of what it has to spare, and the last to give only what still fits
   in the period: up to any CPU, what has been given is the sum of the offers or the room there was, whichever is less.
   */
  lemma {:induction false} BalanceGives(rt: seq<int>, time: seq<int>, self: nat, period: int, i: nat, more: bool)
    requires |time| == |rt| && self < |rt| && i <= |rt| && rt[self] <= period
    ensures Gives(rt, Balance(rt, time, self, period, i, more).0, time, self, period, i)
    decreases |rt| - i
  {
    hide Gives, Offers;
    if i == |rt| {
      GivesNothing(rt, time, self, period, i);
    } else if !Spares(rt, time, self, i) {
      BalanceGives(rt, time, self, period, i + 1, more);
      assert rt == rt[i := rt[i]][self := rt[self]];
      GivesStep(rt, rt, Balance(rt, time, self, period, i + 1, more).0, time, self, period, i);
    } else {
      var rt1 := Take(rt, self, i, Diff(rt, time, self, period, i));
      if rt1[self] == period {
        GivesNothing(rt1, time, self, period, i + 1);
        GivesStep(rt, rt1, rt1, time, self, period, i);
      } else {
        BalanceGives(rt1, time, self, period, i + 1, true);
        GivesStep(rt, rt1, Balance(rt1, time, self, period, i + 1, true).0, time, self, period, i);
      }
    }
  }

  lemma {:induction false} OffersAppend(rt: seq<int>, time: seq<int>, self: nat, i: nat, j: nat)
    requires |time| == |rt| && i <= j < |rt|
    ensures Offers(rt, time, self, i, j + 1) == Offers(rt, time, self, i, j) + Offer(rt, time, self, j)
    decreases j - i
  {
    if i < j {
      OffersAppend(rt, time, self, i + 1, j);
    }
  }

  lemma {:induction false} OffersMono(rt: seq<int>, time: seq<int>, self: nat, i: nat, j: nat, k: nat)
    requires |time| == |rt| && i <= j <= k <= |rt|
    ensures Offers(rt, time, self, i, j) <= Offers(rt, time, self, i, k)
    decreases k - j
  {
    if j < k {
      OffersAppend(rt, time, self, i, k - 1);
      OffersMono(rt, time, self, i, j, k - 1);
    }
  }

  /** The first CPU whose offer fills the room. */
  lemma FindLast(rt: seq<int>, time: seq<int>, self: nat, room: nat) returns (d: nat)
    requires |time| == |rt| && 0 < room <= Offers(rt, time, self, 0, |rt|)
    ensures d < |rt| && Offers(rt, time, self, 0, d) < room <= Offers(rt, time, self, 0, d + 1)
  {
    d := 0;
    while Offers(rt, time, self, 0, d + 1) < room
      invariant d < |rt| && Offers(rt, time, self, 0, d) < room
      decreases |rt| - d
    {
      d := d + 1;
    }
  }

  /** Every CPU before d gave its full offer, d some of it, and none after d anything. */
  ghost predicate LastDonor(rt: seq<int>, rt': seq<int>, time: seq<int>, self: nat, d: nat)
    requires |time| == |rt| == |rt'|
  {
    && d < |rt| && d != self && 0 < rt[d] - rt'[d] <= Offer(rt, time, self, d)
    && (forall k :: 0 <= k < d && k != self ==> rt[k] - rt'[k] == Offer(rt, time, self, k))
    && (forall k :: d < k < |rt| && k != self ==> rt'[k] == rt[k])
  }

  /**
   A borrower that ends below the period got the full offer of every CPU; one that ends at it was filled up by a last
   donor, those after which gave nothing.
   */
  lemma BalanceShares(rt: seq<int>, time: seq<int>, self: nat, period: int)
    requires |time| == |rt| && self < |rt| && rt[self] < period
    ensures var rt' := Balance(rt, time, self, period, 0, false).0;
            && |rt'| == |rt|
            && rt'[self] == Min(period, rt[self] + Offers(rt, time, self, 0, |rt|))
            && (rt'[self] < period ==>
                  forall k :: 0 <= k < |rt| && k != self ==> rt[k] - rt'[k] == Offer(rt, time, self, k))
            && (rt'[self] == period ==> exists d :: LastDonor(rt, rt', time, self, d))
  {
    var rt', room := Balance(rt, time, self, period, 0, false).0, period - rt[self];
    BalanceGives(rt, time, self, period, 0, false);
    hide Balance;
    if rt'[self] < period {
      forall k | 0 <= k < |rt| && k != self ensures rt[k] - rt'[k] == Offer(rt, time, self, k) {
        GiftIs(rt, time, self, period, k);
        OffersMono(rt, time, self, 0, k + 1, |rt|);
      }
    } else {
      var d := FindLast(rt, time, self, room);
      OffersSelf(rt, time, self, d);
      forall k | 0 <= k < |rt| && k != self
        ensures var x := rt[k] - rt'[k];
                if k < d then x == Offer(rt, time, self, k) else if k > d then x == 0
                else 0 < x <= Offer(rt, time, self, k)
      {
        GiftIs(rt, time, self, period, k);
        if k < d { OffersMono(rt, time, self, 0, k + 1, d); }
        if k > d { OffersMono(rt, time, self, 0, d + 1, k); }
      }
      assert LastDonor(rt, rt', time, self, d);
    }
  }

  /** What a CPU gives depends on how its offer and those before it compare to the room. */
  lemma GiftIs(rt: seq<int>, time: seq<int>, self: nat, period: int, k: nat)
    requires |time| == |rt| && self < |rt| && k < |rt|
    ensures var room, before, o := period - rt[self], Offers(rt, time, self, 0, k), Offer(rt, time, self, k);
            && Offers(rt, time, self, 0, k + 1) == before + o
            && Gift(rt, time, self, period, 0, k) ==
                 if before + o <= room then o else if before <= room then room - before else 0
  {
    OffersAppend(rt, time, self, 0, k);
  }

  /** The borrower is not the last donor. */
  lemma OffersSelf(rt: seq<int>, time: seq<int>, self: nat, d: nat)
    requires |time| == |rt| && d < |rt|
    requires Offers(rt, time, self, 0, d) < Offers(rt, time, self, 0, d + 1)
    ensures d != self
  {
    OffersAppend(rt, time, self, 0, d);
  }

  ghost predicate FirstSpare(rt: seq<int>, time: seq<int>, self: nat, i: nat, k: nat)
    requires |time| == |rt|
  {
    i <= k < |rt| && Spares(rt, time, self, k) && forall j :: i <= j < k ==> !Spares(rt, time, self, j)
  }

  /** A borrower above the period gives its excess to the first CPU that has something to spare. */
  lemma {:induction false} BalanceAbove(rt: seq<int>, time: seq<int>, self: nat, period: int, i: nat, more: bool,
      k: nat)
    requires |time| == |rt| && self < |rt| && i <= |rt| && rt[self] > period && FirstSpare(rt, time, self, i, k)
    ensures Balance(rt, time, self, period, i, more).0 == rt[k := rt[k] + (rt[self] - period)][self := period]
    decreases |rt| - i
  {
    if i < k {
      BalanceAbove(rt, time, self, period, i + 1, more, k);
    } else {
      DivAtMost(rt[k] - time[k], |rt|);
    }
  }

  /** If nobody has, nothing moves. */
  lemma {:induction false} BalanceNothing(rt: seq<int>, time: seq<int>, self: nat, period: int, i: nat, more: bool)
    requires |time| == |rt| && self < |rt| && i <= |rt|
    requires forall k :: i <= k < |rt| ==> !Spares(rt, time, self, k)
    ensures Balance(rt, time, self, period, i, more) == (rt, more)
    decreases |rt| - i
  {
    if i < |rt| {
      BalanceNothing(rt, time, self, period, i + 1, more);
    }
  }

  // ---- disabling ----

  /** The greedy reclaim loop of __disable_runtime from CPU i on, with what is still wanted. */
  function Reclaim(rt: seq<int>, self: nat, want: int, i: nat): (seq<int>, int)
    requires self < |rt| && i <= |rt|
    decreases |rt| - i
  {
    if i == |rt| then (rt, want)
    else if i == self || rt[i] == RUNTIME_INF then Reclaim(rt, self, want, i + 1)
    else
      var diff := if want > 0 then if rt[i] < want then rt[i] else want else want;
      var rt' := rt[i := rt[i] - diff];
      if want - diff == 0 then (rt', want - diff) else Reclaim(rt', self, want - diff, i + 1)
  }

  /** __disable_runtime for one group. */
  function Disable(rt: seq<int>, self: nat, groupRuntime: int): seq<int>
    requires self < |rt|
  {
    var rt1 := if rt[self] == RUNTIME_INF || rt[self] == groupRuntime then rt
               else Reclaim(rt, self, groupRuntime - rt[self], 0).0;
    if self < |rt1| then rt1[self := RUNTIME_INF] else rt1
  }

  /** What the others enabled from i on hold. */
  function OthersFrom(rt: seq<int>, self: nat, i: nat): int
    requires i <= |rt| && self < |rt|
  {
    SumFrom(rt, i) - if i <= self then Worth(rt[self]) else 0
  }

  ghost predicate OtherEnabledFrom(rt: seq<int>, self: nat, i: nat) {
    exists k :: i <= k < |rt| && k != self && rt[k] != RUNTIME_INF
  }

  /** Greedy reclaim settles the account to the last unit when the others hold enough or can take the surplus. */
  lemma {:induction false} ReclaimOk(rt: seq<int>, self: nat, want: int, i: nat)
    requires self < |rt| && i <= |rt| && NonNegative(rt) && rt[self] != RUNTIME_INF && want != 0
    requires want > 0 ==> want <= OthersFrom(rt, self, i)
    requires want < 0 ==> OtherEnabledFrom(rt, self, i) && OthersFrom(rt, self, 0) - want < RUNTIME_INF
    ensures var (rt', want') := Reclaim(rt, self, want, i);
            && want' == 0
            && |rt'| == |rt| && NonNegative(rt') && rt'[self] == rt[self]
            && SumFrom(rt', 0) == SumFrom(rt, 0) - want && CountFrom(rt', 0) == CountFrom(rt, 0)
            && (forall k :: 0 <= k < |rt| ==> (rt'[k] == RUNTIME_INF <==> rt[k] == RUNTIME_INF))
    decreases |rt| - i
  {
    if i < |rt| {
      if i == self || rt[i] == RUNTIME_INF {
        ReclaimOk(rt, self, want, i + 1);
      } else {
        var diff := if want > 0 then if rt[i] < want then rt[i] else want else want;
        PartOfOthers(rt, self, i, 0);
        SumUpdate(rt, i, rt[i] - diff, 0);
        CountUpdate(rt, i, rt[i] - diff, 0);
        if want != diff {
          SumUpdate(rt, i, rt[i] - diff, i + 1);
          ReclaimOk(rt[i := rt[i] - diff], self, want - diff, i + 1);
        }
      }
    }
  }

  /** What CPU k holds, if it can be asked to give it back. */
  function Stock(rt: seq<int>, self: nat, k: nat): int
    requires k < |rt|
  {
    if k == self then 0 else Worth(rt[k])
  }

  function Stocks(rt: seq<int>, self: nat, i: nat, j: nat): int
    requires j <= |rt|
    decreases j - i
  {
    if i >= j then 0 else Stock(rt, self, i) + Stocks(rt, self, i + 1, j)
  }

  lemma {:induction false} StocksFrame(rt: seq<int>, rt1: seq<int>, self: nat, i: nat, j: nat)
    requires |rt| == |rt1| && j <= |rt| && forall k :: i <= k < j ==> rt1[k] == rt[k]
    requires NonNegative(rt)
    ensures Stocks(rt1, self, i, j) == Stocks(rt, self, i, j) >= 0
    decreases j - i
  {
    if i < j {
      StocksFrame(rt, rt1, self, i + 1, j);
    }
  }

  /** What CPU k loses when want is asked for from i on. */
  function Loss(rt: seq<int>, self: nat, want: int, i: nat, k: nat): int
    requires k < |rt|
  {
    Min(want, Stocks(rt, self, i, k + 1)) - Min(want, Stocks(rt, self, i, k))
  }

  ghost predicate Loses(rt: seq<int>, rt': seq<int>, self: nat, want: int, i: nat)
    requires i <= |rt|
  {
    && |rt'| == |rt|
    && (forall k :: 0 <= k < i ==> rt'[k] == rt[k])
    && (forall k :: i <= k < |rt| ==> rt[k] - rt'[k] == Loss(rt, self, want, i, k))
  }

  lemma LosesStep(rt: seq<int>, rt': seq<int>, self: nat, want: nat, i: nat)
    requires i < |rt| && NonNegative(rt)
    requires var m := Min(want, Stock(rt, self, i)); Loses(rt[i := rt[i] - m], rt', self, want - m, i + 1)
    ensures Loses(rt, rt', self, want, i)
  {
    var o := Stock(rt, self, i);
    var m := Min(want, o);
    var rt1 := rt[i := rt[i] - m];
    hide Stock;
    assert Stocks(rt, self, i, i) == 0 && Stocks(rt1, self, i + 1, i + 1) == 0;
    forall j | i < j <= |rt|
      ensures Min(want, Stocks(rt, self, i, j)) == m + Min(want - m, Stocks(rt1, self, i + 1, j))
    {
      StocksFrame(rt, rt1, self, i + 1, j);
      MinStep(want, o, Stocks(rt, self, i + 1, j));
    }
  }

  lemma LosesNothing(rt: seq<int>, self: nat, i: nat)
    requires i <= |rt| && NonNegative(rt)
    ensures Loses(rt, rt, self, 0, i)
  {
    forall k | i <= k < |rt| ensures Loss(rt, self, 0, i, k) == 0 {
      StocksFrame(rt, rt, self, i, k);
      StocksFrame(rt, rt, self, i, k + 1);
    }
  }

  /**
   Greedy reclaim empties the CPUs in order: up to any CPU, what has been taken is all they held or all that was wanted,
   whichever is less.
   */
  lemma {:induction false} ReclaimTakes(rt: seq<int>, self: nat, want: nat, i: nat)
    requires self < |rt| && i <= |rt| && NonNegative(rt) && want > 0
    ensures Loses(rt, Reclaim(rt, self, want, i).0, self, want, i)
    decreases |rt| - i
  {
    hide Loses;
    if i == |rt| {
      assert Loses(rt, rt, self, want, i) by { LosesAtEnd(rt, self, want); }
    } else {
      var m := Min(want, Stock(rt, self, i));
      var rt1 := rt[i := rt[i] - m];
      if want == m {
        LosesNothing(rt1, self, i + 1);
      } else {
        ReclaimTakes(rt1, self, want - m, i + 1);
        assert m == 0 ==> rt1 == rt;
      }
      LosesStep(rt, Reclaim(rt, self, want, i).0, self, want, i);
    }
  }

  lemma LosesAtEnd(rt: seq<int>, self: nat, want: nat)
    ensures Loses(rt, rt, self, want, |rt|)
  {}

  ghost predicate FirstOther(rt: seq<int>, self: nat, i: nat, k: nat) {
    && i <= k < |rt| && k != self && rt[k] != RUNTIME_INF
    && forall j :: i <= j < k && j != self ==> rt[j] == RUNTIME_INF
  }

  /** A surplus goes to the first other enabled CPU. */
  lemma {:induction false} ReclaimGives(rt: seq<int>, self: nat, want: int, i: nat, k: nat)
    requires self < |rt| && i <= |rt| && want < 0 && FirstOther(rt, self, i, k)
    ensures Reclaim(rt, self, want, i).0 == rt[k := rt[k] - want]
    decreases |rt| - i
  {
    if i < k {
      ReclaimGives(rt, self, want, i + 1, k);
    }
  }

  /** A lone enabled CPU holds exactly the group runtime, so there is nothing to hand over. */
  lemma {:induction false} AloneSum(rt: seq<int>, self: nat, i: nat)
    requires i <= |rt| && self < |rt| && !OtherEnabledFrom(rt, self, i) && rt[self] != RUNTIME_INF
    ensures SumFrom(rt, i) == if i <= self then rt[self] else 0
    ensures CountFrom(rt, i) == if i <= self then 1 else 0
    decreases |rt| - i
  {
    if i < |rt| {
      AloneSum(rt, self, i + 1);
    }
  }

  /** The BUG_ON cannot fire, and the accounts of the CPUs left enabled balance. */
  lemma DisableConserves(rt: seq<int>, self: nat, groupRuntime: int)
    requires Conserved(rt, groupRuntime) && Fits(rt, groupRuntime) && self < |rt|
    ensures rt[self] != RUNTIME_INF && rt[self] != groupRuntime ==> Reclaim(rt, self, groupRuntime - rt[self], 0).1 == 0
    ensures |Disable(rt, self, groupRuntime)| == |rt| && Conserved(Disable(rt, self, groupRuntime), groupRuntime)
    ensures forall k :: 0 <= k < |rt| ==>
              (Disable(rt, self, groupRuntime)[k] == RUNTIME_INF <==> k == self || rt[k] == RUNTIME_INF)
  {
    if rt[self] == RUNTIME_INF {
      assert rt[self := RUNTIME_INF] == rt;
    } else {
      var rt1 := rt;
      if rt[self] != groupRuntime {
        EnoughElsewhere(rt, self, groupRuntime);
        ReclaimOk(rt, self, groupRuntime - rt[self], 0);
        rt1 := Reclaim(rt, self, groupRuntime - rt[self], 0).0;
      }
      MarkDisabled(rt1, self, CountFrom(rt, 0), groupRuntime);
    }
  }

  /** Taking a CPU that holds its own runtime out of the accounts. */
  lemma MarkDisabled(rt: seq<int>, self: nat, n: nat, groupRuntime: int)
    requires NonNegative(rt) && self < |rt| && rt[self] != RUNTIME_INF
    requires CountFrom(rt, 0) == n && SumFrom(rt, 0) == n * groupRuntime - (groupRuntime - rt[self])
    ensures Conserved(rt[self := RUNTIME_INF], groupRuntime)
  {
    hide SumFrom, CountFrom;
    SumUpdate(rt, self, RUNTIME_INF, 0);
    CountUpdate(rt, self, RUNTIME_INF, 0);
    OneLess(n, groupRuntime);
  }

  lemma OneLess(n: int, x: int)
    ensures (n - 1) * x == n * x - x
  {
  }

  lemma MulMono(n: int, m: int, x: int)
    requires n <= m && x >= 0
    ensures n * x <= m * x
  {
    assert (m - n) * x >= 0;
  }

  lemma EnoughElsewhere(rt: seq<int>, self: nat, groupRuntime: int)
    requires Conserved(rt, groupRuntime) && Fits(rt, groupRuntime) && self < |rt|
    requires rt[self] != RUNTIME_INF && rt[self] != groupRuntime
    ensures groupRuntime - rt[self] > 0 ==> groupRuntime - rt[self] <= OthersFrom(rt, self, 0)
    ensures groupRuntime - rt[self] < 0 ==>
              OtherEnabledFrom(rt, self, 0) && OthersFrom(rt, self, 0) - (groupRuntime - rt[self]) < RUNTIME_INF
  {
    var n := CountFrom(rt, 0);
    EnabledCounts(rt, self, 0);
    SumNonNegative(rt, 0);
    if !OtherEnabledFrom(rt, self, 0) {
      AloneSum(rt, self, 0);
    }
    hide SumFrom, CountFrom;
    OneLess(n, groupRuntime);
    MulMono(0, n - 1, groupRuntime);
    MulMono(n - 1, |rt|, groupRuntime);
  }

  lemma {:induction false} EnabledCounts(rt: seq<int>, k: nat, i: nat)
    requires i <= k < |rt| && rt[k] != RUNTIME_INF
    ensures CountFrom(rt, i) >= 1
    decreases k - i
  {
    if i < k {
      EnabledCounts(rt, k, i + 1);
    }
  }

  lemma {:induction false} PartOfOthers(rt: seq<int>, self: nat, k: nat, i: nat)
    requires NonNegative(rt) && self < |rt| && i <= k < |rt| && k != self
    ensures Worth(rt[k]) <= OthersFrom(rt, self, i)
    decreases |rt| - i
  {
    if i < k {
      PartOfOthers(rt, self, k, i + 1);
    } else {
      OthersNonNegative(rt, self, i + 1);
    }
  }

  lemma {:induction false} OthersNonNegative(rt: seq<int>, self: nat, i: nat)
    requires NonNegative(rt) && self < |rt| && i <= |rt|
    ensures OthersFrom(rt, self, i) >= 0
    decreases |rt| - i
  {
    if i < |rt| {
      OthersNonNegative(rt, self, i + 1);
    }
  }

  // ---- enabling ----

  /** __enable_runtime for one group: the CPU gets the group's runtime anew. */
  function Enable(rt: seq<int>, self: nat, groupRuntime: int): seq<int>
    requires self < |rt|
  {
    rt[self := groupRuntime]
  }

  /**
   Enabling keeps the accounts exactly when the CPU was disabled or already held its own runtime: enabling one that has
   lent or borrowed creates or destroys runtime.
   */
  lemma EnableConservesIff(rt: seq<int>, self: nat, groupRuntime: int)
    requires Conserved(rt, groupRuntime) && 0 <= groupRuntime < RUNTIME_INF && self < |rt|
    ensures Conserved(Enable(rt, self, groupRuntime), groupRuntime) <==>
            rt[self] == RUNTIME_INF || rt[self] == groupRuntime
  {
    var n := CountFrom(rt, 0);
    SumUpdate(rt, self, groupRuntime, 0);
    CountUpdate(rt, self, groupRuntime, 0);
    assert (n + 1) * groupRuntime == n * groupRuntime + groupRuntime;
  }

  /** A balanced pair of CPUs, one of which has lent to the other: enabling the lender makes up what it lent. */
  lemma EnableBreaks()
    ensures Conserved([5, 15], 10) && !Conserved(Enable([5, 15], 0, 10), 10)
  {
    SumOfTwo(5, 15);
    SumOfTwo(10, 15);
    assert Enable([5, 15], 0, 10) == [10, 15];
  }

  lemma SumOfTwo(x: int, y: int)
    requires x != RUNTIME_INF && y != RUNTIME_INF
    ensures SumFrom([x, y], 0) == x + y && CountFrom([x, y], 0) == 2
  {
    assert SumFrom([x, y], 1) == y + SumFrom([x, y], 2);
    assert CountFrom([x, y], 1) == 1 + CountFrom([x, y], 2);
  }

  // ---- runs ----

  datatype State = State(runtime: seq<int>, time: seq<int>)

  /**
   Time accrues or is replenished; a CPU borrows when it has used more than it holds; CPUs go down, and come up from
   being disabled or with their own runtime.
   */
  datatype Step =
    | SetTime(cpu: nat, t: nat)
    | Borrow(cpu: nat)
    | Down(cpu: nat)
    | Up(cpu: nat)

  datatype Group = Group(runtime: nat, period: nat)

  predicate Enabled(g: Group, s: State, step: Step) {
    && step.cpu < |s.runtime| == |s.time|
    && match step
       case SetTime(_, _) => true
       case Borrow(c) => s.runtime[c] != RUNTIME_INF && s.time[c] > s.runtime[c]
       case Down(_) => true
       case Up(c) => s.runtime[c] == RUNTIME_INF || s.runtime[c] == g.runtime
  }

  function Next(g: Group, s: State, step: Step): State
    requires Enabled(g, s, step)
  {
    match step
    case SetTime(c, t) => s.(time := s.time[c := t])
    case Borrow(c) => s.(runtime := Balance(s.runtime, s.time, c, g.period, 0, false).0)
    case Down(c) => s.(runtime := Disable(s.runtime, c, g.runtime))
    case Up(c) => State(Enable(s.runtime, c, g.runtime), s.time[c := 0])
  }

  ghost predicate Inv(g: Group, s: State) {
    && |s.runtime| == |s.time| && (forall k :: 0 <= k < |s.time| ==> s.time[k] >= 0)
    && Fits(s.runtime, g.runtime) && g.runtime < RUNTIME_INF && g.period < RUNTIME_INF
    && Conserved(s.runtime, g.runtime)
  }

  /** A borrower may start above the period, when others that went down left it their debt; it then takes no more. */
  lemma {:induction false} BalanceConserves(rt: seq<int>, time: seq<int>, self: nat, period: int, i: nat, more: bool)
    requires |time| == |rt| && self < |rt| && i <= |rt| && NonNegative(rt) && SumFrom(rt, 0) < RUNTIME_INF
    requires forall k :: 0 <= k < |time| ==> time[k] >= 0
    requires rt[self] != RUNTIME_INF && 0 <= period < RUNTIME_INF
    ensures var rt' := Balance(rt, time, self, period, i, more).0;
            && |rt'| == |rt| && NonNegative(rt')
            && SumFrom(rt', 0) == SumFrom(rt, 0) && CountFrom(rt', 0) == CountFrom(rt, 0)
    decreases |rt| - i
  {
    if rt[self] <= period {
      BalanceOk(rt, time, self, period, i, more);
    } else if i < |rt| {
      if Spares(rt, time, self, i) {
        var diff := Diff(rt, time, self, period, i);
        DivAtMost(rt[i] - time[i], |rt|);
        assert diff == period - rt[self];
        PartOfOthers(rt, self, i, 0);
        TakeConserves(rt, self, i, diff);
      } else {
        BalanceConserves(rt, time, self, period, i + 1, more);
      }
    }
  }

  lemma BorrowGives(g: Group, s: State, c: nat)
    requires Enabled(g, s, Borrow(c))
    ensures s.runtime[c] <= g.period ==>
              Gives(s.runtime, Balance(s.runtime, s.time, c, g.period, 0, false).0, s.time, c, g.period, 0)
  {
    if s.runtime[c] <= g.period {
      BalanceGives(s.runtime, s.time, c, g.period, 0, false);
    }
  }

  /** Every step keeps the accounts balanced and does what it is for. */
  lemma NextInv(g: Group, s: State, step: Step)
    requires Inv(g, s) && Enabled(g, s, step)
    ensures Inv(g, Next(g, s, step)) && |Next(g, s, step).runtime| == |s.runtime|
    ensures var s' := Next(g, s, step);
            match step
            case SetTime(c, t) => s' == s.(time := s.time[c := t])
            case Borrow(c) =>
              s'.time == s.time &&
              (s.runtime[c] <= g.period ==> Gives(s.runtime, s'.runtime, s.time, c, g.period, 0))
            case Down(c) =>
              s'.time == s.time &&
              forall k :: 0 <= k < |s.runtime| ==>
                (s'.runtime[k] == RUNTIME_INF <==> k == c || s.runtime[k] == RUNTIME_INF)
            case Up(c) => s' == State(s.runtime[c := g.runtime], s.time[c := 0])
  {
    match step { case Borrow(c) => BorrowGives(g, s, c); case _ => }
    hide Gives;
    TotalBound(s.runtime, g.runtime);
    match step
    case SetTime(_, _) =>
    case Borrow(c) => BalanceConserves(s.runtime, s.time, c, g.period, 0, false);
    case Down(c) => DisableConserves(s.runtime, c, g.runtime);
    case Up(c) => EnableConservesIff(s.runtime, c, g.runtime);
  }

  ghost predicate Run(g: Group, s: State, steps: seq<Step>, s': State)
    decreases |steps|
  {
    if steps == [] then s' == s else Enabled(g, s, steps[0]) && Run(g, Next(g, s, steps[0]), steps[1..], s')
  }

  /** Over every run of borrowing, disabling and enabling, the enabled CPUs hold one group runtime each between them. */
  lemma {:induction false} RuntimeConserved(g: Group, s: State, steps: seq<Step>, s': State)
    requires Inv(g, s) && Run(g, s, steps, s')
    ensures Inv(g, s') && SumFrom(s'.runtime, 0) == CountFrom(s'.runtime, 0) * g.runtime
    decreases |steps|
  {
    if steps != [] {
      NextInv(g, s, steps[0]);
      RuntimeConserved(g, Next(g, s, steps[0]), steps[1..], s');
    }
  }

  /** The run queues of one task group on the CPUs of its root domain. */
  class GroupRuntime {
    const group: Group
    const runtime: array<int>
    const time: array<int>

    ghost predicate Valid()
      reads runtime, time
    {
      && runtime != time && runtime.Length == time.Length
      && Inv(group, Value())
    }

    ghost function Value(): State
      reads runtime, time
    {
      State(runtime[..], time[..])
    }

    /** do_balance_runtime */
    method DoBalanceRuntime(self: nat) returns (more: bool)
      requires Valid() && Enabled(group, Value(), Borrow(self))
      modifies runtime
      ensures Valid() && Value() == Next(group, old(Value()), Borrow(self))
      ensures more == Balance(old(runtime[..]), time[..], self, group.period, 0, false).1
    {
      ghost var rt0 := runtime[..];
      NextInv(group, Value(), Borrow(self));
      var weight := runtime.Length;
      var i := 0;
      more := false;
      while i < runtime.Length
        invariant 0 <= i <= runtime.Length
        invariant Balance(runtime[..], time[..], self, group.period, i, more) ==
                  Balance(rt0, time[..], self, group.period, 0, false)
      {
        if i != self && runtime[i] != RUNTIME_INF {
          var diff := runtime[i] - time[i];
          if diff > 0 {
            diff := diff / weight;
            if runtime[self] + diff > group.period {
              diff := group.period - runtime[self];
            }
            ghost var now := runtime[..];
            runtime[i] := runtime[i] - diff;
            runtime[self] := runtime[self] + diff;
            assert runtime[..] == Take(now, self, i, diff);
            more := true;
            if runtime[self] == group.period {
              break;
            }
          }
        }
        i := i + 1;
      }
    }

    /** The reclaim loop of __disable_runtime. */
    method GreedyReclaim(self: nat, wanted: int) returns (want: int)
      requires self < runtime.Length
      modifies runtime
      ensures (runtime[..], want) == Reclaim(old(runtime[..]), self, wanted, 0)
    {
      ghost var rt0 := runtime[..];
      want := wanted;
      var i := 0;
      while i < runtime.Length
        invariant 0 <= i <= runtime.Length
        invariant Reclaim(runtime[..], self, want, i) == Reclaim(rt0, self, wanted, 0)
      {
        if i != self && runtime[i] != RUNTIME_INF {
          ghost var now := runtime[..];
          var diff := want;
          if want > 0 {
            diff := if runtime[i] < want then runtime[i] else want;
          }
          runtime[i] := runtime[i] - diff;
          want := want - diff;
          assert runtime[..] == now[i := now[i] - diff];
          if want == 0 {
            break;
          }
        }
        i := i + 1;
      }
    }

    /** __disable_runtime; the assertion is its BUG_ON. */
    method DisableRuntime(self: nat)
      requires Valid() && self < runtime.Length
      modifies runtime
      ensures Valid() && Value() == Next(group, old(Value()), Down(self))
    {
      ghost var rt0 := runtime[..];
      NextInv(group, Value(), Down(self));
      DisableConserves(rt0, self, group.runtime);
      if runtime[self] != RUNTIME_INF && runtime[self] != group.runtime {
        var want := group.runtime - runtime[self];
        want := GreedyReclaim(self, want);
        assert want == 0;
      }
      ghost var rt1 := runtime[..];
      runtime[self] := RUNTIME_INF;
      assert runtime[..] == rt1[self := RUNTIME_INF];
    }

    /** __enable_runtime: the accounts stay balanced exactly when the CPU was disabled or held its own runtime. */
    method EnableRuntime(self: nat)
      requires Valid() && self < runtime.Length
      modifies runtime, time
      ensures runtime[..] == Enable(old(runtime[..]), self, group.runtime) && time[..] == old(time[..])[self := 0]
      ensures Valid() <==> Enabled(group, old(Value()), Up(self))
    {
      EnableConservesIff(runtime[..], self, group.runtime);
      ghost var rt0, time0 := runtime[..], time[..];
      runtime[self] := group.runtime;
      time[self] := 0;
      assert runtime[..] == Enable(rt0, self, group.runtime);
      assert time[..] == time0[self := 0];
    }
  }
}
