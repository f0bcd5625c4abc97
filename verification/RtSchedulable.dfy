/**
 The admission check on real-time bandwidth: a setting is accepted only if the whole
 tree of groups would be schedulable with it.
 */
module RtSchedulable {
  import opened Common
  import opened TreeWalk

  const U64: nat := 0x1_0000_0000_0000_0000
  const UNIT: nat := 0x10_0000
  const EBUSY := 16
  const EINVAL := 22

  /** The kernel never stores a zero period: sched_group_set_rt_period refuses it. */
  type Period = p: int | 0 < p < U64 witness 1

  datatype Bandwidth = Bandwidth(period: Period, runtime: nat)

  /** to_ratio, with the shift done in 64 bits and the result narrowed to an unsigned long of 32 bits. */
  function ToRatio(b: Bandwidth): nat
  {
    if b.runtime == RUNTIME_INF then UNIT else (b.runtime * UNIT % U64) / b.period % WORD
  }

  /** What the check asks of one setting by itself. */
  predicate Sane(b: Bandwidth) { b.runtime <= b.period || b.runtime == RUNTIME_INF }

  /** A runtime within its period is worth at most the whole. */
  lemma RatioBound(b: Bandwidth)
    requires Sane(b)
    ensures ToRatio(b) <= UNIT
  {
    if b.runtime != RUNTIME_INF {
      var x := b.runtime * UNIT;
      ModLe(x, U64);
      DivLe(x % U64, b.period, UNIT);
      ModLe((x % U64) / b.period, WORD);
    }
  }

  lemma ModLe(x: nat, m: nat)
    requires m > 0
    ensures 0 <= x % m <= x
  {
    if x < m {
      assert x / m == 0;
    }
  }

  lemma DivLe(x: nat, p: nat, k: nat)
    requires p > 0 && x <= p * k
    ensures 0 <= x / p <= k
  {
    assert p * (x / p) <= x;
    CancelLe(p, x / p, k);
  }

  lemma CancelLe(p: nat, a: nat, b: nat)
    requires p > 0 && p * a <= p * b
    ensures a <= b
  {
    assert p * (b - a) >= 0;
  }

  /** Runtimes from here on, some five hours of nanoseconds, lose their top bits in the shift. */
  const LONG: nat := 0x1000_0000_0000

  predicate Short(b: Bandwidth) { b.runtime < LONG || b.runtime == RUNTIME_INF }

  /** The ratio never exceeds the exact one, and is within one unit of it exactly if the runtime survives the shift. */
  lemma RatioExact(b: Bandwidth)
    requires Sane(b) && b.runtime != RUNTIME_INF
    ensures ToRatio(b) * b.period <= b.runtime * UNIT
    ensures b.runtime * UNIT < (ToRatio(b) + 1) * b.period <==> b.runtime < LONG
  {
    var x, p := b.runtime * UNIT, b.period as nat;
    var y := x % U64;
    ModLe(x, U64);
    DivLe(y, p, UNIT);
    assert ToRatio(b) == y / p;
    QuotientBounds(y, p);
    if x >= U64 {
      ModDrops(x);
    }
  }

  lemma QuotientBounds(y: nat, p: nat)
    requires p > 0
    ensures y / p * p <= y < (y / p + 1) * p == y / p * p + p
  {}

  lemma ModDrops(x: nat)
    requires x >= U64
    ensures x % U64 + U64 <= x
  {}

  /** Five hours out of five hours are the whole processor, and count for nothing. */
  lemma LongRuntimeIsFree()
    ensures var b := Bandwidth(LONG, LONG); Sane(b) && !Short(b) && ToRatio(b) == 0
  {}

  /** The part of the processor that a setting stands for. */
  ghost function Fraction(b: Bandwidth): real {
    if b.runtime == RUNTIME_INF then 1.0 else b.runtime as real / b.period as real
  }

  /** The resolution of the check. */
  const GRAIN: real := 1.0 / 1048576.0

  lemma FractionBounds(b: Bandwidth)
    requires Sane(b)
    ensures ToRatio(b) as real * GRAIN <= Fraction(b)
    ensures Short(b) ==> Fraction(b) <= (ToRatio(b) + 1) as real * GRAIN
  {
    if b.runtime != RUNTIME_INF {
      RatioExact(b);
      hide ToRatio;
      InReals(ToRatio(b), b.period, b.runtime);
    }
  }

  lemma InReals(r: nat, p: nat, x: nat)
    requires p > 0
    ensures r * p <= x * UNIT ==> r as real * GRAIN <= x as real / p as real
    ensures x * UNIT < (r + 1) * p ==> x as real / p as real <= (r + 1) as real * GRAIN
  {
    var f := x as real / p as real;
    Quotient(x as real, p as real);
    CastProduct(r, p);
    CastProduct(r + 1, p);
    GrainOut(r as real, p as real);
    GrainOut((r + 1) as real, p as real);
    assert (x * UNIT) as real * GRAIN == x as real;
    if r * p <= x * UNIT {
      assert (r * p) as real * GRAIN <= x as real;
      Cancel(r as real * GRAIN, f, p as real);
    }
    if x * UNIT < (r + 1) * p {
      assert x as real <= ((r + 1) * p) as real * GRAIN;
      Cancel(f, (r + 1) as real * GRAIN, p as real);
    }
  }

  lemma Quotient(x: real, p: real)
    requires p > 0.0
    ensures x / p * p == x
  {}

  lemma CastProduct(r: nat, p: nat)
    ensures (r * p) as real == r as real * p as real
  {}

  lemma GrainOut(a: real, p: real)
    ensures a * GRAIN * p == a * p * GRAIN
  {}

  lemma Cancel(a: real, b: real, p: real)
    requires p > 0.0 && a * p <= b * p
    ensures a <= b
  {}

  /** The setting under test replaces the stored one for its own group. */
  datatype Proposal = NoProposal | Proposal(tg: Group, b: Bandwidth)

  function Effective(bw: map<Group, Bandwidth>, d: Proposal, g: Group): Bandwidth {
    if d.Proposal? && d.tg == g then d.b
    else if g in bw then bw[g] else Bandwidth(1, 0)
  }

  /** rt_bandwidth_enabled, the global setting, and the groups that hold real-time tasks. */
  datatype Rules = Rules(enabled: bool, global: Bandwidth, busy: set<Group>)

  function SumKids(t: Tree, bw: map<Group, Bandwidth>, d: Proposal, g: Group, i: nat): nat
    requires i <= |t.Kids(g)|
    decreases |t.Kids(g)| - i
  {
    if i == |t.Kids(g)| then 0 else ToRatio(Effective(bw, d, t.Kids(g)[i])) + SumKids(t, bw, d, g, i + 1)
  }

  /** tg_rt_schedulable: the errors in the order in which they are looked for. */
  function Check(t: Tree, r: Rules, bw: map<Group, Bandwidth>, d: Proposal, g: Group): int
  {
    var b := Effective(bw, d, g);
    if b.runtime > b.period && b.runtime != RUNTIME_INF then -EINVAL
    else if r.enabled && b.runtime == 0 && g in r.busy then -EBUSY
    else if ToRatio(b) > ToRatio(r.global) then -EINVAL
    else if SumKids(t, bw, d, g, 0) % WORD > ToRatio(b) then -EINVAL
    else 0
  }

  /** tg_rt_schedulable as the loop it is, with the running sum kept in 32 bits. */
  method TgRtSchedulable(t: Tree, r: Rules, bw: map<Group, Bandwidth>, d: Proposal, g: Group) returns (ret: int)
    ensures ret == Check(t, r, bw, d, g)
  {
    var b := Effective(bw, d, g);
    if b.runtime > b.period && b.runtime != RUNTIME_INF {
      return -EINVAL;
    }
    if r.enabled && b.runtime == 0 && g in r.busy {
      return -EBUSY;
    }
    var total := ToRatio(b);
    if total > ToRatio(r.global) {
      return -EINVAL;
    }
    var sum := SumChildren(t, bw, d, g);
    if sum > total {
      return -EINVAL;
    }
    return 0;
  }

  /** The loop of tg_rt_schedulable. */
  method SumChildren(t: Tree, bw: map<Group, Bandwidth>, d: Proposal, g: Group) returns (sum: nat)
    ensures sum == SumKids(t, bw, d, g, 0) % WORD
  {
    hide ToRatio, Effective;
    var i := 0;
    sum := 0;
    while i < |t.Kids(g)|
      invariant 0 <= i <= |t.Kids(g)| && 0 <= sum < WORD
      invariant (sum + SumKids(t, bw, d, g, i)) % WORD == SumKids(t, bw, d, g, 0) % WORD
    {
      var share := ToRatio(Effective(bw, d, t.Kids(g)[i]));
      ModStep(sum + share, SumKids(t, bw, d, g, i + 1));
      sum := (sum + share) % WORD;
      i := i + 1;
    }
  }

  lemma ModStep(x: nat, y: nat)
    ensures (x % WORD + y) % WORD == (x + y) % WORD
  {
    assert x == WORD * (x / WORD) + x % WORD;
  }

  /** The visitors of __rt_schedulable. */
  function Checks(t: Tree, r: Rules, bw: map<Group, Bandwidth>, d: Proposal): Visitors<()>
  {
    Visitors((g: Group, u: ()) => ((), Check(t, r, bw, d, g)), (g: Group, u: ()) => ((), 0))
  }

  /** A setting of all groups that passes the check everywhere. */
  ghost predicate Schedulable(t: Tree, r: Rules, bw: map<Group, Bandwidth>, root: Group) {
    forall g :: InSubtree(t, root, g) ==> Check(t, r, bw, NoProposal, g) == 0
  }

  lemma {:induction false} PerformZero(v: Visitors<()>, es: seq<Event>)
    ensures Perform(v, es, ()).1 == 0 <==> forall e :: e in es ==> v.Visit(e, ()).1 == 0
  {
    if es != [] {
      assert es == [es[0]] + es[1..];
      assert v.Visit(es[0], ()).0 == ();
      PerformZero(v, es[1..]);
    }
  }

  /** Checking with the proposed values is checking the tree that would result. */
  lemma SubstitutionIsUpdate(t: Tree, r: Rules, bw: map<Group, Bandwidth>, tg: Group, b: Bandwidth, g: Group)
    ensures Check(t, r, bw, Proposal(tg, b), g) == Check(t, r, bw[tg := b], NoProposal, g)
  {
    SumSubstitution(t, bw, tg, b, g, 0);
  }

  lemma {:induction false} SumSubstitution(t: Tree, bw: map<Group, Bandwidth>, tg: Group, b: Bandwidth, g: Group,
      i: nat)
    requires i <= |t.Kids(g)|
    ensures SumKids(t, bw, Proposal(tg, b), g, i) == SumKids(t, bw[tg := b], NoProposal, g, i)
    decreases |t.Kids(g)| - i
  {
    if i < |t.Kids(g)| {
      SumSubstitution(t, bw, tg, b, g, i + 1);
    }
  }

  /** The walk succeeds exactly when the check passes at every group of the tree. */
  lemma WalkAccepts(t: Tree, r: Rules, bw: map<Group, Bandwidth>, d: Proposal, root: Group)
    requires WellFormed(t)
    ensures Walk(t, root, Checks(t, r, bw, d), ()).1 == 0 <==>
            forall g :: InSubtree(t, root, g) ==> Check(t, r, bw, d, g) == 0
  {
    var v := Checks(t, r, bw, d);
    WalkPerforms(t, root, v, ());
    PerformZero(v, Events(t, root));
    hide Events, Check, InSubtree, Perform;
    forall g
      ensures Down(g) in Events(t, root) <==> InSubtree(t, root, g)
      ensures v.Visit(Down(g), ()).1 == Check(t, r, bw, d, g)
    {
      VisitsSubtree(t, root, g);
    }
  }

  /** A proposal is accepted exactly when the tree would be schedulable with it. */
  lemma AcceptedIffSchedulable(t: Tree, r: Rules, bw: map<Group, Bandwidth>, root: Group, tg: Group, b: Bandwidth)
    requires WellFormed(t)
    ensures Walk(t, root, Checks(t, r, bw, Proposal(tg, b)), ()).1 == 0 <==> Schedulable(t, r, bw[tg := b], root)
  {
    WalkAccepts(t, r, bw, Proposal(tg, b), root);
    hide Check, InSubtree;
    forall g
      ensures Check(t, r, bw, Proposal(tg, b), g) == Check(t, r, bw[tg := b], NoProposal, g)
    {
      SubstitutionIsUpdate(t, r, bw, tg, b, g);
    }
  }

  // ---- what acceptance guarantees ----

  function Share(bw: map<Group, Bandwidth>, g: Group): nat
  {
    ToRatio(Effective(bw, NoProposal, g))
  }

  function ShareSum(bw: map<Group, Bandwidth>, a: seq<Group>): nat
  {
    if a == [] then 0 else Share(bw, a[0]) + ShareSum(bw, a[1..])
  }

  /** The shares of a group's children add up to at most its own, with no limit on the sum. */
  ghost predicate Holds(t: Tree, bw: map<Group, Bandwidth>, g: Group) {
    SumKids(t, bw, NoProposal, g, 0) <= Share(bw, g)
  }

  ghost predicate AllHold(t: Tree, bw: map<Group, Bandwidth>, g: Group) {
    forall h :: InSubtree(t, g, h) ==> Holds(t, bw, h)
  }

  /** No sum that the check forms below g is cut to 32 bits. */
  ghost predicate NoWrap(t: Tree, bw: map<Group, Bandwidth>, g: Group) {
    forall h :: InSubtree(t, g, h) ==> SumKids(t, bw, NoProposal, h, 0) < WORD
  }

  lemma KidInSubtree(t: Tree, root: Group, g: Group, i: nat)
    requires WellFormed(t) && InSubtree(t, root, g) && i < |t.Kids(g)|
    ensures InSubtree(t, root, t.Kids(g)[i])
  {
    var c := t.Kids(g)[i];
    var n: nat :| Below(t, root, g, n);
    assert t.parent[c] == g;
    assert Below(t, root, c, n + 1);
  }

  ghost function Those(t: Tree, c: Group, a: seq<Group>, below: bool): (r: seq<Group>)
    ensures forall x :: x in r ==> x in a && (InSubtree(t, c, x) == below)
    ensures forall x :: x in a && InSubtree(t, c, x) == below ==> x in r
    ensures |r| <= |a|
  {
    if a == [] then []
    else if InSubtree(t, c, a[0]) == below then [a[0]] + Those(t, c, a[1..], below)
    else Those(t, c, a[1..], below)
  }

  lemma {:induction false} SplitSum(t: Tree, c: Group, bw: map<Group, Bandwidth>, a: seq<Group>)
    ensures ShareSum(bw, a) == ShareSum(bw, Those(t, c, a, true)) + ShareSum(bw, Those(t, c, a, false))
  {
    hide InSubtree, Share;
    if a != [] {
      SplitSum(t, c, bw, a[1..]);
      var rest := Those(t, c, a[1..], InSubtree(t, c, a[0]));
      assert ([a[0]] + rest)[1..] == rest;
    }
  }

  /** Pairwise incomparable and without repetition; kept by dropping elements. */
  ghost predicate Incomparable(t: Tree, a: seq<Group>) {
    forall i, j :: 0 <= i < |a| && 0 <= j < |a| && i != j ==> !InSubtree(t, a[i], a[j])
  }

  lemma {:induction false} ThoseIncomparable(t: Tree, c: Group, a: seq<Group>, below: bool)
    requires Incomparable(t, a)
    ensures Incomparable(t, Those(t, c, a, below))
  {
    hide InSubtree;
    if a != [] {
      var rest := Those(t, c, a[1..], below);
      assert forall i, j :: 0 <= i < |a[1..]| && 0 <= j < |a[1..]| && i != j ==>
             a[1..][i] == a[i + 1] && a[1..][j] == a[j + 1];
      ThoseIncomparable(t, c, a[1..], below);
      if InSubtree(t, c, a[0]) == below {
        forall k | 0 <= k < |rest|
          ensures !InSubtree(t, a[0], rest[k]) && !InSubtree(t, rest[k], a[0])
        {
          assert rest[k] in a[1..];
          var m :| 0 <= m < |a[1..]| && a[1..][m] == rest[k];
          assert a[m + 1] == rest[k];
        }
      }
    }
  }

  lemma {:induction false} BelowSomeKid(t: Tree, g: Group, x: Group, n: nat)
    requires WellFormed(t) && Below(t, g, x, n) && x != g
    ensures exists k :: 0 <= k < |t.Kids(g)| && InSubtree(t, t.Kids(g)[k], x)
    decreases n
  {
    var p := t.parent[x];
    if p == g {
      var k := IndexOf(t.Kids(g), x);
      assert Below(t, t.Kids(g)[k], x, 0);
    } else {
      BelowSomeKid(t, g, p, n - 1);
      var k :| 0 <= k < |t.Kids(g)| && InSubtree(t, t.Kids(g)[k], p);
      var m: nat :| Below(t, t.Kids(g)[k], p, m);
      assert Below(t, t.Kids(g)[k], x, m + 1);
    }
  }

  /** Groups of the subtree of g none of which is above another. */
  ghost predicate Antichain(t: Tree, g: Group, a: seq<Group>) {
    Incomparable(t, a) && forall x :: x in a ==> InSubtree(t, g, x)
  }

  lemma KidHolds(t: Tree, bw: map<Group, Bandwidth>, g: Group, i: nat)
    requires WellFormed(t) && AllHold(t, bw, g) && i < |t.Kids(g)|
    ensures AllHold(t, bw, t.Kids(g)[i])
  {
    var c := t.Kids(g)[i];
    forall h | InSubtree(t, c, h) ensures InSubtree(t, g, h) {
      SubtreeTrans(t, g, i, h);
    }
  }

  lemma SubtreeTrans(t: Tree, g: Group, i: nat, h: Group)
    requires WellFormed(t) && i < |t.Kids(g)| && InSubtree(t, t.Kids(g)[i], h)
    ensures InSubtree(t, g, h)
  {
    var c := t.Kids(g)[i];
    var n: nat :| Below(t, c, h, n);
    assert t.parent[c] == g;
    assert Below(t, g, c, 1);
    BelowTrans(t, g, c, h, 1, n);
  }

  /** Where every group holds its children, every group holds any antichain below it. */
  lemma {:induction false} AntichainFits(t: Tree, bw: map<Group, Bandwidth>, g: Group, a: seq<Group>)
    requires WellFormed(t) && AllHold(t, bw, g) && Antichain(t, g, a)
    ensures ShareSum(bw, a) <= Share(bw, g)
    decreases t.Rank(g), 1, 0
  {
    assert InSubtree(t, g, g) by {
      assert Below(t, g, g, 0);
    }
    assert Holds(t, bw, g);
    hide InSubtree, Share, SumKids, ToRatio, AllHold;
    if g in a {
      OnlyTop(t, g, a);
      assert a[1..] == [];
    } else {
      forall x | x in a
        ensures exists k :: 0 <= k < |t.Kids(g)| && InSubtree(t, t.Kids(g)[k], x)
      {
        StrictlyBelow(t, g, x);
      }
      KidsFit(t, bw, g, 0, a);
    }
  }

  lemma OneOrMore(a: seq<Group>, i: nat)
    requires i < |a|
    ensures a == [a[i]] || exists j :: 0 <= j < |a| && j != i && a[j] in a
  {
    if |a| > 1 {
      var j := if i == 0 then 1 else 0;
      assert a[j] in a;
    }
  }

  lemma OnlyTop(t: Tree, g: Group, a: seq<Group>)
    requires Incomparable(t, a) && g in a && forall x :: x in a ==> InSubtree(t, g, x)
    ensures a == [g]
  {
    hide InSubtree;
    var i :| 0 <= i < |a| && a[i] == g;
    OneOrMore(a, i);
  }

  lemma NoneOrMore(a: seq<Group>)
    ensures a == [] || exists x :: x in a
  {
    if a != [] {
      assert a[0] in a;
    }
  }

  lemma StrictlyBelow(t: Tree, g: Group, x: Group)
    requires WellFormed(t) && InSubtree(t, g, x) && x != g
    ensures exists k :: 0 <= k < |t.Kids(g)| && InSubtree(t, t.Kids(g)[k], x)
  {
    var n: nat :| Below(t, g, x, n);
    BelowSomeKid(t, g, x, n);
  }

  lemma {:induction false} KidsFit(t: Tree, bw: map<Group, Bandwidth>, g: Group, i: nat, a: seq<Group>)
    requires WellFormed(t) && AllHold(t, bw, g) && i <= |t.Kids(g)| && Incomparable(t, a)
    requires forall x :: x in a ==> exists k :: i <= k < |t.Kids(g)| && InSubtree(t, t.Kids(g)[k], x)
    ensures ShareSum(bw, a) <= SumKids(t, bw, NoProposal, g, i)
    decreases t.Rank(g), 0, |t.Kids(g)| - i
  {
    hide InSubtree, AllHold;
    if i == |t.Kids(g)| {
      NoneOrMore(a);
    } else {
      var c := t.Kids(g)[i];
      KidHolds(t, bw, g, i);
      var here, rest := Those(t, c, a, true), Those(t, c, a, false);
      ThoseIncomparable(t, c, a, true);
      ThoseIncomparable(t, c, a, false);
      SplitSum(t, c, bw, a);
      AntichainFits(t, bw, c, here);
      forall x | x in rest
        ensures exists k :: i + 1 <= k < |t.Kids(g)| && InSubtree(t, t.Kids(g)[k], x)
      {
        var k :| i <= k < |t.Kids(g)| && InSubtree(t, t.Kids(g)[k], x);
      }
      KidsFit(t, bw, g, i + 1, rest);
    }
  }

  lemma {:induction false} KidsSum(t: Tree, bw: map<Group, Bandwidth>, g: Group, i: nat)
    requires i <= |t.Kids(g)|
    ensures SumKids(t, bw, NoProposal, g, i) == ShareSum(bw, t.Kids(g)[i..])
    decreases |t.Kids(g)| - i
  {
    if i < |t.Kids(g)| {
      KidsSum(t, bw, g, i + 1);
      assert t.Kids(g)[i..][1..] == t.Kids(g)[i + 1..];
    }
  }

  /** The children of one group are an antichain. */
  lemma KidsApart(t: Tree, g: Group, h: Group)
    requires WellFormed(t) && InSubtree(t, g, h)
    ensures Antichain(t, g, t.Kids(h))
  {
    forall i, j | 0 <= i < |t.Kids(h)| && 0 <= j < |t.Kids(h)| && i != j
      ensures !InSubtree(t, t.Kids(h)[i], t.Kids(h)[j])
    {
      assert Below(t, t.Kids(h)[j], t.Kids(h)[j], 0);
      SiblingsApart(t, h, if i < j then i else j, if i < j then j else i, t.Kids(h)[j]);
    }
    forall i | 0 <= i < |t.Kids(h)| ensures InSubtree(t, g, t.Kids(h)[i]) {
      KidInSubtree(t, g, h, i);
    }
  }

  // ---- in parts of the processor ----

  ghost function FractionSum(bw: map<Group, Bandwidth>, a: seq<Group>): real {
    if a == [] then 0.0 else Fraction(Effective(bw, NoProposal, a[0])) + FractionSum(bw, a[1..])
  }

  /** A sum of exact parts exceeds the sum that the check forms by less than one grain for each. */
  lemma {:induction false} FractionSumBounds(bw: map<Group, Bandwidth>, a: seq<Group>)
    requires forall x :: x in a ==> Sane(Effective(bw, NoProposal, x)) && Short(Effective(bw, NoProposal, x))
    ensures FractionSum(bw, a) <= (ShareSum(bw, a) + |a|) as real * GRAIN
  {
    if a != [] {
      FractionBounds(Effective(bw, NoProposal, a[0]));
      FractionSumBounds(bw, a[1..]);
      hide ToRatio, Fraction, Short, Sane;
    }
  }

  /**
   In a tree that passes the check without a wrapped sum, no group has a greater part of the processor than the global
   setting, and no group's children together a greater one than it, to within one grain for each setting.
   */
  lemma AcceptedFractions(t: Tree, r: Rules, bw: map<Group, Bandwidth>, root: Group, g: Group)
    requires WellFormed(t) && Schedulable(t, r, bw, root) && InSubtree(t, root, g) && Sane(r.global)
    requires SumKids(t, bw, NoProposal, g, 0) < WORD
    ensures var b := Effective(bw, NoProposal, g); Short(b) ==> Fraction(b) <= Fraction(r.global) + GRAIN
    ensures (forall x :: x in t.Kids(g) ==> Short(Effective(bw, NoProposal, x))) ==>
              FractionSum(bw, t.Kids(g)) <= Fraction(Effective(bw, NoProposal, g)) + |t.Kids(g)| as real * GRAIN
  {
    var b, kids := Effective(bw, NoProposal, g), t.Kids(g);
    HoldsIffNoWrap(t, r, bw, root, g);
    KidsSum(t, bw, g, 0);
    assert kids[0..] == kids;
    assert Check(t, r, bw, NoProposal, g) == 0;
    FractionBounds(b);
    FractionBounds(r.global);
    forall x | x in kids ensures Sane(Effective(bw, NoProposal, x)) {
      var i :| 0 <= i < |kids| && kids[i] == x;
      KidInSubtree(t, root, g, i);
      assert Check(t, r, bw, NoProposal, x) == 0;
    }
    hide ToRatio, Fraction, Check, Short, Sane, SumKids, Effective;
    if forall x :: x in kids ==> Short(Effective(bw, NoProposal, x)) {
      FractionSumBounds(bw, kids);
    }
  }

  // ---- where the 32-bit sum fails ----

  /** In a schedulable tree a group holds its children's shares exactly when their true sum fits 32 bits. */
  lemma HoldsIffNoWrap(t: Tree, r: Rules, bw: map<Group, Bandwidth>, root: Group, g: Group)
    requires Schedulable(t, r, bw, root) && InSubtree(t, root, g)
    ensures Holds(t, bw, g) <==> SumKids(t, bw, NoProposal, g, 0) < WORD
    ensures Share(bw, g) <= UNIT && Share(bw, g) <= ToRatio(r.global)
  {
    assert Check(t, r, bw, NoProposal, g) == 0;
    RatioBound(Effective(bw, NoProposal, g));
    hide ToRatio, SumKids;
  }

  /**
   In a schedulable tree all antichains below a group fit in its share if and only if no sum below it wraps, whatever
   the number of children.
   */
  lemma AntichainsFitIff(t: Tree, r: Rules, bw: map<Group, Bandwidth>, root: Group, g: Group)
    requires WellFormed(t) && Schedulable(t, r, bw, root) && InSubtree(t, root, g)
    ensures (forall a :: Antichain(t, g, a) ==> ShareSum(bw, a) <= Share(bw, g)) <==> NoWrap(t, bw, g)
    ensures Share(bw, g) <= ToRatio(r.global)
  {
    HoldsIffNoWrap(t, r, bw, root, g);
    if NoWrap(t, bw, g) {
      forall h | InSubtree(t, g, h) ensures Holds(t, bw, h) {
        BelowBelow(t, root, g, h);
        HoldsIffNoWrap(t, r, bw, root, h);
      }
      forall a | Antichain(t, g, a) ensures ShareSum(bw, a) <= Share(bw, g) {
        AntichainFits(t, bw, g, a);
      }
    }
    if forall a :: Antichain(t, g, a) ==> ShareSum(bw, a) <= Share(bw, g) {
      forall h | InSubtree(t, g, h) ensures SumKids(t, bw, NoProposal, h, 0) < WORD {
        KidsApart(t, g, h);
        KidsSum(t, bw, h, 0);
        assert t.Kids(h)[0..] == t.Kids(h);
      }
    }
  }

  lemma BelowBelow(t: Tree, root: Group, g: Group, h: Group)
    requires InSubtree(t, root, g) && InSubtree(t, g, h)
    ensures InSubtree(t, root, h)
  {
    var n: nat :| Below(t, root, g, n);
    var m: nat :| Below(t, g, h, m);
    BelowTrans(t, root, g, h, n, m);
  }

  const CROWD: nat := 4097

  function FirstKeys<V>(n: nat, v: V): (m: map<nat, V>)
    ensures forall k: nat :: k in m <==> k < n
    ensures forall k :: k in m ==> m[k] == v
  {
    if n == 0 then map[] else FirstKeys(n - 1, v)[n - 1 := v]
  }

  /** A root with so many unlimited children that the sum of their shares wraps to exactly one share. */
  function Crowd(): Tree {
    Tree(map[0 := seq(CROWD, i => i + 1)], FirstKeys(CROWD + 1, 0) - {0}, map[0 := 1])
  }

  function CrowdBandwidth(): map<Group, Bandwidth> {
    FirstKeys(CROWD + 1, Bandwidth(1, RUNTIME_INF))
  }

  lemma CrowdWellFormed()
    ensures WellFormed(Crowd())
  {
    var t := Crowd();
    forall g | g in t.parent
      ensures g in t.Kids(t.parent[g])
    {
      assert t.Kids(0)[g - 1] == g;
    }
  }

  lemma {:induction false} CrowdSum(i: nat)
    requires i <= CROWD
    ensures SumKids(Crowd(), CrowdBandwidth(), NoProposal, 0, i) == (CROWD - i) * UNIT
    decreases CROWD - i
  {
    if i < CROWD {
      CrowdSum(i + 1);
      assert Crowd().Kids(0)[i] == i + 1;
    }
  }

  lemma CrowdChecks(g: Group)
    requires g <= CROWD
    ensures Check(Crowd(), Rules(true, Bandwidth(1, RUNTIME_INF), {}), CrowdBandwidth(), NoProposal, g) == 0
  {
    CrowdSum(0);
    assert Effective(CrowdBandwidth(), NoProposal, g) == Bandwidth(1, RUNTIME_INF);
    if g != 0 {
      assert Crowd().Kids(g) == [];
    }
  }

  /** The check passes this stored tree although the children of the root together claim far more than the root has. */
  lemma WrapAccepts()
    ensures WellFormed(Crowd())
    ensures Schedulable(Crowd(), Rules(true, Bandwidth(1, RUNTIME_INF), {}), CrowdBandwidth(), 0)
    ensures !Holds(Crowd(), CrowdBandwidth(), 0)
  {
    CrowdWellFormed();
    CrowdSum(0);
    hide Check;
    forall g | InSubtree(Crowd(), 0, g)
      ensures Check(Crowd(), Rules(true, Bandwidth(1, RUNTIME_INF), {}), CrowdBandwidth(), NoProposal, g) == 0
    {
      var n: nat :| Below(Crowd(), 0, g, n);
      assert g == 0 || g in Crowd().parent;
      CrowdChecks(g);
    }
  }
}
