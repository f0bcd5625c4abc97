/**
 Settings of real-time bandwidth over time: groups are created and destroyed, settings are
 proposed and accepted or refused, and the shares hold in every tree that comes about so.
 */
module RtAdmission {
  import opened Common
  import opened ListOps
  import opened TreeWalk
  import opened RtSchedulable

  /** sched_create_group: the new group comes first in its parent's list. The ranks witness that the tree is finite. */
  function Grown(t: Tree, parent: Group, child: Group): Tree {
    var ranks := map g | g in t.rank.Keys + {parent} :: t.Rank(g) + 1;
    Tree(t.children[parent := [child] + t.Kids(parent)], t.parent[child := parent], ranks)
  }

  /** sched_destroy_group */
  function Pruned(t: Tree, leaf: Group): Tree
    requires leaf in t.parent
  {
    var p := t.parent[leaf];
    Tree(t.children[p := Without(t.Kids(p), leaf)] - {leaf}, t.parent - {leaf}, t.rank - {leaf})
  }

  /** The name of a group that does not exist. */
  predicate Fresh(t: Tree, bw: map<Group, Bandwidth>, g: Group) {
    g !in t.children && g !in t.parent && g !in t.rank && g !in bw
  }

  /** Every group with children or with a parent hangs below the root. */
  ghost predicate Rooted(t: Tree, root: Group) {
    root !in t.parent && forall g :: t.Kids(g) != [] ==> InSubtree(t, root, g)
  }

  /** The groups, their stored settings, and the rules of the check. */
  datatype Forest = Forest(t: Tree, bw: map<Group, Bandwidth>, rules: Rules)

  /** In every group the children's true sum fits, and each share fits the global one. */
  ghost predicate Inv(s: Forest, root: Group) {
    && WellFormed(s.t) && Rooted(s.t, root)
    && AllSane(s.bw) && Sane(s.rules.global)
    && forall g :: InSubtree(s.t, root, g) ==> Good(s, g)
  }

  ghost predicate AllSane(bw: map<Group, Bandwidth>) { forall g :: g in bw ==> Sane(bw[g]) }

  ghost predicate Good(s: Forest, g: Group) {
    Holds(s.t, s.bw, g) && Share(s.bw, g) <= ToRatio(s.rules.global)
  }

  datatype Step =
    | Create(parent: Group, child: Group, period: Period)
    | Destroy(leaf: Group)
    | Propose(tg: Group, b: Bandwidth)
    | ProposeGlobal(enabled: bool, b: Bandwidth)
    | MoveTasks(busy: set<Group>)

  /** A group that goes has no tasks and no children; real-time tasks go only where there is runtime for them. */
  ghost predicate Enabled(s: Forest, root: Group, step: Step) {
    match step
    case Create(parent, child, _) => InSubtree(s.t, root, parent) && Fresh(s.t, s.bw, child) && child != root
    case Destroy(leaf) => leaf in s.t.parent && s.t.Kids(leaf) == [] && leaf !in s.rules.busy
    case Propose(tg, _) => InSubtree(s.t, root, tg)
    case ProposeGlobal(_, _) => true
    case MoveTasks(busy) =>
      forall g :: g in busy && g !in s.rules.busy ==>
        InSubtree(s.t, root, g) && (s.rules.enabled ==> Effective(s.bw, NoProposal, g).runtime != 0)
  }

  /** What __rt_schedulable answers; the walk is defined on finite trees, which no run leaves. */
  ghost predicate Accepts(s: Forest, root: Group, rules: Rules, d: Proposal) {
    WellFormed(s.t) && Walk(s.t, root, Checks(s.t, rules, s.bw, d), ()).1 == 0
  }

  /** What the kernel stores: a refused setting changes nothing, a new group has no runtime. */
  ghost function Next(s: Forest, root: Group, step: Step): Forest
    requires Enabled(s, root, step)
  {
    match step
    case Create(parent, child, period) =>
      s.(t := Grown(s.t, parent, child), bw := s.bw[child := Bandwidth(period, 0)])
    case Destroy(leaf) => s.(t := Pruned(s.t, leaf), bw := s.bw - {leaf})
    case Propose(tg, b) =>
      if Accepts(s, root, s.rules, Proposal(tg, b)) then s.(bw := s.bw[tg := b]) else s
    case ProposeGlobal(enabled, b) =>
      var rules := s.rules.(enabled := enabled, global := b);
      if Sane(b) && Accepts(s, root, rules, NoProposal) then s.(rules := rules) else s
    case MoveTasks(busy) => s.(rules := s.rules.(busy := busy))
  }

  // ---- what can be asked for ----

  /** A long of 32 bits. */
  type Long = x: int | -0x8000_0000 <= x < 0x8000_0000

  /** The conversions of sched_group_set_rt_runtime and sched_group_set_rt_period, in 64 bits. */
  function RuntimeOf(us: Long): nat { if us < 0 then RUNTIME_INF else us * 1000 }

  function PeriodOf(us: Long): Period
    requires us != 0
  {
    us * 1000 % U64
  }

  /** No runtime that can be asked for loses bits in the shift, and none but a negative number lifts the limit. */
  lemma AskedIsShort(us: Long, period: Period)
    ensures Short(Bandwidth(period, RuntimeOf(us)))
    ensures RuntimeOf(us) == RUNTIME_INF <==> us < 0
    ensures us >= 0 ==> RuntimeOf(us) == 1000 * us
    ensures us > 0 ==> PeriodOf(us) == 1000 * us
  {}

  // ---- sums under changes ----

  lemma {:induction false} SumUnchanged(bw: map<Group, Bandwidth>, bw': map<Group, Bandwidth>, a: seq<Group>)
    requires forall x :: x in a ==> Effective(bw', NoProposal, x) == Effective(bw, NoProposal, x)
    ensures ShareSum(bw', a) == ShareSum(bw, a)
  {
    hide ToRatio;
    if a != [] {
      SumUnchanged(bw, bw', a[1..]);
    }
  }

  lemma {:induction false} SumWithout(bw: map<Group, Bandwidth>, a: seq<Group>, x: Group)
    ensures ShareSum(bw, Without(a, x)) <= ShareSum(bw, a)
  {
    hide Share;
    if a != [] {
      SumWithout(bw, a[1..], x);
      assert ([a[0]] + Without(a[1..], x))[1..] == Without(a[1..], x);
    }
  }

  /** One setting moves a sum by at most the new share. */
  lemma {:induction false} SumUpdated(bw: map<Group, Bandwidth>, a: seq<Group>, tg: Group, b: Bandwidth)
    requires NoDup(a)
    ensures ShareSum(bw[tg := b], a) <= ShareSum(bw, a) + if tg in a then ToRatio(b) else 0
  {
    hide ToRatio;
    if a != [] {
      SumUpdated(bw, a[1..], tg, b);
      if a[0] == tg {
        assert tg !in a[1..];
      }
    }
  }

  lemma HoldsIsSum(t: Tree, bw: map<Group, Bandwidth>, g: Group)
    ensures Holds(t, bw, g) <==> ShareSum(bw, t.Kids(g)) <= Share(bw, g)
  {
    KidsSum(t, bw, g, 0);
    assert t.Kids(g)[0..] == t.Kids(g);
  }

  // ---- accepted settings ----

  /** An accepted setting can at most double a sum that held, so no sum wraps and the check compares true sums. */
  lemma ProposalHolds(s: Forest, root: Group, tg: Group, b: Bandwidth, g: Group)
    requires Inv(s, root) && InSubtree(s.t, root, tg) && InSubtree(s.t, root, g)
    requires Schedulable(s.t, s.rules, s.bw[tg := b], root)
    ensures Good(s.(bw := s.bw[tg := b]), g)
  {
    var bw', kids := s.bw[tg := b], s.t.Kids(g);
    assert NoDup(kids);
    assert Good(s, g);
    HoldsIsSum(s.t, s.bw, g);
    RatioBound(Effective(s.bw, NoProposal, g));
    assert Check(s.t, s.rules, bw', NoProposal, tg) == 0;
    RatioBound(b);
    hide ToRatio, InSubtree, Inv, Check, SumKids;
    SumUpdated(s.bw, kids, tg, b);
    KidsSum(s.t, bw', g, 0);
    assert kids[0..] == kids;
    HoldsIffNoWrap(s.t, s.rules, bw', root, g);
  }

  lemma ProposeInv(s: Forest, root: Group, tg: Group, b: Bandwidth)
    requires Inv(s, root) && Enabled(s, root, Propose(tg, b))
    ensures Inv(Next(s, root, Propose(tg, b)), root)
  {
    AcceptedIffSchedulable(s.t, s.rules, s.bw, root, tg, b);
    if Schedulable(s.t, s.rules, s.bw[tg := b], root) {
      assert Check(s.t, s.rules, s.bw[tg := b], NoProposal, tg) == 0;
      assert Sane(b);
      hide Check, Good;
      var s' := s.(bw := s.bw[tg := b]);
      forall g | InSubtree(s.t, root, g) ensures Good(s', g) {
        ProposalHolds(s, root, tg, b, g);
      }
    }
  }

  lemma GlobalInv(s: Forest, root: Group, enabled: bool, b: Bandwidth)
    requires Inv(s, root) && Enabled(s, root, ProposeGlobal(enabled, b))
    ensures Inv(Next(s, root, ProposeGlobal(enabled, b)), root)
  {
    var rules := s.rules.(enabled := enabled, global := b);
    WalkAccepts(s.t, rules, s.bw, NoProposal, root);
    if Schedulable(s.t, rules, s.bw, root) {
      hide Check, Holds;
      forall g | InSubtree(s.t, root, g) ensures Good(s.(rules := rules), g) {
        assert Good(s, g);
        HoldsIffNoWrap(s.t, rules, s.bw, root, g);
      }
    }
  }

  // ---- new and removed groups ----

  lemma ParentOf(t: Tree, g: Group, x: Group)
    requires WellFormed(t)
    ensures x in t.Kids(g) ==> x in t.parent && t.parent[x] == g && t.Rank(x) < t.Rank(g)
  {
    if x in t.Kids(g) {
      var i :| 0 <= i < |t.Kids(g)| && t.Kids(g)[i] == x;
      assert t.parent[t.Kids(g)[i]] == g;
    }
  }

  lemma GrownShape(t: Tree, parent: Group, child: Group)
    requires Fresh(t, map[], child)
    ensures var t' := Grown(t, parent, child);
            t'.parent == t.parent[child := parent] && t'.Rank(child) == (if child == parent then 1 else 0)
    ensures forall g :: Grown(t, parent, child).Kids(g) == if g == parent then [child] + t.Kids(g) else t.Kids(g)
    ensures forall g :: t.Rank(g) <= Grown(t, parent, child).Rank(g) <= t.Rank(g) + 1
    ensures forall g :: g == parent || t.Rank(g) > 0 ==> Grown(t, parent, child).Rank(g) == t.Rank(g) + 1
  {}

  /** x stands where its parent pointer says, one rank lower at least. */
  ghost predicate Listed(t: Tree, g: Group, x: Group) {
    x in t.parent && t.parent[x] == g && t.Rank(x) < t.Rank(g)
  }

  lemma WellFormedIntro(t: Tree)
    requires forall g, x :: x in t.Kids(g) ==> Listed(t, g, x)
    requires forall g :: NoDup(t.Kids(g))
    requires forall x :: x in t.parent ==> x in t.Kids(t.parent[x])
    ensures WellFormed(t)
  {
    forall g, i {:trigger t.Kids(g)[i]} | 0 <= i < |t.Kids(g)| ensures Listed(t, g, t.Kids(g)[i]) {
      assert t.Kids(g)[i] in t.Kids(g);
    }
  }

  lemma WellFormedElim(t: Tree, g: Group, x: Group)
    requires WellFormed(t)
    ensures x in t.Kids(g) ==> Listed(t, g, x)
    ensures NoDup(t.Kids(g))
    ensures x in t.parent ==> x in t.Kids(t.parent[x])
  {
    ParentOf(t, g, x);
  }

  lemma GrownListed(t: Tree, parent: Group, child: Group, g: Group, x: Group)
    requires WellFormed(t) && Fresh(t, map[], child) && child != parent
    ensures var t' := Grown(t, parent, child);
            (x in t'.Kids(g) ==> Listed(t', g, x)) && NoDup(t'.Kids(g)) &&
            (x in t'.parent ==> x in t'.Kids(t'.parent[x]))
  {
    GrownShape(t, parent, child);
    hide Grown;
    WellFormedElim(t, g, x);
    WellFormedElim(t, g, child);
    WellFormedElim(t, if x in t.parent then t.parent[x] else g, x);
    hide WellFormed;
  }

  lemma GrownOk(t: Tree, parent: Group, child: Group)
    requires WellFormed(t) && Fresh(t, map[], child) && child != parent
    ensures WellFormed(Grown(t, parent, child)) && child !in t.Kids(parent)
  {
    var t' := Grown(t, parent, child);
    WellFormedElim(t, parent, child);
    hide Grown, NoDup, WellFormed, Listed;
    forall g, x ensures x in t'.Kids(g) ==> Listed(t', g, x) {
      GrownListed(t, parent, child, g, x);
    }
    forall g ensures NoDup(t'.Kids(g)) {
      GrownListed(t, parent, child, g, g);
    }
    forall x | x in t'.parent ensures x in t'.Kids(t'.parent[x]) {
      GrownListed(t, parent, child, x, x);
    }
    WellFormedIntro(t');
  }

  /** Everything that was below the root still is, and nothing else but the new group. */
  lemma {:induction false} GrownBelow(t: Tree, root: Group, parent: Group, child: Group, g: Group, n: nat)
    requires WellFormed(t) && Fresh(t, map[], child) && child != root
    ensures Below(t, root, g, n) ==> Below(Grown(t, parent, child), root, g, n)
    ensures g != child && Below(Grown(t, parent, child), root, g, n) ==> Below(t, root, g, n)
    decreases n
  {
    if g != root && n > 0 && g in t.parent {
      assert g in t.Kids(t.parent[g]);
      GrownBelow(t, root, parent, child, t.parent[g], n - 1);
    }
  }

  lemma GrownSubtree(t: Tree, root: Group, parent: Group, child: Group, g: Group)
    requires WellFormed(t) && Fresh(t, map[], child) && child != root && InSubtree(t, root, parent)
    ensures InSubtree(Grown(t, parent, child), root, g) <==> g == child || InSubtree(t, root, g)
  {
    var t' := Grown(t, parent, child);
    if n: nat :| Below(t, root, g, n) {
      GrownBelow(t, root, parent, child, g, n);
    }
    if n: nat :| Below(t', root, g, n) {
      GrownBelow(t, root, parent, child, g, n);
    }
    var n: nat :| Below(t, root, parent, n);
    GrownBelow(t, root, parent, child, parent, n);
    assert Below(t', root, child, n + 1);
  }

  lemma CreateRooted(t: Tree, root: Group, parent: Group, child: Group)
    requires WellFormed(t) && Rooted(t, root) && InSubtree(t, root, parent) && Fresh(t, map[], child) && child != root
    ensures child != parent && Rooted(Grown(t, parent, child), root)
  {
    var n: nat :| Below(t, root, parent, n);
    assert child != parent;
    GrownShape(t, parent, child);
    var t' := Grown(t, parent, child);
    hide Grown, WellFormed, InSubtree;
    forall g | t'.Kids(g) != [] ensures InSubtree(t', root, g) {
      GrownSubtree(t, root, parent, child, g);
    }
  }

  lemma CreateGood(s: Forest, parent: Group, child: Group, period: Period, g: Group)
    requires WellFormed(s.t) && Fresh(s.t, s.bw, child) && child != parent && (g != child ==> Good(s, g))
    ensures Good(s.(t := Grown(s.t, parent, child), bw := s.bw[child := Bandwidth(period, 0)]), g)
  {
    var t', bw' := Grown(s.t, parent, child), s.bw[child := Bandwidth(period, 0)];
    var kids := s.t.Kids(g);
    assert child !in kids && t'.Kids(g) == (if g == parent then [child] + kids else kids) by {
      ParentOf(s.t, g, child);
      GrownShape(s.t, parent, child);
    }
    assert g == child ==> kids == [];
    assert Share(bw', child) == 0 && (g != child ==> Share(bw', g) == Share(s.bw, g));
    SumUnchanged(s.bw, bw', kids);
    hide ToRatio, Holds, WellFormed, Grown, Share, Fresh;
    HoldsIsSum(t', bw', g);
    HoldsIsSum(s.t, s.bw, g);
    assert ([child] + kids)[1..] == kids;
  }

  lemma CreateInv(s: Forest, root: Group, parent: Group, child: Group, period: Period)
    requires Inv(s, root) && Enabled(s, root, Create(parent, child, period))
    ensures Inv(Next(s, root, Create(parent, child, period)), root)
  {
    var s' := s.(t := Grown(s.t, parent, child), bw := s.bw[child := Bandwidth(period, 0)]);
    CreateRooted(s.t, root, parent, child);
    GrownOk(s.t, parent, child);
    assert AllSane(s'.bw);
    hide Good, WellFormed, Rooted, Grown, InSubtree, AllSane, Sane;
    forall g | InSubtree(s'.t, root, g) ensures Good(s', g) {
      GrownSubtree(s.t, root, parent, child, g);
      CreateGood(s, parent, child, period, g);
    }
  }

  lemma PrunedKids(t: Tree, leaf: Group, g: Group)
    requires WellFormed(t) && leaf in t.parent && t.Kids(leaf) == []
    ensures Pruned(t, leaf).Kids(g) == Without(t.Kids(g), leaf)
  {
    WellFormedElim(t, g, leaf);
    WellFormedElim(t, t.parent[leaf], leaf);
  }

  lemma PrunedListed(t: Tree, leaf: Group, g: Group, x: Group)
    requires WellFormed(t) && leaf in t.parent && t.Kids(leaf) == []
    ensures var t' := Pruned(t, leaf);
            (x in t'.Kids(g) ==> Listed(t', g, x)) && NoDup(t'.Kids(g)) &&
            (x in t'.parent ==> x in t'.Kids(t'.parent[x]))
  {
    var p := if x in t.parent then t.parent[x] else g;
    PrunedKids(t, leaf, g);
    PrunedKids(t, leaf, p);
    WellFormedElim(t, g, x);
    WellFormedElim(t, p, x);
    WithoutNoDup(t.Kids(g), leaf);
    hide WellFormed, NoDup;
  }

  lemma PrunedOk(t: Tree, leaf: Group)
    requires WellFormed(t) && leaf in t.parent && t.Kids(leaf) == []
    ensures WellFormed(Pruned(t, leaf))
    ensures forall g :: Pruned(t, leaf).Kids(g) == Without(t.Kids(g), leaf)
  {
    var t' := Pruned(t, leaf);
    hide Pruned, NoDup, WellFormed, Listed;
    forall g ensures t'.Kids(g) == Without(t.Kids(g), leaf) {
      PrunedKids(t, leaf, g);
    }
    forall g, x ensures x in t'.Kids(g) ==> Listed(t', g, x) {
      PrunedListed(t, leaf, g, x);
    }
    forall g ensures NoDup(t'.Kids(g)) {
      PrunedListed(t, leaf, g, g);
    }
    forall x | x in t'.parent ensures x in t'.Kids(t'.parent[x]) {
      PrunedListed(t, leaf, x, x);
    }
    WellFormedIntro(t');
  }

  lemma {:induction false} PrunedBelow(t: Tree, root: Group, leaf: Group, g: Group, n: nat)
    requires WellFormed(t) && leaf in t.parent && t.Kids(leaf) == []
    ensures Below(Pruned(t, leaf), root, g, n) ==> Below(t, root, g, n)
    ensures g != leaf && Below(t, root, g, n) ==> Below(Pruned(t, leaf), root, g, n)
    decreases n
  {
    if g != root && n > 0 && g in t.parent {
      assert g in t.Kids(t.parent[g]);
      PrunedBelow(t, root, leaf, t.parent[g], n - 1);
    }
  }

  lemma PrunedSubtree(t: Tree, root: Group, leaf: Group, g: Group)
    requires WellFormed(t) && leaf in t.parent && t.Kids(leaf) == [] && leaf != root
    ensures InSubtree(Pruned(t, leaf), root, g) <==> g != leaf && InSubtree(t, root, g)
  {
    if n: nat :| Below(t, root, g, n) {
      PrunedBelow(t, root, leaf, g, n);
    }
    if n: nat :| Below(Pruned(t, leaf), root, g, n) {
      PrunedBelow(t, root, leaf, g, n);
    }
  }

  lemma DestroyGood(s: Forest, leaf: Group, g: Group)
    requires WellFormed(s.t) && leaf in s.t.parent && s.t.Kids(leaf) == [] && g != leaf && Good(s, g)
    ensures Good(s.(t := Pruned(s.t, leaf), bw := s.bw - {leaf}), g)
  {
    var t', bw' := Pruned(s.t, leaf), s.bw - {leaf};
    PrunedOk(s.t, leaf);
    hide ToRatio, Holds, WellFormed, Pruned;
    HoldsIsSum(t', bw', g);
    HoldsIsSum(s.t, s.bw, g);
    SumWithout(s.bw, s.t.Kids(g), leaf);
    SumUnchanged(s.bw, bw', Without(s.t.Kids(g), leaf));
  }

  lemma DestroyRooted(t: Tree, root: Group, leaf: Group)
    requires WellFormed(t) && Rooted(t, root) && leaf in t.parent && t.Kids(leaf) == []
    ensures leaf != root && Rooted(Pruned(t, leaf), root)
  {
    PrunedOk(t, leaf);
    var t' := Pruned(t, leaf);
    hide WellFormed, InSubtree;
    forall g | t'.Kids(g) != [] ensures InSubtree(t', root, g) {
      assert t.Kids(g) != [];
      PrunedSubtree(t, root, leaf, g);
    }
  }

  lemma DestroyInv(s: Forest, root: Group, leaf: Group)
    requires Inv(s, root) && Enabled(s, root, Destroy(leaf))
    ensures Inv(Next(s, root, Destroy(leaf)), root)
  {
    var s' := s.(t := Pruned(s.t, leaf), bw := s.bw - {leaf});
    DestroyRooted(s.t, root, leaf);
    PrunedOk(s.t, leaf);
    hide Good, WellFormed, Rooted, Pruned, InSubtree;
    forall g | InSubtree(s'.t, root, g) ensures Good(s', g) {
      PrunedSubtree(s.t, root, leaf, g);
      DestroyGood(s, leaf, g);
    }
  }

  // ---- runs ----

  lemma NextInv(s: Forest, root: Group, step: Step)
    requires Inv(s, root) && Enabled(s, root, step)
    ensures Inv(Next(s, root, step), root)
  {
    match step
    case Create(parent, child, period) => CreateInv(s, root, parent, child, period);
    case Destroy(leaf) => DestroyInv(s, root, leaf);
    case Propose(tg, b) => ProposeInv(s, root, tg, b);
    case ProposeGlobal(enabled, b) => GlobalInv(s, root, enabled, b);
    case MoveTasks(_) =>
  }

  ghost predicate Reached(s: Forest, root: Group, steps: seq<Step>, e: Forest)
    decreases |steps|
  {
    if steps == [] then e == s
    else Enabled(s, root, steps[0]) && Reached(Next(s, root, steps[0]), root, steps[1..], e)
  }

  lemma {:induction false} ReachedInv(s: Forest, root: Group, steps: seq<Step>, e: Forest)
    requires Inv(s, root) && Reached(s, root, steps, e)
    ensures Inv(e, root)
    decreases |steps|
  {
    if steps != [] {
      NextInv(s, root, steps[0]);
      ReachedInv(Next(s, root, steps[0]), root, steps[1..], e);
    }
  }

  /** sched_init: the root group alone, with the global setting. */
  function Boot(root: Group, rules: Rules): Forest {
    Forest(Tree(map[], map[], map[]), map[root := rules.global], rules)
  }

  lemma BootInv(root: Group, rules: Rules)
    requires Sane(rules.global)
    ensures Inv(Boot(root, rules), root)
  {
    var s := Boot(root, rules);
    forall g | InSubtree(s.t, root, g) ensures g == root {}
  }

  /**
   From boot, over every run of group creations and removals, accepted and refused settings, global changes and task
   moves: no sum of the check ever wraps, however many children a group has, and the shares of any groups below g none
   of which is above another add up to at most the share of g, itself at most the global one.
   */
  lemma SharesHold(root: Group, rules: Rules, steps: seq<Step>, s: Forest, g: Group, a: seq<Group>)
    requires Sane(rules.global) && Reached(Boot(root, rules), root, steps, s)
    requires InSubtree(s.t, root, g)
    ensures WellFormed(s.t) && NoWrap(s.t, s.bw, root) && Share(s.bw, g) <= ToRatio(s.rules.global)
    ensures Antichain(s.t, g, a) ==> ShareSum(s.bw, a) <= Share(s.bw, g)
  {
    BootInv(root, rules);
    ReachedInv(Boot(root, rules), root, steps, s);
    forall h | InSubtree(s.t, root, h) ensures SumKids(s.t, s.bw, NoProposal, h, 0) < WORD {
      assert Good(s, h);
      RatioBound(Effective(s.bw, NoProposal, h));
    }
    assert Good(s, g);
    forall h | InSubtree(s.t, g, h) ensures Holds(s.t, s.bw, h) {
      BelowBelow(s.t, root, g, h);
      assert Good(s, h);
    }
    if Antichain(s.t, g, a) {
      AntichainFits(s.t, s.bw, g, a);
    }
  }

  /**
   The same in parts of the processor: over every run the settings of any groups below g, none of which is above
   another, add up to at most the part that g has, and that is at most the global part, to within one grain for each
   setting.
   */
  lemma FractionsHold(root: Group, rules: Rules, steps: seq<Step>, s: Forest, g: Group, a: seq<Group>)
    requires Sane(rules.global) && Reached(Boot(root, rules), root, steps, s)
    requires InSubtree(s.t, root, g) && Antichain(s.t, g, a)
    requires forall x :: x in a ==> Short(Effective(s.bw, NoProposal, x))
    ensures FractionSum(s.bw, a) <= Fraction(Effective(s.bw, NoProposal, g)) + |a| as real * GRAIN
    ensures FractionSum(s.bw, a) <= Fraction(s.rules.global) + |a| as real * GRAIN
  {
    SharesHold(root, rules, steps, s, g, a);
    BootInv(root, rules);
    ReachedInv(Boot(root, rules), root, steps, s);
    FractionBounds(Effective(s.bw, NoProposal, g));
    FractionBounds(s.rules.global);
    FractionSumBounds(s.bw, a);
  }

  // ---- real-time tasks are not left without runtime ----

  /** While bandwidth is enforced, a group that holds real-time tasks has runtime. */
  ghost predicate Served(s: Forest, root: Group) {
    forall g :: g in s.rules.busy ==>
      InSubtree(s.t, root, g) && (s.rules.enabled ==> Effective(s.bw, NoProposal, g).runtime != 0)
  }

  lemma ServedStep(s: Forest, root: Group, step: Step)
    requires Inv(s, root) && Enabled(s, root, step) && Served(s, root)
    ensures Served(Next(s, root, step), root)
  {
    match step
    case Create(parent, child, period) => CreateServed(s, root, parent, child, period);
    case Destroy(leaf) => DestroyServed(s, root, leaf);
    case Propose(tg, b) => ProposeServed(s, root, tg, b);
    case ProposeGlobal(enabled, b) => GlobalServed(s, root, enabled, b);
    case MoveTasks(_) => hide Inv, InSubtree;
  }

  lemma CreateServed(s: Forest, root: Group, parent: Group, child: Group, period: Period)
    requires Inv(s, root) && Served(s, root) && Enabled(s, root, Create(parent, child, period))
    ensures Served(Next(s, root, Create(parent, child, period)), root)
  {
    hide Inv, Served;
    assert WellFormed(s.t) by { InvShape(s, root); }
    forall g | InSubtree(s.t, root, g) ensures g != child && InSubtree(Grown(s.t, parent, child), root, g) {
      GrownSubtree(s.t, root, parent, child, g);
      var n: nat :| Below(s.t, root, g, n);
    }
    hide WellFormed, Grown, InSubtree, Fresh;
    ServedAfter(s, root, Next(s, root, Create(parent, child, period)));
  }

  lemma InvShape(s: Forest, root: Group)
    requires Inv(s, root)
    ensures WellFormed(s.t) && Rooted(s.t, root)
  {}

  /** The same tasks and rules: what matters is that their groups are still there with the runtime they had. */
  lemma ServedAfter(s: Forest, root: Group, s': Forest)
    requires Served(s, root) && s'.rules.busy == s.rules.busy
    requires forall g :: g in s.rules.busy && InSubtree(s.t, root, g) ==>
               InSubtree(s'.t, root, g) &&
               (!s'.rules.enabled || Effective(s'.bw, NoProposal, g).runtime != 0 ||
                (s.rules.enabled && Effective(s'.bw, NoProposal, g) == Effective(s.bw, NoProposal, g)))
    ensures Served(s', root)
  {
    hide InSubtree;
  }

  lemma DestroyServed(s: Forest, root: Group, leaf: Group)
    requires Inv(s, root) && Served(s, root) && Enabled(s, root, Destroy(leaf))
    ensures Served(Next(s, root, Destroy(leaf)), root)
  {
    hide Inv, Served;
    InvShape(s, root);
    forall g | InSubtree(s.t, root, g) && g != leaf ensures InSubtree(Pruned(s.t, leaf), root, g) {
      PrunedSubtree(s.t, root, leaf, g);
    }
    hide WellFormed, Pruned, InSubtree;
    ServedAfter(s, root, Next(s, root, Destroy(leaf)));
  }

  lemma ProposeServed(s: Forest, root: Group, tg: Group, b: Bandwidth)
    requires Inv(s, root) && Served(s, root) && Enabled(s, root, Propose(tg, b))
    ensures Served(Next(s, root, Propose(tg, b)), root)
  {
    InvShape(s, root);
    hide Inv, Served, WellFormed, InSubtree;
    AcceptedIffSchedulable(s.t, s.rules, s.bw, root, tg, b);
    ServedAfter(s, root, Next(s, root, Propose(tg, b)));
  }

  lemma GlobalServed(s: Forest, root: Group, enabled: bool, b: Bandwidth)
    requires Inv(s, root) && Served(s, root)
    ensures Served(Next(s, root, ProposeGlobal(enabled, b)), root)
  {
    InvShape(s, root);
    hide Inv, Served, WellFormed, InSubtree;
    WalkAccepts(s.t, s.rules.(enabled := enabled, global := b), s.bw, NoProposal, root);
    ServedAfter(s, root, Next(s, root, ProposeGlobal(enabled, b)));
  }

  /** Over every run: no real-time task is in a group without runtime while bandwidth is enforced. */
  lemma {:induction false} TasksServed(s: Forest, root: Group, steps: seq<Step>, e: Forest)
    requires Inv(s, root) && Served(s, root) && Reached(s, root, steps, e)
    ensures Served(e, root)
    decreases |steps|
  {
    hide Inv, Served, Next;
    if steps != [] {
      NextInv(s, root, steps[0]);
      ServedStep(s, root, steps[0]);
      TasksServed(Next(s, root, steps[0]), root, steps[1..], e);
    }
  }

  /** The tree on which the check is deceived cannot come about. */
  lemma CrowdUnreachable(rules: Rules, steps: seq<Step>, s: Forest)
    requires Sane(rules.global) && Reached(Boot(0, rules), 0, steps, s)
    ensures s.t != Crowd() || s.bw != CrowdBandwidth()
  {
    BootInv(0, rules);
    ReachedInv(Boot(0, rules), 0, steps, s);
    WrapAccepts();
    assert Below(s.t, 0, 0, 0);
    assert Good(s, 0);
  }

  /** The task groups as the kernel stores them. */
  class TaskGroups {
    var t: Tree
    const root: Group
    var rules: Rules
    var bw: map<Group, Bandwidth>
    const nrCpus: nat
    /** rt_runtime of the group's run queue on each CPU */
    var cpuRuntime: map<Group, seq<int>>

    function Value(): Forest
      reads this
    {
      Forest(t, bw, rules)
    }

    /** sched_init */
    constructor (root: Group, rules: Rules, nrCpus: nat)
      ensures Value() == Boot(root, rules) && this.root == root && this.nrCpus == nrCpus
      ensures cpuRuntime == map[root := seq(nrCpus, _ => rules.global.runtime)]
    {
      this.t, this.root, this.rules, this.nrCpus := Tree(map[], map[], map[]), root, rules, nrCpus;
      bw := map[root := rules.global];
      cpuRuntime := map[root := seq(nrCpus, _ => rules.global.runtime)];
    }

    /** __rt_schedulable */
    method RtSchedulable(d: Proposal) returns (ret: int)
      requires WellFormed(t)
      ensures ret == Walk(t, root, Checks(t, rules, bw, d), ()).1
      ensures ret == 0 <==> forall g :: InSubtree(t, root, g) ==> Check(t, rules, bw, d, g) == 0
    {
      WalkAccepts(t, rules, bw, d, root);
      var u;
      u, ret := WalkTgTreeFrom(t, root, Checks(t, rules, bw, d), ());
    }

    /**
     tg_set_rt_bandwidth: an accepted setting makes the tree schedulable and reaches every CPU;
     a refused one changes nothing and would not have been schedulable.
     */
    method TgSetRtBandwidth(tg: Group, period: Period, runtime: nat) returns (err: int)
      requires WellFormed(t) && InSubtree(t, root, tg) && tg in cpuRuntime
      modifies this`bw, this`cpuRuntime
      ensures Value() == Next(old(Value()), root, Propose(tg, Bandwidth(period, runtime)))
      ensures err == 0 <==> Schedulable(t, rules, old(bw)[tg := Bandwidth(period, runtime)], root)
      ensures err == 0 ==> bw == old(bw)[tg := Bandwidth(period, runtime)]
      ensures err == 0 ==> cpuRuntime == old(cpuRuntime)[tg := seq(|old(cpuRuntime)[tg]|, _ => runtime)]
      ensures err != 0 ==> bw == old(bw) && cpuRuntime == old(cpuRuntime)
    {
      var b := Bandwidth(period, runtime);
      AcceptedIffSchedulable(t, rules, bw, root, tg, b);
      hide Check;
      err := RtSchedulable(Proposal(tg, b));
      if err != 0 {
        return;
      }
      bw := bw[tg := b];
      SetCpuRuntime(tg, runtime);
    }

    /** sched_group_set_rt_runtime; a negative number of microseconds stands for no limit. */
    method SchedGroupSetRtRuntime(tg: Group, us: Long) returns (err: int)
      requires WellFormed(t) && InSubtree(t, root, tg) && tg in cpuRuntime
      modifies this`bw, this`cpuRuntime
      ensures Value() == Next(old(Value()), root,
              Propose(tg, Effective(old(bw), NoProposal, tg).(runtime := RuntimeOf(us))))
      ensures err != 0 ==> bw == old(bw) && cpuRuntime == old(cpuRuntime)
    {
      var b := Effective(bw, NoProposal, tg);
      err := TgSetRtBandwidth(tg, b.period, RuntimeOf(us));
    }

    /** sched_group_set_rt_period; a period of zero is refused. */
    method SchedGroupSetRtPeriod(tg: Group, us: Long) returns (err: int)
      requires WellFormed(t) && InSubtree(t, root, tg) && tg in cpuRuntime
      modifies this`bw, this`cpuRuntime
      ensures us == 0 ==> err == -EINVAL && Value() == old(Value())
      ensures us != 0 ==>
                Value() == Next(old(Value()), root,
                    Propose(tg, Effective(old(bw), NoProposal, tg).(period := PeriodOf(us))))
      ensures err != 0 ==> bw == old(bw) && cpuRuntime == old(cpuRuntime)
    {
      if us == 0 {
        return -EINVAL;
      }
      var b := Effective(bw, NoProposal, tg);
      err := TgSetRtBandwidth(tg, PeriodOf(us), b.runtime);
    }

    /** The loop of tg_set_rt_bandwidth over the CPUs. */
    method SetCpuRuntime(tg: Group, runtime: nat)
      requires tg in cpuRuntime
      modifies this`cpuRuntime
      ensures cpuRuntime == old(cpuRuntime)[tg := seq(|old(cpuRuntime)[tg]|, _ => runtime)]
    {
      var i := 0;
      var n := |cpuRuntime[tg]|;
      while i < n
        invariant 0 <= i <= n
        invariant cpuRuntime.Keys == old(cpuRuntime).Keys && |cpuRuntime[tg]| == n
        invariant forall k :: 0 <= k < i ==> cpuRuntime[tg][k] == runtime
        invariant forall g :: g in cpuRuntime && g != tg ==> cpuRuntime[g] == old(cpuRuntime)[g]
      {
        cpuRuntime := cpuRuntime[tg := cpuRuntime[tg][i := runtime]];
        i := i + 1;
      }
      assert cpuRuntime[tg] == seq(n, _ => runtime);
    }

    /** sched_create_group with alloc_rt_sched_group: the new group has no runtime on any CPU. */
    method SchedCreateGroup(parent: Group, child: Group, period: Period)
      requires Enabled(Value(), root, Create(parent, child, period))
      modifies this`t, this`bw, this`cpuRuntime
      ensures Value() == Next(old(Value()), root, Create(parent, child, period))
      ensures cpuRuntime == old(cpuRuntime)[child := seq(nrCpus, _ => 0)]
    {
      bw := bw[child := Bandwidth(period, 0)];
      cpuRuntime := cpuRuntime[child := seq(nrCpus, _ => 0)];
      t := Grown(t, parent, child);
    }

    /** sched_destroy_group */
    method SchedDestroyGroup(leaf: Group)
      requires Enabled(Value(), root, Destroy(leaf))
      modifies this`t, this`bw, this`cpuRuntime
      ensures Value() == Next(old(Value()), root, Destroy(leaf)) && cpuRuntime == old(cpuRuntime) - {leaf}
    {
      t := Pruned(t, leaf);
      bw := bw - {leaf};
      cpuRuntime := cpuRuntime - {leaf};
    }
  }
}
