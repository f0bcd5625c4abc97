/**
 The groups of a scheduling domain: a circular list of processor masks, one for each child domain,
 and the debug walk that checks it.
 */
module SchedGroups {
  import opened Common
  import opened ListOps

  /** A domain level: its span, and for each processor with a child domain that domain's span. */
  datatype Topology = Topology(n: nat, span: set<nat>, child: map<nat, set<nat>>)

  /** for_each_cpu's search: the first member from i on, or n. */
  function FirstFrom(s: set<nat>, i: nat, n: nat): (r: nat)
    requires i <= n
    ensures i <= r <= n && (r < n ==> r in s) && forall j :: i <= j < r ==> j !in s
    decreases n - i
  {
    if i == n then n else if i in s then i else FirstFrom(s, i + 1, n)
  }

  /** get_group: the processor whose sched_group is used, the first one of the child domain. */
  function Leader(t: Topology, i: nat): nat
  {
    if i in t.child then FirstFrom(t.child[i], 0, t.n) else i
  }

  ghost predicate Fits(t: Topology)
  {
    forall i :: i in t.span ==> i < t.n && Leader(t, i) < t.n
  }

  /** The child domains partition the span. */
  ghost predicate ChildrenPartition(t: Topology)
  {
    && (forall i :: i in t.span ==> i < t.n)
    && (forall i :: i in t.span && i in t.child ==> i in t.child[i] && t.child[i] <= t.span)
    && (forall i, j :: i in t.span && i in t.child && j in t.child[i] ==> j in t.child && t.child[j] == t.child[i])
  }

  lemma PartitionFits(t: Topology)
    requires ChildrenPartition(t)
    ensures Fits(t)
  {}

  /** The processors that share a group. */
  function Members(t: Topology, g: nat): set<nat>
  {
    set j | j in t.span && Leader(t, j) == g
  }

  function MembersBelow(t: Topology, g: nat, i: nat): set<nat>
  {
    set j | j in t.span && j < i && Leader(t, j) == g
  }

  lemma MembersBelowNext(t: Topology, g: nat, i: nat)
    ensures MembersBelow(t, g, 0) == {}
    ensures MembersBelow(t, g, i + 1) ==
            if i in t.span && Leader(t, i) == g then MembersBelow(t, g, i) + {i} else MembersBelow(t, g, i)
    ensures Fits(t) ==> MembersBelow(t, g, t.n) == Members(t, g)
  {}

  /** The groups met among the first i processors, in the order in which they are met. */
  function OrderUpTo(t: Topology, i: nat): seq<nat>
  {
    if i == 0 then []
    else
      var o := OrderUpTo(t, i - 1);
      if i - 1 in t.span && Leader(t, i - 1) !in o then o + [Leader(t, i - 1)] else o
  }

  function Order(t: Topology): seq<nat> { OrderUpTo(t, t.n) }

  lemma {:induction false} OrderHas(t: Topology, i: nat)
    ensures NoDup(OrderUpTo(t, i))
    ensures forall j :: j in t.span && j < i ==> Leader(t, j) in OrderUpTo(t, i)
    ensures forall k :: 0 <= k < |OrderUpTo(t, i)| ==>
            exists j :: j in t.span && j < i && Leader(t, j) == OrderUpTo(t, i)[k]
  {
    if i > 0 {
      OrderHas(t, i - 1);
      var o, o' := OrderUpTo(t, i - 1), OrderUpTo(t, i);
      forall k | 0 <= k < |o'| ensures exists j :: j in t.span && j < i && Leader(t, j) == o'[k] {
        if k < |o| {
          assert o'[k] == o[k];
          var j :| j in t.span && j < i - 1 && Leader(t, j) == o[k];
        } else {
          assert Leader(t, i - 1) == o'[k];
        }
      }
    }
  }

  /** One group for each leader; the groups are nonempty, disjoint, and cover the span exactly. */
  lemma GroupsPartitionSpan(t: Topology)
    requires Fits(t)
    ensures NoDup(Order(t))
    ensures forall g :: g in Order(t) <==> exists j :: j in t.span && Leader(t, j) == g
    ensures forall g :: g in Order(t) ==> Members(t, g) != {} && Members(t, g) <= t.span
    ensures forall g, h :: g in Order(t) && h in Order(t) && g != h ==> Members(t, g) !! Members(t, h)
    ensures forall j :: j in t.span ==> exists g :: g in Order(t) && j in Members(t, g)
  {
    OrderHas(t, t.n);
    forall g | g in Order(t) ensures Members(t, g) != {} && exists j :: j in t.span && Leader(t, j) == g {
      var k :| 0 <= k < |Order(t)| && Order(t)[k] == g;
      var j :| j in t.span && j < t.n && Leader(t, j) == g;
      assert j in Members(t, g);
    }
    forall j | j in t.span ensures exists g :: g in Order(t) && j in Members(t, g) {
      assert j in Members(t, Leader(t, j));
    }
  }

  /** When the child domains partition the span, the mask of each group is the span of its child domain. */
  lemma GroupIsChildSpan(t: Topology, i: nat)
    requires ChildrenPartition(t) && i in t.span
    ensures Members(t, Leader(t, i)) == if i in t.child then t.child[i] else {i}
  {
    var g := Leader(t, i);
    forall j ensures j in Members(t, g) <==> j in (if i in t.child then t.child[i] else {i}) {
      if j in Members(t, g) {
        if i in t.child {
          assert g in t.child[i];
        }
        if j in t.child {
          assert g in t.child[j];
        }
      }
    }
  }

  /** Child domains that partition the span become its groups: each CPU's group is its child domain. */
  lemma ChildDomainsAreGroups(t: Topology)
    requires ChildrenPartition(t)
    ensures Fits(t) && NoDup(Order(t))
    ensures forall i, g :: i in t.span && g in Order(t) ==>
              (i in Members(t, g) <==> Members(t, g) == if i in t.child then t.child[i] else {i})
    ensures forall i :: i in t.span ==> Leader(t, i) in Order(t)
  {
    PartitionFits(t);
    GroupsPartitionSpan(t);
    forall i, g | i in t.span && g in Order(t)
      ensures i in Members(t, g) <==> Members(t, g) == if i in t.child then t.child[i] else {i}
    {
      GroupIsChildSpan(t, i);
    }
  }

  // ---- the circular list ----

  /** The nodes of order, each linked to the following one and the last to the first. */
  ghost predicate Circle(order: seq<nat>, next: seq<int>)
  {
    && order != [] && NoDup(order)
    && (forall k :: 0 <= k < |order| ==> order[k] < |next|)
    && (forall k :: 0 <= k < |order| - 1 ==> next[order[k]] == order[k + 1])
    && next[order[|order| - 1]] == order[0]
  }

  function Rotated(order: seq<nat>, k: nat): seq<nat>
    requires k <= |order|
  {
    order[k..] + order[..k]
  }

  /** A circle can be entered anywhere. */
  lemma EnterCircle(order: seq<nat>, next: seq<int>, k: nat)
    requires Circle(order, next) && k < |order|
    ensures Circle(Rotated(order, k), next) && Rotated(order, k)[0] == order[k]
    ensures forall x :: x in Rotated(order, k) <==> x in order
  {
    var r, n := Rotated(order, k), |order|;
    RotatedNoDup(order, k);
    assert order == order[..k] + order[k..];
    forall i | 0 <= i < n
      ensures r[i] < |next| && (i < n - 1 ==> next[r[i]] == r[i + 1]) && (i == n - 1 ==> next[r[i]] == r[0])
    {
      RotatedStep(order, next, k, i);
    }
    hide NoDup, Rotated;
  }

  lemma RotatedStep(order: seq<nat>, next: seq<int>, k: nat, i: nat)
    requires Circle(order, next) && k < |order| && i < |order|
    ensures var r := Rotated(order, k); r[i] < |next| && next[r[i]] == r[if i == |order| - 1 then 0 else i + 1]
  {
    RotatedAt(order, k);
    var at := if i < |order| - k then i + k else i + k - |order|;
    assert Rotated(order, k)[i] == order[at];
    CircleStep(order, next, at);
    hide Circle, Rotated;
  }

  lemma RotatedNoDup(order: seq<nat>, k: nat)
    requires NoDup(order) && k < |order|
    ensures NoDup(Rotated(order, k))
  {
    var r, n := Rotated(order, k), |order|;
    RotatedAt(order, k);
    hide Rotated;
    forall i, j | 0 <= i < j < n ensures r[i] != r[j] {
      var a, b := if i < n - k then i + k else i + k - n, if j < n - k then j + k else j + k - n;
      assert r[i] == order[a] && r[j] == order[b] && a != b;
    }
  }

  /** Following the link from the k-th node leads back to the start from the last node only. */
  lemma CircleStep(order: seq<nat>, next: seq<int>, k: nat)
    requires Circle(order, next) && k < |order|
    ensures next[order[k]] == order[0] <==> k == |order| - 1
    ensures k < |order| - 1 ==> next[order[k]] == order[k + 1]
  {
    if k < |order| - 1 {
      assert order[0] != order[k + 1];
    }
  }

  lemma RotatedAt(order: seq<nat>, k: nat)
    requires k < |order|
    ensures |Rotated(order, k)| == |order|
    ensures forall i :: 0 <= i < |order| ==>
            Rotated(order, k)[i] == order[if i < |order| - k then i + k else i + k - |order|]
  {}

  /** What build_sched_groups leaves behind: the list of groups, and in each the processors that share it. */
  ghost predicate Built(t: Topology, mask: seq<set<nat>>, next: seq<int>)
  {
    Circle(Order(t), next) && |mask| == |next| && forall g :: g in Order(t) ==> mask[g] == Members(t, g)
  }

  /** The list while it is being built: not yet closed. */
  ghost predicate Linked(t: Topology, order: seq<nat>, mask: seq<set<nat>>, next: seq<int>)
  {
    && |mask| == |next| && NoDup(order)
    && (forall k :: 0 <= k < |order| ==> order[k] < |mask| && mask[order[k]] == Members(t, order[k]))
    && (forall k :: 0 <= k < |order| - 1 ==> next[order[k]] == order[k + 1])
  }

  function Covered(t: Topology, order: seq<nat>): set<nat>
  {
    set x | x in t.span && Leader(t, x) in order
  }

  function LinkLast(next: seq<int>, last: int, g: nat): seq<int>
    requires last < |next|
  {
    if last < 0 then next else next[last := g]
  }

  lemma LinkedAdd(t: Topology, order: seq<nat>, g: nat, mask: seq<set<nat>>, next: seq<int>)
    requires Linked(t, order, mask, next) && g < |mask| && g !in order
    ensures var last: int := if order == [] then -1 else order[|order| - 1];
            Linked(t, order + [g], mask[g := Members(t, g)], LinkLast(next, last, g))
    ensures Covered(t, order + [g]) == Covered(t, order) + Members(t, g)
  {
    hide Leader;
  }

  lemma LinkedClose(t: Topology, order: seq<nat>, mask: seq<set<nat>>, next: seq<int>)
    requires Linked(t, order, mask, next) && order != [] && order == Order(t)
    ensures Built(t, mask, next[order[|order| - 1] := order[0]])
  {
    hide Members, Order;
  }

  /** The groups of the list have no power yet. */
  ghost predicate NoPower(order: seq<nat>, power: seq<nat>)
  {
    forall g :: g in order ==> g < |power| && power[g] == 0
  }

  lemma NoPowerAdd(order: seq<nat>, g: nat, power: seq<nat>)
    requires NoPower(order, power) && g < |power|
    ensures NoPower(order + [g], power[g := 0])
  {}

  /** One group's entry in the table. */
  datatype Entry = Entry(mask: set<nat>, power: nat, next: int)

  /** What the debug walk looks for, of the groups on a list. */
  ghost predicate Sound(order: seq<nat>, span: set<nat>, cpu: nat, mask: seq<set<nat>>, power: seq<nat>)
    requires forall k :: 0 <= k < |order| ==> order[k] < |mask| && order[k] < |power|
  {
    && order != [] && cpu in span && cpu in mask[order[0]]
    && WalkOk(order, |order|, mask, power)
    && Union(mask, order) == span
  }

  /** The first n groups have processors and power, and no processor is in two of them. */
  ghost predicate WalkOk(order: seq<nat>, n: nat, mask: seq<set<nat>>, power: seq<nat>)
    requires n <= |order| && forall k :: 0 <= k < |order| ==> order[k] < |mask| && order[k] < |power|
  {
    && (forall k :: 0 <= k < n ==> mask[order[k]] != {} && power[order[k]] != 0)
    && (forall j, k :: 0 <= j < k < n ==> mask[order[j]] !! mask[order[k]])
  }

  lemma WalkStep(order: seq<nat>, n: nat, mask: seq<set<nat>>, power: seq<nat>)
    requires n < |order| && forall k :: 0 <= k < |order| ==> order[k] < |mask| && order[k] < |power|
    requires WalkOk(order, n, mask, power)
    ensures WalkOk(order, n + 1, mask, power) <==>
              mask[order[n]] != {} && power[order[n]] != 0 && Union(mask, order[..n]) * mask[order[n]] == {}
    ensures WalkOk(order, |order|, mask, power) ==> WalkOk(order, n + 1, mask, power)
    ensures Union(mask, order[..n + 1]) == Union(mask, order[..n]) + mask[order[n]]
  {
    UnionMeets(mask, order, n);
    assert order[..n + 1][..n] == order[..n];
  }

  ghost function Union(mask: seq<set<nat>>, order: seq<nat>): set<nat>
    requires forall k :: 0 <= k < |order| ==> order[k] < |mask|
  {
    if order == [] then {} else Union(mask, order[..|order| - 1]) + mask[order[|order| - 1]]
  }

  lemma {:induction false} UnionHas(mask: seq<set<nat>>, order: seq<nat>, x: nat)
    requires forall k :: 0 <= k < |order| ==> order[k] < |mask|
    ensures x in Union(mask, order) <==> exists k :: 0 <= k < |order| && x in mask[order[k]]
  {
    if order != [] {
      var n := |order| - 1;
      UnionHas(mask, order[..n], x);
      if x in Union(mask, order[..n]) {
        var k :| 0 <= k < n && x in mask[order[..n][k]];
        assert x in mask[order[k]];
      }
      if k :| 0 <= k < |order| && x in mask[order[k]] && k < n {
        assert order[..n][k] == order[k];
      }
    }
  }

  /** The list that was built passes the debug walk from the group of any processor of the span. */
  lemma BuiltIsSound(t: Topology, cpu: nat, k: nat, mask: seq<set<nat>>, next: seq<int>, power: seq<nat>)
    requires Fits(t) && cpu in t.span && Built(t, mask, next) && |power| == |mask|
    requires k < |Order(t)| && Order(t)[k] == Leader(t, cpu)
    requires forall g :: g in Order(t) ==> power[g] != 0
    ensures var o := Rotated(Order(t), k);
            Circle(o, next) && o[0] == Leader(t, cpu) && Sound(o, t.span, cpu, mask, power)
  {
    var o := Rotated(Order(t), k);
    EnterCircle(Order(t), next, k);
    GroupsPartitionSpan(t);
    forall i | 0 <= i < |o| ensures mask[o[i]] == Members(t, o[i]) && mask[o[i]] != {} && power[o[i]] != 0 {
      assert o[i] in o;
    }
    forall x ensures x in Union(mask, o) <==> x in t.span {
      UnionHas(mask, o, x);
      if x in t.span {
        var g :| g in Order(t) && x in Members(t, g);
        assert g in o;
      }
    }
  }

  /** For child domains that partition the span: the walk passes from any CPU, and every group is a child domain. */
  lemma ChildDomainsPassDebug(t: Topology, cpu: nat, mask: seq<set<nat>>, next: seq<int>, power: seq<nat>)
    returns (k: nat)
    requires ChildrenPartition(t) && cpu in t.span && Built(t, mask, next) && |power| == |mask|
    requires forall g :: g in Order(t) ==> power[g] != 0
    ensures k < |Order(t)| && Order(t)[k] == Leader(t, cpu)
    ensures var o := Rotated(Order(t), k); Circle(o, next) && Sound(o, t.span, cpu, mask, power)
    ensures mask[Leader(t, cpu)] == if cpu in t.child then t.child[cpu] else {cpu}
  {
    ChildDomainsAreGroups(t);
    GroupIsChildSpan(t, cpu);
    k :| 0 <= k < |Order(t)| && Order(t)[k] == Leader(t, cpu);
    hide Members, Order, ChildrenPartition;
    BuiltIsSound(t, cpu, k, mask, next, power);
  }

  datatype Complaint =
    | NoBalanceHasParent | SpanLacksCpu | GroupsLackCpu | PowerNotSet | EmptyGroup | RepeatedCpus | GroupsDontSpan
    | ParentTooSmall

  /** The groups of one level, indexed by leader; next is -1 until linked. */
  class GroupTable {
    const mask: array<set<nat>>
    const power: array<nat>
    const next: array<int>
    const sdGroups: array<nat>

    ghost predicate Valid()
    {
      mask.Length == power.Length == next.Length == sdGroups.Length && power != sdGroups
    }

    constructor (n: nat)
      ensures Valid() && mask.Length == n && fresh(mask) && fresh(power) && fresh(next) && fresh(sdGroups)
    {
      mask := new set<nat>[n](_ => {});
      power := new nat[n](_ => 0);
      next := new int[n](_ => -1);
      sdGroups := new nat[n](_ => 0);
    }

    /** The inner loop: everyone who shares group g joins its mask and counts as covered. */
    method Collect(t: Topology, g: nat, covered: set<nat>) returns (c: set<nat>)
      requires Valid() && Fits(t) && t.n == mask.Length && g < t.n
      modifies mask, power
      ensures mask[..] == old(mask[..])[g := Members(t, g)] && power[..] == old(power[..])[g := 0]
      ensures c == covered + Members(t, g)
    {
      mask[g] := {};
      power[g] := 0;
      c := covered;
      MembersBelowNext(t, g, 0);
      var j := 0;
      while j < t.n
        invariant 0 <= j <= t.n
        invariant mask[..] == old(mask[..])[g := MembersBelow(t, g, j)]
        invariant c == covered + MembersBelow(t, g, j)
        modifies mask
      {
        MembersBelowNext(t, g, j);
        hide MembersBelow, Leader;
        if j in t.span && Leader(t, j) == g {
          c := c + {j};
          mask[g] := mask[g] + {j};
        }
        j := j + 1;
      }
    }

    method BuildSchedGroups(t: Topology, cpu: nat)
      requires Valid() && Fits(t) && t.n == mask.Length && cpu in t.span
      modifies mask, power, next, sdGroups
      ensures sdGroups[..] == old(sdGroups[..])[cpu := Leader(t, cpu)]
      ensures cpu != FirstFrom(t.span, 0, t.n) ==>
              mask[..] == old(mask[..]) && power[..] == old(power[..]) && next[..] == old(next[..])
      ensures cpu == FirstFrom(t.span, 0, t.n) ==> Built(t, mask[..], next[..]) && Order(t)[0] == Leader(t, cpu)
      ensures cpu == FirstFrom(t.span, 0, t.n) ==> NoPower(Order(t), power[..])
      ensures cpu == FirstFrom(t.span, 0, t.n) ==>
              forall g :: 0 <= g < t.n && g !in Order(t) ==> EntryAt(g) == old(EntryAt(g))
    {
      sdGroups[cpu] := Leader(t, cpu);
      if cpu != FirstFrom(t.span, 0, t.n) {
        return;
      }
      var first: int, last: int, covered: set<nat> := -1, -1, {};
      var i := 0;
      ghost var order := [];
      while i < t.n
        invariant 0 <= i <= t.n && order == OrderUpTo(t, i)
        invariant i <= cpu ==> order == []
        invariant cpu < i ==> order != [] && order[0] == Leader(t, cpu)
        invariant covered == Covered(t, order)
        invariant first == (if order == [] then -1 else order[0])
        invariant last == (if order == [] then -1 else order[|order| - 1])
        invariant Linked(t, order, mask[..], next[..])
        invariant NoPower(order, power[..])
        invariant forall g :: 0 <= g < t.n && g !in order ==> EntryAt(g) == old(EntryAt(g))
        modifies mask, power, next
      {
        if i in t.span && i !in covered {
          var group := Leader(t, i);
          LinkedAdd(t, order, group, mask[..], next[..]);
          NoPowerAdd(order, group, power[..]);
          hide Linked, NoDup, Members, Covered, NoPower;
          covered := AddGroup(t, group, last, covered);
          first := if first == -1 then group else first;
          last := group;
          order := order + [group];
        }
        i := i + 1;
      }
      LinkedClose(t, order, mask[..], next[..]);
      next[last] := first;
    }

    ghost function EntryAt(g: nat): Entry
      reads mask, power, next
      requires Valid() && g < mask.Length
    {
      Entry(mask[g], power[g], next[g])
    }

    /** Fills one group in and links it to the last one. */
    method AddGroup(t: Topology, g: nat, last: int, covered: set<nat>) returns (c: set<nat>)
      requires Valid() && Fits(t) && t.n == mask.Length && g < t.n && last < t.n
      modifies mask, power, next
      ensures mask[..] == old(mask[..])[g := Members(t, g)] && next[..] == LinkLast(old(next[..]), last, g)
      ensures c == covered + Members(t, g) && power[..] == old(power[..])[g := 0]
      ensures forall h :: 0 <= h < t.n && h != g && h != last ==> EntryAt(h) == old(EntryAt(h))
    {
      c := Collect(t, g, covered);
      if last >= 0 {
        next[last] := g;
      }
    }

    /** sched_domain_debug_one; the list is known to be a circle, entered at order[0]. */
    method SchedDomainDebugOne(span: set<nat>, parentSpan: Option<set<nat>>, loadBalance: bool, cpu: nat,
        ghost order: seq<nat>)
      returns (ret: int, complaints: seq<Complaint>)
      requires Valid() && cpu < mask.Length && Circle(order, next[..]) && sdGroups[cpu] == order[0]
      ensures ret == if loadBalance then 0 else -1
      ensures complaints == [] <==>
                if loadBalance then
                  Sound(order, span, cpu, mask[..], power[..]) && (parentSpan.Some? ==> span <= parentSpan.value)
                else parentSpan.None?
    {
      if !loadBalance {
        return -1, if parentSpan.Some? then [NoBalanceHasParent] else [];
      }
      var groupmask;
      groupmask, complaints := WalkGroups(span, cpu, order);
      if parentSpan.Some? && !(groupmask <= parentSpan.value) {
        complaints := complaints + [ParentTooSmall];
      }
      return 0, complaints;
    }

    /** Its part on the groups: the mask they make up, and what is wrong with them. */
    method WalkGroups(span: set<nat>, cpu: nat, ghost order: seq<nat>)
      returns (groupmask: set<nat>, complaints: seq<Complaint>)
      requires Valid() && cpu < mask.Length && Circle(order, next[..]) && sdGroups[cpu] == order[0]
      ensures complaints == [] <==> Sound(order, span, cpu, mask[..], power[..])
      ensures complaints == [] ==> groupmask == span
    {
      var group := sdGroups[cpu];
      complaints := [];
      if cpu !in span {
        complaints := complaints + [SpanLacksCpu];
      }
      if cpu !in mask[group] {
        complaints := complaints + [GroupsLackCpu];
      }
      var bad := complaints;
      groupmask := {};
      ghost var k := 0;
      assert forall i :: 0 <= i < |order| ==> order[i] < mask.Length;
      assert order[..|order|] == order;
      assert Union(mask[..], order[..0]) == {} && WalkOk(order, 0, mask[..], power[..]);
      hide WalkOk, Union, NoDup, Circle;
      while true
        invariant 0 <= k < |order| && group == order[k] && bad == complaints
        invariant groupmask == Union(mask[..], order[..k])
        invariant WalkOk(order, k, mask[..], power[..])
        decreases |order| - k
      {
        WalkStep(order, k, mask[..], power[..]);
        if power[group] == 0 {
          complaints := complaints + [PowerNotSet];
          break;
        }
        if mask[group] == {} {
          complaints := complaints + [EmptyGroup];
          break;
        }
        if groupmask * mask[group] != {} {
          complaints := complaints + [RepeatedCpus];
          break;
        }
        groupmask := groupmask + mask[group];
        CircleStep(order, next[..], k);
        group := next[group];
        k := k + 1;
        if group == sdGroups[cpu] {
          assert order[..k] == order;
          break;
        }
      }
      if span != groupmask {
        complaints := complaints + [GroupsDontSpan];
      }
    }
  }

  lemma UnionMeets(mask: seq<set<nat>>, order: seq<nat>, k: nat)
    requires k < |order| && forall i :: 0 <= i < |order| ==> order[i] < |mask|
    ensures Union(mask, order[..k]) * mask[order[k]] == {} <==>
            forall i :: 0 <= i < k ==> mask[order[i]] !! mask[order[k]]
  {
    forall i, x | 0 <= i < k && x in mask[order[i]] ensures x in Union(mask, order[..k]) {
      assert order[..k][i] == order[i];
      UnionHas(mask, order[..k], x);
    }
    forall x | x in Union(mask, order[..k]) ensures exists i :: 0 <= i < k && x in mask[order[i]] {
      UnionHas(mask, order[..k], x);
      var i :| 0 <= i < k && x in mask[order[..k][i]];
      assert order[..k][i] == order[i];
    }
    var u := Union(mask, order[..k]);
    if u * mask[order[k]] != {} {
      var x :| x in u * mask[order[k]];
      var i :| 0 <= i < k && x in mask[order[i]];
      assert x in mask[order[i]] * mask[order[k]];
    } else {
      forall i, x | 0 <= i < k && x in mask[order[i]] ensures x !in mask[order[k]] {
        assert x !in u * mask[order[k]];
      }
    }
  }
}
