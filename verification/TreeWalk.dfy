/**
 The task-group tree and the iterative walk over it, which keeps no stack and finds its
 way back up through the parent pointers.
 */
module TreeWalk {

  type Group = nat

  /** children lists are in sibling order; rank witnesses that the tree is finite. */
  datatype Tree = Tree(children: map<Group, seq<Group>>, parent: map<Group, Group>, rank: map<Group, nat>) {
    function Kids(g: Group): seq<Group> { if g in children then children[g] else [] }

    function Rank(g: Group): nat { if g in rank then rank[g] else 0 }
  }

  /** Parent pointers and child lists agree, no group is listed twice, and ranks fall towards the leaves. */
  ghost predicate WellFormed(t: Tree) {
    && (forall g, i {:trigger t.Kids(g)[i]} :: 0 <= i < |t.Kids(g)| ==>
         t.Kids(g)[i] in t.parent && t.parent[t.Kids(g)[i]] == g && t.Rank(t.Kids(g)[i]) < t.Rank(g))
    && (forall g, i, j {:trigger t.Kids(g)[i], t.Kids(g)[j]} :: 0 <= i < j < |t.Kids(g)| ==>
         t.Kids(g)[i] != t.Kids(g)[j])
    && (forall g {:trigger t.parent[g]} :: g in t.parent ==> g in t.Kids(t.parent[g]))
  }

  /** A visit: entering a group or leaving it for the last time. */
  datatype Event = Down(g: Group) | Up(g: Group)

  /** What the recursive walk does in the subtree of g: preorder visits down, postorder visits up. */
  function Events(t: Tree, g: Group): seq<Event>
    requires WellFormed(t)
    decreases t.Rank(g), 1, 0
  {
    [Down(g)] + EventsFrom(t, g, 0) + [Up(g)]
  }

  /** The same for the children of g from the i-th on. */
  function EventsFrom(t: Tree, g: Group, i: nat): seq<Event>
    requires WellFormed(t) && i <= |t.Kids(g)|
    decreases t.Rank(g), 0, |t.Kids(g)| - i
  {
    if i == |t.Kids(g)| then [] else Events(t, t.Kids(g)[i]) + EventsFrom(t, g, i + 1)
  }

  /** Visitors read and update some data of type D and return an int; nonzero stops the walk. */
  datatype Visitors<!D> = Visitors(down: (Group, D) -> (D, int), up: (Group, D) -> (D, int)) {
    function Visit(e: Event, d: D): (D, int) {
      match e case Down(g) => down(g, d) case Up(g) => up(g, d)
    }
  }

  /** Make the visits in order, stopping at the first nonzero result. */
  function Perform<D>(v: Visitors<D>, es: seq<Event>, d: D): (D, int) {
    if es == [] then (d, 0)
    else
      var (d1, ret) := v.Visit(es[0], d);
      if ret != 0 then (d1, ret) else Perform(v, es[1..], d1)
  }

  function IndexOf(s: seq<Group>, x: Group): (i: nat)
    requires x in s
    ensures i < |s| && s[i] == x
  {
    if s[0] == x then 0 else 1 + IndexOf(s[1..], x)
  }

  /** g lies in the subtree of from: going up from g reaches from. */
  ghost predicate Below(t: Tree, from: Group, g: Group, fuel: nat)
    decreases fuel
  {
    g == from || (fuel > 0 && g in t.parent && Below(t, from, t.parent[g], fuel - 1))
  }

  /** What is left to do, after the subtree of g is finished, until the subtree of from is. */
  ghost function After(t: Tree, from: Group, g: Group, fuel: nat): seq<Event>
    requires WellFormed(t) && Below(t, from, g, fuel)
    decreases fuel
  {
    if g == from then []
    else
      var p := t.parent[g];
      EventsFrom(t, p, IndexOf(t.Kids(p), g) + 1) + [Up(p)] + After(t, from, p, fuel - 1)
  }

  lemma {:induction false} PerformConcat<D>(v: Visitors<D>, a: seq<Event>, b: seq<Event>, d: D)
    ensures Perform(v, a + b, d) ==
            if Perform(v, a, d).1 != 0 then Perform(v, a, d) else Perform(v, b, Perform(v, a, d).0)
  {
    if a == [] {
      assert a + b == b;
    } else {
      assert (a + b)[1..] == a[1..] + b;
      PerformConcat(v, a[1..], b, v.Visit(a[0], d).0);
    }
  }

  /** Where the jumps of the walk land. */
  datatype Label = AtDown | AtList | AtUp

  /** The visits still to come when control is at pc with the given loop variables. */
  ghost function Todo(t: Tree, from: Group, pc: Label, parent: Group, next: nat, fuel: nat): seq<Event>
    requires WellFormed(t) && Below(t, from, parent, fuel) && (pc == AtList ==> next <= |t.Kids(parent)|)
  {
    (match pc
     case AtDown => Events(t, parent)
     case AtList => EventsFrom(t, parent, next) + [Up(parent)]
     case AtUp => [Up(parent)])
    + After(t, from, parent, fuel)
  }

  lemma TodoDown(t: Tree, from: Group, parent: Group, fuel: nat)
    requires WellFormed(t) && Below(t, from, parent, fuel)
    ensures Todo(t, from, AtDown, parent, 0, fuel) == [Down(parent)] + Todo(t, from, AtList, parent, 0, fuel)
  {
  }

  lemma TodoEnd(t: Tree, from: Group, parent: Group, fuel: nat)
    requires WellFormed(t) && Below(t, from, parent, fuel)
    ensures Todo(t, from, AtList, parent, |t.Kids(parent)|, fuel) == Todo(t, from, AtUp, parent, 0, fuel)
  {
  }

  lemma TodoChild(t: Tree, from: Group, parent: Group, next: nat, fuel: nat)
    requires WellFormed(t) && Below(t, from, parent, fuel) && next < |t.Kids(parent)|
    ensures Below(t, from, t.Kids(parent)[next], fuel + 1)
    ensures Todo(t, from, AtList, parent, next, fuel) == Todo(t, from, AtDown, t.Kids(parent)[next], 0, fuel + 1)
  {
    var child := t.Kids(parent)[next];
    assert t.parent[child] == parent;
    ChildBelow(t, from, child, next, fuel);
    Regroup(Events(t, child), EventsFrom(t, parent, next + 1), [Up(parent)], After(t, from, parent, fuel));
  }

  lemma Regroup(a: seq<Event>, b: seq<Event>, c: seq<Event>, d: seq<Event>)
    ensures ((a + b) + c) + d == a + ((b + c) + d)
  {
  }

  lemma TodoUp(t: Tree, from: Group, parent: Group, fuel: nat)
    requires WellFormed(t) && Below(t, from, parent, fuel)
    ensures parent == from ==> Todo(t, from, AtUp, parent, 0, fuel) == [Up(from)]
    ensures parent != from ==>
              && parent in t.parent && fuel > 0 && Below(t, from, t.parent[parent], fuel - 1)
              && Todo(t, from, AtUp, parent, 0, fuel) ==
                 [Up(parent)] +
                 Todo(t, from, AtList, t.parent[parent], IndexOf(t.Kids(t.parent[parent]), parent) + 1, fuel - 1)
  {
  }

  /**
   walk_tg_tree_from with its goto labels as a program counter. AtDown is the label down; AtList is the head of
   the loop over the children of parent, about to look at its next-th child; AtUp is the code after that loop.
   Finding the successor of child in the sibling list is the step the source takes through its list node.
   */
  method WalkTgTreeFrom<D>(t: Tree, from: Group, v: Visitors<D>, d0: D) returns (d: D, ret: int)
    requires WellFormed(t)
    ensures (d, ret) == Walk(t, from, v, d0) == Perform(v, Events(t, from), d0)
  {
    WalkPerforms(t, from, v, d0);
    hide Walk, Events, EventsFrom, After, Below, Todo, WellFormed;
    var parent := from;
    var next: nat := 0;
    var pc := AtDown;
    d, ret := d0, 0;
    ghost var fuel: nat := 0;
    StartTodo(t, from);
    while true
      invariant Below(t, from, parent, fuel) && (pc == AtList ==> next <= |t.Kids(parent)|) &&
                (pc != AtList ==> next == 0)
      invariant Perform(v, Todo(t, from, pc, parent, next, fuel), d) == Perform(v, Events(t, from), d0)
      decreases |Todo(t, from, pc, parent, next, fuel)|, if pc == AtList then 1 else 0
    {
      match pc
      case AtDown =>
        TodoDown(t, from, parent, fuel);
        var r := v.down(parent, d);
        d, ret := r.0, r.1;
        if ret != 0 {
          return;
        }
        next, pc := 0, AtList;
      case AtList =>
        if next < |t.Kids(parent)| {
          TodoChild(t, from, parent, next, fuel);
          parent, next, pc, fuel := t.Kids(parent)[next], 0, AtDown, fuel + 1;
        } else {
          TodoEnd(t, from, parent, fuel);
          next, pc := 0, AtUp;
        }
      case AtUp =>
        TodoUp(t, from, parent, fuel);
        var r := v.up(parent, d);
        d, ret := r.0, r.1;
        if ret != 0 || parent == from {
          return;
        }
        var child := parent;
        parent := t.parent[child];
        next, pc, fuel := IndexOf(t.Kids(parent), child) + 1, AtList, fuel - 1;
    }
  }

  lemma StartTodo(t: Tree, from: Group)
    requires WellFormed(t)
    ensures Below(t, from, from, 0) && Todo(t, from, AtDown, from, 0, 0) == Events(t, from)
  {
  }

  lemma ChildBelow(t: Tree, from: Group, child: Group, i: nat, fuel: nat)
    requires WellFormed(t) && child in t.parent && i < |t.Kids(t.parent[child])| && t.Kids(t.parent[child])[i] == child
    requires Below(t, from, t.parent[child], fuel)
    ensures child != from && Below(t, from, child, fuel + 1)
    ensures After(t, from, child, fuel + 1) ==
              EventsFrom(t, t.parent[child], i + 1) + [Up(t.parent[child])] + After(t, from, t.parent[child], fuel)
  {
    var p := t.parent[child];
    assert IndexOf(t.Kids(p), child) == i;
    BelowRank(t, from, p, fuel);
  }

  lemma {:induction false} BelowRank(t: Tree, from: Group, g: Group, fuel: nat)
    requires WellFormed(t) && Below(t, from, g, fuel)
    ensures t.Rank(g) <= t.Rank(from)
    decreases fuel
  {
    if g != from {
      BelowRank(t, from, t.parent[g], fuel - 1);
    }
  }

  // ---- what the visits are ----

  /** The walk as one would write it with a call stack. */
  function Walk<D>(t: Tree, g: Group, v: Visitors<D>, d: D): (D, int)
    requires WellFormed(t)
    decreases t.Rank(g), 1, 0
  {
    var (d1, ret1) := v.down(g, d);
    if ret1 != 0 then (d1, ret1)
    else
      var (d2, ret2) := WalkKids(t, g, 0, v, d1);
      if ret2 != 0 then (d2, ret2) else v.up(g, d2)
  }

  function WalkKids<D>(t: Tree, g: Group, i: nat, v: Visitors<D>, d: D): (D, int)
    requires WellFormed(t) && i <= |t.Kids(g)|
    decreases t.Rank(g), 0, |t.Kids(g)| - i
  {
    if i == |t.Kids(g)| then (d, 0)
    else
      var (d1, ret) := Walk(t, t.Kids(g)[i], v, d);
      if ret != 0 then (d1, ret) else WalkKids(t, g, i + 1, v, d1)
  }

  /** The recursive walk makes exactly the listed visits, up to the first nonzero result. */
  lemma {:induction false} WalkPerforms<D>(t: Tree, g: Group, v: Visitors<D>, d: D)
    requires WellFormed(t)
    ensures Walk(t, g, v, d) == Perform(v, Events(t, g), d)
    decreases t.Rank(g), 1, 0
  {
    var kids := EventsFrom(t, g, 0);
    var (d1, ret1) := v.down(g, d);
    WalkKidsPerforms(t, g, 0, v, d1);
    PerformConcat(v, kids, [Up(g)], d1);
    PerformOne(v, Up(g), Perform(v, kids, d1).0);
    assert Events(t, g)[1..] == kids + [Up(g)];
  }

  lemma PerformOne<D>(v: Visitors<D>, e: Event, d: D)
    ensures Perform(v, [e], d) == v.Visit(e, d)
  {
    assert [e][1..] == [];
  }

  lemma {:induction false} WalkKidsPerforms<D>(t: Tree, g: Group, i: nat, v: Visitors<D>, d: D)
    requires WellFormed(t) && i <= |t.Kids(g)|
    ensures WalkKids(t, g, i, v, d) == Perform(v, EventsFrom(t, g, i), d)
    decreases t.Rank(g), 0, |t.Kids(g)| - i
  {
    if i < |t.Kids(g)| {
      var c := t.Kids(g)[i];
      WalkPerforms(t, c, v, d);
      WalkKidsPerforms(t, g, i + 1, v, Walk(t, c, v, d).0);
      PerformConcat(v, Events(t, c), EventsFrom(t, g, i + 1), d);
    }
  }

  /** g is from or one of its descendants. */
  ghost predicate InSubtree(t: Tree, from: Group, g: Group) {
    exists n: nat :: Below(t, from, g, n)
  }

  lemma {:induction false} BelowMore(t: Tree, from: Group, g: Group, n: nat, m: nat)
    requires Below(t, from, g, n) && n <= m
    ensures Below(t, from, g, m)
    decreases n
  {
    if g != from {
      BelowMore(t, from, t.parent[g], n - 1, m - 1);
    }
  }

  lemma {:induction false} BelowTrans(t: Tree, a: Group, b: Group, c: Group, n: nat, m: nat)
    requires Below(t, a, b, n) && Below(t, b, c, m)
    ensures Below(t, a, c, n + m)
    decreases m
  {
    if c == b {
      BelowMore(t, a, b, n, n + m);
    } else {
      BelowTrans(t, a, b, t.parent[c], n, m - 1);
    }
  }

  /** Going up from x, whichever of a and b comes first has the other above it. */
  lemma {:induction false} Comparable(t: Tree, a: Group, b: Group, x: Group, n: nat, m: nat)
    requires Below(t, a, x, n) && Below(t, b, x, m)
    ensures Below(t, a, b, n) || Below(t, b, a, m)
    decreases n
  {
    if x != a && x != b {
      Comparable(t, a, b, t.parent[x], n - 1, m - 1);
      if Below(t, a, b, n - 1) {
        BelowMore(t, a, b, n - 1, n);
      } else {
        BelowMore(t, b, a, m - 1, m);
      }
    }
  }

  /** Subtrees of different children of a group have nothing in common. */
  lemma SiblingsApart(t: Tree, g: Group, i: nat, j: nat, x: Group)
    requires WellFormed(t) && i < j < |t.Kids(g)|
    ensures !InSubtree(t, t.Kids(g)[i], x) || !InSubtree(t, t.Kids(g)[j], x)
  {
    var a, b := t.Kids(g)[i], t.Kids(g)[j];
    if InSubtree(t, a, x) && InSubtree(t, b, x) {
      var n: nat :| Below(t, a, x, n);
      var m: nat :| Below(t, b, x, m);
      Comparable(t, a, b, x, n, m);
      if Below(t, a, b, n) {
        BelowRank(t, a, g, n - 1);
      } else {
        BelowRank(t, b, g, m - 1);
      }
    }
  }

  /** Everything visited is in the subtree. */
  lemma {:induction false} VisitedBelow(t: Tree, g: Group, e: Event)
    requires WellFormed(t) && e in Events(t, g)
    ensures InSubtree(t, g, e.g)
    decreases t.Rank(g), 1, 0
  {
    if e == Down(g) || e == Up(g) {
      assert Below(t, g, g, 0);
    } else {
      KidsVisitedBelow(t, g, 0, e);
      var k :| 0 <= k < |t.Kids(g)| && InSubtree(t, t.Kids(g)[k], e.g);
      var c := t.Kids(g)[k];
      var n: nat :| Below(t, c, e.g, n);
      assert t.parent[c] == g;
      assert Below(t, g, g, 0);
      assert Below(t, g, c, 1);
      BelowTrans(t, g, c, e.g, 1, n);
    }
  }

  lemma {:induction false} KidsVisitedBelow(t: Tree, g: Group, i: nat, e: Event)
    requires WellFormed(t) && i <= |t.Kids(g)| && e in EventsFrom(t, g, i)
    ensures exists k :: i <= k < |t.Kids(g)| && InSubtree(t, t.Kids(g)[k], e.g)
    decreases t.Rank(g), 0, |t.Kids(g)| - i
  {
    if e in Events(t, t.Kids(g)[i]) {
      VisitedBelow(t, t.Kids(g)[i], e);
    } else {
      KidsVisitedBelow(t, g, i + 1, e);
    }
  }

  /** Everything in the subtree is visited, on the way down and on the way up. */
  lemma {:induction false} BelowVisited(t: Tree, from: Group, g: Group, n: nat)
    requires WellFormed(t) && Below(t, from, g, n)
    ensures Down(g) in Events(t, from) && Up(g) in Events(t, from)
    decreases n
  {
    if g != from {
      var p := t.parent[g];
      BelowVisited(t, from, p, n - 1);
      EventsClosed(t, from, p, g);
    }
  }

  /** Where a group is visited its children are visited. */
  lemma {:induction false} EventsClosed(t: Tree, from: Group, p: Group, g: Group)
    requires WellFormed(t) && Down(p) in Events(t, from) && g in t.Kids(p)
    ensures Down(g) in Events(t, from) && Up(g) in Events(t, from)
    decreases t.Rank(from), 1, 0
  {
    if p == from {
      KidListed(t, p, 0, IndexOf(t.Kids(p), g));
    } else {
      KidsClosed(t, from, 0, p, g);
    }
  }

  lemma {:induction false} KidListed(t: Tree, p: Group, i: nat, k: nat)
    requires WellFormed(t) && i <= k < |t.Kids(p)|
    ensures Down(t.Kids(p)[k]) in EventsFrom(t, p, i) && Up(t.Kids(p)[k]) in EventsFrom(t, p, i)
    decreases k - i
  {
    var c := t.Kids(p)[i];
    var kids := EventsFrom(t, c, 0);
    assert Events(t, c)[0] == Down(c) && Events(t, c)[|kids| + 1] == Up(c);
    hide Events;
    assert EventsFrom(t, p, i) == Events(t, c) + EventsFrom(t, p, i + 1);
    if i < k {
      KidListed(t, p, i + 1, k);
    }
  }

  lemma {:induction false} KidsClosed(t: Tree, from: Group, i: nat, p: Group, g: Group)
    requires WellFormed(t) && i <= |t.Kids(from)| && Down(p) in EventsFrom(t, from, i) && g in t.Kids(p)
    ensures Down(g) in EventsFrom(t, from, i) && Up(g) in EventsFrom(t, from, i)
    decreases t.Rank(from), 0, |t.Kids(from)| - i
  {
    if Down(p) in Events(t, t.Kids(from)[i]) {
      EventsClosed(t, t.Kids(from)[i], p, g);
    } else {
      KidsClosed(t, from, i + 1, p, g);
    }
  }

  /** The walk enters and leaves exactly the groups of the subtree of from. */
  lemma VisitsSubtree(t: Tree, from: Group, g: Group)
    requires WellFormed(t)
    ensures Down(g) in Events(t, from) <==> InSubtree(t, from, g)
    ensures Up(g) in Events(t, from) <==> InSubtree(t, from, g)
  {
    if InSubtree(t, from, g) {
      var n: nat :| Below(t, from, g, n);
      BelowVisited(t, from, g, n);
    }
    if Down(g) in Events(t, from) {
      VisitedBelow(t, from, Down(g));
    }
    if Up(g) in Events(t, from) {
      VisitedBelow(t, from, Up(g));
    }
  }

  ghost predicate NoRepeat(es: seq<Event>) {
    forall i, j :: 0 <= i < j < |es| ==> es[i] != es[j]
  }

  lemma NoRepeatConcat(a: seq<Event>, b: seq<Event>)
    requires NoRepeat(a) && NoRepeat(b) && forall e :: e in a ==> e !in b
    ensures NoRepeat(a + b)
  {
    forall i, j | 0 <= i < j < |a + b|
      ensures (a + b)[i] != (a + b)[j]
    {
      if i < |a| <= j {
        assert a[i] in a && b[j - |a|] in b;
      }
    }
  }

  /** Each of them once. */
  lemma {:induction false} VisitsOnce(t: Tree, g: Group)
    requires WellFormed(t)
    ensures NoRepeat(Events(t, g))
    decreases t.Rank(g), 1, 0
  {
    var kids := EventsFrom(t, g, 0);
    KidsOnce(t, g, 0);
    forall e | e in kids
      ensures e.g != g
    {
      KidsVisitedBelow(t, g, 0, e);
      var k :| 0 <= k < |t.Kids(g)| && InSubtree(t, t.Kids(g)[k], e.g);
      var n: nat :| Below(t, t.Kids(g)[k], e.g, n);
      BelowRank(t, t.Kids(g)[k], e.g, n);
    }
    NoRepeatConcat([Down(g)], kids);
    NoRepeatConcat([Down(g)] + kids, [Up(g)]);
  }

  lemma {:induction false} KidsOnce(t: Tree, g: Group, i: nat)
    requires WellFormed(t) && i <= |t.Kids(g)|
    ensures NoRepeat(EventsFrom(t, g, i))
    decreases t.Rank(g), 0, |t.Kids(g)| - i
  {
    if i < |t.Kids(g)| {
      var c := t.Kids(g)[i];
      VisitsOnce(t, c);
      KidsOnce(t, g, i + 1);
      forall e | e in Events(t, c)
        ensures e !in EventsFrom(t, g, i + 1)
      {
        VisitedBelow(t, c, e);
        if e in EventsFrom(t, g, i + 1) {
          KidsVisitedBelow(t, g, i + 1, e);
          var k :| i + 1 <= k < |t.Kids(g)| && InSubtree(t, t.Kids(g)[k], e.g);
          SiblingsApart(t, g, i, k, e.g);
        }
      }
      NoRepeatConcat(Events(t, c), EventsFrom(t, g, i + 1));
    }
  }
}
