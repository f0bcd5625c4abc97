/**
 The process tree, written into a user buffer in preorder and read back by the program that prints it.
 */
module PsTree {
  import opened Common

  datatype Proc = Proc(pid: int, state: int, uid: int, comm: string, children: seq<Proc>)

  /** struct prinfo; comm stands for the characters before its NUL. */
  datatype Record = Record(parentPid: int, pid: int, firstChildPid: int, nextSiblingPid: int, state: int, uid: int,
                           comm: string, layer: int)

  const SENTINEL := "Finish here!"

  function FirstChild(p: Proc): int { if p.children == [] then 0 else p.children[0].pid }

  /** The record of child i of p. */
  function RecordOf(p: Proc, i: nat, layer: nat): Record
    requires i < |p.children|
  {
    var c := p.children[i];
    Record(p.pid, c.pid, FirstChild(c), if i + 1 < |p.children| then p.children[i + 1].pid else 0,
           c.state, c.uid, c.comm, layer)
  }

  /** Preorder below p, from child i on. */
  function Walk(p: Proc, i: nat, layer: nat): seq<Record>
    requires i <= |p.children|
    decreases p, |p.children| - i
  {
    if i == |p.children| then []
    else [RecordOf(p, i, layer)] + Walk(p.children[i], 0, layer + 1) + Walk(p, i + 1, layer)
  }

  /** The processes below p from child i on, parents before children, in list order. */
  function Below(p: Proc, i: nat): seq<Proc>
    requires i <= |p.children|
    decreases p, |p.children| - i
  {
    if i == |p.children| then [] else [p.children[i]] + Below(p.children[i], 0) + Below(p, i + 1)
  }

  /** A record that shows a process as it is. */
  predicate Shows(x: Record, p: Proc)
  {
    && x.pid == p.pid && x.state == p.state && x.uid == p.uid && x.comm == p.comm
    && x.firstChildPid == if p.children == [] then 0 else p.children[0].pid
  }

  ghost predicate ShowsAll(w: seq<Record>, ps: seq<Proc>)
  {
    |w| == |ps| && forall k :: 0 <= k < |w| ==> Shows(w[k], ps[k])
  }

  lemma {:induction false} WalkShows(p: Proc, i: nat, layer: nat)
    requires i <= |p.children|
    ensures ShowsAll(Walk(p, i, layer), Below(p, i))
    decreases p, |p.children| - i
  {
    if i < |p.children| {
      var c := p.children[i];
      WalkShows(c, 0, layer + 1);
      WalkShows(p, i + 1, layer);
      ShowsConcat([RecordOf(p, i, layer)], [c], Walk(c, 0, layer + 1), Below(c, 0));
      ShowsConcat([RecordOf(p, i, layer)] + Walk(c, 0, layer + 1), [c] + Below(c, 0), Walk(p, i + 1, layer),
          Below(p, i + 1));
    }
  }

  lemma ShowsConcat(v: seq<Record>, ps: seq<Proc>, w: seq<Record>, qs: seq<Proc>)
    requires ShowsAll(v, ps) && ShowsAll(w, qs)
    ensures ShowsAll(v + w, ps + qs)
  {}

  /** Record k of the walk shows process k of the tree: its own pid, state, uid, name and first child. */
  lemma PreorderShows(root: Proc)
    ensures ShowsAll(Preorder(root), [root] + Below(root, 0))
  {
    WalkShows(root, 0, 1);
    ShowsConcat(Preorder(root)[..1], [root], Walk(root, 0, 1), Below(root, 0));
  }

  /** The whole tree, the root at layer 0. */
  function Preorder(root: Proc): seq<Record>
  {
    [Record(0, root.pid, FirstChild(root), 0, root.state, root.uid, root.comm, 0)] + Walk(root, 0, 1)
  }

  /** Records stored from position at on, until nr are stored. */
  function Fill(b: seq<Record>, at: nat, nr: int, w: seq<Record>): seq<Record>
    requires nr <= |b|
    decreases |w|
  {
    if w == [] || at >= nr then b else Fill(b[at := w[0]], at + 1, nr, w[1..])
  }

  function Advance(at: nat, nr: int, n: nat): nat { if at >= nr then at else if at + n < nr then at + n else nr }

  lemma {:induction false} FillConcat(b: seq<Record>, at: nat, nr: int, w: seq<Record>, v: seq<Record>)
    requires nr <= |b|
    ensures |Fill(b, at, nr, w)| == |b|
    ensures Fill(b, at, nr, w + v) == Fill(Fill(b, at, nr, w), Advance(at, nr, |w|), nr, v)
    decreases |w|
  {
    if w == [] {
      assert w + v == v;
    } else if at < nr {
      assert (w + v)[1..] == w[1..] + v;
      FillConcat(b[at := w[0]], at + 1, nr, w[1..], v);
    }
  }

  /** The buffer keeps what it had before at, then holds as much of the walk as fits. */
  lemma {:induction false} FillContents(b: seq<Record>, at: nat, nr: int, w: seq<Record>)
    requires at <= nr <= |b|
    ensures var n := Advance(at, nr, |w|) - at; n <= |w| && Fill(b, at, nr, w) == b[..at] + w[..n] + b[at + n..]
    decreases |w|
  {
    if w != [] && at < nr {
      FillContents(b[at := w[0]], at + 1, nr, w[1..]);
    }
  }

  /** What the kernel's int pointers idx and layer point to. */
  class Cursor {
    var idx: nat
    var layer: nat

    constructor ()
      ensures idx == layer == 0
    {
      idx, layer := 0, 0;
    }
  }

  /** The put_user sequence for child i of task. */
  method PutRecord(buf: array<Record>, idx: nat, task: Proc, i: nat, layer: nat)
    requires idx < buf.Length && i < |task.children|
    modifies buf
    ensures buf[..] == old(buf[..])[idx := RecordOf(task, i, layer)]
  {
    var child := task.children[i];
    buf[idx] := buf[idx].(parentPid := task.pid);
    buf[idx] := buf[idx].(pid := child.pid);
    if child.children == [] {
      buf[idx] := buf[idx].(firstChildPid := 0);
    } else {
      buf[idx] := buf[idx].(firstChildPid := child.children[0].pid);
    }
    if i + 1 == |task.children| {
      buf[idx] := buf[idx].(nextSiblingPid := 0);
    } else {
      buf[idx] := buf[idx].(nextSiblingPid := task.children[i + 1].pid);
    }
    buf[idx] := buf[idx].(state := child.state, uid := child.uid, comm := child.comm, layer := layer);
  }

  /** One turn of the list loop: the child's record, then everything below it one layer down. */
  method VisitChild(buf: array<Record>, nr: int, cursor: Cursor, task: Proc, i: nat)
    requires nr <= buf.Length && i < |task.children|
    modifies buf, cursor
    ensures cursor.layer == old(cursor.layer)
    ensures var w := ChildWalk(task, i, cursor.layer);
            cursor.idx == Advance(old(cursor.idx), nr, |w|) && buf[..] == Fill(old(buf[..]), old(cursor.idx), nr, w)
    decreases task, 0
  {
    ghost var head, below := [RecordOf(task, i, cursor.layer)], Walk(task.children[i], 0, cursor.layer + 1);
    FillConcat(buf[..], cursor.idx, nr, head, below);
    FillOne(buf[..], cursor.idx, nr, head[0]);
    hide Walk, Fill, RecordOf;
    if cursor.idx < nr {
      PutRecord(buf, cursor.idx, task, i, cursor.layer);
      cursor.idx := cursor.idx + 1;
    }
    cursor.layer := cursor.layer + 1;
    PstreeDfs(buf, nr, cursor, task.children[i]);
    cursor.layer := cursor.layer - 1;
  }

  ghost function ChildWalk(p: Proc, i: nat, layer: nat): seq<Record>
    requires i < |p.children|
  {
    [RecordOf(p, i, layer)] + Walk(p.children[i], 0, layer + 1)
  }

  lemma FillOne(b: seq<Record>, at: nat, nr: int, x: Record)
    requires nr <= |b|
    ensures Fill(b, at, nr, [x]) == if at < nr then b[at := x] else b
  {}

  method PstreeDfs(buf: array<Record>, nr: int, cursor: Cursor, task: Proc)
    requires nr <= buf.Length
    modifies buf, cursor
    ensures cursor.layer == old(cursor.layer)
    ensures cursor.idx == Advance(old(cursor.idx), nr, |Walk(task, 0, cursor.layer)|)
    ensures buf[..] == Fill(old(buf[..]), old(cursor.idx), nr, Walk(task, 0, cursor.layer))
    decreases task, 1
  {
    ghost var layer, was, at := cursor.layer, buf[..], cursor.idx;
    var i := 0;
    while i < |task.children|
      invariant 0 <= i <= |task.children| && cursor.layer == layer
      invariant Fill(buf[..], cursor.idx, nr, Walk(task, i, layer)) == Fill(was, at, nr, Walk(task, 0, layer))
      invariant Advance(cursor.idx, nr, |Walk(task, i, layer)|) == Advance(at, nr, |Walk(task, 0, layer)|)
    {
      ghost var rest := Walk(task, i + 1, layer);
      assert Walk(task, i, layer) == ChildWalk(task, i, layer) + rest;
      FillConcat(buf[..], cursor.idx, nr, ChildWalk(task, i, layer), rest);
      hide Walk, Fill, ChildWalk;
      VisitChild(buf, nr, cursor, task, i);
      i := i + 1;
    }
  }

  /** The system call: 1 for a null pointer, otherwise 0 with the buffer filled and a sentinel where there is room. */
  function Filled(b: seq<Record>, nr: int, root: Proc): (f: seq<Record>)
    requires nr <= |b|
    ensures |f| == |b|
  {
    FillConcat(b, 0, nr, Preorder(root), []);
    var f, n := Fill(b, 0, nr, Preorder(root)), Advance(0, nr, |Preorder(root)|);
    if n < nr then f[n := f[n].(comm := SENTINEL)] else f
  }

  method Ptree(buf: array?<Record>, nr: Option<int>, root: Proc) returns (r: int)
    requires buf != null && nr.Some? ==> nr.value <= buf.Length
    modifies buf
    ensures r == if buf == null || nr.None? then 1 else 0
    ensures buf != null ==> buf[..] == if nr.None? then old(buf[..]) else Filled(old(buf[..]), nr.value, root)
  {
    if buf == null || nr.None? {
      return 1;
    }
    var n := nr.value;
    ghost var was := buf[..];
    ghost var head := [Record(0, root.pid, FirstChild(root), 0, root.state, root.uid, root.comm, 0)];
    FillConcat(was, 0, n, head, Walk(root, 0, 1));
    var cursor := new Cursor();
    if cursor.idx < n {
      buf[0] := Record(0, root.pid, FirstChild(root), 0, root.state, root.uid, root.comm, cursor.layer);
      cursor.idx := cursor.idx + 1;
    }
    assert buf[..] == Fill(was, 0, n, head) && cursor.idx == Advance(0, n, 1);
    cursor.layer := cursor.layer + 1;
    PstreeDfs(buf, n, cursor, root);
    cursor.layer := cursor.layer - 1;
    if cursor.idx < n {
      buf[cursor.idx] := buf[cursor.idx].(comm := SENTINEL);
    }
    return 0;
  }

  // ---- the reader ----

  /** The records that the print loop shows from position i on. */
  function Shown(b: seq<Record>, nr: int, i: nat): seq<Record>
    requires nr <= |b|
    decreases nr - i
  {
    if i >= nr || b[i].comm == SENTINEL then [] else [b[i]] + Shown(b, nr, i + 1)
  }

  method PrintTree(buf: array<Record>, nr: int) returns (printed: seq<Record>)
    requires nr <= buf.Length
    ensures printed == Shown(buf[..], nr, 0)
  {
    printed := [];
    var i := 0;
    while i < nr
      invariant 0 <= i && (i <= nr || i == 0)
      invariant printed + Shown(buf[..], nr, i) == Shown(buf[..], nr, 0)
    {
      if buf[i].comm == SENTINEL {
        break;
      }
      printed := printed + [buf[i]];
      i := i + 1;
    }
  }

  lemma {:induction false} ShownUpTo(b: seq<Record>, nr: int, i: nat, n: nat)
    requires i <= n <= nr <= |b| && (n == nr || b[n].comm == SENTINEL)
    ensures Shown(b, nr, i) == b[i..n] <==> forall k :: i <= k < n ==> b[k].comm != SENTINEL
    decreases n - i
  {
    if i < n {
      ShownUpTo(b, nr, i + 1, n);
      if b[i].comm != SENTINEL {
        assert b[i..n] == [b[i]] + b[i + 1..n];
        assert Shown(b, nr, i) == [b[i]] + Shown(b, nr, i + 1);
        assert Shown(b, nr, i) == b[i..n] ==> Shown(b, nr, i)[1..] == b[i..n][1..];
      }
    }
  }

  /** What the buffer holds after the call: the first min(nr, N) records, then the sentinel if there is room. */
  lemma FilledContents(b: seq<Record>, nr: nat, root: Proc)
    requires nr <= |b|
    ensures var w := Preorder(root); var n := if |w| < nr then |w| else nr;
            var f := Filled(b, nr, root);
            |f| == |b| && f[..n] == w[..n] && (n < nr ==> f[n] == b[n].(comm := SENTINEL)) &&
            f[if n < nr then n + 1 else n..] == b[if n < nr then n + 1 else n..]
  {
    FillContents(b, 0, nr, Preorder(root));
  }

  /**
   The program shows exactly the first min(nr, N) records of the preorder walk, if and only if none of them carries the
   sentinel's name.
   */
  lemma ReadBack(b: seq<Record>, nr: nat, root: Proc)
    requires nr <= |b|
    ensures var w := Preorder(root); var n := if |w| < nr then |w| else nr;
            |Filled(b, nr, root)| == |b| &&
            (Shown(Filled(b, nr, root), nr, 0) == w[..n] <==> forall k :: 0 <= k < n ==> w[k].comm != SENTINEL)
  {
    var w := Preorder(root);
    var n := if |w| < nr then |w| else nr;
    var f := Filled(b, nr, root);
    FilledContents(b, nr, root);
    hide Filled, Preorder, Shown;
    ShownUpTo(f, nr, 0, n);
    assert f[0..n] == f[..n];
    assert forall k :: 0 <= k < n ==> f[k] == w[..n][k];
  }

  // ---- the links of the records ----

  /** The next sibling as the order of the records gives it: the first record no deeper, if it is as deep. */
  function SiblingIn(s: seq<Record>, layer: int): int
  {
    if s == [] then 0
    else if s[0].layer > layer then SiblingIn(s[1..], layer)
    else if s[0].layer == layer then s[0].pid else 0
  }

  function ChildIn(s: seq<Record>, layer: int): int { if s != [] && s[0].layer == layer + 1 then s[0].pid else 0 }

  /**
   Every record's links agree with the order and the layers of the records: path holds the pids of the record's
   ancestors, the last record seen on each layer above.
   */
  ghost predicate Linked(s: seq<Record>, path: seq<int>)
  {
    s == [] ||
    var x, rest := s[0], s[1..];
    && 0 <= x.layer <= |path|
    && x.parentPid == (if x.layer == 0 then 0 else path[x.layer - 1])
    && x.firstChildPid == ChildIn(rest, x.layer)
    && x.nextSiblingPid == SiblingIn(rest, x.layer)
    && Linked(rest, path[..x.layer] + [x.pid])
  }

  ghost predicate Shallow(s: seq<Record>, layer: int) { s == [] || s[0].layer <= layer }

  lemma LinkedPath(s: seq<Record>, d: nat, path: seq<int>, path': seq<int>)
    requires d <= |path| && d <= |path'| && path[..d] == path'[..d] && Shallow(s, d)
    ensures Linked(s, path) <==> Linked(s, path')
  {
    if s != [] && 0 <= s[0].layer {
      var l := s[0].layer;
      assert path[..l] == path[..d][..l] && path'[..l] == path'[..d][..l];
      assert l > 0 ==> path[l - 1] == path[..d][l - 1] && path'[l - 1] == path'[..d][l - 1];
    }
  }

  lemma {:induction false} SkipAll(p: Proc, i: nat, layer: nat, l: int, tail: seq<Record>)
    requires i <= |p.children| && l < layer
    ensures SiblingIn(Walk(p, i, layer) + tail, l) == SiblingIn(tail, l)
    decreases p, |p.children| - i
  {
    if i == |p.children| {
      assert Walk(p, i, layer) + tail == tail;
    } else {
      var x, c, r := RecordOf(p, i, layer), Walk(p.children[i], 0, layer + 1), Walk(p, i + 1, layer);
      assert Walk(p, i, layer) + tail == [x] + (c + (r + tail));
      SkipAll(p.children[i], 0, layer + 1, l, r + tail);
      SkipAll(p, i + 1, layer, l, tail);
    }
  }

  /** The record of child i, in front of everything below and beside it. */
  lemma RecordLinked(p: Proc, i: nat, layer: nat, tail: seq<Record>, path: seq<int>)
    requires i < |p.children| && 0 < layer <= |path| && path[layer - 1] == p.pid && Shallow(tail, layer - 1)
    requires var child, beside := p.children[i], Walk(p, i + 1, layer) + tail;
             Linked(Walk(child, 0, layer + 1) + beside, path[..layer] + [child.pid])
    ensures Linked([RecordOf(p, i, layer)] + (Walk(p.children[i], 0, layer + 1) + (Walk(p, i + 1, layer) + tail)), path)
  {
    var child, beside := p.children[i], Walk(p, i + 1, layer) + tail;
    var below := Walk(child, 0, layer + 1) + beside;
    SkipAll(child, 0, layer + 1, layer, beside);
    assert if i + 1 < |p.children| then beside[0] == RecordOf(p, i + 1, layer) else beside == tail;
    assert if child.children != [] then below[0] == RecordOf(child, 0, layer + 1) else below == beside;
    hide Walk, FirstChild;
    assert SiblingIn(below, layer) == RecordOf(p, i, layer).nextSiblingPid;
    assert ([RecordOf(p, i, layer)] + below)[1..] == below;
    assert FirstChild(child) == ChildIn(below, layer) by {
      FirstChildIn(child, layer, below, beside);
    }
  }

  lemma FirstChildIn(child: Proc, layer: nat, below: seq<Record>, beside: seq<Record>)
    requires if child.children != [] then below != [] && below[0] == RecordOf(child, 0, layer + 1) else below == beside
    requires Shallow(beside, layer)
    ensures FirstChild(child) == ChildIn(below, layer)
  {}

  lemma {:induction false} WalkLinked(p: Proc, i: nat, layer: nat, tail: seq<Record>, path: seq<int>)
    requires i <= |p.children| && 0 < layer <= |path| && path[layer - 1] == p.pid
    requires Shallow(tail, layer - 1) && Linked(tail, path)
    ensures Linked(Walk(p, i, layer) + tail, path) && Shallow(Walk(p, i, layer) + tail, layer)
    decreases p, |p.children| - i
  {
    if i == |p.children| {
      assert Walk(p, i, layer) + tail == tail;
    } else {
      var child := p.children[i];
      var x, c, r := RecordOf(p, i, layer), Walk(child, 0, layer + 1), Walk(p, i + 1, layer);
      var down := path[..layer] + [child.pid];
      assert Walk(p, i, layer) + tail == [x] + (c + (r + tail));
      hide Walk, Linked;
      WalkLinked(p, i + 1, layer, tail, path);
      assert down[..layer] == path[..layer];
      LinkedPath(r + tail, layer, path, down);
      WalkLinked(child, 0, layer + 1, r + tail, down);
      RecordLinked(p, i, layer, tail, path);
    }
  }

  /** The parent, child and sibling links of the records are those that their order and layers determine. */
  lemma LinksMatch(root: Proc)
    ensures Linked(Preorder(root), [])
  {
    var w := Walk(root, 0, 1);
    WalkLinked(root, 0, 1, [], [root.pid]);
    SkipAll(root, 0, 1, 0, []);
    assert w + [] == w && [][..0] + [root.pid] == [root.pid];
    assert Preorder(root)[1..] == w;
    assert root.children != [] ==> w[0] == RecordOf(root, 0, 1);
  }

  // ---- rebuilding the tree ----

  datatype Shape = Node(pid: int, children: seq<Shape>)

  function ShapesFrom(p: Proc, i: nat): seq<Shape>
    requires i <= |p.children|
    decreases p, |p.children| - i
  {
    if i == |p.children| then []
    else [Node(p.children[i].pid, ShapesFrom(p.children[i], 0))] + ShapesFrom(p, i + 1)
  }

  function ShapeOf(root: Proc): Shape { Node(root.pid, ShapesFrom(root, 0)) }

  datatype Parsed = Parsed(forest: seq<Shape>, rest: seq<(int, int)>)

  /** Reads the trees of one layer from (pid, layer) pairs. */
  function Parse(s: seq<(int, int)>, layer: int): (r: Parsed)
    ensures |r.rest| <= |s|
    decreases |s|
  {
    if s == [] || s[0].1 != layer then Parsed([], s)
    else
      var below := Parse(s[1..], layer + 1);
      var beside := Parse(below.rest, layer);
      Parsed([Node(s[0].0, below.forest)] + beside.forest, beside.rest)
  }

  function Pairs(w: seq<Record>): (r: seq<(int, int)>)
    ensures |r| == |w|
  {
    if w == [] then [] else [(w[0].pid, w[0].layer)] + Pairs(w[1..])
  }

  lemma {:induction false} PairsConcat(w: seq<Record>, v: seq<Record>)
    ensures Pairs(w + v) == Pairs(w) + Pairs(v)
  {
    if w == [] {
      assert w + v == v;
    } else {
      assert (w + v)[1..] == w[1..] + v;
      PairsConcat(w[1..], v);
    }
  }

  lemma WalkPairs(p: Proc, i: nat, layer: nat)
    requires i < |p.children|
    ensures Pairs(Walk(p, i, layer)) ==
            [(p.children[i].pid, layer)] + (Pairs(Walk(p.children[i], 0, layer + 1)) + Pairs(Walk(p, i + 1, layer)))
  {
    var x, c, r := RecordOf(p, i, layer), Walk(p.children[i], 0, layer + 1), Walk(p, i + 1, layer);
    PairsConcat([x] + c, r);
    PairsConcat([x], c);
    assert Pairs([x]) == [(x.pid, x.layer)];
  }

  lemma ParseStep(s: seq<(int, int)>, layer: int, below: Parsed, beside: Parsed)
    requires s != [] && s[0].1 == layer && below == Parse(s[1..], layer + 1) && beside == Parse(below.rest, layer)
    ensures Parse(s, layer) == Parsed([Node(s[0].0, below.forest)] + beside.forest, beside.rest)
  {}

  lemma {:induction false} ParseWalk(p: Proc, i: nat, layer: nat, tail: seq<(int, int)>)
    requires i <= |p.children| && (tail == [] || tail[0].1 < layer)
    ensures Parse(Pairs(Walk(p, i, layer)) + tail, layer) == Parsed(ShapesFrom(p, i), tail)
    decreases p, |p.children| - i
  {
    var s := Pairs(Walk(p, i, layer)) + tail;
    if i == |p.children| {
      assert s == tail;
    } else {
      var child := p.children[i];
      var c, rest := Pairs(Walk(child, 0, layer + 1)), Pairs(Walk(p, i + 1, layer)) + tail;
      WalkPairs(p, i, layer);
      assert s == [(child.pid, layer)] + (c + rest);
      assert rest == [] || rest[0].1 <= layer by {
        if i + 1 < |p.children| {
          WalkPairs(p, i + 1, layer);
        } else {
          assert rest == tail;
        }
      }
      hide Parse, Pairs, Walk;
      ParseWalk(child, 0, layer + 1, rest);
      ParseWalk(p, i + 1, layer, tail);
      assert s[1..] == c + rest;
      ParseStep(s, layer, Parsed(ShapesFrom(child, 0), rest), Parsed(ShapesFrom(p, i + 1), tail));
    }
  }

  /** When the buffer was large enough, the pids and layers read back rebuild the tree. */
  lemma TreeRebuilt(b: seq<Record>, nr: nat, root: Proc)
    requires |Preorder(root)| <= nr <= |b|
    requires forall k :: 0 <= k < |Preorder(root)| ==> Preorder(root)[k].comm != SENTINEL
    ensures Parse(Pairs(Shown(Filled(b, nr, root), nr, 0)), 0) == Parsed([ShapeOf(root)], [])
  {
    var w := Preorder(root);
    ReadBack(b, nr, root);
    assert w[..|w|] == w;
    assert Shown(Filled(b, nr, root), nr, 0) == w;
    var kids := Walk(root, 0, 1);
    PairsConcat([w[0]], kids);
    assert w == [w[0]] + kids;
    ParseWalk(root, 0, 1, []);
    assert Pairs(kids) + [] == Pairs(kids);
    assert Pairs(w)[1..] == Pairs(kids);
    assert Parse([], 0) == Parsed([], []);
  }
}
