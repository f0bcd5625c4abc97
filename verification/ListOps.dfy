/**
 The kernel's doubly linked lists, seen as sequences without repetition.
 */
module ListOps {

  /** A list_head chain visits each node once. */
  ghost predicate NoDup<T>(s: seq<T>) {
    forall i, j :: 0 <= i < j < |s| ==> s[i] != s[j]
  }

  /** list_del: the chain without node x. */
  function Without<T(==)>(s: seq<T>, x: T): (r: seq<T>)
    ensures x !in r
    ensures forall y :: y in s && y != x ==> y in r
    ensures forall y :: y in r ==> y in s
    ensures x !in s ==> r == s
    ensures |r| <= |s|
  {
    if s == [] then []
    else if s[0] == x then Without(s[1..], x)
    else [s[0]] + Without(s[1..], x)
  }

  lemma {:induction false} WithoutNoDup<T>(s: seq<T>, x: T)
    requires NoDup(s)
    ensures NoDup(Without(s, x))
    ensures x in s ==> |Without(s, x)| == |s| - 1
  {
    if s != [] {
      assert NoDup(s[1..]);
      assert s == [s[0]] + s[1..];
      WithoutNoDup(s[1..], x);
      if s[0] == x {
        assert x !in s[1..];
      } else {
        assert forall y :: y in Without(s[1..], x) ==> y in s[1..];
        assert s[0] !in s[1..];
      }
    }
  }

  lemma {:induction false} WithoutConcat<T>(a: seq<T>, b: seq<T>, x: T)
    ensures Without(a + b, x) == Without(a, x) + Without(b, x)
  {
    if a == [] {
      assert a + b == b;
    } else {
      assert (a + b)[1..] == a[1..] + b;
      WithoutConcat(a[1..], b, x);
    }
  }

  /** Deleting a node and linking it in again at either end leaves the other nodes as they were. */
  lemma WithoutRelink<T>(s: seq<T>, x: T)
    ensures Without([x] + s, x) == Without(s, x)
    ensures Without(s + [x], x) == Without(s, x)
    ensures Without(Without(s, x), x) == Without(s, x)
  {
    WithoutConcat([x], s, x);
    WithoutConcat(s, [x], x);
    assert Without([x], x) == [];
  }

  /** The set of nodes on a chain has as many members as the chain has nodes. */
  lemma {:induction false} NoDupSize<T>(s: seq<T>)
    requires NoDup(s)
    ensures |set x | x in s| == |s|
  {
    if s != [] {
      var rest := s[1..];
      NoDupSize(rest);
      assert s == [s[0]] + rest;
      assert (set x | x in s) == {s[0]} + (set x | x in rest);
      assert s[0] !in rest;
    }
  }
}
