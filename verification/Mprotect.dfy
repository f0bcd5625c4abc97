/**
 The memory map of a process as an ordered list of areas, and what each address sees of it.
 */
module AddressMap {
  import opened Common

  datatype Vma = Vma(start: nat, end: nat, flags: bv32) {
    predicate Has(a: nat) { start <= a < end }
  }

  /** Areas are nonempty, in order and do not overlap. */
  ghost predicate Ordered(m: seq<Vma>)
  {
    && (forall i :: 0 <= i < |m| ==> m[i].start < m[i].end)
    && (forall i, j :: 0 <= i < j < |m| ==> m[i].end <= m[j].start)
  }

  /** The flags under which an address is mapped. */
  function FlagsAt(m: seq<Vma>, a: nat): Option<bv32>
  {
    if m == [] then None
    else if m[0].Has(a) then Some(m[0].flags)
    else FlagsAt(m[1..], a)
  }

  lemma {:induction false} FlagsInside(m: seq<Vma>, i: nat, a: nat)
    requires Ordered(m) && i < |m| && m[i].Has(a)
    ensures FlagsAt(m, a) == Some(m[i].flags)
  {
    if i > 0 {
      assert m[0].end <= m[i].start;
      FlagsInside(m[1..], i - 1, a);
    }
  }

  lemma {:induction false} FlagsOutside(m: seq<Vma>, a: nat)
    requires forall i :: 0 <= i < |m| ==> !m[i].Has(a)
    ensures FlagsAt(m, a) == None
  {
    if m != [] {
      FlagsOutside(m[1..], a);
    }
  }

  lemma {:induction false} FlagsConcat(l: seq<Vma>, r: seq<Vma>, a: nat)
    ensures FlagsAt(l + r, a) == if FlagsAt(l, a).Some? then FlagsAt(l, a) else FlagsAt(r, a)
  {
    if l == [] {
      assert l + r == r;
    } else {
      assert (l + r)[1..] == l[1..] + r;
      FlagsConcat(l[1..], r, a);
    }
  }

  /** Every address sees the same in both maps. */
  ghost predicate SameFlags(m: seq<Vma>, n: seq<Vma>)
  {
    forall a: nat :: FlagsAt(m, a) == FlagsAt(n, a)
  }

  lemma SpliceSame(l: seq<Vma>, m: seq<Vma>, n: seq<Vma>, r: seq<Vma>)
    requires SameFlags(m, n)
    ensures SameFlags(l + m + r, l + n + r)
  {
    forall a: nat ensures FlagsAt(l + m + r, a) == FlagsAt(l + n + r, a) {
      FlagsConcat(l + m, r, a);
      FlagsConcat(l, m, a);
      FlagsConcat(l + n, r, a);
      FlagsConcat(l, n, a);
    }
  }

  /** find_vma: the first area that ends above the address. */
  function FindVma(m: seq<Vma>, a: nat): (i: nat)
    ensures i <= |m| && (forall j :: 0 <= j < i ==> m[j].end <= a) && (i < |m| ==> a < m[i].end)
  {
    if m == [] then 0
    else if a < m[0].end then 0
    else 1 + FindVma(m[1..], a)
  }

  /** Past the end of area i, nothing is mapped until the next area begins. */
  lemma GapAfter(m: seq<Vma>, i: nat)
    requires Ordered(m) && i < |m|
    requires i + 1 == |m| || m[i + 1].start != m[i].end
    ensures FlagsAt(m, m[i].end) == None
  {
    forall j | 0 <= j < |m| ensures !m[j].Has(m[i].end) {
      if i + 1 < j {
        assert m[i + 1].end <= m[j].start;
      }
    }
    FlagsOutside(m, m[i].end);
  }
}

/** What mprotect_s asks of mprotect_fixup, and two implementations that deliver it. */
module MprotectFixup {
  import opened Common
  import opened AddressMap

  /** vma and *pprev by position, -1 for no predecessor; then the range and the flags to set. */
  datatype Request = Request(mmap: seq<Vma>, vma: nat, prev: int, start: nat, end: nat, newflags: bv32)

  datatype Reply = Reply(mmap: seq<Vma>, prev: nat, error: int)

  ghost predicate Asked(q: Request)
  {
    && Ordered(q.mmap) && q.vma < |q.mmap|
    && q.mmap[q.vma].start <= q.start < q.end <= q.mmap[q.vma].end
    && q.prev == (if q.start > q.mmap[q.vma].start then q.vma else q.vma - 1)
  }

  /**
   On success the range alone has changed flags, and *pprev is the area that covers it now. On failure areas may have
   been split, but every address sees the flags it saw before.
   */
  ghost predicate Delivered(q: Request, r: Reply)
  {
    && Ordered(r.mmap)
    && if r.error == 0 then
         && r.prev < |r.mmap| && r.mmap[r.prev].start <= q.start && q.end <= r.mmap[r.prev].end
         && r.mmap[r.prev].flags == q.newflags
         && OnlyRange(q.mmap, r.mmap, q.start, q.end, q.newflags)
       else
         SameFlags(r.mmap, q.mmap)
  }

  ghost predicate OnlyRange(m: seq<Vma>, n: seq<Vma>, start: nat, end: nat, flags: bv32)
  {
    forall a: nat :: FlagsAt(n, a) == if start <= a < end then Some(flags) else FlagsAt(m, a)
  }

  /** Splits the area at both ends of the range and changes the middle. */
  function Split(q: Request): Reply
    requires q.vma < |q.mmap|
  {
    var v := q.mmap[q.vma];
    Reply(q.mmap[..q.vma] + Parts(v, q.start, q.end, q.newflags) + q.mmap[q.vma + 1..],
          q.vma + (if v.start < q.start then 1 else 0), 0)
  }

  function Parts(v: Vma, start: nat, end: nat, flags: bv32): seq<Vma>
  {
    (if v.start < start then [Vma(v.start, start, v.flags)] else [])
    + [Vma(start, end, flags)]
    + (if end < v.end then [Vma(end, v.end, v.flags)] else [])
  }

  /** Joins area i with its successor when they touch and agree. */
  function JoinNext(m: seq<Vma>, i: nat): seq<Vma>
    requires i < |m|
  {
    if i + 1 < |m| && m[i].end == m[i + 1].start && m[i].flags == m[i + 1].flags
    then m[..i] + [Vma(m[i].start, m[i + 1].end, m[i].flags)] + m[i + 2..]
    else m
  }

  /** Splits, then merges the changed area with equal neighbours on both sides. */
  function SplitAndMerge(q: Request): Reply
    requires q.vma < |q.mmap|
  {
    var r := Split(q);
    var m := JoinNext(r.mmap, r.prev);
    if r.prev > 0 && |JoinNext(m, r.prev - 1)| < |m| then Reply(JoinNext(m, r.prev - 1), r.prev - 1, 0)
    else Reply(m, r.prev, 0)
  }

  /** One area cut in up to three, seen from one address. */
  lemma PartsFlags(v: Vma, start: nat, end: nat, flags: bv32, a: nat)
    requires v.start <= start < end <= v.end
    ensures FlagsAt(Parts(v, start, end, flags), a) == if start <= a < end then Some(flags) else FlagsAt([v], a)
  {
    var before := if v.start < start then [Vma(v.start, start, v.flags)] else [];
    var behind := if end < v.end then [Vma(end, v.end, v.flags)] else [];
    FlagsConcat(before + [Vma(start, end, flags)], behind, a);
    FlagsConcat(before, [Vma(start, end, flags)], a);
  }

  lemma SplitFlags(l: seq<Vma>, v: Vma, r: seq<Vma>, start: nat, end: nat, flags: bv32)
    requires v.start <= start < end <= v.end && forall i :: 0 <= i < |l| ==> l[i].end <= v.start
    ensures OnlyRange(l + [v] + r, l + Parts(v, start, end, flags) + r, start, end, flags)
  {
    var mid := Parts(v, start, end, flags);
    forall a: nat ensures FlagsAt(l + mid + r, a) == if start <= a < end then Some(flags) else FlagsAt(l + [v] + r, a) {
      FlagsConcat(l + mid, r, a);
      FlagsConcat(l, mid, a);
      FlagsConcat(l + [v], r, a);
      FlagsConcat(l, [v], a);
      PartsFlags(v, start, end, flags, a);
      FlagsBelow(l, v.start, a);
    }
  }

  /** Nothing is mapped at or above a bound on all ends. */
  lemma FlagsBelow(m: seq<Vma>, bound: nat, a: nat)
    requires forall i :: 0 <= i < |m| ==> m[i].end <= bound
    ensures bound <= a ==> FlagsAt(m, a) == None
  {
    if bound <= a {
      FlagsOutside(m, a);
    }
  }

  lemma SplitDelivers(q: Request)
    requires Asked(q)
    ensures Delivered(q, Split(q))
  {
    var l, v, r := q.mmap[..q.vma], q.mmap[q.vma], q.mmap[q.vma + 1..];
    assert q.mmap == l + [v] + r;
    SplitFlags(l, v, r, q.start, q.end, q.newflags);
    SplitOrdered(l, v, r, q.start, q.end, q.newflags);
    hide FlagsAt, OnlyRange;
  }

  lemma SplitOrdered(l: seq<Vma>, v: Vma, r: seq<Vma>, start: nat, end: nat, flags: bv32)
    requires Ordered(l + [v] + r) && v.start <= start < end <= v.end
    ensures Ordered(l + Parts(v, start, end, flags) + r)
  {
    var m := l + [v] + r;
    assert m[|l|] == v;
    assert forall i :: 0 <= i < |l| ==> m[i] == l[i];
    assert forall i :: 0 <= i < |r| ==> m[|l| + 1 + i] == r[i];
    OrderedConcat(l, Parts(v, start, end, flags), v.start);
    OrderedConcat(l + Parts(v, start, end, flags), r, v.end);
  }

  lemma OrderedConcat(l: seq<Vma>, r: seq<Vma>, bound: nat)
    requires Ordered(l) && Ordered(r)
    requires (forall i :: 0 <= i < |l| ==> l[i].end <= bound) && (forall i :: 0 <= i < |r| ==> bound <= r[i].start)
    ensures Ordered(l + r)
  {}

  lemma JoinTwo(x: Vma, y: Vma)
    requires x.start < x.end == y.start < y.end && x.flags == y.flags
    ensures SameFlags([Vma(x.start, y.end, x.flags)], [x, y])
  {
    forall a: nat ensures FlagsAt([Vma(x.start, y.end, x.flags)], a) == FlagsAt([x, y], a) {
      assert [x] + [y] == [x, y];
      FlagsConcat([x], [y], a);
    }
  }

  lemma JoinNextFlags(m: seq<Vma>, i: nat)
    requires Ordered(m) && i < |m|
    ensures SameFlags(JoinNext(m, i), m)
  {
    if |JoinNext(m, i)| < |m| {
      assert m == m[..i] + [m[i], m[i + 1]] + m[i + 2..];
      JoinTwo(m[i], m[i + 1]);
      SpliceSame(m[..i], [Vma(m[i].start, m[i + 1].end, m[i].flags)], [m[i], m[i + 1]], m[i + 2..]);
    }
  }

  lemma JoinNextShape(m: seq<Vma>, i: nat)
    requires Ordered(m) && i < |m|
    ensures Ordered(JoinNext(m, i)) && i < |JoinNext(m, i)|
    ensures var x := JoinNext(m, i)[i]; x.start == m[i].start && x.flags == m[i].flags && m[i].end <= x.end
    ensures forall k :: 0 <= k < i ==> JoinNext(m, i)[k] == m[k]
    ensures |JoinNext(m, i)| < |m| ==>
            i + 1 < |m| && m[i].flags == m[i + 1].flags && JoinNext(m, i)[i].end == m[i + 1].end
  {}

  lemma OnlyRangeSame(m: seq<Vma>, n: seq<Vma>, n': seq<Vma>, start: nat, end: nat, flags: bv32)
    requires OnlyRange(m, n, start, end, flags) && SameFlags(n', n)
    ensures OnlyRange(m, n', start, end, flags)
  {}

  lemma SplitAndMergeDelivers(q: Request)
    requires Asked(q)
    ensures Delivered(q, SplitAndMerge(q))
  {
    var r := Split(q);
    SplitDelivers(q);
    JoinNextFlags(r.mmap, r.prev);
    JoinNextShape(r.mmap, r.prev);
    hide FlagsAt, Split;
    var m := JoinNext(r.mmap, r.prev);
    OnlyRangeSame(q.mmap, r.mmap, m, q.start, q.end, q.newflags);
    if r.prev > 0 {
      JoinNextFlags(m, r.prev - 1);
      JoinNextShape(m, r.prev - 1);
      OnlyRangeSame(q.mmap, m, JoinNext(m, r.prev - 1), q.start, q.end, q.newflags);
      assert m[r.prev - 1].end <= m[r.prev].start;
    }
    hide FlagsAt, OnlyRange, SameFlags, JoinNext, Split;
  }
}

/** mprotect_s: changes the protection of an address range, area by area. */
module Mprotect {
  import opened Common
  import opened AddressMap
  import opened MprotectFixup

  const PAGE_SIZE: nat := 4096

  const PROT_READ: bv32 := 1
  const PROT_EXEC: bv32 := 4
  const PROT_ALL: bv32 := 15
  const PROT_GROWSDOWN: bv32 := 0x0100_0000
  const PROT_GROWSUP: bv32 := 0x0200_0000
  const VM_RWX: bv32 := 7
  const VM_GROWSDOWN: bv32 := 0x100

  const ENOMEM: int := 12
  const EACCES: int := 13
  const EINVAL: int := 22

  /** The kernel functions and settings that mprotect_s relies on. */
  datatype Env = Env(fixup: Request -> Reply, security: (Vma, bv32, bv32) -> int, readImpliesExec: bool,
                     vmGrowsUp: bv32)

  ghost predicate Honest(env: Env)
  {
    forall q :: Asked(q) ==> Delivered(q, env.fixup(q))
  }

  /** Neither hook ever refuses. */
  ghost predicate Willing(env: Env)
  {
    (forall q :: Asked(q) ==> env.fixup(q).error == 0) && forall v, r, p :: env.security(v, r, p) == 0
  }

  /** The requested bits, with everything but read, write and execute kept. */
  function Wanted(vmFlags: bv32, f: bv32): bv32 { vmFlags | (f & !VM_RWX) }

  /** Every granted bit has its VM_MAY bit, four places up. */
  predicate Allowed(f: bv32) { (f & !(f >> 4)) & VM_RWX == 0 }

  /** Read, write and execute are bits 1, 2 and 4, and whether they may be granted bits 16, 32 and 64. */
  lemma AllowedBits(f: bv32)
    ensures Allowed(f) <==>
            (f & 1 != 0 ==> f & 16 != 0) && (f & 2 != 0 ==> f & 32 != 0) && (f & 4 != 0 ==> f & 64 != 0)
  {}

  lemma WantedBits(vmFlags: bv32, f: bv32)
    requires vmFlags & !VM_RWX == 0
    ensures Wanted(vmFlags, f) & VM_RWX == vmFlags
    ensures Wanted(vmFlags, f) & !VM_RWX == f & !VM_RWX
  {}

  lemma WantedTwice(vmFlags: bv32, f: bv32)
    requires vmFlags & !VM_RWX == 0
    ensures Wanted(vmFlags, Wanted(vmFlags, f)) == Wanted(vmFlags, f)
  {}

  /** An address that can be given the requested protection. */
  ghost predicate Good(m: seq<Vma>, a: nat, vmFlags: bv32)
  {
    FlagsAt(m, a).Some? && Allowed(Wanted(vmFlags, FlagsAt(m, a).value))
  }

  /** In n exactly the addresses from lo to hi have the protection; all of them were mapped and allowed it. */
  ghost predicate Protected(m: seq<Vma>, n: seq<Vma>, lo: nat, hi: nat, vmFlags: bv32)
  {
    forall a: nat :: ProtectedAt(m, n, lo, hi, vmFlags, a)
  }

  ghost predicate ProtectedAt(m: seq<Vma>, n: seq<Vma>, lo: nat, hi: nat, vmFlags: bv32, a: nat)
  {
    if lo <= a < hi then Good(m, a, vmFlags) && FlagsAt(n, a) == Some(Wanted(vmFlags, FlagsAt(m, a).value))
    else FlagsAt(n, a) == FlagsAt(m, a)
  }

  lemma ProtectedEmpty(m: seq<Vma>, lo: nat, vmFlags: bv32)
    ensures Protected(m, m, lo, lo, vmFlags)
  {}

  /**
   After one call of the fixup everything up to the end of the area it reports is done, even where that area has been
   merged beyond the part that was asked for: what lies there already had the flags the loop would have set.
   */
  lemma SkipIsSound(m: seq<Vma>, q: Request, lo: nat, hi: nat, vmFlags: bv32, f: bv32, r: Reply)
    requires Protected(m, q.mmap, lo, q.start, vmFlags) && Asked(q) && lo <= q.start && vmFlags & !VM_RWX == 0
    requires q.mmap[q.vma].flags == f && q.newflags == Wanted(vmFlags, f) && Allowed(q.newflags)
    requires Delivered(q, r) && r.error == 0 && q.end <= hi && (q.end < hi ==> q.end == q.mmap[q.vma].end)
    ensures Protected(m, r.mmap, lo, if r.mmap[r.prev].end < hi then r.mmap[r.prev].end else hi, vmFlags)
  {
    WantedTwice(vmFlags, f);
    hide Wanted, Allowed, FlagsAt;
    var top := r.mmap[r.prev].end;
    var cut := if top < hi then top else hi;
    forall a: nat ensures ProtectedAt(m, r.mmap, lo, cut, vmFlags, a) {
      assert ProtectedAt(m, q.mmap, lo, q.start, vmFlags, a);
      SeenBefore(q, r, a);
    }
  }

  /** The flags an address had when it lies in the part asked for, or beyond it in the area reported. */
  lemma SeenBefore(q: Request, r: Reply, a: nat)
    requires Asked(q) && Delivered(q, r) && r.error == 0
    ensures q.start <= a < q.end ==>
            FlagsAt(q.mmap, a) == Some(q.mmap[q.vma].flags) && FlagsAt(r.mmap, a) == Some(q.newflags)
    ensures q.end <= a < r.mmap[r.prev].end ==> FlagsAt(q.mmap, a) == FlagsAt(r.mmap, a) == Some(q.newflags)
    ensures !(q.start <= a < q.end) ==> FlagsAt(r.mmap, a) == FlagsAt(q.mmap, a)
  {
    if q.start <= a < q.end {
      FlagsInside(q.mmap, q.vma, a);
    } else if q.end <= a < r.mmap[r.prev].end {
      FlagsInside(r.mmap, r.prev, a);
    }
  }

  /** The checks before the loop: a final result, or the range to change and the area it starts in. */
  datatype Plan = Done(result: int) | Change(vma: nat, start: nat, end: nat, vmFlags: bv32, reqprot: bv32, prot: bv32)

  function PageAlign(len: nat): nat { (len + (PAGE_SIZE - 1)) / PAGE_SIZE * PAGE_SIZE % WORD }

  function Prepare(env: Env, m: seq<Vma>, start: nat, len: nat, prot: bv32): Plan
  {
    var grows, reqprot := prot & (PROT_GROWSDOWN | PROT_GROWSUP), Stripped(prot);
    if grows == PROT_GROWSDOWN | PROT_GROWSUP || start % PAGE_SIZE != 0 then Done(-EINVAL)
    else if len == 0 then Done(0)
    else if (start + PageAlign(len)) % WORD <= start then Done(-ENOMEM)
    else if reqprot & !PROT_ALL != 0 then Done(-EINVAL)
    else
      var end := (start + PageAlign(len)) % WORD;
      Locate(m, start, end, grows & PROT_GROWSDOWN != 0, grows & PROT_GROWSUP != 0, env.vmGrowsUp, reqprot,
             WithExec(reqprot, env.readImpliesExec))
  }

  function Stripped(prot: bv32): bv32 { prot & !(PROT_GROWSDOWN | PROT_GROWSUP) }

  /** What an application gets that expects readable memory to be executable. */
  function WithExec(prot: bv32, readImpliesExec: bool): bv32 {
    if prot & PROT_READ != 0 && readImpliesExec then prot | PROT_EXEC else prot
  }

  /** The area may grow in the direction that the bit stands for. */
  predicate Grows(flags: bv32, bit: bv32) { flags & bit != 0 }

  /** The area to start in, and what becomes of the range when it is to grow. */
  function Locate(m: seq<Vma>, start: nat, end: nat, down: bool, up: bool, vmGrowsUp: bv32, reqprot: bv32, prot: bv32)
    : Plan
  {
    var vmFlags, i := prot & VM_RWX, FindVma(m, start);
    if i == |m| then Done(-ENOMEM)
    else if down then
      if m[i].start >= end then Done(-ENOMEM)
      else if !Grows(m[i].flags, VM_GROWSDOWN) then Done(-EINVAL)
      else Change(i, m[i].start, end, vmFlags, reqprot, prot)
    else if m[i].start > start then Done(-ENOMEM)
    else if up then
      if !Grows(m[i].flags, vmGrowsUp) then Done(-EINVAL)
      else Change(i, start, m[i].end, vmFlags, reqprot, prot)
    else Change(i, start, end, vmFlags, reqprot, prot)
  }

  /** A planned change starts inside its area and is nonempty; without growth flags it is the page-aligned request. */
  lemma PrepareOk(env: Env, m: seq<Vma>, start: nat, len: nat, prot: bv32)
    requires Ordered(m)
    ensures var p := Prepare(env, m, start, len, prot);
            p.Change? ==> p.vma < |m| && m[p.vma].Has(p.start) && p.start < p.end && p.vmFlags & !VM_RWX == 0
    ensures var p := Prepare(env, m, start, len, prot);
            p.Change? && prot & (PROT_GROWSDOWN | PROT_GROWSUP) == 0 && start < WORD && 0 < len < WORD ==>
              p.start == start && p.end == (start + PageAlign(len)) % WORD && start + len <= p.end
  {
    PageAlignCovers(len);
  }

  /** The first area that ends above an address has it exactly when the address is mapped. */
  lemma FindVmaMapped(m: seq<Vma>, a: nat)
    requires Ordered(m)
    ensures FlagsAt(m, a).Some? <==> FindVma(m, a) < |m| && m[FindVma(m, a)].start <= a
  {
    var i := FindVma(m, a);
    if i < |m| && m[i].start <= a {
      FlagsInside(m, i, a);
    } else {
      forall j | 0 <= j < |m| ensures !m[j].Has(a) {
        if i < j {
          assert m[i].end <= m[j].start;
        }
      }
      FlagsOutside(m, a);
    }
  }

  /**
   A request without growth flags reaches the loop exactly when it is aligned, nonempty, does not wrap, has valid bits
   and starts at a mapped address.
   */
  lemma PrepareIff(env: Env, m: seq<Vma>, start: nat, len: nat, prot: bv32)
    requires Ordered(m) && start < WORD && len < WORD && prot & (PROT_GROWSDOWN | PROT_GROWSUP) == 0
    ensures Prepare(env, m, start, len, prot).Change? <==>
              start % PAGE_SIZE == 0 && 0 < len <= WORD - PAGE_SIZE && start + PageAlign(len) < WORD &&
              prot & !PROT_ALL == 0 && FlagsAt(m, start).Some?
  {
    FindVmaMapped(m, start);
    PageAlignCovers(len);
    NoGrowth(prot);
    hide FlagsAt, FindVma, PageAlign;
  }

  /** What a change asks for: the requested bits, with execute added for a reader where the personality says so. */
  lemma PlanBits(env: Env, m: seq<Vma>, start: nat, len: nat, prot: bv32)
    ensures var p := Prepare(env, m, start, len, prot);
            p.Change? ==>
              && (p.vmFlags & 1 != 0 <==> prot & 1 != 0) && (p.vmFlags & 2 != 0 <==> prot & 2 != 0)
              && (p.vmFlags & 4 != 0 <==> prot & 4 != 0 || (prot & 1 != 0 && env.readImpliesExec))
              && p.reqprot & (PROT_GROWSDOWN | PROT_GROWSUP) == 0
              && p.reqprot | (prot & (PROT_GROWSDOWN | PROT_GROWSUP)) == prot
              && p.prot == if prot & 1 != 0 && env.readImpliesExec then p.reqprot | 4 else p.reqprot
  {
    StrippedBits(prot);
    BitsKept(prot, env.readImpliesExec);
    hide FindVma, PageAlign, WithExec, Stripped;
  }

  lemma StrippedBits(prot: bv32)
    ensures Stripped(prot) & (PROT_GROWSDOWN | PROT_GROWSUP) == 0
    ensures Stripped(prot) | (prot & (PROT_GROWSDOWN | PROT_GROWSUP)) == prot
    ensures Stripped(prot) & 1 == prot & 1 && Stripped(prot) & 2 == prot & 2 && Stripped(prot) & 4 == prot & 4
  {}

  lemma ExecBits(r: bv32)
    ensures (r & VM_RWX) & 1 == r & 1 && (r & VM_RWX) & 2 == r & 2 && (r & VM_RWX) & 4 == r & 4
    ensures (r | 4) & 1 == r & 1 && (r | 4) & 2 == r & 2 && (r | 4) & 4 == 4
  {}

  lemma BitsKept(prot: bv32, readImpliesExec: bool)
    ensures var (r, full) := (Stripped(prot), WithExec(Stripped(prot), readImpliesExec));
            && full == (if prot & 1 != 0 && readImpliesExec then r | 4 else r)
            && ((full & VM_RWX) & 1 != 0 <==> prot & 1 != 0) && ((full & VM_RWX) & 2 != 0 <==> prot & 2 != 0)
            && ((full & VM_RWX) & 4 != 0 <==> prot & 4 != 0 || (prot & 1 != 0 && readImpliesExec))
  {
    var r := Stripped(prot);
    StrippedBits(prot);
    ExecBits(r);
    ExecBits(WithExec(r, readImpliesExec));
    hide Stripped;
  }

  /** The arguments by themselves are in order. */
  predicate WellAsked(start: nat, len: nat, prot: bv32)
  {
    && prot & (PROT_GROWSDOWN | PROT_GROWSUP) != PROT_GROWSDOWN | PROT_GROWSUP && start % PAGE_SIZE == 0
    && 0 < len <= WORD - PAGE_SIZE && start + PageAlign(len) < WORD
    && prot & !(PROT_ALL | PROT_GROWSDOWN | PROT_GROWSUP) == 0
  }

  /** The errors for arguments that are not, in order. */
  lemma PrepareRefuses(env: Env, m: seq<Vma>, start: nat, len: nat, prot: bv32)
    requires start < WORD && len < WORD
    ensures var (p, both) := (Prepare(env, m, start, len, prot), PROT_GROWSDOWN | PROT_GROWSUP);
            if prot & both == both || start % PAGE_SIZE != 0 then p == Done(-EINVAL)
            else if len == 0 then p == Done(0)
            else if WORD - PAGE_SIZE < len || WORD <= start + PageAlign(len) then p == Done(-ENOMEM)
            else !WellAsked(start, len, prot) ==> p == Done(-EINVAL)
  {
    PageAlignCovers(len);
    BadBits(prot);
    hide FindVma, PageAlign;
  }

  lemma BadBits(prot: bv32)
    ensures Stripped(prot) & !PROT_ALL == prot & !(PROT_ALL | PROT_GROWSDOWN | PROT_GROWSUP)
  {}

  /** A request whose arguments are in order is placed by the map alone. */
  lemma PrepareLocates(env: Env, m: seq<Vma>, start: nat, len: nat, prot: bv32)
    requires start < WORD && WellAsked(start, len, prot)
    ensures Prepare(env, m, start, len, prot) ==
            Locate(m, start, start + PageAlign(len), prot & PROT_GROWSDOWN != 0, prot & PROT_GROWSUP != 0,
                   env.vmGrowsUp, Stripped(prot), WithExec(Stripped(prot), env.readImpliesExec))
  {
    PageAlignCovers(len);
    BadBits(prot);
    GrowthBits(prot);
    hide FindVma, PageAlign, Locate, WithExec;
  }

  lemma GrowthBits(prot: bv32)
    ensures prot & (PROT_GROWSDOWN | PROT_GROWSUP) & PROT_GROWSDOWN == prot & PROT_GROWSDOWN
    ensures prot & (PROT_GROWSDOWN | PROT_GROWSUP) & PROT_GROWSUP == prot & PROT_GROWSUP
  {}

  /** Growing up: the area at start must be one that does, and the change goes to its end. */
  lemma GrowsUp(m: seq<Vma>, start: nat, end: nat, vmGrowsUp: bv32, reqprot: bv32, prot: bv32)
    requires Ordered(m)
    ensures var p := Locate(m, start, end, false, true, vmGrowsUp, reqprot, prot);
            match FlagsAt(m, start)
            case None => p == Done(-ENOMEM)
            case Some(f) =>
              if !Grows(f, vmGrowsUp) then p == Done(-EINVAL)
              else p.Change? && p.start == start && p.vma < |m| && m[p.vma].Has(start) && p.end == m[p.vma].end
  {
    FindVmaFlags(m, start);
    hide FlagsAt, FindVma, Ordered, Grows;
  }

  lemma FindVmaFlags(m: seq<Vma>, a: nat)
    requires Ordered(m)
    ensures var i := FindVma(m, a); FlagsAt(m, a) == if i < |m| && m[i].start <= a then Some(m[i].flags) else None
  {
    var i := FindVma(m, a);
    FindVmaMapped(m, a);
    if i < |m| && m[i].start <= a {
      FlagsInside(m, i, a);
    }
  }

  /**
   Growing down: the area of the first mapped address must be one that does, and the change begins where it begins.
   */
  lemma GrowsDown(m: seq<Vma>, start: nat, end: nat, up: bool, vmGrowsUp: bv32, reqprot: bv32, prot: bv32, first: nat)
    requires Ordered(m) && start <= first <= end && start < end
    requires forall a: nat :: start <= a < first ==> FlagsAt(m, a).None?
    requires first < end ==> FlagsAt(m, first).Some?
    ensures var p := Locate(m, start, end, true, up, vmGrowsUp, reqprot, prot);
            if first == end then p == Done(-ENOMEM)
            else if !Grows(FlagsAt(m, first).value, VM_GROWSDOWN) then p == Done(-EINVAL)
            else p.Change? && p.vma < |m| && m[p.vma].Has(first) && p.start == m[p.vma].start && p.end == end
  {
    FirstMapped(m, start, first);
    hide FlagsAt, FindVma, Grows;
  }

  /** The first area that ends above an address has the first mapped address from there on. */
  lemma FirstMapped(m: seq<Vma>, start: nat, first: nat)
    requires Ordered(m) && start <= first && forall a: nat :: start <= a < first ==> FlagsAt(m, a).None?
    ensures var i := FindVma(m, start);
            && (i < |m| ==> first <= m[i].start || first == start)
            && (FlagsAt(m, first).Some? ==> i < |m| && m[i].Has(first) && FlagsAt(m, first) == Some(m[i].flags))
  {
    var i := FindVma(m, start);
    if i < |m| {
      var low := if m[i].start < start then start else m[i].start;
      FlagsInside(m, i, low);
      if m[i].Has(first) { FlagsInside(m, i, first); }
    }
    if FlagsAt(m, first).Some? {
      FindVmaMapped(m, first);
      var j := FindVma(m, first);
      FlagsInside(m, j, first);
    }
  }

  lemma NoGrowth(prot: bv32)
    requires prot & (PROT_GROWSDOWN | PROT_GROWSUP) == 0
    ensures Stripped(prot) == prot
  {}

  lemma PageAlignCovers(len: nat)
    ensures 0 < len <= WORD - PAGE_SIZE ==> len <= PageAlign(len) < len + PAGE_SIZE
    ensures WORD - PAGE_SIZE < len < WORD ==> PageAlign(len) == 0
  {}

  /** One of the hooks has refused the area at an address, asked with the bits of the plan. */
  ghost predicate Refused(env: Env, plan: Plan, a: nat, error: int)
    requires plan.Change?
  {
    || (exists v: Vma :: v.Has(a) && env.security(v, plan.reqprot, plan.prot) == error)
    || (exists q: Request :: Asked(q) && q.start == a && env.fixup(q).error == error)
  }

  class AddressSpace {
    var mmap: seq<Vma>

    constructor (mmap: seq<Vma>)
      requires Ordered(mmap)
      ensures this.mmap == mmap
    {
      this.mmap := mmap;
    }

    /** The loop over the areas of the range; cut is the first address it did not reach. */
    method ProtectRange(env: Env, plan: Plan) returns (error: int, ghost cut: nat)
      requires Ordered(mmap) && Honest(env)
      requires plan.Change? && plan.vma < |mmap| && mmap[plan.vma].Has(plan.start) && plan.start < plan.end
      requires plan.vmFlags & !VM_RWX == 0
      modifies this
      ensures Ordered(mmap) && plan.start <= cut <= plan.end
      ensures Protected(old(mmap), mmap, plan.start, cut, plan.vmFlags)
      ensures error == 0 <==> cut == plan.end
      ensures error != 0 ==> !Good(old(mmap), cut, plan.vmFlags) || Refused(env, plan, cut, error)
      ensures Willing(env) && error != 0 ==> error == if FlagsAt(old(mmap), cut).None? then -ENOMEM else -EACCES
    {
      ghost var m := mmap;
      var end, vmFlags := plan.end, plan.vmFlags;
      var vma, prev: int, nstart := plan.vma, plan.vma - 1, plan.start;
      if plan.start > mmap[vma].start {
        prev := vma;
      }
      cut := nstart;
      ProtectedEmpty(m, nstart, vmFlags);
      hide Protected, FlagsAt, Wanted, Allowed;
      while true
        invariant Ordered(mmap) && 0 <= vma < |mmap| && mmap[vma].Has(nstart) && plan.start <= nstart == cut < end
        invariant prev == if nstart > mmap[vma].start then vma else vma - 1
        invariant Protected(m, mmap, plan.start, nstart, vmFlags)
        decreases end - nstart
      {
        var f := mmap[vma].flags;
        var newflags := Wanted(vmFlags, f);
        FlagsInside(mmap, vma, nstart);
        ProtectedBeyond(m, mmap, plan.start, nstart, vmFlags, nstart);
        if !Allowed(newflags) {
          return -EACCES, cut;
        }
        error := env.security(mmap[vma], plan.reqprot, plan.prot);
        if error != 0 {
          return error, cut;
        }
        var tmp := mmap[vma].end;
        if tmp > end {
          tmp := end;
        }
        var q := Request(mmap, vma, prev, nstart, tmp, newflags);
        var r := env.fixup(q);
        assert Asked(q) && Delivered(q, r);
        mmap, error := r.mmap, r.error;
        if error != 0 {
          ProtectedSame(m, q.mmap, mmap, plan.start, cut, vmFlags);
          return error, cut;
        }
        SkipIsSound(m, q, plan.start, end, vmFlags, f, r);
        prev := r.prev;
        nstart := tmp;
        if nstart < mmap[prev].end {
          nstart := mmap[prev].end;
        }
        if nstart >= end {
          cut := end;
          return 0, cut;
        }
        cut := nstart;
        if prev + 1 == |mmap| || mmap[prev + 1].start != nstart {
          GapAfter(mmap, prev);
          ProtectedBeyond(m, mmap, plan.start, nstart, vmFlags, nstart);
          return -ENOMEM, cut;
        }
        vma := prev + 1;
      }
    }

    /** mprotect_s */
    method MprotectS(env: Env, start: nat, len: nat, prot: bv32) returns (error: int, ghost cut: nat)
      requires Ordered(mmap) && Honest(env)
      modifies this
      ensures Ordered(mmap)
      ensures var p := Prepare(env, old(mmap), start, len, prot);
              match p
              case Done(result) => error == result && mmap == old(mmap)
              case Change(_, lo, hi, vmFlags, _, _) =>
                && lo <= cut <= hi && Protected(old(mmap), mmap, lo, cut, vmFlags) && (error == 0 <==> cut == hi)
                && (Willing(env) ==> (error == 0 <==> AllGood(old(mmap), lo, hi, vmFlags)))
    {
      PrepareOk(env, mmap, start, len, prot);
      var plan := Prepare(env, mmap, start, len, prot);
      match plan {
        case Done(result) =>
          error, cut := result, start;
        case Change(_, lo, hi, vmFlags, _, _) =>
          ghost var m := mmap;
          hide Prepare, FlagsAt, Wanted, Allowed;
          error, cut := ProtectRange(env, plan);
          ProtectedIsGood(m, mmap, lo, cut, vmFlags);
      }
    }
  }

  ghost predicate AllGood(m: seq<Vma>, lo: nat, hi: nat, vmFlags: bv32)
  {
    forall a: nat :: lo <= a < hi ==> Good(m, a, vmFlags)
  }

  lemma ProtectedIsGood(m: seq<Vma>, n: seq<Vma>, lo: nat, hi: nat, vmFlags: bv32)
    requires Protected(m, n, lo, hi, vmFlags)
    ensures AllGood(m, lo, hi, vmFlags)
  {
    forall a: nat | lo <= a < hi ensures Good(m, a, vmFlags) {
      assert ProtectedAt(m, n, lo, hi, vmFlags, a);
    }
  }

  /** What the loop has not reached is as it was. */
  lemma ProtectedBeyond(m: seq<Vma>, n: seq<Vma>, lo: nat, hi: nat, vmFlags: bv32, a: nat)
    requires Protected(m, n, lo, hi, vmFlags) && hi <= a
    ensures FlagsAt(n, a) == FlagsAt(m, a)
  {
    assert ProtectedAt(m, n, lo, hi, vmFlags, a);
  }

  lemma ProtectedSame(m: seq<Vma>, n: seq<Vma>, n': seq<Vma>, lo: nat, hi: nat, vmFlags: bv32)
    requires Protected(m, n, lo, hi, vmFlags) && SameFlags(n', n)
    ensures Protected(m, n', lo, hi, vmFlags)
  {
    forall a: nat ensures ProtectedAt(m, n', lo, hi, vmFlags, a) {
      assert ProtectedAt(m, n, lo, hi, vmFlags, a);
    }
  }

  /** The contract asked of the fixup can be met: by splitting and merging, with hooks that never refuse. */
  lemma HonestExists(readImpliesExec: bool, vmGrowsUp: bv32)
    ensures var fix := (q: Request) => if q.vma < |q.mmap| then SplitAndMerge(q) else Reply(q.mmap, 0, 1);
            var env := Env(fix, (v, r, p) => 0, readImpliesExec, vmGrowsUp);
            Honest(env) && Willing(env)
  {
    var fix := (q: Request) => if q.vma < |q.mmap| then SplitAndMerge(q) else Reply(q.mmap, 0, 1);
    forall q: Request | Asked(q) ensures Delivered(q, fix(q)) && fix(q).error == 0 {
      SplitAndMergeDelivers(q);
    }
  }
}
