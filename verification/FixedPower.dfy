/**
 Powers of fixed-point fractions by repeated squaring, rounding after every product,
 and the exponentially weighted load average that uses them.
 */
module FixedPower {
  import opened Common

  /** One fixed-point product, rounded to nearest: the multiply, add and shift of the source. */
  function RoundMul(a: nat, b: nat, half: nat): nat
    requires half > 0
  {
    RoundTo(a * b, half)
  }

  /** s in units of 2 * half, to nearest. */
  function RoundTo(s: int, half: int): (r: int)
    requires s >= 0 && half > 0
    ensures r >= 0
  {
    DivBounds(s + half, 2 * half);
    (s + half) / (2 * half)
  }

  /** The loop of fixed_power_int from a state with exponent n left to consume; half is 1 << (f - 1). */
  function PowerLoop(x: nat, half: nat, n: nat, result: nat): nat
    requires half > 0
    decreases n
  {
    if n == 0 then result
    else PowerLoop(RoundMul(x, x, half), half, n / 2, if n % 2 == 1 then RoundMul(result, x, half) else result)
  }

  function FixedPowerOf(x: nat, f: nat, n: nat): nat
    requires f >= 1
  {
    PowerLoop(x, Pow2(f - 1), n, Pow2(f))
  }

  /** The product of two reals, named so that proofs can treat it as opaque. */
  ghost function Mul(a: real, b: real): real { a * b }

  /** q to the n, exactly. */
  ghost function Power(q: real, n: nat): real
  {
    if n == 0 then 1.0 else Mul(Power(q, n - 1), q)
  }

  /** a approximates b up to d. */
  ghost predicate Near(a: real, b: real, d: real) { -d <= a - b <= d }

  // ---- arithmetic ----

  lemma DivBounds(s: int, d: int)
    requires d > 0
    ensures d * (s / d) <= s < d * (s / d) + d
    ensures s >= 0 ==> s / d >= 0
  {
    assert s == d * (s / d) + s % d;
  }

  lemma IntCancel(p: int, a: int, b: int)
    requires p > 0 && p * a < p * b + p
    ensures a <= b
  {
    if a >= b + 1 {
      IntMulLe(p, b + 1, a);
    }
  }

  lemma IntMulLe(p: int, a: int, b: int)
    requires p >= 0 && a <= b
    ensures p * a <= p * b
  {}

  lemma MulLt(p: real, a: real, b: real)
    requires p > 0.0 && a < b
    ensures Mul(p, a) < Mul(p, b)
  {}

  lemma MulLe(p: real, a: real, b: real)
    requires p >= 0.0 && a <= b
    ensures Mul(p, a) <= Mul(p, b)
  {}

  lemma MulUnit(a: real)
    ensures Mul(a, 0.0) == 0.0 && Mul(a, 1.0) == a == Mul(1.0, a)
  {}

  lemma MulComm(a: real, b: real)
    ensures Mul(a, b) == Mul(b, a)
  {}

  lemma MulNeg(a: real, b: real)
    ensures Mul(a, -b) == -Mul(a, b)
  {}

  lemma MulAdd(p: real, a: real, b: real)
    ensures Mul(p, a + b) == Mul(p, a) + Mul(p, b)
  {}

  lemma MulAssoc(a: real, b: real, c: real)
    ensures Mul(Mul(a, b), c) == Mul(a, Mul(b, c))
  {}

  lemma Cancel(p: real, a: real, b: real)
    requires p > 0.0 && Mul(p, a) <= Mul(p, b)
    ensures a <= b
  {
    hide Mul;
    if b < a {
      MulLt(p, b, a);
    }
  }

  /** A product with a factor in 0..m. */
  lemma MulNear(x: real, y: real, m: real, d: real)
    requires 0.0 <= x <= m && -d <= y <= d
    ensures -Mul(m, d) <= Mul(x, y) <= Mul(m, d)
  {
    hide Mul;
    MulLe(x, y, d);
    MulLe(x, -y, d);
    MulNeg(x, y);
    MulLe(d, x, m);
    MulComm(d, x);
    MulComm(d, m);
  }

  lemma {:induction false} PowerRange(q: real, n: nat)
    requires 0.0 <= q <= 1.0
    ensures 0.0 <= Power(q, n) <= 1.0
  {
    if n > 0 {
      hide Mul;
      PowerRange(q, n - 1);
      var p := Power(q, n - 1);
      MulLe(p, q, 1.0);
      MulLe(p, 0.0, q);
      MulUnit(p);
    }
  }

  /** Exponents add. */
  lemma {:induction false} PowerAdd(q: real, m: nat, k: nat)
    ensures Power(q, m + k) == Mul(Power(q, m), Power(q, k))
  {
    hide Mul;
    if k == 0 {
      MulUnit(Power(q, m));
    } else {
      PowerAdd(q, m, k - 1);
      MulAssoc(Power(q, m), Power(q, k - 1), q);
      assert m + k - 1 == m + (k - 1);
    }
  }

  /** Rounding to nearest is off by at most half a unit. */
  lemma RoundToError(s: int, half: int)
    requires s >= 0 && half > 0
    ensures -half <= (2 * half) * RoundTo(s, half) - s <= half
  {
    DivBounds(s + half, 2 * half);
  }

  /** Rounding keeps the order with multiples of the unit. */
  lemma RoundToBetween(s: int, half: int, lo: int, hi: int)
    requires s >= 0 && half > 0 && (2 * half) * lo <= s <= (2 * half) * hi
    ensures lo <= RoundTo(s, half) <= hi
  {
    var r := RoundTo(s, half);
    RoundToError(s, half);
    hide RoundTo;
    IntCancel(2 * half, r, hi);
    IntCancel(2 * half, lo, r);
  }

  /** Fractions stay fractions. */
  lemma RoundMulRange(a: nat, b: nat, half: nat)
    requires half > 0 && a <= 2 * half && b <= 2 * half
    ensures RoundMul(a, b, half) <= 2 * half
  {
    ProductLe(a, b, 2 * half);
    RoundToBetween(a * b, half, 0, 2 * half);
  }

  lemma ProductLe(a: int, b: int, m: int)
    requires 0 <= a <= m && 0 <= b <= m
    ensures 0 <= a * b <= m * m
  {
    IntMulLe(a, b, m);
    IntMulLe(m, a, m);
    IntMulLe(a, 0, b);
  }

  /** A rounded product of two approximations is off by both their errors and half a unit more. */
  lemma ProductNear(a: nat, b: nat, half: nat, one: real, q: real, m: nat, k: nat, da: real, db: real)
    requires half > 0 && one == (2 * half) as real && a <= 2 * half && b <= 2 * half && 0.0 <= q <= 1.0
    requires Near(a as real, Mul(one, Power(q, m)), da) && Near(b as real, Mul(one, Power(q, k)), db)
    ensures Near(RoundMul(a, b, half) as real, Mul(one, Power(q, m + k)), da + db + 0.5)
  {
    PowerRange(q, m);
    PowerRange(q, k);
    PowerAdd(q, m, k);
    RoundToError(a * b, half);
    ScaleError(a, b, half, RoundMul(a, b, half));
    hide *;
    ErrorSum(a as real, b as real, Power(q, m), Power(q, k), one, RoundMul(a, b, half) as real, da, db);
  }

  lemma ScaleError(a: int, b: int, half: int, r: int)
    requires -half <= (2 * half) * r - a * b <= half
    ensures var one := (2 * half) as real; -one <= 2.0 * (Mul(one, r as real) - Mul(a as real, b as real)) <= one
  {
    assert ((2 * half) * r) as real == (2 * half) as real * r as real;
    assert (a * b) as real == a as real * b as real;
  }

  lemma ErrorSum(a: real, b: real, pa: real, pb: real, one: real, r: real, da: real, db: real)
    requires one > 0.0 && 0.0 <= a <= one && 0.0 <= pb <= 1.0
    requires Near(a, Mul(one, pa), da) && Near(b, Mul(one, pb), db)
    requires -one <= 2.0 * (Mul(one, r) - Mul(a, b)) <= one
    ensures Near(r, Mul(one, Mul(pa, pb)), da + db + 0.5)
  {
    hide Mul;
    var u, v, d := a - Mul(one, pa), b - Mul(one, pb), da + db + 0.5;
    var e := Mul(one, Mul(pa, pb));
    MulNear(a, v, one, db);
    MulNear(pb, u, 1.0, da);
    MulUnit(da);
    MulNear(one, Mul(pb, u), one, da);
    ScaledGap(a, b, pa, pb, one);
    MulAdd(one, r, -e);
    MulNeg(one, e);
    Distribute(one, da, db);
    Cancel(one, r - e, d);
    MulNeg(one, r - e);
    Cancel(one, -(r - e), d);
  }

  lemma ScaledGap(a: real, b: real, pa: real, pb: real, one: real)
    ensures Mul(a, b) - Mul(one, Mul(one, Mul(pa, pb))) ==
            Mul(a, b - Mul(one, pb)) + Mul(one, Mul(pb, a - Mul(one, pa)))
  {
    assert a * (one * pb) == one * (pb * a);
    assert one * (pb * (a - one * pa)) == one * (pb * a) - one * (pb * (one * pa));
    assert pb * (one * pa) == one * (pa * pb);
  }

  lemma Distribute(p: real, a: real, b: real)
    ensures Mul(p, a + b + 0.5) == Mul(p, a) + Mul(p, b) + p / 2.0
  {}

  /**
   The loop invariant, as a statement about what is left of the loop: from approximations of the m-th and k-th power it
   reaches one of the (m + k*n)-th, with the errors it started from and half a unit for each factor.
   */
  lemma {:induction false} LoopNear(y: nat, half: nat, n: nat, result: nat, one: real, q: real, m: nat, k: nat)
    requires half > 0 && one == (2 * half) as real && y <= 2 * half && result <= 2 * half && 0.0 <= q <= 1.0 && k >= 1
    requires Near(result as real, Mul(one, Power(q, m)), HalfOf(m)) &&
             Near(y as real, Mul(one, Power(q, k)), HalfOf(k - 1))
    ensures PowerLoop(y, half, n, result) <= 2 * half
    ensures Near(PowerLoop(y, half, n, result) as real, Mul(one, Power(q, m + k * n)), HalfOf(m + k * n))
    decreases n
  {
    hide RoundMul, Power, Near, Mul;
    if n == 0 {
      assert k * n == 0;
    } else {
      RoundMulRange(y, y, half);
      RoundMulRange(result, y, half);
      ProductNear(y, y, half, one, q, k, k, HalfOf(k - 1), HalfOf(k - 1));
      ProductNear(result, y, half, one, q, m, k, HalfOf(m), HalfOf(k - 1));
      var r, m' := if n % 2 == 1 then RoundMul(result, y, half) else result, if n % 2 == 1 then m + k else m;
      Halve(m, k, n);
      HalfUnits(m, k);
      LoopNear(RoundMul(y, y, half), half, n / 2, r, one, q, m', k + k);
    }
  }

  /** Half a unit for each of n roundings. */
  ghost function HalfOf(n: nat): real { n as real / 2.0 }

  lemma HalfUnits(m: nat, k: nat)
    requires k >= 1
    ensures HalfOf(m) + HalfOf(k - 1) + 0.5 == HalfOf(m + k)
    ensures HalfOf(k - 1) + HalfOf(k - 1) + 0.5 == HalfOf(k + k - 1)
  {}

  lemma Halve(m: nat, k: nat, n: nat)
    ensures (if n % 2 == 1 then m + k else m) + (k + k) * (n / 2) == m + k * n
  {
    var h, b := n / 2, n % 2;
    assert n == 2 * h + b;
    assert k * n == k * (2 * h) + k * b;
    assert k * (2 * h) == (k + k) * h;
  }

  /**
   For every exponent the result is a fraction again and is within n/2 units of the exact power one * (x / one)^n.
   */
  lemma PowerError(x: nat, f: nat, n: nat)
    requires f >= 1 && x <= Pow2(f)
    ensures FixedPowerOf(x, f, n) <= Pow2(f)
    ensures Near(FixedPowerOf(x, f, n) as real, ExactPower(x, f, n), HalfOf(n))
  {
    var one := Pow2(f) as real;
    var q := x as real / one;
    FractionOf(x as real, one);
    hide Pow2, RoundMul, Mul;
    MulUnit(one);
    MulUnit(q);
    assert Power(q, 1) == q by {
      assert Power(q, 0) == 1.0;
    }
    LoopNear(x, Pow2(f - 1), n, Pow2(f), one, q, 0, 1);
  }

  lemma FractionOf(x: real, one: real)
    requires 0.0 <= x <= one && one > 0.0
    ensures 0.0 <= x / one <= 1.0 && Mul(one, x / one) == x
  {
    var q := x / one;
    assert one * q == x;
    Cancel(one, 0.0, q);
    Cancel(one, q, 1.0);
  }

  /** one * (x / one)^n, where one is 1 << f. */
  ghost function ExactPower(x: nat, f: nat, n: nat): real
  {
    Mul(Pow2(f) as real, Power(x as real / Pow2(f) as real, n))
  }

  /** fixed_power_int: it ends, and its result is near the exact power. */
  method FixedPowerInt(x0: nat, f: nat, n0: nat) returns (result: nat)
    requires f >= 1 && x0 <= Pow2(f)
    ensures result == FixedPowerOf(x0, f, n0) <= Pow2(f)
    ensures Near(result as real, ExactPower(x0, f, n0), HalfOf(n0))
  {
    PowerError(x0, f, n0);
    hide Near, ExactPower, RoundMul;
    var x, n := x0, n0;
    result := Pow2(f);
    if n != 0 {
      while true
        invariant n > 0
        invariant PowerLoop(x, Pow2(f - 1), n, result) == FixedPowerOf(x0, f, n0)
        decreases n
      {
        if n % 2 == 1 {
          result := MulShift(result, x, f);
        }
        n := n / 2;
        if n == 0 {
          break;
        }
        x := MulShift(x, x, f);
      }
    }
  }

  /** x *= y; x += 1 << (f - 1); x >>= f */
  method MulShift(x0: nat, y: nat, f: nat) returns (x: nat)
    requires f >= 1
    ensures x == RoundMul(x0, y, Pow2(f - 1))
  {
    x := x0 * y;
    x := x + Pow2(f - 1);
    DivBounds(x, Pow2(f));
    x := x / Pow2(f);
  }

  // ---- the load average ----

  const FSHIFT: nat := 11
  const FIXED_1: nat := 2048

  /** calc_load */
  function CalcLoad(load: nat, exp: nat, active: nat): nat
    requires exp <= FIXED_1
  {
    ProductLe(load, exp, load + exp);
    ProductLe(active, FIXED_1 - exp, active + FIXED_1);
    RoundTo(load * exp + active * (FIXED_1 - exp), 1024)
  }

  /** calc_load_n */
  function CalcLoadN(load: nat, exp: nat, active: nat, n: nat): nat
    requires exp <= FIXED_1
  {
    FixedIsPow2();
    PowerError(exp, FSHIFT, n);
    CalcLoad(load, FixedPowerOf(exp, FSHIFT, n), active)
  }

  lemma FixedIsPow2()
    ensures Pow2(FSHIFT) == FIXED_1
  {
    assert Pow2(5) == 32;
    assert Pow2(8) == 256;
  }

  /** A weighted mean, even rounded, lies between its two arguments. */
  lemma CalcLoadBetween(load: nat, exp: nat, active: nat, lo: nat, hi: nat)
    requires exp <= FIXED_1 && lo <= load <= hi && lo <= active <= hi
    ensures lo <= CalcLoad(load, exp, active) <= hi
  {
    var rest := FIXED_1 - exp;
    IntMulLe(exp, lo, load);
    IntMulLe(exp, load, hi);
    IntMulLe(rest, lo, active);
    IntMulLe(rest, active, hi);
    MeanBounds(exp, rest, lo, hi, load, active);
    RoundToBetween(load * exp + active * rest, 1024, lo, hi);
  }

  /** The weighted mean with weight exp for the old load, off by at most half a unit. */
  lemma CalcLoadNear(load: nat, exp: nat, active: nat)
    requires exp <= FIXED_1
    ensures -1024 <= 2048 * CalcLoad(load, exp, active) - (load * exp + active * (2048 - exp)) <= 1024
  {
    ProductLe(load, exp, load + exp);
    ProductLe(active, FIXED_1 - exp, active + FIXED_1);
    RoundToError(load * exp + active * (FIXED_1 - exp), 1024);
  }

  lemma MeanBounds(p: int, q: int, lo: int, hi: int, x: int, y: int)
    requires p + q == 2048 && p * lo <= p * x <= p * hi && q * lo <= q * y <= q * hi
    ensures 2048 * lo <= x * p + y * q <= 2048 * hi
  {
    assert p * lo + q * lo == (p + q) * lo;
    assert p * hi + q * hi == (p + q) * hi;
  }

  /** Folding any number of missed periods at once cannot overshoot either. */
  lemma CalcLoadNBetween(load: nat, exp: nat, active: nat, n: nat, lo: nat, hi: nat)
    requires exp <= FIXED_1 && lo <= load <= hi && lo <= active <= hi
    ensures lo <= CalcLoadN(load, exp, active, n) <= hi
  {
    FixedIsPow2();
    PowerError(exp, FSHIFT, n);
    CalcLoadBetween(load, FixedPowerOf(exp, FSHIFT, n), active, lo, hi);
  }

  /**
   n missed periods at once: the gap between load and active count shrinks to the exact n-th power of the weight, off by
   n / 2 units of it and half a unit of the result.
   */
  lemma CalcLoadNNear(load: nat, exp: nat, active: nat, n: nat)
    requires exp <= FIXED_1
    ensures var gap := (load - active) as real;
            Near(2048.0 * CalcLoadN(load, exp, active, n) as real,
                 2048.0 * active as real + Mul(gap, ExactPower(exp, FSHIFT, n)),
                 1024.0 + Mul(if gap < 0.0 then -gap else gap, HalfOf(n)))
  {
    FixedIsPow2();
    PowerError(exp, FSHIFT, n);
    var p := FixedPowerOf(exp, FSHIFT, n);
    CalcLoadNear(load, p, active);
    var r, e, h := CalcLoad(load, p, active), ExactPower(exp, FSHIFT, n), HalfOf(n);
    hide Pow2, FixedPowerOf, CalcLoad, ExactPower;
    MeanAsGap(load, p, active);
    GapNear((load - active) as real, p as real, e, h);
  }

  lemma MeanAsGap(load: nat, p: nat, active: nat)
    requires p <= 2048
    ensures (load * p + active * (2048 - p)) as real ==
            2048.0 * active as real + Mul((load - active) as real, p as real)
  {
    assert load * p + active * (2048 - p) == 2048 * active + (load - active) * p;
    assert ((load - active) * p) as real == (load - active) as real * p as real;
  }

  lemma GapNear(gap: real, p: real, e: real, h: real)
    requires -h <= p - e <= h
    ensures var m := Mul(if gap < 0.0 then -gap else gap, h); -m <= Mul(gap, p) - Mul(gap, e) <= m
  {
    var g := if gap < 0.0 then -gap else gap;
    MulNear(g, p - e, g, h);
    assert Mul(g, p - e) == Mul(g, p) - Mul(g, e);
    assert gap < 0.0 ==> Mul(gap, p) == -Mul(g, p) && Mul(gap, e) == -Mul(g, e);
  }
}
