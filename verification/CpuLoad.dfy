/**
 The exponentially decaying cpu_load[] figures of a run queue, and the table-driven catch-up
 after ticks that were missed while the processor idled.
 */
module CpuLoad {
  import opened Common
  import opened FixedPower

  const CPU_LOAD_IDX_MAX: nat := 5
  const DEGRADE_SCALE: nat := 128

  /** degrade_zero_ticks */
  function ZeroTicks(idx: nat): nat
  {
    match idx case 0 => 0 case 1 => 8 case 2 => 32 case 3 => 64 case _ => 128
  }

  /** degrade_factor; trailing columns the initialiser leaves out are zero. */
  function DegradeRow(idx: nat): (r: seq<nat>)
    ensures |r| == 8
  {
    match idx
    case 0 => [0, 0, 0, 0, 0, 0, 0, 0]
    case 1 => [64, 32, 8, 0, 0, 0, 0, 0]
    case 2 => [96, 72, 40, 12, 1, 0, 0, 0]
    case 3 => [112, 98, 75, 43, 15, 1, 0, 0]
    case _ => [120, 112, 98, 76, 45, 16, 2, 0]
  }

  /** The loop of decay_load_missed from column j on. */
  function DecayLoop(load: nat, missed: nat, idx: nat, j: nat): nat
    requires j <= 7 && missed < Pow2(7 - j)
    decreases missed
  {
    if missed == 0 then load
    else DecayLoop(if missed % 2 == 1 then Degraded(load, DegradeRow(idx)[j]) else load, missed / 2, idx, j + 1)
  }

  /** decay_load_missed */
  function Decayed(load: nat, missed: nat, idx: nat): nat
    requires idx < CPU_LOAD_IDX_MAX
  {
    if missed == 0 then load
    else if missed >= ZeroTicks(idx) then 0
    else if idx == 1 then Shifted(load, missed)
    else ZeroTicksFit(idx); DecayLoop(load, missed, idx, 0)
  }

  /** load >> n */
  function Shifted(load: nat, n: nat): nat
  {
    DivBounds(load, Pow2(n));
    load / Pow2(n)
  }

  /** The number of columns below the cut-off of an index. */
  function Columns(idx: nat): nat
  {
    match idx case 1 => 3 case 2 => 5 case 3 => 6 case _ => 7
  }

  lemma ZeroTicksFit(idx: nat)
    ensures idx >= 1 ==> ZeroTicks(idx) == Pow2(Columns(idx))
    ensures ZeroTicks(idx) <= Pow2(7)
  {
    assert Pow2(3) == 8;
    assert Pow2(5) == 32;
    assert Pow2(6) == 64;
    assert Pow2(7) == 128;
  }

  /** One odd bit of the missed ticks: multiply by the table entry and shift. */
  function Degraded(load: nat, factor: nat): nat
  {
    IntMulLe(load, 0, factor);
    DivBounds(load * factor, DEGRADE_SCALE);
    load * factor / DEGRADE_SCALE
  }

  method DecayLoadMissed(load0: nat, missed0: nat, idx: nat) returns (load: nat)
    requires idx < CPU_LOAD_IDX_MAX
    ensures load == Decayed(load0, missed0, idx)
  {
    load := load0;
    var missed: nat, j: nat := missed0, 0;
    if missed == 0 {
      return load;
    }
    if missed >= ZeroTicks(idx) {
      return 0;
    }
    if idx == 1 {
      return Shifted(load, missed);
    }
    ZeroTicksFit(idx);
    while missed != 0
      invariant 0 <= j <= 7 && missed < Pow2(7 - j)
      invariant DecayLoop(load, missed, idx, j) == Decayed(load0, missed0, idx)
      decreases missed
    {
      if missed % 2 == 1 {
        load := Degraded(load, DegradeRow(idx)[j]);
      }
      missed := missed / 2;
      j := j + 1;
    }
  }

  // ---- what the table computes ----

  /** The share of a load that one tick leaves, (2^idx - 1) / 2^idx. */
  ghost function Share(idx: nat): (q: real)
    requires 1 <= idx <= 4
    ensures 0.0 <= q <= 1.0
  {
    match idx case 1 => 0.5 case 2 => 0.75 case 3 => 0.875 case _ => 0.9375
  }

  /** What n ticks leave of a load, exactly. */
  ghost function ExactDecay(load: real, n: nat, idx: nat): real
    requires 1 <= idx <= 4
  {
    Mul(load, Power(Share(idx), n))
  }

  lemma SquareBetween(p: real, lo: real, hi: real)
    requires 0.0 <= lo <= p <= hi
    ensures lo * lo <= Mul(p, p) <= hi * hi
  {
    assert p * p - lo * lo == (p - lo) * (p + lo);
    assert hi * hi - p * p == (hi - p) * (hi + p);
    ProductSign(p - lo, p + lo);
    ProductSign(hi - p, hi + p);
  }

  lemma ProductSign(a: real, b: real)
    requires a >= 0.0 && b >= 0.0
    ensures a * b >= 0.0
  {}

  /** Lower bounds for the shares left by 1, 2, 4, 8, 16, 32 and 64 ticks. */
  ghost function LowShare(idx: nat): (b: seq<real>)
    ensures |b| == 7
  {
    match idx
    case 2 => [0.75, 0.5625, 0.3164, 0.1001, 0.01002, 0.0001, 0.0]
    case 3 => [0.875, 0.765625, 0.58618, 0.3436, 0.11806, 0.01393, 0.00019]
    case _ => [0.9375, 0.8789, 0.77246, 0.59669, 0.35603, 0.12675, 0.01606]
  }

  /** Upper bounds for the same shares. */
  ghost function HighShare(idx: nat): (b: seq<real>)
    ensures |b| == 7
  {
    match idx
    case 2 => [0.75, 0.5625, 0.31641, 0.10012, 0.010025, 0.000101, 0.0001]
    case 3 => [0.875, 0.765625, 0.586182, 0.34361, 0.11807, 0.01395, 0.0002]
    case _ => [0.9375, 0.87891, 0.77249, 0.59675, 0.35612, 0.12683, 0.0161]
  }

  /** Squaring a bound gives no better a bound than the next one. */
  lemma BoundsStep(idx: nat, j: nat)
    requires 2 <= idx <= 4 && j < 6
    ensures 0.0 <= LowShare(idx)[j] && LowShare(idx)[j + 1] <= LowShare(idx)[j] * LowShare(idx)[j]
    ensures HighShare(idx)[j] * HighShare(idx)[j] <= HighShare(idx)[j + 1]
  {
    var l, h := LowShare(idx), HighShare(idx);
    if j == 0 { assert l[1] <= l[0] * l[0] && h[0] * h[0] <= h[1]; }
    else if j == 1 { assert l[2] <= l[1] * l[1] && h[1] * h[1] <= h[2]; }
    else if j == 2 { assert l[3] <= l[2] * l[2] && h[2] * h[2] <= h[3]; }
    else if j == 3 { assert l[4] <= l[3] * l[3] && h[3] * h[3] <= h[4]; }
    else if j == 4 { assert l[5] <= l[4] * l[4] && h[4] * h[4] <= h[5]; }
  }

  lemma {:induction false} ShareBetween(idx: nat, j: nat)
    requires 2 <= idx <= 4 && j < 7
    ensures LowShare(idx)[j] <= Power(Share(idx), Pow2(j)) <= HighShare(idx)[j]
  {
    hide Power, Mul;
    if j == 0 {
      FirstPower(Share(idx));
    } else {
      hide LowShare, HighShare;
      ShareBetween(idx, j - 1);
      BoundsStep(idx, j - 1);
      SquareStep(Share(idx), Pow2(j - 1), LowShare(idx)[j - 1], HighShare(idx)[j - 1]);
    }
  }

  lemma FirstPower(q: real)
    ensures Power(q, 1) == q
  {
    assert Power(q, 0) == 1.0;
    MulUnit(q);
  }

  lemma SquareStep(q: real, n: nat, lo: real, hi: real)
    requires 0.0 <= lo <= Power(q, n) <= hi
    ensures lo * lo <= Power(q, 2 * n) <= hi * hi
  {
    PowerAdd(q, n, n);
    SquareBetween(Power(q, n), lo, hi);
  }

  /** Every table entry the loop can use is the exact share rounded down to 128ths. */
  lemma TableIsFloor(idx: nat, j: nat)
    requires 2 <= idx <= 4 && Pow2(j) < ZeroTicks(idx)
    ensures j < 7
    ensures var d := DegradeRow(idx)[j] as real; d <= 128.0 * Power(Share(idx), Pow2(j)) < d + 1.0
  {
    ZeroTicksFit(idx);
    Pow2Order(j, Columns(idx));
    ShareBetween(idx, j);
  }

  lemma {:induction false} Pow2Mono(a: nat, b: nat)
    requires a <= b
    ensures Pow2(a) <= Pow2(b)
  {
    if a < b { Pow2Mono(a, b - 1); }
  }

  lemma Pow2Order(a: nat, b: nat)
    requires Pow2(a) < Pow2(b)
    ensures a < b
  {
    if b <= a { Pow2Mono(b, a); }
  }

  /** k roundings, each of at most a 128th of the load and one unit. */
  ghost function Loss(load: nat, k: nat): (l: real)
    ensures l >= 0.0
  {
    if k == 0 then 0.0 else Loss(load, k - 1) + (load as real / 128.0 + 1.0)
  }

  lemma {:induction false} LossMono(a: nat, b: nat, k: nat)
    requires a <= b
    ensures Loss(a, k) <= Loss(b, k)
  {
    if k > 0 { LossMono(a, b, k - 1); }
  }

  /** One step of the table loop against the exact share of 2^j ticks. */
  lemma DegradedNear(load: nat, idx: nat, j: nat)
    requires 2 <= idx <= 4 && Pow2(j) < ZeroTicks(idx) && j < 7
    ensures Degraded(load, DegradeRow(idx)[j]) <= load
    ensures var x, y := Degraded(load, DegradeRow(idx)[j]) as real, Mul(load as real, Power(Share(idx), Pow2(j)));
            y - (load as real / 128.0 + 1.0) <= x <= y
  {
    TableIsFloor(idx, j);
    var d, p := DegradeRow(idx)[j], Power(Share(idx), Pow2(j));
    PowerRange(Share(idx), Pow2(j));
    hide Power, Share, DegradeRow, Pow2, ZeroTicks, Degraded, Mul;
    TruncationNear(load, d);
    ScaleNear(load as real, d as real, p, Degraded(load, d) as real);
  }

  lemma TruncationNear(load: nat, d: nat)
    requires d <= 128
    ensures Degraded(load, d) <= load
    ensures var x := Degraded(load, d) as real;
            Mul(load as real, d as real) - 128.0 <= 128.0 * x <= Mul(load as real, d as real)
  {
    var x := Degraded(load, d);
    DivBounds(load * d, 128);
    IntMulLe(load, d, 128);
    assert (load * d) as real == load as real * d as real;
    assert 128 * x <= load * d < 128 * x + 128;
  }

  lemma ScaleNear(l: real, d: real, p: real, x: real)
    requires l >= 0.0 && d <= 128.0 * p < d + 1.0 && Mul(l, d) - 128.0 <= 128.0 * x <= Mul(l, d)
    ensures Mul(l, p) - (l / 128.0 + 1.0) <= x <= Mul(l, p)
  {
    hide Mul;
    MulLe(l, d, 128.0 * p);
    MulLe(l, 128.0 * p, d + 1.0);
    Mul128(l, p);
    MulSucc(l, d);
  }

  lemma Mul128(l: real, p: real)
    ensures Mul(l, 128.0 * p) == 128.0 * Mul(l, p)
  {}

  lemma MulSucc(l: real, d: real)
    ensures Mul(l, d + 1.0) == Mul(l, d) + l
  {}

  /** The ticks that the bits from column j on stand for. */
  ghost function Ticks(missed: nat, j: nat): nat
  {
    IntMulLe(missed, 0, Pow2(j));
    missed * Pow2(j)
  }

  lemma TicksLaws(missed: nat, j: nat)
    ensures Ticks(0, j) == 0 && Ticks(missed, 0) == missed
    ensures Ticks(missed, j) == Ticks(missed / 2, j + 1) + (if missed % 2 == 1 then Pow2(j) else 0)
  {
    var h, b, p := missed / 2, missed % 2, Pow2(j);
    assert missed == 2 * h + b;
    assert h * (2 * p) + b * p == (2 * h + b) * p;
  }

  lemma {:induction false} DecayLoopNear(load: nat, missed: nat, idx: nat, j: nat)
    requires 2 <= idx <= 4 && j <= 7 && missed < Pow2(7 - j) && Ticks(missed, j) < ZeroTicks(idx)
    ensures DecayLoop(load, missed, idx, j) <= load
    ensures var exact := ExactDecay(load as real, Ticks(missed, j), idx);
            exact - Loss(load, 7 - j) <= DecayLoop(load, missed, idx, j) as real <= exact
    decreases missed
  {
    TicksLaws(missed, j);
    if missed == 0 {
      MulUnit(load as real);
    } else {
      assert missed / 2 < Pow2(7 - (j + 1));
      hide Degraded, DegradeRow, Mul, Power, Pow2, Share, ZeroTicks, Ticks;
      if missed % 2 == 1 {
        var next := Degraded(load, DegradeRow(idx)[j]);
        DegradedNear(load, idx, j);
        DecayLoopNear(next, missed / 2, idx, j + 1);
        OddStep(load, next, DecayLoop(next, missed / 2, idx, j + 1), idx, j, Ticks(missed / 2, j + 1));
      } else {
        DecayLoopNear(load, missed / 2, idx, j + 1);
      }
    }
  }

  lemma OddStep(load: nat, next: nat, result: nat, idx: nat, j: nat, rest: nat)
    requires 2 <= idx <= 4 && j < 7 && next <= load
    requires var y := ExactDecay(load as real, Pow2(j), idx); y - (load as real / 128.0 + 1.0) <= next as real <= y
    requires var exact := ExactDecay(next as real, rest, idx); exact - Loss(next, 6 - j) <= result as real <= exact
    ensures var exact := ExactDecay(load as real, rest + Pow2(j), idx);
            exact - Loss(load, 7 - j) <= result as real <= exact
  {
    var q, l := Share(idx), load as real;
    LossMono(next, load, 6 - j);
    PowerRange(q, rest);
    PowerAdd(q, Pow2(j), rest);
    hide Mul, Power, Share;
    ChainNear(l, next as real, Power(q, Pow2(j)), Power(q, rest), l / 128.0 + 1.0);
  }

  /** An approximation y of l*p, scaled by a further share r. */
  lemma ChainNear(l: real, y: real, p: real, r: real, d: real)
    requires 0.0 <= r <= 1.0 && d >= 0.0 && Mul(l, p) - d <= y <= Mul(l, p)
    ensures Mul(l, Mul(p, r)) - d <= Mul(y, r) <= Mul(l, Mul(p, r))
  {
    hide Mul;
    var z := Mul(l, p);
    MulAssoc(l, p, r);
    MulComm(y, r);
    MulComm(z, r);
    MulLe(r, y, z);
    MulLe(r, z - d, y);
    MulAdd(r, z, -d);
    MulNeg(r, d);
    MulComm(r, d);
    MulLe(d, r, 1.0);
    MulUnit(d);
  }

  lemma PowerMono(q: real, m: nat, n: nat)
    requires 0.0 <= q <= 1.0 && m <= n
    ensures Power(q, n) <= Power(q, m)
  {
    PowerAdd(q, m, n - m);
    PowerRange(q, m);
    PowerRange(q, n - m);
    hide Power, Mul;
    MulLe(Power(q, m), Power(q, n - m), 1.0);
    MulUnit(Power(q, m));
  }

  lemma {:induction false} HalvesPower(n: nat)
    ensures Mul(Pow2(n) as real, Power(0.5, n)) == 1.0
  {
    if n > 0 {
      HalvesPower(n - 1);
      HalfTimesDouble(Pow2(n - 1) as real, Power(0.5, n - 1));
    }
  }

  lemma HalfTimesDouble(a: real, b: real)
    ensures Mul(2.0 * a, Mul(b, 0.5)) == Mul(a, b)
  {}

  /** The shift at index 1 is the exact decay rounded down. */
  lemma ShiftNear(load: nat, n: nat)
    ensures Shifted(load, n) <= load
    ensures var exact := ExactDecay(load as real, n, 1); exact - 1.0 <= Shifted(load, n) as real <= exact
  {
    var p, r, l, q := Pow2(n), Shifted(load, n), load as real, Power(0.5, n);
    DivBounds(load, p);
    assert (p * r) as real == Mul(p as real, r as real);
    HalvesPower(n);
    IntMulLe(r, 1, p);
    hide Mul, Power, Pow2, Shifted;
    MulAssoc(p as real, q, l);
    MulComm(q, l);
    MulUnit(l);
    var e := Mul(l, q);
    assert Mul(p as real, e) == l;
    MulUnit(p as real);
    MulAdd(p as real, r as real, 1.0);
    Cancel(p as real, r as real, e);
    Cancel(p as real, e, r as real + 1.0);
  }

  /** At the cut-off the exact share has fallen below 7/128. */
  lemma CutOff(idx: nat, n: nat)
    requires 1 <= idx <= 4 && n >= ZeroTicks(idx)
    ensures Power(Share(idx), n) <= 7.0 / 128.0
  {
    var q := Share(idx);
    if idx == 1 {
      HalvesPower(8);
      assert Pow2(4) == 16;
      PowerMono(q, 8, n);
    } else {
      var j := if idx == 2 then 5 else 6;
      assert Pow2(5) == 32 && Pow2(6) == 64;
      ShareBetween(idx, j);
      PowerMono(q, Pow2(j), n);
    }
  }

  /**
   decay_load_missed never raises a load, never leaves more than the exact decay over the missed ticks,
   and falls short of it by at most seven roundings.
   */
  lemma DecayedNear(load: nat, missed: nat, idx: nat)
    requires 1 <= idx <= 4
    ensures Decayed(load, missed, idx) <= load
    ensures var exact := ExactDecay(load as real, missed, idx);
            exact - 7.0 * (load as real / 128.0 + 1.0) <= Decayed(load, missed, idx) as real <= exact
  {
    var l := load as real;
    MulUnit(l);
    PowerRange(Share(idx), missed);
    SevenLosses(load);
    if missed == 0 {
    } else if missed >= ZeroTicks(idx) {
      CutOff(idx, missed);
      hide Power, Mul, Share;
      MulLe(l, Power(Share(idx), missed), 7.0 / 128.0);
      MulLe(l, 0.0, Power(Share(idx), missed));
      SevenParts(l);
    } else if idx == 1 {
      ShiftNear(load, missed);
    } else {
      ZeroTicksFit(idx);
      TicksLaws(missed, 0);
      DecayLoopNear(load, missed, idx, 0);
    }
  }

  lemma SevenParts(l: real)
    ensures Mul(l, 7.0 / 128.0) == 7.0 * (l / 128.0)
  {}

  lemma SevenLosses(load: nat)
    ensures Loss(load, 7) == 7.0 * (load as real / 128.0 + 1.0)
  {
    assert Loss(load, 1) == load as real / 128.0 + 1.0;
    assert Loss(load, 2) == 2.0 * (load as real / 128.0 + 1.0);
    assert Loss(load, 4) == 4.0 * (load as real / 128.0 + 1.0);
    assert Loss(load, 6) == 6.0 * (load as real / 128.0 + 1.0);
  }

  // ---- update_cpu_load ----

  /** The running average of one index: the division is rounded up when the load rises. */
  function Averaged(was: nat, load: nat, i: nat): nat
    requires i >= 1
  {
    Average(was, if load > was then load + (Pow2(i) - 1) else load, Pow2(i), i)
  }

  function Average(oldLoad: nat, newLoad: nat, scale: nat, i: nat): nat
    requires scale >= 1
  {
    IntMulLe(oldLoad, 0, scale - 1);
    Shifted(oldLoad * (scale - 1) + newLoad, i)
  }

  /** The entry of cpu_load[] after pending ticks, all but the last of them missed. */
  function UpdatedEntry(cpuLoad: seq<nat>, load: nat, pending: nat, i: nat): nat
    requires i < |cpuLoad| == CPU_LOAD_IDX_MAX && pending >= 1
  {
    if i == 0 then load else Averaged(Decayed(cpuLoad[i], pending - 1, i), load, i)
  }

  function Ceil(a: nat, d: nat): nat
    requires d > 0
  {
    DivBounds(a + (d - 1), d);
    (a + (d - 1)) / d
  }

  /** The gap between a figure and the load. */
  function Gap(was: nat, load: nat): nat { if load > was then load - was else was - load }

  /** Averaging moves the figure towards the load by exactly a 2^i-th of the gap, rounded up, and never past it. */
  lemma AveragedMoves(was: nat, load: nat, i: nat)
    requires i >= 1
    ensures var step := Ceil(Gap(was, load), Pow2(i));
            step <= Gap(was, load) && (step == 0 <==> was == load) &&
            Averaged(was, load, i) == if load > was then was + step else was - step
  {
    CeilRange(Gap(was, load), Pow2(i));
    IntMulLe(was, 0, Pow2(i) - 1);
    var sum := was * (Pow2(i) - 1) + (if load > was then load + (Pow2(i) - 1) else load);
    Quotient(was, load, Pow2(i), sum, Ceil(Gap(was, load), Pow2(i)));
  }

  lemma Quotient(was: int, load: int, s: int, sum: int, step: int)
    requires s > 0 && sum == was * (s - 1) + (if load > was then load + (s - 1) else load)
    requires var g := if load > was then load - was else was - load; g <= s * step < g + s
    ensures sum / s == if load > was then was + step else was - step
  {
    DivBounds(sum, s);
    var r := if load > was then was + step else was - step;
    assert was * (s - 1) == s * was - was;
    assert s * r == if load > was then s * was + s * step else s * was - s * step;
    Between(s, sum, r, sum / s);
  }

  lemma CeilRange(g: nat, s: nat)
    requires s > 0
    ensures Ceil(g, s) <= g && (Ceil(g, s) == 0 <==> g == 0)
    ensures g <= s * Ceil(g, s) < g + s
  {
    DivBounds(g + (s - 1), s);
    var c := Ceil(g, s);
    if g == 0 {
      IntCancel(s, c, 0);
    } else {
      IntMulLe(g - 1, 1, s);
      assert s * g == g - 1 + (1 + (s - 1) * g);
      SmallProduct(s - 1, g);
      IntCancel(s, c, g);
    }
  }

  lemma SmallProduct(a: int, g: int)
    requires a >= 0 && g >= 1
    ensures a * g >= a
  {}

  /** Quotients are unique. */
  lemma Between(s: int, sum: int, a: int, b: int)
    requires s > 0 && s * a <= sum < s * a + s && s * b <= sum < s * b + s
    ensures a == b
  {
    IntCancel(s, a, b);
    IntCancel(s, b, a);
  }

  /** Each new figure lies between the old one, decayed over the missed ticks, and the load. */
  lemma UpdatedBetween(cpuLoad: seq<nat>, load: nat, pending: nat, i: nat)
    requires i < |cpuLoad| == CPU_LOAD_IDX_MAX && pending >= 1
    ensures var d, r := Decayed(cpuLoad[i], pending - 1, i), UpdatedEntry(cpuLoad, load, pending, i);
            d <= r <= load || load <= r <= d
    ensures i == 0 ==> UpdatedEntry(cpuLoad, load, pending, i) == load
    ensures i >= 1 ==>
              var d := Decayed(cpuLoad[i], pending - 1, i);
              Gap(UpdatedEntry(cpuLoad, load, pending, i), load) == Gap(d, load) - Ceil(Gap(d, load), Pow2(i))
    ensures i >= 1 ==> Decayed(cpuLoad[i], pending - 1, i) <= cpuLoad[i]
    ensures i >= 1 && pending == 1 ==> Decayed(cpuLoad[i], pending - 1, i) == cpuLoad[i]
  {
    if i >= 1 {
      DecayedNear(cpuLoad[i], pending - 1, i);
      AveragedMoves(Decayed(cpuLoad[i], pending - 1, i), load, i);
    }
  }

  /** All entries after n updates, one a tick, under a constant load. */
  function Steady(was: seq<nat>, load: nat, n: nat): (r: seq<nat>)
    requires |was| == CPU_LOAD_IDX_MAX
    ensures |r| == CPU_LOAD_IDX_MAX
  {
    if n == 0 then was
    else
      var last := Steady(was, load, n - 1);
      seq(CPU_LOAD_IDX_MAX, i requires 0 <= i < CPU_LOAD_IDX_MAX => UpdatedEntry(last, load, 1, i))
  }

  /**
   Under a constant load every entry approaches it from one side and reaches it: the gap shrinks by at least one in
   every tick that finds it open, and never exceeds the exact decay of the original gap. Entry 0 is the load at once.
   */
  lemma {:induction false} SteadyConverges(was: seq<nat>, load: nat, i: nat, n: nat)
    requires |was| == CPU_LOAD_IDX_MAX && 1 <= i < CPU_LOAD_IDX_MAX
    ensures n > 0 ==> Steady(was, load, n)[0] == load
    ensures var r := Steady(was, load, n)[i]; was[i] <= r <= load || load <= r <= was[i]
    ensures Gap(Steady(was, load, n)[i], load) <= if n <= Gap(was[i], load) then Gap(was[i], load) - n else 0
    ensures Gap(Steady(was, load, n)[i], load) as real <= ExactDecay(Gap(was[i], load) as real, n, i)
  {
    if n == 0 {
      MulUnit(Gap(was[i], load) as real);
    } else {
      SteadyConverges(was, load, i, n - 1);
      var last := Steady(was, load, n - 1);
      UpdatedBetween(last, load, 1, i);
      CeilRange(Gap(last[i], load), Pow2(i));
      GapShrinks(Gap(last[i], load), i);
      var r := UpdatedEntry(last, load, 1, i);
      assert Steady(was, load, n)[i] == r;
      hide UpdatedEntry, Steady, Decayed, Ceil, Pow2, Averaged;
      var g, p, q := Gap(was[i], load) as real, Power(Share(i), n - 1), Share(i);
      hide Mul;
      MulAssoc(g, p, q);
      MulComm(Gap(last[i], load) as real, q);
      MulComm(Mul(g, p), q);
      MulLe(q, Gap(last[i], load) as real, Mul(g, p));
    }
  }

  lemma GapShrinks(g: nat, i: nat)
    requires 1 <= i <= 4
    ensures Ceil(g, Pow2(i)) <= g && (g - Ceil(g, Pow2(i))) as real <= Mul(g as real, Share(i))
  {
    assert Pow2(1) == 2 && Pow2(2) == 4 && Pow2(3) == 8 && Pow2(4) == 16;
    CeilRange(g, Pow2(i));
    var c := Ceil(g, Pow2(i));
    hide Ceil, Pow2;
    ShareOfGap(g, c, i, if i == 1 then 2 else if i == 2 then 4 else if i == 3 then 8 else 16);
  }

  lemma ShareOfGap(g: nat, c: nat, i: nat, s: nat)
    requires 1 <= i <= 4 && s == (if i == 1 then 2 else if i == 2 then 4 else if i == 3 then 8 else 16)
    requires c <= g <= s * c
    ensures (g - c) as real <= Mul(g as real, Share(i))
  {
    var x, y := g as real, c as real;
    assert (g - c) as real == x - y;
    if i == 1 { assert x <= 2.0 * y; }
    else if i == 2 { assert x <= 4.0 * y; }
    else if i == 3 { assert x <= 8.0 * y; }
    else { assert x <= 16.0 * y; }
  }

  /** The part of a run queue that update_cpu_load keeps. */
  class LoadRecord {
    const cpuLoad: array<nat>
    var lastLoadUpdateTick: nat
    var nrLoadUpdates: nat

    constructor ()
      ensures cpuLoad.Length == CPU_LOAD_IDX_MAX && fresh(cpuLoad)
      ensures forall i :: 0 <= i < CPU_LOAD_IDX_MAX ==> cpuLoad[i] == 0
      ensures lastLoadUpdateTick == nrLoadUpdates == 0
    {
      cpuLoad := new nat[CPU_LOAD_IDX_MAX](i => 0);
      lastLoadUpdateTick := 0;
      nrLoadUpdates := 0;
    }

    /** Ticks since the last update, by unsigned subtraction of a word-sized counter. */
    function Pending(jiffies: nat): (n: nat)
      reads this
      ensures jiffies < WORD && lastLoadUpdateTick < WORD ==>
                n == if jiffies >= lastLoadUpdateTick then jiffies - lastLoadUpdateTick
                     else WORD - lastLoadUpdateTick + jiffies
    {
      (jiffies - lastLoadUpdateTick) % WORD
    }

    method UpdateCpuLoad(load: nat, jiffies: nat)
      requires cpuLoad.Length == CPU_LOAD_IDX_MAX && jiffies < WORD && lastLoadUpdateTick < WORD
      modifies this, cpuLoad
      ensures nrLoadUpdates == old(nrLoadUpdates) + 1 && lastLoadUpdateTick == jiffies
      ensures old(lastLoadUpdateTick) == jiffies ==> cpuLoad[..] == old(cpuLoad[..])
      ensures old(lastLoadUpdateTick) != jiffies ==> old(Pending(jiffies)) >= 1
      ensures old(lastLoadUpdateTick) != jiffies ==>
                forall i :: 0 <= i < CPU_LOAD_IDX_MAX ==>
                    cpuLoad[i] == UpdatedEntry(old(cpuLoad[..]), load, old(Pending(jiffies)), i)
    {
      nrLoadUpdates := nrLoadUpdates + 1;
      if jiffies == lastLoadUpdateTick {
        return;
      }
      var pending := (jiffies - lastLoadUpdateTick) % WORD;
      lastLoadUpdateTick := jiffies;
      ghost var was := cpuLoad[..];
      cpuLoad[0] := load;
      var i, scale := 1, 2;
      while i < CPU_LOAD_IDX_MAX
        invariant 1 <= i <= CPU_LOAD_IDX_MAX && scale == Pow2(i)
        invariant forall k :: 0 <= k < i ==> cpuLoad[k] == UpdatedEntry(was, load, pending, k)
        invariant forall k :: i <= k < CPU_LOAD_IDX_MAX ==> cpuLoad[k] == was[k]
        modifies cpuLoad
      {
        hide Average, Decayed;
        var oldLoad := DecayLoadMissed(cpuLoad[i], pending - 1, i);
        var newLoad := if load > oldLoad then load + (scale - 1) else load;
        cpuLoad[i] := Average(oldLoad, newLoad, scale, i);
        i, scale := i + 1, scale + scale;
      }
    }
  }
}
