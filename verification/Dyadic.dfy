/** Binary floating point as IEEE 754-2019 defines it: a finite value is an integer
    significand of bounded width times a power of two. Signed zeros are not told apart:
    no operation below can observe the sign of a zero. */
module Dyadic {
  import opened Wrappers

  function Pow2(n: nat): (r: int)
    ensures r >= 1
  {
    if n == 0 then 1 else 2 * Pow2(n - 1)
  }

  /** `v * 2^e`, by doubling or halving. */
  function Scale(v: real, e: int): (r: real)
    decreases if e < 0 then -e else e
  {
    if e == 0 then v else if e > 0 then 2.0 * Scale(v, e - 1) else Scale(v, e + 1) / 2.0
  }

  function Abs(r: real): real { if r < 0.0 then -r else r }

  /** Shift left. */
  function ShiftUp(m: int, k: nat): (r: int)
  {
    if k == 0 then m else 2 * ShiftUp(m, k - 1)
  }

  /** Arithmetic shift right, rounding down. */
  function ShiftDown(m: int, k: nat): (r: int)
  {
    if k == 0 then m else ShiftDown(m, k - 1) / 2
  }

  // ---------------------------------------------------------------- laws of scaling

  lemma {:induction false} ScaleIsProduct(v: real, k: nat)
    ensures Scale(v, k) == v * Pow2(k) as real
  {
    if k == 0 {
    } else {
      ScaleIsProduct(v, k - 1);
      Doubled(v, Pow2(k - 1));
    }
  }

  /** Shifting left is exact scaling. */
  lemma {:induction false} ShiftUpIsScale(m: int, k: nat)
    ensures Scale(m as real, k) == ShiftUp(m, k) as real
  {
    if k == 0 {
    } else {
      ShiftUpIsScale(m, k - 1);
    }
  }

  /** Shifting right is scaling followed by the real floor. */
  lemma {:induction false} ShiftDownIsFloor(m: int, k: nat)
    ensures ShiftDown(m, k) == Scale(m as real, 0 - k).Floor
  {
    if k == 0 {
    } else {
      ShiftDownIsFloor(m, k - 1);
      HalfFloor(Scale(m as real, 1 - k));
    }
  }

  lemma HalfFloor(v: real)
    ensures (v / 2.0).Floor == v.Floor / 2
  {
  }

  lemma {:induction false} ShiftDownShrinks(m: int, k: nat)
    ensures m >= 0 ==> 0 <= ShiftDown(m, k) <= m
    ensures m < 0 ==> m <= ShiftDown(m, k) < 0
  {
    if k == 0 {
    } else {
      ShiftDownShrinks(m, k - 1);
    }
  }

  lemma Doubled(v: real, p: int)
    ensures 2.0 * (v * p as real) == v * (2 * p) as real
  {
  }

  lemma {:induction false} ScaleAdd(v: real, e: int, k: nat)
    ensures Scale(Scale(v, e), k) == Scale(v, e + k)
  {
    if k == 0 {
    } else {
      ScaleAdd(v, e, k - 1);
      ScaleStep(v, e + k - 1);
    }
  }

  lemma ScaleStep(v: real, e: int)
    ensures Scale(v, e + 1) == 2.0 * Scale(v, e)
  {
  }

  lemma {:induction false} ScaleCommutes(v: real, e: int, k: nat)
    ensures Scale(Scale(v, k), e) == Scale(v, e + k)
    decreases if e < 0 then -e else e
  {
    if e == 0 {
    } else if e > 0 {
      ScaleCommutes(v, e - 1, k);
    } else {
      ScaleCommutes(v, e + 1, k);
      ScaleStep(v, e + k);
    }
  }

  /** Scaling keeps order and sign. */
  lemma {:induction false} ScaleOrder(v: real, w: real, e: int)
    ensures v < w <==> Scale(v, e) < Scale(w, e)
    ensures v == w <==> Scale(v, e) == Scale(w, e)
    decreases if e < 0 then -e else e
  {
    if e == 0 {
    } else if e > 0 {
      ScaleOrder(v, w, e - 1);
    } else {
      ScaleOrder(v, w, e + 1);
    }
  }

  lemma {:induction false} ScaleLinear(v: real, w: real, e: int)
    ensures Scale(v + w, e) == Scale(v, e) + Scale(w, e)
    ensures Scale(-v, e) == -Scale(v, e)
    decreases if e < 0 then -e else e
  {
    if e == 0 {
    } else if e > 0 {
      ScaleLinear(v, w, e - 1);
    } else {
      ScaleLinear(v, w, e + 1);
    }
  }

  lemma {:induction false} ScaleZero(e: int)
    ensures Scale(0.0, e) == 0.0
    decreases if e < 0 then -e else e
  {
    if e == 0 {
    } else if e > 0 {
      ScaleZero(e - 1);
    } else {
      ScaleZero(e + 1);
    }
  }

  /** A larger exponent only moves a value away from zero. */
  lemma {:induction false} ScaleGrows(v: real, a: int, b: int)
    requires a <= b && v >= 0.0
    ensures 0.0 <= Scale(v, a) <= Scale(v, b)
    decreases b - a
  {
    ScaleZero(a);
    ScaleOrder(0.0, v, a);
    if a == b {
    } else {
      ScaleGrows(v, a, b - 1);
      ScaleStep(v, b - 1);
    }
  }

  // ---------------------------------------------------------------- floats

  /** `minExp` and `maxExp` bound the exponent of the last significand bit. */
  datatype Format = Format(precision: nat, minExp: int, maxExp: int)

  const F32 := Format(24, -149, 104)

  const F64 := Format(53, -1074, 971)

  datatype Float = NaN | Inf(negative: bool) | Fin(m: int, e: int)

  predicate InFormat(f: Format, x: Float)
  {
    x.Fin? ==> -Pow2(f.precision) < x.m < Pow2(f.precision) && f.minExp <= x.e <= f.maxExp
  }

  /** The real number a finite float stands for. */
  function Value(x: Float): (v: real)
    requires x.Fin?
  {
    Scale(x.m as real, x.e)
  }

  function Negate(x: Float): (y: Float)
  {
    match x
    case NaN => NaN
    case Inf(negative) => Inf(!negative)
    case Fin(m, e) => Fin(-m, e)
  }

  /** The product of `x` and the float `2^k`. */
  function Times2k(f: Format, x: Float, k: nat): (y: Float)
    requires InFormat(f, x)
  {
    if !x.Fin? then x
    else if x.e + k <= f.maxExp then Fin(x.m, x.e + k)
    else Saturate(f, ShiftUp(x.m, x.e + k - f.maxExp))
  }

  /** The float `m * 2^maxExp`, or the infinity of its sign when the significand is too wide. */
  function Saturate(f: Format, m: int): (y: Float)
  {
    if -Pow2(f.precision) < m < Pow2(f.precision) then Fin(m, f.maxExp) else Inf(m < 0)
  }

  /** `Float::floor`. */
  function Floor(x: Float): (y: Float)
  {
    if x.Fin? && x.e < 0 then Fin(ShiftDown(x.m, -x.e), 0) else x
  }

  /** `Float::ceil`. */
  function Ceil(x: Float): (y: Float)
  {
    if x.Fin? && x.e < 0 then Fin(-ShiftDown(-x.m, -x.e), 0) else x
  }

  /** `NumCast::from` into a signed integer of `n` bits: truncate, then check the range. */
  function ToSigned(x: Float, n: nat): (r: Option<int>)
    requires n >= 1
  {
    if !x.Fin? then None
    else
      var t := if x.e >= 0 then ShiftUp(x.m, x.e)
               else if x.m >= 0 then ShiftDown(x.m, -x.e) else -ShiftDown(-x.m, -x.e);
      if -Pow2(n - 1) <= t < Pow2(n - 1) then Some(t) else None
  }

  // ---------------------------------------------------------------- the product is exact

  /** The power of two just above every finite number of the format. */
  function Top(f: Format): real
  {
    Scale(Pow2(f.precision) as real, f.maxExp)
  }

  /** Section 4.3.1 of IEEE 754-2019, round to nearest: infinity from half a unit above the
      largest finite number on, otherwise a finite number with none nearer. */
  ghost predicate CorrectlyRounded(f: Format, r: real, y: Float)
  {
    if Abs(r) >= Top(f) - Scale(0.5, f.maxExp) then y == Inf(r < 0.0)
    else
      && y.Fin? && InFormat(f, y)
      && forall z: Float :: z.Fin? && InFormat(f, z) ==> Abs(Value(y) - r) <= Abs(Value(z) - r)
  }

  ghost predicate ExactOrOverflow(f: Format, r: real, y: Float)
  {
    && InFormat(f, y)
    && CorrectlyRounded(f, r, y)
    && (if y.Fin? then Value(y) == r else Abs(r) >= Top(f))
  }

  lemma TopIsPower(f: Format)
    ensures Top(f) == Scale(1.0, f.precision + f.maxExp)
  {
    ScaleIsProduct(1.0, f.precision);
    ScaleCommutes(1.0, f.maxExp, f.precision);
  }

  /** The parameters of binary32 and binary64 in table 3.5 of IEEE 754-2019: precision, the power
      of two above every finite number, and the smallest positive number. */
  lemma StandardParameters()
    ensures F32.precision == 24 && Top(F32) == Scale(1.0, 128) && F32.minExp == -126 - 23
    ensures F64.precision == 53 && Top(F64) == Scale(1.0, 1024) && F64.minExp == -1022 - 52
  {
    TopIsPower(F32);
    TopIsPower(F64);
  }

  /** Multiplying by the float 2^k is the correctly rounded product with the real 2^k, and it
      loses nothing unless it overflows. */
  lemma Times2kIsProduct(f: Format, x: Float, k: nat)
    requires InFormat(f, x) && x.Fin?
    ensures ExactOrOverflow(f, Scale(Value(x), k), Times2k(f, x, k))
  {
    ScaleAdd(x.m as real, x.e, k);
    if x.e + k <= f.maxExp {
      RoundedIfExact(f, Times2k(f, x, k));
    } else {
      var d := x.e + k - f.maxExp;
      ScaleCommutes(x.m as real, f.maxExp, d);
      ShiftUpIsScale(x.m, d);
      Saturated(f, ShiftUp(x.m, d));
    }
  }

  lemma RoundedIfExact(f: Format, y: Float)
    requires y.Fin? && InFormat(f, y)
    ensures CorrectlyRounded(f, Value(y), y)
  {
    FiniteBelowTop(f, y);
  }

  lemma Saturated(f: Format, m: int)
    requires f.minExp <= f.maxExp
    ensures var y := Saturate(f, m);
            && CorrectlyRounded(f, Scale(m as real, f.maxExp), y)
            && (if y.Fin? then Value(y) == Scale(m as real, f.maxExp)
                else Abs(Scale(m as real, f.maxExp)) >= Top(f))
  {
    if Saturate(f, m).Fin? {
      RoundedIfExact(f, Saturate(f, m));
    } else {
      Overflow(f, m);
    }
  }

  lemma Overflow(f: Format, m: int)
    requires m >= Pow2(f.precision) || m <= -Pow2(f.precision)
    ensures Abs(Scale(m as real, f.maxExp)) >= Top(f) > Top(f) - Scale(0.5, f.maxExp)
    ensures Scale(m as real, f.maxExp) < 0.0 <==> m < 0
  {
    var p := Pow2(f.precision) as real;
    ScaleZero(f.maxExp);
    ScaleOrder(0.0, 0.5, f.maxExp);
    ScaleOrder(m as real, 0.0, f.maxExp);
    ScaleOrder(m as real, p, f.maxExp);
    ScaleOrder(-p, m as real, f.maxExp);
    ScaleLinear(p, 0.0, f.maxExp);
  }

  lemma FiniteBelowTop(f: Format, y: Float)
    requires y.Fin? && InFormat(f, y)
    ensures Abs(Value(y)) < Top(f) - Scale(0.5, f.maxExp)
  {
    var a := Abs(y.m as real);
    var p := Pow2(f.precision) as real;
    ScaleLinear(y.m as real, 0.0, y.e);
    ScaleGrows(a, y.e, f.maxExp);
    ScaleOrder(a, p - 0.5, f.maxExp);
    ScaleLinear(p - 0.5, 0.5, f.maxExp);
  }

  // ---------------------------------------------------------------- floor, ceil and cast are exact

  function CeilOf(v: real): int { -(-v).Floor }

  lemma NegateValue(x: Float)
    requires x.Fin?
    ensures Value(Negate(x)) == -Value(x)
  {
    ScaleLinear(x.m as real, 0.0, x.e);
  }

  /** Section 5.9 of IEEE 754-2019, round to integral toward negative and toward positive:
      both results are in the format and exact. */
  lemma RoundToIntegralExact(f: Format, x: Float)
    requires InFormat(f, x) && x.Fin? && f.minExp <= 0 <= f.maxExp
    ensures InFormat(f, Floor(x)) && Floor(x).Fin? && Value(Floor(x)) == Value(x).Floor as real
    ensures InFormat(f, Ceil(x)) && Ceil(x).Fin? && Value(Ceil(x)) == CeilOf(Value(x)) as real
    ensures Floor(x).e >= 0 && Ceil(x).e >= 0
  {
    if x.e < 0 {
      NegateValue(x);
      ShiftDownIsFloor(x.m, -x.e);
      ShiftDownIsFloor(-x.m, -x.e);
      ShiftDownShrinks(x.m, -x.e);
      ShiftDownShrinks(-x.m, -x.e);
    } else {
      ShiftUpIsScale(x.m, x.e);
      FloorOfInteger(Value(x), ShiftUp(x.m, x.e));
    }
  }

  lemma FloorOfInteger(v: real, k: int)
    requires v == k as real
    ensures v.Floor == k && (-v).Floor == -k
  {
  }

  /** On an integral float the cast is exact within the signed range and refuses outside it. */
  lemma ToSignedExact(x: Float, n: nat)
    requires n >= 1 && x.Fin? && x.e >= 0
    ensures ToSigned(x, n)
         == if -Pow2(n - 1) <= Value(x).Floor < Pow2(n - 1) then Some(Value(x).Floor) else None
  {
    ShiftUpIsScale(x.m, x.e);
    FloorOfInteger(Value(x), ShiftUp(x.m, x.e));
  }
}
