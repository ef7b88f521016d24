/** Conversion of floating point gradients to the fixed point numbers that are aggregated:
    a number with `n` bits is an integer `i` in [-2^(n-1), 2^(n-1)) standing for `i / 2^(n-1)`. */
module FixedPoint {
  import opened Wrappers
  import opened Dyadic

  datatype FixedTypeTag = FixedType16Bit | FixedType32Bit

  function Width(tag: FixedTypeTag): (n: nat)
  {
    match tag
    case FixedType16Bit => 16
    case FixedType32Bit => 32
  }

  /** Bit representations, as signed integers. */
  type Bits16 = x: int | -0x8000 <= x < 0x8000

  type Bits32 = x: int | -0x8000_0000 <= x < 0x8000_0000

  datatype VecFixedAny =
    | VecFixed16(v16: seq<Bits16>)
    | VecFixed32(v32: seq<Bits32>)
  {
    function Length(): nat
    {
      match this
      case VecFixed16(v) => |v|
      case VecFixed32(v) => |v|
    }

    /** `IsTagInstance::get_tag` of the element type. */
    function Tag(): FixedTypeTag
    {
      match this
      case VecFixed16(_) => FixedType16Bit
      case VecFixed32(_) => FixedType32Bit
    }
  }

  /** Formats in which 2^(n-1) is a float, as it is in binary32 and binary64 for both widths. */
  predicate Usable(f: Format, n: nat)
  {
    n >= 1 && f.precision >= 1 && f.minExp <= 0 && n <= f.maxExp
  }

  /** The factor 2^(n-1) as a float. */
  function Factor(n: nat): (x: Float)
    requires n >= 1
  {
    Fin(1, n - 1)
  }

  lemma FactorIsFloat(f: Format, n: nat)
    requires Usable(f, n)
    ensures InFormat(f, Factor(n)) && Value(Factor(n)) == Pow2(n - 1) as real
  {
    Pow2Positive(f.precision);
    ScaleIsProduct(1.0, n - 1);
  }

  /** The factor is a number of both standard formats for both widths, exactly. */
  lemma StandardFormatsUsable(tag: FixedTypeTag)
    ensures var n := Width(tag);
            && Usable(F32, n) && Usable(F64, n)
            && InFormat(F32, Factor(n)) && InFormat(F64, Factor(n))
            && Value(Factor(n)) == Pow2(n - 1) as real
  {
    FactorIsFloat(F32, Width(tag));
    FactorIsFloat(F64, Width(tag));
  }

  function FloatToFixedFloor(f: Format, n: nat, x: Float): (r: Result<int>)
    requires n >= 1 && InFormat(f, x)
  {
    FloatToFixedWith(f, n, x, Floor)
  }

  function FloatToFixedCeil(f: Format, n: nat, x: Float): (r: Result<int>)
    requires n >= 1 && InFormat(f, x)
  {
    FloatToFixedWith(f, n, x, Ceil)
  }

  /** Scale to whole units, round to an integral float, cast to the bit representation. */
  function FloatToFixedWith(f: Format, n: nat, x: Float, round: Float -> Float): (r: Result<int>)
    requires n >= 1 && InFormat(f, x)
  {
    match ToSigned(round(Times2k(f, x, n - 1)), n)
    case None => Err
    case Some(bits) => Ok(bits)
  }

  // ---------------------------------------------------------------- exact specification

  /** One unit in the last place of an `n` bit fixed point number, 2^-(n-1). */
  function Ulp(n: nat): (u: real)
  {
    Scale(1.0, 1 - n)
  }

  /** `v` counted in units of the last place, v * 2^(n-1). */
  function Units(n: nat, v: real): real
  {
    Scale(v, n - 1)
  }

  predicate FloorAccepts(v: real) { -1.0 <= v < 1.0 }

  predicate CeilAccepts(n: nat, v: real)
  {
    -1.0 - Ulp(n) < v <= 1.0 - Ulp(n)
  }

  function ExactFloor(n: nat, x: Float): (r: Result<int>)
  {
    if x.Fin? && FloorAccepts(Value(x)) then Ok(Units(n, Value(x)).Floor) else Err
  }

  function ExactCeil(n: nat, x: Float): (r: Result<int>)
  {
    if x.Fin? && CeilAccepts(n, Value(x)) then Ok(CeilOf(Units(n, Value(x)))) else Err
  }

  /** No floating point error anywhere: the conversions are the real floor and ceiling of
      x * 2^(n-1), accepted on exactly these intervals; NaN and infinities are refused. */
  lemma ConversionExact(f: Format, n: nat, x: Float)
    requires Usable(f, n) && InFormat(f, x)
    ensures FloatToFixedFloor(f, n, x) == ExactFloor(n, x)
    ensures FloatToFixedCeil(f, n, x) == ExactCeil(n, x)
  {
    if x.Fin? {
      var y, w := Times2k(f, x, n - 1), Units(n, Value(x));
      Times2kIsProduct(f, x, n - 1);
      AcceptRanges(n, Value(x));
      if y.Fin? {
        RoundToIntegralExact(f, y);
        ToSignedExact(Floor(y), n);
        ToSignedExact(Ceil(y), n);
        FloorOfInteger(Value(Floor(y)), w.Floor);
        FloorOfInteger(Value(Ceil(y)), CeilOf(w));
      } else {
        TopIsOutside(f, n);
        OutsideRange(w, Pow2(n - 1));
      }
    }
  }

  lemma TopIsOutside(f: Format, n: nat)
    requires Usable(f, n)
    ensures Top(f) >= 2.0 * Pow2(n - 1) as real
  {
    ScaleIsProduct(1.0, n);
    ScaleGrows(1.0, n, f.maxExp);
    Pow2Positive(f.precision);
    ScaleOrder(1.0, Pow2(f.precision) as real, f.maxExp);
  }

  lemma Pow2Positive(p: nat)
    requires p >= 1
    ensures Pow2(p) >= 2
  {
  }

  /** Units and values are inverse scalings. */
  lemma UnitsInverse(n: nat, w: real)
    requires n >= 1
    ensures Units(n, Scale(w, 1 - n)) == w
  {
    ScaleAdd(w, 1 - n, n - 1);
  }

  lemma UnitsOfOne(n: nat)
    requires n >= 1
    ensures Units(n, 1.0) == Pow2(n - 1) as real && Units(n, -1.0) == -(Pow2(n - 1) as real)
    ensures Units(n, Ulp(n)) == 1.0
  {
    ScaleIsProduct(1.0, n - 1);
    ScaleLinear(1.0, 0.0, n - 1);
    UnitsInverse(n, 1.0);
  }

  /** The representable integers, in units and as real intervals. */
  lemma AcceptRanges(n: nat, v: real)
    requires n >= 1
    ensures FloorAccepts(v) <==> -Pow2(n - 1) <= Units(n, v).Floor < Pow2(n - 1)
    ensures CeilAccepts(n, v) <==> -Pow2(n - 1) <= CeilOf(Units(n, v)) < Pow2(n - 1)
  {
    var u := Ulp(n);
    UnitsOfOne(n);
    ScaleOrder(v, -1.0, n - 1);
    ScaleOrder(v, 1.0, n - 1);
    ScaleOrder(-1.0 - u, v, n - 1);
    ScaleOrder(1.0 - u, v, n - 1);
    ScaleLinear(u, 0.0, n - 1);
    ScaleLinear(-1.0, -u, n - 1);
    ScaleLinear(1.0, -u, n - 1);
    IntegerBounds(Units(n, v), Pow2(n - 1));
  }

  lemma IntegerBounds(w: real, s: int)
    ensures -s <= w.Floor < s <==> -(s as real) <= w < s as real
    ensures -s <= CeilOf(w) < s <==> -(s as real) - 1.0 < w <= s as real - 1.0
  {
  }

  lemma OutsideRange(w: real, s: int)
    requires s >= 1 && Abs(w) >= 2.0 * s as real
    ensures !(-s <= w.Floor < s) && !(-s <= CeilOf(w) < s)
  {
  }

  // ---------------------------------------------------------------- rounding laws

  /** The real number a bit representation stands for, bits * 2^-(n-1). */
  function FixedValue(n: nat, bits: int): real
  {
    Scale(bits as real, 1 - n)
  }

  predicate OnGrid(n: nat, v: real)
  {
    Units(n, v) == Units(n, v).Floor as real
  }

  /** The two conversions bracket x, each by strictly less than one unit; they coincide on the
      grid and are neighbours off it. */
  lemma Bracketing(f: Format, n: nat, x: Float)
    requires Usable(f, n) && InFormat(f, x) && x.Fin?
    ensures var fl, v := FloatToFixedFloor(f, n, x), Value(x);
            fl.Ok? ==> FixedValue(n, fl.value) <= v < FixedValue(n, fl.value) + Ulp(n)
    ensures var ce, v := FloatToFixedCeil(f, n, x), Value(x);
            ce.Ok? ==> FixedValue(n, ce.value) - Ulp(n) < v <= FixedValue(n, ce.value)
    ensures var fl, ce := FloatToFixedFloor(f, n, x), FloatToFixedCeil(f, n, x);
            fl.Ok? && ce.Ok? ==> ce.value == fl.value + if OnGrid(n, Value(x)) then 0 else 1
  {
    ConversionExact(f, n, x);
    Bracket(n, Value(x), Units(n, Value(x)).Floor);
    Bracket(n, Value(x), CeilOf(Units(n, Value(x))));
  }

  /** Comparing with a grid point can be done in units. */
  lemma Bracket(n: nat, v: real, bits: int)
    requires n >= 1
    ensures FixedValue(n, bits) <= v <==> bits as real <= Units(n, v)
    ensures v <= FixedValue(n, bits) <==> Units(n, v) <= bits as real
    ensures v < FixedValue(n, bits) + Ulp(n) <==> Units(n, v) < bits as real + 1.0
    ensures FixedValue(n, bits) - Ulp(n) < v <==> bits as real - 1.0 < Units(n, v)
  {
    UnitsInverse(n, bits as real);
    UnitsInverse(n, (bits + 1) as real);
    UnitsInverse(n, (bits - 1) as real);
    ScaleLinear(bits as real, 1.0, 1 - n);
    ScaleLinear((bits - 1) as real, 1.0, 1 - n);
    ScaleOrder(v, FixedValue(n, bits), n - 1);
    ScaleOrder(FixedValue(n, bits), v, n - 1);
    ScaleOrder(v, FixedValue(n, bits + 1), n - 1);
    ScaleOrder(FixedValue(n, bits - 1), v, n - 1);
  }

  /** Larger inputs never convert to smaller numbers. */
  lemma Monotone(f: Format, n: nat, x: Float, y: Float)
    requires Usable(f, n) && InFormat(f, x) && InFormat(f, y)
    requires x.Fin? && y.Fin? && Value(x) <= Value(y)
    ensures FloatToFixedFloor(f, n, x).Ok? && FloatToFixedFloor(f, n, y).Ok?
            ==> FloatToFixedFloor(f, n, x).value <= FloatToFixedFloor(f, n, y).value
    ensures FloatToFixedCeil(f, n, x).Ok? && FloatToFixedCeil(f, n, y).Ok?
            ==> FloatToFixedCeil(f, n, x).value <= FloatToFixedCeil(f, n, y).value
  {
    ConversionExact(f, n, x);
    ConversionExact(f, n, y);
    ScaleOrder(Value(y), Value(x), n - 1);
  }

  /** Ceiling is floor mirrored; the mirror image may be out of range only at the ends. */
  lemma Mirror(f: Format, n: nat, x: Float)
    requires Usable(f, n) && InFormat(f, x) && x.Fin?
    ensures InFormat(f, Negate(x))
    ensures var ce, fl := FloatToFixedCeil(f, n, x), FloatToFixedFloor(f, n, Negate(x));
            && (ce.Ok? && fl.Ok? ==> ce.value == -fl.value)
            && (fl.Ok? && !ce.Ok? <==> 1.0 - Ulp(n) < Value(x) <= 1.0)
            && (ce.Ok? && !fl.Ok? <==> -1.0 - Ulp(n) < Value(x) <= -1.0)
  {
    ConversionExact(f, n, x);
    ConversionExact(f, n, Negate(x));
    NegateValue(x);
    ScaleLinear(Value(x), 0.0, n - 1);
    UlpBounds(n);
  }

  lemma UlpBounds(n: nat)
    requires n >= 1
    ensures 0.0 < Ulp(n) <= 1.0
  {
    ScaleZero(1 - n);
    ScaleOrder(0.0, 1.0, 1 - n);
    ScaleGrows(1.0, 1 - n, 0);
  }

  /** A float that is a representable fixed point number converts to it, both ways. */
  lemma GridFixpoint(f: Format, n: nat, x: Float, bits: int)
    requires Usable(f, n) && InFormat(f, x) && x.Fin?
    requires -Pow2(n - 1) <= bits < Pow2(n - 1) && Value(x) == FixedValue(n, bits)
    ensures FloatToFixedFloor(f, n, x) == Ok(bits) == FloatToFixedCeil(f, n, x)
  {
    ConversionExact(f, n, x);
    UnitsInverse(n, bits as real);
    FloorOfInteger(Units(n, Value(x)), bits);
    AcceptRanges(n, Value(x));
  }

  /** The integers of `n` bits are those of the two element types. */
  lemma WidthsAreExact()
    ensures Pow2(Width(FixedType16Bit) - 1) == 0x8000 && Pow2(Width(FixedType32Bit) - 1) == 0x8000_0000
    ensures Pow2(53) > 0x8000_0000
  {
    assert Pow2(7) == 128;
    Pow2Eight(7);
    Pow2Eight(15);
    Pow2Eight(23);
    Pow2Grows(32, 53);
    assert Pow2(32) == 2 * Pow2(31);
  }

  lemma Pow2Eight(n: nat)
    ensures Pow2(n + 8) == 256 * Pow2(n)
  {
    assert Pow2(n + 4) == 2 * Pow2(n + 3) == 4 * Pow2(n + 2) == 8 * Pow2(n + 1) == 16 * Pow2(n);
    assert Pow2(n + 8) == 2 * Pow2(n + 7) == 4 * Pow2(n + 6) == 8 * Pow2(n + 5) == 16 * Pow2(n + 4);
  }

  lemma {:induction false} Pow2Grows(a: nat, b: nat)
    requires a <= b
    ensures Pow2(a) <= Pow2(b)
    decreases b - a
  {
    if a == b {
    } else {
      Pow2Grows(a, b - 1);
    }
  }

  predicate FitsType(tag: FixedTypeTag, bits: int)
  {
    match tag
    case FixedType16Bit => -0x8000 <= bits < 0x8000
    case FixedType32Bit => -0x8000_0000 <= bits < 0x8000_0000
  }

  lemma TypeIsRange(tag: FixedTypeTag, bits: int)
    ensures FitsType(tag, bits) <==> -Pow2(Width(tag) - 1) <= bits < Pow2(Width(tag) - 1)
    ensures FitsType(tag, bits) ==> -Pow2(53) < bits < Pow2(53)
  {
    WidthsAreExact();
  }

  /** Whatever is converted to one of the two element types fits it, and from binary64 each of its
      values is obtained. */
  lemma ConversionsOntoTypes(f: Format, tag: FixedTypeTag, x: Float, bits: int)
    requires InFormat(f, x)
    ensures FloatToFixedFloor(f, Width(tag), x) == Ok(bits) ==> FitsType(tag, bits)
    ensures FloatToFixedCeil(f, Width(tag), x) == Ok(bits) ==> FitsType(tag, bits)
    ensures FitsType(tag, bits) ==>
              var x := Fin(bits, 1 - Width(tag));
              InFormat(F64, x) && FloatToFixedFloor(F64, Width(tag), x) == Ok(bits)
  {
    TypeIsRange(tag, bits);
    if FitsType(tag, bits) { GridFixpoint(F64, Width(tag), Fin(bits, 1 - Width(tag)), bits); }
  }

  // ---------------------------------------------------------------- coherence of the two widths

  /** Keep the leading bits of a converted number, rounding down. */
  function DropBits(r: Result<int>, k: nat): (s: Result<int>)
  {
    match r
    case Err => Err
    case Ok(bits) => Ok(ShiftDown(bits, k))
  }

  /** Flooring to `n + k` bits and then flooring away `k` bits is flooring to `n` bits, and both
      widths accept the same inputs. */
  lemma FloorCoherence(f: Format, n: nat, k: nat, x: Float)
    requires Usable(f, n) && Usable(f, n + k) && InFormat(f, x)
    ensures DropBits(FloatToFixedFloor(f, n + k, x), k) == FloatToFixedFloor(f, n, x)
  {
    ConversionExact(f, n, x);
    ConversionExact(f, n + k, x);
    ExactFloorCoherence(n, k, x);
  }

  lemma ExactFloorCoherence(n: nat, k: nat, x: Float)
    requires n >= 1
    ensures DropBits(ExactFloor(n + k, x), k) == ExactFloor(n, x)
  {
    if x.Fin? { NestedUnits(n, k, Value(x)); }
  }

  lemma NestedUnits(n: nat, k: nat, v: real)
    requires n >= 1
    ensures ShiftDown(Units(n + k, v).Floor, k) == Units(n, v).Floor
    ensures ShiftDown(-CeilOf(Units(n + k, v)), k) == -CeilOf(Units(n, v))
  {
    ScaleAdd(v, n - 1, k);
    NestedFloor(Units(n, v), k);
    ScaleLinear(Units(n, v), 0.0, k);
    NestedFloor(-Units(n, v), k);
  }

  function Opposite(r: Result<int>): (s: Result<int>)
  {
    match r
    case Err => Err
    case Ok(bits) => Ok(-bits)
  }

  /** The same for ceilings, but not on the same inputs: the wider conversion also takes the
      values less than one narrow unit below one, the narrower one those below minus one. */
  lemma CeilCoherence(f: Format, n: nat, k: nat, x: Float)
    requires Usable(f, n) && Usable(f, n + k) && InFormat(f, x) && x.Fin?
    ensures var wide, narrow := FloatToFixedCeil(f, n + k, x), FloatToFixedCeil(f, n, x);
            && (wide.Ok? && narrow.Ok? ==> Opposite(DropBits(Opposite(wide), k)) == narrow)
            && (wide.Ok? && !narrow.Ok? <==> 1.0 - Ulp(n) < Value(x) <= 1.0 - Ulp(n + k))
            && (narrow.Ok? && !wide.Ok? <==> -1.0 - Ulp(n) < Value(x) <= -1.0 - Ulp(n + k))
  {
    ConversionExact(f, n, x);
    ConversionExact(f, n + k, x);
    ExactCeilCoherence(n, k, x);
    CeilIntervals(n, k, Value(x));
  }

  lemma ExactCeilCoherence(n: nat, k: nat, x: Float)
    requires n >= 1
    ensures var wide, narrow := ExactCeil(n + k, x), ExactCeil(n, x);
            wide.Ok? && narrow.Ok? ==> Opposite(DropBits(Opposite(wide), k)) == narrow
  {
    if x.Fin? { NestedUnits(n, k, Value(x)); }
  }

  lemma CeilIntervals(n: nat, k: nat, v: real)
    requires n >= 1
    ensures CeilAccepts(n + k, v) && !CeilAccepts(n, v) <==> 1.0 - Ulp(n) < v <= 1.0 - Ulp(n + k)
    ensures CeilAccepts(n, v) && !CeilAccepts(n + k, v) <==> -1.0 - Ulp(n) < v <= -1.0 - Ulp(n + k)
  {
    ScaleGrows(1.0, 1 - n - k, 1 - n);
    UlpBounds(n);
    UlpBounds(n + k);
  }

  lemma {:induction false} NestedFloor(a: real, k: nat)
    ensures ShiftDown(Scale(a, k).Floor, k) == a.Floor
    decreases k
  {
    if k == 0 {
    } else {
      ScaleLinear(a, a, k - 1);
      NestedFloor(a + a, k - 1);
      HalfFloor(a + a);
    }
  }

  /** Where the code departs from its comment, which asks for inputs in [-1, 1]: one itself is
      refused by both conversions, and values up to one unit below minus one pass the ceiling. */
  lemma EndpointsOfTheUnitInterval(f: Format, n: nat, x: Float)
    requires Usable(f, n) && InFormat(f, x) && x.Fin?
    ensures Value(x) == 1.0 ==> FloatToFixedFloor(f, n, x) == Err == FloatToFixedCeil(f, n, x)
    ensures Value(x) == -1.0 ==> FloatToFixedFloor(f, n, x) == Ok(-Pow2(n - 1)) == FloatToFixedCeil(f, n, x)
    ensures -1.0 - Ulp(n) < Value(x) < -1.0
            ==> FloatToFixedFloor(f, n, x) == Err && FloatToFixedCeil(f, n, x) == Ok(-Pow2(n - 1))
  {
    ConversionExact(f, n, x);
    UlpBounds(n);
    UnitsOfOne(n);
    AcceptRanges(n, Value(x));
    ScaleOrder(Value(x), -1.0, n - 1);
    if Value(x) == -1.0 { FloorOfInteger(Units(n, -1.0), -Pow2(n - 1)); }
  }
}
