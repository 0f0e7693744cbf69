/**
  Decimal numbers as coefficient and exponent, the exact-or-reject arithmetic of the
  ledger, and the value of a decimal as a rational.
 */
module Decimals {

  import opened Options

  datatype Dec = Dec(coef: int, exp: int)

  const ZERO := Dec(0, 0)

  // ----- Powers of ten -----

  function Pow10(n: nat): (p: nat)
    ensures p >= 1
  {
    if n == 0 then 1 else 10 * Pow10(n - 1)
  }

  lemma {:induction false} Pow10Add(m: nat, n: nat)
    ensures Pow10(m + n) == Pow10(m) * Pow10(n)
  {
    if m > 0 { Pow10Add(m - 1, n); }
  }

  lemma {:induction false} Pow10Grows(m: nat, n: nat)
    requires m <= n
    ensures Pow10(m) <= Pow10(n)
    decreases n
  {
    if m < n { Pow10Grows(m, n - 1); }
  }

  function Inverse(p: real): (i: real)
    requires p > 0.0
    ensures i > 0.0 && i * p == 1.0
  {
    1.0 / p
  }

  /** Ten to an integer power. */
  function Scale(e: int): (s: real)
    ensures s > 0.0
  {
    if e >= 0 then Ten(e) else Inverse(Ten(-e))
  }

  lemma InverseOfProduct(a: real, p: real, b: real)
    requires a > 0.0 && p > 0.0 && b == a * p && b > 0.0
    ensures Inverse(a) == Inverse(b) * p
  {
    hide Inverse;
    var i, j := Inverse(a), Inverse(b);
    calc {
      i;
      { assert j * b == 1.0; }
      i * (j * b);
      { assert b == a * p; }
      i * (j * (a * p));
      (i * a) * (j * p);
      { assert i * a == 1.0; }
      j * p;
    }
  }

  lemma QuotientOfProduct(a: real, b: real, p: real)
    requires b > 0.0 && p == a * b
    ensures a == Inverse(b) * p
  {
    hide Inverse;
    var j := Inverse(b);
    calc {
      j * p;
      j * (a * b);
      a * (j * b);
      { assert j * b == 1.0; }
      a;
    }
  }

  /** Powers of ten as reals. */
  function Ten(n: nat): (t: real)
    ensures t >= 1.0
  {
    Pow10(n) as real
  }

  lemma RealProduct(a: int, b: int)
    ensures (a * b) as real == a as real * b as real
  {
  }

  lemma TenAdd(m: nat, n: nat)
    ensures Ten(m + n) == Ten(m) * Ten(n)
  {
    Pow10Add(m, n);
    RealProduct(Pow10(m), Pow10(n));
    hide Pow10;
  }

  lemma ScaleUp(e: int, n: nat)
    ensures Scale(e + n) == Scale(e) * Ten(n)
  {
    hide Ten, Inverse;
    if e >= 0 {
      TenAdd(e, n);
    } else if e + n < 0 {
      TenAdd(-(e + n), n);
      assert -(e + n) + n == -e;
      InverseOfProduct(Ten(-(e + n)), Ten(n), Ten(-e));
    } else {
      TenAdd(e + n, -e);
      assert e + n + -e == n;
      QuotientOfProduct(Ten(e + n), Ten(-e), Ten(n));
    }
  }

  lemma ScaleAdd(a: int, b: int)
    ensures Scale(a + b) == Scale(a) * Scale(b)
  {
    ScaleIs(b);
    hide Scale, Ten, Inverse;
    if b >= 0 {
      ScaleUp(a, b);
    } else {
      ScaleUp(a + b, -b);
      assert a + b + -b == a;
      QuotientOfProduct(Scale(a + b), Ten(-b), Scale(a));
    }
  }

  lemma ScaleIs(e: int)
    ensures Scale(e) == if e >= 0 then Ten(e) else Inverse(Ten(-e))
  {
  }

  // ----- Values -----

  /** The point moved right by so many places, or left. */
  function Moved(x: real, places: int): real
    decreases if places < 0 then -places else places
  {
    if places == 0 then x
    else if places < 0 then Moved(x, places + 1) / 10.0
    else Moved(x, places - 1) * 10.0
  }

  /** The rational a decimal stands for. */
  function V(d: Dec): real { Moved(d.coef as real, d.exp) }

  lemma {:induction false} MovedIs(x: real, places: int)
    ensures Moved(x, places) == x * Scale(places)
    decreases if places < 0 then -places else places
  {
    assert Ten(0) == 1.0 && Ten(1) == 10.0;
    hide Ten;
    if places < 0 {
      MovedIs(x, places + 1);
      ScaleUp(places, 1);
      hide Scale;
      Reassociate(x, 10.0, Scale(places));
      TenFold(x * Scale(places));
    } else if places > 0 {
      MovedIs(x, places - 1);
      ScaleUp(places - 1, 1);
      hide Scale;
      Reassociate(x, 10.0, Scale(places - 1));
    }
  }

  lemma TenFold(x: real)
    ensures x * 10.0 / 10.0 == x
  {
  }

  lemma ValueIs(d: Dec)
    ensures V(d) == d.coef as real * Scale(d.exp)
  {
    MovedIs(d.coef as real, d.exp);
    hide Scale, Moved;
  }

  predicate Same(a: Dec, b: Dec) { V(a) == V(b) }

  lemma SameIs(a: Dec, b: Dec)
    ensures Same(a, b) <==> V(a) == V(b)
  {
    hide V;
  }

  lemma ValueZero()
    ensures V(ZERO) == 0.0
  {
  }

  /** So many zeros put after an integer. */
  function Widened(c: int, zeros: nat): int
    decreases zeros
  {
    if zeros == 0 then c else Widened(10 * c, zeros - 1)
  }

  lemma {:induction false} WidenedIs(c: int, zeros: nat)
    ensures Widened(c, zeros) == c * Pow10(zeros)
    decreases zeros
  {
    if zeros > 0 {
      WidenedIs(10 * c, zeros - 1);
      TenTimes(c, Pow10(zeros - 1));
    }
  }

  lemma TenTimes(c: int, p: int)
    ensures (10 * c) * p == c * (10 * p)
  {
  }

  /** Writing a decimal with a lower exponent. */
  function Lower(d: Dec, e: int): (r: Dec)
    requires e <= d.exp
    ensures r.exp == e
  {
    Dec(Widened(d.coef, d.exp - e), e)
  }

  lemma LowerValue(d: Dec, e: int)
    requires e <= d.exp
    ensures V(Lower(d, e)) == V(d)
  {
    var n := d.exp - e;
    ScaleUp(e, n);
    assert e + n == d.exp;
    WidenedIs(d.coef, n);
    RealProduct(d.coef, Pow10(n));
    assert Ten(n) == Pow10(n) as real;
    ValueIs(d);
    ValueIs(Lower(d, e));
    hide V, Scale, Ten, Pow10, Widened;
    Reassociate(d.coef as real, Ten(n), Scale(e));
  }

  lemma Reassociate(c: real, p: real, s: real)
    ensures (c * p) * s == c * (s * p)
  {
  }

  function Add(a: Dec, b: Dec): (r: Dec)
    ensures r.exp == if a.exp <= b.exp then a.exp else b.exp
    ensures V(r) == V(a) + V(b)
  {
    var e := if a.exp <= b.exp then a.exp else b.exp;
    AddValue(a, b, e);
    Dec(Lower(a, e).coef + Lower(b, e).coef, e)
  }

  lemma AddValue(a: Dec, b: Dec, e: int)
    requires e <= a.exp && e <= b.exp
    ensures V(Dec(Lower(a, e).coef + Lower(b, e).coef, e)) == V(a) + V(b)
  {
    hide Lower, Scale;
    LowerValue(a, e);
    LowerValue(b, e);
    var x, y := Lower(a, e), Lower(b, e);
    SumValue(x, y);
  }

  lemma SumValue(x: Dec, y: Dec)
    requires x.exp == y.exp
    ensures V(Dec(x.coef + y.coef, x.exp)) == V(x) + V(y)
  {
    ValueIs(x);
    ValueIs(y);
    ValueIs(Dec(x.coef + y.coef, x.exp));
    hide V, Scale;
    assert (x.coef + y.coef) as real == x.coef as real + y.coef as real;
    Distribute(x.coef as real, y.coef as real, Scale(x.exp));
  }

  lemma Distribute(x: real, y: real, s: real)
    ensures (x + y) * s == x * s + y * s
  {
  }

  function Negate(a: Dec): (r: Dec)
    ensures r.exp == a.exp
    ensures V(r) == -V(a)
  {
    NegateValue(a);
    Dec(-a.coef, a.exp)
  }

  lemma NegateValue(a: Dec)
    ensures V(Dec(-a.coef, a.exp)) == -V(a)
  {
    ValueIs(a);
    ValueIs(Dec(-a.coef, a.exp));
    hide V, Scale;
    NegateProduct(a.coef as real, Scale(a.exp));
  }

  lemma NegateProduct(x: real, s: real)
    ensures (-x) * s == -(x * s)
  {
  }

  function Sub(a: Dec, b: Dec): (r: Dec)
    ensures r.exp == if a.exp <= b.exp then a.exp else b.exp
    ensures V(r) == V(a) - V(b)
  {
    var e := if a.exp <= b.exp then a.exp else b.exp;
    SubValue(a, b, e);
    Dec(Lower(a, e).coef - Lower(b, e).coef, e)
  }

  lemma SubValue(a: Dec, b: Dec, e: int)
    requires e <= a.exp && e <= b.exp
    ensures V(Dec(Lower(a, e).coef - Lower(b, e).coef, e)) == V(a) - V(b)
  {
    hide V, Lower;
    LowerValue(a, e);
    LowerValue(b, e);
    var x, y := Lower(a, e), Lower(b, e);
    NegateValue(y);
    SumValue(x, Dec(-y.coef, y.exp));
  }

  lemma SubNegate(x: Dec, a: Dec)
    ensures Sub(x, Negate(a)) == Add(x, a) && Add(x, Negate(a)) == Sub(x, a)
  {
    hide Widened;
    var e := if x.exp <= a.exp then x.exp else a.exp;
    WidenedIs(a.coef, a.exp - e);
    WidenedIs(-a.coef, a.exp - e);
    NegateTimes(a.coef, Pow10(a.exp - e));
  }

  lemma NegateTimes(c: int, p: int)
    ensures (-c) * p == -(c * p)
  {
  }

  function Mul(a: Dec, b: Dec): (r: Dec)
    ensures r.exp == a.exp + b.exp
    ensures V(r) == V(a) * V(b)
  {
    MulValue(a, b);
    Dec(a.coef * b.coef, a.exp + b.exp)
  }

  lemma MulValue(a: Dec, b: Dec)
    ensures V(Dec(a.coef * b.coef, a.exp + b.exp)) == V(a) * V(b)
  {
    ScaleAdd(a.exp, b.exp);
    RealProduct(a.coef, b.coef);
    ValueIs(a);
    ValueIs(b);
    ValueIs(Dec(a.coef * b.coef, a.exp + b.exp));
    hide V, Scale;
    Regroup(a.coef as real, b.coef as real, Scale(a.exp), Scale(b.exp));
  }

  lemma Regroup(x: real, y: real, s: real, t: real)
    ensures (x * y) * (s * t) == (x * s) * (y * t)
  {
  }

  /** Multiplication and division of rationals under names, for proofs that need not look inside. */
  function Product(x: real, y: real): real { x * y }

  function Quotient(x: real, y: real): real
    requires y > 0.0
  {
    x / y
  }

  lemma ProductOf(a: Dec, b: Dec)
    ensures V(Mul(a, b)) == Product(V(a), V(b))
  {
    hide V, Mul;
  }

  /** Decimal of an integer. */
  function Whole(n: int): (r: Dec)
    ensures V(r) == n as real && r.exp == 0
  {
    Dec(n, 0)
  }

  lemma SignOfValue(d: Dec)
    ensures (V(d) > 0.0 <==> d.coef > 0) && (V(d) == 0.0 <==> d.coef == 0)
  {
    var c, s := d.coef as real, Scale(d.exp);
    ValueIs(d);
    hide V, Scale;
    SignOfProduct(c, s);
  }

  lemma SignOfProduct(c: real, s: real)
    requires s > 0.0
    ensures (c * s > 0.0 <==> c > 0.0) && (c * s == 0.0 <==> c == 0.0)
  {
    if c > 0.0 { assert c * s > 0.0; } else if c < 0.0 { assert (-c) * s > 0.0; }
  }

  // ----- Exact or reject -----

  const PRECISION: nat := 100

  function Abs(n: int): nat { if n < 0 then -n else n }

  /** A result the 100-digit context holds without rounding. */
  predicate Fits(d: Dec) { Digits(Abs(d.coef)) <= PRECISION }

  function Digits(n: nat): nat { if n < 10 then 1 else 1 + Digits(n / 10) }

  lemma {:induction false} DigitsAre(n: nat, k: nat)
    requires k > 0
    ensures Digits(n) <= k <==> n < Pow10(k)
  {
    assert Pow10(k) == 10 * Pow10(k - 1);
    if n >= 10 {
      if k > 1 { DigitsAre(n / 10, k - 1); } else { assert Pow10(0) == 1 && Digits(n / 10) >= 1; }
    } else {
      Pow10Grows(1, k);
      assert Pow10(1) == 10 * Pow10(0);
    }
  }

  function Exact(d: Dec): (r: Option<Dec>)
    ensures r.Some? <==> Fits(d)
    ensures r.Some? ==> r.value == d
  {
    if Fits(d) then Some(d) else None
  }

  datatype Kind = Money | Quantity | Execution | Holding

  function LowExp(kind: Kind): int {
    match kind case Money => -24 case Quantity => -6 case Execution => -16 case Holding => -6
  }

  function HighExp(kind: Kind): int {
    match kind case Money => 24 case Quantity => 9 case Execution => 10 case Holding => 12
  }

  function Maximum(kind: Kind): real {
    match kind
    case Money => Ten(24)
    case Quantity => Ten(9)
    case Execution => 2.0 * Ten(9)
    case Holding => Ten(12)
  }

  /** The range check: stored exponent, magnitude and sign.  A zero comes back as plain zero. */
  function Checked(d: Dec, kind: Kind, positive: bool): (r: Option<Dec>)
    ensures r.Some? ==> V(r.value) == V(d) && InRange(r.value, kind) && (positive ==> V(d) > 0.0)
  {
    SignOfValue(d);
    if LowExp(kind) <= d.exp <= HighExp(kind) && V(d) <= Maximum(kind)
       && (if positive then V(d) > 0.0 else V(d) >= 0.0)
    then Some(if d.coef == 0 then ZERO else d)
    else None
  }

  predicate InRange(d: Dec, kind: Kind) {
    LowExp(kind) <= d.exp <= HighExp(kind) && 0.0 <= V(d) <= Maximum(kind)
  }

  /** The bounds of the ranges, in figures. */
  lemma RangeIs(d: Dec, kind: Kind)
    ensures InRange(d, kind) <==> LowExp(kind) <= d.exp <= HighExp(kind) && 0.0 <= V(d) <= Maximum(kind)
    ensures kind == Quantity ==> (InRange(d, kind) <==> -6 <= d.exp <= 9 && 0.0 <= V(d) <= Ten(9))
    ensures kind == Money ==> (InRange(d, kind) <==> -24 <= d.exp <= 24 && 0.0 <= V(d) <= Ten(24))
    ensures kind == Holding ==> (InRange(d, kind) <==> -6 <= d.exp <= 12 && 0.0 <= V(d) <= Ten(12))
    ensures kind == Execution ==> (InRange(d, kind) <==> -16 <= d.exp <= 10 && 0.0 <= V(d) <= 2.0 * Ten(9))
  {
    hide V, Ten;
  }

  /** A decimal in a range passes its check unchanged, unless it is a zero with a stray exponent. */
  lemma InRangePasses(d: Dec, kind: Kind)
    requires InRange(d, kind)
    ensures Checked(d, kind, false) == Some(if d.coef == 0 then ZERO else d) && (V(d) > 0.0 ==> Checked(d, kind, true) == Some(d))
  {
    SignOfValue(d);
  }

  lemma CheckedIs(d: Dec, kind: Kind)
    ensures Checked(d, kind, false).Some? <==> InRange(d, kind)
  {
    SignOfValue(d);
    hide V, Ten;
  }

  /** Bounded values on a bounded grid always fit the context. */
  lemma RangeFits(d: Dec, bound: nat)
    requires d.exp >= -30 && bound <= 60 && -Ten(bound) <= V(d) <= Ten(bound)
    ensures Fits(d) && Exact(d) == Some(d)
  {
    hide V;
    var n := if d.exp >= 0 then 0 else -d.exp;
    CoefWithin(d, n, bound);
    Pow10Grows(bound + n, 99);
    assert Pow10(100) == 10 * Pow10(99);
    assert Ten(bound + n) == Pow10(bound + n) as real;
    DigitsAre(Abs(d.coef), 100);
    hide Pow10, Digits;
  }

  lemma CoefWithin(d: Dec, n: nat, bound: nat)
    requires n == (if d.exp >= 0 then 0 else -d.exp) && -Ten(bound) <= V(d) <= Ten(bound)
    ensures -Ten(bound + n) <= d.coef as real <= Ten(bound + n)
  {
    ValueIs(d);
    hide V, Scale, Ten;
    CoefIs(d);
    TenAdd(bound, n);
    var c, s := d.coef as real, Scale(d.exp);
    CoefBelow(c, s, Ten(n), Ten(bound));
  }

  lemma CoefIs(d: Dec)
    ensures Scale(d.exp) * Ten(if d.exp >= 0 then 0 else -d.exp) >= 1.0
  {
    if d.exp >= 0 { assert Ten(0) == 1.0; }
  }

  lemma CoefBelow(c: real, s: real, p: real, b: real)
    requires s > 0.0 && p >= 1.0 && s * p >= 1.0 && -b <= c * s <= b
    ensures -(b * p) <= c <= b * p
  {
    var k := s * p;
    assert (c * s) * p == c * k;
    ScaledBound(c * s, b, p);
    BelowMultiple(c, k, b * p);
  }

  lemma ScaledBound(v: real, b: real, p: real)
    requires p >= 1.0 && -b <= v <= b
    ensures -(b * p) <= v * p <= b * p
  {
  }

  lemma BelowMultiple(c: real, k: real, b: real)
    requires k >= 1.0 && -b <= c * k <= b
    ensures -b <= c <= b
  {
    if c >= 0.0 { NonNegativeProduct(c, k - 1.0); } else { NonNegativeProduct(-c, k - 1.0); }
  }

  lemma NonNegativeProduct(a: real, b: real)
    requires a >= 0.0 && b >= 0.0
    ensures a * b >= 0.0
  {
  }

  // ----- Normal forms -----

  /** Trailing zeros removed. */
  function Normalize(d: Dec): (r: Dec)
    ensures V(r) == V(d)
    decreases Abs(d.coef)
  {
    if d.coef == 0 then SignOfValue(d); ValueZero(); ZERO
    else if d.coef % 10 == 0 then
      Shed(d);
      Normalize(Dec(d.coef / 10, d.exp + 1))
    else d
  }

  lemma Shed(d: Dec)
    requires d.coef % 10 == 0
    ensures V(Dec(d.coef / 10, d.exp + 1)) == V(d)
  {
    ScaleUp(d.exp, 1);
    assert Ten(1) == 10.0;
    RealProduct(d.coef / 10, 10);
    assert d.coef == (d.coef / 10) * 10;
    ValueIs(d);
    ValueIs(Dec(d.coef / 10, d.exp + 1));
    hide V, Scale, Ten;
    Reassociate((d.coef / 10) as real, 10.0, Scale(d.exp));
  }

  /** The fixed-notation form that is serialized: no exponent, no trailing fraction zeros. */
  function Wire(d: Dec): (w: Dec)
    ensures V(w) == V(d)
    ensures w.exp <= 0 && (w.exp == 0 || w.coef % 10 != 0)
    decreases if d.exp < 0 then -d.exp else 0
  {
    if d.coef == 0 then SignOfValue(d); ValueZero(); ZERO
    else if d.exp >= 0 then LowerValue(d, 0); Lower(d, 0)
    else if d.coef % 10 == 0 then
      Shed(d);
      Wire(Dec(d.coef / 10, d.exp + 1))
    else d
  }

  /** Equal values serialize alike, and only they do. */
  lemma WireIsCanonical(a: Dec, b: Dec)
    ensures Wire(a) == Wire(b) <==> Same(a, b)
  {
    if Same(a, b) {
      var x, y := Wire(a), Wire(b);
      if x.exp <= y.exp { CanonicalUnique(x, y); } else { CanonicalUnique(y, x); }
    }
  }

  lemma CanonicalUnique(x: Dec, y: Dec)
    requires x.exp <= y.exp <= 0 && V(x) == V(y)
    requires x.exp == 0 || x.coef % 10 != 0
    ensures x == y
  {
    var l := Lower(y, x.exp);
    LowerValue(y, x.exp);
    SameExponent(x, l);
    if x.exp < y.exp { LowerDivides(y, x.exp); }
    assert Pow10(0) == 1;
  }

  lemma LowerDivides(d: Dec, e: int)
    requires e < d.exp
    ensures Lower(d, e).coef % 10 == 0
  {
    hide Widened;
    var m := d.coef * Pow10(d.exp - e - 1);
    WidenedIs(d.coef, d.exp - e);
    TenTimes(d.coef, Pow10(d.exp - e - 1));
    assert Lower(d, e).coef == 10 * m;
  }

  lemma SameExponent(x: Dec, y: Dec)
    requires x.exp == y.exp && V(x) == V(y)
    ensures x == y
  {
    var s := Scale(x.exp);
    ValueIs(x);
    ValueIs(y);
    hide V, Scale;
    CancelScale(x.coef as real, y.coef as real, s);
  }

  lemma CancelScale(a: real, b: real, s: real)
    requires s > 0.0 && a * s == b * s
    ensures a == b
  {
    SignOfProduct(a - b, s);
    Distribute(a - b, b, s);
  }

  // ----- Rationals as decimals -----

  /** The exact decimal with the fewest fraction digits, up to 24; further ones fail the money range. */
  function FromRational(x: real): (r: Option<Dec>)
    ensures r.Some? ==> V(r.value) == x && -24 <= r.value.exp <= 0 && Fits(r.value)
  {
    FindDigits(x, 0)
  }

  function Shift(x: real, k: nat): real { x * Ten(k) }

  predicate IsWhole(y: real) { y.Floor as real == y }

  function FindDigits(x: real, k: nat): (r: Option<Dec>)
    requires k <= 25
    ensures r.Some? ==> V(r.value) == x && -24 <= r.value.exp <= 0 && Fits(r.value)
    decreases 25 - k
  {
    if k > 24 then None
    else if IsWhole(Shift(x, k)) then
      DigitsValue(x, k);
      Exact(Dec(Shift(x, k).Floor, -(k as int)))
    else FindDigits(x, k + 1)
  }

  lemma DigitsValue(x: real, k: nat)
    requires IsWhole(Shift(x, k))
    ensures V(Dec(Shift(x, k).Floor, -(k as int))) == x
  {
    var p, s := Ten(k), Scale(-(k as int));
    TenTimesScale(k);
    ValueIs(Dec(Shift(x, k).Floor, -(k as int)));
    hide V, Scale, Ten;
    Reassociate(x, p, s);
    assert s * p == 1.0;
  }

  lemma TenTimesScale(k: nat)
    ensures Scale(-(k as int)) * Ten(k) == 1.0
  {
    if k == 0 { assert Ten(0) == 1.0; }
  }

  /** A decimal value with at most 24 fraction digits and a bounded magnitude is found again. */
  lemma FromRationalFinds(d: Dec, bound: nat)
    requires -24 <= d.exp && bound <= 60 && 0.0 <= V(d) <= Ten(bound)
    ensures FromRational(V(d)).Some?
  {
    FindDigitsFinds(d, 0, bound);
  }

  lemma {:induction false} FindDigitsFinds(d: Dec, k: nat, bound: nat)
    requires -24 <= d.exp && bound <= 60 && 0.0 <= V(d) <= Ten(bound)
    requires k <= 24 && (d.exp < 0 ==> k <= -d.exp)
    ensures FindDigits(V(d), k).Some?
    decreases 25 - k
  {
    hide V, Ten, Shift, IsWhole, Fits;
    var x := V(d);
    if d.exp >= -(k as int) { WholeAt(d, k); }
    if IsWhole(Shift(x, k)) {
      DigitsValue(x, k);
      RangeFits(Dec(Shift(x, k).Floor, -(k as int)), bound);
    } else {
      FindDigitsFinds(d, k + 1, bound);
    }
  }

  lemma WholeAt(d: Dec, k: nat)
    requires d.exp >= -(k as int)
    ensures IsWhole(Shift(V(d), k))
  {
    hide Scale, Ten, Lower, IsWhole;
    var l := Lower(d, -(k as int));
    LowerValue(d, -(k as int));
    ValueIs(l);
    TenTimesScale(k);
    WholeProduct(l.coef, Scale(-(k as int)), Ten(k));
    assert Shift(V(d), k) == l.coef as real;
    IntegerIsWhole(l.coef);
    hide V, Shift;
  }

  lemma IntegerIsWhole(n: int)
    ensures IsWhole(n as real)
  {
  }

  lemma WholeProduct(n: int, s: real, p: real)
    requires s * p == 1.0
    ensures (n as real * s) * p == n as real
  {
    Reassociate(n as real, s, p);
    calc {
      (n as real * s) * p;
      n as real * (s * p);
      n as real * 1.0;
    }
  }
}
