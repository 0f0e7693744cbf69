/**
  Intents, cost policies and fills: the prices and cumulative fees of the cost model, and
  when a fill is valid for its intent, outcome, policy and binding.
 */
module Contracts {
  import opened Options
  import opened Decimals

  /** An identifier, as its rank among the identifiers in their string order. */
  type Id = nat
  type Time = int
  type Date = int

  datatype Side = Buy | Sell
  datatype TimeInForce = Day | Gtc | Ioc | Fok
  datatype OrderType = Market | Limit(price: Dec)

  datatype Policy = Policy(version: Id, halfSpread: Dec, slippage: Dec, commission: Dec,
                           minimum: Dec, shareCap: Dec, lot: Dec)

  datatype Intent = Intent(
    intentId: Id, runId: Id, calendarId: Id, instrument: Id, side: Side, quantity: Dec,
    orderType: OrderType, timeInForce: TimeInForce, decisionTime: Time, createdAt: Time,
    earliestSubmit: Time, expiresAt: Time, firstSession: Date, outcomeSource: Id, outcomeRevision: nat)

  /** The daily bar a fill is priced from, as admitted evidence. */
  datatype Outcome = Outcome(instrument: Id, calendarId: Id, session: Date, closeAt: Time,
                             source: Id, revision: nat, close: Dec, receivedAt: Time)

  /** The decision an intent came from. */
  datatype Binding = Binding(runId: Id, calendarId: Id, instrument: Id, decisionTime: Time,
                             firstSession: Date, firstOpen: Time, earliestExecution: Time, noTrade: bool)

  /** Intent, outcome and policy stand for the hashes a fill carries of them. */
  datatype Fill = Fill(intent: Intent, outcome: Outcome, policy: Policy, quantity: Dec,
                       before: Dec, after: Dec, price: Dec, fee: Dec)

  // ----- Policies -----

  predicate Within(d: Dec, low: int, high: int, maximum: real) {
    low <= d.exp <= high && 0.0 <= V(d) <= maximum
  }

  predicate ValidPolicy(p: Policy) {
    && Within(p.halfSpread, -6, 6, 9999.0)
    && Within(p.slippage, -6, 6, 9999.0)
    && V(p.halfSpread) + V(p.slippage) < 10000.0
    && Within(p.commission, -6, 6, Ten(6))
    && Within(p.minimum, -6, 6, Ten(6))
    && Within(p.shareCap, -6, 9, Ten(9))
    && Within(p.lot, -6, 9, Ten(9)) && V(p.lot) > 0.0
  }

  predicate ValidReference(close: Dec) {
    Within(close, -6, 9, Ten(9)) && V(close) > 0.0
  }

  predicate ValidIntent(i: Intent) {
    InRange(i.quantity, Quantity) && V(i.quantity) > 0.0
  }

  // ----- Cumulative fees -----

  /** Rounds a nonnegative decimal to cents, halves to the even cent. */
  function RoundCents(d: Dec): (r: Dec)
    ensures r.exp == -2
  {
    if d.exp >= -2 then Lower(d, -2)
    else
      var m := Pow10(-2 - d.exp);
      var q, rest := d.coef / m, d.coef % m;
      Dec(q + (if 2 * rest > m || (2 * rest == m && q % 2 == 1) then 1 else 0), -2)
  }

  function Larger(a: Dec, b: Dec): (r: Dec)
    ensures V(r) == if V(b) > V(a) then V(b) else V(a)
  {
    if V(b) > V(a) then b else a
  }

  /** What an order owes for its cumulative filled quantity: nothing at zero, else at least the minimum. */
  function FeeDue(cumulative: Dec, policy: Policy): Dec {
    if V(cumulative) == 0.0 then Dec(0, -2)
    else RoundCents(Owed(cumulative, policy))
  }

  /** The rounded coefficient at a fixed grid of 1/m. */
  function HalfEven(c: int, m: nat): int
    requires m > 0
  {
    var q, rest := c / m, c % m;
    q + (if 2 * rest > m || (2 * rest == m && q % 2 == 1) then 1 else 0)
  }

  lemma HalfEvenMonotone(a: int, b: int, m: nat)
    requires m > 0 && a <= b
    ensures HalfEven(a, m) <= HalfEven(b, m)
  {
    var p, q := a / m, b / m;
    assert a == p * m + a % m && b == q * m + b % m;
    QuotientMonotone(p, a % m, q, b % m, m);
  }

  lemma QuotientMonotone(p: int, r: int, q: int, s: int, m: nat)
    requires 0 <= r < m && 0 <= s < m && p * m + r <= q * m + s
    ensures p <= q && (p == q ==> r <= s)
  {
    assert p >= q + 1 ==> p * m >= (q + 1) * m by { if p >= q + 1 { MultiplyMonotone(q + 1, p, m); } }
  }

  lemma MultiplyMonotone(a: int, b: int, m: nat)
    requires a <= b
    ensures a * m <= b * m
  {
  }

  /** Refining the grid does not change how a number rounds. */
  lemma HalfEvenRefines(c: int, m: nat, k: nat)
    requires m > 0 && k > 0
    ensures k * m > 0 && HalfEven(c * k, k * m) == HalfEven(c, m)
  {
    var q, rest := c / m, c % m;
    assert c == q * m + rest;
    assert c * k == q * (k * m) + rest * k;
    assert 0 <= rest * k < k * m;
    DivisionIsUnique(c * k, k * m, q, rest * k);
    CompareScaled(2 * rest, m, k);
  }

  lemma CompareScaled(x: int, y: int, k: nat)
    requires k > 0
    ensures (x * k > k * y <==> x > y) && (x * k == k * y <==> x == y)
  {
    if x > y { assert x * k >= (y + 1) * k; }
    if x < y { assert (x + 1) * k <= y * k; }
  }

  lemma DivisionIsUnique(a: int, m: nat, q: int, r: int)
    requires m > 0 && a == q * m + r && 0 <= r < m
    ensures a / m == q && a % m == r
  {
    var p, s := a / m, a % m;
    assert a == p * m + s;
    QuotientMonotone(p, s, q, r, m);
    QuotientMonotone(q, r, p, s, m);
  }

  /** Rounding to cents, seen on any grid fine enough for the number. */
  lemma RoundOnGrid(d: Dec, n: nat)
    requires d.exp >= -2 - n
    ensures RoundCents(d).coef == HalfEven(Lower(d, -2 - n).coef, Pow10(n))
  {
    hide Widened;
    var c := Lower(d, -2 - n).coef;
    WidenedIs(d.coef, d.exp + 2 + n);
    if d.exp >= -2 {
      var k: nat := d.exp + 2;
      Pow10Add(k, n);
      var x := d.coef * Pow10(k);
      WidenedIs(d.coef, k);
      assert c == x * Pow10(n) by {
        assert d.exp - (-2 - n) == k + n;
        AssociateInt(d.coef, Pow10(k), Pow10(n));
      }
      DivisionIsUnique(c, Pow10(n), x, 0);
    } else {
      var j: nat := -2 - d.exp;
      var i: nat := n - j;
      Pow10Add(i, j);
      assert d.exp - (-2 - n) == i;
      HalfEvenRefines(d.coef, Pow10(j), Pow10(i));
    }
  }

  lemma AssociateInt(a: int, b: int, c: int)
    ensures a * (b * c) == (a * b) * c
  {
  }

  /** Equal exponents compare by coefficient. */
  lemma CompareCoefs(a: Dec, b: Dec)
    requires a.exp == b.exp
    ensures V(a) <= V(b) <==> a.coef <= b.coef
  {
    hide V, Sub;
    var difference := Sub(b, a);
    SignOfValue(difference);
    SubCoef(b, a);
  }

  lemma SubCoef(a: Dec, b: Dec)
    requires a.exp == b.exp
    ensures Sub(a, b).coef == a.coef - b.coef
  {
    assert Pow10(0) == 1;
  }

  lemma RoundCentsMonotone(a: Dec, b: Dec)
    requires V(a) <= V(b)
    ensures V(RoundCents(a)) <= V(RoundCents(b))
  {
    hide *;
    var n: nat := if a.exp < b.exp then (if a.exp < -2 then -2 - a.exp else 0) else (if b.exp < -2 then -2 - b.exp else 0);
    var x, y := Lower(a, -2 - n), Lower(b, -2 - n);
    RoundOnGrid(a, n);
    RoundOnGrid(b, n);
    LowerValue(a, -2 - n);
    LowerValue(b, -2 - n);
    CompareCoefs(x, y);
    HalfEvenMonotone(x.coef, y.coef, Pow10(n));
    CompareCoefs(RoundCents(a), RoundCents(b));
  }

  lemma RoundCentsOfCents(d: Dec)
    requires d.exp >= -2
    ensures V(RoundCents(d)) == V(d)
  {
    LowerValue(d, -2);
  }

  /** The cumulative fee never falls as more is filled, and starts at nothing. */
  lemma FeeDueMonotone(a: Dec, b: Dec, policy: Policy)
    requires ValidPolicy(policy) && 0.0 <= V(a) <= V(b)
    ensures 0.0 <= V(FeeDue(a, policy)) <= V(FeeDue(b, policy))
    ensures V(a) == 0.0 ==> V(FeeDue(a, policy)) == 0.0
  {
    hide *;
    FeeNonNegative(a, policy);
    FeeNonNegative(b, policy);
    FeeDueIs(a, policy);
    FeeDueIs(b, policy);
    if V(a) > 0.0 {
      CommissionIsNonNegative(policy);
      ProductMonotone(V(policy.commission), V(a), V(b));
      OwedValue(a, policy);
      OwedValue(b, policy);
      assert Most(V(policy.minimum), V(policy.commission) * V(a)) <= Most(V(policy.minimum), V(policy.commission) * V(b)) by {
        MostMonotone(V(policy.minimum), V(policy.commission) * V(a), V(policy.commission) * V(b));
      }
      RoundCentsMonotone(Owed(a, policy), Owed(b, policy));
    }
  }

  /** The amount owed before rounding. */
  function Owed(a: Dec, policy: Policy): Dec {
    Larger(policy.minimum, Mul(policy.commission, a))
  }

  lemma OwedValue(a: Dec, policy: Policy)
    ensures V(Owed(a, policy)) == Most(V(policy.minimum), V(policy.commission) * V(a))
  {
    hide V, Mul, Larger;
  }

  lemma MostMonotone(m: real, a: real, b: real)
    requires a <= b
    ensures Most(m, a) <= Most(m, b)
  {
  }

  function Most(a: real, b: real): (m: real)
    ensures m >= a && m >= b && (m == a || m == b)
  {
    if b > a then b else a
  }

  lemma CommissionIsNonNegative(policy: Policy)
    requires ValidPolicy(policy)
    ensures V(policy.commission) >= 0.0
  {
    hide V;
  }

  lemma FeeDueIs(a: Dec, policy: Policy)
    ensures V(a) == 0.0 ==> V(FeeDue(a, policy)) == 0.0
    ensures V(a) != 0.0 ==> FeeDue(a, policy) == RoundCents(Owed(a, policy))
  {
    SignOfValue(Dec(0, -2));
    hide V, RoundCents, Mul, Larger;
  }

  lemma ProductMonotone(k: real, a: real, b: real)
    requires k >= 0.0 && a <= b
    ensures k * a <= k * b
  {
    NonNegativeProduct(k, b - a);
  }

  lemma FeeNonNegative(a: Dec, policy: Policy)
    requires ValidPolicy(policy) && V(a) >= 0.0
    ensures V(FeeDue(a, policy)) >= 0.0 && FeeDue(a, policy).exp == -2
  {
    hide V, RoundCents, Mul;
    SignOfValue(Dec(0, -2));
    var most := Owed(a, policy);
    RoundCentsOfCents(ZERO);
    ValueZero();
    RoundCentsMonotone(ZERO, most);
  }

  /** A bound on any cumulative fee. */
  lemma FeeBounded(a: Dec, policy: Policy)
    requires ValidPolicy(policy) && 0.0 <= V(a) <= Ten(9)
    ensures V(FeeDue(a, policy)) <= Ten(15)
  {
    hide V;
    hide RoundCents, Mul, Ten, Pow10;
    var most := Owed(a, policy);
    var limit := Dec(1, 15);
    PowerValue(15);
    RoundCentsOfCents(limit);
    TenAdd(6, 9);
    Pow10Grows(6, 15);
    SignOfValue(Dec(0, -2));
    ProductBound(V(policy.commission), Ten(6), V(a), Ten(9));
    RoundCentsMonotone(most, limit);
  }

  lemma PowerValue(n: nat)
    ensures V(Dec(1, n)) == Ten(n)
  {
    ValueIs(Dec(1, n));
    hide V, Ten;
  }

  lemma ProductBound(a: real, p: real, b: real, q: real)
    requires 0.0 <= a <= p && 0.0 <= b <= q
    ensures 0.0 <= a * b <= p * q
  {
    NonNegativeProduct(a, b);
    NonNegativeProduct(p - a, q);
    NonNegativeProduct(a, q - b);
  }

  /** A whole number of cents within half a cent, and the even one of two equally near. */
  predicate NearestCent(x: real, cents: int) {
    && cents as real - 0.5 <= x * 100.0 <= cents as real + 0.5
    && (x * 100.0 == cents as real - 0.5 || x * 100.0 == cents as real + 0.5 ==> cents % 2 == 0)
  }

  lemma HalfEvenIsNearest(c: int, m: nat)
    requires m > 0
    ensures var h := HalfEven(c, m);
      (2 * h - 1) * m <= 2 * c <= (2 * h + 1) * m && (2 * c == (2 * h - 1) * m || 2 * c == (2 * h + 1) * m ==> h % 2 == 0)
  {
    var q, rest := c / m, c % m;
    assert c == q * m + rest;
    assert (2 * q - 1) * m == 2 * (q * m) - m && (2 * q + 1) * m == 2 * (q * m) + m && (2 * q + 3) * m == 2 * (q * m) + 3 * m;
  }

  lemma RealHalves(x: real, c: int, h: int, m: nat)
    requires m > 0 && x * m as real == c as real && (2 * h - 1) * m <= 2 * c <= (2 * h + 1) * m
    requires 2 * c == (2 * h - 1) * m || 2 * c == (2 * h + 1) * m ==> h % 2 == 0
    ensures h as real - 0.5 <= x <= h as real + 0.5 && (x == h as real - 0.5 || x == h as real + 0.5 ==> h % 2 == 0)
  {
    var n, y := m as real, h as real;
    assert ((2 * h - 1) * m) as real == (2.0 * y - 1.0) * n && ((2 * h + 1) * m) as real == (2.0 * y + 1.0) * n;
    var low, high := y - 0.5, y + 0.5;
    assert (2.0 * y - 1.0) * n == 2.0 * (low * n) && (2.0 * y + 1.0) * n == 2.0 * (high * n);
    assert low * n <= x * n <= high * n;
    CancelOrder(low, x, n);
    CancelOrder(x, high, n);
  }

  lemma CancelOrder(a: real, b: real, n: real)
    requires n > 0.0 && a * n <= b * n
    ensures a <= b
  {
    if a > b {
      SignOfProduct(a - b, n);
      Distribute(a - b, b, n);
    }
  }

  lemma CentsOf(d: Dec)
    requires d.exp == -2
    ensures V(d) * 100.0 == d.coef as real
  {
  }

  lemma RoundCentsIsNearest(d: Dec)
    ensures V(RoundCents(d)) * 100.0 == RoundCents(d).coef as real && NearestCent(V(d), RoundCents(d).coef)
  {
    CentsOf(RoundCents(d));
    if d.exp >= -2 {
      RoundCentsOfCents(d);
    } else {
      var j: nat := -2 - d.exp;
      var m := Pow10(j);
      OnCents(d, j);
      HalfEvenIsNearest(d.coef, m);
      RealHalves(V(d) * 100.0, d.coef, HalfEven(d.coef, m), m);
    }
    hide V, HalfEven, Pow10;
  }

  lemma OnCents(d: Dec, j: nat)
    requires d.exp + j == -2
    ensures (V(d) * 100.0) * Pow10(j) as real == d.coef as real
  {
    var e := Dec(1, -2);
    ScaleUp(d.exp, j);
    ValueIs(d);
    assert Scale(-2) * 100.0 == 1.0 by { ValueIs(e); CentsOf(e); }
    hide V, Scale, Ten;
    assert Ten(j) == Pow10(j) as real by { TenIs(j); }
    Reorder(d.coef as real, Scale(d.exp), 100.0, Ten(j));
  }

  lemma TenIs(j: nat)
    ensures Ten(j) == Pow10(j) as real
  {
  }

  lemma Reorder(c: real, s: real, h: real, t: real)
    requires (s * t) * h == 1.0
    ensures ((c * s) * h) * t == c
  {
    assert ((c * s) * h) * t == c * ((s * t) * h);
  }

  /**
    What an order owes once something is filled: the commission on all of it, at least the
    minimum, to the nearest cent and the even one of two.
   */
  lemma FeeIsNearestCent(a: Dec, policy: Policy)
    requires V(a) != 0.0
    ensures var fee, owed := FeeDue(a, policy), Most(V(policy.minimum), V(policy.commission) * V(a));
      V(fee) * 100.0 == fee.coef as real && NearestCent(owed, fee.coef)
  {
    hide *;
    FeeDueIs(a, policy);
    OwedValue(a, policy);
    RoundCentsIsNearest(Owed(a, policy));
  }

  // ----- Prices -----

  /** Trailing zeros removed while the exponent stays below the ideal one, as exact division leaves them. */
  function ShedTo(d: Dec, ideal: int): (r: Dec)
    ensures V(r) == V(d)
    ensures d.exp <= r.exp && (d.exp <= ideal ==> r.exp <= ideal)
    decreases if d.exp < ideal then ideal - d.exp else 0
  {
    if d.exp >= ideal || d.coef % 10 != 0 then d
    else
      Shed(d);
      ShedTo(Dec(d.coef / 10, d.exp + 1), ideal)
  }

  /** Division by ten thousand. */
  function PerTenThousand(d: Dec): (r: Dec)
    ensures V(r) * 10000.0 == V(d) && d.exp - 4 <= r.exp <= d.exp
  {
    TenThousandth(d);
    ShedTo(Dec(d.coef, d.exp - 4), d.exp)
  }

  lemma TenThousandth(d: Dec)
    ensures V(Dec(d.coef, d.exp - 4)) * 10000.0 == V(d)
  {
    ScaleUp(d.exp - 4, 4);
    assert Ten(4) == 10000.0 by {
      assert Pow10(1) == 10 && Pow10(2) == 100 && Pow10(3) == 1000 && Pow10(4) == 10000;
    }
    ValueIs(d);
    ValueIs(Dec(d.coef, d.exp - 4));
    hide V, Scale, Ten;
    Reassociate(d.coef as real, Scale(d.exp - 4), 10000.0);
    Reassociate(d.coef as real, 10000.0, Scale(d.exp - 4));
  }

  /** What spread and slippage move a price by, in the direction that hurts. */
  function Worsening(close: Dec, direction: int, policy: Policy): Dec {
    PerTenThousand(Mul(Mul(Whole(direction), close), Add(policy.halfSpread, policy.slippage)))
  }

  function Direction(side: Side): int { if side == Buy then 1 else -1 }

  /** The reference price worsened by spread and slippage. */
  function AdversePrice(close: Dec, side: Side, policy: Policy): Dec {
    Add(close, Worsening(close, Direction(side), policy))
  }

  lemma WorseningValue(close: Dec, direction: int, policy: Policy)
    ensures Shifts(V(close), V(policy.halfSpread) + V(policy.slippage), direction as real, V(Worsening(close, direction, policy)))
  {
    hide V, PerTenThousand, Mul, Add, Whole;
  }

  lemma WorseningExp(close: Dec, direction: int, policy: Policy)
    requires -6 <= close.exp <= 9 && -6 <= policy.halfSpread.exp <= 6 && -6 <= policy.slippage.exp <= 6
    ensures -16 <= Worsening(close, direction, policy).exp
    ensures AdversePrice(close, if direction == 1 then Buy else Sell, policy).exp <= 10
  {
    hide V, PerTenThousand, Mul, Add, Whole;
  }

  /** A valid policy never prices a valid reference out of the execution range. */
  lemma PriceInRange(close: Dec, side: Side, policy: Policy)
    requires ValidPolicy(policy) && ValidReference(close)
    ensures InRange(AdversePrice(close, side, policy), Execution) && V(AdversePrice(close, side, policy)) > 0.0
  {
    hide V, Worsening, Ten, ValidPolicy, ValidReference, Add;
    PolicyShape(close, policy);
    PriceBounds(close, Direction(side), policy);
    WorseningExp(close, Direction(side), policy);
  }

  lemma PriceBounds(close: Dec, direction: int, policy: Policy)
    requires ValidPolicy(policy) && ValidReference(close) && (direction == 1 || direction == -1)
    ensures 0.0 < V(close) + V(Worsening(close, direction, policy)) < 2.0 * V(close)
  {
    hide *;
    PolicyShape(close, policy);
    WorseningValue(close, direction, policy);
    Markup(V(close), V(policy.halfSpread) + V(policy.slippage), direction as real, V(Worsening(close, direction, policy)));
  }

  lemma PolicyShape(close: Dec, policy: Policy)
    requires ValidPolicy(policy) && ValidReference(close)
    ensures 0.0 < V(close) <= Ten(9)
    ensures 0.0 <= V(policy.halfSpread) + V(policy.slippage) < 10000.0
    ensures -6 <= close.exp <= 9 && -6 <= policy.halfSpread.exp <= 6 && -6 <= policy.slippage.exp <= 6
  {
    hide V, Ten;
  }

  /** A move of s is b ten-thousandths of c in direction d. */
  predicate Shifts(c: real, b: real, d: real, s: real) { s * 10000.0 == (d * c) * b }

  lemma Markup(c: real, b: real, d: real, s: real)
    requires c > 0.0 && 0.0 <= b < 10000.0 && (d == 1.0 || d == -1.0) && Shifts(c, b, d, s)
    ensures 0.0 < c + s < 2.0 * c
  {
    SignOfProduct(10000.0 - b, c);
    NonNegativeProduct(c, b);
    assert d == 1.0 ==> (d * c) * b == c * b;
    assert d == -1.0 ==> (d * c) * b == -(c * b);
    Distribute(10000.0 - b, b, c);
  }

  /**
    Spread and slippage, in ten-thousandths of the reference price, are added to what a purchase
    pays and taken from what a sale brings: neither is ever better than the reference.
   */
  lemma SidesPay(close: Dec, policy: Policy)
    ensures V(AdversePrice(close, Buy, policy)) == V(close) + V(close) * (V(policy.halfSpread) + V(policy.slippage)) / 10000.0
    ensures V(AdversePrice(close, Sell, policy)) == V(close) - V(close) * (V(policy.halfSpread) + V(policy.slippage)) / 10000.0
    ensures ValidPolicy(policy) && V(close) >= 0.0 ==> V(AdversePrice(close, Sell, policy)) <= V(close) <= V(AdversePrice(close, Buy, policy))
  {
    hide V, Add, Worsening, Ten;
    var c, b := V(close), V(policy.halfSpread) + V(policy.slippage);
    WorseningValue(close, 1, policy);
    WorseningValue(close, -1, policy);
    ShiftUp(c, b, V(Worsening(close, 1, policy)));
    ShiftDown(c, b, V(Worsening(close, -1, policy)));
    if ValidPolicy(policy) && c >= 0.0 { NonNegativeProduct(c, b); }
  }

  lemma ShiftUp(c: real, b: real, s: real)
    requires Shifts(c, b, 1.0, s)
    ensures s == c * b / 10000.0
  {
  }

  lemma ShiftDown(c: real, b: real, s: real)
    requires Shifts(c, b, -1.0, s)
    ensures s == -(c * b / 10000.0)
  {
    assert (-1.0 * c) * b == -(c * b);
  }

  // ----- Valid fills -----

  predicate Marketable(intent: Intent, price: Dec) {
    match intent.orderType
    case Market => true
    case Limit(limit) => if intent.side == Buy then V(price) <= V(limit) else V(price) >= V(limit)
  }

  /** No purchase above its limit and no sale below it. */
  predicate WithinLimit(intent: Intent, price: Dec) {
    intent.orderType.Limit? ==>
      && !(intent.side == Buy && V(price) > V(intent.orderType.price))
      && !(intent.side == Sell && V(price) < V(intent.orderType.price))
  }

  /** An order trades exactly at prices within its limit. */
  lemma LimitHolds(intent: Intent, price: Dec)
    ensures Marketable(intent, price) <==> WithinLimit(intent, price)
  {
    hide V;
  }

  /** How many whole lots fit in a quantity. */
  function FloorLots(quantity: Dec, lot: Dec): int
    requires V(lot) > 0.0
  {
    (V(quantity) / V(lot)).Floor
  }

  function LotQuantity(count: int, lot: Dec): (q: Dec)
    ensures V(q) == count as real * V(lot) && q.exp == lot.exp
  {
    Mul(Whole(count), lot)
  }

  predicate BoundTo(intent: Intent, binding: Binding) {
    && intent.runId == binding.runId && intent.calendarId == binding.calendarId
    && intent.instrument == binding.instrument && !binding.noTrade
    && intent.firstSession == binding.firstSession && intent.decisionTime == binding.decisionTime
    && intent.decisionTime <= intent.createdAt < binding.firstOpen
    && binding.earliestExecution <= intent.earliestSubmit
  }

  /** The outcome is the one the intent asked for, on a session the intent may trade. */
  predicate OutcomeFor(intent: Intent, outcome: Outcome, binding: Binding) {
    && outcome.instrument == binding.instrument && outcome.calendarId == binding.calendarId
    && outcome.source == intent.outcomeSource && outcome.revision == intent.outcomeRevision
    && outcome.closeAt < outcome.receivedAt
    && binding.firstSession <= outcome.session
    && (intent.timeInForce != Gtc ==> outcome.session == intent.firstSession)
    && ValidReference(outcome.close)
  }

  /** What contextual validation demands of a fill for an order with this much remaining and done. */
  predicate ValidFill(fill: Fill, intent: Intent, outcome: Outcome, policy: Policy, binding: Binding,
                      remaining: Dec, cumulative: Dec) {
    && ValidIntent(intent) && ValidPolicy(policy)
    && V(remaining) > 0.0 && V(remaining) + V(cumulative) == V(intent.quantity)
    && BoundTo(intent, binding) && OutcomeFor(intent, outcome, binding)
    && intent.earliestSubmit <= outcome.closeAt <= intent.expiresAt
    && fill.intent == intent && fill.outcome == outcome && fill.policy == policy
    && Same(fill.before, cumulative) && V(fill.after) == V(cumulative) + V(fill.quantity)
    && V(fill.quantity) <= V(remaining) && V(fill.after) <= V(intent.quantity)
    && (intent.timeInForce == Fok ==> Same(fill.quantity, remaining))
    && Same(fill.price, AdversePrice(outcome.close, intent.side, policy))
    && V(fill.fee) == V(FeeDue(fill.after, policy)) - V(FeeDue(fill.before, policy))
    && V(fill.quantity) <= V(policy.shareCap)
    && Marketable(intent, fill.price)
    && Same(LotQuantity(FloorLots(fill.quantity, policy.lot), policy.lot), fill.quantity)
  }

  /** The ranges every fill record is in, whatever its context. */
  predicate FillInRange(fill: Fill) {
    && InRange(fill.quantity, Quantity) && V(fill.quantity) > 0.0
    && InRange(fill.before, Quantity)
    && InRange(fill.after, Quantity) && V(fill.after) > 0.0
    && InRange(fill.price, Execution) && V(fill.price) > 0.0
    && InRange(fill.fee, Money)
  }
}
