/**
  What a sale holds back where the commission on a share is above its price: each lot sold then
  costs cash, and the sale is cut down to what the cash bears, if need be with half a cent in
  reserve for the rounding of the fee.
 */
module SaleReserve {
  import opened Options
  import opened Decimals
  import opened Contracts
  import opened Accounts
  import opened Fills

  /** What a share sold costs beyond what it brings. */
  function Shortfall(a: Attempt): real { V(a.policy.commission) - V(Price(a)) }

  /** What the lots may cost: the cash and the fees already charged, less the commission on what was sold before. */
  function Budget(a: Attempt): real {
    V(a.cash) + V(FeeDue(a.cumulative, a.policy)) - Product(V(a.policy.commission), V(a.cumulative))
  }

  /** The budget with half a cent in reserve. */
  function Reserved(a: Attempt): real { Budget(a) - 0.005 }

  /** What so many lots cost. */
  function Cost(a: Attempt, n: int): real { Product(n as real * V(a.policy.lot), Shortfall(a)) }

  /** So many lots, and up to a bound not one more, cost at most a budget. */
  predicate MostWithin(a: Attempt, budget: real, bound: int, n: int) {
    n <= bound && Cost(a, n) <= budget && (n == bound || Cost(a, n + 1) > budget)
  }

  // ----- The number of lots -----

  lemma CostGrows(a: Attempt, m: int, n: int)
    requires V(a.policy.lot) > 0.0 && Shortfall(a) > 0.0 && m < n
    ensures Cost(a, m) < Cost(a, n)
  {
    var lot, s := V(a.policy.lot), Shortfall(a);
    hide V, Shortfall;
    StrictProduct(m as real, n as real, lot);
    StrictProduct(m as real * lot, n as real * lot, s);
    CostIs(a, m);
    CostIs(a, n);
  }

  lemma CostIs(a: Attempt, n: int)
    ensures Cost(a, n) == (n as real * V(a.policy.lot)) * Shortfall(a)
  {
    hide V, Shortfall;
  }

  lemma StrictProduct(x: real, y: real, z: real)
    requires x < y && z > 0.0
    ensures x * z < y * z
  {
    SignOfProduct(y - x, z);
    Distribute(y - x, x, z);
  }

  /** The number computed by division, between what it costs and what one lot more would. */
  lemma DividedLots(a: Attempt, budget: real, lots: int)
    requires V(a.policy.lot) > 0.0 && Shortfall(a) > 0.0 && lots == Quotient(Quotient(budget, Shortfall(a)), V(a.policy.lot)).Floor
    ensures Cost(a, lots) <= budget < Cost(a, lots + 1)
  {
    var lot, s := V(a.policy.lot), Shortfall(a);
    CostIs(a, lots);
    CostIs(a, lots + 1);
    hide V, Shortfall, Cost;
    var x := Quotient(budget, s);
    FloorBounds(x, lot, lots);
    QuotientBack(budget, s);
    ScaledOrder(lots as real * lot, x, s);
    StrictProduct(x, (lots + 1) as real * lot, s);
  }

  lemma QuotientBack(x: real, y: real)
    requires y > 0.0
    ensures Quotient(x, y) * y == x
  {
  }

  lemma ScaledOrder(x: real, y: real, z: real)
    requires x <= y && z > 0.0
    ensures x * z <= y * z
  {
    NonNegativeProduct(y - x, z);
    Distribute(y - x, x, z);
  }

  lemma NoCost(a: Attempt)
    ensures Cost(a, 0) == 0.0
  {
    hide V, Shortfall;
    ZeroTimes(V(a.policy.lot));
    ZeroTimes(Shortfall(a));
    CostIs(a, 0);
  }

  lemma ZeroTimes(x: real)
    ensures 0.0 * x == 0.0
  {
  }

  /** The lots within a budget are the most that it bears. */
  lemma BudgetLotsAre(a: Attempt, budget: real, bound: int, n: int)
    requires V(a.policy.lot) > 0.0 && Shortfall(a) > 0.0 && n > 0
    ensures BudgetLots(a, budget, bound) == n <==> MostWithin(a, budget, bound, n)
  {
    var lots := Quotient(Quotient(budget, Shortfall(a)), V(a.policy.lot)).Floor;
    DividedLots(a, budget, lots);
    NoCost(a);
    CostGrows(a, 0, n);
    BudgetLotsIs(a, budget, bound);
    hide V, Shortfall, Cost, BudgetLots, Quotient;
    if n < lots { CostGrows(a, n, lots); if n + 1 < lots { CostGrows(a, n + 1, lots); } }
    if lots < n { CostGrows(a, lots, n); if lots + 1 < n { CostGrows(a, lots + 1, n); } }
  }

  lemma BudgetLotsIs(a: Attempt, budget: real, bound: int)
    requires V(a.policy.lot) > 0.0 && Shortfall(a) > 0.0
    ensures var lots := Quotient(Quotient(budget, Shortfall(a)), V(a.policy.lot)).Floor;
      BudgetLots(a, budget, bound) == if budget <= 0.0 then 0 else if lots < bound then lots else bound
  {
    hide V, Price;
  }

  // ----- The decision -----

  /** A sale on an open market whose shares cost more than they bring, cut down from more lots than the cash bears. */
  predicate Cut(a: Attempt, bound: int) {
    && ValidAttempt(a) && a.intent.side == Sell && a.intent.timeInForce != Fok && MostLots(a, bound) && bound > 0
    && a.intent.earliestSubmit <= a.outcome.closeAt <= a.intent.expiresAt
    && Marketable(a.intent, Price(a)) && V(CashAfter(a, LotsOf(a, bound))) < 0.0 && Shortfall(a) > 0.0
  }

  /** Some lots, the most within a budget, that the cash in the end does bear. */
  predicate Borne(a: Attempt, budget: real, bound: int, n: int) {
    n > 0 && MostWithin(a, budget, bound, n) && V(CashAfter(a, LotsOf(a, n))) >= 0.0
  }

  lemma CutDecision(a: Attempt, bound: int)
    requires Cut(a, bound)
    ensures V(a.policy.lot) > 0.0
    ensures var first, second := BudgetLots(a, Budget(a), bound), BudgetLots(a, Reserved(a), bound);
      Decide(a) == Some(
        if first <= 0 then NoFill(CashOrLot)
        else if V(CashAfter(a, LotsOf(a, first))) >= 0.0 then Filled(BuildFill(a, LotsOf(a, first)))
        else if second > 0 && V(CashAfter(a, LotsOf(a, second))) >= 0.0 then Filled(BuildFill(a, LotsOf(a, second)))
        else NoFill(CashOrLot))
  {
    hide V, ValidAttempt, MaxLots, LotsOf, Price, BuildFill, Marketable, CashAfter, MostLots, BudgetLots, Product, FeeDue;
    AttemptFacts(a);
    MostLotsAre(a, bound);
  }

  /** A larger budget bears at least as many lots. */
  lemma BudgetReach(a: Attempt, low: real, high: real, bound: int, n: int, lots: int)
    requires V(a.policy.lot) > 0.0 && Shortfall(a) > 0.0 && low <= high && n > 0 && MostWithin(a, low, bound, n) && lots == BudgetLots(a, high, bound)
    ensures lots >= n
  {
    var divided := Quotient(Quotient(high, Shortfall(a)), V(a.policy.lot)).Floor;
    DividedLots(a, high, divided);
    BudgetLotsIs(a, high, bound);
    NoCost(a);
    CostGrows(a, 0, n);
    hide V, Shortfall, Cost, BudgetLots, Quotient;
    if divided + 1 < n { CostGrows(a, divided + 1, n); }
  }

  /**
    A sale that is cut down sells the most lots that its budget bears; failing that, the most that
    it bears with half a cent in reserve; and nothing exactly when neither are borne.
   */
  lemma CutSells(a: Attempt, bound: int)
    requires Cut(a, bound)
    ensures forall n :: Borne(a, Budget(a), bound, n) ==> Decide(a) == Some(Filled(BuildFill(a, LotsOf(a, n))))
    ensures forall n :: Borne(a, Reserved(a), bound, n) && (forall m :: !Borne(a, Budget(a), bound, m)) ==>
      Decide(a) == Some(Filled(BuildFill(a, LotsOf(a, n))))
    ensures (forall n :: !Borne(a, Budget(a), bound, n) && !Borne(a, Reserved(a), bound, n)) ==> Decide(a) == Some(NoFill(CashOrLot))
  {
    hide V, Cut, Shortfall, Budget, Decide, BuildFill, BudgetLots, CashAfter, LotsOf, MostWithin, Cost;
    CutParts(a, bound);
    CutDecision(a, bound);
    var whole, less := Budget(a), Reserved(a);
    var first, second := BudgetLots(a, whole, bound), BudgetLots(a, less, bound);
    if first > 0 { BudgetLotsAre(a, whole, bound, first); }
    if second > 0 { BudgetLotsAre(a, less, bound, second); }
    forall n | Borne(a, whole, bound, n) ensures n == first { BudgetLotsAre(a, whole, bound, n); }
    forall n | Borne(a, less, bound, n) ensures n == second && first > 0 {
      BudgetLotsAre(a, less, bound, n);
      BudgetReach(a, less, whole, bound, n, first);
    }
    assert first > 0 && V(CashAfter(a, LotsOf(a, first))) >= 0.0 ==> Borne(a, whole, bound, first);
    assert second > 0 && V(CashAfter(a, LotsOf(a, second))) >= 0.0 ==> Borne(a, less, bound, second);
  }

  lemma CutParts(a: Attempt, bound: int)
    requires Cut(a, bound)
    ensures V(a.policy.lot) > 0.0 && Shortfall(a) > 0.0 && ValidAttempt(a) && a.intent.side == Sell
  {
    hide V, Price, Marketable, CashAfter, LotsOf, MostLots;
    AttemptFacts(a);
  }

  // ----- What half a cent is for -----

  /** Cash after a sale of so many lots: what is left of the budget, but for the rounding and the minimum of the fee. */
  lemma CashOfLots(a: Attempt, n: int) returns (sold: Dec)
    requires a.intent.side == Sell
    ensures sold == Add(a.cumulative, LotsOf(a, n)) && V(sold) == V(a.cumulative) + V(LotsOf(a, n))
    ensures V(CashAfter(a, LotsOf(a, n))) == Budget(a) - Cost(a, n) + (Product(V(a.policy.commission), V(sold)) - V(FeeDue(sold, a.policy)))
  {
    hide *;
    sold := Add(a.cumulative, LotsOf(a, n));
    LotsValue(a, n);
    CashIs(a, LotsOf(a, n), sold);
    BudgetIs(a, n);
    Gathered(V(a.policy.commission), V(Price(a)), V(LotsOf(a, n)), V(a.cumulative));
  }

  lemma BudgetIs(a: Attempt, n: int)
    ensures Budget(a) == V(a.cash) + V(FeeDue(a.cumulative, a.policy)) - Product(V(a.policy.commission), V(a.cumulative))
    ensures Cost(a, n) == Product(V(LotsOf(a, n)), V(a.policy.commission) - V(Price(a)))
    ensures Reserved(a) == Budget(a) - 0.005
  {
    LotsValue(a, n);
    hide V, Price, LotsOf, FeeDue;
  }

  lemma LotsValue(a: Attempt, n: int)
    ensures V(LotsOf(a, n)) == n as real * V(a.policy.lot)
  {
    hide V;
  }

  lemma CashIs(a: Attempt, quantity: Dec, sold: Dec)
    requires sold == Add(a.cumulative, quantity) && a.intent.side == Sell
    ensures V(CashAfter(a, quantity)) == V(a.cash) + Product(V(quantity), V(Price(a))) - (V(FeeDue(sold, a.policy)) - V(FeeDue(a.cumulative, a.policy)))
    ensures V(sold) == V(a.cumulative) + V(quantity)
  {
    ProductOf(quantity, Price(a));
    hide V, Price, FeeDue, Mul, Product;
  }

  lemma Gathered(c: real, p: real, q: real, done: real)
    ensures Product(q, c - p) + Product(q, p) == Product(c, done + q) - Product(c, done)
  {
    assert q * (c - p) + q * p == q * c == c * (done + q) - c * done;
  }

  /** The fee is within half a cent of the commission, unless the minimum is above that. */
  lemma FeeNear(a: Attempt, sold: Dec)
    requires V(sold) > 0.0
    ensures V(FeeDue(sold, a.policy)) >= Product(V(a.policy.commission), V(sold)) - 0.005
    ensures Product(V(a.policy.commission), V(sold)) >= V(a.policy.minimum) ==>
      V(FeeDue(sold, a.policy)) <= Product(V(a.policy.commission), V(sold)) + 0.005
  {
    hide *;
    FeeIsNearestCent(sold, a.policy);
    ProductIs(V(a.policy.commission), V(sold));
    NearCents(V(a.policy.minimum), Product(V(a.policy.commission), V(sold)), V(FeeDue(sold, a.policy)), FeeDue(sold, a.policy).coef);
  }

  lemma NearCents(minimum: real, commission: real, fee: real, cents: int)
    requires fee * 100.0 == cents as real && NearestCent(Most(minimum, commission), cents)
    ensures fee >= commission - 0.005 && (commission >= minimum ==> fee <= commission + 0.005)
  {
  }

  /** Lots that the cash bears cost at most the budget and half a cent more. */
  lemma BorneWithinHalfCent(a: Attempt, n: int)
    requires ValidAttempt(a) && a.intent.side == Sell && n > 0 && V(CashAfter(a, LotsOf(a, n))) >= 0.0
    ensures Cost(a, n) <= Budget(a) + 0.005
  {
    hide *;
    var sold := CashOfLots(a, n);
    AttemptFacts(a);
    LotsPositive(a, n);
    FeeNear(a, sold);
  }

  lemma LotsPositive(a: Attempt, n: int)
    requires V(a.policy.lot) > 0.0 && n > 0
    ensures V(LotsOf(a, n)) > 0.0
  {
    LotsValue(a, n);
    hide V, LotsOf;
    LotsSign(n, V(a.policy.lot));
  }

  lemma LotsSign(n: int, lot: real)
    requires n > 0 && lot > 0.0
    ensures n as real * lot > 0.0
  {
  }

  /** Lots within the reserve are borne, once the commission has passed the minimum. */
  lemma ReserveBears(a: Attempt, n: int)
    requires ValidAttempt(a) && a.intent.side == Sell && n > 0 && Cost(a, n) <= Reserved(a)
    requires V(a.policy.commission) * (V(a.cumulative) + V(LotsOf(a, n))) >= V(a.policy.minimum)
    ensures V(CashAfter(a, LotsOf(a, n))) >= 0.0
  {
    hide *;
    var sold := CashOfLots(a, n);
    AttemptFacts(a);
    LotsPositive(a, n);
    FeeNear(a, sold);
    BudgetIs(a, n);
    ProductIs(V(a.policy.commission), V(sold));
  }

  lemma ProductIs(x: real, y: real)
    ensures Product(x, y) == x * y
  {
  }

  /**
    A sale that is cut down and sells something falls short of the most that the cash bears by
    lots that cost at most a cent beyond the next one.
   */
  lemma CutIsNearlyMost(a: Attempt, bound: int, n: int, m: int)
    requires Cut(a, bound) && n > 0 && Decide(a) == Some(Filled(BuildFill(a, LotsOf(a, n)))) && n < m <= bound
    requires V(CashAfter(a, LotsOf(a, m))) >= 0.0
    ensures Cost(a, m) <= Cost(a, n + 1) + 0.01
  {
    hide *;
    CutParts(a, bound);
    BorneWithinHalfCent(a, m);
    SoldLots(a, bound, n);
    BudgetIs(a, n);
  }

  /** What a cut sale sells, and that one lot more would cost more than the reserved budget. */
  lemma SoldLots(a: Attempt, bound: int, n: int)
    requires Cut(a, bound) && n > 0 && Decide(a) == Some(Filled(BuildFill(a, LotsOf(a, n))))
    ensures n < bound ==> Cost(a, n + 1) > Reserved(a)
  {
    hide V, Cut, Shortfall, Decide, BudgetLots, CashAfter, LotsOf, Cost, Price, Charged, FeeFor, Add;
    CutParts(a, bound);
    CutDecision(a, bound);
    var first, second := BudgetLots(a, Budget(a), bound), BudgetLots(a, Reserved(a), bound);
    if first > 0 { BudgetLotsAre(a, Budget(a), bound, first); if LotsOf(a, first) == LotsOf(a, n) { SameLots(a, first, n); } }
    if second > 0 { BudgetLotsAre(a, Reserved(a), bound, second); if LotsOf(a, second) == LotsOf(a, n) { SameLots(a, second, n); } }
  }

  lemma SameLots(a: Attempt, m: int, n: int)
    requires V(a.policy.lot) > 0.0 && LotsOf(a, m) == LotsOf(a, n)
    ensures m == n
  {
    LotsValue(a, m);
    LotsValue(a, n);
    hide V, LotsOf;
    if m < n { StrictProduct(m as real, n as real, V(a.policy.lot)); } else if n < m { StrictProduct(n as real, m as real, V(a.policy.lot)); }
  }
}
