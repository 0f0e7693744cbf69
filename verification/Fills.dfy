/**
  The fill engine for one order in one session: eligibility, lots, the all-or-nothing branch,
  the search for the largest affordable purchase, and the closed-form choice of a sale.
 */
module Fills {
  import opened Options
  import opened Decimals
  import opened Contracts

  datatype Reason = NotYetEligible | Expired | CapacityOrLot | FokUnavailable | FokUnaffordable | LimitNotMarketable | CashOrLot
  datatype Decision = Filled(fill: Fill) | NoFill(reason: Reason)

  /** One order against one session's outcome, with what is left of it, of the cash, the shares and the cap. */
  datatype Attempt = Attempt(intent: Intent, outcome: Outcome, policy: Policy, binding: Binding,
                             remaining: Dec, cumulative: Dec, cash: Dec, shares: Dec, cap: Dec)

  predicate ValidAttempt(a: Attempt) {
    && ValidIntent(a.intent) && ValidPolicy(a.policy) && BoundTo(a.intent, a.binding) && OutcomeFor(a.intent, a.outcome, a.binding)
    && InRange(a.remaining, Quantity) && V(a.remaining) > 0.0 && InRange(a.cumulative, Quantity)
    && InRange(a.cash, Money) && InRange(a.shares, Holding) && InRange(a.cap, Quantity)
    && V(a.remaining) + V(a.cumulative) == V(a.intent.quantity)
  }

  function Lesser(x: Dec, y: Dec): (m: Dec)
    ensures V(m) <= V(x) && V(m) <= V(y) && (m == x || m == y)
  {
    if V(y) < V(x) then y else x
  }

  /** The most that lots, the order, the cap and, for a sale, the shares leave room for. */
  function Available(a: Attempt): Dec {
    var room := Lesser(a.remaining, a.cap);
    if a.intent.side == Sell then Lesser(room, a.shares) else room
  }

  function MaxLots(a: Attempt): int
    requires V(a.policy.lot) > 0.0
  {
    FloorLots(Available(a), a.policy.lot)
  }

  // ----- Quotes -----

  function Price(a: Attempt): Dec { AdversePrice(a.outcome.close, a.intent.side, a.policy) }

  /** The fee the order still owes once this much more has been filled. */
  function FeeFor(a: Attempt, quantity: Dec): Dec {
    Sub(FeeDue(Add(a.cumulative, quantity), a.policy), FeeDue(a.cumulative, a.policy))
  }

  function CashAfter(a: Attempt, quantity: Dec): Dec {
    var notional := Mul(quantity, Price(a));
    Sub(if a.intent.side == Buy then Sub(a.cash, notional) else Add(a.cash, notional), FeeFor(a, quantity))
  }

  predicate Affordable(a: Attempt, quantity: Dec) { V(CashAfter(a, quantity)) >= 0.0 }

  function LotsOf(a: Attempt, n: int): Dec { LotQuantity(n, a.policy.lot) }

  predicate AffordsLots(a: Attempt, n: int) { Affordable(a, LotsOf(a, n)) }

  /** The largest affordable number of lots up to a bound. */
  function BestLots(a: Attempt, n: nat): nat {
    if n == 0 then 0 else if AffordsLots(a, n) then n else BestLots(a, n - 1)
  }

  // ----- Sales -----

  /** Lots whose linear commission shortfall stays within a budget, up to the bound. */
  function BudgetLots(a: Attempt, budget: real, maxLots: int): int {
    var excess := V(a.policy.commission) - V(Price(a));
    if budget <= 0.0 || excess <= 0.0 || V(a.policy.lot) <= 0.0 then 0
    else
      var lots := Quotient(Quotient(budget, excess), V(a.policy.lot)).Floor;
      if lots < maxLots then lots else maxLots
  }

  predicate Sellable(a: Attempt, n: int) { n > 0 && Marketable(a.intent, Price(a)) && AffordsLots(a, n) }

  /** How many lots to sell: all of them, or as many as the commission lets the cash survive. */
  function SaleLots(a: Attempt, maxLots: int): int {
    if Sellable(a, maxLots) then maxLots
    else if V(a.policy.commission) <= V(Price(a)) then 0
    else
      var budget := V(a.cash) + V(FeeDue(a.cumulative, a.policy)) - Product(V(a.policy.commission), V(a.cumulative));
      var lots := BudgetLots(a, budget, maxLots);
      if lots <= 0 then 0
      else if Sellable(a, lots) then lots
      else
        var reserved := BudgetLots(a, budget - 0.005, maxLots);
        if reserved > 0 && Sellable(a, reserved) then reserved else 0
  }

  // ----- The decision -----

  function Charged(d: Dec): Dec { if d.coef == 0 then ZERO else d }

  function BuildFill(a: Attempt, quantity: Dec): Fill {
    Fill(a.intent, a.outcome, a.policy, quantity, a.cumulative, Add(a.cumulative, quantity), Price(a), Charged(FeeFor(a, quantity)))
  }

  function Concluded(a: Attempt, quantity: Dec): Decision {
    if Marketable(a.intent, Price(a)) then Filled(BuildFill(a, quantity)) else NoFill(LimitNotMarketable)
  }

  function DecideFok(a: Attempt, maxLots: int): Decision
    requires V(a.policy.lot) > 0.0
  {
    if !Same(LotsOf(a, FloorLots(a.remaining, a.policy.lot)), a.remaining) || !Same(LotsOf(a, maxLots), a.remaining)
    then NoFill(FokUnavailable)
    else if !Affordable(a, a.remaining) then NoFill(FokUnaffordable)
    else Concluded(a, a.remaining)
  }

  function DecideBuy(a: Attempt, maxLots: nat): Decision {
    if !Marketable(a.intent, Price(a)) then NoFill(LimitNotMarketable)
    else
      var best := BestLots(a, maxLots);
      if best == 0 then NoFill(CashOrLot) else Filled(BuildFill(a, LotsOf(a, best)))
  }

  function DecideSale(a: Attempt, maxLots: int): Decision {
    var lots := SaleLots(a, maxLots);
    if lots <= 0 then NoFill(CashOrLot) else Concluded(a, LotsOf(a, lots))
  }

  /** The decision before the fill is validated again; none for inputs that are rejected. */
  function Decide(a: Attempt): Option<Decision> {
    var _ :- Need(ValidAttempt(a));
    LotPositive(a.policy);
    var maxLots := MaxLots(a);
    Some(
      if a.outcome.closeAt < a.intent.earliestSubmit then NoFill(NotYetEligible)
      else if a.outcome.closeAt > a.intent.expiresAt then NoFill(Expired)
      else if maxLots <= 0 then NoFill(CapacityOrLot)
      else if a.intent.timeInForce == Fok then DecideFok(a, maxLots)
      else if a.intent.side == Buy then DecideBuy(a, maxLots)
      else DecideSale(a, maxLots))
  }

  /** The decision of the fill model: a fill must pass the same validation as one from outside. */
  function Simulate(a: Attempt): Option<Decision> {
    var d :- Decide(a);
    var _ :- Need(d.Filled? ==> ValidFill(d.fill, a.intent, a.outcome, a.policy, a.binding, a.remaining, a.cumulative));
    Some(d)
  }

  lemma LotPositive(p: Policy)
    requires ValidPolicy(p)
    ensures V(p.lot) > 0.0
  {
    hide V, Ten;
  }

  // ----- Lots -----

  lemma FloorLotsBounds(quantity: Dec, lot: Dec)
    requires V(lot) > 0.0
    ensures var n := FloorLots(quantity, lot); n as real * V(lot) <= V(quantity) < (n + 1) as real * V(lot)
  {
    hide V;
    FloorBounds(V(quantity), V(lot), (V(quantity) / V(lot)).Floor);
  }

  lemma FloorBounds(q: real, l: real, n: int)
    requires l > 0.0 && n == (q / l).Floor
    ensures n as real * l <= q < (n + 1) as real * l
  {
    var x := q / l;
    assert x * l == q;
    ProductOrder(n as real, x, l);
    StrictProductOrder(x, (n + 1) as real, l);
  }

  lemma ProductOrder(a: real, b: real, l: real)
    requires a <= b && l >= 0.0
    ensures a * l <= b * l
  {
    NonNegativeProduct(b - a, l);
    Distribute(b - a, a, l);
  }

  lemma StrictProductOrder(a: real, b: real, l: real)
    requires a < b && l > 0.0
    ensures a * l < b * l
  {
    SignOfProduct(b - a, l);
    Distribute(b - a, a, l);
  }

  lemma FloorOfLots(n: int, quantity: Dec, lot: Dec)
    requires V(lot) > 0.0 && V(quantity) == n as real * V(lot)
    ensures FloorLots(quantity, lot) == n
  {
    hide V;
    QuotientFloor(n, V(quantity), V(lot));
  }

  lemma QuotientFloor(n: int, q: real, l: real)
    requires l > 0.0 && q == n as real * l
    ensures (q / l).Floor == n
  {
    var x := q / l;
    assert x * l == q;
    CancelScale(x, n as real, l);
  }

  // ----- Affordability -----

  /** What a quantity leaves of the cash, in values. */
  lemma CashAfterValue(a: Attempt, quantity: Dec)
    ensures V(CashAfter(a, quantity)) == V(a.cash)
      + (if a.intent.side == Buy then -Product(V(quantity), V(Price(a))) else Product(V(quantity), V(Price(a))))
      - (V(FeeDue(Add(a.cumulative, quantity), a.policy)) - V(FeeDue(a.cumulative, a.policy)))
  {
    ProductOf(quantity, Price(a));
    hide V, Mul, Sub, Add, FeeDue, Price, Product;
  }

  /** A larger purchase never leaves more cash. */
  lemma LargerCostsMore(a: Attempt, m: Dec, n: Dec)
    requires ValidPolicy(a.policy) && a.intent.side == Buy && V(a.cumulative) >= 0.0 && 0.0 <= V(m) <= V(n) && V(Price(a)) > 0.0
    ensures V(CashAfter(a, n)) <= V(CashAfter(a, m))
  {
    hide V, Mul, Sub, FeeDue, Price, CashAfter, ValidPolicy, Product;
    CashAfterValue(a, m);
    CashAfterValue(a, n);
    FeeDueMonotone(Add(a.cumulative, m), Add(a.cumulative, n), a.policy);
    ProductGrows(V(m), V(n), V(Price(a)));
  }

  lemma ProductGrows(a: real, b: real, l: real)
    requires a <= b && l >= 0.0
    ensures Product(a, l) <= Product(b, l)
  {
    ProductOrder(a, b, l);
  }

  lemma LotsOrder(a: Attempt, m: int, n: int)
    requires V(a.policy.lot) > 0.0 && m <= n
    ensures V(LotsOf(a, m)) <= V(LotsOf(a, n)) && (m >= 0 ==> V(LotsOf(a, m)) >= 0.0) && (m > 0 ==> V(LotsOf(a, m)) > 0.0)
  {
    hide V, Mul, Whole, LotQuantity;
    ProductOrder(m as real, n as real, V(a.policy.lot));
    SignOfProduct(m as real, V(a.policy.lot));
  }

  lemma FewerLotsAffordable(a: Attempt, m: int, n: int)
    requires ValidAttempt(a) && a.intent.side == Buy && 0 <= m <= n && AffordsLots(a, n)
    ensures AffordsLots(a, m)
  {
    hide ValidAttempt, V, CashAfter, LotsOf, Price, ValidPolicy;
    AttemptFacts(a);
    LotsOrder(a, m, n);
    LargerCostsMore(a, LotsOf(a, m), LotsOf(a, n));
  }

  lemma AttemptFacts(a: Attempt)
    requires ValidAttempt(a)
    ensures ValidPolicy(a.policy) && V(a.policy.lot) > 0.0 && ValidReference(a.outcome.close)
    ensures V(a.cumulative) >= 0.0 && V(Price(a)) > 0.0 && InRange(Price(a), Execution) && V(a.remaining) > 0.0
    ensures V(a.cumulative) <= Ten(9) && V(a.remaining) <= Ten(9) && V(a.cap) <= Ten(9) && V(a.intent.quantity) <= Ten(9)
    ensures V(a.remaining) + V(a.cumulative) == V(a.intent.quantity)
  {
    hide V, ValidPolicy, ValidReference, AdversePrice, Ten;
    LotPositive(a.policy);
    PriceInRange(a.outcome.close, a.intent.side, a.policy);
    assert Maximum(Quantity) == Ten(9);
  }

  /** The best number of lots is affordable and no larger one within the bound is. */
  lemma {:induction false} BestLotsIsBest(a: Attempt, n: nat)
    ensures BestLots(a, n) <= n && (BestLots(a, n) > 0 ==> AffordsLots(a, BestLots(a, n)))
    ensures forall m | BestLots(a, n) < m <= n :: !AffordsLots(a, m)
  {
    hide AffordsLots;
    if n > 0 { BestLotsIsBest(a, n - 1); }
  }

  /** Searching between what is known affordable and what is known not to be finds the best number of lots. */
  lemma BestBetween(a: Attempt, n: nat, best: nat)
    requires best <= n && (best > 0 ==> AffordsLots(a, best)) && forall m | best < m <= n :: !AffordsLots(a, m)
    ensures BestLots(a, n) == best
  {
    hide AffordsLots;
    BestLotsIsBest(a, n);
  }

  /** The search of the fill model for the largest affordable purchase; the result is a number of lots. */
  method SearchBuy(a: Attempt, maxLots: nat) returns (best: nat)
    requires ValidAttempt(a) && a.intent.side == Buy
    ensures best == BestLots(a, maxLots)
  {
    hide ValidAttempt, AffordsLots;
    var low, high: int := 0, maxLots;
    best := 0;
    while low <= high
      invariant 0 <= low <= high + 1 <= maxLots + 1 && best <= maxLots
      invariant best == 0 || AffordsLots(a, best)
      invariant best == (if low == 0 then 0 else low - 1)
      invariant forall m | high < m <= maxLots :: !AffordsLots(a, m)
      decreases high - low
    {
      var middle := (low + high) / 2;
      if middle == 0 {
        low := 1;
      } else if AffordsLots(a, middle) {
        best := middle;
        low := middle + 1;
      } else {
        forall m | middle <= m <= maxLots ensures !AffordsLots(a, m) {
          if AffordsLots(a, m) { FewerLotsAffordable(a, middle, m); }
        }
        high := middle - 1;
      }
    }
    BestBetween(a, maxLots, best);
  }

  // ----- What a decision means -----

  /** A quantity of whole lots that the order, the cap, the shares and the cash allow. */
  predicate Fitting(a: Attempt, quantity: Dec) {
    && V(a.policy.lot) > 0.0
    && V(quantity) > 0.0 && V(quantity) <= V(a.remaining) && V(quantity) <= V(a.cap)
    && (a.intent.side == Sell ==> V(quantity) <= V(a.shares))
    && Same(LotQuantity(FloorLots(quantity, a.policy.lot), a.policy.lot), quantity)
    && Affordable(a, quantity) && Marketable(a.intent, Price(a))
  }

  lemma LotsWithin(a: Attempt, n: int)
    requires V(a.policy.lot) > 0.0 && 0 < n <= MaxLots(a)
    ensures V(LotsOf(a, n)) > 0.0 && V(LotsOf(a, n)) <= V(a.remaining) && V(LotsOf(a, n)) <= V(a.cap)
    ensures a.intent.side == Sell ==> V(LotsOf(a, n)) <= V(a.shares)
    ensures FloorLots(LotsOf(a, n), a.policy.lot) == n
  {
    hide V, Mul, Whole, FloorLots, Lesser;
    LotsOrder(a, n, MaxLots(a));
    FloorLotsBounds(Available(a), a.policy.lot);
    FloorOfLots(n, LotsOf(a, n), a.policy.lot);
    hide LotQuantity;
  }

  lemma LotsFit(a: Attempt, n: int)
    requires V(a.policy.lot) > 0.0 && 0 < n <= MaxLots(a) && AffordsLots(a, n) && Marketable(a.intent, Price(a))
    ensures Fitting(a, LotsOf(a, n))
  {
    hide V, MaxLots, CashAfter, Price, LotQuantity, FloorLots;
    LotsWithin(a, n);
  }

  lemma SaleLotsFit(a: Attempt, maxLots: int)
    requires maxLots > 0
    ensures SaleLots(a, maxLots) <= maxLots && (SaleLots(a, maxLots) > 0 ==> Sellable(a, SaleLots(a, maxLots)))
    ensures Sellable(a, maxLots) ==> SaleLots(a, maxLots) == maxLots
  {
    hide V, Price, Sellable, Product, Quotient, FeeDue;
  }

  /** Whatever is filled fits: whole lots, within order, cap and shares, affordable and marketable. */
  lemma FilledFits(a: Attempt)
    requires Decide(a).Some? && Decide(a).value.Filled?
    ensures var f := Decide(a).value.fill;
      f == BuildFill(a, f.quantity) && Fitting(a, f.quantity) && (a.intent.timeInForce == Fok ==> f.quantity == a.remaining)
      && a.intent.earliestSubmit <= a.outcome.closeAt <= a.intent.expiresAt
      && (f.quantity == a.remaining || f.quantity.exp == a.policy.lot.exp)
  {
    LotPositive(a.policy);
    var maxLots := MaxLots(a);
    hide V, ValidAttempt, MaxLots, CashAfter, Price, FloorLots, Sellable, Charged, FeeFor, Fitting, SaleLots;
    if maxLots > 0 {
      if a.intent.timeInForce == Fok {
        if DecideFok(a, maxLots).Filled? { FokFits(a); }
      } else if a.intent.side == Buy {
        BestLotsIsBest(a, maxLots);
        if BestLots(a, maxLots) > 0 && Marketable(a.intent, Price(a)) { LotsFit(a, BestLots(a, maxLots)); }
      } else {
        SaleLotsFit(a, maxLots);
        if SaleLots(a, maxLots) > 0 { SaleFits(a); }
      }
    }
  }

  lemma FokParts(a: Attempt, n: int)
    requires V(a.policy.lot) > 0.0 && DecideFok(a, n).Filled?
    ensures Same(LotQuantity(FloorLots(a.remaining, a.policy.lot), a.policy.lot), a.remaining) && Same(LotsOf(a, n), a.remaining)
    ensures Affordable(a, a.remaining) && Marketable(a.intent, Price(a)) && DecideFok(a, n).fill == BuildFill(a, a.remaining)
  {
    hide V, Price, FloorLots, BuildFill, CashAfter, LotQuantity;
  }

  lemma FokFits(a: Attempt)
    requires V(a.policy.lot) > 0.0 && MaxLots(a) > 0 && DecideFok(a, MaxLots(a)).Filled?
    ensures Fitting(a, a.remaining) && DecideFok(a, MaxLots(a)).fill == BuildFill(a, a.remaining)
  {
    hide *;
    LotsWithin(a, MaxLots(a));
    FokParts(a, MaxLots(a));
    SameIs(LotsOf(a, MaxLots(a)), a.remaining);
    FittingIs(a, a.remaining);
  }

  lemma FittingIs(a: Attempt, quantity: Dec)
    requires V(a.policy.lot) > 0.0 && V(quantity) > 0.0 && V(quantity) <= V(a.remaining) && V(quantity) <= V(a.cap)
    requires a.intent.side == Sell ==> V(quantity) <= V(a.shares)
    requires Same(LotQuantity(FloorLots(quantity, a.policy.lot), a.policy.lot), quantity)
    requires Affordable(a, quantity) && Marketable(a.intent, Price(a))
    ensures Fitting(a, quantity)
  {
    hide V, Price, Affordable, FloorLots, LotQuantity, Marketable;
  }

  lemma SaleFits(a: Attempt)
    requires V(a.policy.lot) > 0.0 && MaxLots(a) > 0 && SaleLots(a, MaxLots(a)) > 0
    ensures Fitting(a, LotsOf(a, SaleLots(a, MaxLots(a)))) && Marketable(a.intent, Price(a))
  {
    hide V, MaxLots, SaleLots, Price, LotsOf, Fitting;
    SaleLotsFit(a, MaxLots(a));
    LotsFit(a, SaleLots(a, MaxLots(a)));
  }

  /** The greatest number of lots that the order and the cap hold and the cash pays for. */
  ghost predicate Optimal(a: Attempt, n: nat) {
    && n > 0 && AffordsLots(a, n) && V(LotsOf(a, n)) <= V(Lesser(a.remaining, a.cap))
    && forall m: nat | m > n :: V(LotsOf(a, m)) > V(Lesser(a.remaining, a.cap)) || !AffordsLots(a, m)
  }

  lemma BestIsOptimal(a: Attempt)
    requires ValidAttempt(a) && a.intent.side == Buy && V(a.policy.lot) > 0.0 && MaxLots(a) > 0
    ensures var best := BestLots(a, MaxLots(a));
      if best == 0 then forall n: nat | n > 0 :: !AffordsLots(a, n) else Optimal(a, best)
  {
    hide *;
    BuyRoom(a);
    var best := BestLots(a, MaxLots(a));
    BestLotsIsBest(a, MaxLots(a));
    if best == 0 {
      forall n: nat | n > 0 ensures !AffordsLots(a, n) {
        if AffordsLots(a, n) { FewerLotsAffordable(a, 1, n); }
      }
    } else {
      OptimalIs(a, best);
      forall m: nat | m > best ensures V(LotsOf(a, m)) > V(Lesser(a.remaining, a.cap)) || !AffordsLots(a, m) {
        if m > MaxLots(a) { assert V(LotsOf(a, m)) > V(Lesser(a.remaining, a.cap)); }
      }
    }
  }

  lemma OptimalIs(a: Attempt, n: nat)
    ensures Optimal(a, n) <==>
      && n > 0 && AffordsLots(a, n) && V(LotsOf(a, n)) <= V(Lesser(a.remaining, a.cap))
      && forall m: nat | m > n :: V(LotsOf(a, m)) > V(Lesser(a.remaining, a.cap)) || !AffordsLots(a, m)
  {
    hide V, LotsOf, AffordsLots, Lesser;
  }

  /** Which way a purchase is decided, by the room for one lot, the limit and the cash. */
  lemma BuyDecision(a: Attempt)
    requires ValidAttempt(a) && a.intent.side == Buy && a.intent.timeInForce != Fok && V(a.policy.lot) > 0.0
    requires a.intent.earliestSubmit <= a.outcome.closeAt <= a.intent.expiresAt
    ensures Decide(a) == Some(
      if MaxLots(a) <= 0 then NoFill(CapacityOrLot)
      else if !Marketable(a.intent, Price(a)) then NoFill(LimitNotMarketable)
      else if BestLots(a, MaxLots(a)) == 0 then NoFill(CashOrLot)
      else Filled(BuildFill(a, LotsOf(a, BestLots(a, MaxLots(a))))))
  {
    hide V, Price, LotsOf, MaxLots, AffordsLots, ValidAttempt, BuildFill, BestLots, Marketable;
  }

  /**
    A purchase that need not be all-or-nothing takes the greatest number of lots that the
    remaining order and cap hold and the cash pays for, fee included, and goes without only
    when the limit is not met or not even one lot fits or is affordable.
   */
  lemma BuyIsOptimal(a: Attempt)
    requires ValidAttempt(a) && a.intent.side == Buy && a.intent.timeInForce != Fok
    requires a.intent.earliestSubmit <= a.outcome.closeAt <= a.intent.expiresAt
    ensures Decide(a).Some?
    ensures match Decide(a).value
      case Filled(f) => Marketable(a.intent, Price(a)) && exists n: nat :: f.quantity == LotsOf(a, n) && Optimal(a, n)
      case NoFill(CapacityOrLot) => V(LotsOf(a, 1)) > V(Lesser(a.remaining, a.cap))
      case NoFill(LimitNotMarketable) => !Marketable(a.intent, Price(a))
      case NoFill(reason) => reason == CashOrLot && forall n: nat | n > 0 :: !AffordsLots(a, n)
  {
    LotPositive(a.policy);
    hide *;
    BuyDecision(a);
    BuyRoom(a);
    if MaxLots(a) > 0 {
      BestIsOptimal(a);
      BuiltQuantity(a, LotsOf(a, BestLots(a, MaxLots(a))));
    }
  }

  /** A purchase that need not be all-or-nothing is filled exactly when the limit is met and some number of lots can be had. */
  lemma BuyFills(a: Attempt)
    requires ValidAttempt(a) && a.intent.side == Buy && a.intent.timeInForce != Fok
    requires a.intent.earliestSubmit <= a.outcome.closeAt <= a.intent.expiresAt
    ensures Decide(a).Some? && (Decide(a).value.Filled? <==> Marketable(a.intent, Price(a)) && exists n: nat :: Optimal(a, n))
  {
    hide Decide, ValidAttempt, AffordsLots, Lesser, LotsOf, Price, Marketable, V;
    BuyIsOptimal(a);
    AttemptFacts(a);
    if n: nat :| Optimal(a, n) { if n > 1 { LotsOrder(a, 1, n); } }
  }

  predicate Multiple(q: real, l: real, n: int) { q == n as real * l }

  /** The order's remainder is a whole number of lots. */
  ghost predicate WholeLot(a: Attempt) { exists n: nat :: Multiple(V(a.remaining), V(a.policy.lot), n) }

  /** The remainder is within the cap, and within the shares for a sale. */
  predicate Roomy(a: Attempt) { V(a.remaining) <= V(a.cap) && (a.intent.side == Sell ==> V(a.remaining) <= V(a.shares)) }

  /** Not even one lot is left to order, to the cap or, for a sale, of the shares. */
  predicate NoLot(a: Attempt) {
    V(a.policy.lot) > V(a.remaining) || V(a.policy.lot) > V(a.cap) || (a.intent.side == Sell && V(a.policy.lot) > V(a.shares))
  }

  lemma AvailableIs(a: Attempt, x: real)
    ensures V(Available(a)) <= V(a.remaining) && (V(Available(a)) == V(a.remaining) <==> Roomy(a))
    ensures x > V(Available(a)) <==> x > V(a.remaining) || x > V(a.cap) || (a.intent.side == Sell && x > V(a.shares))
  {
    hide V;
  }

  /** How the number of lots in a quantity compares with none and with all of it. */
  lemma LotsIn(q: real, l: real, n: int)
    requires l > 0.0 && n as real * l <= q < (n + 1) as real * l
    ensures n <= 0 <==> l > q
    ensures q > 0.0 ==> (Multiple(q, l, n) <==> exists m: nat :: Multiple(q, l, m))
  {
    if n <= 0 { ProductOrder((n + 1) as real, 1.0, l); } else { ProductOrder(1.0, n as real, l); }
    if q > 0.0 {
      forall m: nat | Multiple(q, l, m) ensures m == n { OneMultiple(q, l, n, m); }
      if n < 0 { ProductOrder((n + 1) as real, 0.0, l); }
    }
  }

  lemma OneMultiple(q: real, l: real, n: int, m: int)
    requires l > 0.0 && n as real * l <= q < (n + 1) as real * l && q == m as real * l
    ensures m == n
  {
    if m > n { ProductOrder((n + 1) as real, m as real, l); }
    if m < n { StrictProductOrder(m as real, n as real, l); }
  }

  lemma RoomForLots(a: Attempt)
    requires V(a.policy.lot) > 0.0 && V(a.remaining) > 0.0
    ensures MaxLots(a) <= 0 <==> NoLot(a)
    ensures Same(LotsOf(a, FloorLots(a.remaining, a.policy.lot)), a.remaining) <==> WholeLot(a)
    ensures WholeLot(a) ==> (Same(LotsOf(a, MaxLots(a)), a.remaining) <==> Roomy(a))
  {
    hide V, Available, FloorLots, Roomy, WholeLot, Multiple, LotQuantity;
    var l, n := V(a.policy.lot), FloorLots(a.remaining, a.policy.lot);
    AvailableIs(a, l);
    FloorLotsBounds(Available(a), a.policy.lot);
    FloorLotsBounds(a.remaining, a.policy.lot);
    LotsIn(V(Available(a)), l, MaxLots(a));
    LotsIn(V(a.remaining), l, n);
    LotsSame(a, n);
    LotsSame(a, MaxLots(a));
    WholeIs(a);
    if Multiple(V(a.remaining), l, MaxLots(a)) { AllTaken(V(a.remaining), l, V(Available(a)), MaxLots(a)); }
    if Roomy(a) { SameFloor(a); }
  }

  lemma AllTaken(q: real, l: real, taken: real, n: int)
    requires n as real * l <= taken <= q && Multiple(q, l, n)
    ensures taken == q
  {
  }

  lemma SameFloor(a: Attempt)
    requires V(a.policy.lot) > 0.0 && V(Available(a)) == V(a.remaining)
    ensures MaxLots(a) == FloorLots(a.remaining, a.policy.lot)
  {
    hide V, Available;
  }

  lemma LotsSame(a: Attempt, n: int)
    ensures Same(LotsOf(a, n), a.remaining) <==> Multiple(V(a.remaining), V(a.policy.lot), n)
  {
    hide V, Mul, Whole;
  }

  lemma WholeIs(a: Attempt)
    ensures WholeLot(a) <==> exists m: nat :: Multiple(V(a.remaining), V(a.policy.lot), m)
  {
    hide V, Multiple;
  }

  /**
    An all-or-nothing order is filled whole exactly when what remains of it is whole lots, fits
    cap and shares, is affordable and meets the limit; otherwise the first of these that fails is named.
   */
  lemma FokIsWhole(a: Attempt)
    requires ValidAttempt(a) && a.intent.timeInForce == Fok
    requires a.intent.earliestSubmit <= a.outcome.closeAt <= a.intent.expiresAt
    ensures Decide(a) == Some(
      if NoLot(a) then NoFill(CapacityOrLot)
      else if !WholeLot(a) || !Roomy(a) then NoFill(FokUnavailable)
      else if V(CashAfter(a, a.remaining)) < 0.0 then NoFill(FokUnaffordable)
      else if !Marketable(a.intent, Price(a)) then NoFill(LimitNotMarketable)
      else Filled(BuildFill(a, a.remaining)))
  {
    hide V, ValidAttempt, MaxLots, FloorLots, LotsOf, NoLot, WholeLot, Roomy, Price, BuildFill, Marketable, CashAfter, Same;
    AttemptFacts(a);
    RoomForLots(a);
  }

  /** So many lots, and not one more, fit what is left of the order, the cap and the shares. */
  predicate MostLots(a: Attempt, n: int) {
    && V(LotsOf(a, n)) <= V(a.remaining) && V(LotsOf(a, n)) <= V(a.cap) && V(LotsOf(a, n)) <= V(a.shares)
    && (V(LotsOf(a, n + 1)) > V(a.remaining) || V(LotsOf(a, n + 1)) > V(a.cap) || V(LotsOf(a, n + 1)) > V(a.shares))
  }

  lemma MostLotsAre(a: Attempt, n: int)
    requires V(a.policy.lot) > 0.0 && a.intent.side == Sell && MostLots(a, n)
    ensures MaxLots(a) == n
  {
    hide V, Available, FloorLots, Mul, Whole;
    AvailableIs(a, V(LotsOf(a, n + 1)));
    AvailableIs(a, V(LotsOf(a, n)));
    assert V(LotsOf(a, n + 1)) == (n + 1) as real * V(a.policy.lot) && V(LotsOf(a, n)) == n as real * V(a.policy.lot);
    FloorLotsBounds(Available(a), a.policy.lot);
    LotsBetween(V(Available(a)), V(a.policy.lot), MaxLots(a), n);
  }

  lemma LotsBetween(q: real, l: real, m: int, n: int)
    requires l > 0.0 && m as real * l <= q < (m + 1) as real * l && n as real * l <= q < (n + 1) as real * l
    ensures m == n
  {
    if m > n { LotsBelow(q, l, n, m); }
    if m < n { LotsBelow(q, l, m, n); }
  }

  lemma LotsBelow(q: real, l: real, m: int, n: int)
    requires l > 0.0 && m < n && q < (m + 1) as real * l
    ensures q < n as real * l
  {
    ProductOrder((m + 1) as real, n as real, l);
  }

  /**
    A sale that need not be all-or-nothing sells every lot that order, cap and shares hold if the
    limit is met and the cash then left is not negative; unless the commission on a share is above
    its price, it sells nothing otherwise.
   */
  lemma SaleSellsAll(a: Attempt, n: int)
    requires ValidAttempt(a) && a.intent.side == Sell && a.intent.timeInForce != Fok && MostLots(a, n)
    requires a.intent.earliestSubmit <= a.outcome.closeAt <= a.intent.expiresAt
    ensures n <= 0 ==> Decide(a) == Some(NoFill(CapacityOrLot))
    ensures n > 0 && Marketable(a.intent, Price(a)) && V(CashAfter(a, LotsOf(a, n))) >= 0.0 ==> Decide(a) == Some(Filled(BuildFill(a, LotsOf(a, n))))
    ensures n > 0 && !Marketable(a.intent, Price(a)) ==> Decide(a) == Some(NoFill(CashOrLot))
    ensures n > 0 && V(CashAfter(a, LotsOf(a, n))) < 0.0 && V(a.policy.commission) <= V(Price(a)) ==> Decide(a) == Some(NoFill(CashOrLot))
  {
    hide V, ValidAttempt, MaxLots, LotsOf, Price, BuildFill, Marketable, CashAfter, MostLots, BudgetLots, Product, FeeDue;
    AttemptFacts(a);
    MostLotsAre(a, n);
  }

  /** What is filled is priced on its side of the reference, never better, within its limit, and pays what the fee due grows by. */
  lemma FilledPays(a: Attempt)
    requires Decide(a).Some? && Decide(a).value.Filled?
    ensures var f := Decide(a).value.fill;
      var spread := V(a.outcome.close) * (V(a.policy.halfSpread) + V(a.policy.slippage)) / 10000.0;
      && V(f.price) == V(a.outcome.close) + (if a.intent.side == Buy then spread else -spread) && spread >= 0.0
      && V(f.fee) == V(FeeDue(f.after, a.policy)) - V(FeeDue(a.cumulative, a.policy))
      && V(f.after) == V(a.cumulative) + V(f.quantity)
      && WithinLimit(a.intent, f.price)
  {
    hide *;
    LimitHolds(a.intent, Price(a));
    FilledFits(a);
    DecidedIsValid(a);
    var f := Decide(a).value.fill;
    AttemptFacts(a);
    FittingParts(a, f.quantity);
    FeeForValue(a, f.quantity);
    ChargedValue(FeeFor(a, f.quantity));
    BuiltIs(a, f.quantity);
    PriceIs(a);
    SidesPay(a.outcome.close, a.policy);
    PolicyShape(a.outcome.close, a.policy);
  }

  lemma DecidedIsValid(a: Attempt)
    requires Decide(a).Some?
    ensures ValidAttempt(a)
  {
    hide ValidAttempt, MaxLots, V, DecideFok, DecideBuy, DecideSale;
  }

  lemma BuiltIs(a: Attempt, quantity: Dec)
    ensures var f := BuildFill(a, quantity);
      f.after == Add(a.cumulative, quantity) && f.price == Price(a) && f.fee == Charged(FeeFor(a, quantity)) && f.quantity == quantity
  {
    hide V, Add, Price, Charged, FeeFor;
  }

  lemma BuiltQuantity(a: Attempt, quantity: Dec)
    ensures BuildFill(a, quantity).quantity == quantity
  {
  }

  /** The lots beyond the maximum do not fit the room, and those within do. */
  lemma BuyRoom(a: Attempt)
    requires V(a.policy.lot) > 0.0 && a.intent.side == Buy
    ensures forall m: int | m > MaxLots(a) :: V(LotsOf(a, m)) > V(Lesser(a.remaining, a.cap))
    ensures V(LotsOf(a, 1)) > V(Lesser(a.remaining, a.cap)) <==> MaxLots(a) <= 0
    ensures forall m: int | 0 < m <= MaxLots(a) :: V(LotsOf(a, m)) <= V(Lesser(a.remaining, a.cap))
  {
    hide V, Lesser, FloorLots, Mul, Whole;
    var room, n := Lesser(a.remaining, a.cap), MaxLots(a);
    FloorLotsBounds(room, a.policy.lot);
    forall m: int | m > n ensures V(LotsOf(a, m)) > V(room) { LotsOrder(a, n + 1, m); }
    forall m: int | 0 < m <= n ensures V(LotsOf(a, m)) <= V(room) { LotsOrder(a, m, n); }
    if n >= 1 { LotsOrder(a, 1, n); }
  }

  // ----- Validation of built fills -----

  lemma FeeForValue(a: Attempt, quantity: Dec)
    requires ValidPolicy(a.policy) && V(a.cumulative) >= 0.0 && V(quantity) > 0.0 && V(a.cumulative) + V(quantity) <= Ten(9)
    ensures V(FeeFor(a, quantity)) == V(FeeDue(Add(a.cumulative, quantity), a.policy)) - V(FeeDue(a.cumulative, a.policy))
    ensures V(FeeFor(a, quantity)) >= 0.0 && V(FeeFor(a, quantity)) <= Ten(15) && FeeFor(a, quantity).exp == -2
  {
    hide V, Add, Sub, FeeDue, Ten, ValidPolicy;
    FeeNonNegative(a.cumulative, a.policy);
    FeeNonNegative(Add(a.cumulative, quantity), a.policy);
    FeeDueMonotone(a.cumulative, Add(a.cumulative, quantity), a.policy);
    FeeBounded(Add(a.cumulative, quantity), a.policy);
  }

  lemma ChargedValue(d: Dec)
    ensures V(Charged(d)) == V(d) && (Charged(d).exp == d.exp || Charged(d).exp == 0)
  {
    SignOfValue(d);
    ValueZero();
    hide V;
  }

  lemma FittingParts(a: Attempt, quantity: Dec)
    requires Fitting(a, quantity)
    ensures V(a.policy.lot) > 0.0 && V(quantity) > 0.0 && V(quantity) <= V(a.remaining) && V(quantity) <= V(a.cap)
    ensures a.intent.side == Sell ==> V(quantity) <= V(a.shares)
    ensures Same(LotQuantity(FloorLots(quantity, a.policy.lot), a.policy.lot), quantity)
    ensures V(CashAfter(a, quantity)) >= 0.0 && Marketable(a.intent, Price(a))
  {
    hide V, FloorLots, LotQuantity, Price, CashAfter, Marketable;
  }

  lemma BuiltFillIsValid(a: Attempt, quantity: Dec)
    requires ValidAttempt(a) && Fitting(a, quantity) && (a.intent.timeInForce == Fok ==> quantity == a.remaining)
    requires a.intent.earliestSubmit <= a.outcome.closeAt <= a.intent.expiresAt
    ensures ValidFill(BuildFill(a, quantity), a.intent, a.outcome, a.policy, a.binding, a.remaining, a.cumulative)
        <==> V(quantity) <= V(a.policy.shareCap)
  {
    hide V, Add, Sub, FeeDue, Ten, ValidPolicy, Price, FloorLots, LotQuantity, CashAfter, Marketable, Charged, BoundTo, OutcomeFor, Fitting;
    AttemptFacts(a);
    FittingParts(a, quantity);
    FeeForValue(a, quantity);
    ChargedValue(FeeFor(a, quantity));
    assert BuildFill(a, quantity).price == Price(a);
    PriceIs(a);
  }

  lemma PriceIs(a: Attempt)
    ensures Price(a) == AdversePrice(a.outcome.close, a.intent.side, a.policy)
  {
  }

  lemma FeeInRange(a: Attempt, quantity: Dec)
    requires ValidPolicy(a.policy) && V(a.cumulative) >= 0.0 && V(quantity) > 0.0 && V(a.cumulative) + V(quantity) <= Ten(9)
    ensures InRange(Charged(FeeFor(a, quantity)), Money)
  {
    hide *;
    FeeForValue(a, quantity);
    ChargedValue(FeeFor(a, quantity));
    TenGrows(15, 24);
    MoneyIs(Charged(FeeFor(a, quantity)));
  }

  lemma TenGrows(m: nat, n: nat)
    requires m <= n
    ensures Ten(m) <= Ten(n)
  {
    Pow10Grows(m, n);
  }

  lemma MoneyIs(d: Dec)
    ensures InRange(d, Money) <==> -24 <= d.exp <= 24 && 0.0 <= V(d) <= Ten(24)
  {
    hide V, Ten;
  }

  lemma QuantityInRange(a: Dec, q: Dec)
    requires -6 <= a.exp <= 9 && -6 <= q.exp <= 9 && 0.0 <= V(a) && 0.0 < V(q) && V(a) + V(q) <= Ten(9)
    ensures InRange(q, Quantity) && InRange(Add(a, q), Quantity) && V(Add(a, q)) > 0.0
  {
    hide V, Ten, Add;
  }

  lemma BuiltFillInRange(a: Attempt, quantity: Dec)
    requires ValidAttempt(a) && Fitting(a, quantity) && (quantity == a.remaining || quantity.exp == a.policy.lot.exp)
    ensures FillInRange(BuildFill(a, quantity)) && InRange(quantity, Quantity)
  {
    AttemptFacts(a);
    FittingParts(a, quantity);
    LotExp(a.policy);
    FeeInRange(a, quantity);
    assert -6 <= a.cumulative.exp <= 9 && -6 <= a.remaining.exp <= 9;
    QuantityInRange(a.cumulative, quantity);
    assert InRange(a.cumulative, Quantity);
    hide V, InRange, Add, Ten, Price, Charged, FeeFor, ValidAttempt, Fitting;
  }

  lemma LotExp(p: Policy)
    requires ValidPolicy(p)
    ensures -6 <= p.lot.exp <= 9
  {
    hide V, Ten;
  }

  lemma FittingWithin(a: Attempt, quantity: Dec)
    requires Fitting(a, quantity)
    ensures V(quantity) <= V(a.cap)
  {
    hide V;
  }

  /**
    Every fill the model builds passes validation unless it is larger than the policy's share
    cap, which only a larger cap allows.  No other decision is lost to the validation.
   */
  lemma BuiltFillsPass(a: Attempt)
    requires ValidAttempt(a)
    ensures Decide(a).Some?
    ensures Simulate(a) == if Decide(a).value.Filled? && V(Decide(a).value.fill.quantity) > V(a.policy.shareCap) then None else Decide(a)
    ensures V(a.cap) <= V(a.policy.shareCap) ==> Simulate(a) == Decide(a)
    ensures Decide(a).value.Filled? ==> FillInRange(Decide(a).value.fill) && InRange(Decide(a).value.fill.quantity, Quantity)
  {
    assert Decide(a).Some?;
    hide ValidAttempt, Decide, ValidFill, V, FillInRange, InRange, Fitting;
    if Decide(a).value.Filled? {
      FilledFits(a);
      var q := Decide(a).value.fill.quantity;
      FittingWithin(a, q);
      BuiltFillIsValid(a, q);
      BuiltFillInRange(a, q);
    }
  }

  /** The fill model as it runs: the same decision, with the purchase found by the search. */
  method SimulateSession(a: Attempt) returns (r: Option<Decision>)
    ensures r == Simulate(a)
  {
    hide V, ValidFill, AffordsLots, Price, BuildFill, LotsOf, DecideFok, DecideSale, MaxLots, ValidAttempt;
    if !ValidAttempt(a) { return None; }
    AttemptFacts(a);
    var d;
    var maxLots := MaxLots(a);
    if a.outcome.closeAt < a.intent.earliestSubmit {
      d := NoFill(NotYetEligible);
    } else if a.outcome.closeAt > a.intent.expiresAt {
      d := NoFill(Expired);
    } else if maxLots <= 0 {
      d := NoFill(CapacityOrLot);
    } else if a.intent.timeInForce == Fok {
      d := DecideFok(a, maxLots);
    } else if a.intent.side == Buy {
      if !Marketable(a.intent, Price(a)) {
        d := NoFill(LimitNotMarketable);
      } else {
        var best := SearchBuy(a, maxLots);
        d := if best == 0 then NoFill(CashOrLot) else Filled(BuildFill(a, LotsOf(a, best)));
      }
    } else {
      d := DecideSale(a, maxLots);
    }
    if d.Filled? && !ValidFill(d.fill, a.intent, a.outcome, a.policy, a.binding, a.remaining, a.cumulative) { return None; }
    return Some(d);
  }
}
