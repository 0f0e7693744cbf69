/**
  When a run succeeds: if the inputs are valid, every order's sessions are witnessed, every
  attempt has its outcome, and cash and holdings start well within their ranges.
 */
module SimulatorProgress {
  import opened Options
  import opened Decimals
  import opened Contracts
  import opened Accounts
  import opened Ordering
  import opened Fills
  import opened Simulator
  import opened SimulatorProofs
  import opened SimulatorRows
  import opened SimulatorAttempts

  // ----- One fill -----

  lemma NotionalAtMost(q: real, p: real)
    requires 0.0 <= q <= Ten(9) && 0.0 <= p <= 2.0 * Ten(9)
    ensures 0.0 <= Product(q, p) <= 2.0 * Ten(18)
  {
    TenAdd(9, 9);
    hide Ten;
    ProductBound(q, Ten(9), p, 2.0 * Ten(9));
  }

  /** The figures a fill is booked with are all in range. */
  lemma ChargeSucceeds(book: Book, o: Order, f: Fill)
    requires InRange(book.cash, Money) && InRange(o.remaining, Quantity) && InRange(o.cumulative, Quantity) && InRange(o.fee, Money)
    requires InRange(Holds(book.holdings, o.intent.instrument), Holding) && FillInRange(f)
    requires V(f.quantity) <= V(o.remaining) && V(o.cumulative) + V(f.quantity) <= Ten(9) && V(o.fee) + V(f.fee) <= Ten(24)
    requires var notional, held := Product(V(f.quantity), V(f.price)), V(Holds(book.holdings, o.intent.instrument));
      if o.intent.side == Buy then V(book.cash) - notional - V(f.fee) >= 0.0 && held + V(f.quantity) <= Ten(12)
      else V(book.cash) + notional - V(f.fee) >= 0.0 && V(book.cash) + notional <= Ten(24) && held >= V(f.quantity)
    ensures Charge(book, o, f).Some?
  {
    hide V, Ten, Mul, Add, Sub, Holds, Product, Checked, InRange;
    var notional, held := Mul(f.quantity, f.price), Holds(book.holdings, o.intent.instrument);
    ProductOf(f.quantity, f.price);
    RangeIs(book.cash, Money);
    RangeIs(f.quantity, Quantity);
    RangeIs(f.price, Execution);
    RangeIs(f.fee, Money);
    RangeIs(held, Holding);
    RangeIs(o.remaining, Quantity);
    RangeIs(o.cumulative, Quantity);
    RangeIs(o.fee, Money);
    NotionalAtMost(V(f.quantity), V(f.price));
    var cash := Sub(if o.intent.side == Buy then Sub(book.cash, notional) else Add(book.cash, notional), f.fee);
    var shares := if o.intent.side == Buy then Add(held, f.quantity) else Sub(held, f.quantity);
    InMoney(cash);
    RangeIs(shares, Holding);
    RangeIs(Sub(o.remaining, f.quantity), Quantity);
    RangeIs(Add(o.cumulative, f.quantity), Quantity);
    RangeIs(Add(o.fee, f.fee), Money);
    CheckedIs(cash, Money);
    CheckedIs(shares, Holding);
    CheckedIs(Sub(o.remaining, f.quantity), Quantity);
    CheckedIs(Add(o.cumulative, f.quantity), Quantity);
    CheckedIs(Add(o.fee, f.fee), Money);
  }

  lemma InMoney(d: Dec)
    ensures InRange(d, Money) <==> -24 <= d.exp <= 24 && 0.0 <= V(d) <= Ten(24)
  {
    RangeIs(d, Money);
    hide V, Ten;
  }

  // ----- One attempt -----

  /** The row's session is one its order may trade in. */
  predicate MayTry(sim: Simulation, book: Book, row: Row) {
    && RowFits(book, row) && Lookup(sim.calendar.schedule, row.session.date) == Some(row.session)
    && var o := book.orders[row.intentId];
       o.binding.firstSession <= row.session.date && (o.intent.timeInForce != Gtc ==> row.session.date == o.intent.firstSession)
  }

  lemma OutcomeSuits(sim: Simulation, row: Row, i: Intent, b: Binding)
    requires ValidSimulation(sim) && ValidOrder(sim, i, b) && row.instrument == i.instrument && RowSelector(i, row) in sim.outcomes
    requires b.firstSession <= row.session.date && (i.timeInForce != Gtc ==> row.session.date == i.firstSession)
    ensures OutcomeFor(i, sim.outcomes[RowSelector(i, row)], b) && BoundTo(i, b) && ValidIntent(i) && ValidPolicy(sim.policy)
  {
    hide V, ValidPolicy, ValidReference, ValidCalendar, ValidIntent;
    var outcome := sim.outcomes[RowSelector(i, row)];
    assert SelectorOf(outcome) == RowSelector(i, row) && ValidOutcome(outcome, sim.calendar);
  }

  lemma HoldsInRange(book: Book, i: Id)
    requires forall j | j in book.holdings :: InRange(book.holdings[j], Holding)
    ensures InRange(Holds(book.holdings, i), Holding)
  {
    ValueZero();
    hide V, Ten;
  }

  lemma LeftInRange(sim: Simulation, book: Book, key: SlotKey)
    requires SlotHolds(sim, book, key) && ValidPolicy(sim.policy)
    ensures InRange(Left(sim, book, key), Quantity)
  {
    CapInRange(sim.policy);
    hide V, InRange, SlotShares, ValidPolicy;
  }

  lemma {:induction false} SlotSharesNonNegative(fills: seq<Posting>, key: SlotKey)
    requires forall p | p in fills :: V(p.fill.quantity) >= 0.0
    ensures SlotShares(fills, key) >= 0.0
  {
    hide V;
    if fills != [] { SlotSharesNonNegative(fills[..|fills| - 1], key); }
  }

  /** An open order has something left, within its order. */
  lemma OpenOrder(sim: Simulation, book: Book, id: Id)
    requires id in book.orders && OrderHolds(sim, book, id) && book.orders[id].status == OpenAtHorizon
    ensures var o := book.orders[id];
      && InRange(o.remaining, Quantity) && InRange(o.cumulative, Quantity) && V(o.remaining) > 0.0 && ValidOrder(sim, o.intent, o.binding)
      && V(o.remaining) + V(o.cumulative) == V(o.intent.quantity) && Same(o.fee, FeeDue(o.cumulative, sim.policy))
  {
    RangeIs(book.orders[id].remaining, Quantity);
    hide V, InRange, OrderShares, FeeDue, ValidOrder, Ten;
  }

  lemma AttemptIsValid(sim: Simulation, book: Book, row: Row, outcome: Outcome)
    requires ValidPolicy(sim.policy) && RowFits(book, row)
    requires var o, key := book.orders[row.intentId], (row.instrument, row.session.date);
      && ValidIntent(o.intent) && BoundTo(o.intent, o.binding) && OutcomeFor(o.intent, outcome, o.binding)
      && InRange(o.remaining, Quantity) && V(o.remaining) > 0.0 && InRange(o.cumulative, Quantity)
      && InRange(book.cash, Money) && InRange(Holds(book.holdings, row.instrument), Holding) && InRange(Left(sim, book, key), Quantity)
      && V(o.remaining) + V(o.cumulative) == V(o.intent.quantity)
    ensures ValidAttempt(AttemptOf(sim, book, book.orders[row.intentId], outcome, (row.instrument, row.session.date)))
  {
    hide V, InRange, ValidPolicy, ValidIntent, BoundTo, OutcomeFor, Holds, Left;
  }

  // ----- Bounds along a run -----

  ghost function Cumulatives(orders: map<Id, Order>): map<Id, real> { map id | id in orders :: V(orders[id].cumulative) }

  /** All shares filled so far. */
  ghost function FilledShares(orders: map<Id, Order>): real { Sum(Cumulatives(orders)) }

  lemma {:induction false} SumAtMost(m: map<Id, real>, most: real)
    requires most >= 0.0 && forall k | k in m :: 0.0 <= m[k] <= most
    ensures 0.0 <= Sum(m) <= Product(|m| as real, most)
    decreases |m|
  {
    hide Product;
    NoneTimes(most);
    if k :| k in m {
      SumRemove(m, k);
      SumAtMost(m - {k}, most);
      OneFewer(|m - {k}|, |m|, most);
    }
  }

  lemma NoneTimes(x: real)
    ensures Product(0 as real, x) == 0.0
  {
  }

  lemma OneFewer(n: nat, m: nat, x: real)
    requires m == n + 1
    ensures Product(m as real, x) == Product(n as real, x) + x
  {
    Distribute(n as real, 1.0, x);
  }

  lemma OrderSums(orders: map<Id, Order>, was: Order, now: Order, id: Id)
    requires id in orders && orders[id] == was
    ensures FilledShares(orders[id := now]) == FilledShares(orders) - V(was.cumulative) + V(now.cumulative)
  {
    hide V;
    SumUpdate(Cumulatives(orders), id, V(now.cumulative));
    assert Cumulatives(orders[id := now]) == Cumulatives(orders)[id := V(now.cumulative)];
  }

  /** Cash has room for so many more sales, and holdings exceed a bound only by what was filled. */
  ghost predicate Room(book: Book, rows: nat, most: real) {
    && V(book.cash) + rows as real * (2.0 * Ten(18)) <= Ten(24) && 0.0 <= most <= 0.7 * Ten(12) && |book.orders| <= 256
    && (forall i :: V(Holds(book.holdings, i)) <= most + FilledShares(book.orders))
    && forall id | id in book.orders :: InRange(book.orders[id].fee, Money)
  }

  lemma FilledAtMost(sim: Simulation, book: Book)
    requires |book.orders| <= 256 && forall id | id in book.orders :: OrderHolds(sim, book, id)
    ensures 0.0 <= FilledShares(book.orders) <= 0.256 * Ten(12)
  {
    hide OrderHolds, V;
    var m := Cumulatives(book.orders);
    forall id | id in m ensures 0.0 <= m[id] <= Ten(9) { CumulativeAtMost(sim, book, id); }
    SumAtMost(m, Ten(9));
    assert |m| == |book.orders| by { assert m.Keys == book.orders.Keys; }
    ThousandFold();
    hide Ten;
    ScaleOrder(|m| as real, 256.0, Ten(9));
  }

  lemma ThousandFold()
    ensures Ten(12) == 1000.0 * Ten(9)
  {
    TenAdd(3, 9);
    assert Ten(3) == 1000.0 by { assert Pow10(1) == 10 && Pow10(2) == 100 && Pow10(3) == 1000; }
  }

  lemma ScaleOrder(a: real, b: real, x: real)
    requires a <= b && x >= 0.0
    ensures Product(a, x) <= b * x
  {
    NonNegativeProduct(b - a, x);
    Distribute(b - a, a, x);
  }

  lemma CumulativeAtMost(sim: Simulation, book: Book, id: Id)
    requires id in book.orders && OrderHolds(sim, book, id)
    ensures 0.0 <= V(book.orders[id].cumulative) <= Ten(9)
  {
    RangeIs(book.orders[id].cumulative, Quantity);
    hide V, InRange, OrderShares, FeeDue, ValidOrder, Ten;
  }

  /** A fill takes one row's worth of room. */
  lemma RoomAfterFill(book: Book, o: Order, p: Posting, b: Booking, next: Book, rows: nat, most: real)
    requires Room(book, rows + 1, most) && o.intent.intentId in book.orders && book.orders[o.intent.intentId] == o
    requires V(b.cash) <= V(book.cash) + 2.0 * Ten(18) && V(b.shares) <= V(Holds(book.holdings, o.intent.instrument)) + V(p.fill.quantity)
    requires V(b.cumulative) == V(o.cumulative) + V(p.fill.quantity) && V(p.fill.quantity) >= 0.0 && V(b.shares) >= 0.0
    requires next.cash == b.cash && next.holdings == Stored(book.holdings, o.intent.instrument, b.shares)
    requires o.intent.intentId in next.orders && next.orders[o.intent.intentId].cumulative == b.cumulative
    requires next.orders == book.orders[o.intent.intentId := next.orders[o.intent.intentId]]
    requires InRange(next.orders[o.intent.intentId].fee, Money)
    ensures Room(next, rows, most)
  {
    ValueZero();
    hide V, Ten, InRange;
    OrderSums(book.orders, o, next.orders[o.intent.intentId], o.intent.intentId);
    Distribute(rows as real, 1.0, 2.0 * Ten(18));
    assert (rows + 1) as real == rows as real + 1.0;
    forall i ensures V(Holds(next.holdings, i)) <= most + FilledShares(next.orders) {
      assert V(Holds(book.holdings, i)) <= most + FilledShares(book.orders);
    }
    assert |next.orders| == |book.orders| by { assert next.orders.Keys == book.orders.Keys; }
  }

  lemma RoomUnfilled(book: Book, o: Order, rows: nat, most: real)
    requires Room(book, rows + 1, most) && o.intent.intentId in book.orders
    requires o.cumulative == book.orders[o.intent.intentId].cumulative && o.fee == book.orders[o.intent.intentId].fee
    ensures Room(Settled(book, o), rows, most)
  {
    hide V, InRange;
    OrderSums(book.orders, book.orders[o.intent.intentId], o, o.intent.intentId);
    RoomForFewer(book, rows, most);
    hide Ten, Holds;
    assert |book.orders[o.intent.intentId := o]| == |book.orders| by { assert book.orders[o.intent.intentId := o].Keys == book.orders.Keys; }
  }

  lemma RoomForFewer(book: Book, rows: nat, most: real)
    requires Room(book, rows + 1, most)
    ensures Room(book, rows, most)
  {
    hide V, Ten, Holds, InRange;
    Distribute(rows as real, 1.0, 2.0 * Ten(18));
    assert (rows + 1) as real == rows as real + 1.0;
  }

  // ----- Every row succeeds -----

  /** The outcome an attempt needs is there. */
  predicate HasOutcome(sim: Simulation, i: Intent, row: Row) {
    row.session.closeAt >= i.earliestSubmit ==> RowSelector(i, row) in sim.outcomes
  }

  lemma TryRowSucceeds(sim: Simulation, book: Book, row: Row)
    requires RowFits(book, row) && HasOutcome(sim, book.orders[row.intentId].intent, row)
    requires var o, key := book.orders[row.intentId], (row.instrument, row.session.date);
      o.status == OpenAtHorizon && RowSelector(o.intent, row) in sim.outcomes ==>
        && Simulate(AttemptOf(sim, book, o, sim.outcomes[RowSelector(o.intent, row)], key)).Some?
        && var d := Simulate(AttemptOf(sim, book, o, sim.outcomes[RowSelector(o.intent, row)], key)).value;
           d.Filled? ==> Charge(book, o, d.fill).Some?
    ensures TryRow(sim, book, row).Some?
  {
    hide V, Simulate, Charge, AttemptOf, PostBooking, Settled, Unfinished;
  }

  lemma DecisionExists(sim: Simulation, cash: Dec, holdings: map<Id, Dec>, book: Book, row: Row, outcome: Outcome)
    requires ValidSimulation(sim) && Conserves(sim, cash, holdings, book) && MayTry(sim, book, row)
    requires book.orders[row.intentId].status == OpenAtHorizon && Lookup(sim.outcomes, RowSelector(book.orders[row.intentId].intent, row)) == Some(outcome)
    requires forall p | p in book.fills :: V(p.fill.quantity) >= 0.0
    ensures var o, key := book.orders[row.intentId], (row.instrument, row.session.date);
      Simulate(AttemptOf(sim, book, o, outcome, key)).Some?
  {
    hide *;
    MayTryIs(sim, book, row);
    FitsIs(book, row);
    ConservesIs(sim, cash, holdings, book);
    var o, key := book.orders[row.intentId], (row.instrument, row.session.date);
    OpenOrder(sim, book, row.intentId);
    LookupIs(sim.outcomes, RowSelector(o.intent, row), outcome);
    OutcomeSuits(sim, row, o.intent, o.binding);
    HoldsInRange(book, row.instrument);
    LeftInRange(sim, book, key);
    LeftIs(sim, book, key);
    SlotSharesNonNegative(book.fills, key);
    AttemptIsValid(sim, book, row, outcome);
    var a := AttemptOf(sim, book, o, outcome, key);
    AttemptParts(sim, book, o, outcome, key);
    BuiltFillsPass(a);
  }

  lemma MayTryIs(sim: Simulation, book: Book, row: Row)
    requires MayTry(sim, book, row)
    ensures RowFits(book, row) && Lookup(sim.calendar.schedule, row.session.date) == Some(row.session)
    ensures row.intentId in book.orders
    ensures var o := book.orders[row.intentId];
      o.binding.firstSession <= row.session.date && (o.intent.timeInForce != Gtc ==> row.session.date == o.intent.firstSession)
  {
  }

  lemma RoomIs(book: Book, rows: nat, most: real, i: Id)
    requires Room(book, rows + 1, most)
    ensures forall id | id in book.orders :: InRange(book.orders[id].fee, Money)
    ensures V(book.cash) + 2.0 * Ten(18) <= Ten(24) && V(Holds(book.holdings, i)) <= 0.7 * Ten(12) + FilledShares(book.orders) && |book.orders| <= 256
  {
    hide V, Holds, FilledShares, InRange;
    NonNegativeProduct(rows as real, 2.0 * Ten(18));
    Distribute(rows as real, 1.0, 2.0 * Ten(18));
    assert (rows + 1) as real == rows as real + 1.0;
  }

  lemma NineTwelve()
    ensures Ten(9) <= 0.001 * Ten(12)
  {
    ThousandFold();
    hide Ten;
  }

  /** A decided fill is booked. */
  lemma FillIsBooked(sim: Simulation, cash: Dec, holdings: map<Id, Dec>, book: Book, row: Row, outcome: Outcome, f: Fill, rows: nat, most: real)
    requires ValidSimulation(sim) && Conserves(sim, cash, holdings, book) && RowFits(book, row) && Room(book, rows + 1, most)
    requires book.orders[row.intentId].status == OpenAtHorizon
    requires var o, key := book.orders[row.intentId], (row.instrument, row.session.date); Simulate(AttemptOf(sim, book, o, outcome, key)) == Some(Filled(f))
    ensures Charge(book, book.orders[row.intentId], f).Some? && V(f.quantity) >= 0.0
    ensures Product(V(f.quantity), V(f.price)) <= 2.0 * Ten(18) && V(f.fee) >= 0.0 && Product(V(f.quantity), V(f.price)) >= 0.0
  {
    hide *;
    FitsIs(book, row);
    ConservesIs(sim, cash, holdings, book);
    var o, key := book.orders[row.intentId], (row.instrument, row.session.date);
    OpenOrder(sim, book, row.intentId);
    HoldsInRange(book, row.instrument);
    RoomIs(book, rows, most, row.instrument);
    FilledAtMost(sim, book);
    NineTwelve();
    var a := AttemptOf(sim, book, o, outcome, key);
    AttemptParts(sim, book, o, outcome, key);
    DecidedFill(a, f);
    FittingParts(a, f.quantity);
    FillFacts(a, f);
    SimulatedIs(a, Filled(f));
    FilledFits(a);
    FilledPays(a);
    CashAfterValue(a, f.quantity);
    BuiltIs(a, f.quantity);
    AttemptFacts(a);
    FeeForValue(a, f.quantity);
    FillRanges(f);
    NotionalAtMost(V(f.quantity), V(f.price));
    OwedInRange(sim, o, f);
    ChargeSucceeds(book, o, f);
  }

  lemma FillRanges(f: Fill)
    requires FillInRange(f)
    ensures 0.0 < V(f.quantity) <= Ten(9) && 0.0 < V(f.price) <= 2.0 * Ten(9) && 0.0 <= V(f.fee)
  {
    RangeIs(f.quantity, Quantity);
    RangeIs(f.price, Execution);
    RangeIs(f.fee, Money);
    hide V, Ten, InRange;
  }

  /** The fee owed so far and the next one are in range: together they are the fee due. */
  lemma OwedInRange(sim: Simulation, o: Order, f: Fill)
    requires ValidPolicy(sim.policy) && Same(o.fee, FeeDue(o.cumulative, sim.policy)) && 0.0 <= V(o.cumulative) <= Ten(9)
    requires 0.0 <= V(f.after) <= Ten(9) && V(f.fee) == V(FeeDue(f.after, sim.policy)) - V(FeeDue(o.cumulative, sim.policy))
    ensures V(o.fee) + V(f.fee) <= Ten(24)
  {
    SameIs(o.fee, FeeDue(o.cumulative, sim.policy));
    FeeBounded(f.after, sim.policy);
    TenGrows(15, 24);
    hide V, Ten, FeeDue, ValidPolicy;
  }

  lemma BookedRoom(sim: Simulation, book: Book, row: Row, outcome: Outcome, f: Fill, b: Booking, rows: nat, most: real)
    requires Room(book, rows + 1, most) && RowFits(book, row) && book.orders[row.intentId].intent.intentId == row.intentId
    requires Charge(book, book.orders[row.intentId], f) == Some(b) && V(f.quantity) >= 0.0 && V(f.fee) >= 0.0
    requires 0.0 <= Product(V(f.quantity), V(f.price)) <= 2.0 * Ten(18)
    ensures Room(PostBooking(sim, book, book.orders[row.intentId], outcome, (row.instrument, row.session.date), f, b), rows, most)
  {
    hide *;
    FitsIs(book, row);
    var o, key := book.orders[row.intentId], (row.instrument, row.session.date);
    var next := PostBooking(sim, book, o, outcome, key, f, b);
    ChargeValues(book, o, f);
    RangeIs(b.shares, Holding);
    RangeIs(b.fee, Money);
    PostedParts(sim, book, o, outcome, key, f, b);
    PostedOrder(sim, book, o, outcome, key, f, b);
    PostingIs(o.intent, f, o.binding, outcome, sim.policy);
    RoomAfterFill(book, o, Posting(o.intent, f, o.binding, outcome, sim.policy), b, next, rows, most);
  }

  lemma PostingIs(i: Intent, f: Fill, b: Binding, outcome: Outcome, policy: Policy)
    ensures Posting(i, f, b, outcome, policy).fill == f
  {
  }

  lemma PostedOrder(sim: Simulation, book: Book, o: Order, outcome: Outcome, key: SlotKey, f: Fill, b: Booking)
    requires o.intent.intentId in book.orders && book.orders[o.intent.intentId] == o
    ensures var next := PostBooking(sim, book, o, outcome, key, f, b);
      && o.intent.intentId in next.orders && next.orders[o.intent.intentId].cumulative == b.cumulative && next.orders[o.intent.intentId].fee == b.fee
      && next.orders == book.orders[o.intent.intentId := next.orders[o.intent.intentId]]
  {
    hide V, Left, Stored, Sub;
  }

  /** A row with its outcome succeeds and takes at most its share of the room. */
  lemma RowSucceeds(sim: Simulation, cash: Dec, holdings: map<Id, Dec>, book: Book, row: Row, rows: nat, most: real) returns (next: Book)
    requires ValidSimulation(sim) && Conserves(sim, cash, holdings, book) && MayTry(sim, book, row) && Room(book, rows + 1, most)
    requires HasOutcome(sim, book.orders[row.intentId].intent, row) && forall p | p in book.fills :: V(p.fill.quantity) >= 0.0
    ensures TryRow(sim, book, row) == Some(next) && Room(next, rows, most) && forall p | p in next.fills :: V(p.fill.quantity) >= 0.0
  {
    hide *;
    MayTryIs(sim, book, row);
    FitsIs(book, row);
    ConservesIs(sim, cash, holdings, book);
    PassedIs(sim, book, row);
    var o, key := book.orders[row.intentId], (row.instrument, row.session.date);
    var selector := RowSelector(o.intent, row);
    HasOutcomeIs(sim, o.intent, row);
    if o.status == OpenAtHorizon && selector in sim.outcomes {
      var outcome := sim.outcomes[selector];
      LookupIs(sim.outcomes, selector, outcome);
      DecisionExists(sim, cash, holdings, book, row, outcome);
      var d := Simulate(AttemptOf(sim, book, o, outcome, key)).value;
      if d.Filled? { FillIsBooked(sim, cash, holdings, book, row, outcome, d.fill, rows, most); }
    }
    TryRowSucceeds(sim, book, row);
    next := TryRow(sim, book, row).value;
    RowCases(sim, book, row, next);
    if o.status != OpenAtHorizon || row.intentId in book.settled {
      RoomForFewer(book, rows, most);
    } else if row.session.closeAt < o.intent.earliestSubmit {
      var ended := if o.intent.timeInForce == Gtc then o.(explanation := Because(NotYetEligible))
                   else o.(status := Lapsed, explanation := Because(NotYetEligible));
      RoomUnfilled(book, ended, rows, most);
      SettledFills(book, ended);
    } else {
      var outcome := sim.outcomes[selector];
      match Simulate(AttemptOf(sim, book, o, outcome, key)).value
      case NoFill(reason) =>
        EndsUnfilled(o, Because(reason));
        RoomUnfilled(book, Unfinished(o, Because(reason)), rows, most);
        SettledFills(book, Unfinished(o, Because(reason)));
      case Filled(f) =>
        var b := Charge(book, o, f).value;
        BookedRoom(sim, book, row, outcome, f, b, rows, most);
        PostedParts(sim, book, o, outcome, key, f, b);
        PostingIs(o.intent, f, o.binding, outcome, sim.policy);
    }
  }

  lemma HasOutcomeIs(sim: Simulation, i: Intent, row: Row)
    requires HasOutcome(sim, i, row)
    ensures row.session.closeAt >= i.earliestSubmit ==> RowSelector(i, row) in sim.outcomes
  {
  }

  lemma StillMayTry(sim: Simulation, book: Book, row: Row, next: Book)
    requires MayTry(sim, book, row) && SameIntents(book, next) && HasOutcome(sim, book.orders[row.intentId].intent, row)
    ensures MayTry(sim, next, row) && HasOutcome(sim, next.orders[row.intentId].intent, row)
  {
    hide HasOutcome;
  }

  lemma {:induction false} RowsSucceed(sim: Simulation, cash: Dec, holdings: map<Id, Dec>, book: Book, rows: seq<Row>, most: real)
    requires ValidSimulation(sim) && Conserves(sim, cash, holdings, book) && Room(book, |rows|, most)
    requires forall row | row in rows :: row.intentId in book.orders && MayTry(sim, book, row) && HasOutcome(sim, book.orders[row.intentId].intent, row)
    requires forall p | p in book.fills :: V(p.fill.quantity) >= 0.0
    ensures TryRows(sim, book, rows).Some?
    decreases |rows|
  {
    hide ValidSimulation, Conserves, TryRow, Room, HasOutcome, MayTry, V;
    if rows != [] {
      assert rows[0] in rows;
      var next := RowSucceeds(sim, cash, holdings, book, rows[0], |rows| - 1, most);
      MayTryIs(sim, book, rows[0]);
      RowConserves(sim, cash, holdings, book, rows[0], next);
      forall row | row in rows[1..] ensures MayTry(sim, next, row) && row.intentId in next.orders && HasOutcome(sim, next.orders[row.intentId].intent, row) {
        MayTryIs(sim, book, row);
        StillMayTry(sim, book, row, next);
        MayTryIs(sim, next, row);
      }
      RowsSucceed(sim, cash, holdings, next, rows[1..], most);
    }
  }

  // ----- Whole runs -----

  lemma SessionsAtMost(sim: Simulation, o: Order)
    requires AttemptSessions(sim, o).Some?
    ensures |AttemptSessions(sim, o).value| <= 256
  {
    hide V, SessionsAfter;
  }

  lemma {:induction false} RowsAtMost(sim: Simulation, orders: map<Id, Order>, ids: seq<Id>)
    requires (forall i | i in ids :: i in orders) && AllRows(sim, orders, ids).Some?
    ensures |AllRows(sim, orders, ids).value| <= 256 * |ids|
  {
    if ids != [] {
      hide AttemptSessions;
      SessionsAtMost(sim, orders[ids[0]]);
      RowsAtMost(sim, orders, ids[1..]);
    }
  }

  lemma {:induction false} DistinctAtMost(ids: seq<Id>, s: set<Id>)
    requires (forall i | i in ids :: i in s) && forall i, j | 0 <= i < j < |ids| :: ids[i] < ids[j]
    ensures |ids| <= |s|
  {
    if ids != [] {
      var n := |ids| - 1;
      assert ids[n] in s;
      forall i | i in ids[..n] ensures i in s - {ids[n]} {}
      DistinctAtMost(ids[..n], s - {ids[n]});
    }
  }

  lemma ScheduleSucceeds(sim: Simulation, orders: map<Id, Order>)
    requires ValidCalendar(sim.calendar) && |orders| <= 256 && forall i | i in orders :: exists ss :: Attempts(sim, orders[i], ss)
    ensures Schedule(sim, orders).Some?
  {
    hide AllRows, Attempts, ValidCalendar, SortBy, RowBefore;
    var ids := Ordered(orders.Keys);
    AllRowsWitnessed(sim, orders, ids);
    RowsAtMost(sim, orders, ids);
    DistinctAtMost(ids, orders.Keys);
    assert |orders.Keys| == |orders|;
  }

  lemma IsRowMayTry(sim: Simulation, book: Book, row: Row)
    requires ValidCalendar(sim.calendar) && IsRow(sim, book.orders, row)
    requires book.orders[row.intentId].binding.firstSession == book.orders[row.intentId].intent.firstSession
    ensures MayTry(sim, book, row)
  {
    hide V, Stops;
    var o := book.orders[row.intentId];
    var ss :| Attempts(sim, o, ss) && row.session in ss;
    if o.intent.timeInForce == Gtc { StretchAdvances(sim.calendar, ss, sim.horizon, o.intent.expiresAt, row.session); }
    hide Stretch, ValidCalendar;
  }

  lemma BoundFirst(sim: Simulation, i: Intent, b: Binding)
    requires ValidOrder(sim, i, b)
    ensures b.firstSession == i.firstSession
  {
    hide V;
  }

  lemma StartRoom(orders: seq<(Intent, Binding)>, cash: Dec, holdings: map<Id, Dec>, rows: nat)
    requires DistinctOrders(orders) && |orders| <= 256 && rows <= 65536
    requires V(cash) <= 0.8 * Ten(24) && forall i | i in holdings :: V(holdings[i]) <= 0.7 * Ten(12)
    ensures Room(Start(orders, cash, holdings), rows, 0.7 * Ten(12))
  {
    ValueZero();
    FreshSize(orders);
    var book := Start(orders, cash, holdings);
    hide V, Fresh;
    forall id | id in book.orders ensures book.orders[id].fee == ZERO && book.orders[id].cumulative == ZERO { FreshOrders(orders, id); }
    ZeroMoney();
    NothingFilled(Cumulatives(book.orders));
    EnoughCash(rows);
    hide Ten, InRange;
  }

  lemma ZeroMoney()
    ensures InRange(ZERO, Money) && Ten(12) >= 0.0
  {
    ValueZero();
    hide V;
  }

  lemma {:induction false} NothingFilled(m: map<Id, real>)
    requires forall k | k in m :: m[k] == 0.0
    ensures Sum(m) == 0.0
    decreases |m|
  {
    if k :| k in m {
      SumRemove(m, k);
      NothingFilled(m - {k});
    }
  }

  lemma EnoughCash(rows: nat)
    requires rows <= 65536
    ensures 0.8 * Ten(24) + rows as real * (2.0 * Ten(18)) <= Ten(24)
  {
    MillionFold();
    hide Ten;
    ScaleOrder(rows as real, 65536.0, 2.0 * Ten(18));
  }

  lemma MillionFold()
    ensures Ten(24) == 1000000.0 * Ten(18)
  {
    TenAdd(6, 18);
    assert Ten(6) == 1000000.0 by { assert Pow10(1) == 10 && Pow10(2) == 100 && Pow10(3) == 1000 && Pow10(4) == 10000 && Pow10(5) == 100000; }
  }

  /**
    A run succeeds if its inputs are valid, every session an order attempts is witnessed, every
    attempt that is not too early has its outcome, and cash and holdings start below 0.8 and 0.7
    of their ranges: no attempt is rejected and no figure leaves its range.
   */
  lemma RunSucceeds(sim: Simulation, orders: seq<(Intent, Binding)>, cash: Dec, holdings: map<Id, Dec>)
    requires ValidSimulation(sim) && |orders| <= 256 && DistinctOrders(orders) && forall p | p in orders :: ValidOrder(sim, p.0, p.1)
    requires InRange(cash, Money) && ValidHoldings(holdings)
    requires V(cash) <= 0.8 * Ten(24) && forall i | i in holdings :: V(holdings[i]) <= 0.7 * Ten(12)
    requires forall id | id in Fresh(orders) :: exists ss :: Attempts(sim, Fresh(orders)[id], ss)
    requires forall row | IsRow(sim, Fresh(orders), row) :: HasOutcome(sim, Fresh(orders)[row.intentId].intent, row)
    ensures Run(sim, orders, cash, holdings).Some?
  {
    hide V, ValidSimulation, ValidOrder, InRange, TryRows, Schedule, Fresh, Conserves, IsRow, HasOutcome, MayTry, Room, Attempts, ValidCalendar, Expiry, Ten;
    var book := Start(orders, cash, holdings);
    CalendarOf(sim);
    FreshSize(orders);
    ScheduleSucceeds(sim, book.orders);
    var rows := Schedule(sim, book.orders).value;
    ScheduleIs(sim, book.orders, rows);
    StartConserves(sim, orders, cash, holdings);
    StartRoom(orders, cash, holdings, |rows|);
    forall row | row in rows ensures row.intentId in book.orders && MayTry(sim, book, row) && HasOutcome(sim, book.orders[row.intentId].intent, row) {
      RowNamesOrder(sim, book.orders, row);
      FreshOrders(orders, row.intentId);
      var o := book.orders[row.intentId];
      BoundFirst(sim, o.intent, o.binding);
      IsRowMayTry(sim, book, row);
    }
    RowsSucceed(sim, cash, holdings, book, rows, 0.7 * Ten(12));
  }
}
