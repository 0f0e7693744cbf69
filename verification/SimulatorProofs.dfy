/**
  Conservation in the simulator: cash, holdings, orders and caps account for every fill of a
  run, and no figure ever leaves its range.
 */
module SimulatorProofs {
  import opened Options
  import opened Decimals
  import opened Contracts
  import opened Accounts
  import opened Ordering
  import opened Fills
  import opened Simulator

  // ----- Sums over the fills -----

  /** What a fill takes out of cash. */
  function Outlay(p: Posting): real {
    var notional := Product(V(p.fill.quantity), V(p.fill.price));
    (if p.intent.side == Buy then notional else -notional) + V(p.fill.fee)
  }

  function Spent(fills: seq<Posting>): real {
    if fills == [] then 0.0 else Spent(fills[..|fills| - 1]) + Outlay(fills[|fills| - 1])
  }

  function Moved(p: Posting, instrument: Id): real {
    if p.intent.instrument != instrument then 0.0
    else if p.intent.side == Buy then V(p.fill.quantity) else -V(p.fill.quantity)
  }

  function Acquired(fills: seq<Posting>, instrument: Id): real {
    if fills == [] then 0.0 else Acquired(fills[..|fills| - 1], instrument) + Moved(fills[|fills| - 1], instrument)
  }

  function ForOrder(p: Posting, id: Id): real { if p.intent.intentId == id then V(p.fill.quantity) else 0.0 }

  function OrderShares(fills: seq<Posting>, id: Id): real {
    if fills == [] then 0.0 else OrderShares(fills[..|fills| - 1], id) + ForOrder(fills[|fills| - 1], id)
  }

  function SlotOf(p: Posting): SlotKey { (p.intent.instrument, p.outcome.session) }

  function InSlot(p: Posting, key: SlotKey): real { if SlotOf(p) == key then V(p.fill.quantity) else 0.0 }

  function SlotShares(fills: seq<Posting>, key: SlotKey): real {
    if fills == [] then 0.0 else SlotShares(fills[..|fills| - 1], key) + InSlot(fills[|fills| - 1], key)
  }

  lemma SumsExtend(fills: seq<Posting>, p: Posting)
    ensures Spent(fills + [p]) == Spent(fills) + Outlay(p)
    ensures forall i :: Acquired(fills + [p], i) == Acquired(fills, i) + Moved(p, i)
    ensures forall id :: OrderShares(fills + [p], id) == OrderShares(fills, id) + ForOrder(p, id)
    ensures forall key :: SlotShares(fills + [p], key) == SlotShares(fills, key) + InSlot(p, key)
  {
    hide Outlay, Moved, ForOrder, InSlot;
    assert (fills + [p])[..|fills|] == fills;
  }

  // ----- The invariant -----

  /** One order's figures: what is left and what was filled make up the order; all-or-nothing orders are all or nothing. */
  predicate OrderHolds(sim: Simulation, book: Book, id: Id)
    requires id in book.orders
  {
    var o := book.orders[id];
    && o.intent.intentId == id && ValidOrder(sim, o.intent, o.binding)
    && InRange(o.remaining, Quantity) && InRange(o.cumulative, Quantity) && V(o.remaining) + V(o.cumulative) == V(o.intent.quantity)
    && V(o.cumulative) == OrderShares(book.fills, id) && Same(o.fee, FeeDue(o.cumulative, sim.policy))
    && (o.status == Done <==> V(o.remaining) == 0.0)
    && (o.intent.timeInForce == Fok ==> V(o.cumulative) == 0.0 || V(o.remaining) == 0.0)
    && (o.status == OpenAtHorizon && V(o.cumulative) > 0.0 ==> o.intent.timeInForce == Gtc)
    && (o.status != OpenAtHorizon <==> id in book.settled)
  }

  predicate SlotHolds(sim: Simulation, book: Book, key: SlotKey) {
    && (key in book.caps ==> InRange(book.caps[key], Quantity) && V(book.caps[key]) + SlotShares(book.fills, key) == V(sim.policy.shareCap))
    && (key !in book.caps ==> SlotShares(book.fills, key) == 0.0)
  }

  ghost predicate Conserves(sim: Simulation, cash: Dec, holdings: map<Id, Dec>, book: Book) {
    && InRange(book.cash, Money) && V(book.cash) == V(cash) - Spent(book.fills)
    && (forall i | i in book.holdings :: InRange(book.holdings[i], Holding))
    && (forall i :: V(Holds(book.holdings, i)) == V(Holds(holdings, i)) + Acquired(book.fills, i))
    && (forall id | id in book.orders :: OrderHolds(sim, book, id))
    && (forall key :: SlotHolds(sim, book, key))
  }

  // ----- The start -----

  lemma {:induction false} FreshOrders(orders: seq<(Intent, Binding)>, id: Id)
    requires id in Fresh(orders)
    ensures exists p :: p in orders && p.0.intentId == id
                        && Fresh(orders)[id] == Order(p.0, p.1, p.0.quantity, ZERO, ZERO, OpenAtHorizon, Nothing)
  {
    var n := |orders| - 1;
    assert orders[n] in orders;
    if orders[n].0.intentId != id {
      FreshOrders(orders[..n], id);
      assert forall p | p in orders[..n] :: p in orders;
    }
  }

  lemma {:induction false} FreshSize(orders: seq<(Intent, Binding)>)
    ensures |Fresh(orders)| <= |orders|
  {
    if orders != [] { FreshSize(orders[..|orders| - 1]); }
  }

  lemma StartConserves(sim: Simulation, orders: seq<(Intent, Binding)>, cash: Dec, holdings: map<Id, Dec>)
    requires DistinctOrders(orders) && InRange(cash, Money) && ValidHoldings(holdings) && forall p | p in orders :: ValidOrder(sim, p.0, p.1)
    ensures Conserves(sim, cash, holdings, Start(orders, cash, holdings))
  {
    ValueZero();
    var book := Start(orders, cash, holdings);
    ZeroFee(sim.policy);
    hide V, ValidSimulation, FeeDue, Fresh, BoundTo;
    forall id | id in book.orders ensures OrderHolds(sim, book, id) {
      FreshOrders(orders, id);
      ZeroInRange();
    }
    hide ValidOrder, InRange;
  }

  lemma ZeroInRange()
    ensures InRange(ZERO, Quantity)
  {
    ValueZero();
    hide V;
  }

  lemma ZeroFee(policy: Policy)
    ensures Same(ZERO, FeeDue(ZERO, policy))
  {
    ValueZero();
    SignOfValue(Dec(0, -2));
    hide V, Owed, RoundCents;
  }

  // ----- One attempt -----

  /** What is known of a fill the model decided on. */
  lemma DecidedFill(a: Attempt, f: Fill)
    requires Simulate(a) == Some(Filled(f))
    ensures ValidAttempt(a) && f == BuildFill(a, f.quantity) && Fitting(a, f.quantity)
    ensures a.intent.timeInForce == Fok ==> f.quantity == a.remaining
    ensures ValidFill(f, a.intent, a.outcome, a.policy, a.binding, a.remaining, a.cumulative) && FillInRange(f)
  {
    assert Decide(a) == Some(Filled(f));
    FilledFits(a);
    BuiltFillInRange(a, f.quantity);
    hide Decide, Simulate, ValidFill, FillInRange, BuildFill, Fitting, V;
    assert ValidAttempt(a) by { DecidedIsValid(a); }
  }

  /** The figures after a fill, in values. */
  lemma ChargeValues(book: Book, o: Order, f: Fill)
    requires Charge(book, o, f).Some?
    ensures var b, held := Charge(book, o, f).value, V(Holds(book.holdings, o.intent.instrument));
      && InRange(b.cash, Money) && InRange(b.shares, Holding) && InRange(b.remaining, Quantity) && InRange(b.cumulative, Quantity)
      && InRange(b.fee, Money)
      && V(b.cash) == V(book.cash)
           + (if o.intent.side == Buy then -Product(V(f.quantity), V(f.price)) else Product(V(f.quantity), V(f.price))) - V(f.fee)
      && V(b.shares) == held + (if o.intent.side == Buy then V(f.quantity) else -V(f.quantity))
      && V(b.remaining) == V(o.remaining) - V(f.quantity) && V(b.cumulative) == V(o.cumulative) + V(f.quantity)
      && V(b.fee) == V(o.fee) + V(f.fee)
  {
    ProductOf(f.quantity, f.price);
    hide V, Mul, Add, Sub, Checked, InRange, Holds, Product;
  }

  lemma FeeAdds(sim: Simulation, o: Order, f: Fill, fee: Dec, cumulative: Dec)
    requires ValidPolicy(sim.policy) && V(o.cumulative) >= 0.0 && V(f.quantity) > 0.0
    requires Same(o.fee, FeeDue(o.cumulative, sim.policy))
    requires V(f.fee) == V(FeeDue(f.after, sim.policy)) - V(FeeDue(f.before, sim.policy))
    requires V(f.after) == V(o.cumulative) + V(f.quantity) && f.before == o.cumulative
    requires V(fee) == V(o.fee) + V(f.fee) && V(cumulative) == V(o.cumulative) + V(f.quantity)
    ensures Same(fee, FeeDue(cumulative, sim.policy))
  {
    hide V, FeeDue, ValidPolicy;
    FeeDueMonotone(f.after, cumulative, sim.policy);
    FeeDueMonotone(cumulative, f.after, sim.policy);
  }

  /** Only the order's own record and the set of settled orders differ. */
  lemma UnfilledConserves(sim: Simulation, cash: Dec, holdings: map<Id, Dec>, book: Book, o: Order)
    requires Conserves(sim, cash, holdings, book) && o.intent.intentId in book.orders
    requires var was := book.orders[o.intent.intentId];
      && was.status == OpenAtHorizon && o == was.(status := o.status, explanation := o.explanation) && o.status != Done
      && (o.status == OpenAtHorizon && V(o.cumulative) > 0.0 ==> o.intent.timeInForce == Gtc)
    ensures Conserves(sim, cash, holdings, Settled(book, o))
  {
    hide V, ValidOrder, InRange, FeeDue, OrderShares, SlotShares, Spent, Acquired, Holds;
    var next := Settled(book, o);
    forall id | id in next.orders ensures OrderHolds(sim, next, id) { assert OrderHolds(sim, book, id); }
    forall key ensures SlotHolds(sim, next, key) { assert SlotHolds(sim, book, key); }
    hide OrderHolds, SlotHolds;
  }

  lemma CapKept(sim: Simulation, book: Book, key: SlotKey, q: Dec)
    requires ValidPolicy(sim.policy) && SlotHolds(sim, book, key) && InRange(q, Quantity) && V(q) <= V(Left(sim, book, key))
    ensures InRange(Sub(Left(sim, book, key), q), Quantity)
    ensures V(Left(sim, book, key)) + SlotShares(book.fills, key) == V(sim.policy.shareCap)
    ensures SlotShares(book.fills, key) >= 0.0 ==> V(Left(sim, book, key)) <= V(sim.policy.shareCap)
  {
    hide V, SlotShares, ValidPolicy, InRange, Sub, Ten;
    CapInRange(sim.policy);
    QuantityIs(q);
    QuantityIs(Left(sim, book, key));
    QuantityIs(Sub(Left(sim, book, key), q));
  }

  lemma CapInRange(p: Policy)
    requires ValidPolicy(p)
    ensures InRange(p.shareCap, Quantity)
  {
    hide V, Ten;
  }

  lemma QuantityIs(d: Dec)
    ensures InRange(d, Quantity) <==> -6 <= d.exp <= 9 && 0.0 <= V(d) <= Ten(9)
  {
    hide V, Ten;
  }

  lemma FilledConserves(sim: Simulation, cash: Dec, holdings: map<Id, Dec>, book: Book, id: Id, outcome: Outcome, f: Fill)
    requires ValidPolicy(sim.policy) && Conserves(sim, cash, holdings, book) && id in book.orders && book.orders[id].status == OpenAtHorizon
    requires var o := book.orders[id];
      var key := (o.intent.instrument, outcome.session);
      Simulate(AttemptOf(sim, book, o, outcome, key)) == Some(Filled(f)) && Charge(book, o, f).Some?
    ensures var o := book.orders[id];
      Conserves(sim, cash, holdings, PostBooking(sim, book, o, outcome, (o.intent.instrument, outcome.session), f, Charge(book, o, f).value))
  {
    hide *;
    var o := book.orders[id];
    var key := (o.intent.instrument, outcome.session);
    var a := AttemptOf(sim, book, o, outcome, key);
    var b := Charge(book, o, f).value;
    var p := Posting(o.intent, f, o.binding, outcome, sim.policy);
    var next := PostBooking(sim, book, o, outcome, key, f, b);
    ConservesIs(sim, cash, holdings, book);
    OrderParts(sim, book, id);
    AttemptParts(sim, book, o, outcome, key);
    DecidedFill(a, f);
    FittingParts(a, f.quantity);
    FillFacts(a, f);
    ChargeValues(book, o, f);
    PostedParts(sim, book, o, outcome, key, f, b);
    SlotIs(p);
    SumsExtend(book.fills, p);
    FeeAdds(sim, o, f, b.fee, b.cumulative);
    CapKept(sim, book, key, f.quantity);
    BookedOrder(sim, book, o, p, b, next);
    BookedSlots(sim, book, p, next);
    BookedHoldings(book, holdings, p, b.shares, next);
    BookedOthers(sim, book, p, next);
    BookedCash(book, cash, p, b.cash, next);
    ConservesIs(sim, cash, holdings, next);
  }

  lemma OrderParts(sim: Simulation, book: Book, id: Id)
    requires id in book.orders && OrderHolds(sim, book, id)
    ensures var o := book.orders[id];
      && o.intent.intentId == id && V(o.cumulative) >= 0.0 && Same(o.fee, FeeDue(o.cumulative, sim.policy))
      && (o.status == OpenAtHorizon && V(o.cumulative) > 0.0 ==> o.intent.timeInForce == Gtc)
  {
    hide V, ValidOrder, InRange, FeeDue, OrderShares;
    RangeIs(book.orders[id].cumulative, Quantity);
  }

  lemma AttemptParts(sim: Simulation, book: Book, o: Order, outcome: Outcome, key: SlotKey)
    ensures var a := AttemptOf(sim, book, o, outcome, key);
      && a.intent == o.intent && a.outcome == outcome && a.policy == sim.policy && a.binding == o.binding
      && a.remaining == o.remaining && a.cumulative == o.cumulative && a.cash == book.cash
      && a.shares == Holds(book.holdings, key.0) && a.cap == Left(sim, book, key)
  {
    hide Holds, Left;
  }

  lemma PostedParts(sim: Simulation, book: Book, o: Order, outcome: Outcome, key: SlotKey, f: Fill, b: Booking)
    requires o.intent.intentId in book.orders && book.orders[o.intent.intentId] == o && key.0 == o.intent.instrument
    ensures var next, p := PostBooking(sim, book, o, outcome, key, f, b), Posting(o.intent, f, o.binding, outcome, sim.policy);
      && next.cash == b.cash && next.holdings == Stored(book.holdings, o.intent.instrument, b.shares)
      && next.caps == book.caps[key := Sub(Left(sim, book, key), f.quantity)] && next.fills == book.fills + [p]
      && next.orders.Keys == book.orders.Keys
      && forall id | id in book.orders && id != o.intent.intentId ::
           next.orders[id] == book.orders[id] && (id in next.settled <==> id in book.settled)
  {
    hide V, Left, Stored, Sub;
  }

  lemma SlotIs(p: Posting)
    ensures SlotOf(p) == (p.intent.instrument, p.outcome.session)
  {
  }

  lemma FillFacts(a: Attempt, f: Fill)
    requires f == BuildFill(a, f.quantity) && FillInRange(f)
    requires ValidFill(f, a.intent, a.outcome, a.policy, a.binding, a.remaining, a.cumulative)
    ensures f.before == a.cumulative && V(f.after) == V(a.cumulative) + V(f.quantity) && InRange(f.quantity, Quantity)
    ensures V(f.fee) == V(FeeDue(f.after, a.policy)) - V(FeeDue(f.before, a.policy))
    ensures V(f.quantity) > 0.0 && V(f.quantity) <= V(a.remaining)
  {
    hide V, FeeDue, InRange, AdversePrice, FloorLots, LotQuantity, FeeFor, Charged, Price, BoundTo, OutcomeFor;
  }

  lemma ConservesIs(sim: Simulation, cash: Dec, holdings: map<Id, Dec>, book: Book)
    ensures Conserves(sim, cash, holdings, book) <==>
      && InRange(book.cash, Money) && V(book.cash) == V(cash) - Spent(book.fills)
      && (forall i | i in book.holdings :: InRange(book.holdings[i], Holding))
      && (forall i :: V(Holds(book.holdings, i)) == V(Holds(holdings, i)) + Acquired(book.fills, i))
      && (forall id | id in book.orders :: OrderHolds(sim, book, id)) && forall key :: SlotHolds(sim, book, key)
  {
    hide V, InRange, Spent, Acquired, Holds, OrderHolds, SlotHolds;
  }

  lemma BookedOrder(sim: Simulation, book: Book, o: Order, p: Posting, b: Booking, next: Book)
    requires o.intent.intentId in book.orders && book.orders[o.intent.intentId] == o && o.status == OpenAtHorizon
    requires OrderHolds(sim, book, o.intent.intentId)
    requires p.intent == o.intent && next == PostBooking(sim, book, o, p.outcome, SlotOf(p), p.fill, b)
    requires next.fills == book.fills + [p]
    requires InRange(b.remaining, Quantity) && InRange(b.cumulative, Quantity)
    requires V(b.remaining) == V(o.remaining) - V(p.fill.quantity) && V(b.cumulative) == V(o.cumulative) + V(p.fill.quantity)
    requires Same(b.fee, FeeDue(b.cumulative, sim.policy)) && (o.intent.timeInForce == Fok ==> p.fill.quantity == o.remaining)
    requires OrderShares(next.fills, o.intent.intentId) == OrderShares(book.fills, o.intent.intentId) + ForOrder(p, o.intent.intentId)
    ensures OrderHolds(sim, next, o.intent.intentId)
  {
    hide V, ValidOrder, InRange, FeeDue, OrderShares, Left, Stored, Sub;
  }

  lemma BookedOthers(sim: Simulation, book: Book, p: Posting, next: Book)
    requires forall id | id in book.orders :: OrderHolds(sim, book, id)
    requires next.orders.Keys == book.orders.Keys && next.fills == book.fills + [p]
    requires forall id | id in book.orders && id != p.intent.intentId ::
      next.orders[id] == book.orders[id] && (id in next.settled <==> id in book.settled)
    requires forall id :: OrderShares(next.fills, id) == OrderShares(book.fills, id) + ForOrder(p, id)
    ensures forall id | id in next.orders && id != p.intent.intentId :: OrderHolds(sim, next, id)
  {
    hide V, ValidOrder, InRange, FeeDue, OrderShares;
    forall id | id in next.orders && id != p.intent.intentId ensures OrderHolds(sim, next, id) { assert OrderHolds(sim, book, id); }
  }

  lemma BookedSlots(sim: Simulation, book: Book, p: Posting, next: Book)
    requires forall key :: SlotHolds(sim, book, key)
    requires next.caps == book.caps[SlotOf(p) := Sub(Left(sim, book, SlotOf(p)), p.fill.quantity)]
    requires InRange(Sub(Left(sim, book, SlotOf(p)), p.fill.quantity), Quantity)
    requires V(Left(sim, book, SlotOf(p))) + SlotShares(book.fills, SlotOf(p)) == V(sim.policy.shareCap)
    requires forall key :: SlotShares(next.fills, key) == SlotShares(book.fills, key) + InSlot(p, key)
    ensures forall key :: SlotHolds(sim, next, key)
  {
    hide V, InRange, SlotShares, Sub, Left;
    forall key ensures SlotHolds(sim, next, key) { assert SlotHolds(sim, book, key); }
  }

  lemma BookedHoldings(book: Book, holdings: map<Id, Dec>, p: Posting, shares: Dec, next: Book)
    requires forall i | i in book.holdings :: InRange(book.holdings[i], Holding)
    requires forall i :: V(Holds(book.holdings, i)) == V(Holds(holdings, i)) + Acquired(book.fills, i)
    requires next.holdings == Stored(book.holdings, p.intent.instrument, shares) && InRange(shares, Holding)
    requires V(shares) == V(Holds(book.holdings, p.intent.instrument))
      + (if p.intent.side == Buy then V(p.fill.quantity) else -V(p.fill.quantity))
    requires forall i :: Acquired(next.fills, i) == Acquired(book.fills, i) + Moved(p, i)
    ensures forall i | i in next.holdings :: InRange(next.holdings[i], Holding)
    ensures forall i :: V(Holds(next.holdings, i)) == V(Holds(holdings, i)) + Acquired(next.fills, i)
  {
    ValueZero();
    hide V, InRange, Acquired;
  }

  lemma BookedCash(book: Book, cash: Dec, p: Posting, left: Dec, next: Book)
    requires V(book.cash) == V(cash) - Spent(book.fills) && next.cash == left && InRange(left, Money)
    requires V(left) == V(book.cash)
      + (if p.intent.side == Buy then -Product(V(p.fill.quantity), V(p.fill.price)) else Product(V(p.fill.quantity), V(p.fill.price)))
      - V(p.fill.fee)
    requires Spent(next.fills) == Spent(book.fills) + Outlay(p)
    ensures InRange(next.cash, Money) && V(next.cash) == V(cash) - Spent(next.fills)
  {
    hide V, InRange, Spent, Product;
  }

  /** A row tries the order it names on the instrument of that order. */
  predicate RowFits(book: Book, row: Row) {
    row.intentId in book.orders && book.orders[row.intentId].intent.instrument == row.instrument
  }

  lemma OutcomeOfRow(sim: Simulation, key: Selector)
    requires ValidSimulation(sim) && key in sim.outcomes
    ensures sim.outcomes[key].session == key.session && ValidPolicy(sim.policy)
  {
    hide V, ValidPolicy, ValidOutcome, ValidCalendar;
  }

  /** How a row can go: passed over, left unfilled, or filled. */
  lemma RowCases(sim: Simulation, book: Book, row: Row, next: Book)
    requires RowFits(book, row) && TryRow(sim, book, row) == Some(next)
    ensures var o := book.orders[row.intentId];
      var key, selector := (row.instrument, row.session.date), RowSelector(o.intent, row);
      if o.status != OpenAtHorizon || row.intentId in book.settled then next == book
      else if row.session.closeAt < o.intent.earliestSubmit then
        next == Settled(book, if o.intent.timeInForce == Gtc then o.(explanation := Because(NotYetEligible))
                              else o.(status := Lapsed, explanation := Because(NotYetEligible)))
      else
        && selector in sim.outcomes
        && var d := Simulate(AttemptOf(sim, book, o, sim.outcomes[selector], key));
           && d.Some?
           && match d.value
              case NoFill(reason) => next == Settled(book, Unfinished(o, Because(reason)))
              case Filled(f) =>
                exists b :: Charge(book, o, f) == Some(b) && next == PostBooking(sim, book, o, sim.outcomes[selector], key, f, b)
  {
    hide Simulate, Charge, AttemptOf, PostBooking, Settled, Unfinished;
  }

  function RowSelector(i: Intent, row: Row): Selector {
    Selector(row.instrument, i.calendarId, row.session.date, i.outcomeSource, i.outcomeRevision)
  }

  lemma EndsUnfilled(o: Order, why: Explanation)
    ensures var u := Unfinished(o, why);
      && u == o.(status := u.status, explanation := u.explanation) && u.status != Done
      && (u.status == OpenAtHorizon ==> o.intent.timeInForce == Gtc)
  {
  }

  lemma UnfilledRow(sim: Simulation, cash: Dec, holdings: map<Id, Dec>, book: Book, o: Order, next: Book)
    requires Conserves(sim, cash, holdings, book) && o.intent.intentId in book.orders && next == Settled(book, o)
    requires var was := book.orders[o.intent.intentId];
      && was.status == OpenAtHorizon && o == was.(status := o.status, explanation := o.explanation) && o.status != Done
      && (o.status == OpenAtHorizon && V(o.cumulative) > 0.0 ==> o.intent.timeInForce == Gtc)
    ensures Conserves(sim, cash, holdings, next) && SameIntents(book, next)
  {
    hide Conserves, V;
    UnfilledConserves(sim, cash, holdings, book, o);
  }

  lemma FilledRow(sim: Simulation, cash: Dec, holdings: map<Id, Dec>, book: Book, row: Row, outcome: Outcome, f: Fill, b: Booking)
    requires ValidPolicy(sim.policy) && Conserves(sim, cash, holdings, book) && RowFits(book, row)
    requires book.orders[row.intentId].status == OpenAtHorizon && outcome.session == row.session.date
    requires var o, key := book.orders[row.intentId], (row.instrument, row.session.date);
      Simulate(AttemptOf(sim, book, o, outcome, key)) == Some(Filled(f)) && Charge(book, o, f) == Some(b)
    ensures var o, key := book.orders[row.intentId], (row.instrument, row.session.date);
      var next := PostBooking(sim, book, o, outcome, key, f, b);
      Conserves(sim, cash, holdings, next) && SameIntents(book, next)
  {
    hide Conserves, Simulate, Charge, AttemptOf, PostBooking, V, ValidPolicy, SameIntents;
    var o, key := book.orders[row.intentId], (row.instrument, row.session.date);
    assert key == (o.intent.instrument, outcome.session);
    ConservesIs(sim, cash, holdings, book);
    OrderParts(sim, book, row.intentId);
    FilledConserves(sim, cash, holdings, book, row.intentId, outcome, f);
    BookedIntents(sim, book, o, outcome, key, f, b);
  }

  lemma RowConserves(sim: Simulation, cash: Dec, holdings: map<Id, Dec>, book: Book, row: Row, next: Book)
    requires ValidSimulation(sim) && Conserves(sim, cash, holdings, book) && RowFits(book, row) && TryRow(sim, book, row) == Some(next)
    ensures Conserves(sim, cash, holdings, next) && SameIntents(book, next)
  {
    hide *;
    FitsIs(book, row);
    RowCases(sim, book, row, next);
    ConservesIs(sim, cash, holdings, book);
    OrderParts(sim, book, row.intentId);
    var o := book.orders[row.intentId];
    var key, selector := (row.instrument, row.session.date), RowSelector(o.intent, row);
    if o.status != OpenAtHorizon || row.intentId in book.settled {
      SameIntentsItself(book);
    } else if row.session.closeAt < o.intent.earliestSubmit {
      UnfilledRow(sim, cash, holdings, book, if o.intent.timeInForce == Gtc then o.(explanation := Because(NotYetEligible))
                                             else o.(status := Lapsed, explanation := Because(NotYetEligible)), next);
    } else {
      var outcome := sim.outcomes[selector];
      OutcomeOfRow(sim, selector);
      SelectorIs(o.intent, row);
      match Simulate(AttemptOf(sim, book, o, outcome, key)).value
      case NoFill(reason) =>
        EndsUnfilled(o, Because(reason));
        UnfilledRow(sim, cash, holdings, book, Unfinished(o, Because(reason)), next);
      case Filled(f) => FilledRow(sim, cash, holdings, book, row, outcome, f, Charge(book, o, f).value);
    }
  }

  lemma FitsIs(book: Book, row: Row)
    requires RowFits(book, row)
    ensures row.intentId in book.orders && book.orders[row.intentId].intent.instrument == row.instrument
  {
  }

  lemma SameIntentsItself(book: Book)
    ensures SameIntents(book, book)
  {
  }

  lemma SelectorIs(i: Intent, row: Row)
    ensures RowSelector(i, row).session == row.session.date
  {
  }

  /** Orders come and go only in their figures. */
  predicate SameIntents(book: Book, next: Book) {
    next.orders.Keys == book.orders.Keys
    && forall id | id in book.orders :: next.orders[id].intent == book.orders[id].intent && next.orders[id].binding == book.orders[id].binding
  }

  lemma BookedIntents(sim: Simulation, book: Book, o: Order, outcome: Outcome, key: SlotKey, f: Fill, b: Booking)
    requires o.intent.intentId in book.orders && book.orders[o.intent.intentId] == o
    ensures SameIntents(book, PostBooking(sim, book, o, outcome, key, f, b))
  {
    hide V, Left, Stored, Sub;
  }

  lemma {:induction false} RowsConserve(sim: Simulation, cash: Dec, holdings: map<Id, Dec>, book: Book, rows: seq<Row>, done: Book)
    requires ValidSimulation(sim) && Conserves(sim, cash, holdings, book) && TryRows(sim, book, rows) == Some(done)
    requires forall row | row in rows :: RowFits(book, row)
    ensures Conserves(sim, cash, holdings, done) && SameIntents(book, done)
    decreases |rows|
  {
    hide ValidSimulation, Conserves, TryRow;
    if rows != [] {
      var next := TryRow(sim, book, rows[0]).value;
      RowConserves(sim, cash, holdings, book, rows[0], next);
      forall row | row in rows[1..] ensures RowFits(next, row) { assert RowFits(book, row); }
      RowsConserve(sim, cash, holdings, next, rows[1..], done);
    }
  }

  // ----- The rows -----

  lemma {:induction false} AllRowsFit(sim: Simulation, orders: map<Id, Order>, ids: seq<Id>)
    requires (forall i | i in ids :: i in orders) && AllRows(sim, orders, ids).Some?
    ensures forall row | row in AllRows(sim, orders, ids).value ::
      row.intentId in ids && row.instrument == orders[row.intentId].intent.instrument
  {
    hide AttemptSessions;
    if ids != [] { AllRowsFit(sim, orders, ids[1..]); }
  }

  lemma ScheduleFits(sim: Simulation, orders: map<Id, Order>)
    requires Schedule(sim, orders).Some?
    ensures forall row | row in Schedule(sim, orders).value ::
      row.intentId in orders && row.instrument == orders[row.intentId].intent.instrument
  {
    hide AllRows, Ordered;
    var rows := AllRows(sim, orders, Ordered(orders.Keys)).value;
    AllRowsFit(sim, orders, Ordered(orders.Keys));
    forall row | row in Schedule(sim, orders).value
      ensures row.intentId in orders && row.instrument == orders[row.intentId].intent.instrument
    {
      assert row in multiset(SortBy(rows, RowBefore));
      assert row in rows;
    }
  }

  // ----- Whole runs -----

  /** The run before the expiry of what is still open. */
  lemma RunParts(sim: Simulation, orders: seq<(Intent, Binding)>, cash: Dec, holdings: map<Id, Dec>, r: Book)
    returns (rows: seq<Row>, done: Book)
    requires Run(sim, orders, cash, holdings) == Some(r)
    ensures ValidSimulation(sim) && |orders| <= MAX_ORDERS && DistinctOrders(orders) && (forall p | p in orders :: ValidOrder(sim, p.0, p.1))
    ensures InRange(cash, Money) && ValidHoldings(holdings)
    ensures Schedule(sim, Fresh(orders)) == Some(rows) && TryRows(sim, Start(orders, cash, holdings), rows) == Some(done)
    ensures r.cash == done.cash && r.fills == done.fills && r.caps == done.caps && r.orders.Keys == done.orders.Keys
    ensures forall id | id in r.orders :: r.orders[id] == Expiry(sim, rows, done.orders[id])
    ensures r.holdings == map i | i in done.holdings && V(done.holdings[i]) > 0.0 :: done.holdings[i]
  {
    hide V, ValidSimulation, ValidOrder, InRange, TryRows, Schedule, Expiry, Fresh, ValidHoldings;
    rows := Schedule(sim, Start(orders, cash, holdings).orders).value;
    done := TryRows(sim, Start(orders, cash, holdings), rows).value;
  }

  lemma FinishedConserves(sim: Simulation, cash: Dec, holdings: map<Id, Dec>, orders: seq<(Intent, Binding)>, rows: seq<Row>, done: Book)
    requires ValidSimulation(sim) && DistinctOrders(orders) && InRange(cash, Money) && ValidHoldings(holdings)
    requires forall p | p in orders :: ValidOrder(sim, p.0, p.1)
    requires Schedule(sim, Fresh(orders)) == Some(rows) && TryRows(sim, Start(orders, cash, holdings), rows) == Some(done)
    ensures Conserves(sim, cash, holdings, done) && done.orders.Keys == Fresh(orders).Keys && SameIntents(Start(orders, cash, holdings), done)
    ensures forall row | row in rows :: RowFits(Start(orders, cash, holdings), row)
  {
    hide ValidSimulation, ValidOrder, TryRows, Schedule, Conserves, V, InRange;
    StartConserves(sim, orders, cash, holdings);
    ScheduleFits(sim, Fresh(orders));
    forall row | row in rows ensures RowFits(Start(orders, cash, holdings), row) {}
    RowsConserve(sim, cash, holdings, Start(orders, cash, holdings), rows, done);
  }

  /** Cash, holdings and caps of a run account for its fills, and none of them is ever negative. */
  lemma RunConserves(sim: Simulation, orders: seq<(Intent, Binding)>, cash: Dec, holdings: map<Id, Dec>, r: Book)
    requires Run(sim, orders, cash, holdings) == Some(r)
    ensures V(r.cash) == V(cash) - Spent(r.fills) && V(r.cash) >= 0.0
    ensures forall i :: V(Holds(r.holdings, i)) == V(Holds(holdings, i)) + Acquired(r.fills, i)
    ensures forall i | i in r.holdings :: V(r.holdings[i]) > 0.0
    ensures forall key | key in r.caps :: V(r.caps[key]) >= 0.0 && V(r.caps[key]) + SlotShares(r.fills, key) == V(sim.policy.shareCap)
    ensures forall key | key !in r.caps :: SlotShares(r.fills, key) == 0.0
  {
    hide Run, ValidSimulation, ValidOrder, TryRows, Schedule, Expiry, Fresh, V, OrderHolds, Spent, Acquired, SlotShares, Start, ValidHoldings,
      InRange, Maximum, Ten;
    var rows, done := RunParts(sim, orders, cash, holdings, r);
    FinishedConserves(sim, cash, holdings, orders, rows, done);
    ValueZero();
    RangeIs(r.cash, Money);
    forall i ensures V(Holds(r.holdings, i)) == V(Holds(holdings, i)) + Acquired(r.fills, i) {
      if i in done.holdings { RangeIs(done.holdings[i], Holding); }
      assert V(Holds(done.holdings, i)) == V(Holds(holdings, i)) + Acquired(done.fills, i);
    }
    forall key ensures key in r.caps ==> V(r.caps[key]) >= 0.0 && V(r.caps[key]) + SlotShares(r.fills, key) == V(sim.policy.shareCap)
      ensures key !in r.caps ==> SlotShares(r.fills, key) == 0.0
    {
      assert SlotHolds(sim, done, key);
      if key in r.caps { RangeIs(r.caps[key], Quantity); }
    }
  }

  /** Every order of a run: its remainder and its fills make up the order, it owes the fee due, and all-or-nothing holds. */
  lemma RunFillsOrders(sim: Simulation, orders: seq<(Intent, Binding)>, cash: Dec, holdings: map<Id, Dec>, r: Book)
    requires Run(sim, orders, cash, holdings) == Some(r)
    ensures forall id | id in r.orders ::
      var o := r.orders[id];
      && V(o.remaining) + V(o.cumulative) == V(o.intent.quantity) && V(o.remaining) >= 0.0
      && V(o.cumulative) == OrderShares(r.fills, id) && Same(o.fee, FeeDue(o.cumulative, sim.policy))
      && (o.intent.timeInForce == Fok ==> V(o.cumulative) == 0.0 || V(o.cumulative) == V(o.intent.quantity))
      && (o.status == Done <==> V(o.remaining) == 0.0)
  {
    hide Run, ValidSimulation, ValidOrder, TryRows, Schedule, Fresh, V, Spent, Acquired, SlotShares, Start, ValidHoldings, OrderShares, FeeDue,
      LastClose, SlotHolds, InRange, Maximum, Ten;
    var rows, done := RunParts(sim, orders, cash, holdings, r);
    FinishedConserves(sim, cash, holdings, orders, rows, done);
    forall id | id in r.orders
      ensures var o := r.orders[id];
        && V(o.remaining) + V(o.cumulative) == V(o.intent.quantity) && V(o.remaining) >= 0.0
        && V(o.cumulative) == OrderShares(r.fills, id) && Same(o.fee, FeeDue(o.cumulative, sim.policy))
        && (o.intent.timeInForce == Fok ==> V(o.cumulative) == 0.0 || V(o.cumulative) == V(o.intent.quantity))
        && (o.status == Done <==> V(o.remaining) == 0.0)
    {
      assert OrderHolds(sim, done, id);
      RangeIs(done.orders[id].remaining, Quantity);
    }
  }
}
