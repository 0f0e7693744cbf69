/**
  A simulator run refines into the ledger: its fills, posted in order to a fresh ledger that
  opened with the same cash, are all accepted and end in the same cash, positions, cumulative
  quantities and fees.
 */
module SimulatorRefinement {
  import opened Options
  import opened Decimals
  import opened Contracts
  import opened Accounts
  import opened Ordering
  import opened Fills
  import opened Simulator
  import opened SimulatorProofs
  import opened SimulatorRows
  import L = Ledger
  import Steps = LedgerSteps
  import LI = LedgerInvariants
  import AC = AuditCompleteness
  import R = Replay

  // ----- Posting fills -----

  /** The event that posts a fill next. */
  function EventFor(s: L.State, p: Posting): Event {
    Event(|s.events|, s.balance.header.startSequence + |s.events|, LastPrefix(s.balance),
          p.intent.runId, p.intent.calendarId, FillBody(p))
  }

  /** Fills posted in order, each as the next event; none if one is rejected. */
  function PostAll(s: L.State, fills: seq<Posting>): Option<L.State>
    decreases |fills|
  {
    if fills == [] then Some(s)
    else var t :- R.Append(s, EventFor(s, fills[0])); PostAll(t, fills[1..])
  }

  lemma {:induction false} PostAllExtends(s: L.State, fills: seq<Posting>, p: Posting)
    ensures PostAll(s, fills + [p]) ==
      match PostAll(s, fills) case None => None case Some(t) => R.Append(t, EventFor(t, p))
    decreases |fills|
  {
    hide EventFor, R.Append;
    if fills == [] {
      assert fills + [p] == [p] && [p][1..] == [];
      if R.Append(s, EventFor(s, p)).Some? { assert PostAll(R.Append(s, EventFor(s, p)).value, []) == R.Append(s, EventFor(s, p)); }
    } else {
      assert (fills + [p])[0] == fills[0] && (fills + [p])[1..] == fills[1..] + [p];
      if R.Append(s, EventFor(s, fills[0])).Some? { PostAllExtends(R.Append(s, EventFor(s, fills[0])).value, fills[1..], p); }
    }
  }

  // ----- The relation between a run and a ledger -----

  /** A header whose window holds every outcome of the simulation, for its run and calendar. */
  predicate Covers(h: Header, sim: Simulation) {
    && L.ValidHeader(h) && h.runId == sim.runId && h.calendarId == sim.calendar.id
    && forall k | k in sim.outcomes :: h.openingTime <= sim.outcomes[k].closeAt && sim.outcomes[k].receivedAt <= h.cutoff
  }

  predicate OwnerFollows(sim: Simulation, book: Book, s: L.State, id: Id) {
    id in book.orders && var o := book.orders[id];
    if id in s.balance.owners then
      && s.balance.owners[id].intent == o.intent && s.balance.owners[id].cumulative == o.cumulative
      && Same(s.balance.owners[id].fee, o.fee) && V(o.cumulative) > 0.0
      && (s.balance.owners[id].fee.exp == -2 || s.balance.owners[id].fee.exp == 0)
      && Lookup(s.policies, id) == Some(sim.policy)
    else o.cumulative == ZERO
  }

  predicate SlotFollows(sim: Simulation, book: Book, s: L.State, key: SlotKey) {
    if key in s.balance.slots then
      && key in book.caps && InRange(s.balance.slots[key].filled, Quantity) && Lookup(s.slotPolicies, key) == Some(sim.policy)
      && V(s.balance.slots[key].filled) + V(book.caps[key]) == V(sim.policy.shareCap)
    else key !in book.caps
  }

  /** Every fill posted so far stopped short of where its order is now. */
  predicate FillsPast(b: Balance) {
    forall g | g in b.fillIds :: g.intent.intentId in b.owners && V(g.before) < V(b.owners[g.intent.intentId].cumulative)
  }

  /** The attempts still to come are later than everything posted. */
  predicate RowsAhead(b: Balance, rows: seq<Row>) {
    forall row | row in rows ::
      && (b.latestEconomic.Some? ==> b.latestEconomic.value <= row.session.closeAt)
      && (row.intentId in b.owners ==> b.owners[row.intentId].lastSession < row.session.date)
  }

  /** More than this many fills can have charged. */
  function FeeCeiling(n: int): real { Product(n as real, Ten(15)) }

  lemma FeeCeilingStep(n: nat)
    ensures FeeCeiling(n + 1) == FeeCeiling(n) + Ten(15)
  {
    hide Ten;
    Distribute(n as real, 1.0, Ten(15));
  }

  lemma FeeCeilingBound(n: nat)
    requires n <= 4096
    ensures FeeCeiling(n) <= Ten(19)
  {
    assert Ten(4) == 10000.0 by { assert Pow10(1) == 10 && Pow10(2) == 100 && Pow10(3) == 1000 && Pow10(4) == 10000; }
    TenAdd(4, 15);
    hide Ten;
    ProductOrder(n as real, Ten(4), Ten(15));
  }

  function Instruments(orders: map<Id, Order>): set<Id> { set id | id in orders :: orders[id].intent.instrument }

  /** Sizes and totals stay far within the ledger's limits. */
  predicate Small(book: Book, s: L.State) {
    && |s.events| == |book.fills| && (forall k | k in s.eventIds :: k < |s.events|)
    && s.balance.owners.Keys <= book.orders.Keys && s.balance.instruments <= Instruments(book.orders) && |s.balance.slots| <= |book.fills|
    && -2 <= s.balance.fees.exp <= 0 && 0.0 <= V(s.balance.fees) <= FeeCeiling(|book.fills|)
  }

  ghost predicate Tracks(sim: Simulation, book: Book, s: L.State, rows: seq<Row>) {
    && R.Valid(s) && Covers(s.balance.header, sim)
    && s.balance.cash == book.cash && s.balance.positions == book.holdings
    && s.balance.obligations == map[] && s.balance.actions == None
    && (forall id | id in book.orders :: OwnerFollows(sim, book, s, id))
    && (forall key :: SlotFollows(sim, book, s, key))
    && FillsPast(s.balance) && RowsAhead(s.balance, rows) && Small(book, s)
  }

  // ----- The moves of a fill -----

  /** What the simulator knows of a fill it books. */
  predicate Booked(sim: Simulation, book: Book, o: Order, p: Posting, b: Booking) {
    && p.intent == o.intent && p.binding == o.binding && p.policy == sim.policy && ValidPolicy(sim.policy)
    && ValidFill(p.fill, p.intent, p.outcome, p.policy, p.binding, o.remaining, o.cumulative) && FillInRange(p.fill)
    && p.fill.before == o.cumulative && (p.fill.fee.coef == 0 ==> p.fill.fee == ZERO)
    && V(p.fill.quantity) <= V(Left(sim, book, SlotOf(p))) && Charge(book, o, p.fill) == Some(b)
    && InRange(o.remaining, Quantity) && InRange(o.cumulative, Quantity) && InRange(book.cash, Money)
    && InRange(Holds(book.holdings, o.intent.instrument), Holding) && Same(o.fee, FeeDue(o.cumulative, sim.policy))
  }

  // The ledger's arithmetic for a fill, part by part.

  predicate CapStep(b: Balance, p: Posting) {
    var used := Add(L.SlotFilled(b, L.KeyOf(p)), p.fill.quantity);
    && Checked(p.policy.shareCap, Quantity, true) == Some(p.policy.shareCap) && Exact(used).Some?
    && Checked(used, Quantity, false) == Some(used) && V(used) <= V(p.policy.shareCap)
  }

  predicate CumulativeStep(b: Balance, p: Posting, k: Booking) {
    var cumulative := L.OwnedCumulative(b, p.intent.intentId);
    Exact(Add(cumulative, p.fill.quantity)).Some? && Checked(Add(cumulative, p.fill.quantity), Quantity, true) == Some(k.cumulative)
  }

  predicate FeeStep(b: Balance, p: Posting, k: Booking) {
    var posted := L.OwnedFee(b, p.intent.intentId);
    var before, after := L.FeeChecked(L.OwnedCumulative(b, p.intent.intentId), p.policy), L.FeeChecked(k.cumulative, p.policy);
    && before.Some? && Same(posted, before.value) && after.Some?
    && Exact(Sub(after.value, posted)).Some? && Checked(Sub(after.value, posted), Money, false).Some?
    && Checked(p.fill.fee, Money, false) == Some(p.fill.fee)
    && Same(p.fill.fee, Checked(Sub(after.value, posted), Money, false).value)
  }

  predicate CashStep(b: Balance, p: Posting, k: Booking) {
    var notional := Mul(p.fill.quantity, p.fill.price);
    && Exact(notional).Some? && Exact(Sub(b.cash, L.Signed(p.intent.side, notional))).Some?
    && Exact(Sub(Sub(b.cash, L.Signed(p.intent.side, notional)), p.fill.fee)).Some?
    && Checked(Sub(Sub(b.cash, L.Signed(p.intent.side, notional)), p.fill.fee), Money, false) == Some(k.cash)
  }

  predicate ShareStep(b: Balance, p: Posting, k: Booking) {
    var held := Add(Held(b.positions, p.intent.instrument), L.Signed(p.intent.side, p.fill.quantity));
    Exact(held).Some? && Checked(held, Holding, false) == Some(k.shares)
  }

  predicate FeesStep(b: Balance, p: Posting) {
    Exact(Add(b.fees, p.fill.fee)).Some? && Checked(Add(b.fees, p.fill.fee), Money, false).Some?
  }

  lemma TenDoubles(m: nat, n: nat)
    requires m < n
    ensures 10.0 * Ten(m) <= Ten(n)
  {
    Pow10Grows(m + 1, n);
    assert Pow10(m + 1) == 10 * Pow10(m);
  }

  lemma CapMoves(sim: Simulation, book: Book, o: Order, p: Posting, b: Booking, s: L.State)
    requires Booked(sim, book, o, p, b) && SlotFollows(sim, book, s, SlotOf(p))
    ensures CapStep(s.balance, p)
    ensures var used := Add(L.SlotFilled(s.balance, SlotOf(p)), p.fill.quantity);
      && InRange(used, Quantity) && V(used) > 0.0
      && V(used) + V(Sub(Left(sim, book, SlotOf(p)), p.fill.quantity)) == V(p.policy.shareCap)
  {
    hide V, Booked, SlotFollows, Exact, Fits, Checked, Add, Sub, SlotOf, L.KeyOf, L.SlotFilled, InRange, Ten, Left, ValidPolicy, Same, FeeDue, Maximum;
    ValueZero();
    BookedFill(sim, book, o, p, b);
    CapInRange(sim.policy);
    SlotFilledIs(sim, book, s, SlotOf(p));
    SameNotions(s, p, ZERO);
    var filled := L.SlotFilled(s.balance, SlotOf(p));
    var used := Add(filled, p.fill.quantity);
    RangeIs(filled, Quantity);
    RangeIs(p.fill.quantity, Quantity);
    RangeIs(sim.policy.shareCap, Quantity); InRangePasses(sim.policy.shareCap, Quantity);
    RangeIs(used, Quantity); InRangePasses(used, Quantity);
    SignOfValue(used);
    RangeFits(used, 9);
  }

  /** Where the ledger and the simulator say the same in their own words. */
  lemma SameNotions(s: L.State, p: Posting, d: Dec)
    ensures L.KeyOf(p) == SlotOf(p) == (p.intent.instrument, p.outcome.session)
    ensures Held(s.balance.positions, p.intent.instrument) == Holds(s.balance.positions, p.intent.instrument)
    ensures L.Placed(s.balance.positions, p.intent.instrument, d) == Stored(s.balance.positions, p.intent.instrument, d)
    ensures EventFor(s, p).id == |s.events| && EventFor(s, p).body == FillBody(p) && EconomicTime(FillBody(p)) == p.outcome.closeAt
  {
    hide V, LastPrefix;
  }

  lemma BookedFill(sim: Simulation, book: Book, o: Order, p: Posting, b: Booking)
    requires Booked(sim, book, o, p, b)
    ensures InRange(p.fill.quantity, Quantity) && V(p.fill.quantity) > 0.0 && V(p.fill.quantity) <= V(o.remaining)
    ensures V(p.fill.quantity) <= V(Left(sim, book, SlotOf(p))) && p.policy == sim.policy && ValidPolicy(sim.policy)
    ensures InRange(p.fill.price, Execution) && V(p.fill.price) > 0.0 && InRange(p.fill.fee, Money)
    ensures V(p.fill.fee) == V(FeeDue(p.fill.after, p.policy)) - V(FeeDue(p.fill.before, p.policy))
    ensures V(p.fill.after) == V(o.cumulative) + V(p.fill.quantity) && p.fill.before == o.cumulative
    ensures InRange(o.cumulative, Quantity) && InRange(o.remaining, Quantity) && V(o.remaining) + V(o.cumulative) == V(o.intent.quantity)
    ensures InRange(p.fill.after, Quantity) && InRange(o.intent.quantity, Quantity) && V(o.remaining) > 0.0
    ensures Same(o.fee, FeeDue(o.cumulative, sim.policy)) && (p.fill.fee.coef == 0 ==> p.fill.fee == ZERO)
    ensures Charge(book, o, p.fill) == Some(b) && p.intent == o.intent && InRange(book.cash, Money)
    ensures InRange(Holds(book.holdings, o.intent.instrument), Holding)
    ensures p.fill.intent == p.intent && p.outcome.closeAt < p.outcome.receivedAt
  {
    hide V, InRange, FeeDue, AdversePrice, FloorLots, LotQuantity, BoundTo, Charge, Left, Holds, ValidPolicy, Marketable;
  }

  lemma SlotFilledIs(sim: Simulation, book: Book, s: L.State, key: SlotKey)
    requires SlotFollows(sim, book, s, key)
    ensures InRange(L.SlotFilled(s.balance, key), Quantity)
    ensures V(L.SlotFilled(s.balance, key)) + V(Left(sim, book, key)) == V(sim.policy.shareCap)
  {
    ValueZero();
    ZeroInRange();
    hide V, InRange;
  }

  lemma FeePasses(cumulative: Dec, policy: Policy)
    requires ValidPolicy(policy) && 0.0 <= V(cumulative) <= Ten(9)
    ensures L.FeeChecked(cumulative, policy).Some?
    ensures var d := L.FeeChecked(cumulative, policy).value;
      Same(d, FeeDue(cumulative, policy)) && (d.exp == -2 || d.exp == 0) && 0.0 <= V(d) <= Ten(15)
  {
    hide V, FeeDue, ValidPolicy, Ten;
    FeeNonNegative(cumulative, policy);
    FeeBounded(cumulative, policy);
    TenGrows(15, 24);
    RangeIs(FeeDue(cumulative, policy), Money); InRangePasses(FeeDue(cumulative, policy), Money);
    SignOfValue(FeeDue(cumulative, policy));
    ValueZero();
  }

  lemma CumulativeMoves(sim: Simulation, book: Book, o: Order, p: Posting, b: Booking, s: L.State)
    requires Booked(sim, book, o, p, b) && Lookup(book.orders, o.intent.intentId) == Some(o)
    requires OwnerFollows(sim, book, s, o.intent.intentId)
    ensures CumulativeStep(s.balance, p, b) && L.OwnedCumulative(s.balance, p.intent.intentId) == o.cumulative
    ensures V(b.cumulative) > 0.0 && Exact(Sub(p.intent.quantity, o.cumulative)).Some?
  {
    hide V, Booked, OwnerFollows, Exact, Fits, Checked, Add, Sub, L.OwnedCumulative, L.OwnedFee, InRange, Ten, Maximum, Same, FeeDue, ValidPolicy,
      Left, Charge, Holds, Mul;
    BookedFill(sim, book, o, p, b);
    OwnedIs(sim, book, s, o.intent.intentId);
    ChargeIs(book, o, p.fill, b);
    var sum := Add(o.cumulative, p.fill.quantity);
    RangeIs(p.fill.quantity, Quantity);
    RangeIs(o.cumulative, Quantity);
    RangeIs(p.fill.after, Quantity);
    RangeIs(o.remaining, Quantity);
    RangeIs(o.intent.quantity, Quantity);
    RangeIs(sum, Quantity); InRangePasses(sum, Quantity);
    SignOfValue(sum);
    RangeFits(sum, 9);
    RangeFits(Sub(o.intent.quantity, o.cumulative), 9);
  }

  lemma OwnedIs(sim: Simulation, book: Book, s: L.State, id: Id)
    requires id in book.orders && OwnerFollows(sim, book, s, id)
    ensures L.OwnedCumulative(s.balance, id) == book.orders[id].cumulative
    ensures L.OwnedFee(s.balance, id).exp == -2 || L.OwnedFee(s.balance, id).exp == 0
    ensures Same(book.orders[id].fee, FeeDue(book.orders[id].cumulative, sim.policy)) ==>
      Same(L.OwnedFee(s.balance, id), FeeDue(book.orders[id].cumulative, sim.policy))
  {
    ZeroFee(sim.policy);
    ValueZero();
    hide V, FeeDue;
  }

  /** The checked figures behind a booking. */
  lemma ChargeIs(book: Book, o: Order, f: Fill, b: Booking)
    requires Charge(book, o, f) == Some(b)
    ensures var notional, held := Mul(f.quantity, f.price), Holds(book.holdings, o.intent.instrument);
      && Checked(Sub(if o.intent.side == Buy then Sub(book.cash, notional) else Add(book.cash, notional), f.fee), Money, false) == Some(b.cash)
      && Checked(if o.intent.side == Buy then Add(held, f.quantity) else Sub(held, f.quantity), Holding, false) == Some(b.shares)
      && Checked(Add(o.cumulative, f.quantity), Quantity, false) == Some(b.cumulative)
  {
    hide V, Mul, Add, Sub, Checked, Holds;
  }

  /** A fee change between two cumulative fees is exact money, equal to what the fill charged. */
  lemma FeeChange(after: Dec, posted: Dec, charged: Dec)
    requires (after.exp == -2 || after.exp == 0) && (posted.exp == -2 || posted.exp == 0) && InRange(charged, Money)
    requires 0.0 <= V(posted) <= V(after) <= Ten(15) && V(charged) == V(after) - V(posted) && (charged.coef == 0 ==> charged == ZERO)
    ensures Exact(Sub(after, posted)).Some? && Checked(Sub(after, posted), Money, false).Some?
    ensures Checked(charged, Money, false) == Some(charged) && V(charged) <= Ten(15)
    ensures Same(charged, Checked(Sub(after, posted), Money, false).value)
  {
    hide *;
    var change := Sub(after, posted);
    TenGrows(15, 24);
    RangeFits(change, 15);
    RangeIs(change, Money); InRangePasses(change, Money);
    RangeIs(charged, Money);
    RangeIs(charged, Money); InRangePasses(charged, Money);
    ZeroIsZero();
    SignOfValue(change);
    SameIs(charged, Checked(change, Money, false).value);
  }

  lemma FeesOf(sim: Simulation, o: Order, p: Posting, posted: Dec, b: Booking)
    requires ValidPolicy(sim.policy) && 0.0 <= V(o.cumulative) <= V(b.cumulative) <= Ten(9) && p.policy == sim.policy
    requires Same(posted, FeeDue(o.cumulative, sim.policy)) && V(p.fill.after) == V(b.cumulative) && p.fill.before == o.cumulative
    requires V(p.fill.fee) == V(FeeDue(p.fill.after, p.policy)) - V(FeeDue(p.fill.before, p.policy))
    ensures var before, after := L.FeeChecked(o.cumulative, p.policy), L.FeeChecked(b.cumulative, p.policy);
      && before.Some? && Same(posted, before.value) && after.Some? && (after.value.exp == -2 || after.value.exp == 0)
      && 0.0 <= V(posted) <= V(after.value) <= Ten(15) && V(p.fill.fee) == V(after.value) - V(posted)
      && Same(after.value, FeeDue(b.cumulative, sim.policy))
  {
    hide *;
    FeePasses(o.cumulative, sim.policy);
    FeePasses(b.cumulative, sim.policy);
    var before, after := L.FeeChecked(o.cumulative, p.policy).value, L.FeeChecked(b.cumulative, p.policy).value;
    SameIs(posted, FeeDue(o.cumulative, sim.policy));
    SameIs(before, FeeDue(o.cumulative, sim.policy));
    SameIs(posted, before);
    SameIs(after, FeeDue(b.cumulative, sim.policy));
    SameIs(p.fill.after, b.cumulative);
    AC.FeeDueSame(p.fill.after, b.cumulative, sim.policy);
    SameIs(FeeDue(p.fill.after, sim.policy), FeeDue(b.cumulative, sim.policy));
    FeeDueMonotone(o.cumulative, b.cumulative, sim.policy);
  }

  lemma NotionalBound(q: real, p: real)
    requires 0.0 < q <= Ten(9) && 0.0 < p <= 2.0 * Ten(9)
    ensures 0.0 < Product(q, p) <= Ten(19)
  {
    hide Ten;
    TenAdd(9, 9);
    TenDoubles(18, 19);
    ProductBound(q, Ten(9), p, 2.0 * Ten(9));
    SignOfProduct(q, p);
  }

  lemma CashMoves(sim: Simulation, book: Book, o: Order, p: Posting, b: Booking, s: L.State)
    requires Booked(sim, book, o, p, b) && s.balance.cash == book.cash
    ensures CashStep(s.balance, p, b)
  {
    hide V, Booked, Exact, Fits, Checked, Add, Sub, Mul, L.Signed, InRange, Ten, Maximum, Same, FeeDue, ValidPolicy, Left, Charge, Holds, Product;
    BookedFill(sim, book, o, p, b);
    ChargeIs(book, o, p.fill, b);
    var notional := Mul(p.fill.quantity, p.fill.price);
    var signed := L.Signed(p.intent.side, notional);
    RangeIs(p.fill.quantity, Quantity);
    RangeIs(p.fill.price, Execution);
    RangeIs(book.cash, Money);
    RangeIs(p.fill.fee, Money);
    ProductOf(p.fill.quantity, p.fill.price);
    NotionalBound(V(p.fill.quantity), V(p.fill.price));
    TenDoubles(19, 24);
    TenDoubles(24, 25);
    RangeFits(notional, 19);
    SignedIs(p.intent.side, notional, book.cash);
    RangeFits(Sub(book.cash, signed), 25);
    RangeFits(Sub(Sub(book.cash, signed), p.fill.fee), 25);
  }

  lemma SignedIs(side: Side, amount: Dec, x: Dec)
    ensures L.Signed(side, amount).exp == amount.exp
    ensures Sub(x, L.Signed(side, amount)) == if side == Buy then Sub(x, amount) else Add(x, amount)
    ensures Add(x, L.Signed(side, amount)) == if side == Buy then Add(x, amount) else Sub(x, amount)
  {
    SubNegate(x, amount);
    hide V, Add, Sub;
  }

  lemma ShareMoves(sim: Simulation, book: Book, o: Order, p: Posting, b: Booking, s: L.State)
    requires Booked(sim, book, o, p, b) && s.balance.positions == book.holdings
    ensures ShareStep(s.balance, p, b)
  {
    hide V, Booked, Exact, Fits, Checked, Add, Sub, Mul, L.Signed, InRange, Ten, Maximum, Same, FeeDue, ValidPolicy, Left, Charge, Holds, Held;
    BookedFill(sim, book, o, p, b);
    ChargeIs(book, o, p.fill, b);
    SameNotions(s, p, ZERO);
    var holds := Holds(book.holdings, p.intent.instrument);
    SignedIs(p.intent.side, p.fill.quantity, holds);
    RangeIs(p.fill.quantity, Quantity);
    RangeIs(holds, Holding);
    TenDoubles(9, 12);
    TenDoubles(12, 13);
    RangeFits(Add(holds, L.Signed(p.intent.side, p.fill.quantity)), 13);
  }

  lemma ChargedTotal(fees: Dec, fee: Dec, n: nat)
    requires -2 <= fees.exp <= 0 && 0.0 <= V(fees) <= FeeCeiling(n) && n < 4096
    requires (fee.exp == -2 || fee.exp == 0) && 0.0 <= V(fee) <= Ten(15)
    ensures Exact(Add(fees, fee)).Some? && Checked(Add(fees, fee), Money, false).Some?
    ensures var t := Checked(Add(fees, fee), Money, false).value; -2 <= t.exp <= 0 && 0.0 <= V(t) <= FeeCeiling(n + 1)
  {
    hide *;
    FeeCeilingStep(n);
    FeeCeilingBound(n + 1);
    TenGrows(19, 24);
    RangeFits(Add(fees, fee), 19);
    RangeIs(Add(fees, fee), Money); InRangePasses(Add(fees, fee), Money);
    ZeroIsZero();
  }

  lemma ZeroIsZero()
    ensures V(ZERO) == 0.0 && ZERO.exp == 0 && ZERO.coef == 0
  {
    ValueZero();
  }

  lemma FeeSteps(sim: Simulation, book: Book, o: Order, p: Posting, b: Booking, s: L.State)
    requires Booked(sim, book, o, p, b) && Lookup(book.orders, o.intent.intentId) == Some(o)
    requires OwnerFollows(sim, book, s, o.intent.intentId) && (p.fill.fee.exp == -2 || p.fill.fee.exp == 0)
    requires -2 <= s.balance.fees.exp <= 0 && 0.0 <= V(s.balance.fees) <= FeeCeiling(|book.fills|) && |book.fills| < MAX_EVENTS
    ensures FeeStep(s.balance, p, b) && FeesStep(s.balance, p)
    ensures var after, t := L.FeeChecked(b.cumulative, p.policy).value, Checked(Add(s.balance.fees, p.fill.fee), Money, false).value;
      && Same(after, FeeDue(b.cumulative, sim.policy)) && (after.exp == -2 || after.exp == 0)
      && -2 <= t.exp <= 0 && 0.0 <= V(t) <= FeeCeiling(|book.fills| + 1)
  {
    hide V, Booked, OwnerFollows, Exact, Fits, Checked, Add, Sub, L.FeeChecked, L.OwnedFee, L.OwnedCumulative, FeeCeiling, InRange, Same, FeeDue,
      Ten, Maximum, ValidPolicy, Left, Charge, Holds;
    BookedFill(sim, book, o, p, b);
    ChargeValues(book, o, p.fill);
    CumulativeMoves(sim, book, o, p, b, s);
    OwnedIs(sim, book, s, o.intent.intentId);
    RangeIs(o.cumulative, Quantity);
    RangeIs(p.fill.after, Quantity);
    RangeIs(p.fill.fee, Money);
    var posted := L.OwnedFee(s.balance, p.intent.intentId);
    FeesOf(sim, o, p, posted, b);
    FeeChange(L.FeeChecked(b.cumulative, p.policy).value, posted, p.fill.fee);
    ChargedTotal(s.balance.fees, p.fill.fee, |book.fills|);
  }

  /** Every step of the ledger's arithmetic for this fill succeeds, on the simulator's figures. */
  lemma MovesSucceed(sim: Simulation, book: Book, o: Order, p: Posting, b: Booking, s: L.State, rows: seq<Row>) returns (m: L.Moves)
    requires Booked(sim, book, o, p, b) && Tracks(sim, book, s, rows) && |book.fills| < MAX_EVENTS
    requires Lookup(book.orders, o.intent.intentId) == Some(o) && (p.fill.fee.exp == -2 || p.fill.fee.exp == 0)
    ensures L.FillMoves(s.balance, p) == Some(m)
    ensures m.cash == b.cash && m.position == b.shares && m.after == b.cumulative && Same(m.dueAfter, FeeDue(b.cumulative, sim.policy))
    ensures (m.dueAfter.exp == -2 || m.dueAfter.exp == 0) && m.capAfter == Add(L.SlotFilled(s.balance, SlotOf(p)), p.fill.quantity)
    ensures -2 <= m.fees.exp <= 0 && 0.0 <= V(m.fees) <= FeeCeiling(|book.fills| + 1)
  {
    hide *;
    LookupIs(book.orders, o.intent.intentId, o);
    TracksIs(sim, book, s, rows);
    SmallParts(book, s);
    CapMoves(sim, book, o, p, b, s);
    CumulativeMoves(sim, book, o, p, b, s);
    FeeSteps(sim, book, o, p, b, s);
    CashMoves(sim, book, o, p, b, s);
    ShareMoves(sim, book, o, p, b, s);
    SameNotions(s, p, ZERO);
    m := MovesChain(s.balance, p, b);
  }

  lemma MovesChain(b: Balance, p: Posting, k: Booking) returns (m: L.Moves)
    requires CapStep(b, p) && CumulativeStep(b, p, k) && FeeStep(b, p, k) && CashStep(b, p, k) && ShareStep(b, p, k) && FeesStep(b, p)
    ensures L.FillMoves(b, p) == Some(m)
    ensures m.capAfter == Add(L.SlotFilled(b, L.KeyOf(p)), p.fill.quantity) && m.after == k.cumulative && m.cash == k.cash && m.position == k.shares
    ensures L.FeeChecked(k.cumulative, p.policy) == Some(m.dueAfter) && Checked(Add(b.fees, p.fill.fee), Money, false) == Some(m.fees)
  {
    hide V, Fits, Add, Sub, Mul, Checked, L.FeeChecked, L.Signed, L.SlotFilled, L.OwnedCumulative, L.OwnedFee, L.KeyOf, Held, Same;
    m := L.FillMoves(b, p).value;
  }

  // ----- Acceptance -----

  /** The row at hand is later than what its order last filled, and its instant than everything posted. */
  predicate RowNow(b: Balance, p: Posting) {
    && (b.latestEconomic.Some? ==> b.latestEconomic.value <= p.outcome.closeAt)
    && (p.intent.intentId in b.owners ==> b.owners[p.intent.intentId].lastSession < p.outcome.session)
  }

  lemma NewFill(b: Balance, p: Posting)
    requires FillsPast(b) && Same(p.fill.before, L.OwnedCumulative(b, p.intent.intentId)) && p.fill.intent == p.intent
    ensures FillId(p.fill) !in b.fillIds
  {
    var g := FillId(p.fill);
    assert g.intent == p.intent && V(g.before) == V(p.fill.before);
    hide V, FillId;
  }

  lemma ValidFillSame(p: Posting, remaining: Dec, other: Dec, cumulative: Dec)
    requires ValidFill(p.fill, p.intent, p.outcome, p.policy, p.binding, remaining, cumulative) && Same(remaining, other)
    ensures ValidFill(p.fill, p.intent, p.outcome, p.policy, p.binding, other, cumulative)
  {
    hide V, FeeDue, AdversePrice, FloorLots, LotQuantity, BoundTo, OutcomeFor, ValidPolicy, Marketable, ValidIntent;
  }

  lemma OwnerAllowed(sim: Simulation, book: Book, o: Order, p: Posting, s: L.State)
    requires Lookup(book.orders, o.intent.intentId) == Some(o) && p.intent == o.intent && p.policy == sim.policy
    requires OwnerFollows(sim, book, s, o.intent.intentId) && RowNow(s.balance, p) && Small(book, s)
    requires (V(o.cumulative) > 0.0 ==> o.intent.timeInForce == Gtc) && V(o.cumulative) < V(o.intent.quantity) && LI.Telescopes(s)
    requires |book.orders| <= MAX_ORDERS
    ensures L.OwnerAllows(s, p)
  {
    hide V, FeeDue, LI.FilledBy, Instruments;
    var id := o.intent.intentId;
    if id in s.balance.owners {
      assert LI.OwnerHolds(s, id);
      assert s.balance.owners[id].terminal <==> L.Closes(o.intent, o.cumulative);
    } else {
      assert s.balance.owners.Keys + {id} <= book.orders.Keys;
      Cardinality(s.balance.owners.Keys, book.orders.Keys);
    }
  }

  lemma Cardinality(small: set<Id>, large: set<Id>)
    requires small <= large
    ensures |small| <= |large| && (small != large ==> |small| < |large|)
  {
    assert large == small + (large - small);
  }

  lemma {:induction false} InstrumentsBound(orders: map<Id, Order>)
    ensures |Instruments(orders)| <= |orders|
    decreases |orders|
  {
    if orders != map[] {
      var id :| id in orders;
      var rest := orders - {id};
      InstrumentsBound(rest);
      forall x | x in Instruments(orders) ensures x in Instruments(rest) + {orders[id].intent.instrument} {
        var k :| k in orders && orders[k].intent.instrument == x;
        assert k == id || k in rest;
      }
      Cardinality(Instruments(orders), Instruments(rest) + {orders[id].intent.instrument});
    }
  }

  lemma SlotAllowed(sim: Simulation, book: Book, o: Order, p: Posting, s: L.State)
    requires Lookup(book.orders, o.intent.intentId) == Some(o) && p.intent == o.intent && p.policy == sim.policy
    requires SlotFollows(sim, book, s, SlotOf(p)) && Small(book, s) && |book.fills| < MAX_EVENTS && |book.orders| <= MAX_ORDERS
    ensures L.SlotAllows(s, p)
  {
    InstrumentsBound(book.orders);
    assert p.intent.instrument in Instruments(book.orders);
    if p.intent.instrument !in s.balance.instruments {
      Cardinality(s.balance.instruments, Instruments(book.orders));
    }
    hide V, Instruments, InRange, Ten;
  }

  /** The ledger allows the fill. */
  lemma Allowed(sim: Simulation, book: Book, o: Order, p: Posting, b: Booking, s: L.State, rows: seq<Row>)
    requires Booked(sim, book, o, p, b) && Tracks(sim, book, s, rows) && |book.fills| < MAX_EVENTS && |book.orders| <= MAX_ORDERS
    requires Lookup(book.orders, o.intent.intentId) == Some(o) && RowNow(s.balance, p)
    requires V(o.cumulative) > 0.0 ==> o.intent.timeInForce == Gtc
    requires s.balance.header.openingTime <= p.outcome.closeAt && p.outcome.receivedAt <= s.balance.header.cutoff
    ensures L.FillAllowed(s, p) && L.ValidPosting(p)
  {
    hide *;
    LookupIs(book.orders, o.intent.intentId, o);
    TracksIs(sim, book, s, rows);
    BookedIs(sim, book, o, p, b);
    BookedFill(sim, book, o, p, b);
    CumulativeMoves(sim, book, o, p, b, s);
    assert LI.Telescopes(s) by { R.ValidParts(s); }
    SameIs(p.fill.before, L.OwnedCumulative(s.balance, p.intent.intentId));
    SameIs(o.remaining, Sub(p.intent.quantity, o.cumulative));
    NewFill(s.balance, p);
    ValidFillSame(p, o.remaining, Sub(p.intent.quantity, o.cumulative), o.cumulative);
    OwnerAllowed(sim, book, o, p, s);
    SlotAllowed(sim, book, o, p, s);
    RowNowIs(s.balance, p);
    AllowedIs(s, p);
  }

  lemma RowNowIs(b: Balance, p: Posting)
    requires RowNow(b, p)
    ensures b.latestEconomic.Some? ==> b.latestEconomic.value <= p.outcome.closeAt
  {
  }

  lemma AllowedIs(s: L.State, p: Posting)
    requires FillId(p.fill) !in s.balance.fillIds && s.balance.actions == None
    requires var cumulative := L.OwnedCumulative(s.balance, p.intent.intentId);
      && Same(p.fill.before, cumulative) && V(cumulative) < V(p.intent.quantity) && Exact(Sub(p.intent.quantity, cumulative)).Some?
      && ValidFill(p.fill, p.intent, p.outcome, p.policy, p.binding, Sub(p.intent.quantity, cumulative), cumulative)
      && p.fill.before == cumulative
    requires FillInRange(p.fill) && L.OwnerAllows(s, p) && L.SlotAllows(s, p)
    requires s.balance.header.openingTime <= p.outcome.closeAt < p.outcome.receivedAt <= s.balance.header.cutoff
    requires s.balance.latestEconomic.Some? ==> s.balance.latestEconomic.value <= p.outcome.closeAt
    ensures L.FillAllowed(s, p) && L.ValidPosting(p)
  {
    hide V, ValidFill, FillInRange, L.OwnerAllows, L.SlotAllows, Fits, Sub, FillId, L.OwnedCumulative;
  }

  /** The event that posts the fill is accepted. */
  lemma Appended(sim: Simulation, book: Book, o: Order, p: Posting, b: Booking, s: L.State, rows: seq<Row>) returns (t: L.State, m: L.Moves)
    requires Booked(sim, book, o, p, b) && Tracks(sim, book, s, rows) && |book.fills| < MAX_EVENTS && |book.orders| <= MAX_ORDERS
    requires Lookup(book.orders, o.intent.intentId) == Some(o) && RowNow(s.balance, p)
    requires (V(o.cumulative) > 0.0 ==> o.intent.timeInForce == Gtc) && ValidOrder(sim, o.intent, o.binding)
    requires s.balance.header.openingTime <= p.outcome.closeAt && p.outcome.receivedAt <= s.balance.header.cutoff
    requires s.balance.header.startSequence + |book.fills| < MAX_SEQUENCE && (p.fill.fee.exp == -2 || p.fill.fee.exp == 0)
    ensures R.Append(s, EventFor(s, p)) == Some(t) && R.Valid(t) && Steps.PostedFill(s.balance, p, m, t.balance)
    ensures t.policies == s.policies[p.intent.intentId := p.policy] && t.slotPolicies == s.slotPolicies[SlotOf(p) := p.policy]
    ensures t.events == s.events + [EventFor(s, p)] && t.eventIds == s.eventIds[EventFor(s, p).id := EventFor(s, p)]
    ensures t.balance.header == s.balance.header && t.balance.latestEconomic == Some(p.outcome.closeAt)
    ensures m.cash == b.cash && m.position == b.shares && m.after == b.cumulative && Same(m.dueAfter, FeeDue(b.cumulative, sim.policy))
    ensures (m.dueAfter.exp == -2 || m.dueAfter.exp == 0) && m.capAfter == Add(L.SlotFilled(s.balance, SlotOf(p)), p.fill.quantity)
    ensures -2 <= m.fees.exp <= 0 && 0.0 <= V(m.fees) <= FeeCeiling(|book.fills| + 1)
  {
    hide *;
    TracksIs(sim, book, s, rows);
    SmallParts(book, s);
    BookedFill(sim, book, o, p, b);
    Allowed(sim, book, o, p, b, s, rows);
    m := MovesSucceed(sim, book, o, p, b, s, rows);
    OneRun(sim, o, s.balance.header);
    RowNowIs(s.balance, p);
    ProposedFor(s, p, m);
    R.AuditNeverRejects(s, EventFor(s, p));
    t := R.Append(s, EventFor(s, p)).value;
    R.AppendSteps(s, EventFor(s, p), t);
    R.AppendIsValid(s, EventFor(s, p), t);
    Steps.AnyStep(s, EventFor(s, p), t);
    SameNotions(s, p, ZERO);
    var posted := Steps.FillPosted(s, EventFor(s, p), t, p);
  }

  lemma OneRun(sim: Simulation, o: Order, h: Header)
    requires ValidOrder(sim, o.intent, o.binding) && Covers(h, sim)
    ensures o.intent.runId == h.runId && o.intent.calendarId == h.calendarId
  {
  }

  lemma SmallParts(book: Book, s: L.State)
    requires Small(book, s)
    ensures |s.events| == |book.fills| && |s.events| !in s.eventIds
    ensures -2 <= s.balance.fees.exp <= 0 && 0.0 <= V(s.balance.fees) <= FeeCeiling(|book.fills|)
  {
    hide V, Ten, Instruments, FeeCeiling;
  }

  lemma ProposedFor(s: L.State, p: Posting, m: L.Moves)
    requires L.FillAllowed(s, p) && L.ValidPosting(p) && L.FillMoves(s.balance, p) == Some(m) && s.balance.obligations == map[]
    requires p.intent.runId == s.balance.header.runId && p.intent.calendarId == s.balance.header.calendarId
    requires |s.events| < MAX_EVENTS && s.balance.header.startSequence + |s.events| < MAX_SEQUENCE
    requires s.balance.header.openingTime <= p.outcome.closeAt < p.outcome.receivedAt <= s.balance.header.cutoff
    requires s.balance.latestEconomic.Some? ==> s.balance.latestEconomic.value <= p.outcome.closeAt
    ensures var e := EventFor(s, p); L.WellFormed(e) && L.Follows(s, e) && L.Propose(s, e).Some? && e.id == |s.events| && e.body == FillBody(p)
  {
    EmptyTotals();
    hide V, L.FillAllowed, L.ValidPosting, L.FillMoves, Fits, InRange, L.Placed, L.NewOwner, L.NewSlot, PrefixHash, L.Later, Checked;
  }

  lemma EmptyTotals()
    ensures forall kind: ObligationKind :: Total(map[], kind) == ZERO
    ensures Exact(ZERO) == Some(ZERO) && Checked(ZERO, Money, false) == Some(ZERO)
  {
    hide V, Fits, Checked;
    ValueZero();
    assert Ten(1) >= 1.0;
    RangeFits(ZERO, 1);
    InRangePasses(ZERO, Money);
  }

  // ----- The relation goes on -----

  /** A row and those after it: no earlier instant, and later sessions for the same order. */
  predicate After(row: Row, rows: seq<Row>) {
    forall r | r in rows ::
      row.session.closeAt <= r.session.closeAt && (r.intentId == row.intentId ==> row.session.date < r.session.date)
  }

  lemma OwnersGoOn(sim: Simulation, book: Book, next: Book, s: L.State, t: L.State, p: Posting, m: L.Moves)
    requires (forall id | id in book.orders :: OwnerFollows(sim, book, s, id)) && p.intent.intentId in book.orders
    requires next.orders.Keys == book.orders.Keys && p.policy == sim.policy
    requires forall id | id in book.orders && id != p.intent.intentId :: next.orders[id] == book.orders[id]
    requires var o := next.orders[p.intent.intentId];
      o.intent == p.intent && m.after == o.cumulative && Same(m.dueAfter, o.fee) && V(m.after) > 0.0
    requires m.dueAfter.exp == -2 || m.dueAfter.exp == 0
    requires t.balance.owners == s.balance.owners[p.intent.intentId := L.NewOwner(s.balance, p, m)]
    requires t.policies == s.policies[p.intent.intentId := p.policy]
    ensures forall id | id in next.orders :: OwnerFollows(sim, next, t, id)
  {
    hide V, FillId, L.OwnedFills, L.Closes;
    forall id | id in next.orders ensures OwnerFollows(sim, next, t, id) { assert OwnerFollows(sim, book, s, id); }
  }

  lemma SlotsGoOn(sim: Simulation, book: Book, next: Book, s: L.State, t: L.State, p: Posting, m: L.Moves)
    requires (forall key :: SlotFollows(sim, book, s, key)) && p.policy == sim.policy
    requires next.caps == book.caps[SlotOf(p) := Sub(Left(sim, book, SlotOf(p)), p.fill.quantity)]
    requires InRange(m.capAfter, Quantity) && V(m.capAfter) + V(Sub(Left(sim, book, SlotOf(p)), p.fill.quantity)) == V(sim.policy.shareCap)
    requires t.balance.slots == s.balance.slots[SlotOf(p) := L.NewSlot(p, m)] && t.slotPolicies == s.slotPolicies[SlotOf(p) := p.policy]
    ensures forall key :: SlotFollows(sim, next, t, key)
  {
    hide V, InRange, Left, Sub;
    forall key ensures SlotFollows(sim, next, t, key) { assert SlotFollows(sim, book, s, key); }
  }

  lemma FillsGoOn(b: Balance, a: Balance, p: Posting, m: L.Moves)
    requires FillsPast(b) && p.fill.intent == p.intent
    requires a.fillIds == b.fillIds + {FillId(p.fill)} && a.owners == b.owners[p.intent.intentId := L.NewOwner(b, p, m)]
    requires V(p.fill.before) < V(m.after) && V(L.OwnedCumulative(b, p.intent.intentId)) <= V(m.after)
    ensures FillsPast(a)
  {
    var g := FillId(p.fill);
    assert g.intent == p.intent && V(g.before) == V(p.fill.before);
    hide V, FillId, L.OwnedFills, L.Closes;
  }

  lemma RowsGoOn(b: Balance, a: Balance, p: Posting, m: L.Moves, row: Row, rows: seq<Row>)
    requires RowsAhead(b, [row] + rows) && After(row, rows) && row.intentId == p.intent.intentId
    requires row.session.closeAt == p.outcome.closeAt && row.session.date == p.outcome.session
    requires a.owners == b.owners[p.intent.intentId := L.NewOwner(b, p, m)] && a.latestEconomic == Some(p.outcome.closeAt)
    ensures RowsAhead(a, rows)
  {
    hide V, FillId, L.OwnedFills, L.Closes;
    assert forall r | r in rows :: r in [row] + rows;
  }

  lemma SmallGoesOn(book: Book, next: Book, s: L.State, t: L.State, p: Posting, m: L.Moves)
    requires Small(book, s) && next.fills == book.fills + [p] && SameIntents(book, next)
    requires p.intent.intentId in book.orders && book.orders[p.intent.intentId].intent == p.intent
    requires t.events == s.events + [EventFor(s, p)] && t.eventIds == s.eventIds[EventFor(s, p).id := EventFor(s, p)]
    requires t.balance.owners == s.balance.owners[p.intent.intentId := L.NewOwner(s.balance, p, m)]
    requires t.balance.slots == s.balance.slots[L.KeyOf(p) := L.NewSlot(p, m)] && t.balance.fees == m.fees
    requires t.balance.instruments == s.balance.instruments + {p.intent.instrument}
    requires -2 <= m.fees.exp <= 0 && 0.0 <= V(m.fees) <= FeeCeiling(|book.fills| + 1)
    ensures Small(next, t)
  {
    hide V, FeeCeiling, EventFor, L.NewOwner, L.NewSlot, L.KeyOf, SlotOf, L.Placed, Stored, Holds, Held, EconomicTime;
    SameNotions(s, p, ZERO);
    assert Instruments(next.orders) == Instruments(book.orders);
    assert p.intent.instrument in Instruments(book.orders);
    SizeOfUpdate(s.balance.slots, L.KeyOf(p), L.NewSlot(p, m));
  }

  lemma SizeOfUpdate<K, T>(m: map<K, T>, k: K, v: T)
    ensures |m[k := v]| <= |m| + 1
  {
    if k in m { assert m[k := v].Keys == m.Keys; } else { assert m[k := v].Keys == m.Keys + {k}; }
  }

  lemma FilledGoesOn(sim: Simulation, book: Book, o: Order, p: Posting, b: Booking, s: L.State, row: Row, rows: seq<Row>) returns (t: L.State)
    requires Booked(sim, book, o, p, b) && Tracks(sim, book, s, [row] + rows) && |book.fills| < MAX_EVENTS && |book.orders| <= MAX_ORDERS
    requires Lookup(book.orders, o.intent.intentId) == Some(o) && RowNow(s.balance, p)
    requires (V(o.cumulative) > 0.0 ==> o.intent.timeInForce == Gtc) && ValidOrder(sim, o.intent, o.binding)
    requires s.balance.header.openingTime <= p.outcome.closeAt && p.outcome.receivedAt <= s.balance.header.cutoff
    requires s.balance.header.startSequence + |book.fills| < MAX_SEQUENCE && (p.fill.fee.exp == -2 || p.fill.fee.exp == 0)
    requires After(row, rows) && row.intentId == p.intent.intentId
    requires row.session.closeAt == p.outcome.closeAt && row.session.date == p.outcome.session
    requires Same(b.fee, FeeDue(b.cumulative, sim.policy))
    ensures R.Append(s, EventFor(s, p)) == Some(t) && t.balance.header == s.balance.header
    ensures Tracks(sim, PostBooking(sim, book, o, p.outcome, SlotOf(p), p.fill, b), t, rows)
  {
    hide *;
    LookupIs(book.orders, o.intent.intentId, o);
    var all := [row] + rows;
    var m: L.Moves;
    t, m := Appended(sim, book, o, p, b, s, all);
    var next := PostBooking(sim, book, o, p.outcome, SlotOf(p), p.fill, b);
    TracksIs(sim, book, s, all);
    assert p == Posting(o.intent, p.fill, o.binding, p.outcome, sim.policy) by { BookedIs(sim, book, o, p, b); }
    BookedFill(sim, book, o, p, b);
    ChargeValues(book, o, p.fill);
    CapMoves(sim, book, o, p, b, s);
    CumulativeMoves(sim, book, o, p, b, s);
    SameNotions(s, p, m.position);
    LI.PostedFillIs(s.balance, p, m, t.balance);
    PostedParts(sim, book, o, p.outcome, SlotOf(p), p.fill, b);
    PostedOrder(sim, book, o, p, b);
    assert Same(m.dueAfter, b.fee) by {
      SameIs(m.dueAfter, FeeDue(b.cumulative, sim.policy)); SameIs(b.fee, FeeDue(b.cumulative, sim.policy)); SameIs(m.dueAfter, b.fee);
    }
    OwnersGoOn(sim, book, next, s, t, p, m);
    SlotsGoOn(sim, book, next, s, t, p, m);
    FillsGoOn(s.balance, t.balance, p, m);
    RowsGoOn(s.balance, t.balance, p, m, row, rows);
    BookedIntents(sim, book, o, p.outcome, SlotOf(p), p.fill, b);
    SmallGoesOn(book, next, s, t, p, m);
    assert Tracks(sim, next, t, rows) by { TracksIs(sim, next, t, rows); }
  }

  lemma PostedOrder(sim: Simulation, book: Book, o: Order, p: Posting, b: Booking)
    requires Lookup(book.orders, o.intent.intentId) == Some(o)
    ensures var next := PostBooking(sim, book, o, p.outcome, SlotOf(p), p.fill, b);
      && o.intent.intentId in next.orders && next.orders[o.intent.intentId].intent == o.intent
      && next.orders[o.intent.intentId].cumulative == b.cumulative && next.orders[o.intent.intentId].fee == b.fee
  {
    hide V, Left, Stored, Sub;
  }

  lemma TracksIs(sim: Simulation, book: Book, s: L.State, rows: seq<Row>)
    ensures Tracks(sim, book, s, rows) <==>
      && R.Valid(s) && Covers(s.balance.header, sim)
      && s.balance.cash == book.cash && s.balance.positions == book.holdings && s.balance.obligations == map[] && s.balance.actions == None
      && (forall id | id in book.orders :: OwnerFollows(sim, book, s, id)) && (forall key :: SlotFollows(sim, book, s, key))
      && FillsPast(s.balance) && RowsAhead(s.balance, rows) && Small(book, s)
  {
    hide R.Valid, Covers, OwnerFollows, SlotFollows, FillsPast, RowsAhead, Small, V, Ten;
  }

  /** Orders that differ in status and explanation alone. */
  predicate SameFigures(book: Book, next: Book) {
    && next == book.(orders := next.orders, settled := next.settled) && next.orders.Keys == book.orders.Keys
    && forall id | id in book.orders ::
         && next.orders[id].intent == book.orders[id].intent && next.orders[id].cumulative == book.orders[id].cumulative
         && next.orders[id].fee == book.orders[id].fee
  }

  /** A row that fills nothing leaves the ledger where it was. */
  lemma UnfilledGoesOn(sim: Simulation, book: Book, next: Book, s: L.State, row: Row, rows: seq<Row>)
    requires Tracks(sim, book, s, [row] + rows) && SameFigures(book, next)
    ensures Tracks(sim, next, s, rows)
  {
    hide R.Valid, Covers, V, FillsPast, FeeCeiling;
    forall id | id in next.orders ensures OwnerFollows(sim, next, s, id) { assert OwnerFollows(sim, book, s, id); }
    forall key ensures SlotFollows(sim, next, s, key) { assert SlotFollows(sim, book, s, key); }
    assert forall r | r in rows :: r in [row] + rows;
    assert Instruments(next.orders) == Instruments(book.orders);
    hide OwnerFollows, SlotFollows, Instruments;
  }

  // ----- Whole runs -----

  /** What a simulated fill is when it is booked. */
  lemma DecidedIsBooked(sim: Simulation, cash: Dec, book: Book, row: Row, outcome: Outcome, f: Fill, b: Booking)
    requires ValidPolicy(sim.policy) && Conserves(sim, cash, map[], book) && RowFits(book, row) && outcome.session == row.session.date
    requires var o, key := book.orders[row.intentId], (row.instrument, row.session.date);
      Simulate(AttemptOf(sim, book, o, outcome, key)) == Some(Filled(f)) && Charge(book, o, f) == Some(b)
    ensures var o := book.orders[row.intentId];
      var p := Posting(o.intent, f, o.binding, outcome, sim.policy);
      && Booked(sim, book, o, p, b) && SlotOf(p) == (row.instrument, row.session.date) && (f.fee.exp == -2 || f.fee.exp == 0)
      && Same(b.fee, FeeDue(b.cumulative, sim.policy)) && ValidOrder(sim, o.intent, o.binding) && o.intent.intentId == row.intentId
  {
    hide *;
    FitsIs(book, row);
    var o, key := book.orders[row.intentId], (row.instrument, row.session.date);
    var a := AttemptOf(sim, book, o, outcome, key);
    var p := Posting(o.intent, f, o.binding, outcome, sim.policy);
    ConservesIs(sim, cash, map[], book);
    OrderParts(sim, book, row.intentId);
    OrderRanges(sim, book, row.intentId);
    AttemptParts(sim, book, o, outcome, key);
    DecidedFill(a, f);
    FittingParts(a, f.quantity);
    FillFacts(a, f);
    BuiltFee(a, f);
    ChargeValues(book, o, f);
    FeeAdds(sim, o, f, b.fee, b.cumulative);
    SlotIs(p);
    BookedIs(sim, book, o, p, b);
  }

  lemma OrderRanges(sim: Simulation, book: Book, id: Id)
    requires id in book.orders && OrderHolds(sim, book, id)
    ensures InRange(book.orders[id].remaining, Quantity) && InRange(book.orders[id].cumulative, Quantity)
    ensures ValidOrder(sim, book.orders[id].intent, book.orders[id].binding)
    ensures (forall i | i in book.holdings :: InRange(book.holdings[i], Holding)) ==>
      InRange(Holds(book.holdings, book.orders[id].intent.instrument), Holding)
  {
    ValueZero();
    hide V, ValidOrder, FeeDue, OrderShares, Ten;
  }

  lemma BuiltFee(a: Attempt, f: Fill)
    requires f == BuildFill(a, f.quantity)
    ensures (f.fee.coef == 0 ==> f.fee == ZERO) && (f.fee.exp == -2 || f.fee.exp == 0)
  {
    assert FeeFor(a, f.quantity).exp == -2 by { hide V, Add, Owed, RoundCents, Sub; }
    hide V, FeeDue, Price, Add, FeeFor;
  }

  lemma BookedIs(sim: Simulation, book: Book, o: Order, p: Posting, b: Booking)
    ensures Booked(sim, book, o, p, b) <==>
      && p.intent == o.intent && p.binding == o.binding && p.policy == sim.policy && ValidPolicy(sim.policy)
      && ValidFill(p.fill, p.intent, p.outcome, p.policy, p.binding, o.remaining, o.cumulative) && FillInRange(p.fill)
      && p.fill.before == o.cumulative && (p.fill.fee.coef == 0 ==> p.fill.fee == ZERO)
      && V(p.fill.quantity) <= V(Left(sim, book, SlotOf(p))) && Charge(book, o, p.fill) == Some(b)
      && InRange(o.remaining, Quantity) && InRange(o.cumulative, Quantity) && InRange(book.cash, Money)
      && InRange(Holds(book.holdings, o.intent.instrument), Holding) && Same(o.fee, FeeDue(o.cumulative, sim.policy))
  {
    hide V, InRange, FeeDue, ValidFill, FillInRange, Charge, Left, Holds, ValidPolicy, SlotOf;
  }

  lemma {:induction false} FillsGrow(sim: Simulation, book: Book, rows: seq<Row>, done: Book)
    requires TryRows(sim, book, rows) == Some(done)
    ensures |book.fills| <= |done.fills|
    decreases |rows|
  {
    hide V, Simulate, Charge, AttemptOf, Left, Stored, Sub;
    if rows != [] { FillsGrow(sim, TryRow(sim, book, rows[0]).value, rows[1..], done); }
  }

  /** The outcome a row finds is the one of its session, inside the ledger's window. */
  lemma OutcomeFits(sim: Simulation, h: Header, row: Row, i: Intent)
    requires ValidSimulation(sim) && Covers(h, sim) && RowSelector(i, row) in sim.outcomes
    requires Lookup(sim.calendar.schedule, row.session.date) == Some(row.session)
    ensures var outcome := sim.outcomes[RowSelector(i, row)];
      && outcome.session == row.session.date && outcome.closeAt == row.session.closeAt
      && h.openingTime <= outcome.closeAt && outcome.receivedAt <= h.cutoff
    ensures ValidPolicy(sim.policy)
  {
    hide V, ValidPolicy, L.ValidHeader, ValidReference, ValidCalendar;
    assert SelectorOf(sim.outcomes[RowSelector(i, row)]) == RowSelector(i, row) && ValidOutcome(sim.outcomes[RowSelector(i, row)], sim.calendar);
  }

  /** One more row: its fill, if any, is posted, and the relation goes on. */
  lemma RowTracks(sim: Simulation, cash: Dec, book: Book, start: L.State, s: L.State, row: Row, rows: seq<Row>, next: Book) returns (t: L.State)
    requires ValidSimulation(sim) && Conserves(sim, cash, map[], book) && RowFits(book, row) && TryRow(sim, book, row) == Some(next)
    requires Tracks(sim, book, s, [row] + rows) && PostAll(start, book.fills) == Some(s) && After(row, rows)
    requires Lookup(sim.calendar.schedule, row.session.date) == Some(row.session) && |book.orders| <= MAX_ORDERS
    requires |next.fills| <= MAX_EVENTS && s.balance.header.startSequence + |next.fills| <= MAX_SEQUENCE
    ensures PostAll(start, next.fills) == Some(t) && Tracks(sim, next, t, rows) && t.balance.header == s.balance.header
  {
    hide *;
    FitsIs(book, row);
    RowCases(sim, book, row, next);
    ConservesIs(sim, cash, map[], book);
    OrderParts(sim, book, row.intentId);
    TracksIs(sim, book, s, [row] + rows);
    var o := book.orders[row.intentId];
    var key, selector := (row.instrument, row.session.date), RowSelector(o.intent, row);
    LookupIs(book.orders, row.intentId, o);
    SettledIs(book, o, o);
    t := s;
    if o.status != OpenAtHorizon || row.intentId in book.settled {
      UnfilledGoesOn(sim, book, next, s, row, rows);
    } else if row.session.closeAt < o.intent.earliestSubmit {
      var ended := if o.intent.timeInForce == Gtc then o.(explanation := Because(NotYetEligible))
                   else o.(status := Lapsed, explanation := Because(NotYetEligible));
      SettledIs(book, o, ended);
      UnfilledGoesOn(sim, book, next, s, row, rows);
    } else {
      var outcome := sim.outcomes[selector];
      OutcomeFits(sim, s.balance.header, row, o.intent);
      match Simulate(AttemptOf(sim, book, o, outcome, key)).value
      case NoFill(reason) =>
        EndsUnfilled(o, Because(reason));
        SettledIs(book, o, Unfinished(o, Because(reason)));
        UnfilledGoesOn(sim, book, next, s, row, rows);
      case Filled(f) =>
        PostedParts(sim, book, o, outcome, key, f, Charge(book, o, f).value);
        t := FilledTracks(sim, cash, book, start, s, row, rows, o, outcome, f, Charge(book, o, f).value);
    }
  }

  lemma SettledIs(book: Book, was: Order, o: Order)
    requires Lookup(book.orders, o.intent.intentId) == Some(was) && o == was.(status := o.status, explanation := o.explanation)
    ensures SameFigures(book, Settled(book, o)) && SameFigures(book, book)
  {
  }

  lemma FilledTracks(sim: Simulation, cash: Dec, book: Book, start: L.State, s: L.State, row: Row, rows: seq<Row>,
                     o: Order, outcome: Outcome, f: Fill, b: Booking) returns (t: L.State)
    requires ValidPolicy(sim.policy) && Conserves(sim, cash, map[], book) && RowFits(book, row) && After(row, rows)
    requires Tracks(sim, book, s, [row] + rows) && PostAll(start, book.fills) == Some(s) && |book.orders| <= MAX_ORDERS
    requires Lookup(book.orders, row.intentId) == Some(o) && o.status == OpenAtHorizon
    requires outcome.session == row.session.date && outcome.closeAt == row.session.closeAt
    requires s.balance.header.openingTime <= outcome.closeAt && outcome.receivedAt <= s.balance.header.cutoff
    requires |book.fills| + 1 <= MAX_EVENTS && s.balance.header.startSequence + |book.fills| + 1 <= MAX_SEQUENCE
    requires Simulate(AttemptOf(sim, book, o, outcome, (row.instrument, row.session.date))) == Some(Filled(f)) && Charge(book, o, f) == Some(b)
    ensures var next := PostBooking(sim, book, o, outcome, (row.instrument, row.session.date), f, b);
      PostAll(start, next.fills) == Some(t) && Tracks(sim, next, t, rows) && t.balance.header == s.balance.header
  {
    hide *;
    FitsIs(book, row);
    var key := (row.instrument, row.session.date);
    LookupIs(book.orders, row.intentId, o);
    var p := Posting(o.intent, f, o.binding, outcome, sim.policy);
    ConservesIs(sim, cash, map[], book);
    OrderParts(sim, book, row.intentId);
    DecidedIsBooked(sim, cash, book, row, outcome, f, b);
    TracksIs(sim, book, s, [row] + rows);
    RowIsNow(s.balance, p, row, rows);
    PostedParts(sim, book, o, outcome, key, f, b);
    t := FilledGoesOn(sim, book, o, p, b, s, row, rows);
    PostAllExtends(start, book.fills, p);
  }

  lemma RowIsNow(b: Balance, p: Posting, row: Row, rows: seq<Row>)
    requires RowsAhead(b, [row] + rows) && row.intentId == p.intent.intentId
    requires row.session.closeAt == p.outcome.closeAt && row.session.date == p.outcome.session
    ensures RowNow(b, p)
  {
    assert row in [row] + rows;
  }

  lemma {:induction false} RowsTrack(sim: Simulation, cash: Dec, book: Book, start: L.State, s: L.State, rows: seq<Row>, done: Book)
    returns (t: L.State)
    requires ValidSimulation(sim) && Conserves(sim, cash, map[], book) && TryRows(sim, book, rows) == Some(done)
    requires forall row | row in rows :: RowFits(book, row)
    requires Tracks(sim, book, s, rows) && PostAll(start, book.fills) == Some(s)
    requires Chronological(rows) && Scheduled(sim.calendar, rows) && |book.orders| <= MAX_ORDERS
    requires |done.fills| <= MAX_EVENTS && s.balance.header.startSequence + |done.fills| <= MAX_SEQUENCE
    ensures PostAll(start, done.fills) == Some(t) && Tracks(sim, done, t, []) && t.balance.header == s.balance.header
    decreases |rows|
  {
    hide ValidSimulation, Conserves, TryRow, Tracks, PostAll, RowFits, Chronological, Scheduled, After;
    if rows == [] {
      t := s;
    } else {
      var row, rest := rows[0], rows[1..];
      var next := TryRow(sim, book, row).value;
      assert [row] + rest == rows;
      FillsGrow(sim, next, rest, done);
      RowsSplit(sim, rows);
      t := RowTracks(sim, cash, book, start, s, row, rest, next);
      RowConserves(sim, cash, map[], book, row, next);
      RowsStillFit(book, next, rest);
      t := RowsTrack(sim, cash, next, start, t, rest, done);
    }
  }

  lemma RowsStillFit(book: Book, next: Book, rows: seq<Row>)
    requires SameIntents(book, next) && forall row | row in rows :: RowFits(book, row)
    ensures (forall row | row in rows :: RowFits(next, row)) && |next.orders| == |book.orders|
  {
    assert next.orders.Keys == book.orders.Keys;
    assert |next.orders| == |next.orders.Keys| && |book.orders| == |book.orders.Keys|;
    forall row | row in rows ensures RowFits(next, row) { assert RowFits(book, row); }
  }

  lemma RowsSplit(sim: Simulation, rows: seq<Row>)
    requires rows != [] && Chronological(rows) && Scheduled(sim.calendar, rows)
    ensures After(rows[0], rows[1..]) && Chronological(rows[1..]) && Scheduled(sim.calendar, rows[1..])
    ensures Lookup(sim.calendar.schedule, rows[0].session.date) == Some(rows[0].session)
  {
    assert rows[0] in rows;
    forall r | r in rows[1..]
      ensures rows[0].session.closeAt <= r.session.closeAt && (r.intentId == rows[0].intentId ==> rows[0].session.date < r.session.date)
    {
      var k :| 0 <= k < |rows[1..]| && rows[1..][k] == r;
      assert rows[k + 1] == r;
    }
  }

  lemma StartTracks(sim: Simulation, orders: seq<(Intent, Binding)>, h: Header, rows: seq<Row>)
    requires DistinctOrders(orders) && Covers(h, sim)
    ensures Tracks(sim, Start(orders, h.openingCash, map[]), L.Open(h), rows) && L.Open(h).balance.header == h
    ensures PostAll(L.Open(h), Start(orders, h.openingCash, map[]).fills) == Some(L.Open(h))
  {
    assert L.ValidHeader(h);
    hide R.Valid, R.Append, Covers, Fresh, V, Ten;
    var book, s := Start(orders, h.openingCash, map[]), L.Open(h);
    R.OpenIsValid(h);
    ValueZero();
    forall id | id in book.orders ensures OwnerFollows(sim, book, s, id) { FreshOrders(orders, id); }
    assert FeeCeiling(0) == 0.0;
    TracksIs(sim, book, s, rows);
  }

  /**
    The fills of any simulator run from empty holdings, posted in order to a fresh ledger with
    the same cash and a wide enough window, are all accepted, and leave the ledger with the
    run's cash, holdings, and each order's cumulative quantity and fee.
   */
  lemma RunPostsToLedger(sim: Simulation, orders: seq<(Intent, Binding)>, h: Header, r: Book) returns (t: L.State)
    requires Run(sim, orders, h.openingCash, map[]) == Some(r) && Covers(h, sim)
    requires |r.fills| <= MAX_EVENTS && h.startSequence + |r.fills| <= MAX_SEQUENCE
    ensures PostAll(L.Open(h), r.fills) == Some(t) && |t.events| == |r.fills|
    ensures t.balance.cash == r.cash && t.balance.positions == r.holdings
    ensures forall id | id in r.orders ::
      L.OwnedCumulative(t.balance, id) == r.orders[id].cumulative && Same(L.OwnedFee(t.balance, id), r.orders[id].fee)
  {
    hide *;
    var cash := h.openingCash;
    var rows, done := RunParts(sim, orders, cash, map[], r);
    var book := Start(orders, cash, map[]);
    FinishedConserves(sim, cash, map[], orders, rows, done);
    ScheduleFits(sim, Fresh(orders));
    SimulationCalendar(sim);
    StartConserves(sim, orders, cash, map[]);
    StartIs(orders, cash);
    FreshSize(orders);
    ScheduleIsChronological(sim, Fresh(orders));
    StartTracks(sim, orders, h, rows);
    t := RowsTrack(sim, cash, book, L.Open(h), L.Open(h), rows, done);
    TracksIs(sim, done, t, []);
    SmallParts(done, t);
    ConservesIs(sim, cash, map[], done);
    R.ValidParts(t);
    SettledHoldings(t.balance);
    KeptHoldings(done.holdings, r.holdings);
    forall id | id in r.orders
      ensures L.OwnedCumulative(t.balance, id) == r.orders[id].cumulative && Same(L.OwnedFee(t.balance, id), r.orders[id].fee)
    {
      OrderFinished(sim, done, t, id);
      ExpiryIs(sim, rows, done.orders[id]);
    }
  }

  lemma SimulationCalendar(sim: Simulation)
    requires ValidSimulation(sim)
    ensures ValidCalendar(sim.calendar) && sim.horizon in sim.calendar.schedule
  {
    hide V, ValidPolicy, ValidOutcome;
  }

  lemma StartIs(orders: seq<(Intent, Binding)>, cash: Dec)
    requires DistinctOrders(orders)
    ensures Start(orders, cash, map[]).orders == Fresh(orders)
  {
    hide Fresh;
  }

  lemma SettledHoldings(b: Balance)
    requires LI.Settled(b)
    ensures forall i | i in b.positions :: V(b.positions[i]) > 0.0
  {
    hide V, ActionsOf;
  }

  lemma KeptHoldings(before: map<Id, Dec>, after: map<Id, Dec>)
    requires forall i | i in before :: V(before[i]) > 0.0
    requires after == map i | i in before && V(before[i]) > 0.0 :: before[i]
    ensures after == before
  {
    hide V;
  }

  lemma OrderFinished(sim: Simulation, book: Book, s: L.State, id: Id)
    requires id in book.orders && OwnerFollows(sim, book, s, id) && OrderHolds(sim, book, id)
    ensures L.OwnedCumulative(s.balance, id) == book.orders[id].cumulative && Same(L.OwnedFee(s.balance, id), book.orders[id].fee)
  {
    ZeroFee(sim.policy);
    ValueZero();
    hide V, FeeDue, ValidOrder, OrderShares, InRange;
  }

  lemma ExpiryIs(sim: Simulation, rows: seq<Row>, o: Order)
    requires sim.horizon in sim.calendar.schedule
    ensures Expiry(sim, rows, o).cumulative == o.cumulative && Expiry(sim, rows, o).fee == o.fee
  {
    hide LastClose;
  }
}
