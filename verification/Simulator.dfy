/**
  The batch simulator: every order attempts its sessions in order, against one purse of cash,
  one set of holdings and one cap per instrument and session.
 */
module Simulator {
  import opened Options
  import opened Decimals
  import opened Contracts
  import opened Accounts
  import opened Ordering
  import opened Fills

  datatype Status = OpenAtHorizon | Done | Lapsed | Cancelled
  datatype Explanation = Nothing | Because(reason: Reason) | DayRemainderExpired | RemainderCancelled | IntentExpired

  datatype Order = Order(intent: Intent, binding: Binding, remaining: Dec, cumulative: Dec, fee: Dec,
                         status: Status, explanation: Explanation)

  /** An outcome is found by instrument, calendar, session, source and revision. */
  datatype Selector = Selector(instrument: Id, calendarId: Id, session: Date, source: Id, revision: nat)

  datatype Simulation = Simulation(policy: Policy, calendar: Calendar, horizon: Date, runId: Id, outcomes: map<Selector, Outcome>)

  /** One attempt of one order. */
  datatype Row = Row(session: Session, instrument: Id, intentId: Id)

  /** What the run changes: cash, holdings, caps left, orders, settled orders and fills so far. */
  datatype Book = Book(cash: Dec, holdings: map<Id, Dec>, caps: map<SlotKey, Dec>, orders: map<Id, Order>,
                       settled: set<Id>, fills: seq<Posting>)

  const MAX_ORDERS := 256
  const MAX_SESSIONS := 256
  const MAX_ATTEMPTS := 65536

  // ----- Inputs -----

  predicate ValidCalendar(c: Calendar) {
    && (forall d | d in c.schedule :: c.schedule[d].date == d)
    && (forall d | d in c.following :: c.following[d] > d && c.following[d] in c.schedule)
    && (forall d, e | d in c.schedule && e in c.schedule && d < e :: c.schedule[d].closeAt < c.schedule[e].closeAt)
  }

  function SelectorOf(o: Outcome): Selector { Selector(o.instrument, o.calendarId, o.session, o.source, o.revision) }

  predicate ValidOutcome(o: Outcome, c: Calendar) {
    && o.calendarId == c.id && o.session in c.schedule && c.schedule[o.session].closeAt == o.closeAt
    && o.closeAt < o.receivedAt && ValidReference(o.close)
  }

  predicate ValidSimulation(sim: Simulation) {
    && ValidPolicy(sim.policy) && ValidCalendar(sim.calendar) && sim.horizon in sim.calendar.schedule
    && forall k | k in sim.outcomes :: SelectorOf(sim.outcomes[k]) == k && ValidOutcome(sim.outcomes[k], sim.calendar)
  }

  predicate ValidOrder(sim: Simulation, i: Intent, b: Binding) {
    && ValidIntent(i) && BoundTo(i, b) && i.runId == sim.runId && i.calendarId == sim.calendar.id
  }

  // ----- Sessions of an order -----

  /** The witnessed sessions after one, up to the horizon and the expiry. */
  function SessionsAfter(c: Calendar, current: Session, horizon: Date, expires: Time): Option<seq<Session>>
    decreases horizon - current.date
  {
    if current.date >= horizon || current.closeAt >= expires then Some([])
    else
      var _ :- Need(current.date in c.following && c.following[current.date] in c.schedule);
      var next := c.schedule[c.following[current.date]];
      var _ :- Need(next.date > current.date);
      if next.date > horizon || next.closeAt > expires then Some([])
      else var rest :- SessionsAfter(c, next, horizon, expires); Some([next] + rest)
  }

  /** The sessions an order attempts; none if one it needs is not witnessed. */
  function AttemptSessions(sim: Simulation, o: Order): Option<seq<Session>> {
    var date := o.binding.firstSession;
    if V(o.remaining) <= 0.0 || date > sim.horizon then Some([])
    else
      var _ :- Need(date in sim.calendar.schedule);
      var first := sim.calendar.schedule[date];
      if first.closeAt > o.intent.expiresAt then Some([])
      else if o.intent.timeInForce != Gtc then Some([first])
      else
        var rest :- SessionsAfter(sim.calendar, first, sim.horizon, o.intent.expiresAt);
        var _ :- Need(1 + |rest| <= MAX_SESSIONS);
        Some([first] + rest)
  }

  /** The same sessions by stepping from each to the next. */
  method BuildAttemptSessions(sim: Simulation, o: Order) returns (r: Option<seq<Session>>)
    ensures r == AttemptSessions(sim, o)
  {
    hide V;
    var date := o.binding.firstSession;
    if V(o.remaining) <= 0.0 || date > sim.horizon { return Some([]); }
    if date !in sim.calendar.schedule { return None; }
    var current := sim.calendar.schedule[date];
    if current.closeAt > o.intent.expiresAt { return Some([]); }
    if o.intent.timeInForce != Gtc { return Some([current]); }
    var sessions := [current];
    ghost var all := SessionsAfter(sim.calendar, current, sim.horizon, o.intent.expiresAt);
    while current.date < sim.horizon && current.closeAt < o.intent.expiresAt
      invariant 1 <= |sessions|
      invariant var rest := SessionsAfter(sim.calendar, current, sim.horizon, o.intent.expiresAt);
        if all.None? then rest.None? else rest.Some? && [sim.calendar.schedule[date]] + all.value == sessions + rest.value
      decreases sim.horizon - current.date
    {
      if current.date !in sim.calendar.following || sim.calendar.following[current.date] !in sim.calendar.schedule { return None; }
      var next := sim.calendar.schedule[sim.calendar.following[current.date]];
      if next.date <= current.date { return None; }
      if next.date > sim.horizon || next.closeAt > o.intent.expiresAt { break; }
      sessions := sessions + [next];
      current := next;
    }
    assert all.Some? && [sim.calendar.schedule[date]] + all.value == sessions;
    if |sessions| > MAX_SESSIONS { return None; }
    return Some(sessions);
  }

  function RowsOf(sessions: seq<Session>, instrument: Id, intentId: Id): (r: seq<Row>)
    ensures |r| == |sessions| && forall k | 0 <= k < |r| :: r[k] == Row(sessions[k], instrument, intentId)
  {
    seq(|sessions|, k requires 0 <= k < |sessions| => Row(sessions[k], instrument, intentId))
  }

  /** The attempts of all orders, order by order. */
  function AllRows(sim: Simulation, orders: map<Id, Order>, ids: seq<Id>): Option<seq<Row>>
    requires forall i | i in ids :: i in orders
  {
    if ids == [] then Some([])
    else
      var sessions :- AttemptSessions(sim, orders[ids[0]]);
      var rest :- AllRows(sim, orders, ids[1..]);
      Some(RowsOf(sessions, orders[ids[0]].intent.instrument, ids[0]) + rest)
  }

  /** Attempts run by session, then instrument, then intent. */
  predicate RowBefore(x: Row, y: Row) {
    x.session.date < y.session.date
    || (x.session.date == y.session.date
        && (x.instrument < y.instrument || (x.instrument == y.instrument && x.intentId <= y.intentId)))
  }

  // ----- One attempt -----

  function Left(sim: Simulation, book: Book, key: SlotKey): Dec {
    if key in book.caps then book.caps[key] else sim.policy.shareCap
  }

  function Holds(holdings: map<Id, Dec>, instrument: Id): Dec {
    if instrument in holdings then holdings[instrument] else ZERO
  }

  function Stored(holdings: map<Id, Dec>, instrument: Id, shares: Dec): map<Id, Dec> {
    if V(shares) == 0.0 then holdings - {instrument} else holdings[instrument := shares]
  }

  function AttemptOf(sim: Simulation, book: Book, o: Order, outcome: Outcome, key: SlotKey): Attempt {
    Attempt(o.intent, outcome, sim.policy, o.binding, o.remaining, o.cumulative, book.cash,
            Holds(book.holdings, key.0), Left(sim, book, key))
  }

  /** Cash, shares and the order's own figures after a fill, each checked against its range. */
  datatype Booking = Booking(cash: Dec, shares: Dec, remaining: Dec, cumulative: Dec, fee: Dec)

  function Charge(book: Book, o: Order, f: Fill): Option<Booking> {
    var notional := Mul(f.quantity, f.price);
    var held := Holds(book.holdings, o.intent.instrument);
    var cash :- Checked(Sub(if o.intent.side == Buy then Sub(book.cash, notional) else Add(book.cash, notional), f.fee), Money, false);
    var shares :- Checked(if o.intent.side == Buy then Add(held, f.quantity) else Sub(held, f.quantity), Holding, false);
    var remaining :- Checked(Sub(o.remaining, f.quantity), Quantity, false);
    var cumulative :- Checked(Add(o.cumulative, f.quantity), Quantity, false);
    var fee :- Checked(Add(o.fee, f.fee), Money, false);
    Some(Booking(cash, shares, remaining, cumulative, fee))
  }

  /** An order that was not completed: good-till-cancelled stays open, the others end. */
  function Unfinished(o: Order, why: Explanation): Order {
    if o.intent.timeInForce == Gtc then o.(status := OpenAtHorizon, explanation := why)
    else if o.intent.timeInForce == Day then o.(status := Lapsed, explanation := DayRemainderExpired)
    else o.(status := Cancelled, explanation := RemainderCancelled)
  }

  function Settled(book: Book, o: Order): Book {
    var id := o.intent.intentId;
    book.(orders := book.orders[id := o],
          settled := if o.status == OpenAtHorizon then book.settled else book.settled + {id})
  }

  function PostBooking(sim: Simulation, book: Book, o: Order, outcome: Outcome, key: SlotKey, f: Fill, b: Booking): Book {
    var after := o.(remaining := b.remaining, cumulative := b.cumulative, fee := b.fee);
    var done := if V(b.remaining) == 0.0 then after.(status := Done, explanation := Nothing) else Unfinished(after, Nothing);
    Settled(book.(cash := b.cash, holdings := Stored(book.holdings, key.0, b.shares),
                  caps := book.caps[key := Sub(Left(sim, book, key), f.quantity)],
                  fills := book.fills + [Posting(o.intent, f, o.binding, outcome, sim.policy)]), done)
  }

  function TryRow(sim: Simulation, book: Book, row: Row): Option<Book> {
    var o :- Lookup(book.orders, row.intentId);
    if o.status != OpenAtHorizon || row.intentId in book.settled then Some(book)
    else if row.session.closeAt < o.intent.earliestSubmit then
      Some(Settled(book, if o.intent.timeInForce == Gtc then o.(explanation := Because(NotYetEligible))
                         else o.(status := Lapsed, explanation := Because(NotYetEligible))))
    else
      var key := (row.instrument, row.session.date);
      var outcome :- Lookup(sim.outcomes, Selector(row.instrument, o.intent.calendarId, row.session.date,
                                                   o.intent.outcomeSource, o.intent.outcomeRevision));
      var decision :- Simulate(AttemptOf(sim, book, o, outcome, key));
      match decision
      case NoFill(reason) => Some(Settled(book, Unfinished(o, Because(reason))))
      case Filled(f) => var b :- Charge(book, o, f); Some(PostBooking(sim, book, o, outcome, key, f, b))
  }

  function TryRows(sim: Simulation, book: Book, rows: seq<Row>): Option<Book>
    decreases |rows|
  {
    if rows == [] then Some(book)
    else var next :- TryRow(sim, book, rows[0]); TryRows(sim, next, rows[1..])
  }

  // ----- The run -----

  predicate DistinctOrders(orders: seq<(Intent, Binding)>) {
    forall i, j | 0 <= i < j < |orders| :: orders[i].0.intentId != orders[j].0.intentId
  }

  /** Every order at the start: all of it remaining. */
  function Fresh(orders: seq<(Intent, Binding)>): map<Id, Order> {
    if orders == [] then map[]
    else
      var (intent, binding) := orders[|orders| - 1];
      Fresh(orders[..|orders| - 1])[intent.intentId := Order(intent, binding, intent.quantity, ZERO, ZERO, OpenAtHorizon, Nothing)]
  }

  predicate ValidHoldings(holdings: map<Id, Dec>) { forall i | i in holdings :: InRange(holdings[i], Holding) }

  /** The last close an order attempted. */
  function LastClose(rows: seq<Row>, intentId: Id): Option<Time> {
    if rows == [] then None
    else if rows[|rows| - 1].intentId == intentId then Some(rows[|rows| - 1].session.closeAt)
    else LastClose(rows[..|rows| - 1], intentId)
  }

  /** An order still open whose life ended by its last attempt or the horizon has expired. */
  function Expiry(sim: Simulation, rows: seq<Row>, o: Order): Order
    requires sim.horizon in sim.calendar.schedule
  {
    var first, last := o.binding.firstSession, LastClose(rows, o.intent.intentId);
    if o.status != OpenAtHorizon || first > sim.horizon || first !in sim.calendar.schedule then o
    else if o.intent.expiresAt < sim.calendar.schedule[first].closeAt || (last.Some? && o.intent.expiresAt <= last.value)
            || o.intent.expiresAt <= sim.calendar.schedule[sim.horizon].closeAt
    then o.(status := Lapsed, explanation := IntentExpired)
    else o
  }

  function Schedule(sim: Simulation, orders: map<Id, Order>): Option<seq<Row>> {
    var rows :- AllRows(sim, orders, Ordered(orders.Keys));
    var _ :- Need(|rows| <= MAX_ATTEMPTS);
    Some(SortBy(rows, RowBefore))
  }

  function Start(orders: seq<(Intent, Binding)>, cash: Dec, holdings: map<Id, Dec>): Book
    requires DistinctOrders(orders)
  {
    Book(cash, holdings, map[], Fresh(orders), {}, [])
  }

  /** The whole run; none when an input is rejected or an attempt has no outcome. */
  function Run(sim: Simulation, orders: seq<(Intent, Binding)>, cash: Dec, holdings: map<Id, Dec>): Option<Book> {
    var _ :- Need(ValidSimulation(sim) && |orders| <= MAX_ORDERS && DistinctOrders(orders));
    var _ :- Need(forall p | p in orders :: ValidOrder(sim, p.0, p.1));
    var _ :- Need(InRange(cash, Money) && ValidHoldings(holdings));
    var book := Start(orders, cash, holdings);
    var rows :- Schedule(sim, book.orders);
    var done :- TryRows(sim, book, rows);
    Some(done.(orders := map k | k in done.orders :: Expiry(sim, rows, done.orders[k]),
               holdings := map i | i in done.holdings && V(done.holdings[i]) > 0.0 :: done.holdings[i]))
  }
}
