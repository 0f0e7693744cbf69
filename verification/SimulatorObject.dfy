/**
  The simulator as the loops it is: attempts gathered order by order, sorted, and tried one by
  one against cash, holdings, caps and orders changed in place.
 */
module SimulatorObject {
  import opened Options
  import opened Decimals
  import opened Contracts
  import opened Accounts
  import opened Ordering
  import opened Fills
  import opened Simulator

  class BatchRun {
    const sim: Simulation
    var cash: Dec
    var holdings: map<Id, Dec>
    var capRemaining: map<SlotKey, Dec>
    var orders: map<Id, Order>
    var terminal: set<Id>
    var fills: seq<Posting>

    function Now(): Book
      reads this
    {
      Book(cash, holdings, capRemaining, orders, terminal, fills)
    }

    constructor (sim: Simulation, start: Book)
      ensures this.sim == sim && Now() == start
    {
      this.sim := sim;
      cash, holdings, capRemaining := start.cash, start.holdings, start.caps;
      orders, terminal, fills := start.orders, start.settled, start.fills;
    }

    /** Stores an order; one that is no longer open attempts nothing more. */
    method Store(o: Order)
      modifies this`orders, this`terminal
      ensures Now() == Settled(old(Now()), o)
    {
      orders := orders[o.intent.intentId := o];
      if o.status != OpenAtHorizon { terminal := terminal + {o.intent.intentId}; }
    }

    /** Tries one attempt. */
    method Try(row: Row) returns (ok: bool)
      modifies this
      ensures ok == TryRow(sim, old(Now()), row).Some?
      ensures ok ==> Now() == TryRow(sim, old(Now()), row).value
    {
      hide V, Simulate, Charge, Sub, Unfinished;
      if row.intentId !in orders { return false; }
      var o := orders[row.intentId];
      if o.status != OpenAtHorizon || row.intentId in terminal { return true; }
      if row.session.closeAt < o.intent.earliestSubmit {
        Store(if o.intent.timeInForce == Gtc then o.(explanation := Because(NotYetEligible))
              else o.(status := Lapsed, explanation := Because(NotYetEligible)));
        return true;
      }
      var key := (row.instrument, row.session.date);
      var cap := if key in capRemaining then capRemaining[key] else sim.policy.shareCap;
      var selector := Selector(row.instrument, o.intent.calendarId, row.session.date, o.intent.outcomeSource, o.intent.outcomeRevision);
      if selector !in sim.outcomes { return false; }
      var outcome := sim.outcomes[selector];
      var available := Holds(holdings, row.instrument);
      var decision := SimulateSession(Attempt(o.intent, outcome, sim.policy, o.binding, o.remaining, o.cumulative, cash, available, cap));
      if decision.None? { return false; }
      match decision.value {
      case NoFill(reason) => Store(Unfinished(o, Because(reason)));
      case Filled(f) =>
        var charged := Charge(Now(), o, f);
        if charged.None? { return false; }
        var b := charged.value;
        cash := b.cash;
        holdings := Stored(holdings, row.instrument, b.shares);
        capRemaining := capRemaining[key := Sub(cap, f.quantity)];
        fills := fills + [Posting(o.intent, f, o.binding, outcome, sim.policy)];
        o := o.(remaining := b.remaining, cumulative := b.cumulative, fee := b.fee);
        Store(if V(b.remaining) == 0.0 then o.(status := Done, explanation := Nothing) else Unfinished(o, Nothing));
      }
      return true;
    }
  }

  /** The attempts of all orders in the order they run. */
  method GatherRows(sim: Simulation, orders: map<Id, Order>) returns (r: Option<seq<Row>>)
    ensures r == Schedule(sim, orders)
  {
    hide AttemptSessions, RowBefore, RowsOf, Ordered, SortBy, AllRows;
    var ids := Ordered(orders.Keys);
    var rows: seq<Row> := [];
    NoRows(sim, orders);
    for i := 0 to |ids|
      invariant Gathered(sim, orders, ids, i, rows)
    {
      assert ids[i] in ids;
      NextRows(sim, orders, ids, i, rows);
      var sessions := BuildAttemptSessions(sim, orders[ids[i]]);
      if sessions.None? { return None; }
      rows := rows + RowsOf(sessions.value, orders[ids[i]].intent.instrument, ids[i]);
    }
    assert ids[|ids|..] == [] && rows + [] == rows;
    if |rows| > MAX_ATTEMPTS { return None; }
    return Some(SortBy(rows, RowBefore));
  }

  /** The rows of the first orders are gathered: with those of the rest they are all rows. */
  ghost predicate Gathered(sim: Simulation, orders: map<Id, Order>, ids: seq<Id>, i: nat, rows: seq<Row>)
    requires i <= |ids| && forall k | k in ids :: k in orders
  {
    AllRows(sim, orders, ids) == match AllRows(sim, orders, ids[i..]) case None => None case Some(rest) => Some(rows + rest)
  }

  lemma NoRows(sim: Simulation, orders: map<Id, Order>)
    ensures AllRows(sim, orders, []) == Some([])
    ensures forall ids: seq<Id> | forall k | k in ids :: k in orders :: Gathered(sim, orders, ids, 0, [])
  {
    forall ids: seq<Id> | forall k | k in ids :: k in orders ensures Gathered(sim, orders, ids, 0, []) {
      assert ids[0..] == ids;
      hide AllRows;
      if AllRows(sim, orders, ids).Some? { assert [] + AllRows(sim, orders, ids).value == AllRows(sim, orders, ids).value; }
    }
  }

  lemma NextRows(sim: Simulation, orders: map<Id, Order>, ids: seq<Id>, i: nat, rows: seq<Row>)
    requires i < |ids| && (forall k | k in ids :: k in orders) && Gathered(sim, orders, ids, i, rows)
    ensures var sessions := AttemptSessions(sim, orders[ids[i]]);
      if sessions.None? then AllRows(sim, orders, ids).None?
      else Gathered(sim, orders, ids, i + 1, rows + RowsOf(sessions.value, orders[ids[i]].intent.instrument, ids[i]))
  {
    hide AttemptSessions, RowsOf;
    var tail := ids[i..];
    assert tail[0] == ids[i] && tail[1..] == ids[i + 1..];
    var sessions := AttemptSessions(sim, orders[ids[i]]);
    if sessions.Some? && AllRows(sim, orders, ids[i + 1..]).Some? {
      var head, rest := RowsOf(sessions.value, orders[ids[i]].intent.instrument, ids[i]), AllRows(sim, orders, ids[i + 1..]).value;
      assert rows + (head + rest) == (rows + head) + rest;
    }
  }

  /** The whole run. */
  method RunBatch(sim: Simulation, orders: seq<(Intent, Binding)>, cash: Dec, holdings: map<Id, Dec>) returns (r: Option<Book>)
    ensures r == Run(sim, orders, cash, holdings)
  {
    hide V, ValidSimulation, ValidOrder, InRange, TryRow, Schedule, Expiry, Fresh;
    if !ValidSimulation(sim) || |orders| > MAX_ORDERS || !DistinctOrders(orders) { return None; }
    if exists p | p in orders :: !ValidOrder(sim, p.0, p.1) { return None; }
    if !InRange(cash, Money) || !ValidHoldings(holdings) { return None; }
    HorizonScheduled(sim);
    var start := Start(orders, cash, holdings);
    var gathered := GatherRows(sim, start.orders);
    if gathered.None? { return None; }
    var rows := gathered.value;
    var run := new BatchRun(sim, start);
    for i := 0 to |rows|
      invariant run.sim == sim && TryRows(sim, run.Now(), rows[i..]) == TryRows(sim, start, rows)
    {
      assert rows[i..][0] == rows[i] && rows[i..][1..] == rows[i + 1..];
      var ok := run.Try(rows[i]);
      if !ok { return None; }
    }
    assert TryRows(sim, start, rows) == Some(run.Now());
    run.orders := map k | k in run.orders :: Expiry(sim, rows, run.orders[k]);
    run.holdings := map i | i in run.holdings && V(run.holdings[i]) > 0.0 :: run.holdings[i];
    return Some(run.Now());
  }

  lemma HorizonScheduled(sim: Simulation)
    requires ValidSimulation(sim)
    ensures sim.horizon in sim.calendar.schedule
  {
    hide V, ValidPolicy, ValidOutcome, ValidCalendar;
  }
}
