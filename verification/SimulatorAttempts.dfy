/**
  What a run attempts and what each attempt does, said without the way it is computed: which
  sessions an order tries, which rows the schedule has, and how the fills of a run arise one
  attempt after another from nothing but the fills before.
 */
module SimulatorAttempts {
  import opened Options
  import opened Decimals
  import opened Contracts
  import opened Accounts
  import opened Ordering
  import opened Fills
  import opened Simulator
  import opened SimulatorProofs
  import opened SimulatorRows

  // ----- Sessions of an order -----

  /** The session right after another, where the calendar witnesses it. */
  predicate Succeeds(c: Calendar, s: Session, t: Session) {
    s.date in c.following && c.following[s.date] in c.schedule && t == c.schedule[c.following[s.date]]
  }

  /** The session lies within the horizon and the life of the order. */
  predicate InReach(s: Session, horizon: Date, expires: Time) { s.date <= horizon && s.closeAt <= expires }

  /** Nothing more to attempt after this session: it is the last in reach, or its successor is out of reach. */
  ghost predicate Stops(c: Calendar, s: Session, horizon: Date, expires: Time) {
    s.date == horizon || s.closeAt == expires || exists t :: Succeeds(c, s, t) && !InReach(t, horizon, expires)
  }

  /** Sessions in reach, each right after the one before, up to where they stop. */
  ghost predicate Stretch(c: Calendar, ss: seq<Session>, horizon: Date, expires: Time) {
    && ss != [] && Stops(c, ss[|ss| - 1], horizon, expires)
    && (forall k | 0 <= k < |ss| :: ss[k].date in c.schedule && c.schedule[ss[k].date] == ss[k] && InReach(ss[k], horizon, expires))
    && forall k | 0 <= k < |ss| - 1 :: Succeeds(c, ss[k], ss[k + 1])
  }

  /**
    The sessions an order attempts: none if nothing is left of it or its first session is out of
    reach; otherwise the first one, and for a good-till-cancelled order all up to the stop.
   */
  ghost predicate Attempts(sim: Simulation, o: Order, ss: seq<Session>) {
    var c, first, expires := sim.calendar, o.binding.firstSession, o.intent.expiresAt;
    if ss == [] then V(o.remaining) <= 0.0 || first > sim.horizon || (first in c.schedule && c.schedule[first].closeAt > expires)
    else
      && V(o.remaining) > 0.0 && ss[0].date == first
      && (o.intent.timeInForce == Gtc ==> Stretch(c, ss, sim.horizon, expires) && |ss| <= 256)
      && (o.intent.timeInForce != Gtc ==> |ss| == 1 && first in c.schedule && ss[0] == c.schedule[first] && InReach(ss[0], sim.horizon, expires))
  }

  lemma {:induction false} AfterStretches(c: Calendar, current: Session, horizon: Date, expires: Time, rest: seq<Session>)
    requires ValidCalendar(c) && current.date in c.schedule && c.schedule[current.date] == current && InReach(current, horizon, expires)
    requires SessionsAfter(c, current, horizon, expires) == Some(rest)
    ensures Stretch(c, [current] + rest, horizon, expires)
    decreases horizon - current.date
  {
    var ss := [current] + rest;
    if current.date < horizon && current.closeAt < expires {
      var next := c.schedule[c.following[current.date]];
      assert Succeeds(c, current, next);
      if InReach(next, horizon, expires) {
        AfterStretches(c, next, horizon, expires, rest[1..]);
        var tail := [next] + rest[1..];
        assert rest == tail;
        hide SessionsAfter, InReach, Stops;
        forall k | 0 <= k < |ss|
          ensures ss[k].date in c.schedule && c.schedule[ss[k].date] == ss[k] && InReach(ss[k], horizon, expires)
          ensures k < |ss| - 1 ==> Succeeds(c, ss[k], ss[k + 1])
        {
          if k > 0 { assert ss[k] == tail[k - 1]; }
        }
      }
    }
  }

  lemma {:induction false} StretchIsAfter(c: Calendar, ss: seq<Session>, horizon: Date, expires: Time)
    requires ValidCalendar(c) && Stretch(c, ss, horizon, expires)
    ensures SessionsAfter(c, ss[0], horizon, expires) == Some(ss[1..])
    decreases |ss|
  {
    if |ss| > 1 {
      assert Succeeds(c, ss[0], ss[1]) && InReach(ss[1], horizon, expires);
      var tail := ss[1..];
      forall k | 0 <= k < |tail| - 1 ensures Succeeds(c, tail[k], tail[k + 1]) { assert Succeeds(c, ss[k + 1], ss[k + 2]); }
      assert Stretch(c, tail, horizon, expires);
      StretchIsAfter(c, tail, horizon, expires);
      assert [ss[1]] + tail[1..] == tail;
    }
  }

  lemma FirstAlone(sim: Simulation, o: Order, ss: seq<Session>)
    requires ValidCalendar(sim.calendar) && o.intent.timeInForce != Gtc
    ensures AttemptSessions(sim, o) == Some(ss) <==> Attempts(sim, o, ss)
  {
    hide V, ValidCalendar;
    var c, date := sim.calendar, o.binding.firstSession;
    if date in c.schedule { ScheduledOn(c, date); }
    assert |ss| == 1 ==> ss == [ss[0]];
  }

  /** An order attempts exactly these sessions. */
  lemma AttemptsAre(sim: Simulation, o: Order, ss: seq<Session>)
    requires ValidCalendar(sim.calendar)
    ensures AttemptSessions(sim, o) == Some(ss) <==> Attempts(sim, o, ss)
  {
    hide V, ValidCalendar;
    var c, date, expires := sim.calendar, o.binding.firstSession, o.intent.expiresAt;
    if o.intent.timeInForce != Gtc {
      FirstAlone(sim, o, ss);
    } else if date in c.schedule {
      var first := c.schedule[date];
      ScheduledOn(c, date);
      if ss != [] { assert ss == [ss[0]] + ss[1..]; }
      if ss != [] && Stretch(c, ss, sim.horizon, expires) && ss[0].date == date { StretchIsAfter(c, ss, sim.horizon, expires); }
      var after := SessionsAfter(c, first, sim.horizon, expires);
      if InReach(first, sim.horizon, expires) && after.Some? { AfterStretches(c, first, sim.horizon, expires, after.value); }
      hide SessionsAfter, Stops, Succeeds;
    }
  }

  lemma ScheduledOn(c: Calendar, date: Date)
    requires ValidCalendar(c) && date in c.schedule
    ensures c.schedule[date].date == date
  {
  }

  /** From each session of a stretch on, every scheduled session in reach is in it. */
  lemma {:induction false} StretchCovers(c: Calendar, ss: seq<Session>, horizon: Date, expires: Time, k: nat, d: Date)
    requires ValidCalendar(c) && NextScheduled(c) && Stretch(c, ss, horizon, expires) && k < |ss|
    requires d in c.schedule && ss[k].date <= d && InReach(c.schedule[d], horizon, expires)
    ensures c.schedule[d] in ss
    decreases |ss| - k
  {
    if ss[k].date < d {
      if k < |ss| - 1 {
        assert Succeeds(c, ss[k], ss[k + 1]);
        StretchCovers(c, ss, horizon, expires, k + 1, d);
      }
    } else {
      assert ss[k] == c.schedule[d];
    }
  }

  /**
    Where the calendar witnesses successors without gaps, a good-till-cancelled order with
    something left attempts every scheduled session from its first up to horizon and expiry.
   */
  lemma GtcAttemptsAll(sim: Simulation, o: Order, ss: seq<Session>, s: Session)
    requires ValidCalendar(sim.calendar) && NextScheduled(sim.calendar) && AttemptSessions(sim, o) == Some(ss)
    requires o.intent.timeInForce == Gtc && V(o.remaining) > 0.0
    ensures s in ss <==>
      && s.date in sim.calendar.schedule && sim.calendar.schedule[s.date] == s
      && o.binding.firstSession <= s.date <= sim.horizon && s.closeAt <= o.intent.expiresAt
  {
    hide V, AttemptSessions;
    var c := sim.calendar;
    AttemptsAre(sim, o, ss);
    if ss != [] {
      if s in ss { StretchAdvances(c, ss, sim.horizon, o.intent.expiresAt, s); }
      if s.date in c.schedule && c.schedule[s.date] == s && ss[0].date <= s.date && InReach(s, sim.horizon, o.intent.expiresAt) {
        StretchCovers(c, ss, sim.horizon, o.intent.expiresAt, 0, s.date);
      }
    }
    hide Stretch, NextScheduled;
  }

  lemma StretchAdvances(c: Calendar, ss: seq<Session>, horizon: Date, expires: Time, s: Session)
    requires ValidCalendar(c) && Stretch(c, ss, horizon, expires) && s in ss
    ensures ss[0].date <= s.date
  {
    var k :| 0 <= k < |ss| && ss[k] == s;
    StretchIsAfter(c, ss, horizon, expires);
    SessionsAdvance(c, ss[0], horizon, expires);
    if k > 0 { assert ss[k] == ss[1..][k - 1]; }
  }

  // ----- The schedule -----

  /** A row names an order, its instrument and a session the order attempts. */
  ghost predicate IsRow(sim: Simulation, orders: map<Id, Order>, row: Row) {
    && row.intentId in orders && row.instrument == orders[row.intentId].intent.instrument
    && exists ss :: Attempts(sim, orders[row.intentId], ss) && row.session in ss
  }

  lemma {:induction false} AllRowsAre(sim: Simulation, orders: map<Id, Order>, ids: seq<Id>, all: seq<Row>, row: Row)
    requires ValidCalendar(sim.calendar) && (forall i | i in ids :: i in orders) && AllRows(sim, orders, ids) == Some(all)
    ensures row in all <==> row.intentId in ids && IsRow(sim, orders, row)
  {
    if ids != [] {
      hide AttemptSessions, Attempts;
      var o := orders[ids[0]];
      var ss, rest := AttemptSessions(sim, o).value, AllRows(sim, orders, ids[1..]).value;
      AllRowsAre(sim, orders, ids[1..], rest, row);
      var head := RowsOf(ss, o.intent.instrument, ids[0]);
      assert all == head + rest;
      assert row in all <==> row in head || row in rest;
      RowOfSession(ss, o.intent.instrument, ids[0], row);
      AttemptsAre(sim, o, ss);
      forall other | Attempts(sim, o, other) ensures other == ss { AttemptsAre(sim, o, other); }
      hide RowsOf, AllRows;
    }
  }

  lemma RowOfSession(ss: seq<Session>, instrument: Id, id: Id, row: Row)
    ensures row in RowsOf(ss, instrument, id) <==> row.intentId == id && row.instrument == instrument && row.session in ss
  {
    var rows := RowsOf(ss, instrument, id);
    if row.intentId == id && row.instrument == instrument && row.session in ss {
      var k :| 0 <= k < |ss| && ss[k] == row.session;
      assert rows[k] == row;
    }
  }

  lemma {:induction false} AllRowsWitnessed(sim: Simulation, orders: map<Id, Order>, ids: seq<Id>)
    requires ValidCalendar(sim.calendar) && forall i | i in ids :: i in orders
    ensures AllRows(sim, orders, ids).Some? <==> forall i | i in ids :: exists ss :: Attempts(sim, orders[i], ss)
  {
    if ids != [] {
      hide AttemptSessions, Attempts;
      var o := orders[ids[0]];
      AllRowsWitnessed(sim, orders, ids[1..]);
      if AttemptSessions(sim, o).Some? { AttemptsAre(sim, o, AttemptSessions(sim, o).value); }
      forall ss | Attempts(sim, o, ss) ensures AttemptSessions(sim, o).Some? { AttemptsAre(sim, o, ss); }
      assert ids == [ids[0]] + ids[1..];
      hide RowsOf;
    }
  }

  /** The schedule holds exactly the rows of the attempts, in time order and each once. */
  lemma ScheduleIs(sim: Simulation, orders: map<Id, Order>, rows: seq<Row>)
    requires ValidCalendar(sim.calendar) && Schedule(sim, orders) == Some(rows)
    ensures forall row :: row in rows <==> IsRow(sim, orders, row)
    ensures Chronological(rows) && |rows| <= 65536
  {
    hide IsRow, AllRows, ValidCalendar, Scheduled, Chronological, Ordered, RowBefore;
    ScheduleFits(sim, orders);
    ScheduleIsChronological(sim, orders);
    var ids := Ordered(orders.Keys);
    var all := AllRows(sim, orders, ids).value;
    SameElements(all, rows);
    forall row ensures row in rows <==> IsRow(sim, orders, row) {
      AllRowsAre(sim, orders, ids, all, row);
      RowNamesOrder(sim, orders, row);
    }
  }

  lemma RowNamesOrder(sim: Simulation, orders: map<Id, Order>, row: Row)
    ensures IsRow(sim, orders, row) ==> row.intentId in orders
  {
    hide Attempts;
  }

  /** There is a schedule if every order's sessions are witnessed, unless it would have too many rows. */
  lemma ScheduleExists(sim: Simulation, orders: map<Id, Order>)
    requires ValidCalendar(sim.calendar)
    ensures Schedule(sim, orders).Some? ==> forall i | i in orders :: exists ss :: Attempts(sim, orders[i], ss)
    ensures Schedule(sim, orders).None? ==>
      || (exists i :: i in orders && forall ss :: !Attempts(sim, orders[i], ss))
      || exists rows: seq<Row> :: |rows| > 65536 && NoRepeats(rows) && forall row | row in rows :: IsRow(sim, orders, row)
  {
    hide Attempts, IsRow, AllRows, ValidCalendar, Scheduled, RowBefore, NoRepeats;
    var ids := Ordered(orders.Keys);
    AllRowsWitnessed(sim, orders, ids);
    if AllRows(sim, orders, ids).Some? {
      var all := AllRows(sim, orders, ids).value;
      RowsDiffer(sim, orders, ids);
      forall row | row in all ensures IsRow(sim, orders, row) { AllRowsAre(sim, orders, ids, all, row); }
    }
  }

  // ----- The attempts of a run -----

  /** What the fills so far leave an order, and the cash, shares and cap it has for its next attempt. */
  predicate Faces(sim: Simulation, cash: Dec, holdings: map<Id, Dec>, before: seq<Posting>, row: Row, a: Attempt) {
    && a.policy == sim.policy && Lookup(sim.outcomes, RowSelector(a.intent, row)) == Some(a.outcome)
    && V(a.remaining) == V(a.intent.quantity) - OrderShares(before, row.intentId)
    && V(a.cumulative) == OrderShares(before, row.intentId)
    && V(a.cash) == V(cash) - Spent(before)
    && V(a.shares) == V(Holds(holdings, row.instrument)) + Acquired(before, row.instrument)
    && V(a.cap) == V(sim.policy.shareCap) - SlotShares(before, (row.instrument, row.session.date))
  }

  /** Nothing is left of the order, or it is too early for it. */
  predicate Passed(before: seq<Posting>, row: Row, i: Intent) {
    OrderShares(before, row.intentId) == V(i.quantity) || row.session.closeAt < i.earliestSubmit
  }

  /** One attempt adds the fill that the fill model decides on, if any; an order with anything left is always attempted. */
  ghost predicate Attempted(sim: Simulation, cash: Dec, holdings: map<Id, Dec>, i: Intent, binding: Binding, row: Row,
                            before: seq<Posting>, after: seq<Posting>) {
    if Passed(before, row, i) then after == before
    else exists a: Attempt, d: Decision ::
      && a.intent == i && a.binding == binding && Faces(sim, cash, holdings, before, row, a) && Simulate(a) == Some(d)
      && after == match d case NoFill(_) => before case Filled(f) => before + [Posting(i, f, binding, a.outcome, sim.policy)]
  }

  /** The fills before and after each row, from none to all. */
  ghost predicate Played(sim: Simulation, cash: Dec, holdings: map<Id, Dec>, orders: map<Id, Order>, rows: seq<Row>, fills: seq<seq<Posting>>) {
    && |fills| == |rows| + 1
    && forall k | 0 <= k < |rows| :: rows[k].intentId in orders
         && Attempted(sim, cash, holdings, orders[rows[k].intentId].intent, orders[rows[k].intentId].binding, rows[k], fills[k], fills[k + 1])
  }

  /** Orders yet to be attempted are open unless nothing is left of them. */
  ghost predicate OpenOrders(book: Book, rows: seq<Row>) {
    forall k | 0 <= k < |rows| && rows[k].intentId in book.orders ::
      var o := book.orders[rows[k].intentId]; o.status == OpenAtHorizon || V(o.remaining) == 0.0
  }

  /** Only good-till-cancelled orders have more than one row. */
  ghost predicate OnceUnlessGtc(book: Book, rows: seq<Row>) {
    forall j, k | 0 <= j < k < |rows| && rows[j].intentId == rows[k].intentId && rows[j].intentId in book.orders ::
      book.orders[rows[j].intentId].intent.timeInForce == Gtc
  }

  lemma AttemptFaces(sim: Simulation, cash: Dec, holdings: map<Id, Dec>, book: Book, row: Row, outcome: Outcome)
    requires Conserves(sim, cash, holdings, book) && RowFits(book, row)
    requires Lookup(sim.outcomes, RowSelector(book.orders[row.intentId].intent, row)) == Some(outcome)
    ensures var a := AttemptOf(sim, book, book.orders[row.intentId], outcome, (row.instrument, row.session.date));
      Faces(sim, cash, holdings, book.fills, row, a) && a.intent == book.orders[row.intentId].intent && a.binding == book.orders[row.intentId].binding
  {
    hide V, InRange, OrderShares, SlotShares, Spent, Acquired, Holds, FeeDue, ValidOrder;
    var o, key := book.orders[row.intentId], (row.instrument, row.session.date);
    assert OrderHolds(sim, book, row.intentId) && SlotHolds(sim, book, key);
    AttemptParts(sim, book, o, outcome, key);
    LeftIs(sim, book, key);
    hide AttemptOf, OrderHolds, SlotHolds;
  }

  lemma LeftIs(sim: Simulation, book: Book, key: SlotKey)
    requires SlotHolds(sim, book, key)
    ensures V(Left(sim, book, key)) == V(sim.policy.shareCap) - SlotShares(book.fills, key)
  {
    hide V, InRange, SlotShares;
  }

  /** What an order's record says of its fills. */
  lemma PassedIs(sim: Simulation, book: Book, row: Row)
    requires row.intentId in book.orders && OrderHolds(sim, book, row.intentId)
    ensures var o := book.orders[row.intentId];
      && (OrderShares(book.fills, row.intentId) == V(o.intent.quantity) <==> V(o.remaining) == 0.0)
      && (o.status == Done <==> V(o.remaining) == 0.0) && (o.status != OpenAtHorizon <==> row.intentId in book.settled)
      && o.intent.intentId == row.intentId
  {
    hide V, InRange, OrderShares, FeeDue, ValidOrder;
  }

  lemma PassedCases(before: seq<Posting>, row: Row, i: Intent)
    ensures Passed(before, row, i) <==> OrderShares(before, row.intentId) == V(i.quantity) || row.session.closeAt < i.earliestSubmit
  {
    hide V, OrderShares;
  }

  lemma AttemptedIs(sim: Simulation, cash: Dec, holdings: map<Id, Dec>, row: Row, before: seq<Posting>, after: seq<Posting>, a: Attempt, d: Decision)
    requires !Passed(before, row, a.intent) && Faces(sim, cash, holdings, before, row, a) && Simulate(a) == Some(d)
    requires after == match d case NoFill(_) => before case Filled(f) => before + [Posting(a.intent, f, a.binding, a.outcome, sim.policy)]
    ensures Attempted(sim, cash, holdings, a.intent, a.binding, row, before, after)
  {
    hide Faces, Simulate, Passed;
  }

  lemma SettledFills(book: Book, o: Order)
    ensures Settled(book, o).fills == book.fills
  {
  }

  /** One row of the run is one such attempt. */
  lemma RowAttempts(sim: Simulation, cash: Dec, holdings: map<Id, Dec>, book: Book, row: Row, next: Book)
    requires ValidSimulation(sim) && Conserves(sim, cash, holdings, book) && RowFits(book, row) && TryRow(sim, book, row) == Some(next)
    requires book.orders[row.intentId].status == OpenAtHorizon || V(book.orders[row.intentId].remaining) == 0.0
    ensures var o := book.orders[row.intentId]; Attempted(sim, cash, holdings, o.intent, o.binding, row, book.fills, next.fills)
  {
    hide *;
    FitsIs(book, row);
    RowCases(sim, book, row, next);
    ConservesIs(sim, cash, holdings, book);
    PassedIs(sim, book, row);
    var o := book.orders[row.intentId];
    PassedCases(book.fills, row, o.intent);
    var key, selector := (row.instrument, row.session.date), RowSelector(o.intent, row);
    if o.status != OpenAtHorizon || row.intentId in book.settled {
      PassedAttempts(sim, cash, holdings, o.intent, o.binding, row, book.fills);
    } else if row.session.closeAt < o.intent.earliestSubmit {
      SettledFills(book, if o.intent.timeInForce == Gtc then o.(explanation := Because(NotYetEligible))
                         else o.(status := Lapsed, explanation := Because(NotYetEligible)));
      PassedAttempts(sim, cash, holdings, o.intent, o.binding, row, book.fills);
    } else {
      var outcome := sim.outcomes[selector];
      LookupIs(sim.outcomes, selector, outcome);
      AttemptFaces(sim, cash, holdings, book, row, outcome);
      var a := AttemptOf(sim, book, o, outcome, key);
      AttemptParts(sim, book, o, outcome, key);
      var d := Simulate(a).value;
      match d {
        case NoFill(reason) => SettledFills(book, Unfinished(o, Because(reason)));
        case Filled(f) => PostedParts(sim, book, o, outcome, key, f, Charge(book, o, f).value);
      }
      AttemptedIs(sim, cash, holdings, row, book.fills, next.fills, a, d);
    }
  }

  lemma PassedAttempts(sim: Simulation, cash: Dec, holdings: map<Id, Dec>, i: Intent, binding: Binding, row: Row, fills: seq<Posting>)
    requires Passed(fills, row, i)
    ensures Attempted(sim, cash, holdings, i, binding, row, fills, fills)
  {
    hide Passed, Faces, Simulate;
  }

  /** A row settles no order but its own, and a good-till-cancelled one only by filling it. */
  lemma RowSettles(sim: Simulation, book: Book, row: Row, next: Book)
    requires RowFits(book, row) && OrderHolds(sim, book, row.intentId) && TryRow(sim, book, row) == Some(next)
    ensures forall id | id in book.orders && id != row.intentId :: id in next.orders && next.orders[id] == book.orders[id]
    ensures row.intentId in next.orders && next.orders[row.intentId].intent == book.orders[row.intentId].intent
    ensures var o, n := book.orders[row.intentId], next.orders[row.intentId];
      o.intent.timeInForce == Gtc && (o.status == OpenAtHorizon || V(o.remaining) == 0.0) ==> n.status == OpenAtHorizon || V(n.remaining) == 0.0
  {
    hide V, InRange, OrderShares, FeeDue, ValidOrder, Simulate, Charge, Left, Stored, Sub;
    hide AttemptOf;
  }

  lemma OpenKept(sim: Simulation, book: Book, rows: seq<Row>, next: Book)
    requires rows != [] && RowFits(book, rows[0]) && OrderHolds(sim, book, rows[0].intentId) && TryRow(sim, book, rows[0]) == Some(next)
    requires OpenOrders(book, rows) && OnceUnlessGtc(book, rows) && SameIntents(book, next)
    ensures OpenOrders(next, rows[1..]) && OnceUnlessGtc(next, rows[1..])
  {
    hide OrderHolds, TryRow, RowFits, V;
    RowSettles(sim, book, rows[0], next);
    FitsIs(book, rows[0]);
    var rest := rows[1..];
    forall k | 0 <= k < |rest| && rest[k].intentId in next.orders
      ensures var o := next.orders[rest[k].intentId]; o.status == OpenAtHorizon || V(o.remaining) == 0.0
    {
      var id := rest[k].intentId;
      assert rest[k] == rows[k + 1];
      assert book.orders[id].status == OpenAtHorizon || V(book.orders[id].remaining) == 0.0;
      if id == rows[0].intentId {
        assert book.orders[rows[0].intentId].intent.timeInForce == Gtc;
      }
    }
    forall j, k | 0 <= j < k < |rest| && rest[j].intentId == rest[k].intentId && rest[j].intentId in next.orders
      ensures next.orders[rest[j].intentId].intent.timeInForce == Gtc
    {
      assert rest[j] == rows[j + 1] && rest[k] == rows[k + 1];
      assert book.orders[rows[j + 1].intentId].intent.timeInForce == Gtc;
    }
  }

  /** The fills of some rows, one attempt after another. */
  lemma {:induction false} RowsPlay(sim: Simulation, cash: Dec, holdings: map<Id, Dec>, book: Book, rows: seq<Row>, done: Book)
    returns (fills: seq<seq<Posting>>)
    requires ValidSimulation(sim) && Conserves(sim, cash, holdings, book) && TryRows(sim, book, rows) == Some(done)
    requires (forall row | row in rows :: RowFits(book, row)) && OpenOrders(book, rows) && OnceUnlessGtc(book, rows)
    ensures Played(sim, cash, holdings, book.orders, rows, fills) && fills[0] == book.fills && fills[|rows|] == done.fills
    decreases |rows|
  {
    hide ValidSimulation, Conserves, TryRow, Attempted, RowFits, OrderHolds, V;
    if rows == [] {
      fills := [book.fills];
    } else {
      var next := TryRow(sim, book, rows[0]).value;
      ConservesIs(sim, cash, holdings, book);
      FitsIs(book, rows[0]);
      RowConserves(sim, cash, holdings, book, rows[0], next);
      RowAttempts(sim, cash, holdings, book, rows[0], next);
      OpenKept(sim, book, rows, next);
      forall row | row in rows[1..] ensures RowFits(next, row) { StillFits(book, row, next); }
      var rest := RowsPlay(sim, cash, holdings, next, rows[1..], done);
      fills := [book.fills] + rest;
      PlayedFirst(sim, cash, holdings, book, next, rows, fills, rest);
    }
  }

  lemma StillFits(book: Book, row: Row, next: Book)
    requires RowFits(book, row) && SameIntents(book, next)
    ensures RowFits(next, row)
  {
  }

  lemma PlayedFirst(sim: Simulation, cash: Dec, holdings: map<Id, Dec>, book: Book, next: Book, rows: seq<Row>, fills: seq<seq<Posting>>, rest: seq<seq<Posting>>)
    requires rows != [] && SameIntents(book, next) && fills == [book.fills] + rest && Played(sim, cash, holdings, next.orders, rows[1..], rest)
    requires rest[0] == next.fills && rows[0].intentId in book.orders
    requires var o := book.orders[rows[0].intentId]; Attempted(sim, cash, holdings, o.intent, o.binding, rows[0], book.fills, next.fills)
    ensures Played(sim, cash, holdings, book.orders, rows, fills)
  {
    hide Attempted;
    forall k | 0 <= k < |rows|
      ensures rows[k].intentId in book.orders
        && Attempted(sim, cash, holdings, book.orders[rows[k].intentId].intent, book.orders[rows[k].intentId].binding, rows[k], fills[k], fills[k + 1])
    {
      if k > 0 { assert rows[k] == rows[1..][k - 1] && fills[k] == rest[k - 1] && fills[k + 1] == rest[k]; }
    }
  }

  lemma FreshIsOpen(orders: seq<(Intent, Binding)>, cash: Dec, holdings: map<Id, Dec>, rows: seq<Row>)
    requires DistinctOrders(orders)
    ensures OpenOrders(Start(orders, cash, holdings), rows)
  {
    hide V, Fresh;
    forall k | 0 <= k < |rows| && rows[k].intentId in Fresh(orders) ensures Fresh(orders)[rows[k].intentId].status == OpenAtHorizon {
      FreshOrders(orders, rows[k].intentId);
    }
  }

  /** Rows that name one order only once unless it is good-till-cancelled. */
  lemma OneRowUnlessGtc(sim: Simulation, book: Book, rows: seq<Row>)
    requires ValidCalendar(sim.calendar) && Schedule(sim, book.orders) == Some(rows)
    ensures OnceUnlessGtc(book, rows)
  {
    hide ValidCalendar, Schedule;
    ScheduleIs(sim, book.orders, rows);
    forall j, k | 0 <= j < k < |rows| && rows[j].intentId == rows[k].intentId && rows[j].intentId in book.orders
      ensures book.orders[rows[j].intentId].intent.timeInForce == Gtc
    {
      assert rows[j] in rows && rows[k] in rows;
      if book.orders[rows[j].intentId].intent.timeInForce != Gtc { FirstOnly(sim, book.orders, rows[j], rows[k]); }
    }
  }

  lemma FirstOnly(sim: Simulation, orders: map<Id, Order>, x: Row, y: Row)
    requires IsRow(sim, orders, x) && IsRow(sim, orders, y) && x.intentId == y.intentId && orders[x.intentId].intent.timeInForce != Gtc
    ensures x.session.date == y.session.date
  {
    hide V, Stretch;
  }

  /**
    The fills of a run: the rows of all attempts, in time order, each facing exactly what the
    fills before it have left of cash, shares, cap and order, add the fill that the fill model
    then decides on.
   */
  lemma RunIsItsAttempts(sim: Simulation, orders: seq<(Intent, Binding)>, cash: Dec, holdings: map<Id, Dec>, r: Book)
    returns (rows: seq<Row>, fills: seq<seq<Posting>>)
    requires Run(sim, orders, cash, holdings) == Some(r)
    ensures Chronological(rows) && forall row :: row in rows <==> IsRow(sim, Fresh(orders), row)
    ensures Played(sim, cash, holdings, Fresh(orders), rows, fills) && fills[0] == [] && fills[|rows|] == r.fills
  {
    hide Run, ValidSimulation, ValidOrder, TryRows, Schedule, Conserves, V, InRange, IsRow, Played, Chronological, Fresh, Expiry, ValidHoldings;
    var done;
    rows, done := RunParts(sim, orders, cash, holdings, r);
    var book := Start(orders, cash, holdings);
    CalendarOf(sim);
    ScheduleIs(sim, Fresh(orders), rows);
    StartConserves(sim, orders, cash, holdings);
    FinishedConserves(sim, cash, holdings, orders, rows, done);
    FreshIsOpen(orders, cash, holdings, rows);
    OneRowUnlessGtc(sim, book, rows);
    fills := RowsPlay(sim, cash, holdings, book, rows, done);
  }

  lemma CalendarOf(sim: Simulation)
    requires ValidSimulation(sim)
    ensures ValidCalendar(sim.calendar)
  {
    hide V, ValidPolicy, ValidCalendar, ValidOutcome;
  }

  /** What the attempt of a row is, where the fill model decides. */
  lemma AttemptedWith(sim: Simulation, cash: Dec, holdings: map<Id, Dec>, i: Intent, binding: Binding, row: Row, before: seq<Posting>, after: seq<Posting>)
    returns (a: Attempt, d: Decision)
    requires Attempted(sim, cash, holdings, i, binding, row, before, after) && !Passed(before, row, i)
    ensures a.intent == i && a.binding == binding && Faces(sim, cash, holdings, before, row, a) && Simulate(a) == Some(d)
    ensures after == match d case NoFill(_) => before case Filled(f) => before + [Posting(i, f, binding, a.outcome, sim.policy)]
  {
    hide Faces, Simulate, Passed;
    a, d :| a.intent == i && a.binding == binding && Faces(sim, cash, holdings, before, row, a) && Simulate(a) == Some(d)
            && after == match d case NoFill(_) => before case Filled(f) => before + [Posting(i, f, binding, a.outcome, sim.policy)];
  }

  lemma SimulatedIs(a: Attempt, d: Decision)
    requires Simulate(a) == Some(d)
    ensures Decide(a) == Some(d) && (d.Filled? ==> ValidFill(d.fill, a.intent, a.outcome, a.policy, a.binding, a.remaining, a.cumulative))
    ensures ValidAttempt(a)
  {
    hide Decide, ValidFill, ValidAttempt;
    DecidedIsValid(a);
  }

  lemma ValidIsPriced(p: Posting, remaining: Dec, cumulative: Dec)
    requires ValidFill(p.fill, p.intent, p.outcome, p.policy, p.binding, remaining, cumulative)
    ensures Priced(p)
  {
    hide V, AdversePrice, FloorLots, LotQuantity, FeeDue, ValidPolicy, ValidReference, Priced;
    AdverseIsPriced(p);
  }

  lemma AttemptedPriced(sim: Simulation, cash: Dec, holdings: map<Id, Dec>, i: Intent, binding: Binding, row: Row, before: seq<Posting>, after: seq<Posting>)
    requires Attempted(sim, cash, holdings, i, binding, row, before, after) && forall p | p in before :: Priced(p)
    ensures forall p | p in after :: Priced(p)
  {
    hide Simulate, Passed, Faces, Priced, ValidFill;
    if !Passed(before, row, i) {
      var a, d := AttemptedWith(sim, cash, holdings, i, binding, row, before, after);
      SimulatedIs(a, d);
      FacesPolicy(sim, cash, holdings, before, row, a);
      if d.Filled? { ValidIsPriced(Posting(i, d.fill, binding, a.outcome, sim.policy), a.remaining, a.cumulative); }
    }
  }

  lemma FacesPolicy(sim: Simulation, cash: Dec, holdings: map<Id, Dec>, before: seq<Posting>, row: Row, a: Attempt)
    requires Faces(sim, cash, holdings, before, row, a)
    ensures a.policy == sim.policy && Lookup(sim.outcomes, RowSelector(a.intent, row)) == Some(a.outcome)
  {
    hide V, OrderShares, Spent, Acquired, SlotShares;
  }

  lemma {:induction false} PlayedPriced(sim: Simulation, cash: Dec, holdings: map<Id, Dec>, orders: map<Id, Order>, rows: seq<Row>, fills: seq<seq<Posting>>, k: nat)
    requires Played(sim, cash, holdings, orders, rows, fills) && fills[0] == [] && k <= |rows|
    ensures forall p | p in fills[k] :: Priced(p)
  {
    hide Attempted, Priced;
    if k > 0 {
      PlayedPriced(sim, cash, holdings, orders, rows, fills, k - 1);
      var o := orders[rows[k - 1].intentId];
      AttemptedPriced(sim, cash, holdings, o.intent, o.binding, rows[k - 1], fills[k - 1], fills[k]);
    }
  }

  /** Every purchase of a run pays spread and slippage on top of the reference price, every sale pays them out of it. */
  lemma RunIsPriced(sim: Simulation, orders: seq<(Intent, Binding)>, cash: Dec, holdings: map<Id, Dec>, r: Book)
    requires Run(sim, orders, cash, holdings) == Some(r)
    ensures forall p | p in r.fills :: Priced(p)
  {
    hide Run, Played, Priced, Fresh, IsRow, Chronological;
    var rows, fills := RunIsItsAttempts(sim, orders, cash, holdings, r);
    PlayedPriced(sim, cash, holdings, Fresh(orders), rows, fills, |rows|);
  }

  /** The outcome of a row closes with its session. */
  lemma RowCloses(sim: Simulation, row: Row, i: Intent, outcome: Outcome)
    requires ValidSimulation(sim) && row.session.date in sim.calendar.schedule && sim.calendar.schedule[row.session.date] == row.session
    requires Lookup(sim.outcomes, RowSelector(i, row)) == Some(outcome)
    ensures outcome.closeAt == row.session.closeAt
  {
    hide V, ValidPolicy, ValidReference, ValidCalendar;
    assert ValidOutcome(outcome, sim.calendar);
  }

  lemma RowIsScheduled(sim: Simulation, orders: map<Id, Order>, row: Row)
    requires ValidCalendar(sim.calendar) && IsRow(sim, orders, row)
    ensures row.session.date in sim.calendar.schedule && sim.calendar.schedule[row.session.date] == row.session
    ensures row.session.closeAt <= orders[row.intentId].intent.expiresAt
  {
    hide V, Stops, ValidCalendar;
    var o := orders[row.intentId];
    var ss :| Attempts(sim, o, ss) && row.session in ss;
  }

  /**
    At each row, a purchase that need not be all-or-nothing and has something left, at a session
    not too early for it, takes the greatest number of lots that order, cap and cash allow then, at
    a price within its limit; it goes without exactly when there is no such number.
   */
  lemma RunBuysMost(sim: Simulation, cash: Dec, holdings: map<Id, Dec>, orders: map<Id, Order>, rows: seq<Row>, fills: seq<seq<Posting>>, k: nat)
    returns (a: Attempt)
    requires ValidSimulation(sim) && Played(sim, cash, holdings, orders, rows, fills) && k < |rows| && IsRow(sim, orders, rows[k])
    requires var i := orders[rows[k].intentId].intent;
      i.side == Buy && i.timeInForce != Fok && OrderShares(fills[k], rows[k].intentId) != V(i.quantity) && rows[k].session.closeAt >= i.earliestSubmit
    ensures a.intent == orders[rows[k].intentId].intent && Faces(sim, cash, holdings, fills[k], rows[k], a)
    ensures if Marketable(a.intent, Price(a)) && exists n: nat :: Optimal(a, n)
      then exists n: nat, p: Posting :: Optimal(a, n) && p.intent == a.intent && p.fill.quantity == LotsOf(a, n) && fills[k + 1] == fills[k] + [p]
      else fills[k + 1] == fills[k]
  {
    hide V, Simulate, Faces, Played, IsRow, Attempted, Decide, Optimal, LotsOf, Marketable, Price, ValidSimulation, OrderShares, ValidAttempt;
    PlayedAt(sim, cash, holdings, orders, rows, fills, k);
    var row, o := rows[k], orders[rows[k].intentId];
    PassedCases(fills[k], row, o.intent);
    var d;
    a, d := AttemptedWith(sim, cash, holdings, o.intent, o.binding, row, fills[k], fills[k + 1]);
    SimulatedIs(a, d);
    FacesPolicy(sim, cash, holdings, fills[k], row, a);
    CalendarOf(sim);
    RowIsScheduled(sim, orders, row);
    RowCloses(sim, row, o.intent, a.outcome);
    BuyFills(a);
    BuyIsOptimal(a);
    if d.Filled? {
      var n: nat :| d.fill.quantity == LotsOf(a, n) && Optimal(a, n);
      var p := Posting(o.intent, d.fill, o.binding, a.outcome, sim.policy);
      assert Optimal(a, n) && p.intent == a.intent && p.fill.quantity == LotsOf(a, n) && fills[k + 1] == fills[k] + [p];
    }
  }

  lemma PlayedAt(sim: Simulation, cash: Dec, holdings: map<Id, Dec>, orders: map<Id, Order>, rows: seq<Row>, fills: seq<seq<Posting>>, k: nat)
    requires Played(sim, cash, holdings, orders, rows, fills) && k < |rows|
    ensures |fills| == |rows| + 1 && rows[k].intentId in orders
    ensures var o := orders[rows[k].intentId]; Attempted(sim, cash, holdings, o.intent, o.binding, rows[k], fills[k], fills[k + 1])
  {
    hide Attempted;
  }

  // ----- How orders end -----

  /** The order after its attempts: filled, open if it was not attempted or is good-till-cancelled, and otherwise over. */
  function StatusAfter(o: Order, tried: bool, early: bool): Status {
    if V(o.remaining) == 0.0 then Done
    else if !tried || o.intent.timeInForce == Gtc then OpenAtHorizon
    else if early || o.intent.timeInForce == Day then Lapsed
    else Cancelled
  }

  predicate OrderKey(book: Book, id: Id) { id in book.orders && book.orders[id].intent.intentId == id }

  /** One attempt of an open order decides its status. */
  lemma RowStatus(sim: Simulation, book: Book, row: Row, next: Book)
    requires RowFits(book, row) && OrderKey(book, row.intentId) && TryRow(sim, book, row) == Some(next)
    requires book.orders[row.intentId].status == OpenAtHorizon && V(book.orders[row.intentId].remaining) != 0.0 && row.intentId !in book.settled
    ensures row.intentId in next.orders
    ensures next.orders[row.intentId].status
         == StatusAfter(next.orders[row.intentId], true, row.session.closeAt < book.orders[row.intentId].intent.earliestSubmit)
  {
    hide V, InRange, OrderShares, FeeDue, ValidOrder, Simulate, Charge, Left, Stored, Sub, AttemptOf;
  }

  /** Whether an order has a row among these, and whether that was too early for it. */
  predicate Tried(rows: seq<Row>, id: Id) { exists row :: row in rows && row.intentId == id }

  predicate Early(rows: seq<Row>, i: Intent) { exists row :: row in rows && row.intentId == i.intentId && row.session.closeAt < i.earliestSubmit }

  lemma {:induction false} RowsElsewhere(sim: Simulation, book: Book, rows: seq<Row>, done: Book, id: Id)
    requires TryRows(sim, book, rows) == Some(done) && id in book.orders && !Tried(rows, id)
    requires forall row | row in rows :: RowFits(book, row) && OrderKey(book, row.intentId)
    ensures id in done.orders && done.orders[id] == book.orders[id]
    decreases |rows|
  {
    hide TryRow;
    if rows != [] {
      var next := TryRow(sim, book, rows[0]).value;
      RowElsewhere(sim, book, rows[0], next);
      assert rows[0] in rows && rows[0].intentId != id;
      forall row | row in rows[1..] ensures RowFits(next, row) && OrderKey(next, row.intentId) { assert RowFits(book, row) && OrderKey(book, row.intentId); }
      assert !Tried(rows[1..], id);
      RowsElsewhere(sim, next, rows[1..], done, id);
    }
  }

  lemma RowElsewhere(sim: Simulation, book: Book, row: Row, next: Book)
    requires RowFits(book, row) && OrderKey(book, row.intentId) && TryRow(sim, book, row) == Some(next)
    ensures forall id | id in book.orders && id != row.intentId :: id in next.orders && next.orders[id] == book.orders[id]
    ensures forall id | id != row.intentId :: id in next.settled <==> id in book.settled
    ensures row.intentId in book.orders && row.intentId in next.orders && next.orders[row.intentId].intent == book.orders[row.intentId].intent
  {
    hide V, Simulate, Charge, Left, Stored, Sub, AttemptOf;
  }

  lemma {:induction false} GtcStays(sim: Simulation, book: Book, rows: seq<Row>, done: Book, id: Id)
    requires TryRows(sim, book, rows) == Some(done) && OrderKey(book, id) && book.orders[id].intent.timeInForce == Gtc
    requires forall row | row in rows :: RowFits(book, row) && OrderKey(book, row.intentId)
    requires book.orders[id].status == OpenAtHorizon || book.orders[id].status == Done
    ensures id in done.orders && (done.orders[id].status == OpenAtHorizon || done.orders[id].status == Done)
    decreases |rows|
  {
    hide TryRow;
    if rows != [] {
      var next := TryRow(sim, book, rows[0]).value;
      assert rows[0] in rows;
      RowElsewhere(sim, book, rows[0], next);
      if rows[0].intentId == id { GtcRow(sim, book, rows[0], next); }
      forall row | row in rows[1..] ensures RowFits(next, row) && OrderKey(next, row.intentId) { assert RowFits(book, row) && OrderKey(book, row.intentId); }
      GtcStays(sim, next, rows[1..], done, id);
    }
  }

  lemma GtcRow(sim: Simulation, book: Book, row: Row, next: Book)
    requires RowFits(book, row) && OrderKey(book, row.intentId) && TryRow(sim, book, row) == Some(next)
    requires book.orders[row.intentId].intent.timeInForce == Gtc
    requires book.orders[row.intentId].status == OpenAtHorizon || book.orders[row.intentId].status == Done
    ensures row.intentId in next.orders && (next.orders[row.intentId].status == OpenAtHorizon || next.orders[row.intentId].status == Done)
  {
    hide V, Simulate, Charge, Left, Stored, Sub, AttemptOf;
  }

  /** An order attempted once: its only row decides. */
  lemma {:induction false} OnceEnds(sim: Simulation, book: Book, rows: seq<Row>, done: Book, k: nat)
    requires TryRows(sim, book, rows) == Some(done) && k < |rows|
    requires forall row | row in rows :: RowFits(book, row) && OrderKey(book, row.intentId)
    requires rows[k].intentId in book.orders
    requires book.orders[rows[k].intentId].status == OpenAtHorizon && V(book.orders[rows[k].intentId].remaining) != 0.0
    requires rows[k].intentId !in book.settled
    requires forall j | 0 <= j < |rows| && j != k :: rows[j].intentId != rows[k].intentId
    ensures var id, i := rows[k].intentId, book.orders[rows[k].intentId].intent;
      id in done.orders && done.orders[id].status == StatusAfter(done.orders[id], true, rows[k].session.closeAt < i.earliestSubmit)
    decreases |rows|
  {
    hide TryRow, V, RowFits, OrderKey, StatusAfter;
    var next := TryRow(sim, book, rows[0]).value;
    assert rows[0] in rows && rows[k] in rows;
    RowElsewhere(sim, book, rows[0], next);
    forall row | row in rows[1..] ensures RowFits(next, row) && OrderKey(next, row.intentId) { StillKeyed(book, rows[0], row, next); }
    if k == 0 {
      RowStatus(sim, book, rows[0], next);
      assert !Tried(rows[1..], rows[0].intentId);
      RowsElsewhere(sim, next, rows[1..], done, rows[0].intentId);
    } else {
      OnceEnds(sim, next, rows[1..], done, k - 1);
    }
  }

  lemma StillKeyed(book: Book, first: Row, row: Row, next: Book)
    requires RowFits(book, row) && OrderKey(book, row.intentId) && first.intentId in next.orders && first.intentId in book.orders
    requires forall id | id in book.orders && id != first.intentId :: id in next.orders && next.orders[id] == book.orders[id]
    requires next.orders[first.intentId].intent == book.orders[first.intentId].intent
    ensures RowFits(next, row) && OrderKey(next, row.intentId)
  {
  }

  /** The rest of an order's life: it lapses if it ends by the close of the horizon, unless its first session lies beyond. */
  predicate EndsByHorizon(sim: Simulation, o: Order) {
    && o.binding.firstSession <= sim.horizon && o.binding.firstSession in sim.calendar.schedule
    && sim.horizon in sim.calendar.schedule && o.intent.expiresAt <= sim.calendar.schedule[sim.horizon].closeAt
  }

  lemma ExpiryIs(sim: Simulation, rows: seq<Row>, o: Order)
    requires ValidSimulation(sim)
    requires forall row | row in rows :: Lookup(sim.calendar.schedule, row.session.date) == Some(row.session) && row.session.date <= sim.horizon
    ensures Expiry(sim, rows, o) == if o.status == OpenAtHorizon && EndsByHorizon(sim, o) then o.(status := Lapsed, explanation := IntentExpired) else o
  {
    hide V, ValidPolicy, ValidOutcome, LastClose;
    LastIsRow(rows, o.intent.intentId);
    CalendarOf(sim);
  }

  lemma {:induction false} LastIsRow(rows: seq<Row>, id: Id)
    ensures LastClose(rows, id).Some? ==> exists row :: row in rows && row.session.closeAt == LastClose(rows, id).value
  {
    if rows != [] {
      var n := |rows| - 1;
      assert rows[n] in rows;
      LastIsRow(rows[..n], id);
      assert forall row | row in rows[..n] :: row in rows;
    }
  }

  /** How an order ends, told by its own attempt, its kind and its expiry. */
  predicate EndsAs(sim: Simulation, rows: seq<Row>, o: Order) {
    if V(o.remaining) == 0.0 then o.status == Done
    else if o.intent.timeInForce == Gtc || !Tried(rows, o.intent.intentId) then o.status == if EndsByHorizon(sim, o) then Lapsed else OpenAtHorizon
    else if o.intent.timeInForce == Day || Early(rows, o.intent) then o.status == Lapsed
    else o.status == Cancelled
  }

  lemma FreshKey(orders: seq<(Intent, Binding)>, cash: Dec, holdings: map<Id, Dec>, id: Id)
    requires DistinctOrders(orders) && id in Fresh(orders) && forall p | p in orders :: ValidIntent(p.0)
    ensures var book := Start(orders, cash, holdings);
      && OrderKey(book, id) && book.orders[id].status == OpenAtHorizon && V(book.orders[id].remaining) != 0.0 && id !in book.settled
  {
    hide V, Fresh, InRange;
    FreshOrders(orders, id);
  }

  lemma TriedOnce(sim: Simulation, book: Book, rows: seq<Row>, id: Id) returns (k: nat)
    requires Chronological(rows) && OnceUnlessGtc(book, rows) && Tried(rows, id) && OrderKey(book, id) && book.orders[id].intent.timeInForce != Gtc
    ensures k < |rows| && rows[k].intentId == id && forall j | 0 <= j < |rows| && j != k :: rows[j].intentId != id
    ensures Early(rows, book.orders[id].intent) <==> rows[k].session.closeAt < book.orders[id].intent.earliestSubmit
  {
    var row :| row in rows && row.intentId == id;
    k :| 0 <= k < |rows| && rows[k] == row;
  }

  /** What the rows make of one order. */
  lemma OrderEnds(sim: Simulation, book: Book, rows: seq<Row>, done: Book, id: Id)
    requires TryRows(sim, book, rows) == Some(done) && Chronological(rows) && OnceUnlessGtc(book, rows)
    requires forall row | row in rows :: RowFits(book, row) && OrderKey(book, row.intentId)
    requires OrderKey(book, id) && book.orders[id].status == OpenAtHorizon && V(book.orders[id].remaining) != 0.0 && id !in book.settled
    requires id in done.orders && done.orders[id].intent == book.orders[id].intent
    ensures var was := done.orders[id];
      && (was.intent.timeInForce == Gtc || !Tried(rows, id) ==> was.status == OpenAtHorizon || was.status == Done)
      && (was.intent.timeInForce != Gtc && Tried(rows, id) ==> was.status == StatusAfter(was, true, Early(rows, was.intent)))
  {
    hide TryRows, Chronological, OnceUnlessGtc, V, RowFits, Tried, Early, StatusAfter;
    KeyIs(book, id);
    if book.orders[id].intent.timeInForce == Gtc {
      GtcStays(sim, book, rows, done, id);
    } else if Tried(rows, id) {
      var k := TriedOnce(sim, book, rows, id);
      OnceEnds(sim, book, rows, done, k);
    } else {
      RowsElsewhere(sim, book, rows, done, id);
    }
  }

  lemma KeyIs(book: Book, id: Id)
    requires OrderKey(book, id)
    ensures id in book.orders && book.orders[id].intent.intentId == id
  {
  }

  lemma RowInReach(sim: Simulation, orders: map<Id, Order>, row: Row)
    requires ValidCalendar(sim.calendar) && IsRow(sim, orders, row)
    ensures Lookup(sim.calendar.schedule, row.session.date) == Some(row.session) && row.session.date <= sim.horizon
  {
    hide V, Stops, ValidCalendar;
    var ss :| Attempts(sim, orders[row.intentId], ss) && row.session in ss;
  }

  lemma IntentsValid(sim: Simulation, orders: seq<(Intent, Binding)>)
    requires forall p | p in orders :: ValidOrder(sim, p.0, p.1)
    ensures forall p | p in orders :: ValidIntent(p.0)
  {
    hide ValidIntent, BoundTo;
  }

  lemma DoneIs(sim: Simulation, done: Book, id: Id)
    requires id in done.orders && OrderHolds(sim, done, id)
    ensures done.orders[id].status == Done <==> V(done.orders[id].remaining) == 0.0
  {
    hide V, InRange, OrderShares, FeeDue, ValidOrder;
  }

  lemma ExpiryKeeps(sim: Simulation, rows: seq<Row>, o: Order)
    requires sim.horizon in sim.calendar.schedule
    ensures Expiry(sim, rows, o).intent == o.intent && Expiry(sim, rows, o).binding == o.binding
  {
    hide LastClose;
  }

  lemma HorizonScheduled(sim: Simulation)
    requires ValidSimulation(sim)
    ensures sim.horizon in sim.calendar.schedule
  {
    hide V, ValidPolicy, ValidCalendar, ValidOutcome;
  }

  lemma StartIs(orders: seq<(Intent, Binding)>, cash: Dec, holdings: map<Id, Dec>)
    requires DistinctOrders(orders)
    ensures Start(orders, cash, holdings).orders == Fresh(orders)
  {
  }

  lemma StatusMeansEnd(sim: Simulation, rows: seq<Row>, was: Order, o: Order)
    requires o == (if was.status == OpenAtHorizon && EndsByHorizon(sim, was) then was.(status := Lapsed, explanation := IntentExpired) else was)
    requires was.status == Done <==> V(was.remaining) == 0.0
    requires was.intent.timeInForce == Gtc || !Tried(rows, was.intent.intentId) ==> was.status == OpenAtHorizon || was.status == Done
    requires was.intent.timeInForce != Gtc && Tried(rows, was.intent.intentId) ==> was.status == StatusAfter(was, true, Early(rows, was.intent))
    ensures EndsAs(sim, rows, o)
  {
    hide V, Tried, Early;
  }

  /**
    Every order of a run ends filled when nothing is left of it.  A good-till-cancelled one, or one
    that had no session, stays open or, if its life ends by the close of the horizon, lapses; a day
    order or one attempted too early lapses; any other is cancelled.
   */
  lemma RunEndsOrders(sim: Simulation, orders: seq<(Intent, Binding)>, cash: Dec, holdings: map<Id, Dec>, r: Book) returns (rows: seq<Row>)
    requires Run(sim, orders, cash, holdings) == Some(r)
    ensures forall row :: row in rows <==> IsRow(sim, Fresh(orders), row)
    ensures forall id | id in r.orders :: r.orders[id].intent.intentId == id && EndsAs(sim, rows, r.orders[id])
  {
    hide Run, ValidSimulation, ValidOrder, TryRows, Schedule, Conserves, V, InRange, IsRow, Chronological, Fresh, Expiry, ValidHoldings, EndsAs,
      Start, RowFits, OrderKey, Tried, Early, StatusAfter, EndsByHorizon, OrderHolds, OnceUnlessGtc, ValidIntent, ValidCalendar;
    var done;
    rows, done := RunParts(sim, orders, cash, holdings, r);
    HorizonScheduled(sim);
    var book := Start(orders, cash, holdings);
    StartIs(orders, cash, holdings);
    CalendarOf(sim);
    ScheduleIs(sim, Fresh(orders), rows);
    FinishedConserves(sim, cash, holdings, orders, rows, done);
    OneRowUnlessGtc(sim, book, rows);
    IntentsValid(sim, orders);
    ConservesIs(sim, cash, holdings, done);
    forall row | row in rows ensures RowFits(book, row) && OrderKey(book, row.intentId) && Lookup(sim.calendar.schedule, row.session.date) == Some(row.session)
      && row.session.date <= sim.horizon
    {
      RowNamesOrder(sim, Fresh(orders), row);
      FreshKey(orders, cash, holdings, row.intentId);
      RowInReach(sim, Fresh(orders), row);
    }
    forall id | id in r.orders ensures r.orders[id].intent.intentId == id && EndsAs(sim, rows, r.orders[id]) {
      FreshKey(orders, cash, holdings, id);
      KeyIs(book, id);
      OrderEnds(sim, book, rows, done, id);
      DoneIs(sim, done, id);
      ExpiryIs(sim, rows, done.orders[id]);
      StatusMeansEnd(sim, rows, done.orders[id], r.orders[id]);
      ExpiryKeeps(sim, rows, done.orders[id]);
    }
  }

  // ----- Orders of a run -----

  /** Each order is there under its identifier, with its intent and binding. */
  predicate HoldsOrders(m: map<Id, Order>, orders: seq<(Intent, Binding)>) {
    forall p | p in orders :: p.0.intentId in m && m[p.0.intentId].intent == p.0 && m[p.0.intentId].binding == p.1
  }

  lemma FreshLast(orders: seq<(Intent, Binding)>)
    requires orders != []
    ensures var last, init := orders[|orders| - 1], orders[..|orders| - 1];
      Fresh(orders) == Fresh(init)[last.0.intentId := Order(last.0, last.1, last.0.quantity, ZERO, ZERO, OpenAtHorizon, Nothing)]
  {
  }

  lemma HoldsOneMore(m: map<Id, Order>, init: seq<(Intent, Binding)>, last: (Intent, Binding), o: Order)
    requires HoldsOrders(m, init) && o.intent == last.0 && o.binding == last.1 && forall p | p in init :: p.0.intentId != last.0.intentId
    ensures HoldsOrders(m[last.0.intentId := o], init + [last])
  {
  }

  lemma LastIsNew(orders: seq<(Intent, Binding)>)
    requires orders != [] && DistinctOrders(orders)
    ensures DistinctOrders(orders[..|orders| - 1]) && forall p | p in orders[..|orders| - 1] :: p.0.intentId != orders[|orders| - 1].0.intentId
  {
  }

  lemma {:induction false} FreshNames(orders: seq<(Intent, Binding)>)
    ensures forall id | id in Fresh(orders) :: exists p :: p in orders && p.0.intentId == id
    decreases |orders|
  {
    if orders != [] {
      FreshLast(orders);
      hide Fresh;
      FreshNames(orders[..|orders| - 1]);
      assert orders[|orders| - 1] in orders;
      assert forall p | p in orders[..|orders| - 1] :: p in orders;
    }
  }

  lemma {:induction false} FreshHolds(orders: seq<(Intent, Binding)>)
    requires DistinctOrders(orders)
    ensures |Fresh(orders)| == |orders| && HoldsOrders(Fresh(orders), orders)
    decreases |orders|
  {
    if orders != [] {
      var init, last := orders[..|orders| - 1], orders[|orders| - 1];
      FreshLast(orders);
      LastIsNew(orders);
      FreshNames(init);
      hide Fresh, HoldsOrders, DistinctOrders;
      FreshHolds(init);
      HoldsOneMore(Fresh(init), init, last, Fresh(orders)[last.0.intentId]);
      MapGrowsByOne(Fresh(init), last.0.intentId, Fresh(orders)[last.0.intentId]);
      assert orders == init + [last];
    }
  }

  lemma MapGrowsByOne<K, T>(m: map<K, T>, k: K, x: T)
    requires k !in m
    ensures |m[k := x]| == |m| + 1
  {
    assert m[k := x].Keys == m.Keys + {k};
    assert |m[k := x]| == |m[k := x].Keys| && |m| == |m.Keys|;
  }

  /** A run ends with every order it was given, each once and with its own intent. */
  lemma RunKeepsOrders(sim: Simulation, orders: seq<(Intent, Binding)>, cash: Dec, holdings: map<Id, Dec>, r: Book)
    requires Run(sim, orders, cash, holdings) == Some(r)
    ensures |r.orders| == |orders|
    ensures forall p | p in orders :: p.0.intentId in r.orders && r.orders[p.0.intentId].intent == p.0 && r.orders[p.0.intentId].binding == p.1
  {
    hide Run, ValidSimulation, ValidOrder, TryRows, Schedule, Conserves, V, InRange, Fresh, Expiry, ValidHoldings;
    var rows, done := RunParts(sim, orders, cash, holdings, r);
    FinishedConserves(sim, cash, holdings, orders, rows, done);
    FreshHolds(orders);
    HorizonScheduled(sim);
    forall id | id in r.orders ensures r.orders[id].intent == Fresh(orders)[id].intent && r.orders[id].binding == Fresh(orders)[id].binding {
      ExpiryKeeps(sim, rows, done.orders[id]);
    }
    assert |r.orders| == |r.orders.Keys| && |Fresh(orders)| == |Fresh(orders).Keys|;
  }
}
