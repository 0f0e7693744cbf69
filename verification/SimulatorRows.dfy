/**
  The order of attempts: sessions of one order strictly advance, no attempt repeats, and the
  sorted rows run forward in time.
 */
module SimulatorRows {
  import opened Options
  import opened Decimals
  import opened Contracts
  import opened Accounts
  import opened Ordering
  import opened Fills
  import opened Simulator

  /** An attempt that comes before another: on an earlier day, or on that day by instrument and then by order. */
  predicate Earlier(x: Row, y: Row) {
    || x.session.date < y.session.date
    || (x.session.date == y.session.date && x.instrument < y.instrument)
    || (x.session.date == y.session.date && x.instrument == y.instrument && x.intentId < y.intentId)
  }

  /** Rows in time order and within a day by instrument and order, each order on strictly later sessions. */
  predicate Chronological(rows: seq<Row>) {
    forall i, j | 0 <= i < j < |rows| ::
      && Earlier(rows[i], rows[j])
      && rows[i].session.closeAt <= rows[j].session.closeAt
      && (rows[i].intentId == rows[j].intentId ==> rows[i].session.date < rows[j].session.date)
  }

  /** Sessions of the schedule, strictly advancing from a date. */
  predicate Advancing(c: Calendar, sessions: seq<Session>, from: Date) {
    && (forall k | 0 <= k < |sessions| :: sessions[k].date in c.schedule && c.schedule[sessions[k].date] == sessions[k] && from < sessions[k].date)
    && (forall i, j | 0 <= i < j < |sessions| :: sessions[i].date < sessions[j].date)
  }

  lemma {:induction false} SessionsAdvance(c: Calendar, current: Session, horizon: Date, expires: Time)
    requires ValidCalendar(c) && SessionsAfter(c, current, horizon, expires).Some?
    ensures Advancing(c, SessionsAfter(c, current, horizon, expires).value, current.date)
    decreases horizon - current.date
  {
    if current.date < horizon && current.closeAt < expires {
      var next := c.schedule[c.following[current.date]];
      if next.date <= horizon && next.closeAt <= expires { SessionsAdvance(c, next, horizon, expires); }
    }
  }

  lemma AttemptsAdvance(sim: Simulation, o: Order)
    requires ValidCalendar(sim.calendar) && AttemptSessions(sim, o).Some?
    ensures Advancing(sim.calendar, AttemptSessions(sim, o).value, o.binding.firstSession - 1)
  {
    hide V;
    var date := o.binding.firstSession;
    if V(o.remaining) > 0.0 && date <= sim.horizon {
      var first := sim.calendar.schedule[date];
      if first.closeAt <= o.intent.expiresAt && o.intent.timeInForce == Gtc {
        SessionsAdvance(sim.calendar, first, sim.horizon, o.intent.expiresAt);
      }
    }
  }

  predicate NoRepeats(rows: seq<Row>) { forall i, j | 0 <= i < j < |rows| :: rows[i] != rows[j] }

  /** Rows name sessions of the schedule. */
  predicate Scheduled(c: Calendar, rows: seq<Row>) {
    forall row | row in rows :: row.session.date in c.schedule && c.schedule[row.session.date] == row.session
  }

  lemma NoRepeatsAcross(head: seq<Row>, tail: seq<Row>, id: Id)
    requires NoRepeats(head) && NoRepeats(tail)
    requires (forall row | row in head :: row.intentId == id) && forall row | row in tail :: row.intentId != id
    ensures NoRepeats(head + tail)
  {
    var all := head + tail;
    forall i, j | 0 <= i < j < |all| ensures all[i] != all[j] {
      if i < |head| {
        assert all[i] in head;
        if j >= |head| { assert all[j] in tail; }
      } else {
        assert all[i] == tail[i - |head|] && all[j] == tail[j - |head|];
      }
    }
  }

  lemma {:induction false} RowsDiffer(sim: Simulation, orders: map<Id, Order>, ids: seq<Id>)
    requires ValidCalendar(sim.calendar) && (forall i | i in ids :: i in orders) && AllRows(sim, orders, ids).Some?
    requires forall i, j | 0 <= i < j < |ids| :: ids[i] < ids[j]
    ensures NoRepeats(AllRows(sim, orders, ids).value) && Scheduled(sim.calendar, AllRows(sim, orders, ids).value)
    ensures forall row | row in AllRows(sim, orders, ids).value :: row.intentId in ids
  {
    if ids != [] {
      hide AttemptSessions;
      var sessions := AttemptSessions(sim, orders[ids[0]]).value;
      AttemptsAdvance(sim, orders[ids[0]]);
      RowsDiffer(sim, orders, ids[1..]);
      var head, tail := RowsOf(sessions, orders[ids[0]].intent.instrument, ids[0]), AllRows(sim, orders, ids[1..]).value;
      assert forall row | row in tail :: row.intentId != ids[0];
      hide AllRows, RowsOf, ValidCalendar;
      NoRepeatsAcross(head, tail, ids[0]);
    }
  }

  lemma {:induction false} CountOnce(xs: seq<Row>, x: Row)
    requires NoRepeats(xs)
    ensures multiset(xs)[x] <= 1
  {
    if xs != [] {
      var n := |xs| - 1;
      CountOnce(xs[..n], x);
      assert xs == xs[..n] + [xs[n]];
      assert xs[n] !in xs[..n];
    }
  }

  lemma CountTwice(xs: seq<Row>, i: nat, j: nat)
    requires i < j < |xs| && xs[i] == xs[j]
    ensures multiset(xs)[xs[i]] >= 2
  {
    assert xs == xs[..j] + [xs[j]] + xs[j + 1..];
    assert xs[i] in xs[..j];
  }

  lemma RowOrderIsTotal()
    ensures TotalOrder(RowBefore)
  {
  }

  /** The intent of a row decides its instrument. */
  predicate OneInstrument(rows: seq<Row>) {
    forall x, y | x in rows && y in rows && x.intentId == y.intentId :: x.instrument == y.instrument
  }

  lemma SortedInTime(c: Calendar, x: Row, y: Row)
    requires ValidCalendar(c) && RowBefore(x, y) && x.session.date in c.schedule && y.session.date in c.schedule
    requires c.schedule[x.session.date] == x.session && c.schedule[y.session.date] == y.session
    ensures x.session.closeAt <= y.session.closeAt
    ensures x.intentId == y.intentId && x.instrument == y.instrument && x.session.date >= y.session.date ==> x == y
    ensures x == y || Earlier(x, y)
  {
  }

  lemma SortedRows(c: Calendar, all: seq<Row>, rows: seq<Row>)
    requires ValidCalendar(c) && Scheduled(c, rows) && OneInstrument(rows) && NoRepeats(all)
    requires multiset(rows) == multiset(all) && Sorted(rows, RowBefore)
    ensures Chronological(rows)
  {
    hide ValidCalendar, RowBefore;
    forall i, j | 0 <= i < j < |rows|
      ensures Earlier(rows[i], rows[j])
      ensures rows[i].session.closeAt <= rows[j].session.closeAt
      ensures rows[i].intentId == rows[j].intentId ==> rows[i].session.date < rows[j].session.date
    {
      var x, y := rows[i], rows[j];
      assert RowBefore(x, y) && x in rows && y in rows;
      SortedInTime(c, x, y);
      if x == y {
        CountTwice(rows, i, j);
        CountOnce(all, x);
      }
    }
  }

  lemma SameElements(xs: seq<Row>, ys: seq<Row>)
    requires multiset(xs) == multiset(ys)
    ensures forall x :: x in xs <==> x in ys
  {
    forall x ensures x in xs <==> x in ys { assert x in xs <==> x in multiset(xs); assert x in ys <==> x in multiset(ys); }
  }

  /** The schedule of a run is chronological, and every row is a session of the calendar. */
  lemma ScheduleIsChronological(sim: Simulation, orders: map<Id, Order>)
    requires ValidCalendar(sim.calendar) && Schedule(sim, orders).Some?
    requires forall row | row in Schedule(sim, orders).value ::
      row.intentId in orders && row.instrument == orders[row.intentId].intent.instrument
    ensures Chronological(Schedule(sim, orders).value) && Scheduled(sim.calendar, Schedule(sim, orders).value)
  {
    var all := AllRows(sim, orders, Ordered(orders.Keys)).value;
    var rows := SortBy(all, RowBefore);
    assert Schedule(sim, orders) == Some(rows);
    RowsDiffer(sim, orders, Ordered(orders.Keys));
    RowOrderIsTotal();
    SortBySorts(all, RowBefore);
    hide AllRows, Ordered, Schedule, ValidCalendar, RowBefore, NoRepeats, SortBy;
    SameElements(all, rows);
    SortedRows(sim.calendar, all, rows);
  }
}
