/**
  What an accepted opening marks: which instruments it closes or gives a boundary, and which
  orders it cancels.
 */
module BatchMarks {
  import opened Options
  import opened Decimals
  import opened Contracts
  import opened Accounts
  import opened Ordering
  import opened CorporateActions
  import opened BatchInvariants
  import opened BatchEffects
  import opened SelectionAdmission

  // ----- What a batch marks -----

  /** Actions that strike an instrument: they close it or set it a boundary, and cancel the orders on it. */
  predicate Strikes(a: Action) { a.change.Split? || a.change.Delisting? }

  function StruckBy(actions: seq<Action>): set<Id> { set a | a in actions && Strikes(a) :: a.instrument }

  function SplitBy(actions: seq<Action>): set<Id> { set a | a in actions && a.change.Split? :: a.instrument }

  function DelistedBy(actions: seq<Action>): set<Id> { set a | a in actions && a.change.Delisting? :: a.instrument }

  function SourcesOf(mergers: seq<Merger>): set<Id> { set m | m in mergers :: m.source }

  lemma StaleIsOrders(b: Batch, before: Balance, i: Id)
    ensures Stale(b, before, i) == OrdersOn(b, before, {i})
  {
  }

  lemma OrdersAdd(b: Batch, before: Balance, x: set<Id>, y: set<Id>)
    ensures OrdersOn(b, before, x + y) == OrdersOn(b, before, x) + OrdersOn(b, before, y)
    ensures OrdersOn(b, before, {}) == {}
  {
  }

  /** What has been closed, given a boundary and cancelled since. */
  predicate Marks(c: Context, s: ActionState, closed: set<Id>, split: set<Id>, struck: set<Id>, t: ActionState) {
    && t.closed == s.closed + closed
    && t.boundaries.Keys == s.boundaries.Keys + split
    && (forall i | i in t.boundaries :: t.boundaries[i] == if i in split then c.batch.session.openAt else s.boundaries[i])
    && t.cancelled.Keys == s.cancelled.Keys + OrdersOn(c.batch, c.before, struck)
    && (forall k | k in s.cancelled :: t.cancelled[k] == s.cancelled[k])
  }

  lemma MarksNothing(c: Context, s: ActionState, t: ActionState)
    requires t.closed == s.closed && t.boundaries == s.boundaries && t.cancelled == s.cancelled
    ensures Marks(c, s, {}, {}, {}, t)
  {
    OrdersAdd(c.batch, c.before, {}, {});
  }

  lemma MarksMore(c: Context, s: ActionState, t: ActionState, u: ActionState, closed: set<Id>, split: set<Id>, struck: set<Id>,
                  closed2: set<Id>, split2: set<Id>, struck2: set<Id>)
    requires Marks(c, s, closed, split, struck, t) && Marks(c, t, closed2, split2, struck2, u)
    ensures Marks(c, s, closed + closed2, split + split2, struck + struck2, u)
  {
    OrdersAdd(c.batch, c.before, struck, struck2);
    hide OrdersOn;
  }

  lemma CancelMarks(w: Work, c: Context, i: Id, reason: CancelReason, v: Work)
    requires Cancel(w, c, i, reason) == Some(v)
    ensures Marks(c, w.state, {}, {}, {i}, v.state)
  {
    hide *;
    StaleIsOrders(c.batch, c.before, i);
    CancelledAre(w, c, i, reason, v);
    MarksCancelled(c, w.state, v.state, {i});
  }

  lemma CancelledAre(w: Work, c: Context, i: Id, reason: CancelReason, v: Work)
    requires Cancel(w, c, i, reason) == Some(v)
    ensures v.state == w.state.(cancelled := Cancelled(w.state.cancelled, Stale(c.batch, c.before, i), reason))
  {
    hide V, Stale, Cancelled;
  }

  lemma MarksCancelled(c: Context, s: ActionState, t: ActionState, struck: set<Id>)
    requires exists reason :: t == s.(cancelled := Cancelled(s.cancelled, OrdersOn(c.batch, c.before, struck), reason))
    ensures Marks(c, s, {}, {}, struck, t)
  {
    hide OrdersOn, Cancelled;
  }

  lemma AccrueMarks(w: Work, c: Context, action: Id, amount: Dec, payable: Date, kind: ClaimKind, v: Work)
    requires Accrue(w, c, action, amount, payable, kind) == Some(v)
    ensures Marks(c, w.state, {}, {}, {}, v.state)
  {
    hide V, Accrue, Checked, Due, OrdersOn, Marks;
    AccrueShape(w, c, action, amount, payable, kind);
    MarksNothing(c, w.state, v.state);
  }

  lemma SplitMarks(w: Work, c: Context, a: Action, ratio: Dec, v: Work)
    requires V(ratio) > 0.0 && ApplySplit(w, c, a, ratio) == Some(v)
    ensures Marks(c, w.state, {}, {a.instrument}, {a.instrument}, v.state)
  {
    hide *;
    SplitShape(w, c, a, ratio);
    var i := a.instrument;
    var parts := Fractional(Mul(Held(w.positions, i), ratio), a.terms.value, c.batch.policy).value;
    ConvertedShape(w, c, a, ratio, parts.0);
    var w2 := Converted(w, c, a, ratio, parts.0).value;
    var w3 := Cancel(w2, c, i, SplitCancel).value;
    BoundarySet(c, w.state, w2.state, i);
    CancelMarks(w2, c, i, SplitCancel, w3);
    MarksMore(c, w.state, w2.state, w3.state, {}, {i}, {}, {}, {}, {i});
    if a.terms.value.CashInLieu? {
      AccrueMarks(w3, c, a.actionId, parts.1, a.terms.value.payable, PrincipalClaim, v);
    } else {
      MarksNothing(c, w3.state, v.state);
    }
    MarksMore(c, w.state, w3.state, v.state, {} + {}, {i} + {}, {} + {i}, {}, {}, {});
    WithNothing();
  }

  lemma WithNothing()
    ensures forall x: set<Id> :: x + {} == x && {} + x == x
  {
  }

  lemma BoundarySet(c: Context, s: ActionState, t: ActionState, i: Id)
    requires t == s.(references := t.references, boundaries := s.boundaries[i := c.batch.session.openAt])
    ensures Marks(c, s, {}, {i}, {}, t)
  {
    OrdersAdd(c.batch, c.before, {}, {});
    hide OrdersOn;
  }

  lemma DelistingMarks(w: Work, c: Context, a: Action, v: Work)
    requires ApplyDelisting(w, c, a) == Some(v)
    ensures Marks(c, w.state, {a.instrument}, {}, {a.instrument}, v.state)
  {
    hide *;
    DelistingShape(w, c, a);
    var i := a.instrument;
    ClosedSet(c, w, a);
    var w2 := Cancel(Emptied(w, a), c, i, DelistingCancel).value;
    CancelMarks(Emptied(w, a), c, i, DelistingCancel, w2);
    MarksMore(c, w.state, Emptied(w, a).state, w2.state, {i}, {}, {}, {}, {}, {i});
    match a.terms.value {
      case CashSettlement(perShare, payable, _) =>
        AccrueMarks(w2, c, a.actionId, Mul(Held(w.positions, i), perShare), payable, PrincipalClaim, v);
      case _ => MarksNothing(c, w2.state, v.state);
    }
    MarksMore(c, w.state, w2.state, v.state, {i} + {}, {} + {}, {} + {i}, {}, {}, {});
    WithNothing();
  }

  lemma ClosedSet(c: Context, w: Work, a: Action)
    ensures Marks(c, w.state, {a.instrument}, {}, {}, Emptied(w, a).state)
  {
    OrdersAdd(c.batch, c.before, {}, {});
    hide OrdersOn;
  }

  lemma ActionMarks(w: Work, c: Context, a: Action, v: Work)
    requires ApplyAction(w, c, a) == Some(v)
    ensures Marks(c, w.state, DelistedBy([a]), SplitBy([a]), StruckBy([a]), v.state)
  {
    OneAction(a);
    hide V, InRange, ApplySplit, ApplyDelisting, CurrentSymbol, Marks, DelistedBy, SplitBy, StruckBy;
    match a.change
    case Split(ratio) => SplitMarks(w, c, a, ratio, v);
    case Delisting => DelistingMarks(w, c, a, v);
    case TickerChange(_, _) => MarksNothing(c, w.state, v.state);
    case Dividend(_, _) => MarksNothing(c, w.state, v.state);
  }

  lemma OneAction(a: Action)
    ensures DelistedBy([a]) == if a.change.Delisting? then {a.instrument} else {}
    ensures SplitBy([a]) == if a.change.Split? then {a.instrument} else {}
    ensures StruckBy([a]) == if Strikes(a) then {a.instrument} else {}
  {
    assert a in [a];
  }

  lemma ActionSets(actions: seq<Action>)
    requires actions != []
    ensures DelistedBy(actions) == DelistedBy([actions[0]]) + DelistedBy(actions[1..])
    ensures SplitBy(actions) == SplitBy([actions[0]]) + SplitBy(actions[1..])
    ensures StruckBy(actions) == StruckBy([actions[0]]) + StruckBy(actions[1..])
  {
    assert actions == [actions[0]] + actions[1..];
  }

  lemma {:induction false} ActionsMark(w: Work, c: Context, actions: seq<Action>, v: Work)
    requires ApplyActions(w, c, actions) == Some(v)
    ensures Marks(c, w.state, DelistedBy(actions), SplitBy(actions), StruckBy(actions), v.state)
    decreases |actions|
  {
    hide ApplyAction, Marks;
    if actions == [] {
      MarksNothing(c, w.state, v.state);
      assert DelistedBy(actions) == {} && SplitBy(actions) == {} && StruckBy(actions) == {};
    } else {
      var u := ApplyAction(w, c, actions[0]).value;
      ActionMarks(w, c, actions[0], u);
      ActionsMark(u, c, actions[1..], v);
      ActionSets(actions);
      hide DelistedBy, SplitBy, StruckBy;
      MarksMore(c, w.state, u.state, v.state, DelistedBy([actions[0]]), SplitBy([actions[0]]), StruckBy([actions[0]]),
                DelistedBy(actions[1..]), SplitBy(actions[1..]), StruckBy(actions[1..]));
    }
  }

  lemma MergerMarks(w: Work, c: Context, m: Merger, v: Work)
    requires ApplyMerger(w, c, m) == Some(v)
    ensures Marks(c, w.state, {m.source}, {}, {m.source}, v.state)
  {
    hide *;
    MergerShape(w, c, m);
    var held :| MergesTo(w, c, m, held);
    MergesToIs(w, c, m, held);
    var w1 := Merged(w, m, held);
    var w2 := Cancel(w1, c, m.source, MergerCancel).value;
    MergedSet(c, w, m, held);
    CancelMarks(w1, c, m.source, MergerCancel, w2);
    MarksMore(c, w.state, w1.state, w2.state, {m.source}, {}, {}, {}, {}, {m.source});
    EnrolledSet(c, w2, m);
    MarksMore(c, w.state, w2.state, v.state, {m.source} + {}, {} + {}, {} + {m.source}, {}, {}, {});
    WithNothing();
  }

  lemma MergedSet(c: Context, w: Work, m: Merger, held: Dec)
    ensures Marks(c, w.state, {m.source}, {}, {}, Merged(w, m, held).state)
  {
    OrdersAdd(c.batch, c.before, {}, {});
    hide OrdersOn;
  }

  lemma EnrolledSet(c: Context, w: Work, m: Merger)
    ensures Marks(c, w.state, {}, {}, {}, Enrolled(w, m).state)
  {
    MarksNothing(c, w.state, Enrolled(w, m).state);
    hide Marks;
  }

  lemma {:induction false} MergersMark(w: Work, c: Context, mergers: seq<Merger>, v: Work)
    requires ApplyMergers(w, c, mergers) == Some(v)
    ensures Marks(c, w.state, SourcesOf(mergers), {}, SourcesOf(mergers), v.state)
    decreases |mergers|
  {
    hide ApplyMerger, Marks;
    if mergers == [] {
      MarksNothing(c, w.state, v.state);
      assert SourcesOf(mergers) == {};
    } else {
      var u := ApplyMerger(w, c, mergers[0]).value;
      MergerMarks(w, c, mergers[0], u);
      MergersMark(u, c, mergers[1..], v);
      assert mergers == [mergers[0]] + mergers[1..];
      assert SourcesOf(mergers) == {mergers[0].source} + SourcesOf(mergers[1..]);
      WithNothing();
      hide SourcesOf;
      MarksMore(c, w.state, u.state, v.state, {mergers[0].source}, {}, {mergers[0].source}, SourcesOf(mergers[1..]), {}, SourcesOf(mergers[1..]));
    }
  }

  lemma IncomeMarks(w: Work, c: Context, a: Action, v: Work)
    requires ApplyIncome(w, c, a) == Some(v)
    ensures Marks(c, w.state, {}, {}, {}, v.state)
  {
    hide V, ApplyDividend, Accrue, Marks;
    match a.change
    case Dividend(perShare, payable) =>
      DividendShape(w, c, a, perShare, payable);
      var amount :| ApplyDividend(w, c, a, perShare, payable) == Accrue(w, c, a.actionId, amount, payable, DividendClaim);
      var u := ApplyDividend(w, c, a, perShare, payable).value;
      AccrueMarks(w, c, a.actionId, amount, payable, DividendClaim, u);
      MarksNothing(c, u.state, v.state);
      MarksMore(c, w.state, u.state, v.state, {}, {}, {}, {}, {}, {});
      WithNothing();
    case _ => MarksNothing(c, w.state, v.state);
  }

  lemma {:induction false} IncomesMark(w: Work, c: Context, actions: seq<Action>, v: Work)
    requires ApplyIncomes(w, c, actions) == Some(v)
    ensures Marks(c, w.state, {}, {}, {}, v.state)
    decreases |actions|
  {
    hide ApplyIncome, Marks;
    if actions == [] {
      MarksNothing(c, w.state, v.state);
    } else {
      var u := ApplyIncome(w, c, actions[0]).value;
      IncomeMarks(w, c, actions[0], u);
      IncomesMark(u, c, actions[1..], v);
      MarksMore(c, w.state, u.state, v.state, {}, {}, {}, {}, {}, {});
      WithNothing();
    }
  }

  /**
    An opening closes exactly the instruments it delists or merges away, sets a boundary at its
    opening exactly for those it splits, and cancels exactly the orders on all of these: those
    outstanding from before the opening and those open in the ledger.  Earlier cancellations keep
    their reasons.
   */
  lemma OpeningMarks(before: Balance, b: Batch, w: Work)
    requires b.mode == OpeningMode && ReduceBatch(before, b) == Some(w)
    ensures Select(b, before).Some?
    ensures var s := Select(b, before).value;
      Marks(Context(before, b, s), ActionsOf(before), DelistedBy(s.actions) + SourcesOf(s.mergers), SplitBy(s.actions),
            StruckBy(s.actions) + SourcesOf(s.mergers), w.state)
  {
    hide V, Select, ApplyActions, ApplyMergers, ApplyIncomes, ReduceBatch, Chosen, NonZero, ActionsOf, Marks, DelistedBy, SplitBy, StruckBy, SourcesOf;
    var c, w1, w2, w3 := OpeningStages(before, b, w);
    var s := c.selection;
    var start := Start(before);
    ActionsMark(start, c, s.actions, w1);
    MergersMark(w1, c, s.mergers, w2);
    IncomesMark(w2, c, s.actions, w3);
    MarksMore(c, start.state, w1.state, w2.state, DelistedBy(s.actions), SplitBy(s.actions), StruckBy(s.actions), SourcesOf(s.mergers), {}, SourcesOf(s.mergers));
    var closed, split, struck := DelistedBy(s.actions) + SourcesOf(s.mergers), SplitBy(s.actions) + {}, StruckBy(s.actions) + SourcesOf(s.mergers);
    MarksMore(c, start.state, w2.state, w3.state, closed, split, struck, {}, {}, {});
    MarksNothing(c, w3.state, w.state);
    MarksMore(c, start.state, w3.state, w.state, closed + {}, split + {}, struck + {}, {}, {}, {});
    WithNothing();
  }
}
