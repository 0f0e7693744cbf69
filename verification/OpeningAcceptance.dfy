/**
  Which openings with one piece of news are accepted: for each kind of action and for a merger,
  exactly what the ledger must hold and what must be representable, told in values.
 */
module OpeningAcceptance {
  import opened Options
  import opened Decimals
  import opened Contracts
  import opened Accounts
  import opened Ordering
  import opened CorporateActions
  import opened BatchInvariants
  import opened BatchEffects
  import opened BatchShares
  import opened ActionSelection
  import opened SelectionAdmission
  import opened LedgerFigures
  import opened LedgerProgress

  // ----- Openings with one piece of news -----

  /** Room for one more entry wherever the history grows. */
  predicate Room(before: Balance) {
    var s := ActionsOf(before);
    && |s.applied| < 4096 && |s.cancelled| <= 4096 && |s.references| < 4096 && |s.claims| < 4096
    && |s.symbols| < 256 && |s.boundaries| < 256 && |s.closed| < 256
  }

  /** No instrument has two references. */
  predicate OneReferenceEach(b: Batch) { forall i, j | 0 <= i < j < |b.references| :: b.references[j].instrument != b.references[i].instrument }

  /** One new action and no new merger. */
  predicate OnlyNew(b: Batch, before: Balance, a: Action) {
    b.mode == OpeningMode && NewActions(b, ActionsOf(before).applied) == {a} && NewMergers(b, ActionsOf(before).applied) == {}
  }

  lemma OneSelected(b: Batch, before: Balance, a: Action)
    requires Passes(b, before) && OnlyNew(b, before, a)
    ensures Select(b, before) == Some(Selection([a], []))
  {
    SelectAdmits(b, before);
    SelectionChecks(b, before);
    hide Select, Passes, NewActions, NewMergers, Chosen, SeriesHold, MergersFit, ActionsOf;
    var s := Select(b, before).value;
    ChosenIsNew(b, ActionsOf(before).applied);
    Alone(s, a);
  }

  lemma Alone(s: Selection, a: Action)
    requires SelectionAdmission.SameSets(s, {a}, {}) && Distinct(s.actions)
    ensures s == Selection([a], [])
  {
    assert |s.actions| > 1 ==> s.actions[0] != s.actions[1];
    NothingNew(s, {a}, {});
    assert forall k | 0 <= k < |s.actions| :: s.actions[k] in s.actions;
    assert a in s.actions;
    assert s.actions == [a] && s.mergers == [];
  }

  lemma OneApplied(w: Work, c: Context, a: Action)
    ensures ApplyActions(w, c, [a]) == ApplyAction(w, c, a) && ApplyIncomes(w, c, [a]) == ApplyIncome(w, c, a) && ApplyMergers(w, c, []) == Some(w)
  {
    hide ApplyAction, ApplyIncome;
    assert [a][1..] == [];
  }

  lemma OpeningConcludes(w: Work, c: Context)
    requires c.batch.mode == OpeningMode
    ensures Conclude(w, c).Some? <==> WithinLimits(w.state)
  {
    hide PayAll, NonZero;
  }

  /** The stages of an opening with one action. */
  lemma OneActionStages(b: Batch, before: Balance, a: Action)
    requires Passes(b, before) && OnlyNew(b, before, a)
    ensures var c := Context(before, b, Selection([a], []));
      ReduceBatch(before, b).Some? <==>
        && OneReferenceEach(b)
        && ApplyAction(Start(before), c, a).Some? && ApplyIncome(ApplyAction(Start(before), c, a).value, c, a).Some?
        && WithinLimits(ApplyIncome(ApplyAction(Start(before), c, a).value, c, a).value.state)
  {
    hide Select, ApplyActions, ApplyMergers, ApplyIncomes, ApplyAction, ApplyIncome, Conclude, Passes, OnlyNew, Start, UniqueReferences, OneReferenceEach,
      WithinLimits;
    OneSelected(b, before, a);
    SameUnique(b);
    OnlyOpening(b, before, a);
    var c := Context(before, b, Selection([a], []));
    OneApplied(Start(before), c, a);
    if ApplyAction(Start(before), c, a).Some? {
      var w1 := ApplyAction(Start(before), c, a).value;
      OneApplied(w1, c, a);
      if ApplyIncome(w1, c, a).Some? { OpeningConcludes(ApplyIncome(w1, c, a).value, c); }
    }
  }

  /** An action that is no dividend is accepted where its own stage is. */
  lemma AcceptedByStage(b: Batch, before: Balance, a: Action)
    requires Passes(b, before) && OnlyNew(b, before, a) && Room(before) && !a.change.Dividend?
    requires var v := ApplyAction(Start(before), Context(before, b, Selection([a], [])), a); v.Some? ==> Grown(ActionsOf(before), v.value.state)
    ensures ReduceBatch(before, b).Some? <==>
      OneReferenceEach(b) && ApplyAction(Start(before), Context(before, b, Selection([a], [])), a).Some?
  {
    hide *;
    OneActionStages(b, before, a);
    var c := Context(before, b, Selection([a], []));
    if ApplyAction(Start(before), c, a).Some? {
      var v := ApplyAction(Start(before), c, a).value;
      OnlyRecorded(v, c, a);
      RecordFits(before, v, a);
    }
  }

  lemma OnlyRecorded(w: Work, c: Context, a: Action)
    requires !a.change.Dividend?
    ensures ApplyIncome(w, c, a) == Some(Record(w, a))
  {
    hide Record;
  }

  lemma OnlyOpening(b: Batch, before: Balance, a: Action)
    requires OnlyNew(b, before, a)
    ensures b.mode == OpeningMode && a in b.actions && a.actionId !in ActionsOf(before).applied
  {
    hide ActionsOf, Latest;
    assert a in NewActions(b, ActionsOf(before).applied);
  }

  lemma SameUnique(b: Batch)
    ensures UniqueReferences(b) <==> OneReferenceEach(b)
  {
  }

  // ----- Claims -----

  /** No claim or obligation is recorded under the action's identifier, and there is room for one more obligation. */
  predicate Unclaimed(before: Balance, action: Id) {
    ClaimOf(action) !in before.obligations && action !in ActionsOf(before).claims && |before.obligations| < 256
  }

  /** An amount of money, nothing or one that no claim or obligation of the action stands in the way of. */
  predicate Claimable(before: Balance, action: Id, amount: Dec, income: bool) {
    V(amount) == 0.0
    || (Unclaimed(before, action)
        && -24 <= amount.exp <= 24 && 0.0 < V(amount) <= Ten(24) && (income ==> V(before.income) + V(amount) <= Ten(24)))
  }

  /** A date with a witnessed session on it or right after it. */
  predicate Witnessed(c: Calendar, payable: Date) { payable in c.schedule || (payable in c.following && c.following[payable] in c.schedule) }

  lemma DueWitnessed(c: Calendar, payable: Date)
    ensures Due(c, payable).Some? <==> Witnessed(c, payable)
  {
  }

  /** The working copy still has the obligations, claims and income of the balance. */
  predicate SameClaims(w: Work, before: Balance) {
    w.obligations == before.obligations && w.state.claims == ActionsOf(before).claims && w.income == before.income
  }

  lemma AccrueExactly(w: Work, c: Context, action: Id, amount: Dec, payable: Date, kind: ClaimKind)
    requires SameClaims(w, c.before) && InRange(c.before.income, Money)
    ensures Accrue(w, c, action, amount, payable, kind).Some? <==>
      Witnessed(c.batch.calendar, payable) && Claimable(c.before, action, amount, kind == DividendClaim)
  {
    DueWitnessed(c.batch.calendar, payable);
    RangeIs(c.before.income, Money);
    if V(amount) != 0.0 { AmountPasses(amount); }
    if -24 <= amount.exp <= 24 && 0.0 < V(amount) <= Ten(24) { IncomePasses(c.before.income, amount); }
    hide V, Ten, InRange, Fits, Checked, Exact, Add, Due, Witnessed, ActionsOf;
  }

  lemma AmountPasses(d: Dec)
    requires V(d) != 0.0
    ensures Checked(d, Money, true).Some? <==> -24 <= d.exp <= 24 && 0.0 < V(d) <= Ten(24)
    ensures Checked(d, Money, true).Some? ==> Checked(d, Money, true).value == d
  {
    SignOfValue(d);
    hide V, Ten;
  }

  lemma IncomePasses(income: Dec, owed: Dec)
    requires InRange(income, Money) && -24 <= owed.exp <= 24 && 0.0 < V(owed) <= Ten(24)
    ensures Exact(Add(income, owed)).Some? && (Checked(Add(income, owed), Money, false).Some? <==> V(income) + V(owed) <= Ten(24))
  {
    RangeIs(income, Money);
    CheckedIs(Add(income, owed), Money);
    RangeIs(Add(income, owed), Money);
    Doubled();
    hide V, Ten, InRange, Checked, Exact, Add, Fits;
    RangeFits(Add(income, owed), 25);
  }

  lemma Doubled()
    ensures 2.0 * Ten(24) <= Ten(25)
  {
    Pow10Grows(24, 25);
    assert Pow10(25) == 10 * Pow10(24);
  }

  // ----- Orders -----

  /** Every outstanding intent is of this run, and the cancellations do not become too many. */
  predicate Cancellable(b: Batch, before: Balance, i: Id) {
    && (forall x | x in b.intents :: x.runId == before.header.runId && x.calendarId == before.header.calendarId)
    && |ActionsOf(before).cancelled.Keys + OrdersOn(b, before, {i})| <= 4096
  }

  lemma CancelExactly(w: Work, c: Context, i: Id, reason: CancelReason)
    requires w.state.cancelled == ActionsOf(c.before).cancelled
    ensures Cancel(w, c, i, reason).Some? <==> Cancellable(c.batch, c.before, i)
    ensures Cancel(w, c, i, reason).Some? ==> |Cancel(w, c, i, reason).value.state.cancelled| <= 4096
  {
    hide Stale, OrdersOn, Cancelled, ActionsOf;
    StaleAre(c.batch, c.before, i);
    CancelledCount(w.state.cancelled, Stale(c.batch, c.before, i), reason);
  }

  lemma CancelledCount(cancelled: map<Id, CancelReason>, ids: set<Id>, reason: CancelReason)
    ensures |Cancelled(cancelled, ids, reason)| == |cancelled.Keys + ids|
  {
    var r := Cancelled(cancelled, ids, reason);
    assert r.Keys == cancelled.Keys + ids;
    assert |r| == |r.Keys|;
  }

  lemma StaleAre(b: Batch, before: Balance, i: Id)
    ensures Stale(b, before, i) == OrdersOn(b, before, {i})
  {
  }

  /** What a stage leaves of the history: no new record, and at most one more entry in each other part. */
  predicate Grown(s: ActionState, t: ActionState) {
    && t.applied == s.applied && |t.cancelled| <= 4096 && |t.references| <= |s.references| + 1 && |t.claims| <= |s.claims| + 1
    && |t.symbols| <= |s.symbols| + 1 && |t.boundaries| <= |s.boundaries| + 1 && |t.closed| <= |s.closed| + 1
  }

  /** With the action recorded, what a stage left is within the limits. */
  lemma RecordFits(before: Balance, w: Work, a: Action)
    requires Room(before) && Grown(ActionsOf(before), w.state)
    ensures WithinLimits(Record(w, a).state)
  {
    hide ActionsOf;
    MapGrows(w.state.applied, a.actionId, Applied(a.manifest.revision, FromAction(a)));
  }

  lemma AccrueGrows(w: Work, c: Context, action: Id, amount: Dec, payable: Date, kind: ClaimKind)
    requires Accrue(w, c, action, amount, payable, kind).Some?
    ensures var v := Accrue(w, c, action, amount, payable, kind).value;
      v.state == w.state.(claims := v.state.claims) && |v.state.claims| <= |w.state.claims| + 1
  {
    AccrueShape(w, c, action, amount, payable, kind);
    var v := Accrue(w, c, action, amount, payable, kind).value;
    hide V, Accrue, Checked, Due;
    if v != w { MapGrows(w.state.claims, action, v.state.claims[action]); }
  }

  lemma MapGrows<K, T>(m: map<K, T>, k: K, x: T)
    ensures |m[k := x]| <= |m| + 1
  {
    assert m[k := x].Keys == m.Keys + {k};
    assert |m[k := x]| == |m[k := x].Keys| && |m| == |m.Keys|;
  }

  lemma SetGrows<T>(s: set<T>, x: T)
    ensures |s + {x}| <= |s| + 1
  {
  }

  // ----- Ticker changes -----

  /** The symbol of an instrument: the recorded one, or that of its reference in the batch. */
  ghost predicate HasSymbol(before: Balance, b: Batch, i: Id, symbol: Id) {
    if i in ActionsOf(before).symbols then ActionsOf(before).symbols[i] == symbol
    else exists r :: r in b.references && r.instrument == i && r.symbol == symbol
  }

  lemma {:induction false} FindsReference(references: seq<Reference>, i: Id)
    ensures FindReference(references, i).Some? <==> exists r :: r in references && r.instrument == i
    ensures (forall k, l | 0 <= k < l < |references| :: references[l].instrument != references[k].instrument) ==>
      forall r | r in references && r.instrument == i :: FindReference(references, i) == Some(r)
  {
    if references != [] {
      FindsReference(references[1..], i);
      assert references == [references[0]] + references[1..];
    }
  }

  lemma SymbolIs(c: Context, i: Id, symbol: Id)
    requires OneReferenceEach(c.batch)
    ensures CurrentSymbol(ActionsOf(c.before).symbols, c, i) == Some(symbol) <==> HasSymbol(c.before, c.batch, i, symbol)
  {
    FindsReference(c.batch.references, i);
    hide ActionsOf, FindReference;
  }

  lemma TickerStages(c: Context, a: Action)
    requires OneReferenceEach(c.batch) && ValidAction(a) && a.change.TickerChange? && Room(c.before)
    ensures ApplyAction(Start(c.before), c, a).Some? <==>
      a.instrument !in ActionsOf(c.before).closed && HasSymbol(c.before, c.batch, a.instrument, a.change.oldSymbol)
    ensures ApplyAction(Start(c.before), c, a).Some? ==> Grown(ActionsOf(c.before), ApplyAction(Start(c.before), c, a).value.state)
  {
    hide ActionsOf, HasSymbol, CurrentSymbol, ApplySplit, ApplyDelisting, V, InRange, OneReferenceEach;
    SymbolIs(c, a.instrument, a.change.oldSymbol);
    MapGrows(ActionsOf(c.before).symbols, a.instrument, a.change.newSymbol);
  }

  /** An opening with one new ticker change is accepted exactly when the instrument is open and the old symbol is its current one. */
  lemma TickerChangeAccepted(b: Batch, before: Balance, a: Action)
    requires ValidBatch(b) && Passes(b, before) && OnlyNew(b, before, a) && Room(before) && a.change.TickerChange?
    ensures ReduceBatch(before, b).Some? <==>
      OneReferenceEach(b) && a.instrument !in ActionsOf(before).closed && HasSymbol(before, b, a.instrument, a.change.oldSymbol)
  {
    hide *;
    OnlyOpening(b, before, a);
    ActionIsValid(b, a);
    if OneReferenceEach(b) {
      TickerStages(Context(before, b, Selection([a], [])), a);
      AcceptedByStage(b, before, a);
    } else {
      OneActionStages(b, before, a);
    }
  }

  lemma ActionIsValid(b: Batch, a: Action)
    requires ValidBatch(b) && a in b.actions
    ensures ValidAction(a)
  {
    hide ValidAction;
  }

  // ----- Delistings -----

  lemma HeldIs(positions: map<Id, Dec>, i: Id)
    requires HeldInRange(positions)
    ensures var d := Held(positions, i); -6 <= d.exp <= 12 && 0.0 <= V(d) <= Ten(12)
  {
    ValueZero();
    TenPositive(12);
    if i in positions { RangeIs(positions[i], Holding); }
    hide V, Ten, InRange;
  }

  /** Figures of bounded factors. */
  lemma BoundedProduct(x: real, y: real)
    requires 0.0 <= x <= Ten(12) && 0.0 < y <= 2.0 * Ten(9)
    ensures 0.0 <= Product(x, y) <= Ten(24) && (Product(x, y) == 0.0 <==> x == 0.0)
  {
    NonNegativeProduct(x, y);
    SignOfProduct(x, y);
    TenSizes();
    hide Ten;
    NonNegativeProduct(Ten(12) - x, y);
    NonNegativeProduct(Ten(12), 2.0 * Ten(9) - y);
  }

  lemma Settlement(quantity: Dec, perShare: Dec)
    requires -6 <= quantity.exp <= 12 && 0.0 <= V(quantity) <= Ten(12) && Positive(perShare, Execution)
    ensures var d := Mul(quantity, perShare);
      && Exact(d) == Some(d) && -24 <= d.exp <= 24 && 0.0 <= V(d) <= Ten(24)
      && (V(d) == 0.0 <==> V(quantity) == 0.0)
  {
    hide *;
    PositivePrice(perShare);
    MulExponent(quantity, perShare);
    ProductOf(quantity, perShare);
    BoundedProduct(V(quantity), V(perShare));
    RangeFits(Mul(quantity, perShare), 24);
  }

  lemma MulExponent(a: Dec, b: Dec)
    ensures Mul(a, b).exp == a.exp + b.exp
  {
    hide V;
  }

  lemma PositivePrice(d: Dec)
    requires Positive(d, Execution)
    ensures -16 <= d.exp <= 10 && 0.0 < V(d) <= 2.0 * Ten(9)
  {
    RangeIs(d, Execution);
    hide V, Ten, InRange;
  }

  lemma TenSizes()
    ensures Ten(12) * (2.0 * Ten(9)) <= Ten(24)
  {
    assert Ten(9) == 1000000000.0 && Ten(12) == 1000000000000.0;
    TenAdd(12, 12);
    hide Ten;
  }

  /** A settlement is payable on a date with its session and, where shares are held, comes in under a fresh claim. */
  predicate Settles(before: Balance, b: Batch, a: Action, quantity: real) {
    match a.terms
    case Some(CashSettlement(_, payable, _)) => Witnessed(b.calendar, payable) && (quantity == 0.0 || Unclaimed(before, a.actionId))
    case _ => true
  }

  /** What a delisting asks of its cancellations and of the claim for its settlement. */
  predicate Delists(before: Balance, b: Batch, a: Action) {
    && a.instrument !in ActionsOf(before).closed && Cancellable(b, before, a.instrument)
    && Settles(before, b, a, V(Held(before.positions, a.instrument)))
  }

  /** The delisting's claim, or none. */
  function Settled(w: Work, c: Context, a: Action, quantity: Dec): Option<Work> {
    match a.terms
    case Some(CashSettlement(perShare, payable, _)) =>
      var amount :- Exact(Mul(quantity, perShare)); Accrue(w, c, a.actionId, amount, payable, PrincipalClaim)
    case _ => Some(w)
  }

  lemma DelistingIs(w: Work, c: Context, a: Action)
    requires ValidAction(a) && a.change.Delisting? && a.terms.Some?
    ensures var v := Cancel(Emptied(w, a), c, a.instrument, DelistingCancel);
      ApplyAction(w, c, a) ==
        if a.instrument in w.state.closed || v.None? then None else Settled(v.value, c, a, Held(w.positions, a.instrument))
  {
    hide V, InRange, Cancel, Accrue, Mul, Fits, Held, ApplySplit, CurrentSymbol;
  }

  lemma SettledExactly(w: Work, c: Context, a: Action, quantity: Dec)
    requires ValidAction(a) && a.change.Delisting? && a.terms.Some?
    requires SameClaims(w, c.before) && InRange(c.before.income, Money)
    requires -6 <= quantity.exp <= 12 && 0.0 <= V(quantity) <= Ten(12)
    ensures Settled(w, c, a, quantity).Some? <==> Settles(c.before, c.batch, a, V(quantity))
    ensures Settled(w, c, a, quantity).Some? ==>
      var v := Settled(w, c, a, quantity).value; v.state == w.state.(claims := v.state.claims) && |v.state.claims| <= |w.state.claims| + 1
  {
    hide V, Ten, InRange, Accrue, Mul, Exact, Fits, Witnessed, SameClaims, ActionsOf;
    if a.terms.value.CashSettlement? {
      var amount := Mul(quantity, a.terms.value.amountPerShare);
      Settlement(quantity, a.terms.value.amountPerShare);
      AccrueExactly(w, c, a.actionId, amount, a.terms.value.payable, PrincipalClaim);
      if Accrue(w, c, a.actionId, amount, a.terms.value.payable, PrincipalClaim).Some? {
        AccrueGrows(w, c, a.actionId, amount, a.terms.value.payable, PrincipalClaim);
      }
    }
  }

  lemma DelistingStages(c: Context, a: Action)
    requires ValidAction(a) && a.change.Delisting? && a.terms.Some? && Room(c.before) && HeldInRange(c.before.positions)
    requires InRange(c.before.income, Money)
    ensures ApplyAction(Start(c.before), c, a).Some? <==> Delists(c.before, c.batch, a)
    ensures ApplyAction(Start(c.before), c, a).Some? ==> Grown(ActionsOf(c.before), ApplyAction(Start(c.before), c, a).value.state)
  {
    hide ActionsOf, Cancellable, ApplyAction, V, Ten, InRange, Cancel, Settled, Settles, Held, HeldInRange, ValidAction;
    var w := Emptied(Start(c.before), a);
    DelistingIs(Start(c.before), c, a);
    HeldIs(c.before.positions, a.instrument);
    CancelExactly(w, c, a.instrument, DelistingCancel);
    SetGrows(ActionsOf(c.before).closed, a.instrument);
    if Cancel(w, c, a.instrument, DelistingCancel).Some? {
      CancelKeeps(w, c, a.instrument, DelistingCancel);
      SettledExactly(Cancel(w, c, a.instrument, DelistingCancel).value, c, a, Held(c.before.positions, a.instrument));
    }
  }

  lemma HasTerms(b: Batch, before: Balance, a: Action)
    requires Passes(b, before) && OnlyNew(b, before, a) && !a.change.TickerChange?
    ensures a.terms.Some?
  {
    hide ActionsOf, Series, MergersPass, NewsPass, Fitting;
    assert a in NewActions(b, ActionsOf(before).applied);
  }

  /**
    An opening with one new delisting is accepted exactly when the instrument is open, its orders
    can be cancelled, and, where shares are paid for, the date has its session and no claim of the
    action is there.
   */
  lemma DelistingAccepted(b: Batch, before: Balance, a: Action)
    requires ValidBatch(b) && Passes(b, before) && OnlyNew(b, before, a) && Room(before) && a.change.Delisting? && Figures(before)
    ensures ReduceBatch(before, b).Some? <==> OneReferenceEach(b) && Delists(before, b, a)
  {
    hide *;
    OnlyOpening(b, before, a);
    ActionIsValid(b, a);
    HasTerms(b, before, a);
    FiguresAre(before);
    DelistingStages(Context(before, b, Selection([a], [])), a);
    AcceptedByStage(b, before, a);
  }

  // ----- Grids -----

  predicate Counts(x: real, places: nat, n: int) { n as real == x * Ten(places) }

  /** A rational with at most so many decimal places. */
  ghost predicate OnGrid(x: real, places: nat) { exists n: int :: Counts(x, places, n) }

  lemma GridIs(x: real, places: nat)
    ensures OnGrid(x, places) <==> IsWhole(Shift(x, places))
  {
    hide Ten;
    if OnGrid(x, places) {
      var n :| Counts(x, places, n);
      IntegerIsWhole(n);
    } else {
      assert !Counts(x, places, Shift(x, places).Floor);
    }
  }

  lemma GridDecimal(x: real, places: nat) returns (d: Dec)
    requires OnGrid(x, places)
    ensures V(d) == x && d.exp == -(places as int)
  {
    GridIs(x, places);
    DigitsValue(x, places);
    d := Dec(Shift(x, places).Floor, -(places as int));
    hide V, Ten;
  }

  /** Which amounts of money a rational has a decimal for. */
  lemma FoundExactly(x: real)
    requires 0.0 <= x <= Ten(24)
    ensures FromRational(x).Some? <==> OnGrid(x, 24)
  {
    hide V, Ten, Fits, FromRational, OnGrid, IsWhole, Shift;
    GridIs(x, 24);
    if FromRational(x).Some? { WholeAt(FromRational(x).value, 24); }
    if OnGrid(x, 24) {
      var d := GridDecimal(x, 24);
      FromRationalFinds(d, 24);
    }
  }

  lemma {:induction false} NormalIs(d: Dec)
    ensures Normalize(d) == ZERO || Normalize(d).coef % 10 != 0
    decreases Abs(d.coef)
  {
    hide V;
    if d.coef != 0 && d.coef % 10 == 0 { NormalIs(Dec(d.coef / 10, d.exp + 1)); }
  }

  /** What can be held: at most a million million shares, in millionths. */
  lemma HoldingIs(d: Dec)
    requires V(d) >= 0.0
    ensures InRange(Normalize(d), Holding) <==> V(d) <= Ten(12) && OnGrid(V(d), 6)
  {
    hide V, Ten, Normalize, OnGrid, IsWhole, Shift, InRange, Lower;
    var r := Normalize(d);
    NormalIs(d);
    RangeIs(r, Holding);
    GridIs(V(d), 6);
    if r.exp >= -6 { WholeAt(r, 6); }
    if V(d) <= Ten(12) && OnGrid(V(d), 6) {
      var e := GridDecimal(V(d), 6);
      if r.exp < -6 {
        LowerDivides(e, r.exp);
        LowerValue(e, r.exp);
        SameExponent(r, Lower(e, r.exp));
      }
      if r.exp > 12 { LargeExponent(r); }
    }
  }

  lemma LargeExponent(r: Dec)
    requires r.exp > 12 && V(r) >= 0.0 && r != ZERO && r.coef != 0
    ensures V(r) > Ten(12)
  {
    SignOfValue(r);
    LowerValue(r, 12);
    WidenedIs(r.coef, r.exp - 12);
    ValueIs(Lower(r, 12));
    Pow10Grows(1, r.exp - 12);
    assert Pow10(1) == 10;
    hide V, Ten, Pow10, Widened;
    Ample(r.coef, Pow10(r.exp - 12));
    AmpleReal(Lower(r, 12).coef, Ten(12));
    assert Scale(12) == Ten(12);
    TenPositive(12);
  }

  lemma Ample(c: int, p: int)
    requires c > 0 && p >= 10
    ensures c * p >= 10
  {
  }

  lemma AmpleReal(c: int, t: real)
    requires c >= 10 && t >= 1.0
    ensures c as real * t > t
  {
    SignOfProduct(c as real - 1.0, t);
    Distribute(c as real - 1.0, 1.0, t);
  }

  // ----- Dividends -----

  /** What a dividend on so many shares asks: terms after any split, a witnessed date and, where it pays, a fresh claim for an amount of money. */
  ghost predicate Pays(before: Balance, b: Batch, a: Action, shares: real)
    requires a.change.Dividend?
  {
    var x := Product(shares, V(a.change.amountPerShare));
    && a.terms.Some? && a.terms.value.DividendTerms? && a.terms.value.basis.PostSplit?
    && Witnessed(b.calendar, a.change.payable)
    && (x == 0.0 || (Unclaimed(before, a.actionId) && OnGrid(x, 24) && V(before.income) + x <= Ten(24)))
  }

  /** The dividend as the reducer reads it: nothing was split in the batch. */
  lemma DividendIs(w: Work, c: Context, a: Action)
    requires a.change.Dividend? && c.selection == Selection([a], [])
    ensures ApplyDividend(w, c, a, a.change.amountPerShare, a.change.payable) ==
      if a.terms.Some? && a.terms.value.DividendTerms? && a.terms.value.basis.PostSplit? then
        var amount :- FromRational(Product(V(Held(w.shares, a.instrument)), V(a.change.amountPerShare)));
        Accrue(w, c, a.actionId, amount, a.change.payable, DividendClaim)
      else None
  {
    hide V, FromRational, Accrue, InRange, Product, Held;
    if a.terms.Some? && a.terms.value.DividendTerms? && a.terms.value.basis.PreSplit? { NoSplits(c.selection.actions, a.terms.value.basis, a); }
  }

  lemma NoSplits(actions: seq<Action>, basis: Basis, a: Action)
    requires basis.PreSplit? && actions == [a] && a.change.Dividend?
    ensures Filter(actions, (s: Action) => s.change.Split? && s.actionId == basis.conversion && s.instrument == a.instrument) == []
  {
    assert actions[1..] == [];
  }

  lemma ClaimsExactly(w: Work, c: Context, action: Id, x: real, payable: Date)
    requires x >= 0.0 && SameClaims(w, c.before) && InRange(c.before.income, Money)
    ensures FromRational(x).Some? && Accrue(w, c, action, FromRational(x).value, payable, DividendClaim).Some? <==>
      && Witnessed(c.batch.calendar, payable)
      && (x == 0.0 || (Unclaimed(c.before, action) && OnGrid(x, 24) && V(c.before.income) + x <= Ten(24)))
  {
    hide V, Ten, InRange, Fits, Accrue, FromRational, OnGrid, SameClaims, Witnessed, ActionsOf;
    RangeIs(c.before.income, Money);
    if FromRational(x).Some? { AccrueExactly(w, c, action, FromRational(x).value, payable, DividendClaim); }
    TenPositive(24);
    if x <= Ten(24) { FoundExactly(x); }
    if x == 0.0 { ZeroOnGrid(24); }
  }

  lemma PaysExactly(c: Context, a: Action, w: Work)
    requires a.change.Dividend? && c.selection == Selection([a], []) && V(a.change.amountPerShare) > 0.0 && V(Held(w.shares, a.instrument)) >= 0.0
    requires SameClaims(w, c.before) && InRange(c.before.income, Money)
    ensures ApplyIncome(w, c, a).Some? <==> Pays(c.before, c.batch, a, V(Held(w.shares, a.instrument)))
  {
    hide V, Ten, InRange, Fits, Accrue, ApplyDividend, FromRational, OnGrid, SameClaims, Witnessed, Product, Held, Unclaimed, Record;
    DividendIs(w, c, a);
    NonNegative(V(Held(w.shares, a.instrument)), V(a.change.amountPerShare));
    ClaimsExactly(w, c, a.actionId, Product(V(Held(w.shares, a.instrument)), V(a.change.amountPerShare)), a.change.payable);
  }

  lemma NonNegative(x: real, y: real)
    requires x >= 0.0 && y >= 0.0
    ensures Product(x, y) >= 0.0
  {
    NonNegativeProduct(x, y);
  }

  lemma ZeroOnGrid(places: nat)
    ensures OnGrid(0.0, places)
  {
    hide Ten;
    assert Counts(0.0, places, 0);
  }

  lemma DividendWaits(w: Work, c: Context, a: Action)
    requires a.change.Dividend?
    ensures ApplyAction(w, c, a) == Some(w)
  {
  }

  lemma PaidFits(c: Context, a: Action, w: Work)
    requires a.change.Dividend? && Room(c.before) && w.state == ActionsOf(c.before) && ApplyIncome(w, c, a).Some?
    ensures WithinLimits(ApplyIncome(w, c, a).value.state)
  {
    hide V, Accrue, ActionsOf, Room, WithinLimits, FromRational, ValidTerms, ConversionNamed, Record;
    var v := ApplyDividend(w, c, a, a.change.amountPerShare, a.change.payable).value;
    DividendShape(w, c, a, a.change.amountPerShare, a.change.payable);
    var amount :| ApplyDividend(w, c, a, a.change.amountPerShare, a.change.payable) == Accrue(w, c, a.actionId, amount, a.change.payable, DividendClaim);
    AccrueGrows(w, c, a.actionId, amount, a.change.payable, DividendClaim);
    GrownClaims(c.before, v);
    RecordFits(c.before, v, a);
  }

  lemma GrownClaims(before: Balance, v: Work)
    requires Room(before) && v.state == ActionsOf(before).(claims := v.state.claims) && |v.state.claims| <= |ActionsOf(before).claims| + 1
    ensures Grown(ActionsOf(before), v.state)
  {
    hide ActionsOf;
  }

  /**
    An opening with one new dividend is accepted exactly when it is declared on shares as they now
    are, its date has its session, and it pays nothing or an amount of money, on the grid and
    within the range of income, under a fresh claim.
   */
  lemma DividendAccepted(b: Batch, before: Balance, a: Action)
    requires ValidBatch(b) && Passes(b, before) && OnlyNew(b, before, a) && Room(before) && a.change.Dividend? && Figures(before)
    ensures ReduceBatch(before, b).Some? <==> OneReferenceEach(b) && Pays(before, b, a, V(Held(before.positions, a.instrument)))
  {
    hide *;
    OnlyOpening(b, before, a);
    ActionIsValid(b, a);
    DividendIsPositive(a);
    FiguresAre(before);
    HeldIs(before.positions, a.instrument);
    OneActionStages(b, before, a);
    var c := Context(before, b, Selection([a], []));
    StartFrom(before);
    DividendWaits(Start(before), c, a);
    PaysExactly(c, a, Start(before));
    if ApplyIncome(Start(before), c, a).Some? { PaidFits(c, a, Start(before)); }
  }

  lemma DividendIsPositive(a: Action)
    requires ValidAction(a) && a.change.Dividend?
    ensures V(a.change.amountPerShare) > 0.0
  {
    hide V;
  }

  lemma FiguresAre(b: Balance)
    requires Figures(b)
    ensures InRange(b.income, Money) && HeldInRange(b.positions)
  {
    hide InRange, HeldInRange;
  }

  lemma StartFrom(b: Balance)
    ensures Start(b).state == ActionsOf(b) && Start(b).positions == b.positions && Start(b).shares == b.positions && SameClaims(Start(b), b)
  {
  }

  // ----- Splits -----

  predicate InLots(x: real, lot: real, n: int) { n as real * lot <= x < n as real * lot + lot }

  /**
    A converted quantity can be kept: exactly, if it is on the grid of holdings, or in whole lots,
    if they are not too many and paying for the rest takes no more than 24 places.
   */
  ghost predicate Keepable(policy: ActionPolicy, terms: Terms, x: real, places: int) {
    match terms
    case RetainExact(_, _) => policy.retainExact && x <= Ten(12) && OnGrid(x, 6)
    case CashInLieu(lot, price, _, _) =>
      && !policy.retainExact && (exists n: int :: InLots(x, V(lot), n) && n as real * V(lot) <= Ten(12))
      && Least(places, lot.exp) + price.exp >= -24
    case _ => false
  }

  function Least(i: int, j: int): int { if i <= j then i else j }

  lemma RetainsExactly(q: Dec, terms: Terms, policy: ActionPolicy)
    requires terms.RetainExact? && V(q) >= 0.0
    ensures Fractional(q, terms, policy).Some? <==> Keepable(policy, terms, V(q), q.exp)
  {
    var r := Normalize(q);
    hide V, Ten, Normalize, InRange, Fits, Checked, OnGrid;
    HoldingIs(q);
    CheckedIs(r, Holding);
    RangeIs(r, Holding);
    if InRange(r, Holding) { RangeFits(r, 12); }
  }

  /** Figures of a quantity in whole lots: the lots, what is left over, and what it is worth. */
  lemma LotFigures(q: Dec, lot: Dec, price: Dec, n: int)
    requires -30 <= q.exp <= 36 && 0.0 <= V(q) <= Ten(36) && Positive(lot, Quantity) && Positive(price, Execution) && n == WholeLots(V(q), lot)
    ensures InLots(V(q), V(lot), n)
    ensures var retained := Mul(Whole(n), lot); var rest := Sub(q, retained); var paid := Mul(rest, price);
      && Fits(retained) && Fits(rest) && V(retained) == n as real * V(lot) && 0.0 <= V(retained) && -6 <= retained.exp <= 9
      && 0.0 <= V(paid) <= Ten(24) && (V(paid) == 0.0 <==> V(q) == n as real * V(lot))
      && paid.exp == Least(q.exp, lot.exp) + price.exp && paid.exp <= 24
      && (paid.exp >= -24 ==> Fits(paid))
  {
    hide *;
    LotsOf(q, lot, n);
    PositivePrice(price);
    PositiveLot(lot);
    var retained := Mul(Whole(n), lot);
    var rest := Sub(q, retained);
    LotParts(q, lot, n);
    LessThanLot(V(q), V(lot), n, V(retained), V(rest));
    RangeFits(retained, 36);
    NineOfThirtySix();
    RangeFits(rest, 36);
    ProductOf(rest, price);
    MulExponent(rest, price);
    RestWorth(V(rest), V(price));
    if Mul(rest, price).exp >= -24 { RangeFits(Mul(rest, price), 24); }
    LeastIs(q.exp, lot.exp);
  }

  lemma LeastIs(i: int, j: int)
    ensures Least(i, j) == if i <= j then i else j
  {
  }

  lemma LotsOf(q: Dec, lot: Dec, n: int)
    requires Positive(lot, Quantity) && n == WholeLots(V(q), lot)
    ensures InLots(V(q), V(lot), n) && V(lot) > 0.0
  {
    hide V, InRange;
    LotFloor(V(q), V(lot), n);
  }

  lemma PositiveLot(lot: Dec)
    requires Positive(lot, Quantity)
    ensures -6 <= lot.exp <= 9 && 0.0 < V(lot) <= Ten(9)
  {
    RangeIs(lot, Quantity);
    hide V, Ten, InRange;
  }

  lemma LotParts(q: Dec, lot: Dec, n: int)
    ensures var retained := Mul(Whole(n), lot); var rest := Sub(q, retained);
      && retained.exp == lot.exp && V(retained) == n as real * V(lot) && V(rest) == V(q) - V(retained)
      && rest.exp == if q.exp <= lot.exp then q.exp else lot.exp
  {
    hide V;
  }

  lemma LessThanLot(x: real, lot: real, n: int, retained: real, rest: real)
    requires x >= 0.0 && lot > 0.0 && InLots(x, lot, n) && retained == n as real * lot && rest == x - retained
    ensures 0.0 <= retained <= x && 0.0 <= rest < lot && (rest == 0.0 <==> x == n as real * lot)
  {
    if n < 0 {
      Distribute(n as real, 1.0, lot);
      SignOfSum(n as real + 1.0, lot);
    } else {
      NonNegativeProduct(n as real, lot);
    }
  }

  lemma SignOfSum(m: real, lot: real)
    requires m <= 0.0 && lot > 0.0
    ensures m * lot <= 0.0
  {
    NonNegativeProduct(-m, lot);
    NegateProduct(m, lot);
  }

  lemma NineOfThirtySix()
    ensures 0.0 <= Ten(9) <= Ten(36) && Ten(12) <= Ten(36)
  {
    Pow10Grows(9, 36);
    Pow10Grows(12, 36);
    hide Pow10;
    TenPositive(9);
  }

  lemma RestWorth(x: real, y: real)
    requires 0.0 <= x <= Ten(9) && 0.0 < y <= 2.0 * Ten(9)
    ensures 0.0 <= Product(x, y) <= Ten(24) && (Product(x, y) == 0.0 <==> x == 0.0)
  {
    Pow10Grows(9, 12);
    hide Pow10;
    assert Ten(9) <= Ten(12);
    BoundedProduct(x, y);
  }

  /** Whole lots and the worth of the rest, where all of it stays within the context. */
  lemma InLieuIs(q: Dec, terms: Terms, policy: ActionPolicy)
    requires terms.CashInLieu? && V(terms.lot) > 0.0
    requires var retained := Mul(Whole(WholeLots(V(q), terms.lot)), terms.lot); Fits(retained) && Fits(Sub(q, retained))
    ensures var retained := Mul(Whole(WholeLots(V(q), terms.lot)), terms.lot); var paid := Mul(Sub(q, retained), terms.price);
      && (Fractional(q, terms, policy).Some? <==>
           !policy.retainExact && InRange(retained, Holding) && Fits(paid) && InRange(paid, Money))
      && (Fractional(q, terms, policy).Some? ==>
           V(Fractional(q, terms, policy).value.1) == V(paid) && InRange(Fractional(q, terms, policy).value.1, Money))
  {
    hide V, Fits, InRange, Mul, Sub, Whole, WholeLots, Checked;
    var retained := Mul(Whole(WholeLots(V(q), terms.lot)), terms.lot);
    CheckedIs(retained, Holding);
    CheckedIs(Mul(Sub(q, retained), terms.price), Money);
  }

  lemma LotsExactly(q: Dec, terms: Terms, policy: ActionPolicy)
    requires -30 <= q.exp <= 36 && 0.0 <= V(q) <= Ten(36)
    requires terms.CashInLieu? && Positive(terms.lot, Quantity) && Positive(terms.price, Execution)
    ensures Fractional(q, terms, policy).Some? <==> Keepable(policy, terms, V(q), q.exp)
    ensures Fractional(q, terms, policy).Some? ==>
      var paid := Fractional(q, terms, policy).value.1;
      && -24 <= paid.exp <= 24 && 0.0 <= V(paid) <= Ten(24) && (V(paid) == 0.0 <==> exists n: int :: LotCount(V(q), V(terms.lot), n))
  {
    hide *;
    PositiveLot(terms.lot);
    var n := WholeLots(V(q), terms.lot);
    LotFigures(q, terms.lot, terms.price, n);
    InLieuIs(q, terms, policy);
    var retained := Mul(Whole(n), terms.lot);
    RangeIs(retained, Holding);
    RangeIs(Mul(Sub(q, retained), terms.price), Money);
    if Fractional(q, terms, policy).Some? { RangeIs(Fractional(q, terms, policy).value.1, Money); }
    OneLotCount(V(q), V(terms.lot), n);
    KeepableIs(policy, terms, V(q), q.exp, n);
  }

  lemma KeepableIs(policy: ActionPolicy, terms: Terms, x: real, places: int, n: int)
    requires terms.CashInLieu? && InLots(x, V(terms.lot), n) && forall m: int :: InLots(x, V(terms.lot), m) ==> m == n
    ensures Keepable(policy, terms, x, places) <==>
      !policy.retainExact && n as real * V(terms.lot) <= Ten(12) && Least(places, terms.lot.exp) + terms.price.exp >= -24
  {
    hide V, Ten, Least, InLots, OnGrid;
  }

  lemma OneLotCount(x: real, lot: real, n: int)
    requires lot > 0.0 && InLots(x, lot, n)
    ensures forall m: int :: InLots(x, lot, m) ==> m == n
    ensures (exists m: int :: LotCount(x, lot, m)) <==> x == n as real * lot
  {
    hide InLots, LotCount;
    forall m: int | InLots(x, lot, m) ensures m == n { SameLots(x, lot, m, n); }
    forall m: int | LotCount(x, lot, m) ensures InLots(x, lot, m) && x == m as real * lot { CountedLots(x, lot, m); }
    CountedLots(x, lot, n);
  }

  lemma CountedLots(x: real, lot: real, n: int)
    requires lot > 0.0
    ensures LotCount(x, lot, n) <==> x == n as real * lot
    ensures LotCount(x, lot, n) ==> InLots(x, lot, n)
  {
  }

  lemma SameLots(x: real, lot: real, m: int, n: int)
    requires lot > 0.0 && InLots(x, lot, m) && InLots(x, lot, n)
    ensures m == n
  {
    hide InLots;
    if m < n { EarlierLots(x, lot, m, n); } else if n < m { EarlierLots(x, lot, n, m); }
  }

  lemma EarlierLots(x: real, lot: real, m: int, n: int)
    requires lot > 0.0 && m < n && InLots(x, lot, m)
    ensures !InLots(x, lot, n)
  {
    LotsApart(m, n, lot, m as real * lot, n as real * lot);
  }

  lemma LotsApart(m: int, n: int, lot: real, before: real, after: real)
    requires m < n && lot > 0.0 && before == m as real * lot && after == n as real * lot
    ensures before + lot <= after
  {
    var d := (n - m - 1) as real;
    NonNegativeProduct(d, lot);
    Distribute(d, m as real + 1.0, lot);
    Distribute(m as real, 1.0, lot);
    assert n as real == d + (m as real + 1.0);
  }

  /** The reference of an instrument from the session right before the opening, of this run and known by then. */
  ghost predicate HasReference(before: Balance, b: Batch, i: Id) { exists r :: r in b.references && r.instrument == i && OfPriorSession(before, b, r) }

  predicate OfPriorSession(before: Balance, b: Batch, r: Reference) {
    && r.runId == before.header.runId && r.calendarId == before.header.calendarId
    && r.session < b.session.date && r.session in b.calendar.following && b.calendar.following[r.session] == b.session.date
    && r.session in b.calendar.schedule && r.manifest.eventTime == b.calendar.schedule[r.session].closeAt
    && Available(r.manifest, b.session.openAt, b)
  }

  lemma ReferenceFitsIs(r: Reference, c: Context)
    ensures ReferenceFits(r, c) <==> OfPriorSession(c.before, c.batch, r)
  {
    KnownIs(r.manifest, c.batch.session, c.batch);
    hide Known, Available;
  }

  lemma ReferenceExactly(converted: set<Id>, references: map<Id, SplitReference>, c: Context, i: Id)
    requires OneReferenceEach(c.batch)
    ensures PriorReference(converted, references, c, i).Some? <==> HasReference(c.before, c.batch, i)
  {
    hide V, FindReference, ReferenceFits, OfPriorSession;
    FindsReference(c.batch.references, i);
    if FindReference(c.batch.references, i).Some? { ReferenceFitsIs(FindReference(c.batch.references, i).value, c); }
    forall r ensures ReferenceFits(r, c) <==> OfPriorSession(c.before, c.batch, r) { ReferenceFitsIs(r, c); }
  }

  /** What a split asks: an open instrument, shares that can be kept, for shares held a reference, and for what is paid in lieu a session and a fresh claim. */
  ghost predicate Splits(before: Balance, b: Batch, a: Action)
    requires a.change.Split? && a.terms.Some?
  {
    var held := Held(before.positions, a.instrument);
    var x := Product(V(held), V(a.change.ratio));
    && a.instrument !in ActionsOf(before).closed && Cancellable(b, before, a.instrument)
    && Keepable(b.policy, a.terms.value, x, held.exp + a.change.ratio.exp)
    && (V(held) == 0.0 || HasReference(before, b, a.instrument))
    && (a.terms.value.CashInLieu? ==>
          && Witnessed(b.calendar, a.terms.value.payable)
          && ((exists n: int :: LotCount(x, V(a.terms.value.lot), n)) || Unclaimed(before, a.actionId)))
  }

  lemma ConvertedFigures(held: Dec, ratio: Dec)
    requires -6 <= held.exp <= 12 && 0.0 <= V(held) <= Ten(12) && Positive(ratio, Money)
    ensures var q := Mul(held, ratio);
      && Exact(q) == Some(q) && q.exp == held.exp + ratio.exp && -30 <= q.exp <= 36
      && V(q) == Product(V(held), V(ratio)) && 0.0 <= V(q) <= Ten(36)
  {
    hide *;
    PositiveRatio(ratio);
    MulExponent(held, ratio);
    ProductOf(held, ratio);
    ConvertedBound(V(held), V(ratio));
    RangeFits(Mul(held, ratio), 36);
  }

  lemma PositiveRatio(d: Dec)
    requires Positive(d, Money)
    ensures -24 <= d.exp <= 24 && 0.0 < V(d) <= Ten(24)
  {
    RangeIs(d, Money);
    hide V, Ten, InRange;
  }

  lemma ConvertedBound(x: real, y: real)
    requires 0.0 <= x <= Ten(12) && 0.0 < y <= Ten(24)
    ensures 0.0 <= Product(x, y) <= Ten(36)
  {
    NonNegativeProduct(x, y);
    TenAdd(12, 24);
    TenPositive(12);
    hide Ten;
    NonNegativeProduct(Ten(12) - x, y);
    NonNegativeProduct(Ten(12), Ten(24) - y);
  }

  lemma KeepsExactly(q: Dec, a: Action, policy: ActionPolicy)
    requires -30 <= q.exp <= 36 && 0.0 <= V(q) <= Ten(36) && ValidAction(a) && a.change.Split? && a.terms.Some?
    ensures Fractional(q, a.terms.value, policy).Some? <==> Keepable(policy, a.terms.value, V(q), q.exp)
    ensures a.terms.value.CashInLieu? && Fractional(q, a.terms.value, policy).Some? ==>
      var paid := Fractional(q, a.terms.value, policy).value.1;
      && -24 <= paid.exp <= 24 && 0.0 <= V(paid) <= Ten(24) && (V(paid) == 0.0 <==> exists n: int :: LotCount(V(q), V(a.terms.value.lot), n))
  {
    hide V, Ten, Fractional, Keepable, InRange, LotCount;
    match a.terms.value {
      case RetainExact(_, _) => RetainsExactly(q, a.terms.value, policy);
      case CashInLieu(_, _, _, _) => LotsExactly(q, a.terms.value, policy);
      case _ =>
    }
  }

  /** The stages of a split that its cancellations allow. */
  lemma SplitIs(w: Work, c: Context, a: Action)
    requires ValidAction(a) && a.change.Split? && a.terms.Some?
    requires Exact(Mul(Held(w.positions, a.instrument), a.change.ratio)).Some?
    ensures V(a.change.ratio) > 0.0
    ensures var q := Mul(Held(w.positions, a.instrument), a.change.ratio);
      var parts := Fractional(q, a.terms.value, c.batch.policy);
      var converted := if parts.Some? then Converted(w, c, a, a.change.ratio, parts.value.0) else None;
      var cancelled := if converted.Some? then Cancel(converted.value, c, a.instrument, SplitCancel) else None;
      && ApplyAction(w, c, a) == (
           if a.instrument in w.state.closed || cancelled.None? then None
           else if a.terms.value.CashInLieu? then Accrue(cancelled.value, c, a.actionId, parts.value.1, a.terms.value.payable, PrincipalClaim)
           else cancelled)
  {
    hide V, InRange, Cancel, Accrue, Mul, Fits, Held, Fractional, Converted, ApplyDelisting, CurrentSymbol;
  }

  lemma ScalesExactly(w: Work, c: Context, i: Id, quantity: Dec, ratio: Dec)
    requires V(ratio) > 0.0 && OneReferenceEach(c.batch)
    ensures ScaleReference(w, c, i, quantity, ratio).Some? <==> V(quantity) == 0.0 || HasReference(c.before, c.batch, i)
    ensures ScaleReference(w, c, i, quantity, ratio).Some? ==>
      var v := ScaleReference(w, c, i, quantity, ratio).value;
      v == w.(state := w.state.(references := v.state.references), converted := v.converted) && |v.state.references| <= |w.state.references| + 1
  {
    hide V, PriorReference, Scaled, HasReference, OneReferenceEach;
    ReferenceExactly(w.converted, w.state.references, c, i);
    if ScaleReference(w, c, i, quantity, ratio).Some? && V(quantity) != 0.0 {
      MapGrows(w.state.references, i, Scaled(PriorReference(w.converted, w.state.references, c, i).value, ratio));
    }
  }

  lemma ConvertedExactly(w: Work, c: Context, a: Action, kept: Dec)
    requires a.change.Split? && V(a.change.ratio) > 0.0 && OneReferenceEach(c.batch)
    ensures Converted(w, c, a, a.change.ratio, kept).Some? <==>
      V(Held(w.positions, a.instrument)) == 0.0 || HasReference(c.before, c.batch, a.instrument)
    ensures Converted(w, c, a, a.change.ratio, kept).Some? ==>
      var v := Converted(w, c, a, a.change.ratio, kept).value;
      && v.state == w.state.(references := v.state.references, boundaries := v.state.boundaries)
      && |v.state.references| <= |w.state.references| + 1 && |v.state.boundaries| <= |w.state.boundaries| + 1
      && v.obligations == w.obligations && v.income == w.income
  {
    hide V, ScaleReference, Held, HasReference, OneReferenceEach;
    ScalesExactly(w, c, a.instrument, Held(w.positions, a.instrument), a.change.ratio);
    MapGrows(w.state.boundaries, a.instrument, c.batch.session.openAt);
  }

  lemma SplitRatio(a: Action)
    requires ValidAction(a) && a.change.Split?
    ensures Positive(a.change.ratio, Money) && V(a.change.ratio) > 0.0
  {
    hide V, InRange, ValidTerms;
  }

  /** The last stage of a split: the claim in lieu, if there is to be one. */
  lemma InLieuExactly(w: Work, c: Context, a: Action, paid: Dec, payable: Date)
    requires SameClaims(w, c.before) && InRange(c.before.income, Money)
    requires -24 <= paid.exp <= 24 && 0.0 <= V(paid) <= Ten(24)
    ensures Accrue(w, c, a.actionId, paid, payable, PrincipalClaim).Some? <==>
      Witnessed(c.batch.calendar, payable) && (V(paid) == 0.0 || Unclaimed(c.before, a.actionId))
    ensures Accrue(w, c, a.actionId, paid, payable, PrincipalClaim).Some? ==>
      var v := Accrue(w, c, a.actionId, paid, payable, PrincipalClaim).value;
      v.state == w.state.(claims := v.state.claims) && |v.state.claims| <= |w.state.claims| + 1
  {
    hide V, Ten, InRange, Accrue, Witnessed, SameClaims, ActionsOf;
    AccrueExactly(w, c, a.actionId, paid, payable, PrincipalClaim);
    if Accrue(w, c, a.actionId, paid, payable, PrincipalClaim).Some? { AccrueGrows(w, c, a.actionId, paid, payable, PrincipalClaim); }
  }

  lemma SplitStages(c: Context, a: Action)
    requires OneReferenceEach(c.batch) && ValidAction(a) && a.change.Split? && a.terms.Some? && Room(c.before) && Figures(c.before)
    ensures ApplyAction(Start(c.before), c, a).Some? <==> Splits(c.before, c.batch, a)
    ensures ApplyAction(Start(c.before), c, a).Some? ==> Grown(ActionsOf(c.before), ApplyAction(Start(c.before), c, a).value.state)
  {
    hide ActionsOf, Cancellable, ApplyAction, V, Ten, InRange, Cancel, Held, HeldInRange, ValidAction, Figures, OneReferenceEach, Mul, Exact, Fits, Product,
      Fractional, Converted, Accrue, Keepable, HasReference, Witnessed, Unclaimed, LotCount, Positive;
    var w := Start(c.before);
    var held := Held(w.positions, a.instrument);
    FiguresAre(c.before);
    HeldIs(c.before.positions, a.instrument);
    SplitRatio(a);
    var q := Mul(held, a.change.ratio);
    ConvertedFigures(held, a.change.ratio);
    KeepsExactly(q, a, c.batch.policy);
    SplitIs(w, c, a);
    if Fractional(q, a.terms.value, c.batch.policy).Some? {
      var parts := Fractional(q, a.terms.value, c.batch.policy).value;
      ConvertedExactly(w, c, a, parts.0);
      if Converted(w, c, a, a.change.ratio, parts.0).Some? {
        var w2 := Converted(w, c, a, a.change.ratio, parts.0).value;
        CancelExactly(w2, c, a.instrument, SplitCancel);
        if Cancel(w2, c, a.instrument, SplitCancel).Some? {
          CancelKeeps(w2, c, a.instrument, SplitCancel);
          if a.terms.value.CashInLieu? {
            InLieuExactly(Cancel(w2, c, a.instrument, SplitCancel).value, c, a, parts.1, a.terms.value.payable);
          }
        }
      }
    }
  }

  /**
    An opening with one new split is accepted exactly when the instrument is open, its orders can
    be cancelled, its converted shares can be kept as the terms say, shares held have their
    reference, and what is paid in lieu has its session and a fresh claim.
   */
  lemma SplitAccepted(b: Batch, before: Balance, a: Action)
    requires ValidBatch(b) && Passes(b, before) && OnlyNew(b, before, a) && Room(before) && a.change.Split? && Figures(before)
    ensures a.terms.Some? && (ReduceBatch(before, b).Some? <==> OneReferenceEach(b) && Splits(before, b, a))
  {
    hide *;
    OnlyOpening(b, before, a);
    ActionIsValid(b, a);
    HasTerms(b, before, a);
    if OneReferenceEach(b) {
      SplitStages(Context(before, b, Selection([a], [])), a);
      AcceptedByStage(b, before, a);
    } else {
      OneActionStages(b, before, a);
    }
  }

  // ----- Mergers -----

  /** One new merger and no new action. */
  predicate OnlyMerged(b: Batch, before: Balance, m: Merger) {
    b.mode == OpeningMode && NewActions(b, ActionsOf(before).applied) == {} && NewMergers(b, ActionsOf(before).applied) == {m}
  }

  lemma OneMerged(b: Batch, before: Balance, m: Merger)
    requires Passes(b, before) && OnlyMerged(b, before, m)
    ensures Select(b, before) == Some(Selection([], [m])) && m in b.mergers && b.mode == OpeningMode
  {
    hide Select, Passes, NewActions, NewMergers, Chosen, SeriesHold, MergersFit, ActionsOf, SameSets, Distinct;
    SelectAdmits(b, before);
    SelectionChecks(b, before);
    ChosenIsNew(b, ActionsOf(before).applied);
    MergersDistinct(b, ActionsOf(before).applied);
    AloneMerged(Select(b, before).value, m);
    NewIsSubmitted(b, ActionsOf(before).applied, m);
  }

  lemma NewIsSubmitted(b: Batch, applied: map<Id, Applied>, m: Merger)
    requires m in NewMergers(b, applied)
    ensures m in b.mergers
  {
  }

  lemma AloneMerged(s: Selection, m: Merger)
    requires SelectionAdmission.SameSets(s, {}, {m}) && Distinct(s.mergers)
    ensures s == Selection([], [m])
  {
    NothingNew(s, {}, {m});
    assert |s.mergers| > 1 ==> s.mergers[0] != s.mergers[1];
    assert forall k | 0 <= k < |s.mergers| :: s.mergers[k] in s.mergers;
    assert m in s.mergers;
    assert s.mergers == [m] && s.actions == [];
  }

  lemma MergersDistinct(b: Batch, applied: map<Id, Applied>)
    requires MergersFit(b, applied)
    ensures Distinct(Chosen(b, applied).mergers)
  {
    hide MergersFit, Chosen, MergerBefore, Sorted;
    ActionSelection.ChosenMergers(b, applied);
  }

  lemma OneMergerApplied(w: Work, c: Context, m: Merger)
    ensures ApplyMergers(w, c, [m]) == ApplyMerger(w, c, m) && ApplyActions(w, c, []) == Some(w) && ApplyIncomes(w, c, []) == Some(w)
  {
    hide ApplyMerger;
    assert [m][1..] == [];
  }

  lemma MergerStages(b: Batch, before: Balance, m: Merger)
    requires Passes(b, before) && OnlyMerged(b, before, m)
    ensures var v := ApplyMerger(Start(before), Context(before, b, Selection([], [m])), m);
      ReduceBatch(before, b).Some? <==> OneReferenceEach(b) && v.Some? && WithinLimits(v.value.state)
  {
    hide Select, ApplyActions, ApplyMergers, ApplyIncomes, ApplyMerger, Conclude, Passes, Start, UniqueReferences, OneReferenceEach, WithinLimits, OnlyMerged;
    OneMerged(b, before, m);
    SameUnique(b);
    var c := Context(before, b, Selection([], [m]));
    OneMergerApplied(Start(before), c, m);
    if ApplyMerger(Start(before), c, m).Some? {
      var v := ApplyMerger(Start(before), c, m).value;
      OneMergerApplied(v, c, m);
      OpeningConcludes(v, c);
    }
  }

  /** What a merger asks: both instruments open, orders on the source that can be cancelled, and shares of the target that can be held. */
  ghost predicate Merges(before: Balance, b: Batch, m: Merger) {
    var x := V(Held(before.positions, m.target)) + Product(V(Held(before.positions, m.source)), V(m.ratio));
    && m.source !in ActionsOf(before).closed && m.target !in ActionsOf(before).closed
    && Cancellable(b, before, m.source)
    && x <= Ten(12) && OnGrid(x, 6)
  }

  lemma MergedFigures(held: Dec, moving: Dec, ratio: Dec)
    requires -6 <= held.exp <= 12 && 0.0 <= V(held) <= Ten(12) && -6 <= moving.exp <= 12 && 0.0 <= V(moving) <= Ten(12)
    requires Positive(ratio, Money)
    ensures var moved := Mul(moving, ratio); var sum := Add(held, moved);
      && Exact(moved) == Some(moved) && Exact(sum) == Some(sum) && V(sum) == V(held) + Product(V(moving), V(ratio))
      && (Checked(Normalize(sum), Holding, false).Some? <==> V(sum) <= Ten(12) && OnGrid(V(sum), 6))
  {
    hide *;
    ConvertedFigures(moving, ratio);
    var moved := Mul(moving, ratio);
    var sum := Add(held, moved);
    SumFigures(held, moved);
    TwelveAndThirtySix();
    RangeFits(sum, 37);
    HoldingIs(sum);
    CheckedIs(Normalize(sum), Holding);
  }

  lemma SumFigures(a: Dec, b: Dec)
    ensures Add(a, b).exp == (if a.exp <= b.exp then a.exp else b.exp) && V(Add(a, b)) == V(a) + V(b)
  {
    hide V;
  }

  lemma TwelveAndThirtySix()
    ensures 0.0 <= Ten(12) + Ten(36) <= Ten(37)
  {
    Pow10Grows(12, 36);
    assert Pow10(37) == 10 * Pow10(36);
    hide Pow10;
    TenPositive(12);
  }

  function Joined(w: Work, m: Merger): Dec { Add(Held(w.positions - {m.source}, m.target), Mul(Held(w.positions, m.source), m.ratio)) }

  lemma MergerIs(w: Work, c: Context, m: Merger)
    requires Exact(Mul(Held(w.positions, m.source), m.ratio)).Some? && Exact(Joined(w, m)).Some?
    ensures var held := Checked(Normalize(Joined(w, m)), Holding, false);
      var cancelled := if held.Some? then Cancel(Merged(w, m, held.value), c, m.source, MergerCancel) else None;
      ApplyMerger(w, c, m) ==
        if m.source in w.state.closed || m.target in w.state.closed || cancelled.None? then None else Some(Enrolled(cancelled.value, m))
  {
    hide V, Cancel, Held, Mul, Add, Fits, Normalize, Checked, Merged, Enrolled;
  }

  lemma EnrolledFits(before: Balance, m: Merger, held: Dec, v: Work)
    requires Room(before) && |v.state.cancelled| <= 4096
    requires v.state == Merged(Start(before), m, held).state.(cancelled := v.state.cancelled)
    ensures WithinLimits(Enrolled(v, m).state)
  {
    hide ActionsOf;
    SetGrows(ActionsOf(before).closed, m.source);
    MapGrows(ActionsOf(before).applied, m.mappingId, Applied(m.manifest.revision, FromMerger(m)));
  }

  lemma MergedIs(before: Balance, m: Merger, held: Dec)
    ensures Merged(Start(before), m, held).state.cancelled == ActionsOf(before).cancelled
  {
  }

  lemma HeldApart(positions: map<Id, Dec>, m: Merger)
    requires m.source != m.target
    ensures Held(positions - {m.source}, m.target) == Held(positions, m.target)
  {
  }

  lemma MergerParts(m: Merger)
    requires ValidMerger(m)
    ensures m.source != m.target && Positive(m.ratio, Money)
  {
    hide Positive;
  }

  lemma MergerExactly(c: Context, m: Merger)
    requires ValidMerger(m) && Figures(c.before) && Room(c.before)
    ensures ApplyMerger(Start(c.before), c, m).Some? <==> Merges(c.before, c.batch, m)
    ensures ApplyMerger(Start(c.before), c, m).Some? ==> WithinLimits(ApplyMerger(Start(c.before), c, m).value.state)
  {
    hide *;
    var w, positions := Start(c.before), c.before.positions;
    MergerParts(m);
    FiguresAre(c.before);
    StartFrom(c.before);
    HeldIs(positions, m.source);
    HeldIs(positions, m.target);
    HeldApart(positions, m);
    JoinedIs(w, m);
    MergedFigures(Held(positions, m.target), Held(positions, m.source), m.ratio);
    MergerIs(w, c, m);
    MergesIs(c.before, c.batch, m);
    if Checked(Normalize(Joined(w, m)), Holding, false).Some? {
      var held := Checked(Normalize(Joined(w, m)), Holding, false).value;
      MergedIs(c.before, m, held);
      CancelExactly(Merged(w, m, held), c, m.source, MergerCancel);
      if Cancel(Merged(w, m, held), c, m.source, MergerCancel).Some? {
        CancelKeeps(Merged(w, m, held), c, m.source, MergerCancel);
        EnrolledFits(c.before, m, held, Cancel(Merged(w, m, held), c, m.source, MergerCancel).value);
      }
    }
  }

  lemma JoinedIs(w: Work, m: Merger)
    ensures Joined(w, m) == Add(Held(w.positions - {m.source}, m.target), Mul(Held(w.positions, m.source), m.ratio))
  {
  }

  lemma MergesIs(before: Balance, b: Batch, m: Merger)
    ensures var x := V(Held(before.positions, m.target)) + Product(V(Held(before.positions, m.source)), V(m.ratio));
      Merges(before, b, m) <==>
        && m.source !in ActionsOf(before).closed && m.target !in ActionsOf(before).closed && Cancellable(b, before, m.source)
        && x <= Ten(12) && OnGrid(x, 6)
  {
    hide V, Ten, OnGrid, Product, Cancellable, ActionsOf, Held;
  }

  /**
    An opening with one new merger is accepted exactly when both instruments are open, the orders
    on the source can be cancelled, and what the target then has is at most a million million
    shares in millionths.
   */
  lemma MergerAccepted(b: Batch, before: Balance, m: Merger)
    requires ValidBatch(b) && Passes(b, before) && OnlyMerged(b, before, m) && Room(before) && Figures(before)
    ensures ReduceBatch(before, b).Some? <==> OneReferenceEach(b) && Merges(before, b, m)
  {
    hide *;
    OneMerged(b, before, m);
    MergerIsValid(b, m);
    MergerStages(b, before, m);
    MergerExactly(Context(before, b, Selection([], [m])), m);
  }

  lemma MergerIsValid(b: Batch, m: Merger)
    requires ValidBatch(b) && m in b.mergers
    ensures ValidMerger(m)
  {
    hide ValidMerger;
  }
}
