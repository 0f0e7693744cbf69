/**
  What an accepted opening makes of shares: splits, mergers and what neither concerns, and the
  amounts that splits with cash in lieu, delistings and dividends pay on them.
 */
module BatchShares {
  import opened Options
  import opened Decimals
  import opened Contracts
  import opened Accounts
  import opened Ordering
  import opened CorporateActions
  import opened BatchInvariants
  import opened ActionSelection
  import opened BatchEffects

  // ----- Shares -----

  /** What a split makes of so many converted shares: all of them, or as many whole lots as they hold. */
  ghost predicate KeptOf(converted: real, terms: Terms, kept: real) {
    match terms
    case RetainExact(_, _) => kept == converted
    case CashInLieu(lot, _, _, _) => kept <= converted < kept + V(lot) && exists n: int :: LotCount(kept, V(lot), n)
    case _ => false
  }

  predicate LotCount(kept: real, lot: real, n: int) { kept == n as real * lot }

  /** What is left over of the fractions is paid at the stated price. */
  predicate InLieu(converted: real, kept: real, terms: Terms, amount: real) {
    terms.CashInLieu? ==> amount == (converted - kept) * V(terms.price)
  }

  lemma LotFloor(q: real, l: real, n: int)
    requires l > 0.0 && n == (q / l).Floor
    ensures n as real * l <= q < n as real * l + l
  {
    var x := q / l;
    assert x * l == q;
    LotBounds(q, l, x, n as real);
  }

  lemma LotBounds(q: real, l: real, x: real, m: real)
    requires l > 0.0 && x * l == q && m <= x < m + 1.0
    ensures m * l <= q < m * l + l
  {
    var k := m + 1.0;
    ScaledOrder(m, x, l);
    ScaledOrder(x, k, l);
    assert q < k * l;
    assert q < m * l + l;
  }

  lemma ScaledOrder(a: real, b: real, l: real)
    requires l > 0.0 && a <= b
    ensures a * l <= b * l && (a < b ==> a * l < b * l)
  {
    SignOfProduct(b - a, l);
    Distribute(b - a, a, l);
  }

  lemma LotsKept(quantity: Dec, terms: Terms, policy: ActionPolicy, kept: Dec, paid: Dec)
    requires terms.CashInLieu? && Fractional(quantity, terms, policy) == Some((kept, paid))
    ensures V(terms.lot) > 0.0 && V(kept) == WholeLots(V(quantity), terms.lot) as real * V(terms.lot)
    ensures V(paid) == (V(quantity) - V(kept)) * V(terms.price)
  {
    hide V, Fits, Add, Sub, Mul, Normalize, Whole, WholeLots, Checked, Exact, InRange;
  }

  lemma FractionalKeeps(quantity: Dec, terms: Terms, policy: ActionPolicy, kept: Dec, paid: Dec)
    requires Fractional(quantity, terms, policy) == Some((kept, paid))
    ensures KeptOf(V(quantity), terms, V(kept)) && InLieu(V(quantity), V(kept), terms, V(paid))
  {
    hide V, Fits, Add, Sub, Mul, Normalize, Whole, Checked, Exact, InRange;
    if terms.CashInLieu? {
      LotsKept(quantity, terms, policy, kept, paid);
      var n := WholeLots(V(quantity), terms.lot);
      LotFloor(V(quantity), V(terms.lot), n);
      assert LotCount(V(kept), V(terms.lot), n);
    }
  }

  function SharesIn(positions: map<Id, Dec>, i: Id): real { V(Held(positions, i)) }

  predicate SplitOf(a: Action, i: Id) { a.change.Split? && a.instrument == i }

  predicate DelistingOf(a: Action, i: Id) { a.change.Delisting? && a.instrument == i }

  /** The positions and the shares that dividends are paid on are as they were. */
  predicate SameHolding(w: Work, v: Work, i: Id) { Held(v.positions, i) == Held(w.positions, i) && Held(v.shares, i) == Held(w.shares, i) }

  lemma SplitShares(w: Work, c: Context, a: Action, ratio: Dec, v: Work)
    requires V(ratio) > 0.0 && ApplySplit(w, c, a, ratio) == Some(v)
    ensures a.terms.Some? && KeptOf(Product(SharesIn(w.positions, a.instrument), V(ratio)), a.terms.value, SharesIn(v.positions, a.instrument))
    ensures Held(v.shares, a.instrument) == Held(v.positions, a.instrument)
    ensures forall i | i != a.instrument :: SameHolding(w, v, i)
  {
    hide *;
    SplitShape(w, c, a, ratio);
    var converted := Mul(Held(w.positions, a.instrument), ratio);
    var parts := Fractional(converted, a.terms.value, c.batch.policy).value;
    FractionalKeeps(converted, a.terms.value, c.batch.policy, parts.0, parts.1);
    var w2 := Converted(w, c, a, ratio, parts.0).value;
    ConvertedShares(w, c, a, ratio, parts.0);
    CancelKeeps(w2, c, a.instrument, SplitCancel);
    var w3 := Cancel(w2, c, a.instrument, SplitCancel).value;
    if a.terms.value.CashInLieu? { AccrueShape(w3, c, a.actionId, parts.1, a.terms.value.payable, PrincipalClaim); }
    ProductOf(Held(w.positions, a.instrument), ratio);
    SharesInIs(w.positions, a.instrument);
    SharesInIs(v.positions, a.instrument);
    assert v.positions == w2.positions && v.shares == w2.shares;
    HoldingFrame(w, w2, v, a.instrument);
  }

  lemma SharesInIs(positions: map<Id, Dec>, i: Id)
    ensures SharesIn(positions, i) == V(Held(positions, i))
  {
  }

  lemma HoldingFrame(w: Work, w2: Work, v: Work, i: Id)
    requires v.positions == w2.positions && v.shares == w2.shares && forall j | j != i :: SameHolding(w, w2, j)
    ensures forall j | j != i :: SameHolding(w, v, j)
  {
    forall j | j != i ensures SameHolding(w, v, j) { assert SameHolding(w, w2, j); }
  }

  lemma ConvertedShares(w: Work, c: Context, a: Action, ratio: Dec, kept: Dec)
    requires V(ratio) > 0.0 && Converted(w, c, a, ratio, kept).Some?
    ensures var v := Converted(w, c, a, ratio, kept).value;
      Held(v.positions, a.instrument) == kept && Held(v.shares, a.instrument) == kept && forall i | i != a.instrument :: SameHolding(w, v, i)
  {
    hide V, PriorReference, Scaled;
  }

  lemma DelistingShares(w: Work, c: Context, a: Action, v: Work)
    requires ApplyDelisting(w, c, a) == Some(v)
    ensures Held(v.positions, a.instrument) == ZERO && forall i | i != a.instrument :: Held(v.positions, i) == Held(w.positions, i)
    ensures v.shares == w.shares
  {
    hide *;
    DelistingShape(w, c, a);
    EmptiedShares(w, a);
    CancelKeeps(Emptied(w, a), c, a.instrument, DelistingCancel);
    var w2 := Cancel(Emptied(w, a), c, a.instrument, DelistingCancel).value;
    match a.terms.value
    case CashSettlement(perShare, payable, _) =>
      AccrueShape(w2, c, a.actionId, Mul(Held(w.positions, a.instrument), perShare), payable, PrincipalClaim);
    case _ =>
  }

  lemma EmptiedShares(w: Work, a: Action)
    ensures var v := Emptied(w, a);
      Held(v.positions, a.instrument) == ZERO && v.shares == w.shares && forall i | i != a.instrument :: Held(v.positions, i) == Held(w.positions, i)
  {
  }

  /** What an action makes of one instrument's shares. */
  lemma ActionShares(w: Work, c: Context, a: Action, v: Work, i: Id)
    requires ApplyAction(w, c, a) == Some(v)
    ensures !SplitOf(a, i) ==> Held(v.shares, i) == Held(w.shares, i)
    ensures !SplitOf(a, i) && !DelistingOf(a, i) ==> Held(v.positions, i) == Held(w.positions, i)
    ensures SplitOf(a, i) ==>
      && a.terms.Some? && KeptOf(Product(SharesIn(w.positions, i), V(a.change.ratio)), a.terms.value, SharesIn(v.positions, i))
      && Held(v.shares, i) == Held(v.positions, i)
    ensures DelistingOf(a, i) ==> Held(v.positions, i) == ZERO
  {
    hide V, InRange, ApplySplit, ApplyDelisting, CurrentSymbol, KeptOf, SharesIn, Held, Product;
    match a.change
    case Split(ratio) =>
      SplitShares(w, c, a, ratio, v);
      if i != a.instrument { assert SameHolding(w, v, i); }
    case Delisting => DelistingShares(w, c, a, v);
    case TickerChange(_, _) =>
    case Dividend(_, _) =>
  }

  /** Actions that neither split nor delist an instrument leave its shares; delistings leave what dividends are paid on. */
  lemma {:induction false} ActionsLeave(w: Work, c: Context, actions: seq<Action>, v: Work, i: Id)
    requires ApplyActions(w, c, actions) == Some(v) && forall a | a in actions :: !SplitOf(a, i)
    ensures Held(v.shares, i) == Held(w.shares, i)
    ensures (forall a | a in actions :: !DelistingOf(a, i)) ==> Held(v.positions, i) == Held(w.positions, i)
    decreases |actions|
  {
    hide ApplyAction, Held, KeptOf, SharesIn, SplitOf, DelistingOf;
    if actions != [] {
      var u := ApplyAction(w, c, actions[0]).value;
      ActionShares(w, c, actions[0], u, i);
      ActionsLeave(u, c, actions[1..], v, i);
    }
  }

  /** One split among the actions decides the shares of its instrument. */
  lemma {:induction false} ActionsSplit(w: Work, c: Context, actions: seq<Action>, v: Work, k: nat)
    requires ApplyActions(w, c, actions) == Some(v) && k < |actions| && actions[k].change.Split?
    requires forall j | 0 <= j < |actions| && j != k :: !SplitOf(actions[j], actions[k].instrument)
    requires forall j | 0 <= j < |actions| :: !DelistingOf(actions[j], actions[k].instrument)
    ensures var a := actions[k]; var i := a.instrument;
      && a.terms.Some? && KeptOf(Product(SharesIn(w.positions, i), V(a.change.ratio)), a.terms.value, SharesIn(v.positions, i))
      && Held(v.shares, i) == Held(v.positions, i)
    decreases |actions|
  {
    hide ApplyAction, KeptOf, SplitOf, DelistingOf, V, Held, Product;
    var i := actions[k].instrument;
    var u := ApplyAction(w, c, actions[0]).value;
    ActionShares(w, c, actions[0], u, i);
    SplitOfIs(actions[k], i);
    if k == 0 {
      forall a | a in actions[1..] ensures !SplitOf(a, i) && !DelistingOf(a, i) {
        var j :| 0 <= j < |actions[1..]| && actions[1..][j] == a;
        assert actions[j + 1] == a;
      }
      ActionsLeave(u, c, actions[1..], v, i);
    } else {
      ActionsSplit(u, c, actions[1..], v, k - 1);
    }
  }

  lemma SplitOfIs(a: Action, i: Id)
    ensures SplitOf(a, i) <==> a.change.Split? && a.instrument == i
    ensures DelistingOf(a, i) <==> a.change.Delisting? && a.instrument == i
  {
  }

  // ----- Mergers and incomes -----

  lemma MergerShares(w: Work, c: Context, m: Merger, v: Work)
    requires m.source != m.target && ApplyMerger(w, c, m) == Some(v)
    ensures SharesIn(v.positions, m.target) == SharesIn(w.positions, m.target) + Product(SharesIn(w.positions, m.source), V(m.ratio))
    ensures Held(v.positions, m.source) == ZERO && Held(v.shares, m.target) == Held(v.positions, m.target)
    ensures forall i | i != m.source && i != m.target :: SameHolding(w, v, i)
  {
    hide V, Mul, Add, Fits, Normalize, Checked, Cancel, Product;
    ProductOf(Held(w.positions, m.source), m.ratio);
    var converted := Add(Held(w.positions - {m.source}, m.target), Mul(Held(w.positions, m.source), m.ratio));
    var held := Checked(Normalize(converted), Holding, false).value;
    CancelKeeps(Merged(w, m, held), c, m.source, MergerCancel);
  }

  lemma {:induction false} MergersLeave(w: Work, c: Context, mergers: seq<Merger>, v: Work, i: Id)
    requires ApplyMergers(w, c, mergers) == Some(v) && forall m | m in mergers :: m.source != m.target
    requires forall m | m in mergers :: m.source != i && m.target != i
    ensures SameHolding(w, v, i)
    decreases |mergers|
  {
    hide ApplyMerger, SharesIn, Held;
    if mergers != [] {
      var u := ApplyMerger(w, c, mergers[0]).value;
      MergerShares(w, c, mergers[0], u);
      assert SameHolding(w, u, i);
      MergersLeave(u, c, mergers[1..], v, i);
    }
  }

  /** A merger that shares its instruments with no other moves the source's shares to the target. */
  lemma {:induction false} MergersMove(w: Work, c: Context, mergers: seq<Merger>, v: Work, k: nat)
    requires ApplyMergers(w, c, mergers) == Some(v) && k < |mergers| && forall m | m in mergers :: m.source != m.target
    requires forall j | 0 <= j < |mergers| && j != k :: {mergers[j].source, mergers[j].target} !! {mergers[k].source, mergers[k].target}
    ensures var m := mergers[k];
      && SharesIn(v.positions, m.target) == SharesIn(w.positions, m.target) + Product(SharesIn(w.positions, m.source), V(m.ratio))
      && Held(v.positions, m.source) == ZERO && Held(v.shares, m.target) == Held(v.positions, m.target)
    decreases |mergers|
  {
    hide ApplyMerger, V, Product;
    var m := mergers[k];
    var u := ApplyMerger(w, c, mergers[0]).value;
    MergerShares(w, c, mergers[0], u);
    if k == 0 {
      forall n | n in mergers[1..] ensures n.source != m.source && n.target != m.source && n.source != m.target && n.target != m.target {
        var j :| 0 <= j < |mergers[1..]| && mergers[1..][j] == n;
        assert mergers[j + 1] == n;
      }
      hide Held;
      MergersLeave(u, c, mergers[1..], v, m.source);
      MergersLeave(u, c, mergers[1..], v, m.target);
    } else {
      assert SameHolding(w, u, m.source) && SameHolding(w, u, m.target);
      hide Held;
      MergersMove(u, c, mergers[1..], v, k - 1);
    }
  }

  lemma IncomeMovesNothing(w: Work, c: Context, a: Action, v: Work)
    requires ApplyIncome(w, c, a) == Some(v)
    ensures v.positions == w.positions && v.shares == w.shares
  {
    hide V, ApplyDividend, Accrue;
    match a.change
    case Dividend(perShare, payable) =>
      DividendShape(w, c, a, perShare, payable);
      var amount :| ApplyDividend(w, c, a, perShare, payable) == Accrue(w, c, a.actionId, amount, payable, DividendClaim);
      AccrueShape(w, c, a.actionId, amount, payable, DividendClaim);
    case _ =>
  }

  lemma {:induction false} IncomesMoveNothing(w: Work, c: Context, actions: seq<Action>, v: Work)
    requires ApplyIncomes(w, c, actions) == Some(v)
    ensures v.positions == w.positions && v.shares == w.shares
    decreases |actions|
  {
    hide ApplyIncome;
    if actions != [] {
      var u := ApplyIncome(w, c, actions[0]).value;
      IncomeMovesNothing(w, c, actions[0], u);
      IncomesMoveNothing(u, c, actions[1..], v);
    }
  }

  // ----- Whole openings -----

  predicate InMerger(m: Merger, i: Id) { m.source == i || m.target == i }

  lemma NonZeroShares(positions: map<Id, Dec>, i: Id)
    ensures SharesIn(NonZero(positions), i) == SharesIn(positions, i)
  {
    ValueZero();
    hide V;
  }

  lemma SharesOfHeld(p: map<Id, Dec>, q: map<Id, Dec>, i: Id)
    requires Held(p, i) == Held(q, i)
    ensures SharesIn(p, i) == SharesIn(q, i)
  {
  }

  lemma SplitsDiffer(b: Batch, before: Balance)
    requires b.mode == OpeningMode && Select(b, before).Some?
    ensures var actions := Select(b, before).value.actions;
      forall i, j | 0 <= i < |actions| && 0 <= j < |actions| && i != j && actions[i].change.Split? && actions[j].change.Split? ::
        actions[i].instrument != actions[j].instrument
  {
    hide SeriesHold, ActionsFit, MergersFit, Chosen, Affected, Stale, SessionOf, ActionsOf;
  }

  /** An instrument that no selected split, delisting or merger concerns keeps its shares. */
  lemma UntouchedStays(before: Balance, b: Batch, w: Work, i: Id)
    requires ValidBatch(b) && b.mode == OpeningMode && ReduceBatch(before, b) == Some(w)
    requires Select(b, before).Some?
    requires forall a | a in Select(b, before).value.actions :: !SplitOf(a, i) && !DelistingOf(a, i)
    requires forall m | m in Select(b, before).value.mergers :: !InMerger(m, i)
    ensures SharesIn(w.positions, i) == SharesIn(before.positions, i)
  {
    hide V, Select, ApplyActions, ApplyMergers, ApplyIncomes, ReduceBatch, Chosen, ValidBatch, SplitOf, DelistingOf, Held, NonZero, SharesIn, ActionsOf;
    var c, w1, w2, w3 := OpeningStages(before, b, w);
    BatchInvariants.ChosenMergers(b, before);
    ActionsLeave(Start(before), c, c.selection.actions, w1, i);
    MergersLeave(w1, c, c.selection.mergers, w2, i);
    IncomesMoveNothing(w2, c, c.selection.actions, w3);
    NonZeroShares(w3.positions, i);
    SharesOfHeld(w3.positions, before.positions, i);
  }

  /** The shares of an instrument that is split and neither delisted nor merged. */
  lemma SplitConverts(before: Balance, b: Batch, w: Work, k: nat)
    requires ValidBatch(b) && b.mode == OpeningMode && ReduceBatch(before, b) == Some(w)
    requires Select(b, before).Some? && k < |Select(b, before).value.actions| && Select(b, before).value.actions[k].change.Split?
    requires forall a | a in Select(b, before).value.actions :: !DelistingOf(a, Select(b, before).value.actions[k].instrument)
    requires forall m | m in Select(b, before).value.mergers :: !InMerger(m, Select(b, before).value.actions[k].instrument)
    ensures var a := Select(b, before).value.actions[k];
      a.terms.Some? && KeptOf(Product(SharesIn(before.positions, a.instrument), V(a.change.ratio)), a.terms.value, SharesIn(w.positions, a.instrument))
  {
    hide V, Select, ApplyActions, ApplyMergers, ApplyIncomes, ReduceBatch, Chosen, ValidBatch, DelistingOf, Held, NonZero, SharesIn, ActionsOf,
      Product, KeptOf;
    var c, w1, w2, w3 := OpeningStages(before, b, w);
    var i := c.selection.actions[k].instrument;
    BatchInvariants.ChosenMergers(b, before);
    SplitsDiffer(b, before);
    ActionsSplit(Start(before), c, c.selection.actions, w1, k);
    MergersLeave(w1, c, c.selection.mergers, w2, i);
    IncomesMoveNothing(w2, c, c.selection.actions, w3);
    NonZeroShares(w3.positions, i);
    SharesOfHeld(w3.positions, w1.positions, i);
  }

  /** A merger moves the source's shares, at its ratio, to those of the target. */
  lemma MergerMoves(before: Balance, b: Batch, w: Work, k: nat)
    requires ValidBatch(b) && b.mode == OpeningMode && ReduceBatch(before, b) == Some(w)
    requires Select(b, before).Some? && k < |Select(b, before).value.mergers|
    requires var s := Select(b, before).value; var m := s.mergers[k];
      && (forall a | a in s.actions :: !SplitOf(a, m.source) && !DelistingOf(a, m.source) && !SplitOf(a, m.target) && !DelistingOf(a, m.target))
      && forall j | 0 <= j < |s.mergers| && j != k :: {s.mergers[j].source, s.mergers[j].target} !! {m.source, m.target}
    ensures var m := Select(b, before).value.mergers[k];
      && SharesIn(w.positions, m.target) == SharesIn(before.positions, m.target) + Product(SharesIn(before.positions, m.source), V(m.ratio))
      && SharesIn(w.positions, m.source) == 0.0
  {
    hide V, Select, ApplyActions, ApplyMergers, ApplyIncomes, ReduceBatch, Chosen, ValidBatch, SplitOf, DelistingOf, Held, NonZero, SharesIn, ActionsOf,
      Product;
    var c, w1, w2, w3 := OpeningStages(before, b, w);
    var m := c.selection.mergers[k];
    BatchInvariants.ChosenMergers(b, before);
    ActionsLeave(Start(before), c, c.selection.actions, w1, m.source);
    ActionsLeave(Start(before), c, c.selection.actions, w1, m.target);
    MergersMove(w1, c, c.selection.mergers, w2, k);
    IncomesMoveNothing(w2, c, c.selection.actions, w3);
    NonZeroShares(w3.positions, m.source);
    NonZeroShares(w3.positions, m.target);
    SharesOfHeld(w1.positions, before.positions, m.source);
    SharesOfHeld(w1.positions, before.positions, m.target);
    NoShares(w3.positions, m.source);
  }

  lemma NoShares(positions: map<Id, Dec>, i: Id)
    requires Held(positions, i) == ZERO
    ensures SharesIn(positions, i) == 0.0
  {
    ValueZero();
    hide V;
  }

  // ----- What is paid -----

  /** An action adds one claim of this amount, or none for nothing. */
  predicate PaysAmount(prior: map<Id, Claim>, now: map<Id, Claim>, action: Id, amount: real) {
    if amount == 0.0 then action in now <==> action in prior
    else action !in prior && action in now && V(now[action].amount) == amount
  }

  lemma AccrueAmount(w: Work, c: Context, action: Id, amount: Dec, payable: Date, kind: ClaimKind, v: Work)
    requires Accrue(w, c, action, amount, payable, kind) == Some(v)
    ensures PaysAmount(w.state.claims, v.state.claims, action, V(amount))
  {
    hide V, Due, Exact, Add;
  }

  /** What a dividend comes to on so many shares; declared before a split, on the shares there were before it. */
  predicate DividendOn(shares: real, perShare: real, basis: Basis, amount: real) {
    if basis.PreSplit? then Product(amount, V(basis.ratio)) == Product(shares, perShare) else amount == Product(shares, perShare)
  }

  lemma DividendAmount(w: Work, c: Context, a: Action, v: Work) returns (amount: real)
    requires a.change.Dividend? && ApplyIncome(w, c, a) == Some(v)
    ensures a.terms.Some? && a.terms.value.DividendTerms?
    ensures DividendOn(V(Held(w.shares, a.instrument)), V(a.change.amountPerShare), a.terms.value.basis, amount)
    ensures PaysAmount(w.state.claims, v.state.claims, a.actionId, amount)
  {
    hide V, InRange, Accrue, ConversionNamed, FromRational, Held, PaysAmount;
    var basis := a.terms.value.basis;
    amount := Entitlement(V(Held(w.shares, a.instrument)), a.change.amountPerShare, basis);
    var d := FromRational(amount).value;
    var u := ApplyDividend(w, c, a, a.change.amountPerShare, a.change.payable).value;
    AccrueAmount(w, c, a.actionId, d, a.change.payable, DividendClaim, u);
    if basis.PreSplit? { DivideBack(Product(V(Held(w.shares, a.instrument)), V(a.change.amountPerShare)), V(basis.ratio)); }
  }

  lemma DivideBack(x: real, y: real)
    requires y > 0.0
    ensures Product(Quotient(x, y), y) == x
  {
  }

  /** Another action's step leaves a claim alone. */
  lemma OtherClaim(w: Work, c: Context, a: Action, v: Work, action: Id)
    requires ClaimsOne(w, c, a, v) && a.actionId != action
    ensures (action in v.state.claims <==> action in w.state.claims) && (action in w.state.claims ==> v.state.claims[action] == w.state.claims[action])
  {
    hide ClaimOfAction;
  }

  lemma {:induction false} ActionsLeaveClaim(w: Work, c: Context, actions: seq<Action>, v: Work, action: Id)
    requires NextScheduled(c.batch.calendar) && ApplyActions(w, c, actions) == Some(v)
    requires forall a | a in actions && !a.change.Dividend? :: a.actionId != action
    ensures (action in v.state.claims <==> action in w.state.claims) && (action in w.state.claims ==> v.state.claims[action] == w.state.claims[action])
    decreases |actions|
  {
    hide ApplyAction, ClaimsOne, NextScheduled;
    if actions != [] {
      var u := ApplyAction(w, c, actions[0]).value;
      if actions[0].change.Dividend? {
        DividendWaits(w, c, actions[0]);
      } else {
        ActionClaims(w, c, actions[0], u);
        OtherClaim(w, c, actions[0], u, action);
      }
      ActionsLeaveClaim(u, c, actions[1..], v, action);
    }
  }

  lemma DividendWaits(w: Work, c: Context, a: Action)
    requires a.change.Dividend?
    ensures ApplyAction(w, c, a) == Some(w)
  {
  }

  lemma {:induction false} IncomesLeaveClaim(w: Work, c: Context, actions: seq<Action>, v: Work, action: Id)
    requires NextScheduled(c.batch.calendar) && ApplyIncomes(w, c, actions) == Some(v)
    requires forall a | a in actions && a.change.Dividend? :: a.actionId != action
    ensures (action in v.state.claims <==> action in w.state.claims) && (action in w.state.claims ==> v.state.claims[action] == w.state.claims[action])
    decreases |actions|
  {
    hide ApplyIncome, ClaimsOne, NextScheduled;
    if actions != [] {
      var u := ApplyIncome(w, c, actions[0]).value;
      if actions[0].change.Dividend? {
        IncomeClaims(w, c, actions[0], u);
        OtherClaim(w, c, actions[0], u, action);
      } else {
        OnlyRecorded(w, c, actions[0]);
      }
      IncomesLeaveClaim(u, c, actions[1..], v, action);
    }
  }

  lemma OnlyRecorded(w: Work, c: Context, a: Action)
    requires !a.change.Dividend?
    ensures ApplyIncome(w, c, a) == Some(Record(w, a)) && Record(w, a).state.claims == w.state.claims
  {
  }

  /** The amount of one dividend among the incomes. */
  lemma {:induction false} IncomesPay(w: Work, c: Context, actions: seq<Action>, v: Work, k: nat) returns (amount: real)
    requires NextScheduled(c.batch.calendar) && ApplyIncomes(w, c, actions) == Some(v) && k < |actions| && actions[k].change.Dividend?
    requires forall j | 0 <= j < |actions| && j != k :: actions[j].actionId != actions[k].actionId
    ensures var a := actions[k];
      && a.terms.Some? && a.terms.value.DividendTerms?
      && DividendOn(V(Held(w.shares, a.instrument)), V(a.change.amountPerShare), a.terms.value.basis, amount)
      && PaysAmount(w.state.claims, v.state.claims, a.actionId, amount)
    decreases |actions|
  {
    hide ApplyIncome, ClaimsOne, NextScheduled, DividendOn, V, Held;
    var u := ApplyIncome(w, c, actions[0]).value;
    IncomeMovesNothing(w, c, actions[0], u);
    if k == 0 {
      amount := DividendAmount(w, c, actions[0], u);
      forall a | a in actions[1..] ensures a.actionId != actions[0].actionId {
        var j :| 0 <= j < |actions[1..]| && actions[1..][j] == a;
        assert actions[j + 1] == a;
      }
      IncomesLeaveClaim(u, c, actions[1..], v, actions[0].actionId);
    } else {
      if actions[0].change.Dividend? {
        IncomeClaims(w, c, actions[0], u);
        OtherClaim(w, c, actions[0], u, actions[k].actionId);
      } else {
        OnlyRecorded(w, c, actions[0]);
      }
      amount := IncomesPay(u, c, actions[1..], v, k - 1);
    }
  }

  lemma SelectedOnce(b: Batch, before: Balance, k: nat)
    requires b.mode == OpeningMode && Select(b, before).Some? && k < |Select(b, before).value.actions|
    ensures var actions := Select(b, before).value.actions; forall j | 0 <= j < |actions| && j != k :: actions[j].actionId != actions[k].actionId
  {
    hide Select, ActionsOf, Newest, ActionBefore, MergerBefore;
    SelectionIsComplete(b, before);
  }

  /** The shares a dividend of an instrument is paid on: those after its split, if the batch has one, else those before. */
  ghost predicate PaidOn(before: Balance, actions: seq<Action>, i: Id, shares: real) {
    if exists a :: a in actions && SplitOf(a, i) then
      exists a :: a in actions && SplitOf(a, i) && a.terms.Some?
                  && KeptOf(Product(SharesIn(before.positions, i), V(a.change.ratio)), a.terms.value, shares)
    else shares == SharesIn(before.positions, i)
  }

  lemma SharesAfterActions(before: Balance, b: Batch, c: Context, w1: Work, i: Id)
    requires b.mode == OpeningMode && Select(b, before) == Some(c.selection) && ApplyActions(Start(before), c, c.selection.actions) == Some(w1)
    requires forall a | a in c.selection.actions :: !DelistingOf(a, i)
    ensures PaidOn(before, c.selection.actions, i, V(Held(w1.shares, i)))
  {
    hide V, Select, ApplyActions, DelistingOf, Held, Product, KeptOf;
    if a :| a in c.selection.actions && SplitOf(a, i) {
      var k :| 0 <= k < |c.selection.actions| && c.selection.actions[k] == a;
      SplitsDiffer(b, before);
      ActionsSplit(Start(before), c, c.selection.actions, w1, k);
    } else {
      ActionsLeave(Start(before), c, c.selection.actions, w1, i);
    }
  }

  /**
    A selected dividend on an instrument that is neither delisted nor merged claims its amount on
    each share held after the batch's split of it, if any; one declared before that split, on each
    share held before.
   */
  lemma DividendPays(before: Balance, b: Batch, w: Work, k: nat) returns (shares: real, amount: real)
    requires ValidBatch(b) && b.mode == OpeningMode && NextScheduled(b.calendar) && ReduceBatch(before, b) == Some(w)
    requires Select(b, before).Some? && k < |Select(b, before).value.actions| && Select(b, before).value.actions[k].change.Dividend?
    requires forall a | a in Select(b, before).value.actions :: !DelistingOf(a, Select(b, before).value.actions[k].instrument)
    requires forall m | m in Select(b, before).value.mergers :: !InMerger(m, Select(b, before).value.actions[k].instrument)
    ensures var s := Select(b, before).value; var a := s.actions[k];
      && PaidOn(before, s.actions, a.instrument, shares)
      && a.terms.Some? && a.terms.value.DividendTerms?
      && DividendOn(shares, V(a.change.amountPerShare), a.terms.value.basis, amount)
      && PaysAmount(ActionsOf(before).claims, w.state.claims, a.actionId, amount)
  {
    hide V, Select, ApplyActions, ApplyMergers, ApplyIncomes, ReduceBatch, Chosen, ValidBatch, DelistingOf, Held, NonZero, ActionsOf,
      DividendOn, PaidOn, NextScheduled;
    var c, w1, w2, w3 := OpeningStages(before, b, w);
    var a := c.selection.actions[k];
    SelectedOnce(b, before, k);
    BatchInvariants.ChosenMergers(b, before);
    SharesAfterActions(before, b, c, w1, a.instrument);
    MergersLeave(w1, c, c.selection.mergers, w2, a.instrument);
    shares := V(Held(w2.shares, a.instrument));
    amount := IncomesPay(w2, c, c.selection.actions, w3, k);
    AllDiffer(c.selection.actions, k);
    ActionsLeaveClaim(Start(before), c, c.selection.actions, w1, a.actionId);
    MergersClaimNothing(w1, c, c.selection.mergers, w2);
  }

  lemma AllDiffer(actions: seq<Action>, k: nat)
    requires k < |actions| && forall j | 0 <= j < |actions| && j != k :: actions[j].actionId != actions[k].actionId
    ensures forall a | a in actions && a.actionId == actions[k].actionId :: a == actions[k]
  {
  }

  /** The principal of a split with cash in lieu, whose kept shares are these, or of a delisting with a settlement. */
  ghost predicate PrincipalOn(shares: real, a: Action, amount: real) {
    match a.change
    case Split(ratio) =>
      a.terms.Some? && a.terms.value.CashInLieu?
      && exists kept :: KeptOf(Product(shares, V(ratio)), a.terms.value, kept) && InLieu(Product(shares, V(ratio)), kept, a.terms.value, amount)
    case Delisting => a.terms.Some? && a.terms.value.CashSettlement? && amount == Product(shares, V(a.terms.value.amountPerShare))
    case _ => false
  }

  lemma SplitAmount(w: Work, c: Context, a: Action, v: Work) returns (amount: real)
    requires a.change.Split? && V(a.change.ratio) > 0.0 && ApplySplit(w, c, a, a.change.ratio) == Some(v) && Promise(a).Some?
    ensures PrincipalOn(SharesIn(w.positions, a.instrument), a, amount) && PaysAmount(w.state.claims, v.state.claims, a.actionId, amount)
  {
    hide *;
    var ratio := a.change.ratio;
    SplitShape(w, c, a, ratio);
    PrincipalIs(SharesIn(w.positions, a.instrument), a);
    SharesInIs(w.positions, a.instrument);
    var converted := Mul(Held(w.positions, a.instrument), ratio);
    ProductOf(Held(w.positions, a.instrument), ratio);
    var parts := Fractional(converted, a.terms.value, c.batch.policy).value;
    FractionalKeeps(converted, a.terms.value, c.batch.policy, parts.0, parts.1);
    ConvertedShape(w, c, a, ratio, parts.0);
    var w2 := Converted(w, c, a, ratio, parts.0).value;
    CancelKeeps(w2, c, a.instrument, SplitCancel);
    var w3 := Cancel(w2, c, a.instrument, SplitCancel).value;
    amount := V(parts.1);
    AccrueAmount(w3, c, a.actionId, parts.1, a.terms.value.payable, PrincipalClaim, v);
    InLieuIs(SharesIn(w.positions, a.instrument), a, V(parts.0), amount);
  }

  lemma PrincipalIs(shares: real, a: Action)
    ensures Promise(a).Some? && a.change.Split? ==> a.terms.Some? && a.terms.value.CashInLieu?
    ensures Promise(a).Some? && a.change.Delisting? ==> a.terms.Some? && a.terms.value.CashSettlement?
  {
  }

  lemma InLieuIs(shares: real, a: Action, kept: real, amount: real)
    requires a.change.Split? && a.terms.Some? && a.terms.value.CashInLieu?
    requires KeptOf(Product(shares, V(a.change.ratio)), a.terms.value, kept) && InLieu(Product(shares, V(a.change.ratio)), kept, a.terms.value, amount)
    ensures PrincipalOn(shares, a, amount)
  {
    hide V, KeptOf, InLieu, Product;
  }

  lemma DelistingAmount(w: Work, c: Context, a: Action, v: Work) returns (amount: real)
    requires a.change.Delisting? && ApplyDelisting(w, c, a) == Some(v) && Promise(a).Some?
    ensures PrincipalOn(SharesIn(w.positions, a.instrument), a, amount) && PaysAmount(w.state.claims, v.state.claims, a.actionId, amount)
  {
    hide V, ApplyDelisting, Accrue, Cancel, Held, Mul, Product, PaysAmount;
    DelistingShape(w, c, a);
    EmptiedClaims(w, a);
    CancelKeeps(Emptied(w, a), c, a.instrument, DelistingCancel);
    var w2 := Cancel(Emptied(w, a), c, a.instrument, DelistingCancel).value;
    var d := Mul(Held(w.positions, a.instrument), a.terms.value.amountPerShare);
    ProductOf(Held(w.positions, a.instrument), a.terms.value.amountPerShare);
    amount := V(d);
    AccrueAmount(w2, c, a.actionId, d, a.terms.value.payable, PrincipalClaim, v);
  }

  lemma ActionAmount(w: Work, c: Context, a: Action, v: Work) returns (amount: real)
    requires !a.change.Dividend? && ApplyAction(w, c, a) == Some(v) && Promise(a).Some?
    ensures PrincipalOn(SharesIn(w.positions, a.instrument), a, amount) && PaysAmount(w.state.claims, v.state.claims, a.actionId, amount)
  {
    hide V, InRange, ApplySplit, ApplyDelisting, ApplyTickerChange, PrincipalOn, PaysAmount, SharesIn;
    if a.change.Split? { amount := SplitAmount(w, c, a, v); } else { amount := DelistingAmount(w, c, a, v); }
  }

  lemma {:induction false} ActionsPay(w: Work, c: Context, actions: seq<Action>, v: Work, k: nat) returns (amount: real)
    requires NextScheduled(c.batch.calendar) && ApplyActions(w, c, actions) == Some(v) && k < |actions|
    requires !actions[k].change.Dividend? && Promise(actions[k]).Some?
    requires forall j | 0 <= j < |actions| && j != k :: actions[j].actionId != actions[k].actionId
    requires forall j | 0 <= j < k :: !SplitOf(actions[j], actions[k].instrument) && !DelistingOf(actions[j], actions[k].instrument)
    ensures PrincipalOn(SharesIn(w.positions, actions[k].instrument), actions[k], amount)
    ensures PaysAmount(w.state.claims, v.state.claims, actions[k].actionId, amount)
    decreases |actions|
  {
    hide ApplyAction, ClaimsOne, NextScheduled, PrincipalOn, V, Held, Promise, SplitOf, DelistingOf;
    var u := ApplyAction(w, c, actions[0]).value;
    if k == 0 {
      amount := ActionAmount(w, c, actions[0], u);
      forall a | a in actions[1..] ensures a.actionId != actions[0].actionId {
        var j :| 0 <= j < |actions[1..]| && actions[1..][j] == a;
        assert actions[j + 1] == a;
      }
      ActionsLeaveClaim(u, c, actions[1..], v, actions[0].actionId);
    } else {
      ActionShares(w, c, actions[0], u, actions[k].instrument);
      if actions[0].change.Dividend? {
        DividendWaits(w, c, actions[0]);
      } else {
        ActionClaims(w, c, actions[0], u);
        OtherClaim(w, c, actions[0], u, actions[k].actionId);
      }
      amount := ActionsPay(u, c, actions[1..], v, k - 1);
    }
  }

  /**
    A selected split with cash in lieu claims its price for what its whole lots leave over, and a
    delisting with a settlement its amount for each share; an instrument that is also split before
    its delisting is left aside.
   */
  lemma PrincipalPays(before: Balance, b: Batch, w: Work, k: nat) returns (amount: real)
    requires ValidBatch(b) && b.mode == OpeningMode && NextScheduled(b.calendar) && ReduceBatch(before, b) == Some(w)
    requires Select(b, before).Some? && k < |Select(b, before).value.actions|
    requires !Select(b, before).value.actions[k].change.Dividend? && Promise(Select(b, before).value.actions[k]).Some?
    requires var actions := Select(b, before).value.actions;
      forall j | 0 <= j < |actions| && j != k :: !SplitOf(actions[j], actions[k].instrument) && !DelistingOf(actions[j], actions[k].instrument)
    ensures var a := Select(b, before).value.actions[k];
      && PrincipalOn(SharesIn(before.positions, a.instrument), a, amount)
      && PaysAmount(ActionsOf(before).claims, w.state.claims, a.actionId, amount)
  {
    hide V, Select, ApplyActions, ApplyMergers, ApplyIncomes, ReduceBatch, Chosen, ValidBatch, SplitOf, DelistingOf, Held, NonZero, ActionsOf,
      PrincipalOn, SharesIn, NextScheduled, Promise;
    var c, w1, w2, w3 := OpeningStages(before, b, w);
    SelectedOnce(b, before, k);
    AllDiffer(c.selection.actions, k);
    amount := ActionsPay(Start(before), c, c.selection.actions, w1, k);
    MergersClaimNothing(w1, c, c.selection.mergers, w2);
    IncomesLeaveClaim(w2, c, c.selection.actions, w3, c.selection.actions[k].actionId);
  }
}
