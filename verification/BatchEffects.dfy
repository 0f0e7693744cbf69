/**
  When the claims of a batch fall due, which claims a payment pays, and which an opening adds.
 */
module BatchEffects {
  import opened Options
  import opened Decimals
  import opened Contracts
  import opened Accounts
  import opened Ordering
  import opened CorporateActions
  import opened BatchInvariants

  // ----- When something falls due -----

  /** The opening of the first scheduled session on or after a date. */
  ghost predicate OpensNext(c: Calendar, payable: Date, t: Time) {
    exists d :: d in c.schedule && payable <= d && c.schedule[d].openAt == t && forall e | e in c.schedule && payable <= e :: d <= e
  }

  /** Something falls due at that opening, and has no due date only where neither the date nor its successor is witnessed. */
  lemma DueIs(c: Calendar, payable: Date)
    requires NextScheduled(c)
    ensures Due(c, payable).Some? <==> payable in c.schedule || (payable in c.following && c.following[payable] in c.schedule)
    ensures Due(c, payable).Some? ==> OpensNext(c, payable, Due(c, payable).value)
  {
    if payable in c.schedule {
      assert forall e | e in c.schedule && payable <= e :: payable <= e;
    } else if Due(c, payable).Some? {
      var d := c.following[payable];
      assert forall e | e in c.schedule && payable <= e :: d <= e;
      assert d in c.schedule && payable <= d && c.schedule[d].openAt == Due(c, payable).value;
    }
  }

  // ----- Payments -----

  /** What is due is paid and everything else is as it was. */
  predicate PaidBy(claims: map<Id, Claim>, now: map<Id, Claim>, openAt: Time) {
    now.Keys == claims.Keys && forall a | a in claims :: now[a] == claims[a].(paid := claims[a].paid || claims[a].dueAt <= openAt)
  }

  function DueAmount(c: Claim, openAt: Time): real { if !c.paid && c.dueAt <= openAt then V(c.amount) else 0.0 }

  ghost function DueAmounts(claims: map<Id, Claim>, openAt: Time): map<Id, real> { map a | a in claims :: DueAmount(claims[a], openAt) }

  /** All that is due and unpaid. */
  ghost function AmountDue(claims: map<Id, Claim>, openAt: Time): real { Sum(DueAmounts(claims, openAt)) }

  /** One claim is paid, or nothing changes. */
  predicate PaidOne(w: Work, a: Id, v: Work, openAt: Time) {
    && v == w.(cash := v.cash, obligations := v.obligations, state := w.state.(claims := v.state.claims))
    && (forall k | k in w.obligations && k != ClaimOf(a) :: k in v.obligations && v.obligations[k] == w.obligations[k])
    && v.obligations.Keys == w.obligations.Keys
    && if a in w.state.claims && !w.state.claims[a].paid && w.state.claims[a].dueAt <= openAt
       then v.state.claims == w.state.claims[a := w.state.claims[a].(paid := true)] && V(v.cash) == V(w.cash) + V(w.state.claims[a].amount)
       else v == w
  }

  lemma PaysOne(w: Work, c: Context, a: Id, v: Work)
    requires Pay(w, c, a) == Some(v)
    ensures PaidOne(w, a, v, c.batch.session.openAt)
  {
    hide V, Checked, Exact, Add;
  }

  lemma DueFalls(w: Work, a: Id, v: Work, openAt: Time)
    requires PaidOne(w, a, v, openAt)
    ensures V(v.cash) + AmountDue(v.state.claims, openAt) == V(w.cash) + AmountDue(w.state.claims, openAt)
  {
    hide V;
    if a in w.state.claims && !w.state.claims[a].paid && w.state.claims[a].dueAt <= openAt {
      var amounts := DueAmounts(w.state.claims, openAt);
      SumUpdate(amounts, a, 0.0);
      assert DueAmounts(v.state.claims, openAt) == amounts[a := 0.0];
    }
  }

  lemma {:induction false} NothingDue(m: map<Id, real>)
    requires forall a | a in m :: m[a] == 0.0
    ensures Sum(m) == 0.0
    decreases |m|
  {
    if a :| a in m {
      SumRemove(m, a);
      NothingDue(m - {a});
    }
  }

  /** The claims among these are settled. */
  predicate PaidAmong(claims: map<Id, Claim>, now: map<Id, Claim>, actions: seq<Id>, openAt: Time) {
    && now.Keys == claims.Keys
    && forall a | a in claims :: now[a] == if a in actions then claims[a].(paid := claims[a].paid || claims[a].dueAt <= openAt) else claims[a]
  }

  lemma {:induction false} PaysAll(w: Work, c: Context, actions: seq<Id>, v: Work)
    requires PayAll(w, c, actions) == Some(v)
    ensures PaidAmong(w.state.claims, v.state.claims, actions, c.batch.session.openAt)
    ensures var openAt := c.batch.session.openAt;
      V(v.cash) + AmountDue(v.state.claims, openAt) == V(w.cash) + AmountDue(w.state.claims, openAt)
    ensures v == w.(cash := v.cash, obligations := v.obligations, state := w.state.(claims := v.state.claims))
    ensures forall k | k in w.obligations && k.Manual? :: k in v.obligations && v.obligations[k] == w.obligations[k]
    ensures v.obligations.Keys == w.obligations.Keys
    decreases |actions|
  {
    hide Pay, V, AmountDue;
    if actions != [] {
      var u := Pay(w, c, actions[0]).value;
      PaysOne(w, c, actions[0], u);
      DueFalls(w, actions[0], u, c.batch.session.openAt);
      PaysAll(u, c, actions[1..], v);
      assert forall a :: a in actions <==> a == actions[0] || a in actions[1..];
    }
  }

  lemma ConcludedPayment(w: Work, c: Context, v: Work)
    requires c.batch.mode == PaymentMode && Conclude(w, c) == Some(v)
    ensures var paid := PayAll(w, c, Ordered(w.state.claims.Keys));
      && paid.Some? && v == paid.value.(state := paid.value.state.(bound := Some((c.batch.calendar, c.batch.policy))), positions := NonZero(paid.value.positions))
  {
    hide PayAll, Ordered, WithinLimits, V;
  }

  lemma PaymentStarts(before: Balance, b: Batch, w: Work)
    requires b.mode == PaymentMode && ReduceBatch(before, b) == Some(w)
    ensures Conclude(Start(before), Context(before, b, Selection([], []))) == Some(w)
  {
    hide V, Conclude, Select, UniqueReferences, Start;
    SelectIsChosen(b, before);
  }

  /**
    A payment pays exactly the unpaid claims whose opening has come: cash grows by what they add
    up to, every other claim and every posting stays, and no share moves.
   */
  lemma PaymentPaysDue(before: Balance, b: Batch, w: Work)
    requires b.mode == PaymentMode && ReduceBatch(before, b) == Some(w)
    ensures PaidBy(ActionsOf(before).claims, w.state.claims, b.session.openAt)
    ensures V(w.cash) == V(before.cash) + AmountDue(ActionsOf(before).claims, b.session.openAt)
    ensures w.income == before.income && w.positions == NonZero(before.positions) && w.obligations.Keys == before.obligations.Keys
    ensures forall k | k in before.obligations && k.Manual? :: w.obligations[k] == before.obligations[k]
    ensures w.state == ActionsOf(before).(claims := w.state.claims, bound := Some((b.calendar, b.policy)))
  {
    hide ReduceBatch, Conclude, PayAll, V, NonZero, AmountDue, ActionsOf, Ordered;
    PaymentStarts(before, b, w);
    var c, start := Context(before, b, Selection([], [])), Start(before);
    ConcludedPayment(start, c, w);
    var paid := PayAll(start, c, Ordered(start.state.claims.Keys)).value;
    PaysAll(start, c, Ordered(start.state.claims.Keys), paid);
    NothingLeft(w.state.claims, b.session.openAt);
  }

  lemma NothingLeft(claims: map<Id, Claim>, openAt: Time)
    requires forall a | a in claims :: claims[a].paid || claims[a].dueAt > openAt
    ensures AmountDue(claims, openAt) == 0.0
  {
    hide V;
    NothingDue(DueAmounts(claims, openAt));
  }

  // ----- New claims -----

  /** What an action promises to pay on a date, and as what: cash in lieu of a split's fractions, a delisting's settlement, a dividend. */
  function Promise(a: Action): Option<(Date, ClaimKind)> {
    match a.change
    case Split(_) => (match a.terms case Some(CashInLieu(_, _, payable, _)) => Some((payable, PrincipalClaim)) case _ => None)
    case TickerChange(_, _) => None
    case Delisting => (match a.terms case Some(CashSettlement(_, payable, _)) => Some((payable, PrincipalClaim)) case _ => None)
    case Dividend(_, payable) => Some((payable, DividendClaim))
  }

  /** A claim of an action: unpaid, of its kind, due at the opening of the first session on or after its date. */
  ghost predicate ClaimOfAction(c: Calendar, a: Action, claim: Claim) {
    && Promise(a).Some? && claim.kind == Promise(a).value.1 && !claim.paid && V(claim.amount) > 0.0
    && OpensNext(c, Promise(a).value.0, claim.dueAt)
  }

  /** At most one claim comes in, under the action's identifier. */
  ghost predicate ClaimsOne(w: Work, c: Context, a: Action, v: Work) {
    v.state.claims == w.state.claims
    || (a.actionId !in w.state.claims && a.actionId in v.state.claims && ClaimOfAction(c.batch.calendar, a, v.state.claims[a.actionId])
        && v.state.claims == w.state.claims[a.actionId := v.state.claims[a.actionId]])
  }

  lemma AccrueClaims(w: Work, c: Context, a: Action, amount: Dec, payable: Date, kind: ClaimKind, v: Work)
    requires NextScheduled(c.batch.calendar) && Promise(a) == Some((payable, kind)) && Accrue(w, c, a.actionId, amount, payable, kind) == Some(v)
    ensures ClaimsOne(w, c, a, v)
  {
    hide V, Accrue, Checked, Due, OpensNext, NextScheduled, Promise;
    AccrueShape(w, c, a.actionId, amount, payable, kind);
    AccrueDue(w, c, a.actionId, amount, payable, kind);
    DueIs(c.batch.calendar, payable);
  }

  lemma AccrueDue(w: Work, c: Context, action: Id, amount: Dec, payable: Date, kind: ClaimKind)
    requires Accrue(w, c, action, amount, payable, kind).Some?
    ensures Due(c.batch.calendar, payable).Some?
  {
    hide V, Due, Checked, Exact, Add;
  }

  lemma SplitClaims(w: Work, c: Context, a: Action, ratio: Dec, v: Work)
    requires NextScheduled(c.batch.calendar) && a.change == Split(ratio) && V(ratio) > 0.0 && ApplySplit(w, c, a, ratio) == Some(v)
    ensures ClaimsOne(w, c, a, v)
  {
    hide *;
    SplitShape(w, c, a, ratio);
    var parts := Fractional(Mul(Held(w.positions, a.instrument), ratio), a.terms.value, c.batch.policy).value;
    ConvertedShape(w, c, a, ratio, parts.0);
    var w2 := Converted(w, c, a, ratio, parts.0).value;
    CancelKeeps(w2, c, a.instrument, SplitCancel);
    var w3 := Cancel(w2, c, a.instrument, SplitCancel).value;
    if a.terms.value.CashInLieu? {
      PromiseIs(a);
      AccrueClaims(w3, c, a, parts.1, a.terms.value.payable, PrincipalClaim, v);
    }
    SameClaims(w, w3, c, a, v);
  }

  lemma PromiseIs(a: Action)
    ensures a.change.Split? && a.terms.Some? && a.terms.value.CashInLieu? ==> Promise(a) == Some((a.terms.value.payable, PrincipalClaim))
    ensures a.change.Delisting? && a.terms.Some? && a.terms.value.CashSettlement? ==> Promise(a) == Some((a.terms.value.payable, PrincipalClaim))
    ensures a.change.Dividend? ==> Promise(a) == Some((a.change.payable, DividendClaim))
  {
  }

  lemma SameClaims(w: Work, w3: Work, c: Context, a: Action, v: Work)
    requires w3.state.claims == w.state.claims && (ClaimsOne(w3, c, a, v) || v == w3)
    ensures ClaimsOne(w, c, a, v)
  {
    hide ClaimOfAction;
  }

  lemma DelistingClaims(w: Work, c: Context, a: Action, v: Work)
    requires NextScheduled(c.batch.calendar) && a.change == Delisting && ApplyDelisting(w, c, a) == Some(v)
    ensures ClaimsOne(w, c, a, v)
  {
    hide *;
    DelistingShape(w, c, a);
    CancelKeeps(Emptied(w, a), c, a.instrument, DelistingCancel);
    var w2 := Cancel(Emptied(w, a), c, a.instrument, DelistingCancel).value;
    EmptiedClaims(w, a);
    match a.terms.value {
      case CashSettlement(perShare, payable, _) =>
        PromiseIs(a);
        AccrueClaims(w2, c, a, Mul(Held(w.positions, a.instrument), perShare), payable, PrincipalClaim, v);
      case _ =>
    }
    SameClaims(w, w2, c, a, v);
  }

  lemma EmptiedClaims(w: Work, a: Action)
    ensures Emptied(w, a).state.claims == w.state.claims
  {
  }

  lemma ActionClaims(w: Work, c: Context, a: Action, v: Work)
    requires NextScheduled(c.batch.calendar) && ApplyAction(w, c, a) == Some(v)
    ensures ClaimsOne(w, c, a, v)
  {
    hide V, InRange, ApplySplit, ApplyDelisting, ClaimOfAction, CurrentSymbol, NextScheduled;
    match a.change
    case Split(ratio) => SplitClaims(w, c, a, ratio, v);
    case Delisting => DelistingClaims(w, c, a, v);
    case TickerChange(_, _) =>
    case Dividend(_, _) =>
  }

  lemma IncomeClaims(w: Work, c: Context, a: Action, v: Work)
    requires NextScheduled(c.batch.calendar) && ApplyIncome(w, c, a) == Some(v)
    ensures ClaimsOne(w, c, a, v)
  {
    hide V, ApplyDividend, Accrue, ClaimOfAction, NextScheduled;
    match a.change
    case Dividend(perShare, payable) =>
      DividendShape(w, c, a, perShare, payable);
      var amount :| ApplyDividend(w, c, a, perShare, payable) == Accrue(w, c, a.actionId, amount, payable, DividendClaim);
      PromiseIs(a);
      AccrueClaims(w, c, a, amount, payable, DividendClaim, ApplyDividend(w, c, a, perShare, payable).value);
    case _ =>
  }

  /** Every claim was there before or is one of these actions'. */
  ghost predicate ClaimsFrom(prior: map<Id, Claim>, c: Context, actions: seq<Action>, now: map<Id, Claim>) {
    && (forall k | k in prior :: k in now && now[k] == prior[k])
    && forall k | k in now && k !in prior :: exists a :: a in actions && a.actionId == k && ClaimOfAction(c.batch.calendar, a, now[k])
  }

  lemma ClaimsAdd(prior: map<Id, Claim>, c: Context, all: seq<Action>, w: Work, a: Action, v: Work)
    requires ClaimsFrom(prior, c, all, w.state.claims) && ClaimsOne(w, c, a, v) && a in all
    ensures ClaimsFrom(prior, c, all, v.state.claims)
  {
    hide ClaimOfAction;
  }

  lemma {:induction false} ActionsClaim(prior: map<Id, Claim>, w: Work, c: Context, all: seq<Action>, actions: seq<Action>, v: Work)
    requires NextScheduled(c.batch.calendar) && ApplyActions(w, c, actions) == Some(v) && forall a | a in actions :: a in all
    requires ClaimsFrom(prior, c, all, w.state.claims)
    ensures ClaimsFrom(prior, c, all, v.state.claims)
    decreases |actions|
  {
    hide ApplyAction, ClaimsFrom, ClaimsOne, NextScheduled;
    if actions != [] {
      var u := ApplyAction(w, c, actions[0]).value;
      ActionClaims(w, c, actions[0], u);
      ClaimsAdd(prior, c, all, w, actions[0], u);
      ActionsClaim(prior, u, c, all, actions[1..], v);
    }
  }

  lemma {:induction false} IncomesClaim(prior: map<Id, Claim>, w: Work, c: Context, all: seq<Action>, actions: seq<Action>, v: Work)
    requires NextScheduled(c.batch.calendar) && ApplyIncomes(w, c, actions) == Some(v) && forall a | a in actions :: a in all
    requires ClaimsFrom(prior, c, all, w.state.claims)
    ensures ClaimsFrom(prior, c, all, v.state.claims)
    decreases |actions|
  {
    hide ApplyIncome, ClaimsFrom, ClaimsOne, NextScheduled;
    if actions != [] {
      var u := ApplyIncome(w, c, actions[0]).value;
      IncomeClaims(w, c, actions[0], u);
      ClaimsAdd(prior, c, all, w, actions[0], u);
      IncomesClaim(prior, u, c, all, actions[1..], v);
    }
  }

  lemma {:induction false} MergersClaimNothing(w: Work, c: Context, mergers: seq<Merger>, v: Work)
    requires ApplyMergers(w, c, mergers) == Some(v)
    ensures v.state.claims == w.state.claims
    decreases |mergers|
  {
    hide ApplyMerger;
    if mergers != [] {
      var u := ApplyMerger(w, c, mergers[0]).value;
      MergerClaimsNothing(w, c, mergers[0], u);
      MergersClaimNothing(u, c, mergers[1..], v);
    }
  }

  lemma MergerClaimsNothing(w: Work, c: Context, m: Merger, v: Work)
    requires ApplyMerger(w, c, m) == Some(v)
    ensures v.state.claims == w.state.claims
  {
    hide V, Held, Mul, Add, Fits, Normalize, Checked, Stale;
  }

  lemma ConcludedOpening(w: Work, c: Context, v: Work)
    requires c.batch.mode == OpeningMode && Conclude(w, c) == Some(v)
    ensures v == w.(state := w.state.(bound := Some((c.batch.calendar, c.batch.policy))), positions := NonZero(w.positions))
  {
    hide PayAll, Ordered, WithinLimits, V;
  }

  /** The four stages of an accepted opening. */
  lemma OpeningStages(before: Balance, b: Batch, w: Work) returns (c: Context, w1: Work, w2: Work, w3: Work)
    requires b.mode == OpeningMode && ReduceBatch(before, b) == Some(w)
    ensures Select(b, before) == Some(c.selection) && c == Context(before, b, c.selection) && c.selection == Chosen(b, ActionsOf(before).applied)
    ensures ApplyActions(Start(before), c, c.selection.actions) == Some(w1) && ApplyMergers(w1, c, c.selection.mergers) == Some(w2)
    ensures ApplyIncomes(w2, c, c.selection.actions) == Some(w3)
    ensures w == w3.(state := w3.state.(bound := Some((b.calendar, b.policy))), positions := NonZero(w3.positions))
  {
    hide V, Select, ApplyActions, ApplyMergers, ApplyIncomes, Conclude, Start, UniqueReferences, Chosen, ActionsOf;
    SelectIsChosen(b, before);
    c := Context(before, b, Select(b, before).value);
    w1 := ApplyActions(Start(before), c, c.selection.actions).value;
    w2 := ApplyMergers(w1, c, c.selection.mergers).value;
    w3 := ApplyIncomes(w2, c, c.selection.actions).value;
    ConcludedOpening(w3, c, w);
  }

  /**
    An opening leaves every claim as it was, and every new one belongs to a selected action: it
    is unpaid and falls due at the opening of the first scheduled session on or after the date on
    which the action is payable.
   */
  lemma OpeningClaims(before: Balance, b: Batch, w: Work)
    requires b.mode == OpeningMode && NextScheduled(b.calendar) && ReduceBatch(before, b) == Some(w)
    ensures Select(b, before).Some?
    ensures var prior := ActionsOf(before).claims;
      && (forall k | k in prior :: k in w.state.claims && w.state.claims[k] == prior[k])
      && forall k | k in w.state.claims && k !in prior ::
           exists a :: a in Select(b, before).value.actions && a.actionId == k && ClaimOfAction(b.calendar, a, w.state.claims[k])
  {
    hide V, Select, ApplyActions, ApplyMergers, ApplyIncomes, ActionsOf, ClaimOfAction, NextScheduled, Chosen, ReduceBatch, NonZero;
    var c, w1, w2, w3 := OpeningStages(before, b, w);
    var prior, all := ActionsOf(before).claims, c.selection.actions;
    ActionsClaim(prior, Start(before), c, all, all, w1);
    MergersClaimNothing(w1, c, c.selection.mergers, w2);
    IncomesClaim(prior, w2, c, all, all, w3);
  }
}
