/**
  No figure of a ledger ever leaves its range: cash, income, expense, fees and obligations stay
  amounts of money, positions holdings, and cumulative and slot quantities quantities.
 */
module LedgerFigures {
  import opened Options
  import opened Decimals
  import opened Contracts
  import opened Accounts
  import opened Ordering
  import opened CorporateActions
  import opened BatchInvariants
  import opened Ledger
  import opened LedgerSteps
  import opened LedgerInvariants
  import opened Replay

  predicate OwedInRange(obligations: map<ObligationId, Obligation>) {
    forall k | k in obligations :: InRange(obligations[k].created, Money) && InRange(obligations[k].remaining, Money)
  }

  predicate HeldInRange(positions: map<Id, Dec>) { forall i | i in positions :: InRange(positions[i], Holding) }

  predicate FilledInRange(b: Balance) {
    && (forall id | id in b.owners :: InRange(b.owners[id].cumulative, Quantity) && InRange(b.owners[id].fee, Money))
    && forall key | key in b.slots :: InRange(b.slots[key].filled, Quantity)
  }

  predicate ClaimsInRange(claims: map<Id, Claim>) { forall a | a in claims :: InRange(claims[a].amount, Money) }

  /** Every figure of a balance is in the range of its kind. */
  predicate Figures(b: Balance) {
    && InRange(b.cash, Money) && InRange(b.income, Money) && InRange(b.expense, Money) && InRange(b.fees, Money)
    && InRange(b.receivables, Money) && InRange(b.liabilities, Money)
    && OwedInRange(b.obligations) && HeldInRange(b.positions) && FilledInRange(b) && ClaimsInRange(ActionsOf(b).claims)
  }

  lemma ZeroInRange(kind: Kind)
    ensures InRange(ZERO, kind)
  {
    ValueZero();
    hide V;
  }

  // ----- Fills and postings -----

  lemma MovesInRange(b: Balance, p: Posting, m: Moves)
    requires FillMoves(b, p) == Some(m)
    ensures InRange(m.capAfter, Quantity) && InRange(m.after, Quantity) && InRange(m.dueAfter, Money) && InRange(m.fees, Money)
    ensures InRange(m.cash, Money) && InRange(m.position, Holding)
  {
    hide V, InRange, Fits, FeeDue, Mul, Checked, Exact, Add, Sub, Held, OwnedCumulative, OwnedFee, SlotFilled, KeyOf;
  }

  lemma PlacedInRange(positions: map<Id, Dec>, i: Id, d: Dec)
    requires HeldInRange(positions) && InRange(d, Holding)
    ensures HeldInRange(Placed(positions, i, d))
  {
    hide V, InRange;
  }

  lemma SealedTotals(before: Balance, e: Event, posted: Balance, b: Balance)
    requires Sealed(before, e, posted) == Some(b)
    ensures Checked(b.receivables, Money, false).Some? && Checked(b.liabilities, Money, false).Some?
  {
    hide V, Fits, Checked, Total, EconomicTime, ObservedAt, Later, PrefixHash;
  }

  lemma SealedInRange(s: State, e: Event, t: State)
    requires Accepted(s, e, t)
    ensures InRange(t.balance.receivables, Money) && InRange(t.balance.liabilities, Money)
  {
    hide V, InRange, Sealed, PostBody, WithinWindow, WellFormed, Follows, Checked;
    SealedTotals(s.balance, e, PostBody(s, e.body).value.balance, t.balance);
    CheckedIs(t.balance.receivables, Money);
    CheckedIs(t.balance.liabilities, Money);
  }

  lemma FillKeepsFigures(s: State, e: Event, t: State)
    requires Figures(s.balance) && Accepted(s, e, t) && e.body.FillBody?
    ensures Figures(t.balance)
  {
    hide V, InRange, Accepted, FillMoves, PostedFill, Placed, Total, HeldInRange;
    var p := e.body.posting;
    var m := FillPosted(s, e, t, p);
    MovesInRange(s.balance, p, m);
    PlacedInRange(s.balance.positions, p.intent.instrument, m.position);
    SealedInRange(s, e, t);
    PostedFillIs(s.balance, p, m, t.balance);
    OwnedInRange(s.balance, t.balance, p, m);
    ActionsOfIs(s.balance, t.balance);
  }

  lemma OwnedInRange(b: Balance, a: Balance, p: Posting, m: Moves)
    requires FilledInRange(b) && InRange(m.capAfter, Quantity) && InRange(m.after, Quantity) && InRange(m.dueAfter, Money)
    requires a.owners == b.owners[p.intent.intentId := NewOwner(b, p, m)] && a.slots == b.slots[KeyOf(p) := NewSlot(p, m)]
    ensures FilledInRange(a)
  {
    hide InRange, Closes, OwnedFills, FillId, KeyOf;
  }

  lemma CreationInRange(b: Balance, e: Body, a: Balance)
    requires e.ObligationBody? && CreateObligation(b, e) == Some(a) && InRange(e.amount, Money) && Figures(b)
    ensures InRange(a.cash, Money) && InRange(a.income, Money) && InRange(a.expense, Money) && OwedInRange(a.obligations)
  {
    hide V, InRange, Fits, Checked, Exact, Add, HeldInRange, FilledInRange, ClaimsInRange, ActionsOf;
  }

  lemma SettlementInRange(b: Balance, e: Body, a: Balance)
    requires e.ObligationBody? && SettleObligation(b, e) == Some(a) && Figures(b)
    ensures InRange(a.cash, Money) && InRange(a.income, Money) && InRange(a.expense, Money) && OwedInRange(a.obligations)
  {
    hide V, InRange, Fits, Checked, Exact, Add, Sub, HeldInRange, FilledInRange, ClaimsInRange, ActionsOf;
  }

  lemma PostingInRange(b: Balance, e: Body, a: Balance)
    requires e.ObligationBody? && PostObligation(b, e) == Some(a) && InRange(e.amount, Money) && Figures(b)
    ensures InRange(a.cash, Money) && InRange(a.income, Money) && InRange(a.expense, Money) && OwedInRange(a.obligations)
  {
    hide InRange, CreateObligation, SettleObligation, Figures, OwedInRange, Claimed, ActionsOf;
    if e.step == Create { CreationInRange(b, e, a); } else { SettlementInRange(b, e, a); }
  }

  lemma AmountInRange(e: Event)
    requires WellFormed(e) && e.body.ObligationBody?
    ensures InRange(e.body.amount, Money)
  {
    hide V, InRange;
  }

  lemma ObligationKeepsFigures(s: State, e: Event, t: State)
    requires Figures(s.balance) && Accepted(s, e, t) && e.body.ObligationBody?
    ensures Figures(t.balance)
  {
    hide V, InRange, PostObligation, Total, OwedInRange, HeldInRange, Propose, WellFormed, Follows;
    ObligationStep(s, e, t);
    ObligationKeeps(s.balance, e.body);
    AmountInRange(e);
    PostingInRange(s.balance, e.body, PostObligation(s.balance, e.body).value);
    SealedInRange(s, e, t);
  }

  // ----- Batches -----

  predicate WorkInRange(w: Work) {
    && InRange(w.cash, Money) && InRange(w.income, Money)
    && OwedInRange(w.obligations) && HeldInRange(w.positions) && ClaimsInRange(w.state.claims)
  }

  lemma AccrueInRange(w: Work, c: Context, action: Id, amount: Dec, payable: Date, kind: ClaimKind, v: Work)
    requires WorkInRange(w) && Accrue(w, c, action, amount, payable, kind) == Some(v)
    ensures WorkInRange(v)
  {
    hide V, InRange, Fits, Checked, Exact, Add, Due, HeldInRange;
  }

  lemma CancelInRange(w: Work, c: Context, i: Id, reason: CancelReason, v: Work)
    requires WorkInRange(w) && Cancel(w, c, i, reason) == Some(v)
    ensures WorkInRange(v)
  {
    hide V, InRange, Stale, Cancelled, OwedInRange, HeldInRange, ClaimsInRange;
  }

  lemma FractionalInRange(quantity: Dec, terms: Terms, policy: ActionPolicy)
    requires Fractional(quantity, terms, policy).Some?
    ensures InRange(Fractional(quantity, terms, policy).value.0, Holding)
  {
    hide V, InRange, Normalize, Fits, Mul, Sub, Add, Whole, Checked, Exact;
  }

  lemma SplitInRange(w: Work, c: Context, a: Action, ratio: Dec, v: Work)
    requires WorkInRange(w) && V(ratio) > 0.0 && ApplySplit(w, c, a, ratio) == Some(v)
    ensures WorkInRange(v)
  {
    hide *;
    SplitShape(w, c, a, ratio);
    var quantity := Mul(Held(w.positions, a.instrument), ratio);
    FractionalInRange(quantity, a.terms.value, c.batch.policy);
    var parts := Fractional(quantity, a.terms.value, c.batch.policy).value;
    ConvertedShape(w, c, a, ratio, parts.0);
    var w2 := Converted(w, c, a, ratio, parts.0).value;
    KeptInRange(w, w2, a.instrument, parts.0);
    var w3 := Cancel(w2, c, a.instrument, SplitCancel).value;
    CancelInRange(w2, c, a.instrument, SplitCancel, w3);
    if a.terms.value.CashInLieu? { AccrueInRange(w3, c, a.actionId, parts.1, a.terms.value.payable, PrincipalClaim, v); }
  }

  lemma KeptInRange(w: Work, v: Work, i: Id, kept: Dec)
    requires WorkInRange(w) && InRange(kept, Holding) && v == w.(positions := w.positions[i := kept], shares := v.shares, state := v.state, converted := v.converted)
    requires v.state.claims == w.state.claims
    ensures WorkInRange(v)
  {
    hide InRange, OwedInRange, ClaimsInRange;
  }

  lemma EmptiedInRange(w: Work, a: Action)
    requires WorkInRange(w)
    ensures WorkInRange(Emptied(w, a))
  {
    hide InRange, OwedInRange, ClaimsInRange;
  }

  lemma DelistingInRange(w: Work, c: Context, a: Action, v: Work)
    requires WorkInRange(w) && ApplyDelisting(w, c, a) == Some(v)
    ensures WorkInRange(v)
  {
    hide *;
    DelistingShape(w, c, a);
    EmptiedInRange(w, a);
    var w2 := Cancel(Emptied(w, a), c, a.instrument, DelistingCancel).value;
    CancelInRange(Emptied(w, a), c, a.instrument, DelistingCancel, w2);
    match a.terms.value
    case CashSettlement(perShare, payable, _) =>
      AccrueInRange(w2, c, a.actionId, Mul(Held(w.positions, a.instrument), perShare), payable, PrincipalClaim, v);
    case _ =>
  }

  lemma ActionInRange(w: Work, c: Context, a: Action, v: Work)
    requires WorkInRange(w) && ApplyAction(w, c, a) == Some(v)
    ensures WorkInRange(v)
  {
    hide V, InRange, ApplySplit, ApplyDelisting, CurrentSymbol, OwedInRange, HeldInRange, ClaimsInRange;
    match a.change
    case Split(ratio) => SplitInRange(w, c, a, ratio, v);
    case Delisting => DelistingInRange(w, c, a, v);
    case TickerChange(_, _) =>
    case Dividend(_, _) =>
  }

  lemma {:induction false} ActionsInRange(w: Work, c: Context, actions: seq<Action>, v: Work)
    requires WorkInRange(w) && ApplyActions(w, c, actions) == Some(v)
    ensures WorkInRange(v)
    decreases |actions|
  {
    hide ApplyAction, WorkInRange;
    if actions != [] {
      var u := ApplyAction(w, c, actions[0]).value;
      ActionInRange(w, c, actions[0], u);
      ActionsInRange(u, c, actions[1..], v);
    }
  }

  lemma MergerInRange(w: Work, c: Context, m: Merger, v: Work)
    requires WorkInRange(w) && ApplyMerger(w, c, m) == Some(v)
    ensures WorkInRange(v)
  {
    hide V, InRange, Mul, Add, Fits, Normalize, Checked, Exact, Held, Stale, Cancelled, OwedInRange, ClaimsInRange;
  }

  lemma {:induction false} MergersInRange(w: Work, c: Context, mergers: seq<Merger>, v: Work)
    requires WorkInRange(w) && ApplyMergers(w, c, mergers) == Some(v)
    ensures WorkInRange(v)
    decreases |mergers|
  {
    hide ApplyMerger, WorkInRange;
    if mergers != [] {
      var u := ApplyMerger(w, c, mergers[0]).value;
      MergerInRange(w, c, mergers[0], u);
      MergersInRange(u, c, mergers[1..], v);
    }
  }

  lemma IncomeInRange(w: Work, c: Context, a: Action, v: Work)
    requires WorkInRange(w) && ApplyIncome(w, c, a) == Some(v)
    ensures WorkInRange(v)
  {
    hide V, InRange, ApplyDividend, Accrue, OwedInRange, HeldInRange, ClaimsInRange;
    match a.change
    case Dividend(perShare, payable) =>
      DividendShape(w, c, a, perShare, payable);
      var amount :| ApplyDividend(w, c, a, perShare, payable) == Accrue(w, c, a.actionId, amount, payable, DividendClaim);
      AccrueInRange(w, c, a.actionId, amount, payable, DividendClaim, ApplyDividend(w, c, a, perShare, payable).value);
    case _ =>
  }

  lemma {:induction false} IncomesInRange(w: Work, c: Context, actions: seq<Action>, v: Work)
    requires WorkInRange(w) && ApplyIncomes(w, c, actions) == Some(v)
    ensures WorkInRange(v)
    decreases |actions|
  {
    hide ApplyIncome, WorkInRange;
    if actions != [] {
      var u := ApplyIncome(w, c, actions[0]).value;
      IncomeInRange(w, c, actions[0], u);
      IncomesInRange(u, c, actions[1..], v);
    }
  }

  lemma PayInRange(w: Work, c: Context, a: Id, v: Work)
    requires WorkInRange(w) && Pay(w, c, a) == Some(v)
    ensures WorkInRange(v)
  {
    ZeroInRange(Money);
    hide V, InRange, Checked, Exact, Add, HeldInRange;
  }

  lemma {:induction false} PayAllInRange(w: Work, c: Context, actions: seq<Id>, v: Work)
    requires WorkInRange(w) && PayAll(w, c, actions) == Some(v)
    ensures WorkInRange(v)
    decreases |actions|
  {
    hide Pay, WorkInRange;
    if actions != [] {
      var u := Pay(w, c, actions[0]).value;
      PayInRange(w, c, actions[0], u);
      PayAllInRange(u, c, actions[1..], v);
    }
  }

  lemma ConcludedInRange(w: Work, c: Context, v: Work)
    requires WorkInRange(w) && Conclude(w, c) == Some(v)
    ensures WorkInRange(v)
  {
    hide V, InRange, PayAll, Ordered, WithinLimits, OwedInRange, ClaimsInRange;
    if c.batch.mode == PaymentMode { PayAllInRange(w, c, Ordered(w.state.claims.Keys), PayAll(w, c, Ordered(w.state.claims.Keys)).value); }
  }

  lemma BatchInRange(before: Balance, b: Batch, w: Work)
    requires WorkInRange(Start(before)) && ReduceBatch(before, b) == Some(w)
    ensures WorkInRange(w)
  {
    hide V, Select, ApplyActions, ApplyMergers, ApplyIncomes, Conclude, WorkInRange, Start, UniqueReferences;
    var c := Context(before, b, Select(b, before).value);
    var w1 := ApplyActions(Start(before), c, c.selection.actions).value;
    var w2 := ApplyMergers(w1, c, c.selection.mergers).value;
    var w3 := ApplyIncomes(w2, c, c.selection.actions).value;
    ActionsInRange(Start(before), c, c.selection.actions, w1);
    MergersInRange(w1, c, c.selection.mergers, w2);
    IncomesInRange(w2, c, c.selection.actions, w3);
    ConcludedInRange(w3, c, w);
  }

  lemma BatchKeepsFigures(s: State, e: Event, t: State)
    requires Figures(s.balance) && Accepted(s, e, t) && e.body.BatchBody?
    ensures Figures(t.balance)
  {
    hide V, InRange, Accepted, ReduceBatch, Total, OwedInRange, HeldInRange, ClaimsInRange, ValidBatch;
    BatchStep(s, e, t);
    BatchInRange(s.balance, e.body.batch, ReduceBatch(s.balance, e.body.batch).value);
    SealedInRange(s, e, t);
  }

  // ----- Whole runs -----

  lemma OpenInRange(h: Header)
    requires ValidHeader(h)
    ensures Figures(Open(h).balance)
  {
    ZeroInRange(Money);
    hide V, InRange;
  }

  lemma {:induction false} RunInRange(s: State, events: seq<Event>, t: State)
    requires Figures(s.balance) && Replay.Run(s, events) == Some(t)
    ensures Figures(t.balance)
    decreases |events|
  {
    hide Append, Figures, Accepted;
    if events != [] {
      var u := Append(s, events[0]).value;
      AppendSteps(s, events[0], u);
      if events[0].id !in s.eventIds {
        match events[0].body
        case FillBody(_) => FillKeepsFigures(s, events[0], u);
        case ObligationBody(_, _, _, _, _, _, _) => ObligationKeepsFigures(s, events[0], u);
        case BatchBody(_) => BatchKeepsFigures(s, events[0], u);
      }
      RunInRange(u, events[1..], t);
    }
  }

  /** In every reachable ledger, every figure is in range. */
  lemma FiguresStayInRange(s: State)
    requires Valid(s)
    ensures Figures(s.balance)
  {
    hide Replay.Run, Figures, ValidHeader, Recorded, Holds;
    OpenInRange(s.balance.header);
    RunInRange(Open(s.balance.header), s.events, s);
  }
}
