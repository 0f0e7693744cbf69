/**
  The audit never rejects what the ledger proposes from a reachable state, whatever the event.
 */
module AuditCompleteness {
  import opened Options
  import opened Decimals
  import opened Contracts
  import opened Accounts
  import opened Ordering
  import opened CorporateActions
  import opened BatchAudit
  import opened ReducerAgreement
  import opened Ledger
  import opened LedgerSteps
  import opened BatchInvariants
  import opened LedgerInvariants
  import opened Accounting

  // ----- Fees -----

  lemma FeeDueSame(a: Dec, b: Dec, policy: Policy)
    requires ValidPolicy(policy) && Same(a, b) && V(a) >= 0.0
    ensures Same(FeeDue(a, policy), FeeDue(b, policy)) && FeeDue(a, policy).exp == -2 && V(FeeDue(a, policy)) >= 0.0
  {
    hide V, ValidPolicy, FeeDue;
    FeeDueMonotone(a, b, policy);
    FeeDueMonotone(b, a, policy);
    FeeNonNegative(a, policy);
  }

  /** A cumulative fee passes its check whenever one of equal value does. */
  lemma FeeCheckedSame(a: Dec, b: Dec, policy: Policy)
    requires ValidPolicy(policy) && Same(a, b) && V(a) >= 0.0 && FeeChecked(a, policy).Some?
    ensures FeeChecked(b, policy).Some? && Same(FeeChecked(a, policy).value, FeeChecked(b, policy).value)
    ensures FeeChecked(b, policy).value.exp == -2 || FeeChecked(b, policy).value.exp == 0
  {
    hide V, ValidPolicy, FeeDue;
    FeeDueSame(a, b, policy);
    FeeDueSame(b, a, policy);
    MoneySame(FeeDue(a, policy), FeeDue(b, policy));
  }

  lemma MoneySame(a: Dec, b: Dec)
    requires Same(a, b) && Checked(a, Money, false).Some? && -24 <= b.exp <= 24
    ensures Checked(b, Money, false).Some? && Same(Checked(a, Money, false).value, Checked(b, Money, false).value)
    ensures Checked(b, Money, false).value.exp == b.exp || Checked(b, Money, false).value.exp == 0
  {
    hide V, Ten;
  }

  lemma DifferenceFits(a: Dec, b: Dec, c: Dec)
    requires InRange(a, Money) && -24 <= b.exp && 0.0 <= V(b) <= V(a) && (c.exp == -2 || c.exp == 0) && Same(a, c)
    ensures Fits(Sub(c, b)) && -24 <= Sub(c, b).exp <= 0 && V(Sub(c, b)) == V(a) - V(b) <= Ten(24)
  {
    hide V, Ten, Fits, Sub, InRange;
    RangeIs(a, Money);
    assert Maximum(Money) == Ten(24);
    RangeFits(Sub(c, b), 24);
  }

  // ----- The owner's record -----

  /** What a fill's quantities are, seen from the moves the ledger computed. */
  lemma Quantities(s: State, p: Posting, m: Moves)
    requires FillAllowed(s, p) && ValidPosting(p) && FillMoves(s.balance, p) == Some(m)
    ensures exists c0 :: Checked(p.fill.before, Quantity, false) == Some(c0) && Same(c0, p.fill.before) && InRange(c0, Quantity)
    ensures exists c1 :: Checked(p.fill.after, Quantity, true) == Some(c1) && Same(c1, p.fill.after)
    ensures Checked(p.fill.quantity, Quantity, true) == Some(p.fill.quantity) && Checked(p.fill.price, Execution, true) == Some(p.fill.price)
    ensures Same(p.fill.before, OwnedCumulative(s.balance, p.intent.intentId)) && Same(p.fill.after, m.after)
    ensures V(p.fill.before) >= 0.0 && V(p.fill.before) + V(p.fill.quantity) == V(p.fill.after)
    ensures InRange(p.fill.quantity, Quantity) && InRange(p.fill.after, Quantity)
  {
    hide V, FillMoves, InRange, Checked, ValidFill, Timely, OwnerAllows, SlotAllows, ActionsAllow, Fits, FeeDue;
    AfterWithin(s, p, m);
    MovesAre(s.balance, p, m);
    InRangePasses(p.fill.before, Quantity);
    InRangePasses(p.fill.after, Quantity);
    InRangePasses(p.fill.quantity, Quantity);
    InRangePasses(p.fill.price, Execution);
    RangeIs(p.fill.before, Quantity);
  }

  lemma SumFits(a: Dec, b: Dec, c: Dec)
    requires InRange(a, Quantity) && InRange(b, Quantity) && InRange(c, Quantity) && V(a) + V(b) == V(c)
    ensures Exact(Add(a, b)) == Some(Add(a, b))
  {
    hide V, Ten, Fits, Add, InRange;
    RangeIs(a, Quantity);
    RangeIs(b, Quantity);
    RangeIs(c, Quantity);
    assert Maximum(Quantity) == Ten(9);
    RangeFits(Add(a, b), 9);
  }

  /** The fee the posted record shows has a money exponent. */
  lemma PostedFee(b: Balance, p: Posting, m: Moves)
    requires FillMoves(b, p) == Some(m)
    ensures FeeChecked(OwnedCumulative(b, p.intent.intentId), p.policy).Some? && FeeChecked(m.after, p.policy) == Some(m.dueAfter)
    ensures -24 <= OwnedFee(b, p.intent.intentId).exp && Checked(p.fill.fee, Money, false) == Some(m.fee)
  {
    hide V, Fits, FeeDue, Add, Mul, Held, SlotFilled, OwnedCumulative, OwnedFee, Ten;
  }

  lemma ExpectedOwnerAgrees(s: State, p: Posting, m: Moves)
    requires Telescopes(s) && FillAllowed(s, p) && ValidPosting(p) && FillMoves(s.balance, p) == Some(m)
    ensures exists x :: ExpectedOwner(s.balance, p, p.fill.quantity, m.fee) == Some(x) && OwnerAgrees(NewOwner(s.balance, p, m), x)
  {
    hide *;
    var b, id := s.balance, p.intent.intentId;
    Quantities(s, p, m);
    PostedFee(b, p, m);
    MovesAre(b, p, m);
    AfterWithin(s, p, m);
    var c0 :| Checked(p.fill.before, Quantity, false) == Some(c0) && Same(c0, p.fill.before) && InRange(c0, Quantity);
    var c1 :| Checked(p.fill.after, Quantity, true) == Some(c1) && Same(c1, p.fill.after);
    SameIs(c0, p.fill.before); SameIs(p.fill.before, OwnedCumulative(b, id)); SameIs(c0, OwnedCumulative(b, id));
    SameIs(c1, p.fill.after); SameIs(p.fill.after, m.after); SameIs(OwnedCumulative(b, id), c0); SameIs(m.after, c1);
    FeeCheckedSame(OwnedCumulative(b, id), c0, p.policy);
    FeeCheckedSame(m.after, c1, p.policy);
    SumFits(c0, p.fill.quantity, p.fill.after);
    var d0, d1 := FeeChecked(c0, p.policy).value, FeeChecked(c1, p.policy).value;
    FeeNonNegative(OwnedCumulative(b, id), p.policy);
    FeeStates(b, p, m, d0, d1);
    DifferenceFits(m.dueAfter, OwnedFee(b, id), d1);
    SameIs(c1, m.after); SameIs(m.dueAfter, d1); SameIs(d1, m.dueAfter);
    OwnerComputed(s, p, m, c0, c1, d0, d1);
  }

  lemma FeeStates(b: Balance, p: Posting, m: Moves, d0: Dec, d1: Dec)
    requires FillMoves(b, p) == Some(m) && FeeChecked(OwnedCumulative(b, p.intent.intentId), p.policy).Some?
    requires V(FeeDue(OwnedCumulative(b, p.intent.intentId), p.policy)) >= 0.0
    requires Same(FeeChecked(OwnedCumulative(b, p.intent.intentId), p.policy).value, d0) && Same(m.dueAfter, d1)
    ensures Same(OwnedFee(b, p.intent.intentId), d0) && InRange(m.dueAfter, Money) && 0.0 <= V(OwnedFee(b, p.intent.intentId)) <= V(m.dueAfter)
  {
    hide *;
    var cumulative, posted := OwnedCumulative(b, p.intent.intentId), OwnedFee(b, p.intent.intentId);
    MovesAre(b, p, m);
    PostedFee(b, p, m);
    FeeCheckedIs(m.after, p.policy);
    FeeCheckedIs(cumulative, p.policy);
    SameIs(posted, FeeDue(cumulative, p.policy));
    SameIs(FeeChecked(cumulative, p.policy).value, FeeDue(cumulative, p.policy));
    SameIs(FeeChecked(cumulative, p.policy).value, d0);
    SameIs(posted, d0);
  }

  lemma FeeCheckedIs(cumulative: Dec, policy: Policy)
    requires FeeChecked(cumulative, policy).Some?
    ensures InRange(FeeChecked(cumulative, policy).value, Money) && Same(FeeChecked(cumulative, policy).value, FeeDue(cumulative, policy))
  {
    hide V, FeeDue, InRange;
  }

  lemma OwnerComputed(s: State, p: Posting, m: Moves, c0: Dec, c1: Dec, d0: Dec, d1: Dec)
    requires var b, id := s.balance, p.intent.intentId;
      && Checked(p.fill.before, Quantity, false) == Some(c0) && Checked(p.fill.after, Quantity, true) == Some(c1)
      && Same(c0, OwnedCumulative(b, id)) && Exact(Add(c0, p.fill.quantity)) == Some(Add(c0, p.fill.quantity))
      && V(c1) == V(c0) + V(p.fill.quantity)
      && FeeChecked(c0, p.policy) == Some(d0) && FeeChecked(c1, p.policy) == Some(d1) && Same(OwnedFee(b, id), d0)
      && Fits(Sub(d1, OwnedFee(b, id))) && -24 <= Sub(d1, OwnedFee(b, id)).exp <= 0
      && 0.0 <= V(Sub(d1, OwnedFee(b, id))) <= Ten(24) && V(Sub(d1, OwnedFee(b, id))) == V(m.fee)
      && Same(c1, m.after) && Same(d1, m.dueAfter) && V(m.after) <= V(p.intent.quantity)
    ensures exists x :: ExpectedOwner(s.balance, p, p.fill.quantity, m.fee) == Some(x) && OwnerAgrees(NewOwner(s.balance, p, m), x)
  {
    assert LowExp(Money) == -24 && HighExp(Money) == 24 && Maximum(Money) == Ten(24);
    InRangePasses(Sub(d1, OwnedFee(s.balance, p.intent.intentId)), Money);
    hide V, Ten, Fits, FeeDue, FeeChecked, Add, Sub, FillId, InRange, LowExp, HighExp, Maximum;
    var x := ExpectedOwner(s.balance, p, p.fill.quantity, m.fee).value;
    assert OwnerAgrees(NewOwner(s.balance, p, m), x);
  }

  // ----- Fills -----

  /** The cash, position, fee total and cap the ledger computed, as the chain of exact steps behind them. */
  lemma MoveSteps(b: Balance, p: Posting, m: Moves)
    requires FillMoves(b, p) == Some(m)
    ensures var notional := Mul(p.fill.quantity, p.fill.price);
      && Exact(notional).Some? && Exact(Sub(b.cash, Signed(p.intent.side, notional))).Some?
      && Exact(Sub(Sub(b.cash, Signed(p.intent.side, notional)), m.fee)).Some?
      && Checked(Sub(Sub(b.cash, Signed(p.intent.side, notional)), m.fee), Money, false) == Some(m.cash)
    ensures Checked(p.fill.fee, Money, false) == Some(m.fee)
    ensures Exact(Add(b.fees, m.fee)).Some? && Checked(Add(b.fees, m.fee), Money, false) == Some(m.fees)
    ensures ExpectedPositions(b, p, p.fill.quantity) == Some(Placed(b.positions, p.intent.instrument, m.position))
    ensures ExpectedSlot(b, p, p.fill.quantity) == Some(NewSlot(p, m))
  {
    hide V, Fits, FeeDue, Add, Mul, Sub, Held, OwnedCumulative, OwnedFee, InRange, Checked, KeyOf;
  }

  lemma ExpectedFillIs(s: State, p: Posting, m: Moves)
    requires Telescopes(s) && FillAllowed(s, p) && ValidPosting(p) && FillMoves(s.balance, p) == Some(m)
    ensures exists x ::
      && ExpectedFill(s.balance, p) == Some(x) && OwnerAgrees(NewOwner(s.balance, p, m), x.owner)
      && x == FillExpectation(m.cash, Placed(s.balance.positions, p.intent.instrument, m.position), m.fees, x.owner, NewSlot(p, m))
  {
    hide *;
    ExpectedOwnerAgrees(s, p, m);
    Quantities(s, p, m);
    MoveSteps(s.balance, p, m);
    var owner :| ExpectedOwner(s.balance, p, p.fill.quantity, m.fee) == Some(owner) && OwnerAgrees(NewOwner(s.balance, p, m), owner);
    FillComputed(s.balance, p, m, owner);
  }

  lemma FillComputed(b: Balance, p: Posting, m: Moves, owner: Ownership)
    requires Checked(p.fill.quantity, Quantity, true) == Some(p.fill.quantity) && Checked(p.fill.price, Execution, true) == Some(p.fill.price)
    requires var notional := Mul(p.fill.quantity, p.fill.price);
      && Exact(notional).Some? && Exact(Sub(b.cash, Signed(p.intent.side, notional))).Some?
      && Exact(Sub(Sub(b.cash, Signed(p.intent.side, notional)), m.fee)).Some?
      && Checked(Sub(Sub(b.cash, Signed(p.intent.side, notional)), m.fee), Money, false) == Some(m.cash)
      && Checked(p.fill.fee, Money, false) == Some(m.fee)
      && Exact(Add(b.fees, m.fee)).Some? && Checked(Add(b.fees, m.fee), Money, false) == Some(m.fees)
    requires ExpectedPositions(b, p, p.fill.quantity) == Some(Placed(b.positions, p.intent.instrument, m.position))
    requires ExpectedOwner(b, p, p.fill.quantity, m.fee) == Some(owner) && ExpectedSlot(b, p, p.fill.quantity) == Some(NewSlot(p, m))
    ensures ExpectedFill(b, p) ==
      Some(FillExpectation(m.cash, Placed(b.positions, p.intent.instrument, m.position), m.fees, owner, NewSlot(p, m)))
  {
    hide V, Fits, Add, Sub, Mul, Negate, Checked, Exact, ExpectedPositions, ExpectedOwner, ExpectedSlot, Placed, NewSlot;
  }

  lemma FillPassesAudit(s: State, e: Event, t: State)
    requires Accepted(s, e, t) && e.body.FillBody? && Holds(s)
    ensures AuditBody(s.balance, e.body, t.balance)
  {
    hide *;
    var p := e.body.posting;
    var m := FillPosted(s, e, t, p);
    HoldsParts(s);
    PostedFillIs(s.balance, p, m, t.balance);
    ActionsOfIs(s.balance, t.balance);
    TotalledIs(s.balance);
    ExpectedFillIs(s, p, m);
    var x := ExpectedFill(s.balance, p).value;
    MatchesFill(s.balance, p, m, t.balance, x);
    FillAudited(s.balance, p, t.balance, x);
  }

  lemma HoldsParts(s: State)
    requires Holds(s)
    ensures Totalled(s.balance) && Balanced(s) && Telescopes(s) && Settled(s.balance)
  {
    hide Totalled, Balanced, Telescopes, Settled;
  }

  lemma FillAudited(before: Balance, p: Posting, after: Balance, x: FillExpectation)
    requires ExpectedFill(before, p) == Some(x) && FillMatches(before, p, after, x) && ActionsOf(after) == ActionsOf(before)
    ensures AuditBody(before, FillBody(p), after)
  {
    hide ExpectedFill, FillMatches, ActionsOf;
  }

  lemma MatchesFill(b: Balance, p: Posting, m: Moves, a: Balance, x: FillExpectation)
    requires a.cash == m.cash && a.fees == m.fees && a.income == b.income && a.expense == b.expense && a.obligations == b.obligations
    requires a.receivables == b.receivables && a.liabilities == b.liabilities
    requires a.positions == Placed(b.positions, p.intent.instrument, m.position)
    requires a.owners == b.owners[p.intent.intentId := NewOwner(b, p, m)] && a.slots == b.slots[KeyOf(p) := NewSlot(p, m)]
    requires a.fillIds == b.fillIds + {FillId(p.fill)} && a.instruments == b.instruments + {p.intent.instrument}
    requires x.cash == m.cash && x.positions == Placed(b.positions, p.intent.instrument, m.position)
    requires x.fees == m.fees && OwnerAgrees(NewOwner(b, p, m), x.owner) && x.slot == NewSlot(p, m)
    ensures FillMatches(b, p, a, x)
  {
    hide V, Values, RealObligations, Placed, NewOwner, NewSlot, FillId, KeyOf;
    assert forall o :: OwnerAgrees(o, o);
    assert forall o :: SlotAgrees(o, o);
    hide OwnerAgrees, SlotAgrees;
  }

  // ----- Obligations -----

  lemma CreationExpected(b: Balance, e: Body)
    requires e.ObligationBody? && CreateObligation(b, e).Some? && e.economicTime <= e.dueAt
    ensures var o, x := CreateObligation(b, e).value, ExpectedCreation(b, e);
      x.Some? && x.value == ObligationExpectation(o.obligations, o.cash, o.income, o.expense)
  {
    hide V, Add, Fits, InRange, Checked, Exact;
  }

  lemma SettlementExpected(b: Balance, e: Body)
    requires e.ObligationBody? && SettleObligation(b, e).Some?
    ensures var o, x := SettleObligation(b, e).value, ExpectedSettlement(b, e);
      x.Some? && x.value == ObligationExpectation(o.obligations, o.cash, o.income, o.expense)
  {
    hide V, Add, Sub, Fits, InRange, Checked, Exact;
  }

  lemma ObligationExpected(b: Balance, e: Body)
    requires e.ObligationBody? && PostObligation(b, e).Some? && (e.step == Create ==> e.economicTime <= e.dueAt)
    ensures var o, x := PostObligation(b, e).value, ExpectedObligation(b, e);
      x.Some? && x.value == ObligationExpectation(o.obligations, o.cash, o.income, o.expense)
  {
    hide CreateObligation, SettleObligation, ExpectedCreation, ExpectedSettlement, Claimed;
    if e.step == Create { CreationExpected(b, e); } else { SettlementExpected(b, e); }
  }

  lemma TotalsChecked(s: State, e: Event, t: State)
    requires Accepted(s, e, t)
    ensures var r, l := CheckedTotal(t.balance.obligations, Receivable), CheckedTotal(t.balance.obligations, Liability);
      && r.Some? && Same(t.balance.receivables, r.value) && l.Some? && Same(t.balance.liabilities, l.value)
  {
    hide V, PostBody, WithinWindow, Total, InRange, Fits, PrefixHash, WellFormed, EconomicTime, ObservedAt, LastPrefix, Later;
  }

  lemma ObligationPassesAudit(s: State, e: Event, t: State)
    requires Accepted(s, e, t) && e.body.ObligationBody?
    ensures AuditBody(s.balance, e.body, t.balance)
  {
    ObligationStep(s, e, t);
    ObligationKeeps(s.balance, e.body);
    var o := PostObligation(s.balance, e.body).value;
    assert e.body.step == Create ==> e.body.economicTime <= e.body.dueAt by { hide Propose; }
    OwedFields(s.balance, o, t.balance, e.body.obligation);
    hide *;
    ObligationExpected(s.balance, e.body);
    TotalsChecked(s, e, t);
    ActionsOfIs(s.balance, t.balance);
    MatchesObligation(s.balance, t.balance, ExpectedObligation(s.balance, e.body).value);
    ObligationAudited(s.balance, e.body, t.balance);
  }

  lemma ObligationAudited(before: Balance, e: Body, after: Balance)
    requires e.ObligationBody? && ExpectedObligation(before, e).Some? && !Claimed(ActionsOf(before), e.obligation)
    requires ObligationMatches(before, after, ExpectedObligation(before, e).value) && ActionsOf(after) == ActionsOf(before)
    ensures AuditBody(before, e, after)
  {
    hide ExpectedObligation, ObligationMatches, ActionsOf, Claimed;
  }

  lemma OwedFields(b: Balance, o: Balance, a: Balance, id: ObligationId)
    requires OnlyOwes(b, o, id)
    requires a == o.(receivables := a.receivables, liabilities := a.liabilities, latestEconomic := a.latestEconomic,
                     latestObserved := a.latestObserved, prefixes := a.prefixes)
    ensures a.obligations == o.obligations && a.cash == o.cash && a.income == o.income && a.expense == o.expense
    ensures a.fees == b.fees && a.positions == b.positions && a.owners == b.owners && a.slots == b.slots
    ensures a.fillIds == b.fillIds && a.instruments == b.instruments && a.actions == b.actions
  {
  }

  lemma MatchesObligation(b: Balance, a: Balance, x: ObligationExpectation)
    requires a.obligations == x.obligations && a.cash == x.cash && a.income == x.income && a.expense == x.expense
    requires a.fees == b.fees && a.positions == b.positions && a.owners == b.owners && a.slots == b.slots
    requires a.fillIds == b.fillIds && a.instruments == b.instruments
    requires var r, l := CheckedTotal(a.obligations, Receivable), CheckedTotal(a.obligations, Liability);
      && r.Some? && Same(a.receivables, r.value) && l.Some? && Same(a.liabilities, l.value)
    ensures ObligationMatches(b, a, x)
  {
    hide V, Values, RealObligations, CheckedTotal;
  }

  // ----- Batches -----

  lemma {:induction false} RealTotalIs(m: map<ObligationId, Obligation>, kind: ObligationKind)
    ensures RealTotal(RealObligations(m), kind) == V(Total(m, kind))
    decreases |m|
  {
    ValueZero();
    if m == map[] {
      assert RealObligations(m) == map[];
      hide V;
    } else {
      var k := Least(m);
      assert RealObligations(m).Keys == m.Keys && RealObligations(m) != map[] by { assert k in RealObligations(m); }
      var l := Least(RealObligations(m));
      RankIsInjective(k, l);
      assert RealObligations(m) - {k} == RealObligations(m - {k});
      RealTotalIs(m - {k}, kind);
      hide V;
    }
  }

  lemma BatchPassesAudit(s: State, e: Event, t: State)
    requires Accepted(s, e, t) && e.body.BatchBody? && Holds(s)
    ensures AuditBody(s.balance, e.body, t.balance)
  {
    BatchStep(s, e, t);
    var b, batch := s.balance, e.body.batch;
    var w := ReduceBatch(b, batch).value;
    ReducedFields(b, w, t.balance);
    hide *;
    HoldsParts(s);
    SoundStart(b);
    BatchKeeps(b, batch);
    KeptLiabilities(b, w, batch.session.openAt);
    TotalledIs(b);
    ReducersAgree(b, batch);
    RealTotalIs(w.obligations, Receivable);
    ConcludedState(b, batch);
    var r := RecountBatch(b, batch).value;
    MatchesBatch(b, t.balance, w, r, batch);
    BatchAudited(b, batch, t.balance, r);
  }

  lemma SoundStart(b: Balance)
    requires Settled(b)
    ensures Sound(Start(b))
  {
    hide Sound, Start, ActionsOf, V;
  }

  lemma KeptLiabilities(b: Balance, w: Work, openAt: Time)
    requires Sound(Start(b)) && Keeps(Start(b), w, openAt)
    ensures V(Total(w.obligations, Liability)) == V(Total(b.obligations, Liability))
  {
    hide V, Total, Sound, HistoryKept, SurplusOf;
  }

  lemma ReducedFields(b: Balance, w: Work, a: Balance)
    requires a == Reduced(b, w).(receivables := Total(w.obligations, Receivable), liabilities := Total(w.obligations, Liability),
                      latestEconomic := a.latestEconomic, latestObserved := a.latestObserved, prefixes := a.prefixes)
    ensures a.cash == w.cash && a.positions == w.positions && a.obligations == w.obligations && a.income == w.income
    ensures a.receivables == Total(w.obligations, Receivable) && a.liabilities == Total(w.obligations, Liability)
    ensures a.instruments == w.instruments && a.actions == Some(w.state) && ActionsOf(a) == w.state
    ensures a.expense == b.expense && a.fees == b.fees && a.owners == b.owners && a.slots == b.slots && a.fillIds == b.fillIds
  {
    hide Total;
  }

  lemma ConcludedState(before: Balance, b: Batch)
    requires ReduceBatch(before, b).Some?
    ensures ReduceBatch(before, b).value.state.bound == Some((b.calendar, b.policy)) && WithinLimits(ReduceBatch(before, b).value.state)
  {
    hide V, Select, ApplyActions, ApplyMergers, ApplyIncomes, Start, UniqueReferences, PayAll, NonZero, Ordered, WithinLimits;
  }

  lemma BatchAudited(before: Balance, b: Batch, after: Balance, r: Recount)
    requires RecountBatch(before, b) == Some(r) && WithinLimits(ActionsOf(after)) && Matches(before, after, r, b)
    ensures AuditBody(before, BatchBody(b), after)
  {
    hide RecountBatch, WithinLimits, Matches, ActionsOf;
  }

  lemma MatchesBatch(b: Balance, a: Balance, w: Work, r: Recount, batch: Batch)
    requires Reals(w) == r.(quantities := NonZeroReal(r.quantities))
    requires a.cash == w.cash && a.positions == w.positions && a.obligations == w.obligations && a.income == w.income
    requires V(a.receivables) == RealTotal(RealObligations(w.obligations), Receivable) && Same(a.liabilities, b.liabilities)
    requires a.instruments == w.instruments && ActionsOf(a) == w.state && w.state.bound == Some((batch.calendar, batch.policy))
    requires a.expense == b.expense && a.fees == b.fees && a.owners == b.owners && a.slots == b.slots && a.fillIds == b.fillIds
    ensures Matches(b, a, r, batch)
  {
    hide V, Values, RealObligations, RealClaims, RealTotal, NonZeroReal, ActionsOf;
  }

  // ----- Every event -----

  lemma TimesHold(e: Event)
    requires WellFormed(e)
    ensures EconomicTime(e.body) <= ObservedAt(e.body)
  {
    hide V, FillInRange, AdversePrice, FeeDue, FloorLots, ValidPolicy, ValidBatch, InRange;
  }

  lemma ChainContinues(s: State, e: Event, t: State)
    requires Accepted(s, e, t) && |s.events| == |s.balance.prefixes|
    ensures Continues(s.balance, e, t.balance)
  {
    AnyStep(s, e, t);
    TimesHold(e);
    assert Follows(s, e);
    hide Accepted, WithinWindow, EconomicTime, ObservedAt, Later, PrefixHash, GenesisHash, LastPrefix;
  }

  /** The audit accepts every proposed state of a reachable ledger. */
  lemma AuditAccepts(s: State, e: Event, t: State)
    requires Accepted(s, e, t) && Holds(s) && |s.events| == |s.balance.prefixes|
    ensures CheckProposed(s.balance, e, t.balance)
  {
    hide Accepted, Holds, AuditBody, Continues;
    ChainContinues(s, e, t);
    match e.body
    case FillBody(_) => FillPassesAudit(s, e, t);
    case ObligationBody(_, _, _, _, _, _, _) => ObligationPassesAudit(s, e, t);
    case BatchBody(_) => BatchPassesAudit(s, e, t);
  }
}
