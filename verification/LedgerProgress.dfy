/**
  What a reachable ledger accepts: a fill, a posting or a payment is accepted exactly when it
  continues the chain in time and the balance, the ownership records and the limits allow it,
  all told in values.
 */
module LedgerProgress {
  import opened Options
  import opened Decimals
  import opened Contracts
  import opened Accounts
  import opened Ordering
  import opened CorporateActions
  import opened BatchInvariants
  import opened BatchEffects
  import opened SelectionAdmission
  import opened Ledger
  import opened LedgerSteps
  import opened LedgerInvariants
  import opened Replay
  import opened LedgerFigures
  import opened AuditCompleteness

  // ----- What every event must meet -----

  /** The event is next in the chain of this run, and there is room for it. */
  predicate Continues(s: State, e: Event) {
    && e.sequence == s.balance.header.startSequence + |s.events| && e.previous == LastPrefix(s.balance)
    && e.runId == s.balance.header.runId && e.calendarId == s.balance.header.calendarId
    && |s.events| < 4096 && s.balance.header.startSequence + |s.events| < 0x7fff_ffff_ffff_ffff
  }

  /** Nothing in the ledger happened later, and it happened and was known within the window. */
  predicate InWindow(b: Balance, happened: Time, known: Time) {
    && b.header.openingTime <= happened <= b.header.cutoff && known <= b.header.cutoff
    && (b.latestEconomic == None || b.latestEconomic.value <= happened)
  }

  // ----- Totals -----

  lemma {:induction false} TotalShape(m: map<ObligationId, Obligation>, kind: ObligationKind)
    requires OwedInRange(m)
    ensures -24 <= Total(m, kind).exp <= 0 && V(Total(m, kind)) >= 0.0
    decreases |m|
  {
    ValueZero();
    if m != map[] {
      var k := Least(m);
      RangeIs(m[k].remaining, Money);
      assert OwedInRange(m - {k});
      TotalShape(m - {k}, kind);
    }
    hide V, InRange, Ten;
  }

  /** A nonnegative decimal on the grid of money passes the context and the range check exactly when it is not too large. */
  lemma IsMoney(d: Dec)
    requires -24 <= d.exp <= 24 && V(d) >= 0.0
    ensures Exact(d).Some? && Checked(d, Money, false).Some? <==> V(d) <= Ten(24)
  {
    RangeIs(d, Money);
    CheckedIs(d, Money);
    TenPositive(24);
    hide V, Ten, Fits, InRange, Checked, Exact;
    if V(d) <= Ten(24) { RangeFits(d, 24); }
  }

  lemma TenPositive(n: nat)
    ensures Ten(n) >= 1.0
  {
  }

  /** Which proposals are sealed: those whose totals are not too large. */
  lemma SealedExactly(before: Balance, e: Event, posted: Balance)
    requires OwedInRange(posted.obligations)
    ensures Sealed(before, e, posted).Some? <==>
      V(Total(posted.obligations, Receivable)) <= Ten(24) && V(Total(posted.obligations, Liability)) <= Ten(24)
  {
    TotalShape(posted.obligations, Receivable);
    TotalShape(posted.obligations, Liability);
    IsMoney(Total(posted.obligations, Receivable));
    IsMoney(Total(posted.obligations, Liability));
    hide V, Ten, Fits, Total, Checked, Exact, EconomicTime, ObservedAt, Later, PrefixHash, OwedInRange;
  }

  // ----- Postings -----

  /** What the ledger must hold, and have room for, to create or settle an obligation. */
  predicate PostingFits(b: Balance, e: Body)
    requires e.ObligationBody?
  {
    var x := V(e.amount);
    && !(e.obligation.ClaimOf? && e.obligation.action in ActionsOf(b).claims)
    && if e.step == Create then
         && e.obligation !in b.obligations && |b.obligations| < 256
         && (if e.kind == Receivable then V(b.income) + x <= Ten(24) && V(b.receivables) + x <= Ten(24)
             else V(b.expense) + x <= Ten(24) && V(b.liabilities) + x <= Ten(24))
       else
         && e.obligation in b.obligations
         && var o := b.obligations[e.obligation];
            && o.kind == e.kind && o.dueAt == e.dueAt && o.dueAt <= e.economicTime && x <= V(o.remaining)
            && (if e.kind == Receivable then V(b.cash) + x <= Ten(24) else x <= V(b.cash))
  }

  /** A positive amount of money, known no earlier than it happened and due no earlier than it was made. */
  predicate PostingSound(e: Body)
    requires e.ObligationBody?
  {
    && -24 <= e.amount.exp <= 24 && 0.0 < V(e.amount) <= Ten(24)
    && e.economicTime <= e.observedAt && (e.step == Create ==> e.economicTime <= e.dueAt)
  }

  lemma Creates(b: Balance, e: Body)
    requires e.ObligationBody? && e.step == Create && Figures(b) && PostingSound(e)
    ensures CreateObligation(b, e).Some? <==>
      e.obligation !in b.obligations && |b.obligations| < 256
      && (if e.kind == Receivable then V(b.income) + V(e.amount) <= Ten(24) else V(b.expense) + V(e.amount) <= Ten(24))
  {
    RangeIs(b.income, Money);
    RangeIs(b.expense, Money);
    IsMoney(Add(b.income, e.amount));
    IsMoney(Add(b.expense, e.amount));
    hide V, Ten, InRange, Fits, Checked, Exact, Add;
  }

  lemma Settles(b: Balance, e: Body)
    requires e.ObligationBody? && e.step == Settle && Figures(b) && PostingSound(e)
    ensures SettleObligation(b, e).Some? <==>
      && e.obligation in b.obligations
      && var o := b.obligations[e.obligation];
         && o.kind == e.kind && o.dueAt == e.dueAt && o.dueAt <= e.economicTime && V(e.amount) <= V(o.remaining)
         && (if e.kind == Receivable then V(b.cash) + V(e.amount) <= Ten(24) else V(e.amount) <= V(b.cash))
  {
    RangeIs(b.cash, Money);
    if e.obligation in b.obligations {
      var o := b.obligations[e.obligation];
      RangeIs(o.remaining, Money);
      if V(e.amount) <= V(o.remaining) { IsMoney(Sub(o.remaining, e.amount)); }
      if e.kind == Receivable {
        IsMoney(Add(b.cash, e.amount));
      } else if V(e.amount) <= V(b.cash) {
        IsMoney(Sub(b.cash, e.amount));
      } else {
        NegativeFails(Sub(b.cash, e.amount));
      }
    }
    hide V, Ten, InRange, Fits, Checked, Exact, Add, Sub;
  }

  lemma NegativeFails(d: Dec)
    requires V(d) < 0.0
    ensures Checked(d, Money, false).None?
  {
    CheckedIs(d, Money);
    RangeIs(d, Money);
    hide V, Ten, InRange, Checked;
  }

  /** What a posting makes of the two totals. */
  lemma TotalsAfter(b: Balance, e: Body)
    requires e.ObligationBody? && Totalled(b) && PostObligation(b, e).Some?
    ensures var m, x := PostObligation(b, e).value.obligations, if e.step == Create then V(e.amount) else -V(e.amount);
      && V(Total(m, Receivable)) == V(b.receivables) + (if e.kind == Receivable then x else 0.0)
      && V(Total(m, Liability)) == V(b.liabilities) + (if e.kind == Liability then x else 0.0)
  {
    ValueZero();
    ObligationMoves(b, e);
    hide V, PostObligation, Total;
    var m := PostObligation(b, e).value.obligations;
    TotalUpdate(b.obligations, Receivable, e.obligation, m[e.obligation]);
    TotalUpdate(b.obligations, Liability, e.obligation, m[e.obligation]);
  }

  lemma PostsExactly(b: Balance, e: Body)
    requires e.ObligationBody? && Figures(b) && Totalled(b) && PostingSound(e)
    ensures PostingFits(b, e) ==> PostObligation(b, e).Some?
    ensures PostObligation(b, e).Some? ==>
      (PostingFits(b, e) <==>
        var m := PostObligation(b, e).value.obligations; V(Total(m, Receivable)) <= Ten(24) && V(Total(m, Liability)) <= Ten(24))
    ensures PostObligation(b, e).Some? ==> OwedInRange(PostObligation(b, e).value.obligations)
  {
    RangeIs(b.receivables, Money);
    RangeIs(b.liabilities, Money);
    MoneyAmount(e);
    if PostObligation(b, e).Some? {
      TotalsAfter(b, e);
      PostingInRange(b, e, PostObligation(b, e).value);
    }
    if e.step == Create { Creates(b, e); } else { Settles(b, e); }
    hide V, Ten, InRange, Total, CreateObligation, SettleObligation, OwedInRange, HeldInRange, FilledInRange, ClaimsInRange, Totalled, ActionsOf;
  }

  lemma MoneyAmount(e: Body)
    requires e.ObligationBody? && PostingSound(e)
    ensures InRange(e.amount, Money)
  {
    RangeIs(e.amount, Money);
    hide V, Ten, InRange;
  }

  // ----- Proposals -----

  lemma ProposesExactly(s: State, e: Event)
    ensures Propose(s, e).Some? <==>
      && |s.events| < 4096 && s.balance.header.startSequence + |s.events| < 0x7fff_ffff_ffff_ffff
      && PostBody(s, e.body).Some? && InWindow(s.balance, EconomicTime(e.body), ObservedAt(e.body))
      && Sealed(s.balance, e, PostBody(s, e.body).value.balance).Some?
  {
    hide PostBody, Sealed, EconomicTime, ObservedAt;
  }

  /**
    A reachable ledger accepts a new posting exactly when it is sound, continues the chain within
    the window and the limits, touches no claim, and either creates an obligation that income or
    expense and the totals have room for, or settles part of one that is due and of this kind, with
    cash to pay it or room to receive it.
   */
  lemma PostingAccepted(s: State, e: Event)
    requires Valid(s) && e.id !in s.eventIds && e.body.ObligationBody?
    ensures Append(s, e).Some? <==>
      PostingSound(e.body) && Continues(s, e) && InWindow(s.balance, e.body.economicTime, e.body.observedAt) && PostingFits(s.balance, e.body)
  {
    hide *;
    AuditNeverRejects(s, e);
    ValidParts(s);
    FiguresStayInRange(s);
    ProposesExactly(s, e);
    SoundPosting(e);
    PostedBody(s, e);
    ContinuesIs(s, e);
    if PostingSound(e.body) {
      PostsExactly(s.balance, e.body);
      if PostObligation(s.balance, e.body).Some? { SealedExactly(s.balance, e, PostObligation(s.balance, e.body).value); }
    }
  }

  lemma SoundPosting(e: Event)
    requires e.body.ObligationBody?
    ensures WellFormed(e) <==> PostingSound(e.body)
    ensures EconomicTime(e.body) == e.body.economicTime && ObservedAt(e.body) == e.body.observedAt
  {
    RangeIs(e.body.amount, Money);
    hide V, Ten, InRange;
  }

  lemma PostedBody(s: State, e: Event)
    requires e.body.ObligationBody?
    ensures PostBody(s, e.body).Some? <==> PostObligation(s.balance, e.body).Some?
    ensures PostBody(s, e.body).Some? ==> PostBody(s, e.body).value.balance == PostObligation(s.balance, e.body).value
  {
    hide PostObligation;
  }

  lemma ContinuesIs(s: State, e: Event)
    ensures Continues(s, e) <==>
      Follows(s, e) && |s.events| < 4096 && s.balance.header.startSequence + |s.events| < 0x7fff_ffff_ffff_ffff
  {
    hide LastPrefix;
  }

  // ----- Fills -----

  /** No action stands against the fill: its instrument is open, its order was not cancelled, and it was decided after any split. */
  predicate Unbarred(a: ActionState, p: Posting) {
    && p.intent.instrument !in a.closed && p.intent.intentId !in a.cancelled
    && (p.intent.instrument in a.boundaries ==> a.boundaries[p.intent.instrument] <= p.binding.decisionTime)
  }

  /** The order is new, or the same good-till-cancelled order under the same policy goes on in a later session. */
  predicate OrderGoesOn(s: State, p: Posting) {
    var id, b := p.intent.intentId, s.balance;
    if id in b.owners then
      && b.owners[id].intent == p.intent && p.intent.timeInForce == Gtc && b.owners[id].lastSession < p.outcome.session
      && id in s.policies && s.policies[id] == p.policy && V(p.fill.before) == V(b.owners[id].cumulative)
    else |b.owners| < 256 && V(p.fill.before) == 0.0
  }

  /** The session's slot has room under the same policy, and instrument and slot are known or not too many. */
  predicate SlotHasRoom(s: State, p: Posting) {
    var b, key := s.balance, (p.intent.instrument, p.outcome.session);
    && (p.intent.instrument in b.instruments || |b.instruments| < 256)
    && if key in b.slots then
         key in s.slotPolicies && s.slotPolicies[key] == p.policy && V(b.slots[key].filled) + V(p.fill.quantity) <= V(p.policy.shareCap)
       else |b.slots| < 4096
  }

  /** Cash and shares can pay for the fill, and no figure grows out of its range. */
  predicate Payable(b: Balance, p: Posting) {
    var notional := Product(V(p.fill.quantity), V(p.fill.price));
    var cash := V(b.cash) + (if p.intent.side == Buy then -notional else notional) - V(p.fill.fee);
    var held := (if p.intent.instrument in b.positions then V(b.positions[p.intent.instrument]) else 0.0)
                + (if p.intent.side == Buy then V(p.fill.quantity) else -V(p.fill.quantity));
    0.0 <= cash <= Ten(24) && 0.0 <= held <= Ten(12) && V(b.fees) + V(p.fill.fee) <= Ten(24)
  }

  lemma UnbarredIs(a: ActionState, p: Posting)
    ensures Unbarred(a, p) <==> ActionsAllow(a, p)
  {
  }

  /** What is known of a fill whose record is sound. */
  lemma SoundFill(p: Posting)
    requires ValidPosting(p)
    ensures ValidPolicy(p.policy) && 0.0 < V(p.fill.quantity) <= Ten(9) && 0.0 < V(p.fill.price) <= 2.0 * Ten(9) && 0.0 <= V(p.fill.fee) <= Ten(24)
    ensures -6 <= p.fill.quantity.exp <= 9 && -16 <= p.fill.price.exp <= 10 && -24 <= p.fill.fee.exp <= 24 && InRange(p.fill.before, Quantity)
    ensures V(p.fill.before) < V(p.intent.quantity) && InRange(p.intent.quantity, Quantity) && V(p.fill.after) == V(p.fill.before) + V(p.fill.quantity)
    ensures V(p.fill.after) <= V(p.intent.quantity) && V(p.fill.quantity) <= V(p.policy.shareCap)
    ensures V(p.fill.fee) == V(FeeDue(p.fill.after, p.policy)) - V(FeeDue(p.fill.before, p.policy))
    ensures p.outcome.closeAt < p.outcome.receivedAt
  {
    RangeIs(p.fill.quantity, Quantity);
    RangeIs(p.fill.price, Execution);
    RangeIs(p.fill.fee, Money);
    hide V, Ten, FeeDue, ValidPolicy, AdversePrice, FloorLots, LotQuantity, BoundTo, InRange, Marketable;
  }

  /** In a reachable ledger an order that is not over has something left, and its fee is the fee due. */
  lemma OwnerFacts(s: State, p: Posting)
    requires Telescopes(s) && Figures(s.balance) && ValidPosting(p) && OrderGoesOn(s, p)
    ensures var c := OwnedCumulative(s.balance, p.intent.intentId);
      && Same(p.fill.before, c) && V(c) < V(p.intent.quantity) && InRange(c, Quantity) && InRange(OwnedFee(s.balance, p.intent.intentId), Money)
      && Same(OwnedFee(s.balance, p.intent.intentId), FeeDue(c, p.policy))
    ensures p.intent.intentId in s.balance.owners ==> !s.balance.owners[p.intent.intentId].terminal
  {
    ValueZero();
    LedgerFigures.ZeroInRange(Quantity);
    LedgerFigures.ZeroInRange(Money);
    SoundFill(p);
    FeeDueIs(ZERO, p.policy);
    var id := p.intent.intentId;
    if id in s.balance.owners { assert OwnerHolds(s, id); }
    hide V, InRange, FeeDue, ValidPosting, ValidPolicy, FilledBy, FilledIn, Sum, OwedInRange, HeldInRange, ClaimsInRange;
  }

  lemma ResidueFits(q: Dec, c: Dec)
    requires InRange(q, Quantity) && InRange(c, Quantity)
    ensures Fits(Sub(q, c))
  {
    RangeIs(q, Quantity);
    RangeIs(c, Quantity);
    hide V, Ten, InRange, Fits;
    RangeFits(Sub(q, c), 9);
  }

  /** The checks before the arithmetic. */
  lemma AllowsExactly(s: State, p: Posting)
    requires Telescopes(s) && Figures(s.balance) && ValidPosting(p)
    ensures FillAllowed(s, p) && FillMoves(s.balance, p).Some? ==> OrderGoesOn(s, p)
    ensures OrderGoesOn(s, p) ==>
      (FillAllowed(s, p) <==>
        && FillId(p.fill) !in s.balance.fillIds && Unbarred(ActionsOf(s.balance), p)
        && InWindow(s.balance, p.outcome.closeAt, p.outcome.receivedAt) && SlotAllows(s, p))
  {
    UnbarredIs(ActionsOf(s.balance), p);
    SoundFill(p);
    if OrderGoesOn(s, p) {
      OwnerFacts(s, p);
      ResidueFits(p.intent.quantity, OwnedCumulative(s.balance, p.intent.intentId));
      RestOfOrder(s, p);
    }
    GoesOnWhenAllowed(s, p);
    hide V, InRange, FeeDue, ValidPosting, ValidPolicy, FillMoves, Fits, Figures, Telescopes, SlotAllows, FillId, ActionsOf, ValidFill,
      OwnedCumulative, Unbarred;
  }

  lemma GoesOnWhenAllowed(s: State, p: Posting)
    ensures FillAllowed(s, p) ==> OrderGoesOn(s, p)
  {
    ValueZero();
    hide V, ValidFill, Fits, FillId, ActionsAllow, SlotAllows, Timely;
  }

  /** What is left of the order by its record is what the fill's own record says. */
  lemma RestOfOrder(s: State, p: Posting)
    requires ValidPosting(p) && Same(p.fill.before, OwnedCumulative(s.balance, p.intent.intentId))
    ensures var c := OwnedCumulative(s.balance, p.intent.intentId);
      ValidFill(p.fill, p.intent, p.outcome, p.policy, p.binding, Sub(p.intent.quantity, c), c)
  {
    hide V, FeeDue, ValidPolicy, AdversePrice, FloorLots, LotQuantity, BoundTo, OutcomeFor, InRange, OwnedCumulative, FillInRange, Marketable;
  }

  lemma IsQuantity(d: Dec)
    requires -6 <= d.exp <= 9 && V(d) >= 0.0
    ensures Exact(d).Some? && Checked(d, Quantity, false).Some? <==> V(d) <= Ten(9)
    ensures V(d) > 0.0 && V(d) <= Ten(9) ==> Checked(d, Quantity, true).Some?
  {
    RangeIs(d, Quantity);
    CheckedIs(d, Quantity);
    SignOfValue(d);
    hide V, Ten, Fits, InRange, Exact;
    if V(d) <= Ten(9) { RangeFits(d, 9); InRangePasses(d, Quantity); }
    hide Checked;
  }

  /** Cash after the fill passes its checks exactly when it is an amount of money. */
  lemma CashPasses(b: Balance, p: Posting)
    requires InRange(b.cash, Money) && 0.0 < V(p.fill.quantity) <= Ten(9) && 0.0 < V(p.fill.price) <= 2.0 * Ten(9) && 0.0 <= V(p.fill.fee) <= Ten(24)
    requires -6 <= p.fill.quantity.exp <= 9 && -16 <= p.fill.price.exp <= 10
    ensures var notional := Mul(p.fill.quantity, p.fill.price);
      var rest := Sub(b.cash, Signed(p.intent.side, notional));
      && Exact(notional).Some? && Exact(rest).Some?
      && forall fee: Dec | -24 <= fee.exp <= 24 && V(fee) == V(p.fill.fee) ::
           && Exact(Sub(rest, fee)).Some?
           && (Checked(Sub(rest, fee), Money, false).Some? <==>
                 var moved := Product(V(p.fill.quantity), V(p.fill.price));
                 0.0 <= V(b.cash) + (if p.intent.side == Buy then -moved else moved) - V(p.fill.fee) <= Ten(24))
  {
    RangeIs(b.cash, Money);
    ProductOf(p.fill.quantity, p.fill.price);
    NotionalWithin(V(p.fill.quantity), V(p.fill.price));
    TensGrow();
    hide V, Ten, Mul, Sub, Fits, InRange, Checked, Exact, Product;
    var notional := Mul(p.fill.quantity, p.fill.price);
    var rest := Sub(b.cash, Signed(p.intent.side, notional));
    SignedExp(p.intent.side, notional);
    RangeFits(notional, 19);
    RangeFits(rest, 25);
    forall fee: Dec | -24 <= fee.exp <= 24 && V(fee) == V(p.fill.fee)
      ensures Exact(Sub(rest, fee)).Some?
      ensures Checked(Sub(rest, fee), Money, false).Some? <==> 0.0 <= V(Sub(rest, fee)) <= Ten(24)
    {
      RangeFits(Sub(rest, fee), 26);
      CheckedIs(Sub(rest, fee), Money);
      RangeIs(Sub(rest, fee), Money);
    }
  }

  lemma SignedExp(side: Side, amount: Dec)
    ensures Signed(side, amount).exp == amount.exp
  {
    hide V;
  }

  lemma NotionalWithin(q: real, p: real)
    requires 0.0 < q <= Ten(9) && 0.0 < p <= 2.0 * Ten(9)
    ensures 0.0 <= Product(q, p) <= 2.0 * Ten(18)
  {
    TenAdd(9, 9);
    hide Ten;
    ProductBound(q, Ten(9), p, 2.0 * Ten(9));
  }

  lemma TensGrow()
    ensures 2.0 * Ten(18) <= Ten(19) && 10.0 * Ten(19) <= Ten(24) && 10.0 * Ten(24) <= Ten(25) && 10.0 * Ten(25) <= Ten(26)
    ensures 10.0 * Ten(9) <= Ten(12) && 10.0 * Ten(12) <= Ten(13) && Ten(15) <= Ten(24)
  {
    Tenfold(18, 19);
    Tenfold(19, 24);
    Tenfold(24, 25);
    Tenfold(25, 26);
    Tenfold(9, 12);
    Tenfold(12, 13);
    Tenfold(15, 24);
    TenPositive(18);
    TenPositive(15);
    hide Ten;
  }

  lemma Tenfold(m: nat, n: nat)
    requires m < n
    ensures 10.0 * Ten(m) <= Ten(n)
  {
    Pow10Grows(m + 1, n);
    assert Pow10(m + 1) == 10 * Pow10(m);
  }

  lemma SharesPass(b: Balance, p: Posting)
    requires InRange(Held(b.positions, p.intent.instrument), Holding) && 0.0 < V(p.fill.quantity) <= Ten(9) && -6 <= p.fill.quantity.exp <= 9
    ensures var held := Add(Held(b.positions, p.intent.instrument), Signed(p.intent.side, p.fill.quantity));
      && Exact(held).Some?
      && (Checked(held, Holding, false).Some? <==>
            0.0 <= V(Held(b.positions, p.intent.instrument)) + (if p.intent.side == Buy then V(p.fill.quantity) else -V(p.fill.quantity)) <= Ten(12))
  {
    RangeIs(Held(b.positions, p.intent.instrument), Holding);
    TensGrow();
    SignedExp(p.intent.side, p.fill.quantity);
    hide V, Ten, Fits, InRange, Checked, Exact, Add, Held;
    var held := Add(Held(b.positions, p.intent.instrument), Signed(p.intent.side, p.fill.quantity));
    RangeFits(held, 13);
    CheckedIs(held, Holding);
    RangeIs(held, Holding);
  }

  lemma FeePasses(x: Dec, policy: Policy)
    requires ValidPolicy(policy) && 0.0 <= V(x) <= Ten(9)
    ensures FeeChecked(x, policy).Some? && Same(FeeChecked(x, policy).value, FeeDue(x, policy)) && -2 <= FeeChecked(x, policy).value.exp <= 0
  {
    FeeNonNegative(x, policy);
    FeeBounded(x, policy);
    TensGrow();
    hide V, Ten, FeeDue, ValidPolicy;
    RangeIs(FeeDue(x, policy), Money);
    InRangePasses(FeeDue(x, policy), Money);
    ZeroExp();
    hide InRange, Checked;
  }

  lemma ZeroExp()
    ensures ZERO.exp == 0 && ZERO.coef == 0
  {
  }

  lemma TotalPasses(c: Dec, q: Dec)
    requires -6 <= c.exp <= 9 && -6 <= q.exp <= 9 && 0.0 <= V(c) && 0.0 < V(q) && V(c) + V(q) <= Ten(9)
    ensures var total := Add(c, q);
      Exact(total).Some? && Checked(total, Quantity, true).Some? && V(Checked(total, Quantity, true).value) == V(c) + V(q)
  {
    hide V, Ten, Add, Exact, Checked, Fits;
    IsQuantity(Add(c, q));
  }

  lemma ChangePasses(after: Dec, posted: Dec, fee: Dec)
    requires -2 <= after.exp <= 0 && -24 <= posted.exp <= 24 && V(after) - V(posted) == V(fee) && 0.0 <= V(fee) <= Ten(24) && -24 <= fee.exp <= 24
    ensures var change := Sub(after, posted);
      && Exact(change).Some? && Checked(change, Money, false).Some? && Checked(fee, Money, false).Some?
      && Same(Checked(fee, Money, false).value, Checked(change, Money, false).value)
  {
    hide V, Ten, Sub, Exact, Checked, Fits;
    IsMoney(Sub(after, posted));
    IsMoney(fee);
  }

  /** The fee of the fill is what the cumulative fee grows by. */
  lemma FeesPass(s: State, p: Posting)
    requires ValidPosting(p) && InRange(s.balance.fees, Money)
    requires var c := OwnedCumulative(s.balance, p.intent.intentId);
      && Same(p.fill.before, c) && InRange(c, Quantity) && InRange(OwnedFee(s.balance, p.intent.intentId), Money)
      && Same(OwnedFee(s.balance, p.intent.intentId), FeeDue(c, p.policy))
    ensures var c := OwnedCumulative(s.balance, p.intent.intentId); var total := Add(c, p.fill.quantity);
      && Exact(total).Some? && Checked(total, Quantity, true).Some?
      && var after := Checked(total, Quantity, true).value;
         && FeeChecked(c, p.policy).Some? && Same(OwnedFee(s.balance, p.intent.intentId), FeeChecked(c, p.policy).value)
         && FeeChecked(after, p.policy).Some? && Checked(p.fill.fee, Money, false).Some?
         && var change := Sub(FeeChecked(after, p.policy).value, OwnedFee(s.balance, p.intent.intentId));
            && Exact(change).Some? && Checked(change, Money, false).Some?
            && Same(Checked(p.fill.fee, Money, false).value, Checked(change, Money, false).value)
  {
    hide V, Ten, FeeDue, ValidPosting, ValidPolicy, Add, Sub, Checked, Exact, FeeChecked, InRange, OwnedCumulative, OwnedFee, Fits;
    var c, posted := OwnedCumulative(s.balance, p.intent.intentId), OwnedFee(s.balance, p.intent.intentId);
    SoundFill(p);
    RangeIs(c, Quantity);
    RangeIs(posted, Money);
    RangeIs(p.intent.quantity, Quantity);
    TotalPasses(c, p.fill.quantity);
    var after := Checked(Add(c, p.fill.quantity), Quantity, true).value;
    FeePasses(c, p.policy);
    FeePasses(after, p.policy);
    FeeDueSame(c, p.fill.before, p.policy);
    FeeDueSame(after, p.fill.after, p.policy);
    ChangePasses(FeeChecked(after, p.policy).value, posted, p.fill.fee);
  }

  lemma SlotPasses(s: State, p: Posting)
    requires ValidPosting(p) && Figures(s.balance)
    ensures Checked(p.policy.shareCap, Quantity, true).Some? && V(Checked(p.policy.shareCap, Quantity, true).value) == V(p.policy.shareCap)
    ensures var used := Add(SlotFilled(s.balance, KeyOf(p)), p.fill.quantity);
      Exact(used).Some? && Checked(used, Quantity, false).Some? && V(Checked(used, Quantity, false).value) <= V(p.policy.shareCap)
      <==> V(SlotFilled(s.balance, KeyOf(p))) + V(p.fill.quantity) <= V(p.policy.shareCap)
  {
    SoundFill(p);
    ZeroInRange(Quantity);
    CapWithin(p.policy);
    hide V, Ten, ValidPosting, ValidPolicy, InRange, Add, Exact, Checked, Fits;
    var filled := SlotFilled(s.balance, KeyOf(p));
    RangeIs(filled, Quantity);
    IsQuantity(p.policy.shareCap);
    IsQuantity(Add(filled, p.fill.quantity));
  }

  lemma CapWithin(p: Policy)
    requires ValidPolicy(p)
    ensures -6 <= p.shareCap.exp <= 9 && 0.0 <= V(p.shareCap) <= Ten(9)
  {
    hide V, Ten;
  }

  /** The arithmetic of a fill succeeds exactly when the slot has room and the fill can be paid for. */
  lemma MovesExactly(s: State, p: Posting)
    requires Telescopes(s) && Figures(s.balance) && ValidPosting(p) && OrderGoesOn(s, p)
    ensures FillMoves(s.balance, p).Some? <==>
      V(SlotFilled(s.balance, KeyOf(p))) + V(p.fill.quantity) <= V(p.policy.shareCap) && Payable(s.balance, p)
  {
    hide *;
    PayableIs(s.balance, p);
    SoundFill(p);
    OwnerFacts(s, p);
    FiguresOf(s.balance, p);
    SlotPasses(s, p);
    FeesPass(s, p);
    CashPasses(s.balance, p);
    SharesPass(s.balance, p);
    TotalFees(s.balance, p);
    MovesFrom(s, p);
  }

  lemma PayableIs(b: Balance, p: Posting)
    ensures Payable(b, p) <==>
      var moved := Product(V(p.fill.quantity), V(p.fill.price));
      && 0.0 <= V(b.cash) + (if p.intent.side == Buy then -moved else moved) - V(p.fill.fee) <= Ten(24)
      && 0.0 <= V(Held(b.positions, p.intent.instrument)) + (if p.intent.side == Buy then V(p.fill.quantity) else -V(p.fill.quantity)) <= Ten(12)
      && V(b.fees) + V(p.fill.fee) <= Ten(24)
  {
    ValueZero();
    hide V, Ten, Product;
  }

  lemma FiguresOf(b: Balance, p: Posting)
    requires Figures(b)
    ensures InRange(b.cash, Money) && InRange(b.fees, Money) && InRange(Held(b.positions, p.intent.instrument), Holding)
  {
    ZeroInRange(Holding);
    hide InRange, V;
  }

  lemma TotalFees(b: Balance, p: Posting)
    requires InRange(b.fees, Money) && 0.0 <= V(p.fill.fee) <= Ten(24) && -24 <= p.fill.fee.exp <= 24
    ensures var fee := Checked(p.fill.fee, Money, false);
      && fee.Some? && V(fee.value) == V(p.fill.fee) && -24 <= fee.value.exp <= 24
      && (Exact(Add(b.fees, fee.value)).Some? && Checked(Add(b.fees, fee.value), Money, false).Some? <==> V(b.fees) + V(p.fill.fee) <= Ten(24))
  {
    RangeIs(b.fees, Money);
    ZeroExp();
    hide V, Ten, Add, Exact, Fits;
    IsMoney(p.fill.fee);
    InRangePasses(p.fill.fee, Money);
    RangeIs(p.fill.fee, Money);
    hide InRange, Checked;
    IsMoney(Add(b.fees, Checked(p.fill.fee, Money, false).value));
  }

  lemma MovesFrom(s: State, p: Posting)
    requires Checked(p.policy.shareCap, Quantity, true).Some? && V(Checked(p.policy.shareCap, Quantity, true).value) == V(p.policy.shareCap)
    requires var c := OwnedCumulative(s.balance, p.intent.intentId); var total := Add(c, p.fill.quantity);
      && Exact(total).Some? && Checked(total, Quantity, true).Some?
      && var after := Checked(total, Quantity, true).value;
         && FeeChecked(c, p.policy).Some? && Same(OwnedFee(s.balance, p.intent.intentId), FeeChecked(c, p.policy).value)
         && FeeChecked(after, p.policy).Some? && Checked(p.fill.fee, Money, false).Some?
         && var change := Sub(FeeChecked(after, p.policy).value, OwnedFee(s.balance, p.intent.intentId));
            && Exact(change).Some? && Checked(change, Money, false).Some?
            && Same(Checked(p.fill.fee, Money, false).value, Checked(change, Money, false).value)
    requires Exact(Mul(p.fill.quantity, p.fill.price)).Some?
    requires Exact(Sub(s.balance.cash, Signed(p.intent.side, Mul(p.fill.quantity, p.fill.price)))).Some?
    ensures var fee, b := Checked(p.fill.fee, Money, false).value, s.balance;
      var used := Add(SlotFilled(b, KeyOf(p)), p.fill.quantity);
      var left := Sub(Sub(b.cash, Signed(p.intent.side, Mul(p.fill.quantity, p.fill.price))), fee);
      var held := Add(Held(b.positions, p.intent.instrument), Signed(p.intent.side, p.fill.quantity));
      FillMoves(b, p).Some? <==>
        && Exact(used).Some? && Checked(used, Quantity, false).Some? && V(Checked(used, Quantity, false).value) <= V(p.policy.shareCap)
        && Exact(left).Some? && Checked(left, Money, false).Some?
        && Exact(held).Some? && Checked(held, Holding, false).Some?
        && Exact(Add(b.fees, fee)).Some? && Checked(Add(b.fees, fee), Money, false).Some?
  {
    hide V, InRange, Fits, FeeDue, Mul, Checked, Exact, Add, Sub, Held, OwnedCumulative, OwnedFee, SlotFilled, KeyOf, FeeChecked, Signed;
  }

  /** What a reachable ledger needs for a fill beside its own record: an order that goes on, room in the slot, nothing against it, and the means. */
  predicate FillFits(s: State, p: Posting) {
    && FillId(p.fill) !in s.balance.fillIds && Unbarred(ActionsOf(s.balance), p) && OrderGoesOn(s, p) && SlotHasRoom(s, p) && Payable(s.balance, p)
  }

  lemma SlotIs(s: State, p: Posting)
    requires Telescopes(s) && ValidPosting(p)
    ensures SlotHasRoom(s, p) <==> SlotAllows(s, p) && V(SlotFilled(s.balance, KeyOf(p))) + V(p.fill.quantity) <= V(p.policy.shareCap)
  {
    ValueZero();
    SoundFill(p);
    hide V, InRange, FeeDue, ValidPosting, ValidPolicy, OwnerHolds;
  }

  lemma PostsFill(s: State, p: Posting)
    ensures PostFill(s, p).Some? <==> FillAllowed(s, p) && FillMoves(s.balance, p).Some?
    ensures PostFill(s, p).Some? ==> PostFill(s, p).value.balance.obligations == s.balance.obligations
  {
    hide FillAllowed, FillMoves, Placed, NewOwner, NewSlot, FillId, KeyOf;
  }

  lemma TotalsKept(b: Balance)
    requires Figures(b) && Totalled(b)
    ensures V(Total(b.obligations, Receivable)) <= Ten(24) && V(Total(b.obligations, Liability)) <= Ten(24) && OwedInRange(b.obligations)
  {
    RangeIs(b.receivables, Money);
    RangeIs(b.liabilities, Money);
    hide V, Ten, InRange, Total, OwedInRange, HeldInRange, FilledInRange, ClaimsInRange;
  }

  lemma FillBodyIs(s: State, e: Event, p: Posting)
    requires e.body == FillBody(p)
    ensures WellFormed(e) <==> ValidPosting(p) && e.runId == p.intent.runId && e.calendarId == p.intent.calendarId
    ensures EconomicTime(e.body) == p.outcome.closeAt && ObservedAt(e.body) == p.outcome.receivedAt
    ensures PostBody(s, e.body) == PostFill(s, p)
  {
    hide ValidPosting, PostFill;
  }

  /**
    A reachable ledger accepts a new fill exactly when the fill's record is sound and of this run,
    continues the chain within the window, and is not posted yet; no closure, cancellation or later
    split stands against it; its order is new or goes on; its slot has room; and cash and shares
    pay for it without any figure leaving its range.
   */
  lemma FillAccepted(s: State, e: Event, p: Posting)
    requires Valid(s) && e.id !in s.eventIds && e.body == FillBody(p)
    ensures Append(s, e).Some? <==>
      && ValidPosting(p) && e.runId == p.intent.runId && e.calendarId == p.intent.calendarId && Continues(s, e)
      && InWindow(s.balance, p.outcome.closeAt, p.outcome.receivedAt) && FillFits(s, p)
  {
    hide *;
    AuditNeverRejects(s, e);
    ValidParts(s);
    FiguresStayInRange(s);
    ProposesExactly(s, e);
    ContinuesIs(s, e);
    FillBodyIs(s, e, p);
    PostsFill(s, p);
    FillFitsIs(s, p);
    TotalsKept(s.balance);
    if ValidPosting(p) {
      AllowsExactly(s, p);
      SlotIs(s, p);
      if OrderGoesOn(s, p) { MovesExactly(s, p); }
      if PostFill(s, p).Some? { SealedExactly(s.balance, e, PostFill(s, p).value.balance); }
    }
  }

  lemma FillFitsIs(s: State, p: Posting)
    ensures FillFits(s, p) <==>
      FillId(p.fill) !in s.balance.fillIds && Unbarred(ActionsOf(s.balance), p) && OrderGoesOn(s, p) && SlotHasRoom(s, p) && Payable(s.balance, p)
  {
    hide FillId, Unbarred, ActionsOf, OrderGoesOn, SlotHasRoom, Payable;
  }

  // ----- Payments -----

  lemma {:induction false} SumNonNegative(m: map<Id, real>)
    requires forall k | k in m :: m[k] >= 0.0
    ensures Sum(m) >= 0.0
    decreases |m|
  {
    if k :| k in m {
      SumRemove(m, k);
      SumNonNegative(m - {k});
    }
  }

  /** What is due is at least what any one claim of it is. */
  lemma DueCovers(claims: map<Id, Claim>, openAt: Time, a: Id)
    requires a in claims && !claims[a].paid && claims[a].dueAt <= openAt && forall k | k in claims :: V(claims[k].amount) >= 0.0
    ensures V(claims[a].amount) <= AmountDue(claims, openAt)
  {
    hide V;
    var m := DueAmounts(claims, openAt);
    SumRemove(m, a);
    SumNonNegative(m - {a});
  }

  lemma PayExists(w: Work, c: Context, a: Id)
    requires BatchInvariants.Sound(w) && WorkInRange(w) && V(w.cash) + AmountDue(w.state.claims, c.batch.session.openAt) <= Ten(24)
    ensures Pay(w, c, a).Some?
  {
    var openAt := c.batch.session.openAt;
    if a in w.state.claims && !w.state.claims[a].paid && w.state.claims[a].dueAt <= openAt {
      ClaimAmounts(w);
      DueCovers(w.state.claims, openAt, a);
      var claim := w.state.claims[a];
      assert Backs(w.obligations[ClaimOf(a)], claim);
      RangeIs(w.cash, Money);
      RangeIs(claim.amount, Money);
      SameIs(w.obligations[ClaimOf(a)].remaining, claim.amount);
      IsMoney(Add(w.cash, claim.amount));
    }
    hide V, Ten, InRange, Add, Exact, Checked, Fits, Same, AmountDue;
  }

  lemma ClaimAmounts(w: Work)
    requires BatchInvariants.Sound(w)
    ensures forall k | k in w.state.claims :: V(w.state.claims[k].amount) >= 0.0
  {
    hide V;
  }

  lemma {:induction false} PaymentsExist(w: Work, c: Context, actions: seq<Id>)
    requires BatchInvariants.Sound(w) && WorkInRange(w) && V(w.cash) + AmountDue(w.state.claims, c.batch.session.openAt) <= Ten(24)
    ensures PayAll(w, c, actions).Some?
    decreases |actions|
  {
    hide Pay, BatchInvariants.Sound, WorkInRange, AmountDue, V, Ten;
    if actions != [] {
      PayExists(w, c, actions[0]);
      var u := Pay(w, c, actions[0]).value;
      PayKeeps(w, c, actions[0]);
      KeepsSound(w, u, c.batch.session.openAt);
      PayInRange(w, c, actions[0], u);
      PaysOne(w, c, actions[0], u);
      DueFalls(w, actions[0], u, c.batch.session.openAt);
      PaymentsExist(u, c, actions[1..]);
    }
  }

  lemma KeepsSound(w: Work, u: Work, openAt: Time)
    requires BatchInvariants.Sound(w) && Keeps(w, u, openAt)
    ensures BatchInvariants.Sound(u)
  {
    hide BatchInvariants.Sound, Carries;
  }

  lemma BalanceWork(s: State)
    requires Figures(s.balance) && Settled(s.balance)
    ensures WorkInRange(Start(s.balance)) && BatchInvariants.Sound(Start(s.balance))
  {
    hide V, InRange;
  }

  /** What a payment records beside the payments themselves: the calendar and policy, within the limits there already were. */
  predicate HistoryFits(b: Balance) {
    var s := ActionsOf(b);
    && |s.applied| <= 4096 && |s.cancelled| <= 4096 && |s.references| <= 4096 && |s.claims| <= 4096
    && |s.symbols| <= 256 && |s.boundaries| <= 256 && |s.closed| <= 256 && |b.instruments| <= 256 && |NonZero(b.positions)| <= 256
  }

  lemma PaymentReduces(before: Balance, b: Batch, c: Context)
    requires ValidBatch(b) && b.mode == PaymentMode && c == Context(before, b, Selection([], []))
    ensures var paid := PayAll(Start(before), c, Ordered(ActionsOf(before).claims.Keys));
      && (ReduceBatch(before, b).Some? <==>
            Select(b, before).Some? && paid.Some? && WithinLimits(paid.value.state.(bound := Some((b.calendar, b.policy)))))
      && (ReduceBatch(before, b).Some? ==>
            ReduceBatch(before, b).value
            == paid.value.(state := paid.value.state.(bound := Some((b.calendar, b.policy))), positions := NonZero(paid.value.positions)))
  {
    hide V, Select, PayAll, Ordered, WithinLimits, ActionsOf, NonZero, ValidAction, ValidReferenceRecord, ValidMerger;
    if Select(b, before).Some? { SelectIsChosen(b, before); }
  }

  lemma PaidWithinLimits(before: Balance, b: Batch, paid: Work)
    requires paid.state == ActionsOf(before).(claims := paid.state.claims) && paid.state.claims.Keys == ActionsOf(before).claims.Keys
    requires paid.positions == before.positions && paid.instruments == before.instruments
    ensures HistoryFits(before) <==>
      WithinLimits(paid.state.(bound := Some((b.calendar, b.policy)))) && |NonZero(paid.positions)| <= 256 && |paid.instruments| <= 256
  {
    hide ActionsOf, NonZero;
    assert |paid.state.claims| == |paid.state.claims.Keys| && |ActionsOf(before).claims| == |ActionsOf(before).claims.Keys|;
  }

  lemma PaymentPosts(before: Balance, b: Batch)
    ensures PostBatch(before, b).Some? <==>
      ReduceBatch(before, b).Some? && |ReduceBatch(before, b).value.positions| <= 256 && |ReduceBatch(before, b).value.instruments| <= 256
    ensures PostBatch(before, b).Some? ==> PostBatch(before, b).value.obligations == ReduceBatch(before, b).value.obligations
  {
    hide ReduceBatch;
  }

  lemma StartIs(before: Balance)
    ensures var w := Start(before);
      && w.state == ActionsOf(before) && w.cash == before.cash && w.positions == before.positions && w.instruments == before.instruments
      && w.obligations == before.obligations
  {
    hide ActionsOf;
  }

  lemma CashWithin(w: Work)
    requires WorkInRange(w)
    ensures V(w.cash) <= Ten(24) && OwedInRange(w.obligations)
  {
    RangeIs(w.cash, Money);
    hide V, Ten, InRange, OwedInRange, HeldInRange, ClaimsInRange;
  }

  lemma PassesPayment(b: Batch, before: Balance)
    requires b.mode == PaymentMode
    ensures Select(b, before).Some? <==> Fitting(b, before)
  {
    SelectAdmits(b, before);
    hide Select, Fitting;
  }

  /** Which payments go through. */
  lemma PaysExactly(s: State, b: Batch)
    requires ValidBatch(b) && b.mode == PaymentMode && Figures(s.balance) && Settled(s.balance)
    ensures PostBatch(s.balance, b).Some? <==>
      Fitting(b, s.balance) && HistoryFits(s.balance) && V(s.balance.cash) + AmountDue(ActionsOf(s.balance).claims, b.session.openAt) <= Ten(24)
  {
    hide *;
    var before, start := s.balance, Start(s.balance);
    var c, ids := Context(before, b, Selection([], [])), Ordered(ActionsOf(s.balance).claims.Keys);
    BalanceWork(s);
    StartIs(before);
    PassesPayment(b, before);
    PaymentReduces(before, b, c);
    PaymentPosts(before, b);
    if V(before.cash) + AmountDue(ActionsOf(before).claims, b.session.openAt) <= Ten(24) { PaymentsExist(start, c, ids); }
    if PayAll(start, c, ids).Some? {
      var paid := PayAll(start, c, ids).value;
      PaysAll(start, c, ids, paid);
      PaidIs(start, c, ids, paid);
      PaidWithinLimits(before, b, paid);
    }
    if ReduceBatch(before, b).Some? {
      PaymentPaysDue(before, b, ReduceBatch(before, b).value);
      BatchInRange(before, b, ReduceBatch(before, b).value);
      CashWithin(ReduceBatch(before, b).value);
    }
  }

  lemma PaidIs(w: Work, c: Context, ids: seq<Id>, v: Work)
    requires v == w.(cash := v.cash, obligations := v.obligations, state := w.state.(claims := v.state.claims))
    requires PaidAmong(w.state.claims, v.state.claims, ids, c.batch.session.openAt)
    ensures v.state == w.state.(claims := v.state.claims) && v.state.claims.Keys == w.state.claims.Keys
    ensures v.positions == w.positions && v.instruments == w.instruments
  {
  }

  lemma BatchBodyIs(s: State, e: Event, b: Batch)
    requires e.body == BatchBody(b)
    ensures WellFormed(e) <==> ValidBatch(b)
    ensures EconomicTime(e.body) == b.session.openAt && ObservedAt(e.body) == b.session.openAt
    ensures PostBody(s, e.body).Some? <==> PostBatch(s.balance, b).Some?
    ensures PostBody(s, e.body).Some? ==> PostBody(s, e.body).value.balance == PostBatch(s.balance, b).value
  {
    hide ValidBatch, PostBatch;
  }

  lemma SamePrincipal(claims: map<Id, Claim>, now: map<Id, Claim>, openAt: Time)
    requires PaidBy(claims, now, openAt)
    ensures Principal(now) == Principal(claims)
  {
    hide V;
    forall a | a in claims ensures PrincipalOf(now[a]) == PrincipalOf(claims[a]) {}
    assert Principals(now) == Principals(claims);
  }

  lemma DueNonNegative(claims: map<Id, Claim>, openAt: Time)
    requires forall k | k in claims :: V(claims[k].amount) >= 0.0
    ensures AmountDue(claims, openAt) >= 0.0
  {
    hide V;
    SumNonNegative(DueAmounts(claims, openAt));
  }

  /** Where income and principal stay and cash grows, what is receivable falls by as much, and what is owed stays. */
  lemma TotalsFall(w: Work, v: Work, openAt: Time)
    requires BatchInvariants.Sound(w) && Keeps(w, v, openAt) && PaidBy(w.state.claims, v.state.claims, openAt)
    requires v.income == w.income && V(v.cash) == V(w.cash) + AmountDue(w.state.claims, openAt)
    ensures V(Total(v.obligations, Receivable)) <= V(Total(w.obligations, Receivable))
    ensures V(Total(v.obligations, Liability)) == V(Total(w.obligations, Liability))
  {
    ClaimAmounts(w);
    SamePrincipal(w.state.claims, v.state.claims, openAt);
    DueNonNegative(w.state.claims, openAt);
    hide V, Total, AmountDue, PaidBy, BatchInvariants.Sound, HistoryKept, Principal;
  }

  /** A payment never raises what is receivable or owed. */
  lemma PaymentTotals(s: State, b: Batch)
    requires ValidBatch(b) && b.mode == PaymentMode && Figures(s.balance) && Settled(s.balance) && Totalled(s.balance) && PostBatch(s.balance, b).Some?
    ensures var m := PostBatch(s.balance, b).value.obligations;
      OwedInRange(m) && V(Total(m, Receivable)) <= Ten(24) && V(Total(m, Liability)) <= Ten(24)
  {
    hide *;
    var before := s.balance;
    BalanceWork(s);
    StartIs(before);
    PaymentPosts(before, b);
    var w := ReduceBatch(before, b).value;
    BatchInRange(before, b, w);
    CashWithin(w);
    BatchKeeps(before, b);
    PaymentPaysDue(before, b, w);
    TotalsKept(before);
    TotalledIs(before);
    StartIncome(before);
    TotalsFall(Start(before), w, b.session.openAt);
  }

  lemma StartIncome(before: Balance)
    ensures Start(before).income == before.income
  {
  }

  /**
    A reachable ledger accepts a new payment batch exactly when it continues the chain within the
    window, is for a session of the bound calendar on this very balance, and cash has room for all
    that has fallen due; the ledger pays whatever it can hold.
   */
  lemma PaymentAccepted(s: State, e: Event, b: Batch)
    requires Valid(s) && e.id !in s.eventIds && e.body == BatchBody(b) && b.mode == PaymentMode
    ensures Append(s, e).Some? <==>
      && ValidBatch(b) && Continues(s, e) && InWindow(s.balance, b.session.openAt, b.session.openAt)
      && Fitting(b, s.balance) && HistoryFits(s.balance) && V(s.balance.cash) + AmountDue(ActionsOf(s.balance).claims, b.session.openAt) <= Ten(24)
  {
    hide *;
    AuditNeverRejects(s, e);
    ValidParts(s);
    FiguresStayInRange(s);
    ProposesExactly(s, e);
    ContinuesIs(s, e);
    BatchBodyIs(s, e, b);
    if ValidBatch(b) {
      PaysExactly(s, b);
      if PostBatch(s.balance, b).Some? {
        PaymentTotals(s, b);
        SealedExactly(s.balance, e, PostBatch(s.balance, b).value);
      }
    }
  }

  // ----- Openings -----

  lemma OpeningPosts(before: Balance, b: Batch)
    ensures var w := ReduceBatch(before, b);
      PostBatch(before, b).Some? <==> w.Some? && |w.value.positions| <= 256 && |w.value.instruments| <= 256
    ensures PostBatch(before, b).Some? ==> PostBatch(before, b).value.obligations == ReduceBatch(before, b).value.obligations
  {
    hide ReduceBatch;
  }

  /** An opening leaves what is owed as it was. */
  lemma OwedStays(s: State, b: Batch)
    requires ValidBatch(b) && Figures(s.balance) && Settled(s.balance) && Totalled(s.balance) && ReduceBatch(s.balance, b).Some?
    ensures var m := ReduceBatch(s.balance, b).value.obligations; OwedInRange(m) && V(Total(m, Liability)) <= Ten(24)
  {
    hide *;
    BalanceWork(s);
    StartIs(s.balance);
    BatchInRange(s.balance, b, ReduceBatch(s.balance, b).value);
    CashWithin(ReduceBatch(s.balance, b).value);
    BatchKeeps(s.balance, b);
    TotalsKept(s.balance);
    TotalledIs(s.balance);
    LiabilityKept(Start(s.balance), ReduceBatch(s.balance, b).value, b.session.openAt);
  }

  lemma LiabilityKept(w: Work, v: Work, openAt: Time)
    requires BatchInvariants.Sound(w) && Keeps(w, v, openAt)
    ensures V(Total(v.obligations, Liability)) == V(Total(w.obligations, Liability))
  {
    hide V, Total, BatchInvariants.Sound, HistoryKept;
  }

  /**
    A reachable ledger accepts a new opening exactly when it continues the chain within the window,
    the reducer accepts it, and positions, instruments and what is receivable do not become too many
    or too much; what is owed stays as it was.
   */
  lemma OpeningAccepted(s: State, e: Event, b: Batch)
    requires Valid(s) && e.id !in s.eventIds && e.body == BatchBody(b) && b.mode == OpeningMode
    ensures Append(s, e).Some? <==>
      && ValidBatch(b) && Continues(s, e) && InWindow(s.balance, b.session.openAt, b.session.openAt)
      && var w := ReduceBatch(s.balance, b);
         && w.Some? && |w.value.positions| <= 256 && |w.value.instruments| <= 256 && V(Total(w.value.obligations, Receivable)) <= Ten(24)
  {
    hide *;
    AuditNeverRejects(s, e);
    ValidParts(s);
    FiguresStayInRange(s);
    ProposesExactly(s, e);
    ContinuesIs(s, e);
    BatchBodyIs(s, e, b);
    OpeningPosts(s.balance, b);
    if ValidBatch(b) && PostBatch(s.balance, b).Some? {
      OwedStays(s, b);
      SealedExactly(s.balance, e, PostBatch(s.balance, b).value);
    }
  }
}
