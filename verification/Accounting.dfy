/**
  The accounting invariant: a proposed balance is accepted only if it is what this module
  computes for itself from the balance before and the event.
 */
module Accounting {
  import opened Options
  import opened Decimals
  import opened Contracts
  import opened Accounts
  import opened CorporateActions
  import opened BatchAudit
  import opened Ledger

  // ----- Fills -----

  datatype FillExpectation = FillExpectation(cash: Dec, positions: map<Id, Dec>, fees: Dec, owner: Ownership, slot: Slot)

  function ExpectedPositions(before: Balance, p: Posting, quantity: Dec): Option<map<Id, Dec>> {
    var signed := if p.intent.side == Buy then quantity else Negate(quantity);
    var sum :- Exact(Add(Held(before.positions, p.intent.instrument), signed));
    var result :- Checked(sum, Holding, false);
    Some(if V(result) == 0.0 then before.positions - {p.intent.instrument} else before.positions[p.intent.instrument := result])
  }

  /** The ownership record and fee increment an order should show after this fill. */
  function ExpectedOwner(before: Balance, p: Posting, quantity: Dec, fee: Dec): Option<Ownership> {
    var cumulativeBefore :- Checked(p.fill.before, Quantity, false);
    var cumulativeAfter :- Checked(p.fill.after, Quantity, true);
    var prior := Lookup(before.owners, p.intent.intentId);
    var _ :- Need(Same(cumulativeBefore, if prior.Some? then prior.value.cumulative else ZERO));
    var sum :- Exact(Add(cumulativeBefore, quantity));
    var _ :- Need(Same(cumulativeAfter, sum));
    var oldFee := if prior.Some? then prior.value.fee else ZERO;
    var dueBefore :- FeeChecked(cumulativeBefore, p.policy);
    var _ :- Need(Same(oldFee, dueBefore));
    var dueAfter :- FeeChecked(cumulativeAfter, p.policy);
    var change :- Exact(Sub(dueAfter, oldFee));
    var delta :- Checked(change, Money, false);
    var _ :- Need(Same(fee, delta));
    Some(Ownership(p.intent, cumulativeAfter, dueAfter, p.policy.version, p.policy.shareCap, p.outcome.session,
                   Same(cumulativeAfter, p.intent.quantity) || p.intent.timeInForce != Gtc,
                   (if prior.Some? then prior.value.fills else []) + [FillId(p.fill)]))
  }

  function ExpectedSlot(before: Balance, p: Posting, quantity: Dec): Option<Slot> {
    var prior := Lookup(before.slots, KeyOf(p));
    var sum :- Exact(Add(if prior.Some? then prior.value.filled else ZERO, quantity));
    var filled :- Checked(sum, Quantity, false);
    Some(Slot(filled, p.policy.shareCap, p.policy.version))
  }

  function ExpectedFill(before: Balance, p: Posting): Option<FillExpectation> {
    var quantity :- Checked(p.fill.quantity, Quantity, true);
    var price :- Checked(p.fill.price, Execution, true);
    var fee :- Checked(p.fill.fee, Money, false);
    var notional :- Exact(Mul(quantity, price));
    var rest :- Exact(Sub(before.cash, if p.intent.side == Buy then notional else Negate(notional)));
    var left :- Exact(Sub(rest, fee));
    var cash :- Checked(left, Money, false);
    var positions :- ExpectedPositions(before, p, quantity);
    var charged :- Exact(Add(before.fees, fee));
    var fees :- Checked(charged, Money, false);
    var owner :- ExpectedOwner(before, p, quantity, fee);
    var slot :- ExpectedSlot(before, p, quantity);
    Some(FillExpectation(cash, positions, fees, owner, slot))
  }

  predicate FillMatches(before: Balance, p: Posting, after: Balance, x: FillExpectation) {
    && Same(after.cash, x.cash) && Values(after.positions) == Values(x.positions) && Same(after.fees, x.fees)
    && Same(after.receivables, before.receivables) && Same(after.liabilities, before.liabilities)
    && RealObligations(after.obligations) == RealObligations(before.obligations)
    && Same(after.income, before.income) && Same(after.expense, before.expense)
    && OwnersAgree(after.owners, before.owners[p.intent.intentId := x.owner])
    && SlotsAgree(after.slots, before.slots[KeyOf(p) := x.slot])
    && after.fillIds == before.fillIds + {FillId(p.fill)}
    && after.instruments == before.instruments + {p.intent.instrument}
  }

  predicate AuditFill(before: Balance, p: Posting, after: Balance) {
    var x := ExpectedFill(before, p);
    x.Some? && FillMatches(before, p, after, x.value)
  }

  // ----- Obligations -----

  datatype ObligationExpectation = ObligationExpectation(obligations: map<ObligationId, Obligation>, cash: Dec, income: Dec, expense: Dec)

  function ExpectedCreation(before: Balance, e: Body): Option<ObligationExpectation>
    requires e.ObligationBody?
  {
    var _ :- Need(e.obligation !in before.obligations && e.economicTime <= e.dueAt);
    var obligations := before.obligations[e.obligation := Obligation(e.kind, e.amount, e.amount, e.dueAt, e.economicTime)];
    var sum :- Exact(Add(if e.kind == Receivable then before.income else before.expense, e.amount));
    var total :- Checked(sum, Money, false);
    Some(if e.kind == Receivable then ObligationExpectation(obligations, before.cash, total, before.expense)
         else ObligationExpectation(obligations, before.cash, before.income, total))
  }

  function ExpectedSettlement(before: Balance, e: Body): Option<ObligationExpectation>
    requires e.ObligationBody?
  {
    var prior :- Lookup(before.obligations, e.obligation);
    var _ :- Need(prior.kind == e.kind && prior.dueAt == e.dueAt && e.dueAt <= e.economicTime && V(e.amount) <= V(prior.remaining));
    var left :- Exact(Sub(prior.remaining, e.amount));
    var remaining :- Checked(left, Money, false);
    var moved :- Exact(if e.kind == Receivable then Add(before.cash, e.amount) else Sub(before.cash, e.amount));
    var cash :- Checked(moved, Money, false);
    Some(ObligationExpectation(
      before.obligations[e.obligation := Obligation(prior.kind, prior.created, remaining, prior.dueAt, prior.economicTime)],
      cash, before.income, before.expense))
  }

  function ExpectedObligation(before: Balance, e: Body): Option<ObligationExpectation>
    requires e.ObligationBody?
  {
    if e.step == Create then ExpectedCreation(before, e) else ExpectedSettlement(before, e)
  }

  function CheckedTotal(obligations: map<ObligationId, Obligation>, kind: ObligationKind): Option<Dec> {
    var sum :- Exact(Total(obligations, kind));
    Checked(sum, Money, false)
  }

  predicate ObligationMatches(before: Balance, after: Balance, x: ObligationExpectation) {
    var receivables, liabilities := CheckedTotal(x.obligations, Receivable), CheckedTotal(x.obligations, Liability);
    && receivables.Some? && Same(after.receivables, receivables.value)
    && liabilities.Some? && Same(after.liabilities, liabilities.value)
    && RealObligations(after.obligations) == RealObligations(x.obligations)
    && Same(after.cash, x.cash) && Same(after.income, x.income) && Same(after.expense, x.expense)
    && Same(after.fees, before.fees) && Values(after.positions) == Values(before.positions)
    && OwnersAgree(after.owners, before.owners) && SlotsAgree(after.slots, before.slots)
    && after.fillIds == before.fillIds && after.instruments == before.instruments
  }

  predicate AuditObligation(before: Balance, e: Body, after: Balance)
    requires e.ObligationBody?
  {
    var x := ExpectedObligation(before, e);
    x.Some? && ObligationMatches(before, after, x.value)
  }

  // ----- Every event -----

  /** The chain, the run and the clock go on as the event says. */
  predicate Continues(before: Balance, e: Event, after: Balance) {
    && GenesisHash(after.header) == GenesisHash(before.header)
    && e.runId == before.header.runId && e.calendarId == before.header.calendarId
    && e.sequence == NextSequence(before) && e.previous == LastPrefix(before)
    && after.prefixes == before.prefixes + [PrefixHash(e.previous, e)]
    && EconomicTime(e.body) <= ObservedAt(e.body) && WithinWindow(before, e.body)
    && after.latestEconomic == Some(EconomicTime(e.body))
    && after.latestObserved == Some(Later(before.latestObserved, ObservedAt(e.body)))
  }

  predicate AuditBody(before: Balance, body: Body, after: Balance) {
    match body
    case BatchBody(batch) => AuditBatch(before, batch, after)
    case FillBody(p) => ActionsOf(after) == ActionsOf(before) && AuditFill(before, p, after)
    case ObligationBody(_, _, id, _, _, _, _) =>
      ActionsOf(after) == ActionsOf(before) && !Claimed(ActionsOf(before), id) && AuditObligation(before, body, after)
  }

  predicate CheckProposed(before: Balance, e: Event, after: Balance) {
    Continues(before, e, after) && AuditBody(before, e.body, after)
  }

  // ----- Balances equal in every accounting field -----

  predicate StatesAgree(s: ActionState, t: ActionState) {
    && s.applied == t.applied && s.symbols == t.symbols && s.cancelled == t.cancelled && s.closed == t.closed
    && s.references == t.references && s.boundaries == t.boundaries && RealClaims(s.claims) == RealClaims(t.claims)
    && s.bound == t.bound
  }

  predicate Agree(a: Balance, b: Balance) {
    && GenesisHash(a.header) == GenesisHash(b.header) && Same(a.cash, b.cash) && Values(a.positions) == Values(b.positions)
    && RealObligations(a.obligations) == RealObligations(b.obligations)
    && Same(a.receivables, b.receivables) && Same(a.liabilities, b.liabilities)
    && Same(a.income, b.income) && Same(a.expense, b.expense) && Same(a.fees, b.fees)
    && OwnersAgree(a.owners, b.owners) && SlotsAgree(a.slots, b.slots)
    && a.fillIds == b.fillIds && a.instruments == b.instruments && a.prefixes == b.prefixes
    && a.latestEconomic == b.latestEconomic && a.latestObserved == b.latestObserved
    && StatesAgree(ActionsOf(a), ActionsOf(b))
  }

  lemma FillAuditDecides(before: Balance, p: Posting, a: Balance, b: Balance)
    requires AuditFill(before, p, a) && AuditFill(before, p, b)
    ensures Same(a.cash, b.cash) && Values(a.positions) == Values(b.positions) && Same(a.fees, b.fees)
    ensures Same(a.receivables, b.receivables) && Same(a.liabilities, b.liabilities)
    ensures RealObligations(a.obligations) == RealObligations(b.obligations)
    ensures Same(a.income, b.income) && Same(a.expense, b.expense)
    ensures OwnersAgree(a.owners, b.owners) && SlotsAgree(a.slots, b.slots)
    ensures a.fillIds == b.fillIds && a.instruments == b.instruments
  {
    hide V, ExpectedFill, Values, RealObligations;
  }

  lemma ObligationAuditDecides(before: Balance, e: Body, a: Balance, b: Balance)
    requires e.ObligationBody? && AuditObligation(before, e, a) && AuditObligation(before, e, b)
    ensures Same(a.cash, b.cash) && Values(a.positions) == Values(b.positions) && Same(a.fees, b.fees)
    ensures Same(a.receivables, b.receivables) && Same(a.liabilities, b.liabilities)
    ensures RealObligations(a.obligations) == RealObligations(b.obligations)
    ensures Same(a.income, b.income) && Same(a.expense, b.expense)
    ensures OwnersAgree(a.owners, b.owners) && SlotsAgree(a.slots, b.slots)
    ensures a.fillIds == b.fillIds && a.instruments == b.instruments
  {
    hide V, ExpectedObligation, Values, RealObligations, CheckedTotal;
  }

  lemma BatchAuditDecides(before: Balance, batch: Batch, a: Balance, b: Balance)
    requires AuditBatch(before, batch, a) && AuditBatch(before, batch, b)
    ensures Same(a.cash, b.cash) && Values(a.positions) == Values(b.positions) && Same(a.fees, b.fees)
    ensures Same(a.receivables, b.receivables) && Same(a.liabilities, b.liabilities)
    ensures RealObligations(a.obligations) == RealObligations(b.obligations)
    ensures Same(a.income, b.income) && Same(a.expense, b.expense)
    ensures OwnersAgree(a.owners, b.owners) && SlotsAgree(a.slots, b.slots)
    ensures a.fillIds == b.fillIds && a.instruments == b.instruments
    ensures StatesAgree(ActionsOf(a), ActionsOf(b))
  {
    hide V, RecountBatch, Values, RealObligations, RealClaims, NonZeroReal, RealTotal, WithinLimits, ActionsOf;
  }

  /** Two after-balances the audit accepts for the same event agree in every accounting field. */
  lemma AuditDecides(before: Balance, e: Event, a: Balance, b: Balance)
    requires CheckProposed(before, e, a) && CheckProposed(before, e, b)
    ensures Agree(a, b)
  {
    hide V, Values, RealObligations, RealClaims, AuditFill, AuditObligation, AuditBatch, OwnersAgree, SlotsAgree, WithinWindow, ActionsOf, GenesisHash;
    match e.body
    case FillBody(p) => FillAuditDecides(before, p, a, b);
    case ObligationBody(_, _, _, _, _, _, _) => ObligationAuditDecides(before, e.body, a, b);
    case BatchBody(batch) => BatchAuditDecides(before, batch, a, b);
  }
}
