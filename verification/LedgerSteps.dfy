/**
  What one accepted event does to the ledger, in values: the facts the proofs about whole
  runs build on.
 */
module LedgerSteps {
  import opened Options
  import opened Decimals
  import opened Contracts
  import opened Accounts
  import opened CorporateActions
  import opened Ledger

  /** An accepted step: a sealed event that continues the chain, and the state proposed for it. */
  predicate Accepted(s: State, e: Event, t: State) {
    WellFormed(e) && Follows(s, e) && Propose(s, e) == Some(t)
  }

  // ----- Fills -----

  /** What a fill costs its buyer, negative for a sale. */
  function Net(p: Posting): real {
    var notional := Product(V(p.fill.quantity), V(p.fill.price));
    if p.intent.side == Buy then notional else -notional
  }

  function Delta(p: Posting): real { if p.intent.side == Buy then V(p.fill.quantity) else -V(p.fill.quantity) }

  /** What the amounts of a fill are, in values. */
  lemma MovesAre(b: Balance, p: Posting, m: Moves)
    requires FillMoves(b, p) == Some(m)
    ensures V(m.capAfter) == V(SlotFilled(b, KeyOf(p))) + V(p.fill.quantity) && V(m.capAfter) <= V(p.policy.shareCap)
    ensures V(m.after) == V(OwnedCumulative(b, p.intent.intentId)) + V(p.fill.quantity) && V(m.after) > 0.0
    ensures Same(m.dueAfter, FeeDue(m.after, p.policy))
    ensures Same(OwnedFee(b, p.intent.intentId), FeeDue(OwnedCumulative(b, p.intent.intentId), p.policy))
    ensures Same(m.fee, p.fill.fee) && V(m.fee) == V(m.dueAfter) - V(OwnedFee(b, p.intent.intentId)) && V(m.fee) >= 0.0
    ensures V(m.fees) == V(b.fees) + V(m.fee)
    ensures V(m.cash) == V(b.cash) - Net(p) - V(m.fee) && InRange(m.cash, Money)
    ensures V(m.position) == V(Held(b.positions, p.intent.instrument)) + Delta(p) && InRange(m.position, Holding) && V(m.position) >= 0.0
  {
    hide V, InRange, Fits, FeeDue, Product, Mul, Checked, Exact, Add, Sub, Held, OwnedCumulative, OwnedFee, SlotFilled, KeyOf;
    hide Ten, Maximum;
    ProductOf(p.fill.quantity, p.fill.price);
    RangeIs(m.fee, Money);
    RangeIs(m.position, Holding);
  }

  /** The fields of the balance after a fill. */
  predicate PostedFill(b: Balance, p: Posting, m: Moves, a: Balance) {
    && a.header == b.header && a.cash == m.cash && a.fees == m.fees
    && a.positions == Placed(b.positions, p.intent.instrument, m.position)
    && a.owners == b.owners[p.intent.intentId := NewOwner(b, p, m)] && a.slots == b.slots[KeyOf(p) := NewSlot(p, m)]
    && a.fillIds == b.fillIds + {FillId(p.fill)} && a.instruments == b.instruments + {p.intent.instrument}
    && a.obligations == b.obligations && a.income == b.income && a.expense == b.expense && a.actions == b.actions
    && a.receivables == Total(b.obligations, Receivable) && a.liabilities == Total(b.obligations, Liability)
  }

  /** A fill step, field by field. */
  lemma FillPosted(s: State, e: Event, t: State, p: Posting) returns (m: Moves)
    requires Accepted(s, e, t) && e.body == FillBody(p)
    ensures FillMoves(s.balance, p) == Some(m) && ValidPosting(p) && FillAllowed(s, p) && t.events == s.events + [e]
    ensures t.policies == s.policies[p.intent.intentId := p.policy] && t.slotPolicies == s.slotPolicies[KeyOf(p) := p.policy]
    ensures PostedFill(s.balance, p, m, t.balance)
  {
    hide V, FillMoves, FillAllowed, Placed, WithinWindow, Total, InRange, Fits, ValidPosting, NewOwner, NewSlot, PrefixHash, FillId, KeyOf,
      EconomicTime, ObservedAt, Later;
    m := FillMoves(s.balance, p).value;
  }

  // ----- Obligations -----

  lemma ObligationStep(s: State, e: Event, t: State)
    requires Accepted(s, e, t) && e.body.ObligationBody?
    ensures PostObligation(s.balance, e.body).Some? && t.events == s.events + [e]
    ensures t.policies == s.policies && t.slotPolicies == s.slotPolicies
    ensures var o := PostObligation(s.balance, e.body).value;
      t.balance == o.(receivables := Total(o.obligations, Receivable), liabilities := Total(o.obligations, Liability),
                      latestEconomic := t.balance.latestEconomic, latestObserved := t.balance.latestObserved,
                      prefixes := t.balance.prefixes)
  {
    hide V, PostObligation, WithinWindow, Total, InRange, Fits, PrefixHash;
  }

  /** One obligation, cash, income and expense are all a posting may change. */
  predicate OnlyOwes(b: Balance, o: Balance, id: ObligationId) {
    && o == b.(obligations := o.obligations, cash := o.cash, income := o.income, expense := o.expense)
    && id in o.obligations && o.obligations == b.obligations[id := o.obligations[id]]
  }

  /** Postings leave the action history, positions, ownership and caps as they were, and claims alone. */
  lemma ObligationKeeps(b: Balance, e: Body)
    requires e.ObligationBody? && PostObligation(b, e).Some?
    ensures OnlyOwes(b, PostObligation(b, e).value, e.obligation) && !Claimed(ActionsOf(b), e.obligation)
  {
    hide V, InRange, Fits, Checked, Exact, Add, Sub, Claimed, ActionsOf;
  }

  /** The amounts an obligation moves. */
  lemma ObligationMoves(b: Balance, e: Body)
    requires e.ObligationBody? && PostObligation(b, e).Some?
    ensures var o, x := PostObligation(b, e).value, V(e.amount);
      var due := if e.obligation in b.obligations then V(b.obligations[e.obligation].remaining) else 0.0;
      && o.obligations == b.obligations[e.obligation := o.obligations[e.obligation]]
      && o.obligations[e.obligation].kind == e.kind
      && (e.obligation in b.obligations ==> b.obligations[e.obligation].kind == e.kind)
      && if e.step == Create then
           && e.obligation !in b.obligations && V(o.obligations[e.obligation].remaining) == x && V(o.cash) == V(b.cash)
           && V(o.income) == V(b.income) + (if e.kind == Receivable then x else 0.0)
           && V(o.expense) == V(b.expense) + (if e.kind == Receivable then 0.0 else x)
         else
           && V(o.obligations[e.obligation].remaining) == due - x && o.income == b.income && o.expense == b.expense
           && V(o.cash) == V(b.cash) + (if e.kind == Receivable then x else -x)
  {
    hide V, InRange, Fits, Checked, Exact, Add, Sub, Claimed, ActionsOf;
  }

  // ----- Batches -----

  lemma BatchStep(s: State, e: Event, t: State)
    requires Accepted(s, e, t) && e.body.BatchBody?
    ensures ReduceBatch(s.balance, e.body.batch).Some? && t.events == s.events + [e]
    ensures t.policies == s.policies && t.slotPolicies == s.slotPolicies && ValidBatch(e.body.batch)
    ensures var w := ReduceBatch(s.balance, e.body.batch).value;
      t.balance == Reduced(s.balance, w).(
                      receivables := Total(w.obligations, Receivable), liabilities := Total(w.obligations, Liability),
                      latestEconomic := t.balance.latestEconomic, latestObserved := t.balance.latestObserved,
                      prefixes := t.balance.prefixes)
  {
    hide V, ReduceBatch, WithinWindow, Total, InRange, Fits, ValidBatch, PrefixHash;
  }

  // ----- Any step -----

  lemma SealedParts(before: Balance, e: Event, posted: Balance, b: Balance)
    requires Sealed(before, e, posted) == Some(b)
    ensures b == posted.(receivables := Total(posted.obligations, Receivable), liabilities := Total(posted.obligations, Liability),
                         latestEconomic := Some(EconomicTime(e.body)),
                         latestObserved := Some(Later(before.latestObserved, ObservedAt(e.body))),
                         prefixes := before.prefixes + [PrefixHash(e.previous, e)])
  {
    hide V, Total, InRange, Fits, PrefixHash, Checked, EconomicTime, ObservedAt, Later;
  }

  lemma AnyStep(s: State, e: Event, t: State)
    requires Accepted(s, e, t)
    ensures t.events == s.events + [e] && t.eventIds == s.eventIds[e.id := e]
    ensures t.balance.header == s.balance.header
    ensures t.balance.prefixes == s.balance.prefixes + [PrefixHash(e.previous, e)]
    ensures t.balance.latestEconomic == Some(EconomicTime(e.body)) && WithinWindow(s.balance, e.body)
    ensures t.balance.latestObserved == Some(Later(s.balance.latestObserved, ObservedAt(e.body)))
    ensures t.balance.receivables == Total(t.balance.obligations, Receivable)
    ensures t.balance.liabilities == Total(t.balance.obligations, Liability)
    ensures |t.events| <= MAX_EVENTS && t.balance.header.startSequence + |t.events| <= MAX_SEQUENCE
  {
    hide Sealed, PostBody, WithinWindow, Total, PrefixHash, WellFormed, EconomicTime, ObservedAt, LastPrefix, Later;
    PostKeeps(s, e.body, PostBody(s, e.body).value);
    SealedParts(s.balance, e, PostBody(s, e.body).value.balance, t.balance);
  }

  lemma PostKeeps(s: State, body: Body, t: State)
    requires PostBody(s, body) == Some(t)
    ensures t.balance.header == s.balance.header && t.events == s.events && t.eventIds == s.eventIds
  {
    hide V, FillMoves, FillAllowed, Placed, InRange, Fits, NewOwner, NewSlot, ReduceBatch;
    hide PostObligation;
    if body.ObligationBody? && PostObligation(s.balance, body).Some? { ObligationKeeps(s.balance, body); }
  }
}
