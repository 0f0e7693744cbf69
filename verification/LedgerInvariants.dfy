/**
  What holds in every reachable ledger: the global balance identity, the telescoping of
  fees, ownership and caps over the events, backed claims and empty closed instruments.
 */
module LedgerInvariants {
  import opened Options
  import opened Decimals
  import opened Contracts
  import opened Accounts
  import opened CorporateActions
  import opened Ledger
  import opened LedgerSteps
  import opened BatchInvariants

  // ----- Sums over the events -----

  /** Cash paid for shares over all fills, sales counting negative. */
  function NetBought(events: seq<Event>): real {
    if events == [] then 0.0
    else NetBought(events[..|events| - 1]) + NetOf(events[|events| - 1].body)
  }

  function NetOf(body: Body): real { if body.FillBody? then Net(body.posting) else 0.0 }

  /** Shares filled for one intent. */
  function FilledBy(events: seq<Event>, intentId: Id): real {
    if events == [] then 0.0
    else FilledBy(events[..|events| - 1], intentId) + SharesBy(events[|events| - 1].body, intentId)
  }

  function SharesBy(body: Body, intentId: Id): real {
    if body.FillBody? && body.posting.intent.intentId == intentId then V(body.posting.fill.quantity) else 0.0
  }

  /** Shares filled on one instrument in one session, over all intents. */
  function FilledIn(events: seq<Event>, key: SlotKey): real {
    if events == [] then 0.0
    else FilledIn(events[..|events| - 1], key) + SharesIn(events[|events| - 1].body, key)
  }

  function SharesIn(body: Body, key: SlotKey): real {
    if body.FillBody? && KeyOf(body.posting) == key then V(body.posting.fill.quantity) else 0.0
  }

  lemma SumsExtend(events: seq<Event>, e: Event)
    ensures NetBought(events + [e]) == NetBought(events) + NetOf(e.body)
    ensures forall i :: FilledBy(events + [e], i) == FilledBy(events, i) + SharesBy(e.body, i)
    ensures forall k :: FilledIn(events + [e], k) == FilledIn(events, k) + SharesIn(e.body, k)
  {
    hide V, NetOf, SharesBy, SharesIn;
    assert (events + [e])[..|events|] == events;
  }

  // ----- Totals -----

  predicate Totalled(b: Balance) {
    b.receivables == Total(b.obligations, Receivable) && b.liabilities == Total(b.obligations, Liability)
  }

  // ----- The global balance identity -----

  /** Cash, receivables, shares at cost and fees are what came in as cash, income and principal, less expense. */
  ghost predicate Balanced(s: State) {
    var b := s.balance;
    V(b.cash) + V(b.receivables) - V(b.liabilities) + NetBought(s.events) + V(b.fees)
    == V(b.header.openingCash) + V(b.income) - V(b.expense) + Principal(ActionsOf(b).claims)
  }

  lemma BalancedOpen(h: Header)
    ensures Balanced(Open(h)) && Totalled(Open(h).balance)
  {
    ValueZero();
    assert Principals(ActionsOf(Open(h).balance).claims) == map[];
    hide V;
  }

  lemma BalancedFill(s: State, e: Event, t: State)
    requires Accepted(s, e, t) && e.body.FillBody? && Totalled(s.balance) && Balanced(s)
    ensures Balanced(t)
  {
    hide *;
    var p := e.body.posting;
    var m := FillPosted(s, e, t, p);
    SumsExtend(s.events, e);
    assert NetOf(e.body) == Net(p) by { NetIs(e.body, p); }
    MovesAre(s.balance, p, m);
    PostedFillIs(s.balance, p, m, t.balance);
    ActionsOfIs(s.balance, t.balance);
    BalancedIs(s);
    BalancedIs(t);
    TotalledIs(s.balance);
  }

  lemma NetIs(body: Body, p: Posting)
    requires body == FillBody(p)
    ensures NetOf(body) == Net(p)
  {
    hide Net;
  }

  lemma BalancedIs(s: State)
    ensures Balanced(s) <==>
      V(s.balance.cash) + V(s.balance.receivables) - V(s.balance.liabilities) + NetBought(s.events) + V(s.balance.fees)
      == V(s.balance.header.openingCash) + V(s.balance.income) - V(s.balance.expense) + Principal(ActionsOf(s.balance).claims)
  {
    hide V, NetBought, Principal, ActionsOf;
  }

  lemma TotalledIs(b: Balance)
    ensures Totalled(b) <==> b.receivables == Total(b.obligations, Receivable) && b.liabilities == Total(b.obligations, Liability)
  {
    hide Total;
  }

  lemma PostedFillIs(b: Balance, p: Posting, m: Moves, a: Balance)
    requires PostedFill(b, p, m, a)
    ensures a.positions == Placed(b.positions, p.intent.instrument, m.position)
    ensures a.owners == b.owners[p.intent.intentId := NewOwner(b, p, m)] && a.slots == b.slots[KeyOf(p) := NewSlot(p, m)]
    ensures a.fillIds == b.fillIds + {FillId(p.fill)} && a.instruments == b.instruments + {p.intent.instrument}
    ensures a.header == b.header && a.cash == m.cash && a.fees == m.fees && a.income == b.income && a.expense == b.expense
    ensures a.obligations == b.obligations && a.actions == b.actions
    ensures a.receivables == Total(b.obligations, Receivable) && a.liabilities == Total(b.obligations, Liability)
  {
    hide Placed, NewOwner, NewSlot, Total, FillId, KeyOf;
  }

  lemma BalancedObligation(s: State, e: Event, t: State)
    requires Accepted(s, e, t) && e.body.ObligationBody? && Totalled(s.balance) && Balanced(s)
    ensures Balanced(t)
  {
    hide V, Accepted, PostObligation, NetBought, Principal, Total, Claimed;
    ObligationStep(s, e, t);
    SumsExtend(s.events, e);
    ObligationKeeps(s.balance, e.body);
    ObligationMoves(s.balance, e.body);
    ValueZero();
    var o := PostObligation(s.balance, e.body).value.obligations[e.body.obligation];
    TotalUpdate(s.balance.obligations, Receivable, e.body.obligation, o);
    TotalUpdate(s.balance.obligations, Liability, e.body.obligation, o);
  }

  lemma BalancedBatch(s: State, e: Event, t: State)
    requires Accepted(s, e, t) && e.body.BatchBody? && Totalled(s.balance) && Balanced(s) && Sound(Start(s.balance))
    ensures Balanced(t)
  {
    hide V, Accepted, ReduceBatch, NetBought, Principal, Total, Sound, HistoryKept, ValidBatch;
    BatchStep(s, e, t);
    SumsExtend(s.events, e);
    BatchKeeps(s.balance, e.body.batch);
  }

  // ----- Fees, ownership and caps -----

  ghost function Fees(owners: map<Id, Ownership>): map<Id, real> { map k | k in owners :: V(owners[k].fee) }

  /** An order's record: its fills add up, stay within the order, and have paid the fee due. */
  predicate OwnerHolds(s: State, id: Id) {
    id in s.balance.owners && var o := s.balance.owners[id];
    && o.intent.intentId == id && id in s.policies && ValidPolicy(s.policies[id])
    && V(o.cumulative) == FilledBy(s.events, id) && 0.0 < V(o.cumulative) <= V(o.intent.quantity)
    && Same(o.fee, FeeDue(o.cumulative, s.policies[id]))
    && o.policyVersion == s.policies[id].version && o.shareCap == s.policies[id].shareCap
    && (o.terminal <==> Closes(o.intent, o.cumulative))
  }

  predicate SlotHolds(s: State, key: SlotKey) {
    key in s.balance.slots && var slot := s.balance.slots[key];
    && key in s.slotPolicies && V(slot.filled) == FilledIn(s.events, key) && V(slot.filled) <= V(slot.shareCap)
    && slot.shareCap == s.slotPolicies[key].shareCap && slot.policyVersion == s.slotPolicies[key].version
  }

  ghost predicate Telescopes(s: State) {
    && (forall id | id in s.balance.owners :: OwnerHolds(s, id))
    && (forall key | key in s.balance.slots :: SlotHolds(s, key))
    && (forall id | id !in s.balance.owners :: FilledBy(s.events, id) == 0.0)
    && (forall key | key !in s.balance.slots :: FilledIn(s.events, key) == 0.0)
    && V(s.balance.fees) == Sum(Fees(s.balance.owners))
  }

  lemma TelescopesIs(s: State)
    ensures Telescopes(s) <==>
      && (forall id | id in s.balance.owners :: OwnerHolds(s, id))
      && (forall key | key in s.balance.slots :: SlotHolds(s, key))
      && (forall id | id !in s.balance.owners :: FilledBy(s.events, id) == 0.0)
      && (forall key | key !in s.balance.slots :: FilledIn(s.events, key) == 0.0)
      && V(s.balance.fees) == Sum(Fees(s.balance.owners))
  {
    hide V, OwnerHolds, SlotHolds, FilledBy, FilledIn, Fees;
  }

  lemma TelescopesOpen(h: Header)
    ensures Telescopes(Open(h))
  {
    ValueZero();
    assert Fees(Open(h).balance.owners) == map[];
  }

  lemma FeesFill(b: Balance, p: Posting, m: Moves)
    requires V(b.fees) == Sum(Fees(b.owners)) && V(m.fees) == V(b.fees) + V(m.fee)
    requires V(m.fee) == V(m.dueAfter) - V(OwnedFee(b, p.intent.intentId))
    ensures V(m.fees) == Sum(Fees(b.owners[p.intent.intentId := NewOwner(b, p, m)]))
  {
    var id := p.intent.intentId;
    ValueZero();
    hide V, Closes, FillId;
    SumUpdate(Fees(b.owners), id, V(m.dueAfter));
    assert Fees(b.owners[id := NewOwner(b, p, m)]) == Fees(b.owners)[id := V(m.dueAfter)];
  }

  lemma AfterWithin(s: State, p: Posting, m: Moves)
    requires FillAllowed(s, p) && FillMoves(s.balance, p) == Some(m)
    ensures 0.0 < V(m.after) <= V(p.intent.quantity) && V(p.fill.after) == V(m.after) && ValidPolicy(p.policy)
  {
    hide V, FillMoves, ValidPolicy, FeeDue, AdversePrice, FloorLots, LotQuantity, Timely, OwnerAllows, SlotAllows, ActionsAllow, Fits;
    MovesAre(s.balance, p, m);
  }

  lemma OwnerMoved(s: State, p: Posting, m: Moves, t: State)
    requires var id := p.intent.intentId;
      && Lookup(t.balance.owners, id) == Some(NewOwner(s.balance, p, m)) && Lookup(t.policies, id) == Some(p.policy) && ValidPolicy(p.policy)
      && FilledBy(t.events, id) == FilledBy(s.events, id) + V(p.fill.quantity)
      && (if id in s.balance.owners then OwnerHolds(s, id) else FilledBy(s.events, id) == 0.0)
      && V(m.after) == V(OwnedCumulative(s.balance, id)) + V(p.fill.quantity) && 0.0 < V(m.after) <= V(p.intent.quantity)
      && Same(m.dueAfter, FeeDue(m.after, p.policy))
    ensures OwnerHolds(t, p.intent.intentId)
  {
    ValueZero();
    hide V, FilledBy, FeeDue, FillId, ValidPolicy, Closes;
  }

  lemma OwnerUnmoved(s: State, t: State, id: Id)
    requires OwnerHolds(s, id) && Lookup(t.balance.owners, id) == Lookup(s.balance.owners, id)
    requires Lookup(t.policies, id) == Lookup(s.policies, id)
    requires FilledBy(t.events, id) == FilledBy(s.events, id)
    ensures OwnerHolds(t, id)
  {
    hide V, FilledBy, FeeDue, ValidPolicy, Closes;
  }

  lemma OwnersFill(s: State, e: Event, t: State)
    requires Accepted(s, e, t) && e.body.FillBody? && Telescopes(s)
    ensures forall id | id in t.balance.owners :: OwnerHolds(t, id)
    ensures forall id | id !in t.balance.owners :: FilledBy(t.events, id) == 0.0
  {
    hide V, Accepted, FillMoves, FillAllowed, ValidPosting, FilledBy, FilledIn, SharesIn, NetOf, NewOwner, NewSlot, SlotHolds, OwnerHolds,
      Placed, Total, KeyOf, SlotFilled, OwnedCumulative, OwnedFee, FeeDue, InRange, Held, Net, Delta, ValidPolicy;
    var p := e.body.posting;
    var m := FillPosted(s, e, t, p);
    SumsExtend(s.events, e);
    MovesAre(s.balance, p, m);
    AfterWithin(s, p, m);
    assert t.balance.owners == s.balance.owners[p.intent.intentId := NewOwner(s.balance, p, m)];
    assert FilledBy(t.events, p.intent.intentId) == FilledBy(s.events, p.intent.intentId) + V(p.fill.quantity);
    assert forall id | id != p.intent.intentId :: FilledBy(t.events, id) == FilledBy(s.events, id);
    OwnerMoved(s, p, m, t);
    forall id | id in t.balance.owners && id != p.intent.intentId ensures OwnerHolds(t, id) { OwnerUnmoved(s, t, id); }
  }

  lemma SlotMoved(s: State, p: Posting, m: Moves, t: State)
    requires var key := KeyOf(p);
      && Lookup(t.balance.slots, key) == Some(NewSlot(p, m)) && Lookup(t.slotPolicies, key) == Some(p.policy)
      && FilledIn(t.events, key) == FilledIn(s.events, key) + V(p.fill.quantity)
      && (if key in s.balance.slots then SlotHolds(s, key) else FilledIn(s.events, key) == 0.0)
      && V(m.capAfter) == V(SlotFilled(s.balance, key)) + V(p.fill.quantity) && V(m.capAfter) <= V(p.policy.shareCap)
    ensures SlotHolds(t, KeyOf(p))
  {
    ValueZero();
    hide V, FilledIn, KeyOf;
  }

  lemma SlotUnmoved(s: State, t: State, key: SlotKey)
    requires SlotHolds(s, key) && Lookup(t.balance.slots, key) == Lookup(s.balance.slots, key)
    requires Lookup(t.slotPolicies, key) == Lookup(s.slotPolicies, key)
    requires FilledIn(t.events, key) == FilledIn(s.events, key)
    ensures SlotHolds(t, key)
  {
    hide V, FilledIn;
  }

  lemma SlotsFill(s: State, e: Event, t: State)
    requires Accepted(s, e, t) && e.body.FillBody? && Telescopes(s)
    ensures forall key | key in t.balance.slots :: SlotHolds(t, key)
    ensures forall key | key !in t.balance.slots :: FilledIn(t.events, key) == 0.0
  {
    hide V, Accepted, FillMoves, FillAllowed, ValidPosting, PostedFill, FilledBy, FilledIn, SharesBy, NetOf, NewOwner, NewSlot, SlotHolds,
      OwnerHolds, Telescopes, Placed, Total, KeyOf, SlotFilled, OwnedCumulative, OwnedFee, FeeDue, InRange, Held, Net, Delta;
    var p := e.body.posting;
    var m := FillPosted(s, e, t, p);
    SumsExtend(s.events, e);
    MovesAre(s.balance, p, m);
    PostedFillIs(s.balance, p, m, t.balance);
    assert FilledIn(t.events, KeyOf(p)) == FilledIn(s.events, KeyOf(p)) + V(p.fill.quantity);
    assert forall key | key != KeyOf(p) :: FilledIn(t.events, key) == FilledIn(s.events, key);
    TelescopesIs(s);
    SlotMoved(s, p, m, t);
    forall key | key in t.balance.slots && key != KeyOf(p) ensures SlotHolds(t, key) { SlotUnmoved(s, t, key); }
  }

  lemma TelescopesFill(s: State, e: Event, t: State)
    requires Accepted(s, e, t) && e.body.FillBody? && Telescopes(s)
    ensures Telescopes(t)
  {
    hide *;
    OwnersFill(s, e, t);
    SlotsFill(s, e, t);
    var p := e.body.posting;
    var m := FillPosted(s, e, t, p);
    MovesAre(s.balance, p, m);
    PostedFillIs(s.balance, p, m, t.balance);
    TelescopesIs(s);
    FeesFill(s.balance, p, m);
    TelescopesIs(t);
  }

  lemma OwnershipUntouched(s: State, e: Event, t: State)
    requires Accepted(s, e, t) && !e.body.FillBody?
    ensures t.events == s.events + [e] && t.policies == s.policies && t.slotPolicies == s.slotPolicies
    ensures t.balance.owners == s.balance.owners && t.balance.slots == s.balance.slots && t.balance.fees == s.balance.fees
  {
    hide V, Accepted, PostObligation, ReduceBatch, Total, ValidBatch, Claimed;
    if e.body.ObligationBody? { ObligationStep(s, e, t); ObligationKeeps(s.balance, e.body); } else { BatchStep(s, e, t); }
  }

  lemma TelescopesElse(s: State, e: Event, t: State)
    requires Accepted(s, e, t) && !e.body.FillBody? && Telescopes(s)
    ensures Telescopes(t)
  {
    hide V, Accepted, FilledBy, FilledIn, Fees, OwnerHolds, SlotHolds;
    OwnershipUntouched(s, e, t);
    SumsExtend(s.events, e);
    forall id | id in t.balance.owners ensures OwnerHolds(t, id) { OwnerUnmoved(s, t, id); }
    forall key | key in t.balance.slots ensures SlotHolds(t, key) { SlotUnmoved(s, t, key); }
  }

  // ----- Claims, closed instruments, boundaries -----

  ghost predicate Settled(b: Balance) {
    && Sound(Start(b))
    && (forall i | i in b.positions :: V(b.positions[i]) != 0.0)
    && (forall i | i in ActionsOf(b).boundaries :: b.latestEconomic.Some? && ActionsOf(b).boundaries[i] <= b.latestEconomic.value)
  }

  lemma SettledOpen(h: Header)
    ensures Settled(Open(h).balance)
  {
  }

  lemma PlacedSettled(b: Balance, a: Balance, instrument: Id, position: Dec)
    requires Settled(b) && V(position) >= 0.0 && instrument !in ActionsOf(b).closed
    requires a.positions == Placed(b.positions, instrument, position) && a.obligations == b.obligations && a.actions == b.actions
    requires a.latestEconomic.Some? && (b.latestEconomic.Some? ==> b.latestEconomic.value <= a.latestEconomic.value)
    ensures Settled(a)
  {
    hide V, ClaimsBacked, ActionsOf;
    ActionsOfIs(b, a);
  }

  lemma SettledFill(s: State, e: Event, t: State)
    requires Accepted(s, e, t) && e.body.FillBody? && Settled(s.balance)
    ensures Settled(t.balance)
  {
    hide *;
    AnyStep(s, e, t);
    WindowIs(s.balance, e.body);
    var p := e.body.posting;
    var m := FillPosted(s, e, t, p);
    MovesAre(s.balance, p, m);
    OpenInstrument(s, p);
    PostedFillIs(s.balance, p, m, t.balance);
    PlacedSettled(s.balance, t.balance, p.intent.instrument, m.position);
  }

  lemma OpenInstrument(s: State, p: Posting)
    requires FillAllowed(s, p)
    ensures ActionsAllow(ActionsOf(s.balance), p) && p.intent.instrument !in ActionsOf(s.balance).closed
  {
    hide V, ValidFill, Timely, OwnerAllows, SlotAllows, Fits, ActionsOf;
  }

  lemma WindowIs(b: Balance, body: Body)
    requires WithinWindow(b, body)
    ensures b.latestEconomic.Some? ==> b.latestEconomic.value <= EconomicTime(body)
  {
  }

  lemma OwedSettled(b: Balance, a: Balance, id: ObligationId)
    requires Settled(b) && !Claimed(ActionsOf(b), id) && a.positions == b.positions && a.actions == b.actions
    requires id in a.obligations && a.obligations == b.obligations[id := a.obligations[id]]
    requires a.latestEconomic.Some? && (b.latestEconomic.Some? ==> b.latestEconomic.value <= a.latestEconomic.value)
    ensures Settled(a)
  {
    hide V, Backs, Empty, ActionsOf;
    ActionsOfIs(b, a);
    ClaimedIs(ActionsOf(b), id);
  }

  lemma SettledObligation(s: State, e: Event, t: State)
    requires Accepted(s, e, t) && e.body.ObligationBody? && Settled(s.balance)
    ensures Settled(t.balance)
  {
    hide V, Accepted, PostObligation, Total, Claimed, ActionsOf, WithinWindow, EconomicTime, Settled;
    AnyStep(s, e, t);
    ObligationStep(s, e, t);
    ObligationKeeps(s.balance, e.body);
    WindowIs(s.balance, e.body);
    OwedSettled(s.balance, t.balance, e.body.obligation);
  }

  lemma ActionsOfIs(a: Balance, b: Balance)
    requires a.actions == b.actions
    ensures ActionsOf(a) == ActionsOf(b)
  {
  }

  lemma ClaimedIs(s: ActionState, id: ObligationId)
    requires !Claimed(s, id)
    ensures forall a | a in s.claims :: ClaimOf(a) != id
  {
  }

  lemma SettledBatch(s: State, e: Event, t: State)
    requires Accepted(s, e, t) && e.body.BatchBody? && Settled(s.balance)
    ensures Settled(t.balance)
  {
    hide V, Accepted, ReduceBatch, Total, ClaimsBacked, Empty, ValidBatch, ClaimsKept, ObligationsKept, SurplusOf;
    AnyStep(s, e, t);
    BatchStep(s, e, t);
    BatchKeeps(s.balance, e.body.batch);
  }

  // ----- Every reachable ledger -----

  ghost predicate Holds(s: State) { Totalled(s.balance) && Balanced(s) && Telescopes(s) && Settled(s.balance) }

  lemma OpenHolds(h: Header)
    ensures Holds(Open(h))
  {
    BalancedOpen(h);
    TelescopesOpen(h);
    SettledOpen(h);
    hide Balanced, Telescopes, Settled, Totalled, Open;
  }

  lemma StepHolds(s: State, e: Event, t: State)
    requires Holds(s) && Accepted(s, e, t)
    ensures Holds(t)
  {
    AnyStep(s, e, t);
    assert Sound(Start(s.balance)) && Totalled(t.balance);
    hide Accepted, Balanced, Telescopes, Settled, Totalled, Sound;
    match e.body
    case FillBody(_) => BalancedFill(s, e, t); TelescopesFill(s, e, t); SettledFill(s, e, t);
    case ObligationBody(_, _, _, _, _, _, _) => BalancedObligation(s, e, t); TelescopesElse(s, e, t); SettledObligation(s, e, t);
    case BatchBody(_) => BalancedBatch(s, e, t); TelescopesElse(s, e, t); SettledBatch(s, e, t);
  }
}
