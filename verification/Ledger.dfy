/**
  The ledger as a state machine: how a fill, an obligation and an action batch change a
  balance, what makes an event acceptable, and append and replay over the hash chain.
 */
module Ledger {
  import opened Options
  import opened Decimals
  import opened Contracts
  import opened Accounts
  import opened CorporateActions

  /** A balance, the sealed policies behind its ownership records, and the accepted events. */
  datatype State = State(balance: Balance, policies: map<Id, Policy>, slotPolicies: map<SlotKey, Policy>,
                         events: seq<Event>, eventIds: map<Id, Event>)

  predicate ValidHeader(h: Header) {
    InRange(h.openingCash, Money) && h.openingTime <= h.cutoff && h.startSequence <= MAX_SEQUENCE
  }

  function Open(h: Header): State {
    State(Balance(h, h.openingCash, map[], map[], ZERO, ZERO, ZERO, ZERO, ZERO, map[], map[], {}, {}, [], None, None, None),
          map[], map[], [], map[])
  }

  // ----- Sealed events -----

  predicate ValidPosting(p: Posting) {
    && FillInRange(p.fill) && V(p.fill.before) < V(p.intent.quantity)
    && ValidFill(p.fill, p.intent, p.outcome, p.policy, p.binding, Sub(p.intent.quantity, p.fill.before), p.fill.before)
  }

  /** What the event constructors and the capture of an event establish. */
  predicate WellFormed(e: Event) {
    match e.body
    case FillBody(p) => ValidPosting(p) && e.runId == p.intent.runId && e.calendarId == p.intent.calendarId
    case ObligationBody(_, step, _, amount, economic, observed, due) =>
      Positive(amount, Money) && economic <= observed && (step == Create ==> economic <= due)
    case BatchBody(b) => ValidBatch(b)
  }

  // ----- Fills -----

  function OwnedCumulative(b: Balance, intentId: Id): Dec {
    if intentId in b.owners then b.owners[intentId].cumulative else ZERO
  }

  function OwnedFee(b: Balance, intentId: Id): Dec {
    if intentId in b.owners then b.owners[intentId].fee else ZERO
  }

  function OwnedFills(b: Balance, intentId: Id): seq<Fill> {
    if intentId in b.owners then b.owners[intentId].fills else []
  }

  function SlotFilled(b: Balance, key: SlotKey): Dec {
    if key in b.slots then b.slots[key].filled else ZERO
  }

  function KeyOf(p: Posting): SlotKey { (p.intent.instrument, p.outcome.session) }

  /** Closed instruments and cancelled intents take no fills, and a split none decided before it. */
  predicate ActionsAllow(s: ActionState, p: Posting) {
    && p.intent.instrument !in s.closed && p.intent.intentId !in s.cancelled
    && (p.intent.instrument in s.boundaries ==> s.boundaries[p.intent.instrument] <= p.binding.decisionTime)
  }

  predicate Timely(b: Balance, p: Posting) {
    && p.outcome.closeAt < p.outcome.receivedAt <= b.header.cutoff && b.header.openingTime <= p.outcome.closeAt
    && (b.latestEconomic.Some? ==> b.latestEconomic.value <= p.outcome.closeAt)
  }

  /** A partly filled order goes on only as the same good-till-cancelled intent, on a later session. */
  predicate OwnerAllows(s: State, p: Posting) {
    var id, b := p.intent.intentId, s.balance;
    if id in b.owners then
      && !b.owners[id].terminal && b.owners[id].lastSession < p.outcome.session && b.owners[id].intent == p.intent
      && p.intent.timeInForce == Gtc && Lookup(s.policies, id) == Some(p.policy)
    else |b.owners| < MAX_INTENTS
  }

  predicate SlotAllows(s: State, p: Posting) {
    var b := s.balance;
    && (p.intent.instrument in b.instruments || |b.instruments| < MAX_INSTRUMENTS)
    && (if KeyOf(p) in b.slots then Lookup(s.slotPolicies, KeyOf(p)) == Some(p.policy) else |b.slots| < MAX_SLOTS)
  }

  predicate FillAllowed(s: State, p: Posting) {
    var b, cumulative := s.balance, OwnedCumulative(s.balance, p.intent.intentId);
    && FillId(p.fill) !in b.fillIds && ActionsAllow(ActionsOf(b), p)
    && Same(p.fill.before, cumulative) && V(cumulative) < V(p.intent.quantity)
    && Fits(Sub(p.intent.quantity, cumulative))
    && ValidFill(p.fill, p.intent, p.outcome, p.policy, p.binding, Sub(p.intent.quantity, cumulative), cumulative)
    && Timely(b, p) && OwnerAllows(s, p) && SlotAllows(s, p)
  }

  /** Cash paid for a purchase, negative for a sale. */
  function Signed(side: Side, amount: Dec): (r: Dec)
    ensures V(r) == if side == Buy then V(amount) else -V(amount)
  {
    if side == Buy then amount else Negate(amount)
  }

  predicate Closes(intent: Intent, cumulative: Dec) { V(cumulative) >= V(intent.quantity) || intent.timeInForce != Gtc }

  /** The amounts a fill moves. */
  datatype Moves = Moves(capAfter: Dec, after: Dec, dueAfter: Dec, fee: Dec, cash: Dec, position: Dec, fees: Dec)

  function FeeChecked(cumulative: Dec, policy: Policy): Option<Dec> { Checked(FeeDue(cumulative, policy), Money, false) }

  function FillMoves(b: Balance, p: Posting): Option<Moves> {
    var id, fill := p.intent.intentId, p.fill;
    var shareCap :- Checked(p.policy.shareCap, Quantity, true);
    var used :- Exact(Add(SlotFilled(b, KeyOf(p)), fill.quantity));
    var capAfter :- Checked(used, Quantity, false);
    var _ :- Need(V(capAfter) <= V(shareCap));
    var total :- Exact(Add(OwnedCumulative(b, id), fill.quantity));
    var after :- Checked(total, Quantity, true);
    var posted := OwnedFee(b, id);
    var dueBefore :- FeeChecked(OwnedCumulative(b, id), p.policy);
    var _ :- Need(Same(posted, dueBefore));
    var dueAfter :- FeeChecked(after, p.policy);
    var fee :- Checked(fill.fee, Money, false);
    var change :- Exact(Sub(dueAfter, posted));
    var delta :- Checked(change, Money, false);
    var _ :- Need(Same(fee, delta));
    var notional :- Exact(Mul(fill.quantity, fill.price));
    var rest :- Exact(Sub(b.cash, Signed(p.intent.side, notional)));
    var left :- Exact(Sub(rest, fee));
    var cash :- Checked(left, Money, false);
    var held :- Exact(Add(Held(b.positions, p.intent.instrument), Signed(p.intent.side, fill.quantity)));
    var position :- Checked(held, Holding, false);
    var charged :- Exact(Add(b.fees, fee));
    var fees :- Checked(charged, Money, false);
    Some(Moves(capAfter, after, dueAfter, fee, cash, position, fees))
  }

  function Placed(positions: map<Id, Dec>, instrument: Id, d: Dec): map<Id, Dec> {
    if V(d) == 0.0 then positions - {instrument} else positions[instrument := d]
  }

  function NewOwner(b: Balance, p: Posting, m: Moves): Ownership {
    Ownership(p.intent, m.after, m.dueAfter, p.policy.version, p.policy.shareCap, p.outcome.session,
              Closes(p.intent, m.after), OwnedFills(b, p.intent.intentId) + [FillId(p.fill)])
  }

  function NewSlot(p: Posting, m: Moves): Slot { Slot(m.capAfter, p.policy.shareCap, p.policy.version) }

  function Filled(b: Balance, p: Posting, m: Moves): Balance {
    b.(cash := m.cash, fees := m.fees, positions := Placed(b.positions, p.intent.instrument, m.position),
       owners := b.owners[p.intent.intentId := NewOwner(b, p, m)], slots := b.slots[KeyOf(p) := NewSlot(p, m)],
       fillIds := b.fillIds + {FillId(p.fill)}, instruments := b.instruments + {p.intent.instrument})
  }

  function PostFill(s: State, p: Posting): Option<State> {
    var _ :- Need(FillAllowed(s, p));
    var m :- FillMoves(s.balance, p);
    Some(s.(balance := Filled(s.balance, p, m), policies := s.policies[p.intent.intentId := p.policy],
            slotPolicies := s.slotPolicies[KeyOf(p) := p.policy]))
  }

  // ----- Obligations -----

  /** Postings cannot touch what a corporate action claimed. */
  predicate Claimed(s: ActionState, id: ObligationId) { id.ClaimOf? && id.action in s.claims }

  function CreateObligation(b: Balance, e: Body): Option<Balance>
    requires e.ObligationBody?
  {
    var _ :- Need(e.obligation !in b.obligations && |b.obligations| < MAX_OBLIGATIONS);
    var created := b.(obligations := b.obligations[e.obligation := Obligation(e.kind, e.amount, e.amount, e.dueAt, e.economicTime)]);
    if e.kind == Receivable then
      var sum :- Exact(Add(b.income, e.amount));
      var income :- Checked(sum, Money, false);
      Some(created.(income := income))
    else
      var sum :- Exact(Add(b.expense, e.amount));
      var expense :- Checked(sum, Money, false);
      Some(created.(expense := expense))
  }

  function SettleObligation(b: Balance, e: Body): Option<Balance>
    requires e.ObligationBody?
  {
    var prior :- Lookup(b.obligations, e.obligation);
    var _ :- Need(prior.kind == e.kind && prior.dueAt == e.dueAt && prior.dueAt <= e.economicTime && V(e.amount) <= V(prior.remaining));
    var left :- Exact(Sub(prior.remaining, e.amount));
    var remaining :- Checked(left, Money, false);
    var moved :- Exact(if e.kind == Receivable then Add(b.cash, e.amount) else Sub(b.cash, e.amount));
    var cash :- Checked(moved, Money, false);
    Some(b.(obligations := b.obligations[e.obligation := prior.(remaining := remaining)], cash := cash))
  }

  function PostObligation(b: Balance, e: Body): Option<Balance>
    requires e.ObligationBody?
  {
    var _ :- Need(!Claimed(ActionsOf(b), e.obligation));
    if e.step == Create then CreateObligation(b, e) else SettleObligation(b, e)
  }

  // ----- Batches -----

  function Reduced(b: Balance, w: Work): Balance {
    b.(cash := w.cash, positions := w.positions, obligations := w.obligations, income := w.income,
       actions := Some(w.state), instruments := w.instruments)
  }

  function PostBatch(b: Balance, batch: Batch): Option<Balance> {
    var w :- ReduceBatch(b, batch);
    var _ :- Need(|w.positions| <= MAX_INSTRUMENTS && |w.instruments| <= MAX_INSTRUMENTS);
    Some(Reduced(b, w))
  }

  // ----- Proposed states -----

  function PostBody(s: State, body: Body): Option<State> {
    match body
    case FillBody(p) => PostFill(s, p)
    case ObligationBody(_, _, _, _, _, _, _) => var b :- PostObligation(s.balance, body); Some(s.(balance := b))
    case BatchBody(batch) => var b :- PostBatch(s.balance, batch); Some(s.(balance := b))
  }

  predicate WithinWindow(b: Balance, body: Body) {
    && b.header.openingTime <= EconomicTime(body) <= b.header.cutoff && ObservedAt(body) <= b.header.cutoff
    && (b.latestEconomic.Some? ==> b.latestEconomic.value <= EconomicTime(body))
  }

  function Later(latest: Option<Time>, t: Time): Time {
    if latest.Some? && latest.value > t then latest.value else t
  }

  /** Totals, times and the next prefix hash. */
  function Sealed(before: Balance, e: Event, posted: Balance): Option<Balance> {
    var receivables :- Exact(Total(posted.obligations, Receivable));
    var owed :- Checked(receivables, Money, false);
    var liabilities :- Exact(Total(posted.obligations, Liability));
    var owing :- Checked(liabilities, Money, false);
    Some(posted.(receivables := receivables, liabilities := liabilities,
                 latestEconomic := Some(EconomicTime(e.body)),
                 latestObserved := Some(Later(before.latestObserved, ObservedAt(e.body))),
                 prefixes := before.prefixes + [PrefixHash(e.previous, e)]))
  }

  function Propose(s: State, e: Event): Option<State> {
    var count := |s.events| + 1;
    var _ :- Need(count <= MAX_EVENTS && s.balance.header.startSequence + count <= MAX_SEQUENCE);
    var posted :- PostBody(s, e.body);
    var _ :- Need(WithinWindow(s.balance, e.body));
    var balance :- Sealed(s.balance, e, posted.balance);
    Some(posted.(balance := balance, events := s.events + [e], eventIds := s.eventIds[e.id := e]))
  }

  /** The event continues this chain, for this run. */
  predicate Follows(s: State, e: Event) {
    && e.sequence == s.balance.header.startSequence + |s.events| && e.previous == LastPrefix(s.balance)
    && e.runId == s.balance.header.runId && e.calendarId == s.balance.header.calendarId
  }
}
