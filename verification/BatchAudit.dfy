/**
  The independent audit of an action batch: shares, principal, income and payments are
  derived again from the source records, in rationals.
 */
module BatchAudit {
  import opened Options
  import opened Decimals
  import opened Contracts
  import opened Accounts
  import opened Ordering
  import opened CorporateActions

  datatype RealObligation = RealObligation(kind: ObligationKind, created: real, remaining: real, dueAt: Time, economicTime: Time)
  datatype RealClaim = RealClaim(kind: ClaimKind, amount: real, dueAt: Time, paid: bool)

  /** What the audit recomputes. */
  datatype Recount = Recount(
    quantities: map<Id, real>, shares: map<Id, real>, obligations: map<ObligationId, RealObligation>, cash: real, income: real,
    applied: map<Id, Applied>, symbols: map<Id, Id>, cancelled: map<Id, CancelReason>, closed: set<Id>,
    references: map<Id, SplitReference>, boundaries: map<Id, Time>, claims: map<Id, RealClaim>,
    instruments: set<Id>, converted: set<Id>)

  // ----- Decimal records as rational ones -----

  function Values(m: map<Id, Dec>): map<Id, real> { map k | k in m :: V(m[k]) }

  function RealOf(o: Obligation): RealObligation {
    RealObligation(o.kind, V(o.created), V(o.remaining), o.dueAt, o.economicTime)
  }

  function RealObligations(m: map<ObligationId, Obligation>): map<ObligationId, RealObligation> { map k | k in m :: RealOf(m[k]) }

  function RealClaimOf(c: Claim): RealClaim { RealClaim(c.kind, V(c.amount), c.dueAt, c.paid) }

  function RealClaims(m: map<Id, Claim>): map<Id, RealClaim> { map k | k in m :: RealClaimOf(m[k]) }

  function Share(m: map<Id, real>, instrument: Id): real { if instrument in m then m[instrument] else 0.0 }

  // ----- The recount, step by step -----

  /** An amount some money decimal states exactly. */
  predicate ExactMoney(x: real) {
    var d := FromRational(x);
    d.Some? && Checked(d.value, Money, false).Some?
  }

  function AccrueAgain(r: Recount, c: Context, action: Id, amount: real, payable: Date, kind: ClaimKind): Option<Recount> {
    var due :- Due(c.batch.calendar, payable);
    if amount == 0.0 then Some(r)
    else
      var key := ClaimOf(action);
      var _ :- Need(key !in r.obligations && ExactMoney(amount));
      Some(r.(obligations := r.obligations[key := RealObligation(Receivable, amount, amount, due, c.batch.session.openAt)],
              claims := r.claims[action := RealClaim(kind, amount, due, false)],
              income := if kind == DividendClaim then r.income + amount else r.income))
  }

  function CancelAgain(r: Recount, c: Context, instrument: Id, reason: CancelReason): Recount {
    r.(cancelled := Cancelled(r.cancelled, Stale(c.batch, c.before, instrument), reason))
  }

  function RetainedLots(converted: real, lot: real): real
    requires lot > 0.0
  {
    (converted / lot).Floor as real * lot
  }

  function Retained(converted: real, terms: Terms): real {
    if terms.CashInLieu? && V(terms.lot) > 0.0 then RetainedLots(converted, V(terms.lot)) else converted
  }

  /** Shares, boundary and, for a held instrument, basis and mark after a split. */
  function Rebase(r: Recount, c: Context, instrument: Id, original: real, ratio: real, retained: real): Option<Recount>
    requires ratio > 0.0
  {
    var r1 := r.(quantities := r.quantities[instrument := retained], shares := r.shares[instrument := retained],
                 boundaries := r.boundaries[instrument := c.batch.session.openAt]);
    if original == 0.0 then Some(r1)
    else
      var prior :- PriorReference(r1.converted, r1.references, c, instrument);
      Some(r1.(references := r1.references[instrument := SplitReference(Quotient(prior.basis, ratio), Quotient(prior.mark, ratio))],
               converted := r1.converted + {instrument}))
  }

  function AccrueInLieu(r: Recount, c: Context, a: Action, terms: Terms, remainder: real): Option<Recount> {
    if terms.CashInLieu? then AccrueAgain(r, c, a.actionId, Product(remainder, V(terms.price)), terms.payable, PrincipalClaim) else Some(r)
  }

  function SplitAgain(r: Recount, c: Context, a: Action, ratio: real): Option<Recount>
    requires ratio > 0.0
  {
    var original := Share(r.quantities, a.instrument);
    var converted := Product(original, ratio);
    var terms :- a.terms;
    var retained := Retained(converted, terms);
    var r1 :- AccrueInLieu(r, c, a, terms, converted - retained);
    var r2 :- Rebase(r1, c, a.instrument, original, ratio, retained);
    Some(CancelAgain(r2, c, a.instrument, SplitCancel))
  }

  function TickerChangeAgain(r: Recount, c: Context, a: Action, oldSymbol: Id, newSymbol: Id): Option<Recount> {
    var current :- CurrentSymbol(r.symbols, c, a.instrument);
    var _ :- Need(current == oldSymbol);
    Some(r.(symbols := r.symbols[a.instrument := newSymbol]))
  }

  function DelistingAgain(r: Recount, c: Context, a: Action): Option<Recount> {
    var original := Share(r.quantities, a.instrument);
    var terms :- a.terms;
    var r1 := CancelAgain(r.(quantities := r.quantities - {a.instrument}, closed := r.closed + {a.instrument}), c, a.instrument, DelistingCancel);
    match terms
    case CashSettlement(perShare, payable, _) => AccrueAgain(r1, c, a.actionId, Product(original, V(perShare)), payable, PrincipalClaim)
    case _ => Some(r1)
  }

  function ActionAgain(r: Recount, c: Context, a: Action): Option<Recount> {
    match a.change
    case Split(ratio) => var _ :- Need(V(ratio) > 0.0); SplitAgain(r, c, a, V(ratio))
    case TickerChange(oldSymbol, newSymbol) => TickerChangeAgain(r, c, a, oldSymbol, newSymbol)
    case Delisting => DelistingAgain(r, c, a)
    case Dividend(_, _) => Some(r)
  }

  function ActionsAgain(r: Recount, c: Context, actions: seq<Action>): Option<Recount>
    decreases |actions|
  {
    if actions == [] then Some(r)
    else var r1 :- ActionAgain(r, c, actions[0]); ActionsAgain(r1, c, actions[1..])
  }

  function MergerAgain(r: Recount, c: Context, m: Merger): Recount {
    var original := Share(r.quantities, m.source);
    var left := r.quantities - {m.source};
    var held := Share(left, m.target) + Product(original, V(m.ratio));
    var r1 := r.(quantities := left[m.target := held], shares := (r.shares - {m.source})[m.target := held],
                 closed := r.closed + {m.source});
    var r2 := CancelAgain(r1, c, m.source, MergerCancel);
    r2.(instruments := r2.instruments + {m.target},
        applied := r2.applied[m.mappingId := Applied(m.manifest.revision, FromMerger(m))])
  }

  function MergersAgain(r: Recount, c: Context, mergers: seq<Merger>): Recount
    decreases |mergers|
  {
    if mergers == [] then r else MergersAgain(MergerAgain(r, c, mergers[0]), c, mergers[1..])
  }

  function DividendAgain(r: Recount, c: Context, a: Action, perShare: real, payable: Date): Option<Recount> {
    var terms :- a.terms;
    var _ :- Need(terms.DividendTerms? && (terms.basis.PreSplit? ==> V(terms.basis.ratio) > 0.0));
    var amount := Product(Share(r.shares, a.instrument), perShare);
    AccrueAgain(r, c, a.actionId, if terms.basis.PreSplit? then Quotient(amount, V(terms.basis.ratio)) else amount, payable, DividendClaim)
  }

  function IncomeAgain(r: Recount, c: Context, a: Action): Option<Recount> {
    var r1 :- match a.change
              case Dividend(perShare, payable) => DividendAgain(r, c, a, V(perShare), payable)
              case _ => Some(r);
    Some(r1.(applied := r1.applied[a.actionId := Applied(a.manifest.revision, FromAction(a))]))
  }

  function IncomesAgain(r: Recount, c: Context, actions: seq<Action>): Option<Recount>
    decreases |actions|
  {
    if actions == [] then Some(r)
    else var r1 :- IncomeAgain(r, c, actions[0]); IncomesAgain(r1, c, actions[1..])
  }

  function PayAgain(r: Recount, c: Context, action: Id): Option<Recount> {
    if action !in r.claims then Some(r)
    else
      var claim, key := r.claims[action], ClaimOf(action);
      if claim.paid || claim.dueAt > c.batch.session.openAt then Some(r)
      else
        var _ :- Need(key in r.obligations);
        var o := r.obligations[key];
        Some(r.(cash := r.cash + claim.amount,
                obligations := r.obligations[key := RealObligation(Receivable, claim.amount, 0.0, o.dueAt, o.economicTime)],
                claims := r.claims[action := claim.(paid := true)]))
  }

  function PayAllAgain(r: Recount, c: Context, actions: seq<Id>): Option<Recount>
    decreases |actions|
  {
    if actions == [] then Some(r)
    else var r1 :- PayAgain(r, c, actions[0]); PayAllAgain(r1, c, actions[1..])
  }

  function StartAgain(before: Balance): Recount {
    var s := ActionsOf(before);
    Recount(Values(before.positions), Values(before.positions), RealObligations(before.obligations), V(before.cash), V(before.income),
            s.applied, s.symbols, s.cancelled, s.closed, s.references, s.boundaries, RealClaims(s.claims),
            before.instruments, {})
  }

  function RecountBatch(before: Balance, b: Batch): Option<Recount> {
    var selection :- Select(b, before);
    var c := Context(before, b, selection);
    var r1 :- ActionsAgain(StartAgain(before), c, selection.actions);
    var r2 :- IncomesAgain(MergersAgain(r1, c, selection.mergers), c, selection.actions);
    if b.mode == PaymentMode then PayAllAgain(r2, c, Ordered(r2.claims.Keys)) else Some(r2)
  }

  // ----- The verdict -----

  function RealTotal(m: map<ObligationId, RealObligation>, kind: ObligationKind): real
    decreases |m|
  {
    if m == map[] then 0.0
    else
      var k := Least(m);
      RealTotal(m - {k}, kind) + (if m[k].kind == kind then m[k].remaining else 0.0)
  }

  function NonZeroReal(m: map<Id, real>): map<Id, real> { map k | k in m && m[k] != 0.0 :: m[k] }

  /** Action states equal as serialized: amounts by value. */
  predicate StateMatches(s: ActionState, r: Recount, b: Batch) {
    && s.applied == r.applied && s.symbols == r.symbols && s.cancelled == r.cancelled && s.closed == r.closed
    && s.references == r.references && s.boundaries == r.boundaries && RealClaims(s.claims) == r.claims
    && s.bound == Some((b.calendar, b.policy))
  }

  /** An after-balance states exactly the recounted economics, and leaves the rest alone. */
  predicate Matches(before: Balance, after: Balance, r: Recount, b: Batch) {
    && V(after.cash) == r.cash
    && Values(after.positions) == NonZeroReal(r.quantities)
    && RealObligations(after.obligations) == r.obligations
    && V(after.income) == r.income
    && V(after.receivables) == RealTotal(r.obligations, Receivable)
    && Same(after.liabilities, before.liabilities) && Same(after.expense, before.expense) && Same(after.fees, before.fees)
    && OwnersAgree(after.owners, before.owners) && SlotsAgree(after.slots, before.slots)
    && after.fillIds == before.fillIds && after.instruments == r.instruments
    && StateMatches(ActionsOf(after), r, b)
  }

  predicate AuditBatch(before: Balance, b: Batch, after: Balance) {
    var r := RecountBatch(before, b);
    r.Some? && WithinLimits(ActionsOf(after)) && Matches(before, after, r.value, b)
  }

  // ----- Records equal by value -----

  predicate OwnerAgrees(o: Ownership, p: Ownership) {
    && o.intent == p.intent && Same(o.cumulative, p.cumulative) && Same(o.fee, p.fee) && o.policyVersion == p.policyVersion
    && Same(o.shareCap, p.shareCap) && o.lastSession == p.lastSession && o.terminal == p.terminal && o.fills == p.fills
  }

  predicate OwnersAgree(m: map<Id, Ownership>, n: map<Id, Ownership>) {
    m.Keys == n.Keys && forall k | k in m :: OwnerAgrees(m[k], n[k])
  }

  predicate SlotAgrees(s: Slot, t: Slot) {
    Same(s.filled, t.filled) && Same(s.shareCap, t.shareCap) && s.policyVersion == t.policyVersion
  }

  predicate SlotsAgree(m: map<SlotKey, Slot>, n: map<SlotKey, Slot>) {
    m.Keys == n.Keys && forall k | k in m :: SlotAgrees(m[k], n[k])
  }
}
