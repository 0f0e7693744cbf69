/**
  Selection of the corporate actions of an opening, and the publishing reducer: exact
  decimals or rejection.
 */
module CorporateActions {
  import opened Options
  import opened Decimals
  import opened Contracts
  import opened Accounts
  import opened Ordering

  // ----- Well-formed sources -----

  predicate Positive(d: Dec, kind: Kind) { InRange(d, kind) && V(d) > 0.0 }

  predicate ValidTerms(a: Action, t: Terms) {
    match t
    case RetainExact(lot, _) => a.change.Split? && Positive(lot, Quantity)
    case CashInLieu(lot, price, payable, _) =>
      a.change.Split? && Positive(lot, Quantity) && Positive(price, Execution) && payable >= a.effective
    case DividendTerms(basis, _) => a.change.Dividend? && (basis.PreSplit? ==> Positive(basis.ratio, Money))
    case CashSettlement(amount, payable, _) =>
      a.change.Delisting? && Positive(amount, Execution) && payable >= a.effective
    case WriteOff(_) => a.change.Delisting?
  }

  predicate ValidAction(a: Action) {
    && (match a.change
        case Split(ratio) => Positive(ratio, Money)
        case TickerChange(oldSymbol, newSymbol) => oldSymbol != newSymbol
        case Delisting => true
        case Dividend(amount, payable) => V(amount) > 0.0 && payable >= a.effective)
    && (a.terms.Some? ==> ValidTerms(a, a.terms.value))
  }

  predicate ValidMerger(m: Merger) { m.source != m.target && Positive(m.ratio, Money) }

  predicate ValidReferenceRecord(r: Reference) { Positive(r.costBasis, Execution) && Positive(r.mark, Execution) }

  predicate ValidBatch(b: Batch) {
    && |b.actions| <= 64 && |b.intents| <= 64 && |b.references| <= 32 && |b.mergers| <= 32
    && (b.mode == PaymentMode ==> b.actions == [] && b.intents == [] && b.references == [] && b.mergers == [])
    && (forall a | a in b.actions :: ValidAction(a))
    && (forall r | r in b.references :: ValidReferenceRecord(r))
    && (forall m | m in b.mergers :: ValidMerger(m))
  }

  // ----- Calendar and provenance -----

  predicate SessionOf(c: Calendar, s: Session) { s.date in c.schedule && c.schedule[s.date] == s }

  /** The opening at which something payable on a date is due: that session, or the next witnessed one. */
  function Due(c: Calendar, payable: Date): Option<Time> {
    if payable in c.schedule then Some(c.schedule[payable].openAt)
    else if payable in c.following && c.following[payable] in c.schedule then Some(c.schedule[c.following[payable]].openAt)
    else None
  }

  predicate Known(m: Manifest, session: Session, replay: ReplayPolicy, archive: Time) {
    && m.availableAt <= session.openAt
    && (replay == ArchiveRealistic ==> m.ingestedAt <= session.openAt && m.ingestedAt <= archive)
  }

  // ----- Order of actions -----

  function Priority(c: Change): nat {
    match c case Split(_) => 0 case TickerChange(_, _) => 1 case Delisting => 2 case Dividend(_, _) => 3
  }

  /** Splits, then ticker changes, delistings and dividends; by instrument and identifier within each. */
  predicate ActionBefore(a: Action, c: Action) {
    var p, q := Priority(a.change), Priority(c.change);
    p < q || (p == q && (a.instrument < c.instrument || (a.instrument == c.instrument && a.actionId <= c.actionId)))
  }

  predicate MergerBefore(m: Merger, n: Merger) { m.mappingId <= n.mappingId }

  // ----- Selection -----

  datatype Selection = Selection(actions: seq<Action>, mergers: seq<Merger>)

  /** Two revisions of one action: the same series, in an order every timestamp agrees with. */
  predicate SameSeries(a: Action, c: Action) {
    && a.instrument == c.instrument && Priority(a.change) == Priority(c.change) && a.effective == c.effective
    && a.manifest.source == c.manifest.source && a.manifest.revision != c.manifest.revision
    && (a.manifest.revision < c.manifest.revision ==>
          a.manifest.availableAt <= c.manifest.availableAt && a.manifest.ingestedAt <= c.manifest.ingestedAt
          && a.manifest.publishedAt <= c.manifest.publishedAt)
  }

  /** An action and its terms were known by the opening it is effective at. */
  predicate Eligible(a: Action, b: Batch) {
    && a.effective in b.calendar.schedule
    && Known(a.manifest, b.calendar.schedule[a.effective], b.replay, b.archive)
    && (a.terms.Some? ==> Known(a.terms.value.manifest, b.calendar.schedule[a.effective], b.replay, b.archive))
  }

  predicate Newest(a: Action, actions: seq<Action>) {
    forall c | c in actions && c.actionId == a.actionId :: c.manifest.revision <= a.manifest.revision
  }

  predicate SeriesHold(b: Batch) {
    && (forall i, j | 0 <= i < |b.actions| && 0 <= j < |b.actions| && i != j && b.actions[i].actionId == b.actions[j].actionId ::
          SameSeries(b.actions[i], b.actions[j]))
    && (forall a | a in b.actions :: Eligible(a, b))
    && |set a | a in b.actions :: a.actionId| + |b.mergers| <= 32
  }

  /** A revision already applied is passed over; a different one under the same identifier is a conflict. */
  predicate ActionsFit(b: Batch, applied: map<Id, Applied>) {
    forall a | a in b.actions && Newest(a, b.actions) ::
      if a.actionId in applied then applied[a.actionId] == Applied(a.manifest.revision, FromAction(a))
      else a.effective == b.session.date && (a.change.TickerChange? || a.terms.Some?)
  }

  predicate MergersFit(b: Batch, applied: map<Id, Applied>) {
    && (forall i, j | 0 <= i < j < |b.mergers| :: b.mergers[i].mappingId != b.mergers[j].mappingId)
    && (forall m, a | m in b.mergers && a in b.actions :: m.mappingId != a.actionId)
    && (forall m | m in b.mergers ::
          && Known(m.manifest, b.session, b.replay, b.archive)
          && (if m.mappingId in applied then applied[m.mappingId].source == FromMerger(m) else m.effective == b.session.date))
  }

  function Chosen(b: Batch, applied: map<Id, Applied>): Selection {
    Selection(
      SortBy(Filter(b.actions, (a: Action) => a.actionId !in applied && Newest(a, b.actions)), ActionBefore),
      SortBy(Filter(b.mergers, (m: Merger) => m.mappingId !in applied), MergerBefore))
  }

  predicate Compatible(s: Selection) {
    && (forall i, j | 0 <= i < j < |s.actions| && s.actions[i].change.Split? && s.actions[j].change.Split? ::
          s.actions[i].instrument != s.actions[j].instrument)
    && (forall m, n | m in s.mergers && n in s.mergers :: m.source != n.target)
    && (forall m, a | m in s.mergers && a in s.actions && a.change.Dividend? :: a.instrument != m.source)
  }

  /** Orders that an action on an instrument cancels: outstanding ones from before the opening, and open owners. */
  function Stale(b: Batch, before: Balance, instrument: Id): set<Id> {
    (set i | i in b.intents && i.instrument == instrument && i.createdAt < b.session.openAt :: i.intentId)
    + (set k | k in before.owners && before.owners[k].intent.instrument == instrument && !before.owners[k].terminal)
  }

  function Affected(s: Selection): set<Id> {
    (set a | a in s.actions && (a.change.Split? || a.change.Delisting?) :: a.instrument) + (set m | m in s.mergers :: m.source)
  }

  function Select(b: Batch, before: Balance): Option<Selection> {
    var state := ActionsOf(before);
    var _ :- Need(SessionOf(b.calendar, b.session) && b.calendar.id == before.header.calendarId);
    var _ :- Need(state.bound.Some? ==> state.bound.value == (b.calendar, b.policy));
    var _ :- Need(b.prior == before);
    if b.mode == PaymentMode then Some(Selection([], []))
    else
      var _ :- Need(forall i, j | 0 <= i < j < |b.intents| :: b.intents[i].intentId != b.intents[j].intentId);
      var _ :- Need(SeriesHold(b) && ActionsFit(b, state.applied) && MergersFit(b, state.applied));
      var chosen := Chosen(b, state.applied);
      var _ :- Need((chosen.actions != [] || chosen.mergers != []) && before.latestEconomic.Some?
                    ==> before.latestEconomic.value < b.session.openAt);
      var _ :- Need(Compatible(chosen));
      var candidates := set i, k | i in Affected(chosen) && k in Stale(b, before, i) :: k;
      var _ :- Need(|candidates - state.cancelled.Keys| <= 64);
      Some(chosen)
  }

  // ----- The publishing reducer -----

  /** The reducer's working copies. */
  datatype Work = Work(
    positions: map<Id, Dec>, shares: map<Id, Dec>, obligations: map<ObligationId, Obligation>, cash: Dec, income: Dec,
    state: ActionState, instruments: set<Id>, converted: set<Id>)

  datatype Context = Context(before: Balance, batch: Batch, selection: Selection)

  function FindReference(references: seq<Reference>, instrument: Id): (r: Option<Reference>)
    ensures r.Some? ==> r.value in references && r.value.instrument == instrument
  {
    if references == [] then None
    else if references[0].instrument == instrument then Some(references[0])
    else FindReference(references[1..], instrument)
  }

  /** The reference is the run's own, from the session right before the opening, and was known then. */
  predicate ReferenceFits(r: Reference, c: Context) {
    && r.runId == c.before.header.runId && r.calendarId == c.before.header.calendarId
    && r.session < c.batch.session.date
    && Known(r.manifest, c.batch.session, c.batch.replay, c.batch.archive)
    && r.session in c.batch.calendar.schedule && r.session in c.batch.calendar.following
    && c.batch.calendar.following[r.session] == c.batch.session.date
    && r.manifest.eventTime == c.batch.calendar.schedule[r.session].closeAt
  }

  function Accrue(w: Work, c: Context, action: Id, amount: Dec, payable: Date, kind: ClaimKind): Option<Work> {
    var due :- Due(c.batch.calendar, payable);
    if V(amount) == 0.0 then Some(w)
    else
      var key := ClaimOf(action);
      var _ :- Need(key !in w.obligations && action !in w.state.claims && |w.obligations| < MAX_OBLIGATIONS);
      var owed :- Checked(amount, Money, true);
      var income :- if kind == DividendClaim then (var sum :- Exact(Add(w.income, owed)); Checked(sum, Money, false)) else Some(w.income);
      Some(w.(obligations := w.obligations[key := Obligation(Receivable, owed, owed, due, c.batch.session.openAt)],
              state := w.state.(claims := w.state.claims[action := Claim(kind, owed, due, false)]),
              income := income))
  }

  function Cancel(w: Work, c: Context, instrument: Id, reason: CancelReason): Option<Work> {
    var _ :- Need(forall i | i in c.batch.intents :: i.runId == c.before.header.runId && i.calendarId == c.before.header.calendarId);
    var cancelled := Cancelled(w.state.cancelled, Stale(c.batch, c.before, instrument), reason);
    var _ :- Need(|cancelled| <= 4096);
    Some(w.(state := w.state.(cancelled := cancelled)))
  }

  /** Reasons already recorded stay. */
  function Cancelled(cancelled: map<Id, CancelReason>, ids: set<Id>, reason: CancelReason): (r: map<Id, CancelReason>)
    ensures forall k :: k in r <==> k in cancelled || k in ids
    ensures forall k | k in r :: r[k] == if k in cancelled then cancelled[k] else reason
  {
    (map k | k in ids :: reason) + cancelled
  }

  function WholeLots(quantity: real, lot: Dec): int
    requires V(lot) > 0.0
  {
    (quantity / V(lot)).Floor
  }

  /** Shares kept and cash paid out for a converted quantity. */
  function Fractional(quantity: Dec, terms: Terms, policy: ActionPolicy): Option<(Dec, Dec)> {
    match terms
    case RetainExact(_, _) =>
      var _ :- Need(policy.retainExact);
      var normalized :- Exact(Normalize(quantity));
      var kept :- Checked(normalized, Holding, false);
      Some((kept, ZERO))
    case CashInLieu(lot, price, _, _) =>
      var _ :- Need(!policy.retainExact && V(lot) > 0.0);
      var retained :- Exact(Mul(Whole(WholeLots(V(quantity), lot)), lot));
      var remainder :- Exact(Sub(quantity, retained));
      var kept :- Checked(retained, Holding, false);
      var paid :- Exact(Mul(remainder, price));
      var proceeds :- Checked(paid, Money, false);
      Some((kept, proceeds))
    case _ => None
  }

  /** The basis and mark before a split: the batch's own conversion if there was one, else the reference. */
  function PriorReference(converted: set<Id>, references: map<Id, SplitReference>, c: Context, instrument: Id): Option<SplitReference> {
    var reference :- FindReference(c.batch.references, instrument);
    var _ :- Need(ReferenceFits(reference, c));
    Some(if instrument in converted && instrument in references then references[instrument]
         else SplitReference(V(reference.costBasis), V(reference.mark)))
  }

  function Scaled(r: SplitReference, ratio: Dec): SplitReference
    requires V(ratio) > 0.0
  {
    SplitReference(Quotient(r.basis, V(ratio)), Quotient(r.mark, V(ratio)))
  }

  /** Basis and mark follow the shares of a held instrument. */
  function ScaleReference(w: Work, c: Context, instrument: Id, quantity: Dec, ratio: Dec): Option<Work>
    requires V(ratio) > 0.0
  {
    if V(quantity) == 0.0 then Some(w)
    else
      var prior :- PriorReference(w.converted, w.state.references, c, instrument);
      Some(w.(state := w.state.(references := w.state.references[instrument := Scaled(prior, ratio)]),
              converted := w.converted + {instrument}))
  }

  /** Shares, reference and boundary of a split, before its cancellations and claim. */
  function Converted(w: Work, c: Context, a: Action, ratio: Dec, kept: Dec): Option<Work>
    requires V(ratio) > 0.0
  {
    var w1 :- ScaleReference(w, c, a.instrument, Held(w.positions, a.instrument), ratio);
    Some(w1.(positions := w1.positions[a.instrument := kept], shares := w1.shares[a.instrument := kept],
             state := w1.state.(boundaries := w1.state.boundaries[a.instrument := c.batch.session.openAt])))
  }

  function ApplySplit(w: Work, c: Context, a: Action, ratio: Dec): Option<Work>
    requires V(ratio) > 0.0
  {
    var quantity := Held(w.positions, a.instrument);
    var terms :- a.terms;
    var converted :- Exact(Mul(quantity, ratio));
    var parts :- Fractional(converted, terms, c.batch.policy);
    var w2 :- Converted(w, c, a, ratio, parts.0);
    var w3 :- Cancel(w2, c, a.instrument, SplitCancel);
    if terms.CashInLieu? then Accrue(w3, c, a.actionId, parts.1, terms.payable, PrincipalClaim) else Some(w3)
  }

  function CurrentSymbol(symbols: map<Id, Id>, c: Context, instrument: Id): Option<Id> {
    if instrument in symbols then Some(symbols[instrument])
    else var reference :- FindReference(c.batch.references, instrument); Some(reference.symbol)
  }

  function ApplyTickerChange(w: Work, c: Context, a: Action, oldSymbol: Id, newSymbol: Id): Option<Work> {
    var current :- CurrentSymbol(w.state.symbols, c, a.instrument);
    var _ :- Need(current == oldSymbol);
    Some(w.(state := w.state.(symbols := w.state.symbols[a.instrument := newSymbol])))
  }

  function ApplyDelisting(w: Work, c: Context, a: Action): Option<Work> {
    var quantity := Held(w.positions, a.instrument);
    var terms :- a.terms;
    var w1 := w.(positions := w.positions - {a.instrument}, state := w.state.(closed := w.state.closed + {a.instrument}));
    var w2 :- Cancel(w1, c, a.instrument, DelistingCancel);
    match terms
    case CashSettlement(perShare, payable, _) =>
      var amount :- Exact(Mul(quantity, perShare));
      Accrue(w2, c, a.actionId, amount, payable, PrincipalClaim)
    case _ => Some(w2)
  }

  /** Everything but dividends. */
  function ApplyAction(w: Work, c: Context, a: Action): Option<Work> {
    if a.change.Dividend? then Some(w)
    else
      var _ :- Need(a.instrument !in w.state.closed && ValidAction(a));
      match a.change
      case Split(ratio) => ApplySplit(w, c, a, ratio)
      case TickerChange(oldSymbol, newSymbol) => ApplyTickerChange(w, c, a, oldSymbol, newSymbol)
      case Delisting => ApplyDelisting(w, c, a)
  }

  function ApplyActions(w: Work, c: Context, actions: seq<Action>): Option<Work>
    decreases |actions|
  {
    if actions == [] then Some(w)
    else var w1 :- ApplyAction(w, c, actions[0]); ApplyActions(w1, c, actions[1..])
  }

  function Merged(w: Work, m: Merger, held: Dec): Work {
    w.(positions := (w.positions - {m.source})[m.target := held], shares := (w.shares - {m.source})[m.target := held],
       state := w.state.(closed := w.state.closed + {m.source}))
  }

  function Enrolled(w: Work, m: Merger): Work {
    w.(instruments := w.instruments + {m.target},
       state := w.state.(applied := w.state.applied[m.mappingId := Applied(m.manifest.revision, FromMerger(m))]))
  }

  function ApplyMerger(w: Work, c: Context, m: Merger): Option<Work> {
    var _ :- Need(m.source !in w.state.closed && m.target !in w.state.closed);
    var quantity := Held(w.positions, m.source);
    var left := w.positions - {m.source};
    var moved :- Exact(Mul(quantity, m.ratio));
    var converted :- Exact(Add(Held(left, m.target), moved));
    var held :- Checked(Normalize(converted), Holding, false);
    var w1 :- Cancel(Merged(w, m, held), c, m.source, MergerCancel);
    Some(Enrolled(w1, m))
  }

  function ApplyMergers(w: Work, c: Context, mergers: seq<Merger>): Option<Work>
    decreases |mergers|
  {
    if mergers == [] then Some(w)
    else var w1 :- ApplyMerger(w, c, mergers[0]); ApplyMergers(w1, c, mergers[1..])
  }

  /** A dividend declared before a split names that split of the batch and its ratio. */
  predicate ConversionNamed(c: Context, a: Action, basis: Basis) {
    basis.PreSplit? ==>
      var splits := Filter(c.selection.actions, (s: Action) => s.change.Split? && s.actionId == basis.conversion && s.instrument == a.instrument);
      |splits| == 1 && splits[0] in splits && Same(splits[0].change.ratio, basis.ratio)
  }

  function Entitlement(shares: real, perShare: Dec, basis: Basis): real
    requires basis.PreSplit? ==> V(basis.ratio) > 0.0
  {
    var amount := Product(shares, V(perShare));
    if basis.PreSplit? then Quotient(amount, V(basis.ratio)) else amount
  }

  function ApplyDividend(w: Work, c: Context, a: Action, perShare: Dec, payable: Date): Option<Work> {
    var terms :- a.terms;
    var _ :- Need(ValidTerms(a, terms) && terms.DividendTerms? && ConversionNamed(c, a, terms.basis));
    var amount :- FromRational(Entitlement(V(Held(w.shares, a.instrument)), perShare, terms.basis));
    Accrue(w, c, a.actionId, amount, payable, DividendClaim)
  }

  function Record(w: Work, a: Action): Work {
    w.(state := w.state.(applied := w.state.applied[a.actionId := Applied(a.manifest.revision, FromAction(a))]))
  }

  function ApplyIncome(w: Work, c: Context, a: Action): Option<Work> {
    var w1 :- match a.change
              case Dividend(perShare, payable) => ApplyDividend(w, c, a, perShare, payable)
              case _ => Some(w);
    Some(Record(w1, a))
  }

  function ApplyIncomes(w: Work, c: Context, actions: seq<Action>): Option<Work>
    decreases |actions|
  {
    if actions == [] then Some(w)
    else var w1 :- ApplyIncome(w, c, actions[0]); ApplyIncomes(w1, c, actions[1..])
  }

  // ----- Payments -----

  /** Pays one claim out of its receivable, if it is due. */
  function Pay(w: Work, c: Context, action: Id): Option<Work> {
    if action !in w.state.claims then Some(w)
    else
      var claim, key := w.state.claims[action], ClaimOf(action);
      if claim.paid || claim.dueAt > c.batch.session.openAt then Some(w)
      else
        var _ :- Need(key in w.obligations && Same(w.obligations[key].remaining, claim.amount));
        var sum :- Exact(Add(w.cash, claim.amount));
        var cash :- Checked(sum, Money, false);
        var o := w.obligations[key];
        Some(w.(cash := cash,
                obligations := w.obligations[key := Obligation(Receivable, claim.amount, ZERO, o.dueAt, o.economicTime)],
                state := w.state.(claims := w.state.claims[action := claim.(paid := true)])))
  }

  function PayAll(w: Work, c: Context, actions: seq<Id>): Option<Work>
    decreases |actions|
  {
    if actions == [] then Some(w)
    else var w1 :- Pay(w, c, actions[0]); PayAll(w1, c, actions[1..])
  }

  // ----- The batch -----

  predicate WithinLimits(s: ActionState) {
    && |s.applied| <= 4096 && |s.cancelled| <= 4096 && |s.references| <= 4096 && |s.claims| <= 4096
    && |s.symbols| <= 256 && |s.boundaries| <= 256 && |s.closed| <= 256
  }

  function Start(before: Balance): Work {
    Work(before.positions, before.positions, before.obligations, before.cash, before.income,
         ActionsOf(before), before.instruments, {})
  }

  function Conclude(w: Work, c: Context): Option<Work> {
    var paid :- if c.batch.mode == PaymentMode then PayAll(w, c, Ordered(w.state.claims.Keys)) else Some(w);
    var state := paid.state.(bound := Some((c.batch.calendar, c.batch.policy)));
    var _ :- Need(WithinLimits(state));
    Some(paid.(state := state, positions := NonZero(paid.positions)))
  }

  function NonZero(positions: map<Id, Dec>): map<Id, Dec> {
    map k | k in positions && V(positions[k]) != 0.0 :: positions[k]
  }

  predicate UniqueReferences(b: Batch) {
    forall i, j | 0 <= i < j < |b.references| :: b.references[i].instrument != b.references[j].instrument
  }

  /** Positions, cash, obligations, income and action state after a batch. */
  function ReduceBatch(before: Balance, b: Batch): Option<Work> {
    var selection :- Select(b, before);
    var c := Context(before, b, selection);
    var _ :- Need(UniqueReferences(b));
    var w1 :- ApplyActions(Start(before), c, selection.actions);
    var w2 :- ApplyMergers(w1, c, selection.mergers);
    var w3 :- ApplyIncomes(w2, c, selection.actions);
    Conclude(w3, c)
  }
}
