/**
  The records of the simulation ledger: balances, obligations, ownership, corporate-action
  evidence, events and the hash chain over them.  A hash of a record is modelled by the
  record itself under a constructor, so that equal hashes mean equal records.
 */
module Accounts {
  import opened Options
  import opened Decimals
  import opened Contracts

  // ----- Obligations, ownership, caps -----

  /** An identifier a caller chose, or the one derived from a corporate action. */
  datatype ObligationId = Manual(id: Id) | ClaimOf(action: Id)
  datatype ObligationKind = Receivable | Liability
  datatype Obligation = Obligation(kind: ObligationKind, created: Dec, remaining: Dec, dueAt: Time, economicTime: Time)

  datatype Ownership = Ownership(intent: Intent, cumulative: Dec, fee: Dec, policyVersion: Id, shareCap: Dec,
                                 lastSession: Date, terminal: bool, fills: seq<Fill>)
  type SlotKey = (Id, Date)
  datatype Slot = Slot(filled: Dec, shareCap: Dec, policyVersion: Id)

  // ----- Corporate actions -----

  datatype Session = Session(date: Date, openAt: Time, closeAt: Time)

  /** The witnessed schedule, and for each date with a witnessed successor the next session's date. */
  datatype Calendar = Calendar(id: Id, schedule: map<Date, Session>, following: map<Date, Date>)

  /** The witnessed successor of a date is the next scheduled date: none lies between. */
  predicate NextScheduled(c: Calendar) {
    && (forall d | d in c.following :: d < c.following[d])
    && forall d, e | d in c.following && e in c.schedule && d < e :: c.following[d] <= e
  }

  datatype Manifest = Manifest(source: Id, revision: nat, eventTime: Time, publishedAt: Time, availableAt: Time, ingestedAt: Time)
  datatype ReplayPolicy = ArchiveRealistic | LatestKnown

  datatype Basis = PreSplit(conversion: Id, ratio: Dec) | PostSplit
  datatype Terms =
    | RetainExact(lot: Dec, manifest: Manifest)
    | CashInLieu(lot: Dec, price: Dec, payable: Date, manifest: Manifest)
    | DividendTerms(basis: Basis, manifest: Manifest)
    | CashSettlement(amountPerShare: Dec, payable: Date, manifest: Manifest)
    | WriteOff(manifest: Manifest)

  datatype Change =
    | Split(ratio: Dec)
    | TickerChange(oldSymbol: Id, newSymbol: Id)
    | Delisting
    | Dividend(amountPerShare: Dec, payable: Date)

  datatype Action = Action(actionId: Id, instrument: Id, effective: Date, change: Change, manifest: Manifest, terms: Option<Terms>)
  datatype Merger = Merger(mappingId: Id, source: Id, target: Id, effective: Date, ratio: Dec, manifest: Manifest)

  /** A position's cost basis and mark on the session before an opening. */
  datatype Reference = Reference(instrument: Id, symbol: Id, costBasis: Dec, mark: Dec, session: Date,
                                 calendarId: Id, runId: Id, manifest: Manifest)

  datatype ActionPolicy = ActionPolicy(version: Id, retainExact: bool)

  datatype Source = FromAction(action: Action) | FromMerger(merger: Merger)
  datatype Applied = Applied(revision: nat, source: Source)
  datatype CancelReason = SplitCancel | DelistingCancel | MergerCancel
  datatype ClaimKind = DividendClaim | PrincipalClaim
  datatype Claim = Claim(kind: ClaimKind, amount: Dec, dueAt: Time, paid: bool)

  /** Cost basis and mark after splits, as exact ratios. */
  datatype SplitReference = SplitReference(basis: real, mark: real)

  /** Claims are keyed by action: the claim of an action has one obligation identifier. */
  datatype ActionState = ActionState(
    applied: map<Id, Applied>, symbols: map<Id, Id>, cancelled: map<Id, CancelReason>, closed: set<Id>,
    references: map<Id, SplitReference>, boundaries: map<Id, Time>, claims: map<Id, Claim>,
    bound: Option<(Calendar, ActionPolicy)>)

  const NO_ACTIONS := ActionState(map[], map[], map[], {}, map[], map[], map[], None)

  datatype Mode = OpeningMode | PaymentMode
  datatype Batch = Batch(
    mode: Mode, prior: Balance, session: Session, calendar: Calendar, policy: ActionPolicy, actions: seq<Action>,
    intents: seq<Intent>, references: seq<Reference>, mergers: seq<Merger>, replay: ReplayPolicy, archive: Time)

  // ----- Events and balances -----

  datatype Posting = Posting(intent: Intent, fill: Fill, binding: Binding, outcome: Outcome, policy: Policy)

  /** The reference price, plus spread and slippage for a purchase and less them for a sale. */
  predicate Priced(p: Posting) {
    var spread := V(p.outcome.close) * (V(p.policy.halfSpread) + V(p.policy.slippage)) / 10000.0;
    spread >= 0.0 && V(p.fill.price) == V(p.outcome.close) + (if p.intent.side == Buy then spread else -spread)
  }

  lemma AdverseIsPriced(p: Posting)
    requires Same(p.fill.price, AdversePrice(p.outcome.close, p.intent.side, p.policy)) && ValidPolicy(p.policy) && ValidReference(p.outcome.close)
    ensures Priced(p)
  {
    hide V, AdversePrice, ValidPolicy, ValidReference, Ten;
    SidesPay(p.outcome.close, p.policy);
    PolicyShape(p.outcome.close, p.policy);
  }

  datatype Step = Create | Settle
  datatype Body =
    | FillBody(posting: Posting)
    | ObligationBody(kind: ObligationKind, step: Step, obligation: ObligationId, amount: Dec,
                     economicTime: Time, observedAt: Time, dueAt: Time)
    | BatchBody(batch: Batch)

  datatype Event = Event(id: Id, sequence: nat, previous: Digest, runId: Id, calendarId: Id, body: Body)

  datatype Header = Header(runId: Id, calendarId: Id, openingCash: Dec, openingTime: Time, cutoff: Time, startSequence: nat)

  /** Prefix hashes: the genesis hash of a header, or the hash over the previous one and an event. */
  datatype Digest = Genesis(header: Header) | Link(previous: Digest, event: Event)

  datatype Balance = Balance(
    header: Header, cash: Dec, positions: map<Id, Dec>, obligations: map<ObligationId, Obligation>,
    receivables: Dec, liabilities: Dec, income: Dec, expense: Dec, fees: Dec,
    owners: map<Id, Ownership>, slots: map<SlotKey, Slot>, fillIds: set<Fill>, instruments: set<Id>,
    prefixes: seq<Digest>, latestEconomic: Option<Time>, latestObserved: Option<Time>, actions: Option<ActionState>)

  const MAX_EVENTS := 4096
  const MAX_INTENTS := 256
  const MAX_INSTRUMENTS := 256
  const MAX_OBLIGATIONS := 256
  const MAX_SLOTS := 4096
  const MAX_SEQUENCE := 0x7fff_ffff_ffff_ffff

  function EconomicTime(body: Body): Time {
    match body
    case FillBody(p) => p.outcome.closeAt
    case ObligationBody(_, _, _, _, economic, _, _) => economic
    case BatchBody(b) => b.session.openAt
  }

  function ObservedAt(body: Body): Time {
    match body
    case FillBody(p) => p.outcome.receivedAt
    case ObligationBody(_, _, _, _, _, observed, _) => observed
    case BatchBody(b) => b.session.openAt
  }

  /** What an event hash covers: amounts of obligations are serialized in normal form. */
  function Canonical(e: Event): Event {
    if e.body.ObligationBody? then e.(body := e.body.(amount := Wire(e.body.amount))) else e
  }

  function CanonicalHeader(h: Header): Header { h.(openingCash := Wire(h.openingCash)) }

  function GenesisHash(h: Header): Digest { Genesis(CanonicalHeader(h)) }

  function PrefixHash(previous: Digest, e: Event): Digest { Link(previous, Canonical(e)) }

  function LastPrefix(b: Balance): Digest {
    if b.prefixes == [] then GenesisHash(b.header) else b.prefixes[|b.prefixes| - 1]
  }

  function NextSequence(b: Balance): int { b.header.startSequence + |b.prefixes| }

  function ActionsOf(b: Balance): ActionState { b.actions.GetOr(NO_ACTIONS) }

  /** The identifier of a fill is the hash of its serialized record. */
  function FillId(f: Fill): Fill {
    f.(quantity := Wire(f.quantity), before := Wire(f.before), after := Wire(f.after), price := Wire(f.price), fee := Wire(f.fee))
  }

  function Lookup<K, T>(m: map<K, T>, k: K): Option<T> { if k in m then Some(m[k]) else None }

  lemma LookupIs<K, T>(m: map<K, T>, k: K, v: T)
    ensures Lookup(m, k) == Some(v) <==> k in m && m[k] == v
  {
  }

  function Held(positions: map<Id, Dec>, instrument: Id): Dec {
    if instrument in positions then positions[instrument] else ZERO
  }

  // ----- Sums over obligations -----

  function Rank(id: ObligationId): nat {
    match id case Manual(i) => 2 * i case ClaimOf(a) => 2 * a + 1
  }

  predicate IsLeast<T>(m: map<ObligationId, T>, k: ObligationId) {
    k in m && forall j | j in m :: Rank(k) <= Rank(j)
  }

  lemma {:induction false} LeastExists<T>(m: map<ObligationId, T>)
    requires m != map[]
    ensures exists k :: IsLeast(m, k)
    decreases |m|
  {
    var k :| k in m;
    var rest := m - {k};
    if rest == map[] {
      assert forall j | j in m :: j == k by { assert forall j | j in m && j != k :: j in rest; }
      assert IsLeast(m, k);
    } else {
      LeastExists(rest);
      var l :| IsLeast(rest, l);
      assert forall j | j in m && j != k :: j in rest;
      assert IsLeast(m, if Rank(k) <= Rank(l) then k else l);
    }
  }

  lemma RankIsInjective(j: ObligationId, k: ObligationId)
    ensures Rank(j) == Rank(k) ==> j == k
  {
  }

  /** The first identifier in storage order. */
  function Least<T>(m: map<ObligationId, T>): (k: ObligationId)
    requires m != map[]
    ensures IsLeast(m, k)
  {
    LeastExists(m);
    assert forall j, k | IsLeast(m, j) && IsLeast(m, k) :: j == k by {
      forall j, k | IsLeast(m, j) && IsLeast(m, k) ensures j == k { RankIsInjective(j, k); }
    }
    var k :| IsLeast(m, k);
    k
  }

  function Remaining(o: Obligation, kind: ObligationKind): Dec {
    if o.kind == kind then o.remaining else ZERO
  }

  /** What remains of all obligations of one kind. */
  function Total(m: map<ObligationId, Obligation>, kind: ObligationKind): Dec
    decreases |m|
  {
    if m == map[] then ZERO
    else
      var k := Least(m);
      Add(Total(m - {k}, kind), Remaining(m[k], kind))
  }

  /** The sum of a finite map of reals. */
  ghost function Sum<K(!new)>(m: map<K, real>): real
    decreases |m|
  {
    if m == map[] then 0.0 else var k :| k in m; m[k] + Sum(m - {k})
  }

  lemma {:induction false} SumRemove<K(!new)>(m: map<K, real>, k: K)
    requires k in m
    ensures Sum(m) == m[k] + Sum(m - {k})
    decreases |m|
  {
    var j :| j in m && Sum(m) == m[j] + Sum(m - {j});
    if j != k {
      SumRemove(m - {j}, k);
      SumRemove(m - {k}, j);
      assert m - {j} - {k} == m - {k} - {j};
    }
  }

  function Get<K>(m: map<K, real>, k: K): real { if k in m then m[k] else 0.0 }

  lemma SumUpdate<K(!new)>(m: map<K, real>, k: K, x: real)
    ensures Sum(m[k := x]) == Sum(m) - Get(m, k) + x
  {
    SumRemove(m[k := x], k);
    assert m[k := x] - {k} == m - {k};
    if k in m { SumRemove(m, k); } else { assert m - {k} == m; }
  }

  ghost function Amounts(m: map<ObligationId, Obligation>, kind: ObligationKind): map<ObligationId, real> {
    map k | k in m :: V(Remaining(m[k], kind))
  }

  lemma {:induction false} TotalIsSum(m: map<ObligationId, Obligation>, kind: ObligationKind)
    ensures V(Total(m, kind)) == Sum(Amounts(m, kind))
    decreases |m|
  {
    hide V;
    if m == map[] {
      ValueZero();
    } else {
      var k := Least(m);
      TotalIsSum(m - {k}, kind);
      SumRemove(Amounts(m, kind), k);
      assert Amounts(m, kind) - {k} == Amounts(m - {k}, kind);
    }
  }

  lemma TotalUpdate(m: map<ObligationId, Obligation>, kind: ObligationKind, k: ObligationId, o: Obligation)
    ensures V(Total(m[k := o], kind)) == V(Total(m, kind)) - (if k in m then V(Remaining(m[k], kind)) else 0.0) + V(Remaining(o, kind))
  {
    hide V, Remaining;
    TotalIsSum(m, kind);
    TotalIsSum(m[k := o], kind);
    SumUpdate(Amounts(m, kind), k, V(Remaining(o, kind)));
    assert Amounts(m[k := o], kind) == Amounts(m, kind)[k := V(Remaining(o, kind))];
  }
}
