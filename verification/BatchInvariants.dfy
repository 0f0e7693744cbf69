/**
  What every step of the publishing reducer keeps: claims backed by receivables, nothing
  owed out of thin air, closed instruments empty, and no record of the past undone.
 */
module BatchInvariants {
  import opened Options
  import opened Decimals
  import opened Contracts
  import opened Accounts
  import opened Ordering
  import opened CorporateActions

  // ----- Claims and what is owed -----

  /** The receivable of a claim: the claimed amount, outstanding until paid. */
  predicate Backs(o: Obligation, c: Claim) {
    && o.kind == Receivable && o.created == c.amount && o.dueAt == c.dueAt && V(c.amount) > 0.0
    && o.remaining == if c.paid then ZERO else c.amount
  }

  predicate ClaimsBacked(obligations: map<ObligationId, Obligation>, claims: map<Id, Claim>) {
    forall a | a in claims :: ClaimOf(a) in obligations && Backs(obligations[ClaimOf(a)], claims[a])
  }

  function PrincipalOf(c: Claim): real { if c.kind == PrincipalClaim then V(c.amount) else 0.0 }

  ghost function Principals(claims: map<Id, Claim>): map<Id, real> { map a | a in claims :: PrincipalOf(claims[a]) }

  /** All principal ever claimed. */
  ghost function Principal(claims: map<Id, Claim>): real { Sum(Principals(claims)) }

  lemma PrincipalUpdate(claims: map<Id, Claim>, a: Id, c: Claim)
    ensures Principal(claims[a := c]) == Principal(claims) - (if a in claims then PrincipalOf(claims[a]) else 0.0) + PrincipalOf(c)
  {
    hide V, PrincipalOf;
    SumUpdate(Principals(claims), a, PrincipalOf(c));
    assert Principals(claims[a := c]) == Principals(claims)[a := PrincipalOf(c)];
  }

  /** Income and principal recognized beyond what is receivable or already cash. */
  ghost function Surplus(obligations: map<ObligationId, Obligation>, claims: map<Id, Claim>, cash: Dec, income: Dec): real {
    V(income) + Principal(claims) - V(Total(obligations, Receivable)) - V(cash)
  }

  ghost function SurplusOf(w: Work): real { Surplus(w.obligations, w.state.claims, w.cash, w.income) }

  // ----- The invariant and the order -----

  predicate Empty(positions: map<Id, Dec>, closed: set<Id>) { forall i | i in closed :: i !in positions }

  ghost predicate Sound(w: Work) {
    && ClaimsBacked(w.obligations, w.state.claims) && Empty(w.positions, w.state.closed)
    && forall i | i in w.positions :: V(w.positions[i]) >= 0.0
  }

  /** A claim is never lost, changed or unpaid. */
  predicate ClaimsKept(prior: map<Id, Claim>, now: map<Id, Claim>) {
    forall a | a in prior :: a in now && (now[a] == prior[a] || now[a] == prior[a].(paid := true))
  }

  predicate BoundariesKept(prior: map<Id, Time>, now: map<Id, Time>, openAt: Time) {
    && (forall i | i in prior :: i in now)
    && (forall i | i in now :: now[i] == openAt || (i in prior && now[i] == prior[i]))
  }

  predicate HistoryKept(s: ActionState, t: ActionState, openAt: Time) {
    && ClaimsKept(s.claims, t.claims) && s.closed <= t.closed && s.cancelled.Keys <= t.cancelled.Keys
    && BoundariesKept(s.boundaries, t.boundaries, openAt)
  }

  /** Obligations outside the claims made here stay; the liabilities all do. */
  predicate ObligationsKept(m: map<ObligationId, Obligation>, n: map<ObligationId, Obligation>) {
    && (forall k | k in m :: k in n && m[k].kind == n[k].kind)
    && (forall k | k in n && k.Manual? :: k in m && n[k] == m[k])
    && V(Total(m, Liability)) == V(Total(n, Liability))
  }

  ghost predicate Carries(w: Work, v: Work, openAt: Time) {
    && SurplusOf(v) == SurplusOf(w) && HistoryKept(w.state, v.state, openAt) && ObligationsKept(w.obligations, v.obligations)
  }

  lemma CarriesIsTransitive(u: Work, v: Work, w: Work, openAt: Time)
    requires Carries(u, v, openAt) && Carries(v, w, openAt)
    ensures Carries(u, w, openAt)
  {
    hide V, Total, Surplus;
  }

  ghost predicate Keeps(w: Work, v: Work, openAt: Time) { Sound(w) ==> Sound(v) && Carries(w, v, openAt) }

  lemma KeepsIsTransitive(u: Work, v: Work, w: Work, openAt: Time)
    requires Keeps(u, v, openAt) && Keeps(v, w, openAt)
    ensures Keeps(u, w, openAt)
  {
    hide Sound, Carries;
    if Sound(u) { CarriesIsTransitive(u, v, w, openAt); }
  }

  // ----- Claims -----

  lemma AccrueShape(w: Work, c: Context, action: Id, amount: Dec, payable: Date, kind: ClaimKind)
    requires Accrue(w, c, action, amount, payable, kind).Some?
    ensures var v := Accrue(w, c, action, amount, payable, kind).value;
      v == w || (
        && ClaimOf(action) !in w.obligations && action !in w.state.claims && V(amount) > 0.0
        && var owed := Checked(amount, Money, true).value;
           var due := Due(c.batch.calendar, payable).value;
           && V(owed) == V(amount)
           && v == w.(obligations := w.obligations[ClaimOf(action) := Obligation(Receivable, owed, owed, due, c.batch.session.openAt)],
                      state := w.state.(claims := w.state.claims[action := Claim(kind, owed, due, false)]), income := v.income)
           && V(v.income) == V(w.income) + (if kind == DividendClaim then V(owed) else 0.0))
  {
    hide V, InRange, Fits, Checked, Exact, Add, Due;
    assert V(amount) == 0.0 || Checked(amount, Money, true).Some?;
  }

  lemma ClaimedSurplus(w: Work, v: Work, action: Id, owed: Dec, o: Obligation, claim: Claim)
    requires ClaimOf(action) !in w.obligations && action !in w.state.claims
    requires o.kind == Receivable && o.remaining == owed && claim.amount == owed
    requires v.obligations == w.obligations[ClaimOf(action) := o] && v.state.claims == w.state.claims[action := claim] && v.cash == w.cash
    requires V(v.income) == V(w.income) + (if claim.kind == DividendClaim then V(owed) else 0.0)
    ensures SurplusOf(v) == SurplusOf(w) && V(Total(v.obligations, Liability)) == V(Total(w.obligations, Liability))
  {
    ValueZero();
    hide V, Total, Principal;
    TotalUpdate(w.obligations, Receivable, ClaimOf(action), o);
    TotalUpdate(w.obligations, Liability, ClaimOf(action), o);
    PrincipalUpdate(w.state.claims, action, claim);
  }

  lemma ClaimedSound(w: Work, v: Work, action: Id, o: Obligation, claim: Claim, openAt: Time)
    requires ClaimOf(action) !in w.obligations && action !in w.state.claims && Backs(o, claim)
    requires v == w.(obligations := w.obligations[ClaimOf(action) := o], income := v.income,
                     state := w.state.(claims := w.state.claims[action := claim]))
    requires V(Total(v.obligations, Liability)) == V(Total(w.obligations, Liability))
    ensures (Sound(w) ==> Sound(v)) && HistoryKept(w.state, v.state, openAt) && ObligationsKept(w.obligations, v.obligations)
  {
    hide V, Total, Backs;
  }

  lemma AccrueKeeps(w: Work, c: Context, action: Id, amount: Dec, payable: Date, kind: ClaimKind)
    requires Accrue(w, c, action, amount, payable, kind).Some?
    ensures Keeps(w, Accrue(w, c, action, amount, payable, kind).value, c.batch.session.openAt)
  {
    AccrueShape(w, c, action, amount, payable, kind);
    KeepsItself(w, c.batch.session.openAt);
    hide V, Accrue, Checked, Due, Surplus, SurplusOf, Sound, HistoryKept, ObligationsKept;
    var v := Accrue(w, c, action, amount, payable, kind).value;
    if v != w {
      var owed, due := Checked(amount, Money, true).value, Due(c.batch.calendar, payable).value;
      var o, claim := Obligation(Receivable, owed, owed, due, c.batch.session.openAt), Claim(kind, owed, due, false);
      ClaimedSurplus(w, v, action, owed, o, claim);
      ClaimedSound(w, v, action, o, claim, c.batch.session.openAt);
    }
  }

  lemma CancelKeeps(w: Work, c: Context, instrument: Id, reason: CancelReason)
    requires Cancel(w, c, instrument, reason).Some?
    ensures Keeps(w, Cancel(w, c, instrument, reason).value, c.batch.session.openAt)
    ensures var v := Cancel(w, c, instrument, reason).value;
      v == w.(state := w.state.(cancelled := v.state.cancelled)) && Stale(c.batch, c.before, instrument) <= v.state.cancelled.Keys
  {
    hide V, Stale, Total, Surplus;
  }

  // ----- Identity-changing actions -----

  lemma PositionsKeep(w: Work, v: Work, openAt: Time)
    requires v == w.(positions := v.positions, shares := v.shares, state := v.state, instruments := v.instruments, converted := v.converted)
    requires v.state.claims == w.state.claims && w.state.closed <= v.state.closed && w.state.cancelled == v.state.cancelled
    requires BoundariesKept(w.state.boundaries, v.state.boundaries, openAt)
    requires Sound(w) ==> Empty(v.positions, v.state.closed) && forall i | i in v.positions :: V(v.positions[i]) >= 0.0
    ensures Keeps(w, v, openAt)
  {
    hide V, Total, Surplus;
  }

  lemma KeptIsNonNegative(quantity: Dec, terms: Terms, policy: ActionPolicy)
    requires Fractional(quantity, terms, policy).Some?
    ensures V(Fractional(quantity, terms, policy).value.0) >= 0.0
  {
    hide V, Normalize, Fits, Mul, Sub, Add, Whole, Checked, Exact;
  }

  lemma SplitShape(w: Work, c: Context, a: Action, ratio: Dec)
    requires V(ratio) > 0.0 && ApplySplit(w, c, a, ratio).Some?
    ensures a.terms.Some?
    ensures var parts := Fractional(Mul(Held(w.positions, a.instrument), ratio), a.terms.value, c.batch.policy);
      && parts.Some? && Converted(w, c, a, ratio, parts.value.0).Some?
      && Cancel(Converted(w, c, a, ratio, parts.value.0).value, c, a.instrument, SplitCancel).Some?
      && var w3 := Cancel(Converted(w, c, a, ratio, parts.value.0).value, c, a.instrument, SplitCancel).value;
         ApplySplit(w, c, a, ratio) ==
           if a.terms.value.CashInLieu? then Accrue(w3, c, a.actionId, parts.value.1, a.terms.value.payable, PrincipalClaim) else Some(w3)
  {
    hide V, Mul, Fits, Fractional, Accrue, Cancel, ScaleReference, Held;
  }

  lemma ConvertedShape(w: Work, c: Context, a: Action, ratio: Dec, kept: Dec)
    requires V(ratio) > 0.0 && Converted(w, c, a, ratio, kept).Some?
    ensures var v := Converted(w, c, a, ratio, kept).value;
      && v == w.(positions := w.positions[a.instrument := kept], shares := v.shares, state := v.state, converted := v.converted)
      && v.state == w.state.(references := v.state.references,
                             boundaries := w.state.boundaries[a.instrument := c.batch.session.openAt])
  {
    hide V, PriorReference, Scaled, Held;
  }

  lemma ConvertedKeeps(w: Work, c: Context, a: Action, ratio: Dec, kept: Dec)
    requires V(ratio) > 0.0 && a.instrument !in w.state.closed && V(kept) >= 0.0 && Converted(w, c, a, ratio, kept).Some?
    ensures Keeps(w, Converted(w, c, a, ratio, kept).value, c.batch.session.openAt)
    ensures a.instrument in Converted(w, c, a, ratio, kept).value.state.boundaries
  {
    hide V, Keeps, ClaimsBacked, Converted;
    ConvertedShape(w, c, a, ratio, kept);
    PositionsKeep(w, Converted(w, c, a, ratio, kept).value, c.batch.session.openAt);
  }

  lemma SplitKeeps(w: Work, c: Context, a: Action, ratio: Dec)
    requires V(ratio) > 0.0 && a.instrument !in w.state.closed && ApplySplit(w, c, a, ratio).Some?
    ensures Keeps(w, ApplySplit(w, c, a, ratio).value, c.batch.session.openAt)
  {
    hide *;
    SplitShape(w, c, a, ratio);
    var openAt := c.batch.session.openAt;
    var quantity := Mul(Held(w.positions, a.instrument), ratio);
    var parts := Fractional(quantity, a.terms.value, c.batch.policy).value;
    KeptIsNonNegative(quantity, a.terms.value, c.batch.policy);
    ConvertedKeeps(w, c, a, ratio, parts.0);
    var w2 := Converted(w, c, a, ratio, parts.0).value;
    CancelKeeps(w2, c, a.instrument, SplitCancel);
    var w3 := Cancel(w2, c, a.instrument, SplitCancel).value;
    KeepsIsTransitive(w, w2, w3, openAt);
    if a.terms.value.CashInLieu? {
      AccrueKeeps(w3, c, a.actionId, parts.1, a.terms.value.payable, PrincipalClaim);
      KeepsIsTransitive(w, w3, Accrue(w3, c, a.actionId, parts.1, a.terms.value.payable, PrincipalClaim).value, openAt);
    }
  }

  function Emptied(w: Work, a: Action): Work {
    w.(positions := w.positions - {a.instrument}, state := w.state.(closed := w.state.closed + {a.instrument}))
  }

  lemma DelistingShape(w: Work, c: Context, a: Action)
    requires ApplyDelisting(w, c, a).Some?
    ensures a.terms.Some? && Cancel(Emptied(w, a), c, a.instrument, DelistingCancel).Some?
    ensures var w2 := Cancel(Emptied(w, a), c, a.instrument, DelistingCancel).value;
      ApplyDelisting(w, c, a) ==
        match a.terms.value
        case CashSettlement(perShare, payable, _) =>
          Accrue(w2, c, a.actionId, Mul(Held(w.positions, a.instrument), perShare), payable, PrincipalClaim)
        case _ => Some(w2)
  {
    hide V, Mul, Fits, Held, Accrue, Cancel;
  }

  lemma EmptiedKeeps(w: Work, a: Action, openAt: Time)
    ensures Keeps(w, Emptied(w, a), openAt)
  {
    hide V, Keeps, ClaimsBacked;
    PositionsKeep(w, Emptied(w, a), openAt);
  }

  lemma DelistingKeeps(w: Work, c: Context, a: Action)
    requires ApplyDelisting(w, c, a).Some?
    ensures Keeps(w, ApplyDelisting(w, c, a).value, c.batch.session.openAt)
  {
    hide *;
    var openAt := c.batch.session.openAt;
    DelistingShape(w, c, a);
    EmptiedKeeps(w, a, openAt);
    CancelKeeps(Emptied(w, a), c, a.instrument, DelistingCancel);
    var w2 := Cancel(Emptied(w, a), c, a.instrument, DelistingCancel).value;
    KeepsIsTransitive(w, Emptied(w, a), w2, openAt);
    match a.terms.value
    case CashSettlement(perShare, payable, _) =>
      var amount := Mul(Held(w.positions, a.instrument), perShare);
      AccrueKeeps(w2, c, a.actionId, amount, payable, PrincipalClaim);
      KeepsIsTransitive(w, w2, Accrue(w2, c, a.actionId, amount, payable, PrincipalClaim).value, openAt);
    case _ =>
  }

  lemma ActionKeeps(w: Work, c: Context, a: Action)
    requires ApplyAction(w, c, a).Some?
    ensures Keeps(w, ApplyAction(w, c, a).value, c.batch.session.openAt)
  {
    KeepsItself(w, c.batch.session.openAt);
    hide V, InRange, ApplySplit, ApplyDelisting, Keeps, CurrentSymbol;
    match a.change
    case Split(ratio) => SplitKeeps(w, c, a, ratio);
    case Delisting => DelistingKeeps(w, c, a);
    case TickerChange(_, _) => PositionsKeep(w, ApplyAction(w, c, a).value, c.batch.session.openAt);
    case Dividend(_, _) =>
  }

  lemma KeepsItself(w: Work, openAt: Time)
    ensures Keeps(w, w, openAt)
  {
    hide V, Total, Surplus;
  }

  lemma {:induction false} ActionsKeep(w: Work, c: Context, actions: seq<Action>)
    requires ApplyActions(w, c, actions).Some?
    ensures Keeps(w, ApplyActions(w, c, actions).value, c.batch.session.openAt)
    decreases |actions|
  {
    hide ApplyAction, Keeps;
    KeepsItself(w, c.batch.session.openAt);
    if actions != [] {
      ActionKeeps(w, c, actions[0]);
      var v := ApplyAction(w, c, actions[0]).value;
      ActionsKeep(v, c, actions[1..]);
      KeepsIsTransitive(w, v, ApplyActions(v, c, actions[1..]).value, c.batch.session.openAt);
    }
  }

  // ----- Mergers -----

  /** The holding a merger leaves in its target, and the whole of what it does. */
  predicate MergesTo(w: Work, c: Context, m: Merger, held: Dec) {
    && V(held) >= 0.0 && Cancel(Merged(w, m, held), c, m.source, MergerCancel).Some?
    && ApplyMerger(w, c, m) == Some(Enrolled(Cancel(Merged(w, m, held), c, m.source, MergerCancel).value, m))
  }

  lemma MergerShape(w: Work, c: Context, m: Merger)
    requires ApplyMerger(w, c, m).Some?
    ensures m.source !in w.state.closed && m.target !in w.state.closed
    ensures exists held :: MergesTo(w, c, m, held)
  {
    hide V, Held, Mul, Add, Fits, Normalize, Checked, Cancel;
    var converted := Add(Held(w.positions - {m.source}, m.target), Mul(Held(w.positions, m.source), m.ratio));
    var held := Checked(Normalize(converted), Holding, false).value;
    assert MergesTo(w, c, m, held);
  }

  lemma MergesToIs(w: Work, c: Context, m: Merger, held: Dec)
    ensures MergesTo(w, c, m, held) <==>
      (V(held) >= 0.0 && Cancel(Merged(w, m, held), c, m.source, MergerCancel).Some?
       && ApplyMerger(w, c, m) == Some(Enrolled(Cancel(Merged(w, m, held), c, m.source, MergerCancel).value, m)))
  {
    hide V, Cancel, Merged, Enrolled, ApplyMerger;
  }

  lemma MergedKeeps(w: Work, m: Merger, held: Dec, openAt: Time)
    requires m.source !in w.state.closed && m.target !in w.state.closed && m.source != m.target && V(held) >= 0.0
    ensures Keeps(w, Merged(w, m, held), openAt)
  {
    hide V, Keeps, ClaimsBacked;
    PositionsKeep(w, Merged(w, m, held), openAt);
  }

  lemma MergerKeeps(w: Work, c: Context, m: Merger)
    requires ApplyMerger(w, c, m).Some? && m.source != m.target
    ensures Keeps(w, ApplyMerger(w, c, m).value, c.batch.session.openAt)
  {
    hide *;
    var openAt := c.batch.session.openAt;
    MergerShape(w, c, m);
    var held :| MergesTo(w, c, m, held);
    MergesToIs(w, c, m, held);
    MergedKeeps(w, m, held, openAt);
    CancelKeeps(Merged(w, m, held), c, m.source, MergerCancel);
    var w2 := Cancel(Merged(w, m, held), c, m.source, MergerCancel).value;
    KeepsIsTransitive(w, Merged(w, m, held), w2, openAt);
    EnrolledKeeps(w2, m, openAt);
    KeepsIsTransitive(w, w2, Enrolled(w2, m), openAt);
  }

  lemma EnrolledKeeps(w: Work, m: Merger, openAt: Time)
    ensures Keeps(w, Enrolled(w, m), openAt)
  {
    hide V, Keeps, ClaimsBacked;
    PositionsKeep(w, Enrolled(w, m), openAt);
  }

  lemma {:induction false} MergersKeep(w: Work, c: Context, mergers: seq<Merger>)
    requires ApplyMergers(w, c, mergers).Some? && forall m | m in mergers :: m.source != m.target
    ensures Keeps(w, ApplyMergers(w, c, mergers).value, c.batch.session.openAt)
    decreases |mergers|
  {
    hide ApplyMerger, Keeps;
    KeepsItself(w, c.batch.session.openAt);
    if mergers != [] {
      MergerKeeps(w, c, mergers[0]);
      var v := ApplyMerger(w, c, mergers[0]).value;
      MergersKeep(v, c, mergers[1..]);
      KeepsIsTransitive(w, v, ApplyMergers(v, c, mergers[1..]).value, c.batch.session.openAt);
    }
  }

  // ----- Income -----

  lemma DividendShape(w: Work, c: Context, a: Action, perShare: Dec, payable: Date)
    requires ApplyDividend(w, c, a, perShare, payable).Some?
    ensures exists amount :: ApplyDividend(w, c, a, perShare, payable) == Accrue(w, c, a.actionId, amount, payable, DividendClaim)
  {
    hide V, FromRational, Entitlement, Accrue, ConversionNamed, ValidTerms, Held;
  }

  lemma RecordKeeps(w: Work, a: Action, openAt: Time)
    ensures Keeps(w, Record(w, a), openAt)
  {
    hide V, Keeps, ClaimsBacked;
    PositionsKeep(w, Record(w, a), openAt);
  }

  lemma IncomeKeeps(w: Work, c: Context, a: Action)
    requires ApplyIncome(w, c, a).Some?
    ensures Keeps(w, ApplyIncome(w, c, a).value, c.batch.session.openAt)
  {
    hide V, ApplyDividend, Keeps, Record, Accrue;
    var openAt := c.batch.session.openAt;
    match a.change
    case Dividend(perShare, payable) =>
      DividendShape(w, c, a, perShare, payable);
      var amount :| ApplyDividend(w, c, a, perShare, payable) == Accrue(w, c, a.actionId, amount, payable, DividendClaim);
      AccrueKeeps(w, c, a.actionId, amount, payable, DividendClaim);
      var v := ApplyDividend(w, c, a, perShare, payable).value;
      RecordKeeps(v, a, openAt);
      KeepsIsTransitive(w, v, Record(v, a), openAt);
    case _ => RecordKeeps(w, a, openAt);
  }

  lemma {:induction false} IncomesKeep(w: Work, c: Context, actions: seq<Action>)
    requires ApplyIncomes(w, c, actions).Some?
    ensures Keeps(w, ApplyIncomes(w, c, actions).value, c.batch.session.openAt)
    decreases |actions|
  {
    hide ApplyIncome, Keeps;
    KeepsItself(w, c.batch.session.openAt);
    if actions != [] {
      IncomeKeeps(w, c, actions[0]);
      var v := ApplyIncome(w, c, actions[0]).value;
      IncomesKeep(v, c, actions[1..]);
      KeepsIsTransitive(w, v, ApplyIncomes(v, c, actions[1..]).value, c.batch.session.openAt);
    }
  }

  // ----- Payments -----

  lemma PayShape(w: Work, c: Context, action: Id)
    requires Pay(w, c, action).Some? && action in w.state.claims
    requires !w.state.claims[action].paid && w.state.claims[action].dueAt <= c.batch.session.openAt
    ensures ClaimOf(action) in w.obligations
    ensures var v, claim, o := Pay(w, c, action).value, w.state.claims[action], w.obligations[ClaimOf(action)];
      && V(v.cash) == V(w.cash) + V(claim.amount)
      && v == w.(cash := v.cash, state := w.state.(claims := w.state.claims[action := claim.(paid := true)]),
                 obligations := w.obligations[ClaimOf(action) := Obligation(Receivable, claim.amount, ZERO, o.dueAt, o.economicTime)])
  {
    hide V, Checked, Exact, Add;
  }

  lemma PaidSurplus(w: Work, v: Work, action: Id, p: Obligation)
    requires action in w.state.claims && ClaimOf(action) in w.obligations && Backs(w.obligations[ClaimOf(action)], w.state.claims[action])
    requires !w.state.claims[action].paid && p.kind == Receivable && p.remaining == ZERO && v.income == w.income
    requires v.obligations == w.obligations[ClaimOf(action) := p]
    requires v.state.claims == w.state.claims[action := w.state.claims[action].(paid := true)]
    requires V(v.cash) == V(w.cash) + V(w.state.claims[action].amount)
    ensures SurplusOf(v) == SurplusOf(w) && V(Total(v.obligations, Liability)) == V(Total(w.obligations, Liability))
  {
    ValueZero();
    hide V, Total, Principal;
    TotalUpdate(w.obligations, Receivable, ClaimOf(action), p);
    TotalUpdate(w.obligations, Liability, ClaimOf(action), p);
    PrincipalUpdate(w.state.claims, action, w.state.claims[action].(paid := true));
  }

  lemma PaidSound(w: Work, v: Work, action: Id, p: Obligation, openAt: Time)
    requires Sound(w) && action in w.state.claims && Backs(p, w.state.claims[action].(paid := true)) && p.kind == Receivable
    requires v == w.(obligations := w.obligations[ClaimOf(action) := p], cash := v.cash,
                     state := w.state.(claims := w.state.claims[action := w.state.claims[action].(paid := true)]))
    requires V(Total(v.obligations, Liability)) == V(Total(w.obligations, Liability))
    ensures Sound(v) && HistoryKept(w.state, v.state, openAt) && ObligationsKept(w.obligations, v.obligations)
  {
    hide V, Total;
    assert Backs(w.obligations[ClaimOf(action)], w.state.claims[action]);
  }

  lemma PayKeeps(w: Work, c: Context, action: Id)
    requires Pay(w, c, action).Some?
    ensures Keeps(w, Pay(w, c, action).value, c.batch.session.openAt)
  {
    KeepsItself(w, c.batch.session.openAt);
    if action in w.state.claims && !w.state.claims[action].paid && w.state.claims[action].dueAt <= c.batch.session.openAt {
      PayShape(w, c, action);
      hide V, Pay, Surplus, SurplusOf, HistoryKept, ObligationsKept, Empty;
      if Sound(w) {
        var v, claim, o := Pay(w, c, action).value, w.state.claims[action], w.obligations[ClaimOf(action)];
        assert Backs(o, claim);
        var p := Obligation(Receivable, claim.amount, ZERO, o.dueAt, o.economicTime);
        PaidSurplus(w, v, action, p);
        PaidSound(w, v, action, p, c.batch.session.openAt);
        hide Sound;
      }
    } else {
      hide Keeps;
    }
  }

  lemma {:induction false} PayAllKeep(w: Work, c: Context, actions: seq<Id>)
    requires PayAll(w, c, actions).Some?
    ensures Keeps(w, PayAll(w, c, actions).value, c.batch.session.openAt)
    decreases |actions|
  {
    hide Pay, Keeps;
    KeepsItself(w, c.batch.session.openAt);
    if actions != [] {
      PayKeeps(w, c, actions[0]);
      var v := Pay(w, c, actions[0]).value;
      PayAllKeep(v, c, actions[1..]);
      KeepsIsTransitive(w, v, PayAll(v, c, actions[1..]).value, c.batch.session.openAt);
    }
  }

  // ----- Whole batches -----

  lemma ConcludeKeeps(w: Work, c: Context)
    requires Conclude(w, c).Some?
    ensures Keeps(w, Conclude(w, c).value, c.batch.session.openAt)
    ensures forall i | i in Conclude(w, c).value.positions :: V(Conclude(w, c).value.positions[i]) != 0.0
  {
    hide V, PayAll, Keeps, Ordered, WithinLimits, ClaimsBacked;
    KeepsItself(w, c.batch.session.openAt);
    if c.batch.mode == PaymentMode { PayAllKeep(w, c, Ordered(w.state.claims.Keys)); }
    var paid := if c.batch.mode == PaymentMode then PayAll(w, c, Ordered(w.state.claims.Keys)).value else w;
    PositionsKeep(paid, Conclude(w, c).value, c.batch.session.openAt);
    KeepsIsTransitive(w, paid, Conclude(w, c).value, c.batch.session.openAt);
  }

  /** What is selected was offered and is new. */
  lemma ChosenAreOffered(b: Batch, applied: map<Id, Applied>)
    ensures forall m | m in Chosen(b, applied).mergers :: m in b.mergers && m.mappingId !in applied
    ensures forall a | a in Chosen(b, applied).actions :: a in b.actions && a.actionId !in applied && Newest(a, b.actions)
  {
    hide Newest;
    var keep := (a: Action) => a.actionId !in applied && Newest(a, b.actions);
    var spare := (m: Merger) => m.mappingId !in applied;
    forall m | m in Chosen(b, applied).mergers ensures m in b.mergers && m.mappingId !in applied {
      assert m in multiset(SortBy(Filter(b.mergers, spare), MergerBefore));
    }
    forall a | a in Chosen(b, applied).actions ensures a in b.actions && a.actionId !in applied && Newest(a, b.actions) {
      assert a in multiset(SortBy(Filter(b.actions, keep), ActionBefore));
    }
  }

  lemma SelectIsChosen(b: Batch, before: Balance)
    requires Select(b, before).Some?
    ensures Select(b, before).value == if b.mode == PaymentMode then Selection([], []) else Chosen(b, ActionsOf(before).applied)
    ensures b.prior == before
  {
    hide SeriesHold, ActionsFit, MergersFit, Compatible, Chosen, Affected, Stale, SessionOf;
  }

  lemma ChosenMergers(b: Batch, before: Balance)
    requires ValidBatch(b) && Select(b, before).Some?
    ensures forall m | m in Select(b, before).value.mergers :: m.source != m.target
  {
    hide V, Select, Positive, ValidAction, ValidReferenceRecord, Chosen, ActionsOf;
    SelectIsChosen(b, before);
    ChosenAreOffered(b, ActionsOf(before).applied);
    forall m | m in Select(b, before).value.mergers ensures m.source != m.target {
      assert m in b.mergers && ValidMerger(m);
    }
  }

  /** A batch keeps the claims backed, the history and the balance between income, receivables and cash. */
  lemma BatchKeeps(before: Balance, b: Batch)
    requires ValidBatch(b) && ReduceBatch(before, b).Some?
    ensures Keeps(Start(before), ReduceBatch(before, b).value, b.session.openAt)
    ensures forall i | i in ReduceBatch(before, b).value.positions :: V(ReduceBatch(before, b).value.positions[i]) != 0.0
  {
    hide V, Select, ApplyActions, ApplyMergers, ApplyIncomes, Conclude, Keeps, Start, UniqueReferences, ValidBatch;
    ChosenMergers(b, before);
    var c := Context(before, b, Select(b, before).value);
    var openAt := b.session.openAt;
    var w0 := Start(before);
    var w1 := ApplyActions(w0, c, c.selection.actions).value;
    var w2 := ApplyMergers(w1, c, c.selection.mergers).value;
    var w3 := ApplyIncomes(w2, c, c.selection.actions).value;
    ActionsKeep(w0, c, c.selection.actions);
    MergersKeep(w1, c, c.selection.mergers);
    IncomesKeep(w2, c, c.selection.actions);
    ConcludeKeeps(w3, c);
    KeepsIsTransitive(w0, w1, w2, openAt);
    KeepsIsTransitive(w0, w2, w3, openAt);
    KeepsIsTransitive(w0, w3, Conclude(w3, c).value, openAt);
  }
}
