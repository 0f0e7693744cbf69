/**
  The two reducers agree: whatever the exact-decimal reducer computes, the rational audit
  recomputes, step by step and for whole batches.
 */
module ReducerAgreement {
  import opened Options
  import opened Decimals
  import opened Contracts
  import opened Accounts
  import opened Ordering
  import opened CorporateActions
  import opened BatchAudit

  /** The working copies, seen in rationals. */
  function Reals(w: Work): Recount {
    Recount(Values(w.positions), Values(w.shares), RealObligations(w.obligations), V(w.cash), V(w.income),
            w.state.applied, w.state.symbols, w.state.cancelled, w.state.closed,
            w.state.references, w.state.boundaries, RealClaims(w.state.claims), w.instruments, w.converted)
  }

  // ----- Map projections -----

  lemma ValuesUpdate(m: map<Id, Dec>, k: Id, d: Dec)
    ensures Values(m[k := d]) == Values(m)[k := V(d)]
  {
    hide V;
  }

  lemma ValuesRemove(m: map<Id, Dec>, k: Id)
    ensures Values(m - {k}) == Values(m) - {k}
  {
    hide V;
  }

  lemma HeldShare(m: map<Id, Dec>, k: Id)
    ensures Share(Values(m), k) == V(Held(m, k))
  {
    ValueZero();
    hide V;
  }

  lemma ObligationsUpdate(m: map<ObligationId, Obligation>, k: ObligationId, o: Obligation)
    ensures RealObligations(m[k := o]) == RealObligations(m)[k := RealOf(o)]
    ensures k in RealObligations(m) <==> k in m
  {
    hide RealOf;
  }

  lemma ClaimsUpdate(m: map<Id, Claim>, k: Id, c: Claim)
    ensures RealClaims(m[k := c]) == RealClaims(m)[k := RealClaimOf(c)]
  {
    hide RealClaimOf;
  }

  lemma MoneyIsExact(d: Dec)
    requires InRange(d, Money)
    ensures ExactMoney(V(d))
  {
    hide V, Ten, FromRational;
    FromRationalFinds(d, 24);
  }

  // ----- Claims -----

  lemma AccrueAgrees(w: Work, c: Context, action: Id, amount: Dec, payable: Date, kind: ClaimKind)
    requires Accrue(w, c, action, amount, payable, kind).Some?
    ensures AccrueAgain(Reals(w), c, action, V(amount), payable, kind) == Some(Reals(Accrue(w, c, action, amount, payable, kind).value))
  {
    hide V, InRange, ExactMoney, Checked, Exact, Due, RealObligations, RealClaims, Values, Fits;
    if V(amount) != 0.0 {
      var owed := Checked(amount, Money, true).value;
      MoneyIsExact(owed);
      var due := Due(c.batch.calendar, payable).value;
      ObligationsUpdate(w.obligations, ClaimOf(action), Obligation(Receivable, owed, owed, due, c.batch.session.openAt));
      ClaimsUpdate(w.state.claims, action, Claim(kind, owed, due, false));
    }
  }

  // ----- Splits -----

  lemma NormalizedValue(d: Dec)
    requires Exact(Normalize(d)).Some?
    ensures V(Exact(Normalize(d)).value) == V(d)
  {
    hide V, Normalize, Fits;
  }

  lemma ProductIs(whole: Dec, lot: Dec)
    ensures V(Mul(whole, lot)) == V(whole) * V(lot)
  {
    hide V, Mul;
  }

  lemma FractionalAgrees(quantity: Dec, terms: Terms, policy: ActionPolicy)
    requires Fractional(quantity, terms, policy).Some?
    ensures V(Fractional(quantity, terms, policy).value.0) == Retained(V(quantity), terms)
    ensures terms.CashInLieu? ==>
      V(Fractional(quantity, terms, policy).value.1) == Product(V(quantity) - Retained(V(quantity), terms), V(terms.price))
  {
    hide V, Normalize, Fits, InRange, Checked, Exact, Mul, Sub, Whole, Add, Product;
    match terms
    case RetainExact(_, _) => NormalizedValue(quantity);
    case CashInLieu(lot, price, _, _) =>
      var whole := Whole(WholeLots(V(quantity), lot));
      ProductIs(whole, lot);
      ProductOf(Sub(quantity, Mul(whole, lot)), price);
    case _ =>
  }

  lemma ScaleAgrees(w: Work, c: Context, instrument: Id, quantity: Dec, ratio: Dec)
    requires V(ratio) > 0.0 && ScaleReference(w, c, instrument, quantity, ratio).Some?
    ensures V(quantity) != 0.0 ==> PriorReference(w.converted, w.state.references, c, instrument).Some?
    ensures ScaleReference(w, c, instrument, quantity, ratio).value ==
      if V(quantity) == 0.0 then w
      else
        var prior := PriorReference(w.converted, w.state.references, c, instrument).value;
        w.(state := w.state.(references := w.state.references[instrument := Scaled(prior, ratio)]), converted := w.converted + {instrument})
  {
    hide V, PriorReference, Scaled;
  }

  /** What a split posts, apart from the claim. */
  function SplitWork(w: Work, c: Context, a: Action, ratio: Dec, kept: Dec): Option<Work>
    requires V(ratio) > 0.0
  {
    var w1 :- Converted(w, c, a, ratio, kept);
    Cancel(w1, c, a.instrument, SplitCancel)
  }

  lemma SplitParts(w: Work, c: Context, a: Action, ratio: Dec)
    requires V(ratio) > 0.0 && ApplySplit(w, c, a, ratio).Some? && a.terms.Some?
    ensures Exact(Mul(Held(w.positions, a.instrument), ratio)).Some?
    ensures var parts := Fractional(Mul(Held(w.positions, a.instrument), ratio), a.terms.value, c.batch.policy);
      && parts.Some? && SplitWork(w, c, a, ratio, parts.value.0).Some?
      && var w3 := SplitWork(w, c, a, ratio, parts.value.0).value;
         ApplySplit(w, c, a, ratio) ==
           if a.terms.value.CashInLieu? then Accrue(w3, c, a.actionId, parts.value.1, a.terms.value.payable, PrincipalClaim) else Some(w3)
  {
    hide V, Mul, Fits, Fractional, Accrue, Cancel, ScaleReference;
  }

  lemma SplitWorkAgrees(w: Work, c: Context, a: Action, ratio: Dec, kept: Dec)
    requires V(ratio) > 0.0 && SplitWork(w, c, a, ratio, kept).Some?
    ensures var r2 := Rebase(Reals(w), c, a.instrument, V(Held(w.positions, a.instrument)), V(ratio), V(kept));
      r2.Some? && Reals(SplitWork(w, c, a, ratio, kept).value) == CancelAgain(r2.value, c, a.instrument, SplitCancel)
  {
    hide V, PriorReference, Values, RealObligations, RealClaims, ScaleReference, Held, Stale, Cancelled, Quotient;
    ScaleAgrees(w, c, a.instrument, Held(w.positions, a.instrument), ratio);
    ValuesUpdate(w.positions, a.instrument, kept);
    ValuesUpdate(w.shares, a.instrument, kept);
  }

  /** One recount with the obligations, claims and income of another. */
  function Owing(r: Recount, owed: Recount): Recount {
    r.(obligations := owed.obligations, claims := owed.claims, income := owed.income)
  }

  lemma AccrueCommutes(r: Recount, q: Recount, c: Context, action: Id, amount: real, payable: Date, kind: ClaimKind)
    requires r == Owing(r, q) && AccrueAgain(q, c, action, amount, payable, kind).Some?
    ensures var owed := AccrueAgain(q, c, action, amount, payable, kind).value;
      AccrueAgain(r, c, action, amount, payable, kind) == Some(Owing(r, owed)) && owed == Owing(q, owed)
  {
    hide Due, ExactMoney;
    var key := ClaimOf(action);
    assert r.obligations == q.obligations && r.claims == q.claims && r.income == q.income;
    if amount != 0.0 { assert key !in q.obligations; }
  }

  lemma RebaseCommutes(r: Recount, owed: Recount, c: Context, instrument: Id, original: real, ratio: real, retained: real)
    requires ratio > 0.0 && Rebase(r, c, instrument, original, ratio, retained).Some?
    ensures Rebase(Owing(r, owed), c, instrument, original, ratio, retained)
         == Some(Owing(Rebase(r, c, instrument, original, ratio, retained).value, owed))
  {
    hide PriorReference, Quotient;
  }

  lemma CancelCommutes(r: Recount, owed: Recount, c: Context, instrument: Id, reason: CancelReason)
    ensures CancelAgain(Owing(r, owed), c, instrument, reason) == Owing(CancelAgain(r, c, instrument, reason), owed)
  {
    hide Cancelled, Stale;
  }

  /** Neither converting shares nor cancelling orders touches what is owed. */
  lemma ConvertingOwesNothing(r: Recount, c: Context, instrument: Id, original: real, ratio: real, retained: real, reason: CancelReason)
    requires ratio > 0.0 && Rebase(r, c, instrument, original, ratio, retained).Some?
    ensures var q := CancelAgain(Rebase(r, c, instrument, original, ratio, retained).value, c, instrument, reason);
      r == Owing(r, q)
  {
    hide Cancelled, Stale, PriorReference, Quotient;
  }

  lemma SplitSteps(r: Recount, c: Context, a: Action, ratio: real, r1: Recount, r2: Recount)
    requires ratio > 0.0 && a.terms.Some?
    requires var converted := Product(Share(r.quantities, a.instrument), ratio);
      var retained := Retained(converted, a.terms.value);
      && AccrueInLieu(r, c, a, a.terms.value, converted - retained) == Some(r1)
      && Rebase(r1, c, a.instrument, Share(r.quantities, a.instrument), ratio, retained) == Some(r2)
    ensures SplitAgain(r, c, a, ratio) == Some(CancelAgain(r2, c, a.instrument, SplitCancel))
  {
    hide AccrueInLieu, Rebase, CancelAgain, Retained, Share, Product;
  }

  lemma InLieu(r: Recount, c: Context, a: Action, terms: Terms, remainder: real)
    ensures AccrueInLieu(r, c, a, terms, remainder) ==
      if terms.CashInLieu? then AccrueAgain(r, c, a.actionId, Product(remainder, V(terms.price)), terms.payable, PrincipalClaim) else Some(r)
  {
    hide AccrueAgain, Product, V;
  }

  lemma SplitAgrees(w: Work, c: Context, a: Action, ratio: Dec)
    requires V(ratio) > 0.0 && ApplySplit(w, c, a, ratio).Some?
    ensures SplitAgain(Reals(w), c, a, V(ratio)) == Some(Reals(ApplySplit(w, c, a, ratio).value))
  {
    hide *;
    TermsPresent(w, c, a, ratio);
    var terms, quantity, r := a.terms.value, Held(w.positions, a.instrument), Reals(w);
    var converted := Mul(quantity, ratio);
    SplitParts(w, c, a, ratio);
    var parts := Fractional(converted, terms, c.batch.policy).value;
    FractionalAgrees(converted, terms, c.batch.policy);
    HeldShare(w.positions, a.instrument);
    RealsFields(w);
    ProductOf(quantity, ratio);
    SplitWorkAgrees(w, c, a, ratio, parts.0);
    var w3 := SplitWork(w, c, a, ratio, parts.0).value;
    InLieu(r, c, a, terms, V(converted) - V(parts.0));
    var r2 := Rebase(r, c, a.instrument, V(quantity), V(ratio), V(parts.0)).value;
    if terms.CashInLieu? {
      AccrueAgrees(w3, c, a.actionId, parts.1, terms.payable, PrincipalClaim);
      var owed := Reals(Accrue(w3, c, a.actionId, parts.1, terms.payable, PrincipalClaim).value);
      ConvertingOwesNothing(r, c, a.instrument, V(quantity), V(ratio), V(parts.0), SplitCancel);
      AccrueCommutes(r, Reals(w3), c, a.actionId, V(parts.1), terms.payable, PrincipalClaim);
      RebaseCommutes(r, owed, c, a.instrument, V(quantity), V(ratio), V(parts.0));
      CancelCommutes(r2, owed, c, a.instrument, SplitCancel);
      SplitSteps(r, c, a, V(ratio), Owing(r, owed), Owing(r2, owed));
    } else {
      SplitSteps(r, c, a, V(ratio), r, r2);
    }
  }

  lemma RealsFields(w: Work)
    ensures Reals(w).quantities == Values(w.positions) && Reals(w).shares == Values(w.shares)
  {
  }

  lemma TermsPresent(w: Work, c: Context, a: Action, ratio: Dec)
    requires V(ratio) > 0.0 && ApplySplit(w, c, a, ratio).Some?
    ensures a.terms.Some?
  {
    hide V, Mul, Fits, Fractional, Accrue, Cancel, ScaleReference, Held;
  }

  // ----- The other actions -----

  function Delisted(w: Work, c: Context, a: Action): Option<Work> {
    Cancel(w.(positions := w.positions - {a.instrument}, state := w.state.(closed := w.state.closed + {a.instrument})),
           c, a.instrument, DelistingCancel)
  }

  function DelistedRecount(r: Recount, c: Context, a: Action): Recount {
    CancelAgain(r.(quantities := r.quantities - {a.instrument}, closed := r.closed + {a.instrument}), c, a.instrument, DelistingCancel)
  }

  lemma DelistedAgrees(w: Work, c: Context, a: Action)
    requires Delisted(w, c, a).Some?
    ensures DelistedRecount(Reals(w), c, a) == Reals(Delisted(w, c, a).value)
  {
    hide V, Values, RealObligations, RealClaims, Stale, Cancelled;
    ValuesRemove(w.positions, a.instrument);
  }

  lemma DelistingParts(w: Work, c: Context, a: Action)
    requires ApplyDelisting(w, c, a).Some?
    ensures a.terms.Some? && Delisted(w, c, a).Some?
    ensures var w2 := Delisted(w, c, a).value;
      ApplyDelisting(w, c, a) ==
        match a.terms.value
        case CashSettlement(perShare, payable, _) =>
          Accrue(w2, c, a.actionId, Mul(Held(w.positions, a.instrument), perShare), payable, PrincipalClaim)
        case _ => Some(w2)
  {
    hide V, Mul, Fits, Held, Accrue, Cancel;
  }

  lemma DelistingRecounted(r: Recount, c: Context, a: Action)
    requires a.terms.Some?
    ensures DelistingAgain(r, c, a) ==
      match a.terms.value
      case CashSettlement(perShare, payable, _) =>
        AccrueAgain(DelistedRecount(r, c, a), c, a.actionId, Product(Share(r.quantities, a.instrument), V(perShare)), payable, PrincipalClaim)
      case _ => Some(DelistedRecount(r, c, a))
  {
    hide V, Product, Share, AccrueAgain, CancelAgain;
  }

  lemma DelistingAgrees(w: Work, c: Context, a: Action)
    requires ApplyDelisting(w, c, a).Some?
    ensures DelistingAgain(Reals(w), c, a) == Some(Reals(ApplyDelisting(w, c, a).value))
  {
    hide *;
    DelistingParts(w, c, a);
    DelistingRecounted(Reals(w), c, a);
    DelistedAgrees(w, c, a);
    HeldShare(w.positions, a.instrument);
    RealsFields(w);
    match a.terms.value
    case CashSettlement(perShare, payable, _) =>
      ProductOf(Held(w.positions, a.instrument), perShare);
      AccrueAgrees(Delisted(w, c, a).value, c, a.actionId, Mul(Held(w.positions, a.instrument), perShare), payable, PrincipalClaim);
    case _ =>
  }

  lemma ActionAgrees(w: Work, c: Context, a: Action)
    requires ApplyAction(w, c, a).Some?
    ensures ActionAgain(Reals(w), c, a) == Some(Reals(ApplyAction(w, c, a).value))
  {
    hide V, InRange, SplitAgain, ApplySplit, ApplyDelisting, DelistingAgain, Reals, ValidTerms;
    match a.change
    case Split(ratio) => SplitAgrees(w, c, a, ratio);
    case Delisting => DelistingAgrees(w, c, a);
    case TickerChange(oldSymbol, newSymbol) => TickerChangeAgrees(w, c, a, oldSymbol, newSymbol);
    case Dividend(_, _) =>
  }

  lemma TickerChangeAgrees(w: Work, c: Context, a: Action, oldSymbol: Id, newSymbol: Id)
    requires ApplyTickerChange(w, c, a, oldSymbol, newSymbol).Some?
    ensures TickerChangeAgain(Reals(w), c, a, oldSymbol, newSymbol)
         == Some(Reals(ApplyTickerChange(w, c, a, oldSymbol, newSymbol).value))
  {
    hide V, Values, RealObligations, RealClaims;
  }

  lemma {:induction false} ActionsAgree(w: Work, c: Context, actions: seq<Action>)
    requires ApplyActions(w, c, actions).Some?
    ensures ActionsAgain(Reals(w), c, actions) == Some(Reals(ApplyActions(w, c, actions).value))
    decreases |actions|
  {
    hide Reals, ApplyAction, ActionAgain;
    if actions != [] {
      ActionAgrees(w, c, actions[0]);
      ActionsAgree(ApplyAction(w, c, actions[0]).value, c, actions[1..]);
    }
  }

  function MergedHolding(w: Work, m: Merger): Dec {
    Normalize(Add(Held(w.positions - {m.source}, m.target), Mul(Held(w.positions, m.source), m.ratio)))
  }

  lemma MergedHoldingValue(w: Work, m: Merger)
    ensures V(MergedHolding(w, m)) == Share(Values(w.positions) - {m.source}, m.target) + Product(Share(Values(w.positions), m.source), V(m.ratio))
  {
    hide V, Values, Held, Mul, Add, Normalize, Share, Product;
    HeldShare(w.positions, m.source);
    HeldShare(w.positions - {m.source}, m.target);
    ValuesRemove(w.positions, m.source);
    ProductOf(Held(w.positions, m.source), m.ratio);
  }

  function MergedWork(w: Work, c: Context, m: Merger, held: Dec): Option<Work> {
    var w1 :- Cancel(Merged(w, m, held), c, m.source, MergerCancel);
    Some(Enrolled(w1, m))
  }

  lemma MergerParts(w: Work, c: Context, m: Merger)
    requires ApplyMerger(w, c, m).Some?
    ensures Checked(MergedHolding(w, m), Holding, false).Some?
    ensures ApplyMerger(w, c, m) == MergedWork(w, c, m, Checked(MergedHolding(w, m), Holding, false).value)
  {
    hide V, Held, Mul, Add, Fits, Normalize, InRange, Checked, Cancel;
  }

  function MergedRecount(r: Recount, c: Context, m: Merger, held: real): Recount {
    var r1 := r.(quantities := (r.quantities - {m.source})[m.target := held], shares := (r.shares - {m.source})[m.target := held],
                 closed := r.closed + {m.source});
    var r2 := CancelAgain(r1, c, m.source, MergerCancel);
    r2.(instruments := r2.instruments + {m.target},
        applied := r2.applied[m.mappingId := Applied(m.manifest.revision, FromMerger(m))])
  }

  lemma MergedAgrees(w: Work, c: Context, m: Merger, held: Dec)
    requires MergedWork(w, c, m, held).Some?
    ensures Reals(MergedWork(w, c, m, held).value) == MergedRecount(Reals(w), c, m, V(held))
  {
    hide V, Values, RealObligations, RealClaims, Stale, Cancelled;
    ValuesRemove(w.positions, m.source);
    ValuesRemove(w.shares, m.source);
    ValuesUpdate(w.positions - {m.source}, m.target, held);
    ValuesUpdate(w.shares - {m.source}, m.target, held);
  }

  lemma MergerRecounted(r: Recount, c: Context, m: Merger)
    ensures MergerAgain(r, c, m)
         == MergedRecount(r, c, m, Share(r.quantities - {m.source}, m.target) + Product(Share(r.quantities, m.source), V(m.ratio)))
  {
    hide V, Product, Share, CancelAgain;
  }

  lemma MergerAgrees(w: Work, c: Context, m: Merger)
    requires ApplyMerger(w, c, m).Some?
    ensures MergerAgain(Reals(w), c, m) == Reals(ApplyMerger(w, c, m).value)
  {
    hide *;
    MergerParts(w, c, m);
    MergedHoldingValue(w, m);
    RealsFields(w);
    MergerRecounted(Reals(w), c, m);
    MergedAgrees(w, c, m, Checked(MergedHolding(w, m), Holding, false).value);
  }

  lemma {:induction false} MergersAgree(w: Work, c: Context, mergers: seq<Merger>)
    requires ApplyMergers(w, c, mergers).Some?
    ensures MergersAgain(Reals(w), c, mergers) == Reals(ApplyMergers(w, c, mergers).value)
    decreases |mergers|
  {
    hide Reals, ApplyMerger, MergerAgain;
    if mergers != [] {
      MergerAgrees(w, c, mergers[0]);
      MergersAgree(ApplyMerger(w, c, mergers[0]).value, c, mergers[1..]);
    }
  }

  lemma DividendAgrees(w: Work, c: Context, a: Action, perShare: Dec, payable: Date)
    requires ApplyDividend(w, c, a, perShare, payable).Some?
    ensures DividendAgain(Reals(w), c, a, V(perShare), payable) == Some(Reals(ApplyDividend(w, c, a, perShare, payable).value))
  {
    hide V, Values, Held, Share, Accrue, AccrueAgain, FromRational, InRange, ConversionNamed, Reals, Product, Quotient;
    var basis := a.terms.value.basis;
    var shares := V(Held(w.shares, a.instrument));
    var amount := FromRational(Entitlement(shares, perShare, basis)).value;
    HeldShare(w.shares, a.instrument);
    RealsFields(w);
    AccrueAgrees(w, c, a.actionId, amount, payable, DividendClaim);
  }

  lemma IncomeAgrees(w: Work, c: Context, a: Action)
    requires ApplyIncome(w, c, a).Some?
    ensures IncomeAgain(Reals(w), c, a) == Some(Reals(ApplyIncome(w, c, a).value))
  {
    hide V, Values, RealObligations, RealClaims, ApplyDividend, DividendAgain;
    match a.change
    case Dividend(perShare, payable) => DividendAgrees(w, c, a, perShare, payable);
    case _ =>
  }

  lemma {:induction false} IncomesAgree(w: Work, c: Context, actions: seq<Action>)
    requires ApplyIncomes(w, c, actions).Some?
    ensures IncomesAgain(Reals(w), c, actions) == Some(Reals(ApplyIncomes(w, c, actions).value))
    decreases |actions|
  {
    hide Reals, ApplyIncome, IncomeAgain;
    if actions != [] {
      IncomeAgrees(w, c, actions[0]);
      IncomesAgree(ApplyIncome(w, c, actions[0]).value, c, actions[1..]);
    }
  }

  lemma PayAgrees(w: Work, c: Context, action: Id)
    requires Pay(w, c, action).Some?
    ensures PayAgain(Reals(w), c, action) == Some(Reals(Pay(w, c, action).value))
  {
    ValueZero();
    hide V, Values, InRange, Fits, Add;
    if action in w.state.claims {
      var claim, key := w.state.claims[action], ClaimOf(action);
      if key in w.obligations {
        var o := w.obligations[key];
        ObligationsUpdate(w.obligations, key, Obligation(Receivable, claim.amount, ZERO, o.dueAt, o.economicTime));
      }
      ClaimsUpdate(w.state.claims, action, claim.(paid := true));
    }
  }

  lemma {:induction false} PayAllAgrees(w: Work, c: Context, actions: seq<Id>)
    requires PayAll(w, c, actions).Some?
    ensures PayAllAgain(Reals(w), c, actions) == Some(Reals(PayAll(w, c, actions).value))
    decreases |actions|
  {
    hide Reals, Pay, PayAgain;
    if actions != [] {
      PayAgrees(w, c, actions[0]);
      PayAllAgrees(Pay(w, c, actions[0]).value, c, actions[1..]);
    }
  }

  // ----- Whole batches -----

  lemma NonZeroValues(m: map<Id, Dec>)
    ensures Values(NonZero(m)) == NonZeroReal(Values(m))
  {
    hide V;
  }

  lemma ConcludeAgrees(w: Work, c: Context)
    requires Conclude(w, c).Some?
    ensures var again := if c.batch.mode == PaymentMode then PayAllAgain(Reals(w), c, Ordered(w.state.claims.Keys)) else Some(Reals(w));
      again.Some? && Reals(Conclude(w, c).value) == again.value.(quantities := NonZeroReal(again.value.quantities))
  {
    hide V, Values, RealObligations, RealClaims, PayAll, PayAllAgain, WithinLimits, Ordered, NonZero, NonZeroReal;
    if c.batch.mode == PaymentMode {
      PayAllAgrees(w, c, Ordered(w.state.claims.Keys));
      NonZeroValues(PayAll(w, c, Ordered(w.state.claims.Keys)).value.positions);
    } else {
      NonZeroValues(w.positions);
    }
  }

  /** The audit recounts exactly what the reducer publishes. */
  lemma ReducersAgree(before: Balance, b: Batch)
    requires ReduceBatch(before, b).Some?
    ensures RecountBatch(before, b).Some?
    ensures var r := RecountBatch(before, b).value;
      Reals(ReduceBatch(before, b).value) == r.(quantities := NonZeroReal(r.quantities))
  {
    hide V, Select, Reals, ApplyActions, ActionsAgain, ApplyMergers, MergersAgain, ApplyIncomes, IncomesAgain, Conclude,
      PayAllAgain, Ordered, Start, StartAgain, NonZeroReal, UniqueReferences;
    var c := Context(before, b, Select(b, before).value);
    var w1 := ApplyActions(Start(before), c, c.selection.actions).value;
    var w2 := ApplyMergers(w1, c, c.selection.mergers).value;
    var w3 := ApplyIncomes(w2, c, c.selection.actions).value;
    StartAgrees(before);
    ActionsAgree(Start(before), c, c.selection.actions);
    MergersAgree(w1, c, c.selection.mergers);
    IncomesAgree(w2, c, c.selection.actions);
    ConcludeAgrees(w3, c);
    ClaimKeys(w3);
  }

  lemma StartAgrees(before: Balance)
    ensures Reals(Start(before)) == StartAgain(before)
  {
  }

  lemma ClaimKeys(w: Work)
    ensures Reals(w).claims.Keys == w.state.claims.Keys
  {
  }
}
