/**
  The publishing reducer and the audit as the loops they are: working copies changed in
  place, step by step, ending where the reducer's functions say.
 */
module ReducerObject {
  import opened Options
  import opened Decimals
  import opened Contracts
  import opened Accounts
  import opened Ordering
  import opened CorporateActions
  import opened ActionSelection
  import opened BatchAudit

  // ----- Cancelling orders one by one -----

  /** Records a reason unless there is one. */
  function Defaulted(cancelled: map<Id, CancelReason>, id: Id, reason: CancelReason): map<Id, CancelReason> {
    if id in cancelled then cancelled else cancelled[id := reason]
  }

  function StaleIntents(intents: seq<Intent>, c: Context, instrument: Id): set<Id> {
    set i | i in intents && i.instrument == instrument && i.createdAt < c.batch.session.openAt :: i.intentId
  }

  function StaleOwners(owners: seq<Id>, c: Context, instrument: Id): set<Id> {
    set k | k in owners && k in c.before.owners && c.before.owners[k].intent.instrument == instrument && !c.before.owners[k].terminal
  }

  lemma CancelledMore(earlier: map<Id, CancelReason>, ids: set<Id>, id: Id, reason: CancelReason)
    ensures Defaulted(Cancelled(earlier, ids, reason), id, reason) == Cancelled(earlier, ids + {id}, reason)
  {
    var m, n := Defaulted(Cancelled(earlier, ids, reason), id, reason), Cancelled(earlier, ids + {id}, reason);
    hide Cancelled;
    assert forall k :: k in m <==> k in n;
  }

  lemma NobodyStale(earlier: map<Id, CancelReason>, c: Context, instrument: Id, reason: CancelReason)
    ensures Cancelled(earlier, StaleIntents([], c, instrument), reason) == earlier
    ensures StaleOwners([], c, instrument) == {}
  {
    assert forall k :: k in Cancelled(earlier, StaleIntents([], c, instrument), reason) <==> k in earlier;
  }

  lemma IntentStale(earlier: map<Id, CancelReason>, done: seq<Intent>, x: Intent, c: Context, instrument: Id, reason: CancelReason)
    ensures var before, now := Cancelled(earlier, StaleIntents(done, c, instrument), reason),
                               Cancelled(earlier, StaleIntents(done + [x], c, instrument), reason);
      now == if x.instrument == instrument && x.createdAt < c.batch.session.openAt then Defaulted(before, x.intentId, reason) else before
  {
    CancelledMore(earlier, StaleIntents(done, c, instrument), x.intentId, reason);
    hide Cancelled, Defaulted;
    assert StaleIntents(done + [x], c, instrument) == StaleIntents(done, c, instrument)
        + if x.instrument == instrument && x.createdAt < c.batch.session.openAt then {x.intentId} else {};
  }

  lemma OwnerStale(earlier: map<Id, CancelReason>, done: seq<Id>, k: Id, c: Context, instrument: Id, reason: CancelReason)
    requires k in c.before.owners
    ensures var intents := StaleIntents(c.batch.intents, c, instrument);
      var before, now := Cancelled(earlier, intents + StaleOwners(done, c, instrument), reason),
                         Cancelled(earlier, intents + StaleOwners(done + [k], c, instrument), reason);
      now == if c.before.owners[k].intent.instrument == instrument && !c.before.owners[k].terminal then Defaulted(before, k, reason) else before
  {
    var intents := StaleIntents(c.batch.intents, c, instrument);
    CancelledMore(earlier, intents + StaleOwners(done, c, instrument), k, reason);
    hide Cancelled, Defaulted, StaleIntents;
    var more: set<Id> := if c.before.owners[k].intent.instrument == instrument && !c.before.owners[k].terminal then {k} else {};
    assert StaleOwners(done + [k], c, instrument) == StaleOwners(done, c, instrument) + more;
    assert intents + StaleOwners(done + [k], c, instrument) == intents + StaleOwners(done, c, instrument) + more;
  }

  lemma StaleIs(owners: seq<Id>, c: Context, instrument: Id)
    requires forall k :: k in owners <==> k in c.before.owners.Keys
    ensures StaleIntents(c.batch.intents, c, instrument) + StaleOwners(owners, c, instrument) == Stale(c.batch, c.before, instrument)
  {
  }

  predicate OfThisRun(i: Intent, c: Context) { i.runId == c.before.header.runId && i.calendarId == c.before.header.calendarId }

  /** The outstanding intents and then the open owners of an instrument, one by one; an intent of another run rejects. */
  method CancelStale(earlier: map<Id, CancelReason>, c: Context, instrument: Id, reason: CancelReason)
    returns (r: Option<map<Id, CancelReason>>)
    ensures r.Some? <==> forall i | i in c.batch.intents :: OfThisRun(i, c)
    ensures r.Some? ==> r.value == Cancelled(earlier, Stale(c.batch, c.before, instrument), reason)
  {
    hide *;
    var cancelled := earlier;
    var intents, owners := c.batch.intents, Ordered(c.before.owners.Keys);
    NobodyStale(earlier, c, instrument, reason);
    assert intents[..0] == [] && owners[..0] == [];
    for i := 0 to |intents|
      invariant cancelled == Cancelled(earlier, StaleIntents(intents[..i], c, instrument), reason)
      invariant forall j | 0 <= j < i :: OfThisRun(intents[j], c)
    {
      var x := intents[i];
      if !OfThisRun(x, c) { return None; }
      assert intents[..i + 1] == intents[..i] + [x];
      IntentStale(earlier, intents[..i], x, c, instrument, reason);
      if x.instrument == instrument && x.createdAt < c.batch.session.openAt {
        cancelled := Defaulted(cancelled, x.intentId, reason);
      }
    }
    assert intents[..|intents|] == intents;
    ghost var stale := StaleIntents(intents, c, instrument);
    assert stale + {} == stale;
    for i := 0 to |owners|
      invariant cancelled == Cancelled(earlier, stale + StaleOwners(owners[..i], c, instrument), reason)
    {
      var k := owners[i];
      assert owners[..i + 1] == owners[..i] + [k] && k in c.before.owners;
      OwnerStale(earlier, owners[..i], k, c, instrument, reason);
      if c.before.owners[k].intent.instrument == instrument && !c.before.owners[k].terminal {
        cancelled := Defaulted(cancelled, k, reason);
      }
    }
    assert owners[..|owners|] == owners;
    StaleIs(owners, c, instrument);
    return Some(cancelled);
  }

  /** The reducer's dictionaries during one batch. */
  class Reduction {
    const c: Context
    var positions: map<Id, Dec>
    var shares: map<Id, Dec>
    var obligations: map<ObligationId, Obligation>
    var cash: Dec
    var income: Dec
    var state: ActionState
    var instruments: set<Id>
    var converted: set<Id>

    function Now(): Work
      reads this
    {
      Work(positions, shares, obligations, cash, income, state, instruments, converted)
    }

    constructor (c: Context)
      ensures this.c == c && Now() == Start(c.before)
    {
      this.c := c;
      positions, shares, obligations := c.before.positions, c.before.positions, c.before.obligations;
      cash, income, state := c.before.cash, c.before.income, ActionsOf(c.before);
      instruments, converted := c.before.instruments, {};
    }

    /** Records a claim and its receivable. */
    method Claim(action: Id, amount: Dec, payable: Date, kind: ClaimKind) returns (ok: bool)
      modifies this
      ensures ok == Accrue(old(Now()), c, action, amount, payable, kind).Some?
      ensures ok ==> Now() == Accrue(old(Now()), c, action, amount, payable, kind).value
    {
      hide V, Fits, Add, InRange, Checked, Exact, Due;
      var due := Due(c.batch.calendar, payable);
      if due.None? { return false; }
      if V(amount) == 0.0 { return true; }
      var key := ClaimOf(action);
      if key in obligations || action in state.claims || |obligations| >= MAX_OBLIGATIONS { return false; }
      var owed := Checked(amount, Money, true);
      if owed.None? { return false; }
      obligations := obligations[key := Obligation(Receivable, owed.value, owed.value, due.value, c.batch.session.openAt)];
      state := state.(claims := state.claims[action := Accounts.Claim(kind, owed.value, due.value, false)]);
      if kind == DividendClaim {
        var sum := Exact(Add(income, owed.value));
        if sum.None? { return false; }
        var total := Checked(sum.value, Money, false);
        if total.None? { return false; }
        income := total.value;
      }
      return true;
    }

    /** Cancels the orders on an instrument from before the opening, keeping every reason already recorded. */
    method CancelOrders(instrument: Id, reason: CancelReason) returns (ok: bool)
      modifies this`state
      ensures ok == Cancel(old(Now()), c, instrument, reason).Some?
      ensures ok ==> Now() == Cancel(old(Now()), c, instrument, reason).value
      ensures ok ==> forall k :: k in state.cancelled <==> k in old(state).cancelled || k in Stale(c.batch, c.before, instrument)
      ensures ok ==> forall k | k in state.cancelled ::
        state.cancelled[k] == if k in old(state).cancelled then old(state).cancelled[k] else reason
    {
      hide Stale, Cancelled;
      var cancelled := CancelStale(state.cancelled, c, instrument, reason);
      if cancelled.None? { return false; }
      state := state.(cancelled := cancelled.value);
      return |state.cancelled| <= 4096;
    }

    method SplitShares(a: Action, ratio: Dec) returns (ok: bool)
      requires V(ratio) > 0.0
      modifies this
      ensures ok == ApplySplit(old(Now()), c, a, ratio).Some?
      ensures ok ==> Now() == ApplySplit(old(Now()), c, a, ratio).value
    {
      hide V, Fits, Mul, Fractional, Accrue, Cancel, Held, Exact, PriorReference, Scaled;
      var quantity := Held(positions, a.instrument);
      if a.terms.None? { return false; }
      var product := Exact(Mul(quantity, ratio));
      if product.None? { return false; }
      var parts := Fractional(product.value, a.terms.value, c.batch.policy);
      if parts.None? { return false; }
      if V(quantity) != 0.0 {
        var prior := PriorReference(converted, state.references, c, a.instrument);
        if prior.None? { return false; }
        state := state.(references := state.references[a.instrument := Scaled(prior.value, ratio)]);
        converted := converted + {a.instrument};
      }
      positions := positions[a.instrument := parts.value.0];
      shares := shares[a.instrument := parts.value.0];
      state := state.(boundaries := state.boundaries[a.instrument := c.batch.session.openAt]);
      ok := CancelOrders(a.instrument, SplitCancel);
      if ok && a.terms.value.CashInLieu? {
        ok := Claim(a.actionId, parts.value.1, a.terms.value.payable, PrincipalClaim);
      }
    }

    method Delist(a: Action) returns (ok: bool)
      modifies this
      ensures ok == ApplyDelisting(old(Now()), c, a).Some?
      ensures ok ==> Now() == ApplyDelisting(old(Now()), c, a).value
    {
      hide V, Fits, Mul, Accrue, Cancel, Held, Exact;
      if a.terms.None? { return false; }
      var quantity := Held(positions, a.instrument);
      positions := positions - {a.instrument};
      state := state.(closed := state.closed + {a.instrument});
      ok := CancelOrders(a.instrument, DelistingCancel);
      if ok && a.terms.value.CashSettlement? {
        var amount := Exact(Mul(quantity, a.terms.value.amountPerShare));
        if amount.None? { return false; }
        ok := Claim(a.actionId, amount.value, a.terms.value.payable, PrincipalClaim);
      }
    }

    method Apply(a: Action) returns (ok: bool)
      modifies this
      ensures ok == ApplyAction(old(Now()), c, a).Some?
      ensures ok ==> Now() == ApplyAction(old(Now()), c, a).value
    {
      hide V, InRange, ApplySplit, ApplyDelisting, CurrentSymbol, ValidTerms;
      if a.change.Dividend? { return true; }
      if a.instrument in state.closed || !ValidAction(a) { return false; }
      match a.change
      case Split(ratio) => ok := SplitShares(a, ratio);
      case TickerChange(oldSymbol, newSymbol) =>
        var current := CurrentSymbol(state.symbols, c, a.instrument);
        if current.None? || current.value != oldSymbol { return false; }
        state := state.(symbols := state.symbols[a.instrument := newSymbol]);
        ok := true;
      case Delisting => ok := Delist(a);
    }

    method Merge(m: Merger) returns (ok: bool)
      modifies this
      ensures ok == ApplyMerger(old(Now()), c, m).Some?
      ensures ok ==> Now() == ApplyMerger(old(Now()), c, m).value
    {
      hide V, Fits, Mul, Add, Cancel, Held, Exact, Checked, Normalize, InRange;
      if m.source in state.closed || m.target in state.closed { return false; }
      var quantity := Held(positions, m.source);
      positions := positions - {m.source};
      var moved := Exact(Mul(quantity, m.ratio));
      if moved.None? { return false; }
      var sum := Exact(Add(Held(positions, m.target), moved.value));
      if sum.None? { return false; }
      var held := Checked(Normalize(sum.value), Holding, false);
      if held.None? { return false; }
      positions := positions[m.target := held.value];
      shares := (shares - {m.source})[m.target := held.value];
      state := state.(closed := state.closed + {m.source});
      ok := CancelOrders(m.source, MergerCancel);
      if ok {
        instruments := instruments + {m.target};
        state := state.(applied := state.applied[m.mappingId := Applied(m.manifest.revision, FromMerger(m))]);
      }
    }

    method Credit(a: Action) returns (ok: bool)
      modifies this
      ensures ok == ApplyIncome(old(Now()), c, a).Some?
      ensures ok ==> Now() == ApplyIncome(old(Now()), c, a).value
    {
      hide V, Accrue, Held, FromRational, Entitlement, ConversionNamed, ValidTerms;
      if a.change.Dividend? {
        if a.terms.None? { return false; }
        var terms := a.terms.value;
        if !ValidTerms(a, terms) || !terms.DividendTerms? || !ConversionNamed(c, a, terms.basis) { return false; }
        BasisPositive(a, terms);
        var amount := FromRational(Entitlement(V(Held(shares, a.instrument)), a.change.amountPerShare, terms.basis));
        if amount.None? { return false; }
        var claimed := Claim(a.actionId, amount.value, a.change.payable, DividendClaim);
        if !claimed { return false; }
      }
      state := state.(applied := state.applied[a.actionId := Applied(a.manifest.revision, FromAction(a))]);
      return true;
    }

    method PayClaim(action: Id) returns (ok: bool)
      modifies this
      ensures ok == Pay(old(Now()), c, action).Some?
      ensures ok ==> Now() == Pay(old(Now()), c, action).value
    {
      hide V, Fits, Add, Exact, Checked, InRange;
      if action !in state.claims { return true; }
      var claim, key := state.claims[action], ClaimOf(action);
      if claim.paid || claim.dueAt > c.batch.session.openAt { return true; }
      if key !in obligations || !Same(obligations[key].remaining, claim.amount) { return false; }
      var sum := Exact(Add(cash, claim.amount));
      if sum.None? { return false; }
      var total := Checked(sum.value, Money, false);
      if total.None? { return false; }
      cash := total.value;
      var o := obligations[key];
      obligations := obligations[key := Obligation(Receivable, claim.amount, ZERO, o.dueAt, o.economicTime)];
      state := state.(claims := state.claims[action := claim.(paid := true)]);
      return true;
    }
  }

  lemma BasisPositive(a: Action, terms: Terms)
    requires ValidTerms(a, terms) && terms.DividendTerms?
    ensures terms.basis.PreSplit? ==> V(terms.basis.ratio) > 0.0
  {
    hide V, InRange;
  }

  /** Runs a whole batch over the working copies. */
  method Reduce(before: Balance, b: Batch) returns (r: Option<Work>)
    ensures r == ReduceBatch(before, b)
  {
    hide V, Select, UniqueReferences, ApplyAction, ApplyMerger, ApplyIncome, Pay, Ordered, WithinLimits, NonZero, Start;
    var selection := SelectActions(b, before);
    if selection.None? { return None; }
    var c := Context(before, b, selection.value);
    if !UniqueReferences(b) { return None; }
    var w := new Reduction(c);
    var actions, mergers := selection.value.actions, selection.value.mergers;

    for i := 0 to |actions|
      invariant w.c == c && ApplyActions(w.Now(), c, actions[i..]) == ApplyActions(Start(before), c, actions)
    {
      assert actions[i..][0] == actions[i] && actions[i..][1..] == actions[i + 1..];
      var ok := w.Apply(actions[i]);
      if !ok { return None; }
    }
    ghost var w1 := w.Now();
    assert ApplyActions(Start(before), c, actions) == Some(w1);
    for i := 0 to |mergers|
      invariant w.c == c && ApplyMergers(w.Now(), c, mergers[i..]) == ApplyMergers(w1, c, mergers)
    {
      assert mergers[i..][0] == mergers[i] && mergers[i..][1..] == mergers[i + 1..];
      var ok := w.Merge(mergers[i]);
      if !ok { return None; }
    }
    ghost var w2 := w.Now();
    assert ApplyMergers(w1, c, mergers) == Some(w2);
    for i := 0 to |actions|
      invariant w.c == c && ApplyIncomes(w.Now(), c, actions[i..]) == ApplyIncomes(w2, c, actions)
    {
      assert actions[i..][0] == actions[i] && actions[i..][1..] == actions[i + 1..];
      var ok := w.Credit(actions[i]);
      if !ok { return None; }
    }
    ghost var w3 := w.Now();
    assert ApplyIncomes(w2, c, actions) == Some(w3);
    if b.mode == PaymentMode {
      var keys := Ordered(w.state.claims.Keys);
      for i := 0 to |keys|
        invariant w.c == c && PayAll(w.Now(), c, keys[i..]) == PayAll(w3, c, keys)
      {
        assert keys[i..][0] == keys[i] && keys[i..][1..] == keys[i + 1..];
        var ok := w.PayClaim(keys[i]);
        if !ok { return None; }
      }
      assert PayAll(w3, c, keys) == Some(w.Now());
    }
    w.state := w.state.(bound := Some((b.calendar, b.policy)));
    if !WithinLimits(w.state) { return None; }
    w.positions := NonZero(w.positions);
    return Some(w.Now());
  }

  /** The audit's loops: the same actions counted again in rationals. */
  method CheckActions(before: Balance, b: Batch, after: Balance) returns (accepted: bool)
    ensures accepted == AuditBatch(before, b, after)
  {
    hide V, Select, ActionAgain, MergerAgain, IncomeAgain, PayAgain, Ordered, WithinLimits, StartAgain, Matches, ActionsOf;
    var selection := SelectActions(b, before);
    if selection.None? { return false; }
    var c := Context(before, b, selection.value);
    var actions, mergers := selection.value.actions, selection.value.mergers;
    var r := StartAgain(before);
    for i := 0 to |actions|
      invariant ActionsAgain(r, c, actions[i..]) == ActionsAgain(StartAgain(before), c, actions)
    {
      assert actions[i..][0] == actions[i] && actions[i..][1..] == actions[i + 1..];
      var next := ActionAgain(r, c, actions[i]);
      if next.None? { return false; }
      r := next.value;
    }
    ghost var r1 := r;
    for i := 0 to |mergers|
      invariant MergersAgain(r, c, mergers[i..]) == MergersAgain(r1, c, mergers)
    {
      assert mergers[i..][0] == mergers[i] && mergers[i..][1..] == mergers[i + 1..];
      r := MergerAgain(r, c, mergers[i]);
    }
    ghost var r2 := r;
    for i := 0 to |actions|
      invariant IncomesAgain(r, c, actions[i..]) == IncomesAgain(r2, c, actions)
    {
      assert actions[i..][0] == actions[i] && actions[i..][1..] == actions[i + 1..];
      var next := IncomeAgain(r, c, actions[i]);
      if next.None? { return false; }
      r := next.value;
    }
    if b.mode == PaymentMode {
      ghost var r3 := r;
      var keys := Ordered(r.claims.Keys);
      for i := 0 to |keys|
        invariant PayAllAgain(r, c, keys[i..]) == PayAllAgain(r3, c, keys)
      {
        assert keys[i..][0] == keys[i] && keys[i..][1..] == keys[i + 1..];
        var next := PayAgain(r, c, keys[i]);
        if next.None? { return false; }
        r := next.value;
      }
    }
    return WithinLimits(ActionsOf(after)) && Matches(before, after, r, b);
  }
}
