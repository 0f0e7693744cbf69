/**
  Safety over whole runs: what is closed stays closed and empty, what is cancelled never
  fills, fills after a split were decided after it, and each claim is settled once.
 */
module RunSafety {
  import opened Options
  import opened Decimals
  import opened Contracts
  import opened Accounts
  import opened CorporateActions
  import opened Ledger
  import opened LedgerSteps
  import opened BatchInvariants
  import opened LedgerInvariants
  import opened Replay

  // ----- The order of action histories -----

  /** Nothing recorded is undone: claims, closures and cancellations stay, split boundaries only move later. */
  predicate Grows(s: ActionState, t: ActionState) {
    && ClaimsKept(s.claims, t.claims) && s.closed <= t.closed && s.cancelled.Keys <= t.cancelled.Keys
    && forall i | i in s.boundaries :: i in t.boundaries && s.boundaries[i] <= t.boundaries[i]
  }

  lemma GrowsIsTransitive(s: ActionState, t: ActionState, u: ActionState)
    requires Grows(s, t) && Grows(t, u)
    ensures Grows(s, u)
  {
  }

  /** An event that a history allows: no closed or cancelled or stale fill, no posting to a claim. */
  predicate Respects(s: ActionState, body: Body) {
    match body
    case FillBody(p) => ActionsAllow(s, p)
    case ObligationBody(_, _, id, _, _, _, _) => !Claimed(s, id)
    case BatchBody(_) => true
  }

  lemma RespectsEarlier(s: ActionState, t: ActionState, body: Body)
    requires Grows(s, t) && Respects(t, body)
    ensures Respects(s, body)
  {
  }

  lemma StepGrows(s: State, e: Event, t: State)
    requires Accepted(s, e, t) && Settled(s.balance)
    ensures Grows(ActionsOf(s.balance), ActionsOf(t.balance)) && Respects(ActionsOf(s.balance), e.body)
  {
    hide *;
    RunRespectsItself(s);
    RunGrows(s, s);
    match e.body
    case FillBody(p) =>
      var m := FillPosted(s, e, t, p);
      PostedFillIs(s.balance, p, m, t.balance);
      ActionsOfIs(s.balance, t.balance);
      OpenInstrument(s, p);
      RespectsIs(ActionsOf(s.balance), e.body);
    case ObligationBody(_, _, _, _, _, _, _) =>
      ObligationStep(s, e, t);
      ObligationKeeps(s.balance, e.body);
      ObligationHistory(s.balance, e.body, t.balance);
      RespectsIs(ActionsOf(s.balance), e.body);
    case BatchBody(_) =>
      BatchGrows(s, e, t);
      RespectsIs(ActionsOf(s.balance), e.body);
  }

  lemma RespectsIs(s: ActionState, body: Body)
    ensures body.FillBody? ==> (Respects(s, body) <==> ActionsAllow(s, body.posting))
    ensures body.ObligationBody? ==> (Respects(s, body) <==> !Claimed(s, body.obligation))
    ensures body.BatchBody? ==> Respects(s, body)
  {
    hide ActionsAllow, Claimed;
  }

  lemma ObligationHistory(b: Balance, e: Body, a: Balance)
    requires e.ObligationBody? && PostObligation(b, e).Some? && OnlyOwes(b, PostObligation(b, e).value, e.obligation)
    requires a == PostObligation(b, e).value.(receivables := a.receivables, liabilities := a.liabilities,
                      latestEconomic := a.latestEconomic, latestObserved := a.latestObserved, prefixes := a.prefixes)
    ensures ActionsOf(a) == ActionsOf(b)
  {
    hide PostObligation;
  }

  lemma BatchGrows(s: State, e: Event, t: State)
    requires Accepted(s, e, t) && e.body.BatchBody? && Settled(s.balance)
    ensures Grows(ActionsOf(s.balance), ActionsOf(t.balance))
    ensures HistoryKept(ActionsOf(s.balance), ActionsOf(t.balance), e.body.batch.session.openAt)
  {
    hide V, Accepted, ReduceBatch, Total, Sound, ValidBatch, ObligationsKept, SurplusOf, WithinWindow, ClaimsKept;
    AnyStep(s, e, t);
    BatchStep(s, e, t);
    WindowIs(s.balance, e.body);
    BatchKeeps(s.balance, e.body.batch);
  }

  // ----- Runs -----

  /** What a run adds to the events respects the history it started from. */
  predicate RunRespects(s: State, t: State) {
    && s.events <= t.events && Grows(ActionsOf(s.balance), ActionsOf(t.balance))
    && forall k | |s.events| <= k < |t.events| :: Respects(ActionsOf(s.balance), t.events[k].body)
  }

  lemma AppendRespects(s: State, e: Event, t: State)
    requires Valid(s) && Append(s, e) == Some(t)
    ensures RunRespects(s, t)
  {
    hide Valid, Append, Grows, Respects, ActionsOf, Accepted, Settled, WithinWindow, Recorded, Totalled, Balanced, Telescopes, Total,
      EconomicTime, ObservedAt, Later, PrefixHash;
    AppendSteps(s, e, t);
    RunRespectsItself(s);
    ValidParts(s);
    if e.id !in s.eventIds {
      AnyStep(s, e, t);
      StepGrows(s, e, t);
    }
  }

  lemma RunRespectsIsTransitive(s: State, t: State, u: State)
    requires RunRespects(s, t) && RunRespects(t, u)
    ensures RunRespects(s, u)
  {
    hide Grows, Respects, ActionsOf;
    GrowsIsTransitive(ActionsOf(s.balance), ActionsOf(t.balance), ActionsOf(u.balance));
    forall k | |s.events| <= k < |u.events| ensures Respects(ActionsOf(s.balance), u.events[k].body) {
      if k < |t.events| {
        assert u.events[k] == t.events[k];
      } else {
        RespectsEarlier(ActionsOf(s.balance), ActionsOf(t.balance), u.events[k].body);
      }
    }
  }

  lemma {:induction false} RunKeepsHistory(s: State, events: seq<Event>, t: State)
    requires Valid(s) && Run(s, events) == Some(t)
    ensures RunRespects(s, t)
    decreases |events|
  {
    hide Append, Valid, RunRespects;
    if events == [] {
      RunRespectsItself(s);
    } else {
      var next := Append(s, events[0]).value;
      AppendRespects(s, events[0], next);
      AppendIsValid(s, events[0], next);
      RunKeepsHistory(next, events[1..], t);
      RunRespectsIsTransitive(s, next, t);
    }
  }

  lemma RunRespectsItself(s: State)
    ensures RunRespects(s, s)
  {
    hide Respects, ActionsOf;
  }

  /**
    Closed instruments hold nothing ever after and are never filled again; cancelled intents
    never fill; and every fill after a split was decided no earlier than its opening.
   */
  lemma ClosureIsForever(s: State, events: seq<Event>, t: State)
    requires Valid(s) && Run(s, events) == Some(t)
    ensures var before := ActionsOf(s.balance);
      && (forall i | i in before.closed :: i in ActionsOf(t.balance).closed && i !in t.balance.positions)
      && (forall k | |s.events| <= k < |t.events| && t.events[k].body.FillBody? ::
            var p := t.events[k].body.posting;
            && p.intent.instrument !in before.closed && p.intent.intentId !in before.cancelled
            && (p.intent.instrument in before.boundaries ==> before.boundaries[p.intent.instrument] <= p.binding.decisionTime))
  {
    hide Valid, Run, ActionsOf, ClaimsKept, Claimed, Recorded, Totalled, Balanced, Telescopes, ClaimsBacked;
    RunKeepsHistory(s, events, t);
    RunIsValid(s, events, t);
    ValidParts(t);
  }

  /** A claim as it was, but for possibly having been paid. */
  predicate ClaimStands(was: Claim, now: Claim) {
    now.kind == was.kind && now.amount == was.amount && now.dueAt == was.dueAt && (was.paid ==> now.paid)
  }

  lemma GrownClaims(s: ActionState, t: ActionState)
    requires Grows(s, t)
    ensures forall a | a in s.claims :: a in t.claims && ClaimStands(s.claims[a], t.claims[a])
  {
  }

  /**
    Every claim stands against one receivable of its amount, outstanding in full until it is
    paid and then at zero; it is never lost, changed or unpaid, and no posting touches it.
   */
  lemma ClaimsSettleOnce(s: State, events: seq<Event>, t: State)
    requires Valid(s) && Run(s, events) == Some(t)
    ensures var claims, now := ActionsOf(s.balance).claims, ActionsOf(t.balance).claims;
      && (forall a | a in claims :: a in now && ClaimStands(claims[a], now[a]))
      && (forall a | a in now :: ClaimOf(a) in t.balance.obligations && Backs(t.balance.obligations[ClaimOf(a)], now[a]))
      && (forall k | |s.events| <= k < |t.events| && t.events[k].body.ObligationBody? ::
            !Claimed(ActionsOf(s.balance), t.events[k].body.obligation))
  {
    hide Valid, Run, ActionsOf, Backs, Claimed, ClaimStands, Grows, RunRespects, Empty, Recorded, Totalled, Balanced, Telescopes;
    RunKeepsHistory(s, events, t);
    RunIsValid(s, events, t);
    RunGrows(s, t);
    GrownClaims(ActionsOf(s.balance), ActionsOf(t.balance));
    ValidParts(t);
  }

  /** What a run without further detail says of histories and postings. */
  lemma RunGrows(s: State, t: State)
    requires RunRespects(s, t)
    ensures Grows(ActionsOf(s.balance), ActionsOf(t.balance))
    ensures forall k | |s.events| <= k < |t.events| && t.events[k].body.ObligationBody? ::
      !Claimed(ActionsOf(s.balance), t.events[k].body.obligation)
  {
    hide Grows, Claimed, ActionsAllow, ActionsOf;
  }

  // ----- Balances of whole runs -----

  /** In every reachable ledger, cash, receivables, shares at cost and fees account for all cash, income and principal. */
  lemma EveryRunBalances(h: Header, events: seq<Event>, s: State)
    requires ValidHeader(h) && Run(Open(h), events) == Some(s)
    ensures var b := s.balance;
      V(b.cash) + V(b.receivables) - V(b.liabilities) + NetBought(s.events) + V(b.fees)
      == V(h.openingCash) + V(b.income) - V(b.expense) + Principal(ActionsOf(b).claims)
  {
    hide *;
    RunHolds(h, events, s);
    BalancedIs(s);
  }

  lemma RunHolds(h: Header, events: seq<Event>, s: State)
    requires ValidHeader(h) && Run(Open(h), events) == Some(s)
    ensures Balanced(s) && Telescopes(s) && s.balance.header == h
  {
    hide *;
    OpenIsValid(h);
    RunIsValid(Open(h), events, s);
    ValidParts(s);
  }

  /**
    In every reachable ledger the fee total is the sum of what each order owes for its
    cumulative quantity, which is the sum of its fills and within the order; and each
    session's slot is the sum of the fills in it and within the share cap.
   */
  lemma EveryRunTelescopes(h: Header, events: seq<Event>, s: State)
    requires ValidHeader(h) && Run(Open(h), events) == Some(s)
    ensures V(s.balance.fees) == Sum(Fees(s.balance.owners))
    ensures forall id | id in s.balance.owners :: OwnerHolds(s, id)
    ensures forall id | id !in s.balance.owners :: FilledBy(s.events, id) == 0.0
    ensures forall key | key in s.balance.slots :: SlotHolds(s, key)
    ensures forall key | key !in s.balance.slots :: FilledIn(s.events, key) == 0.0
  {
    hide *;
    RunHolds(h, events, s);
    TelescopesIs(s);
  }

  // ----- What a batch does -----

  /** A split sets its boundary, a delisting closes; both cancel every order from before the opening. */
  predicate TakesEffect(s: ActionState, c: Context, a: Action) {
    match a.change
    case Split(_) =>
      a.instrument in s.boundaries && s.boundaries[a.instrument] == c.batch.session.openAt
      && Stale(c.batch, c.before, a.instrument) <= s.cancelled.Keys
    case Delisting => a.instrument in s.closed && Stale(c.batch, c.before, a.instrument) <= s.cancelled.Keys
    case _ => true
  }

  predicate MergerTakesEffect(s: ActionState, c: Context, m: Merger) {
    m.source in s.closed && Stale(c.batch, c.before, m.source) <= s.cancelled.Keys
  }

  lemma EffectsLast(s: ActionState, t: ActionState, c: Context)
    requires HistoryKept(s, t, c.batch.session.openAt)
    ensures forall a | TakesEffect(s, c, a) :: TakesEffect(t, c, a)
    ensures forall m | MergerTakesEffect(s, c, m) :: MergerTakesEffect(t, c, m)
  {
    hide Stale, ClaimsKept;
  }

  lemma SplitTakesEffect(w: Work, c: Context, a: Action, ratio: Dec)
    requires Sound(w) && V(ratio) > 0.0 && a.instrument !in w.state.closed && a.change.Split? && ApplySplit(w, c, a, ratio).Some?
    ensures TakesEffect(ApplySplit(w, c, a, ratio).value.state, c, a)
  {
    hide *;
    SplitShape(w, c, a, ratio);
    var quantity := Mul(Held(w.positions, a.instrument), ratio);
    var parts := Fractional(quantity, a.terms.value, c.batch.policy).value;
    KeptIsNonNegative(quantity, a.terms.value, c.batch.policy);
    ConvertedKeeps(w, c, a, ratio, parts.0);
    ConvertedShape(w, c, a, ratio, parts.0);
    var w2 := Converted(w, c, a, ratio, parts.0).value;
    CancelKeeps(w2, c, a.instrument, SplitCancel);
    var w3 := Cancel(w2, c, a.instrument, SplitCancel).value;
    SplitEffect(w3.state, c, a);
    SoundAfter(w, w2, c.batch.session.openAt);
    SoundAfter(w2, w3, c.batch.session.openAt);
    if a.terms.value.CashInLieu? {
      AccrueKeeps(w3, c, a.actionId, parts.1, a.terms.value.payable, PrincipalClaim);
      var v := Accrue(w3, c, a.actionId, parts.1, a.terms.value.payable, PrincipalClaim).value;
      SoundAfter(w3, v, c.batch.session.openAt);
      EffectsLast(w3.state, v.state, c);
    }
  }

  lemma SplitEffect(s: ActionState, c: Context, a: Action)
    requires a.change.Split? && a.instrument in s.boundaries && s.boundaries[a.instrument] == c.batch.session.openAt
    requires Stale(c.batch, c.before, a.instrument) <= s.cancelled.Keys
    ensures TakesEffect(s, c, a)
  {
    hide Stale;
  }

  lemma SoundAfter(w: Work, v: Work, openAt: Time)
    requires Sound(w) && Keeps(w, v, openAt)
    ensures Sound(v) && HistoryKept(w.state, v.state, openAt)
  {
    hide Sound, HistoryKept, SurplusOf, ObligationsKept;
  }

  lemma DelistingTakesEffect(w: Work, c: Context, a: Action)
    requires Sound(w) && a.change.Delisting? && ApplyDelisting(w, c, a).Some?
    ensures TakesEffect(ApplyDelisting(w, c, a).value.state, c, a)
  {
    hide *;
    var openAt := c.batch.session.openAt;
    DelistingShape(w, c, a);
    EmptiedKeeps(w, a, openAt);
    var w1 := Emptied(w, a);
    CancelKeeps(w1, c, a.instrument, DelistingCancel);
    var w2 := Cancel(w1, c, a.instrument, DelistingCancel).value;
    EmptiedEffect(w, c, a, w2.state);
    SoundAfter(w, w1, openAt);
    SoundAfter(w1, w2, openAt);
    match a.terms.value
    case CashSettlement(perShare, payable, _) =>
      var amount := Mul(Held(w.positions, a.instrument), perShare);
      AccrueKeeps(w2, c, a.actionId, amount, payable, PrincipalClaim);
      var v := Accrue(w2, c, a.actionId, amount, payable, PrincipalClaim).value;
      SoundAfter(w2, v, openAt);
      EffectsLast(w2.state, v.state, c);
    case _ =>
  }

  lemma EmptiedEffect(w: Work, c: Context, a: Action, s: ActionState)
    requires a.change.Delisting? && s == Emptied(w, a).state.(cancelled := s.cancelled)
    requires Stale(c.batch, c.before, a.instrument) <= s.cancelled.Keys
    ensures TakesEffect(s, c, a)
  {
    hide Stale;
  }

  lemma ActionTakesEffect(w: Work, c: Context, a: Action)
    requires Sound(w) && ApplyAction(w, c, a).Some?
    ensures TakesEffect(ApplyAction(w, c, a).value.state, c, a)
  {
    hide V, InRange, ApplySplit, ApplyDelisting, ApplyTickerChange, Sound, Stale;
    match a.change
    case Split(ratio) => SplitTakesEffect(w, c, a, ratio);
    case Delisting => DelistingTakesEffect(w, c, a);
    case TickerChange(_, _) =>
    case Dividend(_, _) =>
  }

  lemma {:induction false} ActionsTakeEffect(w: Work, c: Context, actions: seq<Action>)
    requires Sound(w) && ApplyActions(w, c, actions).Some?
    ensures forall a | a in actions :: TakesEffect(ApplyActions(w, c, actions).value.state, c, a)
    decreases |actions|
  {
    hide ApplyAction, Sound, TakesEffect, Keeps, HistoryKept;
    if actions != [] {
      var v, openAt := ApplyAction(w, c, actions[0]).value, c.batch.session.openAt;
      ActionKeeps(w, c, actions[0]);
      SoundAfter(w, v, openAt);
      ActionTakesEffect(w, c, actions[0]);
      ActionsTakeEffect(v, c, actions[1..]);
      ActionsKeep(v, c, actions[1..]);
      SoundAfter(v, ApplyActions(v, c, actions[1..]).value, openAt);
      EffectsLast(v.state, ApplyActions(v, c, actions[1..]).value.state, c);
      assert forall a | a in actions :: a == actions[0] || a in actions[1..];
    }
  }

  lemma MergerEffect(w: Work, c: Context, m: Merger)
    requires ApplyMerger(w, c, m).Some?
    ensures MergerTakesEffect(ApplyMerger(w, c, m).value.state, c, m)
  {
    hide *;
    MergerShape(w, c, m);
    var held :| MergesTo(w, c, m, held);
    MergesToIs(w, c, m, held);
    CancelKeeps(Merged(w, m, held), c, m.source, MergerCancel);
    MergedEffect(w, c, m, held, Cancel(Merged(w, m, held), c, m.source, MergerCancel).value);
  }

  lemma MergedEffect(w: Work, c: Context, m: Merger, held: Dec, v: Work)
    requires v == Merged(w, m, held).(state := Merged(w, m, held).state.(cancelled := v.state.cancelled))
    requires Stale(c.batch, c.before, m.source) <= v.state.cancelled.Keys
    ensures MergerTakesEffect(Enrolled(v, m).state, c, m)
  {
    hide Stale;
  }

  lemma {:induction false} MergersTakeEffect(w: Work, c: Context, mergers: seq<Merger>)
    requires Sound(w) && ApplyMergers(w, c, mergers).Some? && forall m | m in mergers :: m.source != m.target
    ensures forall m | m in mergers :: MergerTakesEffect(ApplyMergers(w, c, mergers).value.state, c, m)
    decreases |mergers|
  {
    hide ApplyMerger, Sound, MergerTakesEffect, Keeps, HistoryKept;
    if mergers != [] {
      var v, openAt := ApplyMerger(w, c, mergers[0]).value, c.batch.session.openAt;
      MergerKeeps(w, c, mergers[0]);
      SoundAfter(w, v, openAt);
      MergerEffect(w, c, mergers[0]);
      MergersTakeEffect(v, c, mergers[1..]);
      MergersKeep(v, c, mergers[1..]);
      SoundAfter(v, ApplyMergers(v, c, mergers[1..]).value, openAt);
      EffectsLast(v.state, ApplyMergers(v, c, mergers[1..]).value.state, c);
      assert forall m | m in mergers :: m == mergers[0] || m in mergers[1..];
    }
  }

  /** Every selected split, delisting and merger of an accepted batch has taken effect. */
  lemma BatchTakesEffect(before: Balance, b: Batch)
    requires ValidBatch(b) && ReduceBatch(before, b).Some? && Sound(Start(before))
    ensures Select(b, before).Some?
    ensures var c := Context(before, b, Select(b, before).value);
      var s := ReduceBatch(before, b).value.state;
      && (forall a | a in c.selection.actions :: TakesEffect(s, c, a))
      && (forall m | m in c.selection.mergers :: MergerTakesEffect(s, c, m))
  {
    hide V, Select, ApplyActions, ApplyMergers, ApplyIncomes, Conclude, Keeps, Start, UniqueReferences, ValidBatch, Sound,
      TakesEffect, MergerTakesEffect, HistoryKept;
    ChosenMergers(b, before);
    var c := Context(before, b, Select(b, before).value);
    var openAt := b.session.openAt;
    var w0 := Start(before);
    var w1 := ApplyActions(w0, c, c.selection.actions).value;
    var w2 := ApplyMergers(w1, c, c.selection.mergers).value;
    var w3 := ApplyIncomes(w2, c, c.selection.actions).value;
    ActionsTakeEffect(w0, c, c.selection.actions);
    ActionsKeep(w0, c, c.selection.actions);
    SoundAfter(w0, w1, openAt);
    MergersTakeEffect(w1, c, c.selection.mergers);
    MergersKeep(w1, c, c.selection.mergers);
    SoundAfter(w1, w2, openAt);
    EffectsLast(w1.state, w2.state, c);
    IncomesKeep(w2, c, c.selection.actions);
    SoundAfter(w2, w3, openAt);
    EffectsLast(w2.state, w3.state, c);
    ConcludeKeeps(w3, c);
    SoundAfter(w3, Conclude(w3, c).value, openAt);
    EffectsLast(w3.state, Conclude(w3, c).value.state, c);
  }

  /** An action or merger already applied is never selected again. */
  lemma AppliedIsNeverSelected(b: Batch, before: Balance)
    requires Select(b, before).Some?
    ensures forall a | a in Select(b, before).value.actions :: a in b.actions && a.actionId !in ActionsOf(before).applied
    ensures forall m | m in Select(b, before).value.mergers :: m in b.mergers && m.mappingId !in ActionsOf(before).applied
  {
    hide Select, Chosen, Newest, ActionsOf;
    SelectIsChosen(b, before);
    ChosenAreOffered(b, ActionsOf(before).applied);
  }
}
