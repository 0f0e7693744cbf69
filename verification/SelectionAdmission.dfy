/**
  Which openings pass the selection: what is asked of the records submitted, of the mergers,
  and of what is new among them, each told by the records themselves.
 */
module SelectionAdmission {
  import opened Options
  import opened Decimals
  import opened Contracts
  import opened Accounts
  import opened Ordering
  import opened CorporateActions
  import opened ActionSelection

  // ----- The records -----

  /** Evidence that was available at an opening and, when only archived evidence counts, had been archived. */
  predicate Available(m: Manifest, openAt: Time, b: Batch) {
    !(m.availableAt > openAt) && !(b.replay != LatestKnown && (m.ingestedAt > openAt || m.ingestedAt > b.archive))
  }

  /** A record takes effect on a scheduled day and was available, with its terms, at the opening of that day. */
  predicate Informed(a: Action, b: Batch) {
    a.effective in b.calendar.schedule
    && var openAt := b.calendar.schedule[a.effective].openAt;
       Available(a.manifest, openAt, b) && (a.terms.None? || Available(a.terms.value.manifest, openAt, b))
  }

  predicate SameKind(a: Action, c: Action) {
    || (a.change.Split? && c.change.Split?) || (a.change.TickerChange? && c.change.TickerChange?)
    || (a.change.Delisting? && c.change.Delisting?) || (a.change.Dividend? && c.change.Dividend?)
  }

  /** Two records of one action differ in revision, and the later revision is not earlier by any timestamp. */
  predicate Revises(a: Action, c: Action) {
    && SameKind(a, c) && a.instrument == c.instrument && a.effective == c.effective && a.manifest.source == c.manifest.source
    && (a.manifest.revision < c.manifest.revision || c.manifest.revision < a.manifest.revision)
    && (a.manifest.revision < c.manifest.revision ==>
          !(c.manifest.availableAt < a.manifest.availableAt) && !(c.manifest.ingestedAt < a.manifest.ingestedAt)
          && !(c.manifest.publishedAt < a.manifest.publishedAt))
  }

  /** The last revision of its action among those submitted. */
  predicate Latest(a: Action, b: Batch) {
    a in b.actions && forall c | c in b.actions && c.actionId == a.actionId :: !(c.manifest.revision > a.manifest.revision)
  }

  // ----- What is new -----

  function NewActions(b: Batch, applied: map<Id, Applied>): set<Action> { set a | a in b.actions && Latest(a, b) && a.actionId !in applied }

  function NewMergers(b: Batch, applied: map<Id, Applied>): set<Merger> { set m | m in b.mergers && m.mappingId !in applied }

  /** New actions and mergers that can take effect together. */
  predicate GoTogether(actions: set<Action>, mergers: set<Merger>) {
    && (forall a, c | a in actions && c in actions && a.change.Split? && c.change.Split? && a.instrument == c.instrument :: a == c)
    && (forall m, n | m in mergers && n in mergers :: m.source != n.target)
    && (forall m, a | m in mergers && a in actions && a.change.Dividend? :: a.instrument != m.source)
  }

  /** The instruments that new splits, delistings and mergers strike. */
  function Struck(actions: set<Action>, mergers: set<Merger>): set<Id> {
    (set a | a in actions && (a.change.Split? || a.change.Delisting?) :: a.instrument) + (set m | m in mergers :: m.source)
  }

  /** Orders on them: outstanding from before the opening, or open in the ledger. */
  function OrdersOn(b: Batch, before: Balance, struck: set<Id>): set<Id> {
    (set i | i in b.intents && i.instrument in struck && i.createdAt < b.session.openAt :: i.intentId)
    + (set k | k in before.owners && before.owners[k].intent.instrument in struck && !before.owners[k].terminal)
  }

  // ----- What passes -----

  /** The batch is for a session of the ledger's calendar, under the calendar and policy already bound, on this very balance. */
  predicate Fitting(b: Batch, before: Balance) {
    && b.session.date in b.calendar.schedule && b.calendar.schedule[b.session.date] == b.session
    && b.calendar.id == before.header.calendarId && b.prior == before
    && (ActionsOf(before).bound == None || ActionsOf(before).bound == Some((b.calendar, b.policy)))
  }

  /** Records of one action form a series; each was available; there are not too many. */
  predicate Series(b: Batch) {
    && (forall i, j | 0 <= i < |b.actions| && 0 <= j < |b.actions| && i != j && b.actions[i].actionId == b.actions[j].actionId ::
          Revises(b.actions[i], b.actions[j]))
    && (forall a | a in b.actions :: Informed(a, b))
    && |set a | a in b.actions :: a.actionId| + |b.mergers| <= 32
  }

  /** An action's last revision was applied as it is, or takes effect at this opening with its terms. */
  predicate ActionsPass(b: Batch, applied: map<Id, Applied>) {
    forall a | a in b.actions && Latest(a, b) ::
      && (a.actionId in applied ==> applied[a.actionId] == Applied(a.manifest.revision, FromAction(a)))
      && (a.actionId !in applied ==> a.effective == b.session.date && (a.change.TickerChange? || a.terms != None))
  }

  /** Mergers are distinct from each other and from actions, were available, and were applied as they are or take effect now. */
  predicate MergersPass(b: Batch, applied: map<Id, Applied>) {
    && (forall i, j | 0 <= i < j < |b.mergers| :: b.mergers[i].mappingId != b.mergers[j].mappingId)
    && (forall m, a | m in b.mergers && a in b.actions :: m.mappingId != a.actionId)
    && forall m | m in b.mergers ::
         && Available(m.manifest, b.session.openAt, b)
         && (m.mappingId in applied ==> applied[m.mappingId].source == FromMerger(m))
         && (m.mappingId !in applied ==> m.effective == b.session.date)
  }

  /** What is new comes after everything so far, goes together, and does not cancel too much. */
  predicate NewsPass(b: Batch, before: Balance) {
    var state := ActionsOf(before);
    var actions, mergers := NewActions(b, state.applied), NewMergers(b, state.applied);
    && ((actions == {} && mergers == {}) || before.latestEconomic == None || before.latestEconomic.value < b.session.openAt)
    && GoTogether(actions, mergers)
    && |OrdersOn(b, before, Struck(actions, mergers)) - state.cancelled.Keys| <= 64
  }

  predicate Passes(b: Batch, before: Balance) {
    && Fitting(b, before)
    && (b.mode == OpeningMode ==>
          && (forall i, j | 0 <= i < j < |b.intents| :: b.intents[i].intentId != b.intents[j].intentId)
          && Series(b) && ActionsPass(b, ActionsOf(before).applied) && MergersPass(b, ActionsOf(before).applied)
          && NewsPass(b, before))
  }

  // ----- The selection asks just this -----

  lemma KnownIs(m: Manifest, session: Session, b: Batch)
    ensures Known(m, session, b.replay, b.archive) <==> Available(m, session.openAt, b)
  {
  }

  lemma EligibleIs(a: Action, b: Batch)
    ensures Eligible(a, b) <==> Informed(a, b)
  {
    hide Known, Available;
    if a.effective in b.calendar.schedule {
      KnownIs(a.manifest, b.calendar.schedule[a.effective], b);
      if a.terms.Some? { KnownIs(a.terms.value.manifest, b.calendar.schedule[a.effective], b); }
    }
  }

  lemma SameSeriesIs(a: Action, c: Action)
    ensures SameSeries(a, c) <==> Revises(a, c)
  {
  }

  lemma SeriesIs(b: Batch)
    ensures SeriesHold(b) <==> Series(b)
  {
    hide SameSeries, Revises, Eligible, Informed;
    forall a, c ensures SameSeries(a, c) <==> Revises(a, c) { SameSeriesIs(a, c); }
    forall a ensures Eligible(a, b) <==> Informed(a, b) { EligibleIs(a, b); }
  }

  lemma LatestIs(a: Action, b: Batch)
    ensures Latest(a, b) <==> a in b.actions && Newest(a, b.actions)
  {
  }

  lemma ActionsPassIs(b: Batch, applied: map<Id, Applied>)
    ensures ActionsFit(b, applied) <==> ActionsPass(b, applied)
  {
    hide Newest, Latest;
    forall a ensures Latest(a, b) <==> a in b.actions && Newest(a, b.actions) { LatestIs(a, b); }
  }

  lemma MergersPassIs(b: Batch, applied: map<Id, Applied>)
    ensures MergersFit(b, applied) <==> MergersPass(b, applied)
  {
    hide Known, Available;
    forall m: Manifest ensures Known(m, b.session, b.replay, b.archive) <==> Available(m, b.session.openAt, b) { KnownIs(m, b.session, b); }
  }

  ghost predicate SameSets(s: Selection, actions: set<Action>, mergers: set<Merger>) {
    (forall a :: a in s.actions <==> a in actions) && forall m :: m in s.mergers <==> m in mergers
  }

  /** What is chosen is what is new. */
  lemma ChosenIsNew(b: Batch, applied: map<Id, Applied>)
    requires SeriesHold(b) && MergersFit(b, applied)
    ensures var s := Chosen(b, applied);
      && SameSets(s, NewActions(b, applied), NewMergers(b, applied)) && Distinct(s.actions)
  {
    hide SeriesHold, MergersFit, Chosen, Newest, Latest;
    ChosenIsSelection(b, applied);
    var s := Chosen(b, applied);
    forall a ensures a in s.actions <==> a in NewActions(b, applied) { LatestIs(a, b); }
    hide ActionBefore, MergerBefore;
  }

  lemma GoTogetherIs(s: Selection, actions: set<Action>, mergers: set<Merger>)
    requires SameSets(s, actions, mergers) && Distinct(s.actions)
    ensures Compatible(s) <==> GoTogether(actions, mergers)
  {
    if GoTogether(actions, mergers) {
      forall i, j | 0 <= i < j < |s.actions| && s.actions[i].change.Split? && s.actions[j].change.Split?
        ensures s.actions[i].instrument != s.actions[j].instrument
      {
        assert s.actions[i] in actions && s.actions[j] in actions;
      }
    }
    if Compatible(s) {
      forall a, c | a in actions && c in actions && a.change.Split? && c.change.Split? && a.instrument == c.instrument ensures a == c {
        var i :| 0 <= i < |s.actions| && s.actions[i] == a;
        var j :| 0 <= j < |s.actions| && s.actions[j] == c;
      }
    }
  }

  function Candidates(b: Batch, before: Balance, s: Selection): set<Id> { set i, k | i in Affected(s) && k in Stale(b, before, i) :: k }

  lemma OrdersAre(b: Batch, before: Balance, s: Selection, actions: set<Action>, mergers: set<Merger>)
    requires SameSets(s, actions, mergers)
    ensures Candidates(b, before, s) == OrdersOn(b, before, Struck(actions, mergers))
  {
    assert Affected(s) == Struck(actions, mergers);
    hide Struck, Affected;
    var struck := Struck(actions, mergers);
    var stale := Candidates(b, before, s);
    forall k ensures k in stale <==> k in OrdersOn(b, before, struck) {
      if k in OrdersOn(b, before, struck) {
        if k in before.owners && before.owners[k].intent.instrument in struck && !before.owners[k].terminal {
          assert k in Stale(b, before, before.owners[k].intent.instrument);
        } else {
          var i :| i in b.intents && i.instrument in struck && i.createdAt < b.session.openAt && i.intentId == k;
          assert k in Stale(b, before, i.instrument);
        }
      }
    }
  }

  lemma NewsPassIs(b: Batch, before: Balance)
    requires var applied := ActionsOf(before).applied; SeriesHold(b) && MergersFit(b, applied)
    ensures var state := ActionsOf(before); var chosen := Chosen(b, state.applied);
      NewsPass(b, before) <==>
        && ((chosen.actions != [] || chosen.mergers != []) && before.latestEconomic.Some? ==> before.latestEconomic.value < b.session.openAt)
        && Compatible(chosen)
        && |Candidates(b, before, chosen) - state.cancelled.Keys| <= 64
  {
    hide SeriesHold, MergersFit, Chosen, NewActions, NewMergers, Compatible, GoTogether, Affected, Struck, Stale, OrdersOn, ActionsOf, Distinct, SameSets, Candidates;
    var applied := ActionsOf(before).applied;
    var s, actions, mergers := Chosen(b, applied), NewActions(b, applied), NewMergers(b, applied);
    ChosenIsNew(b, applied);
    GoTogetherIs(s, actions, mergers);
    OrdersAre(b, before, s, actions, mergers);
    NothingNew(s, actions, mergers);
  }

  lemma NothingNew(s: Selection, actions: set<Action>, mergers: set<Merger>)
    requires SameSets(s, actions, mergers)
    ensures (actions == {} <==> s.actions == []) && (mergers == {} <==> s.mergers == [])
  {
    if s.actions != [] { assert s.actions[0] in actions; }
    if s.mergers != [] { assert s.mergers[0] in mergers; }
    if s.actions == [] { assert forall a :: a !in actions; }
    if s.mergers == [] { assert forall m :: m !in mergers; }
  }

  /** A batch passes the selection exactly when it fits the ledger and, at an opening, its records, its mergers and what is new among them do. */
  lemma SelectAdmits(b: Batch, before: Balance)
    ensures Select(b, before).Some? <==> Passes(b, before)
  {
    hide SeriesHold, ActionsFit, MergersFit, Chosen, Compatible, Affected, Stale, Series, ActionsPass, MergersPass, NewsPass, ActionsOf;
    SeriesIs(b);
    ActionsPassIs(b, ActionsOf(before).applied);
    MergersPassIs(b, ActionsOf(before).applied);
    if SeriesHold(b) && MergersFit(b, ActionsOf(before).applied) { NewsPassIs(b, before); }
  }

  // ----- Order of effect -----

  /** Splits take effect first, then ticker changes, delistings and dividends; those of a kind by instrument and then by identifier. */
  predicate TakesEffectBefore(a: Action, c: Action) {
    || (a.change.Split? && !c.change.Split?)
    || (a.change.TickerChange? && (c.change.Delisting? || c.change.Dividend?))
    || (a.change.Delisting? && c.change.Dividend?)
    || (SameKind(a, c) && (a.instrument < c.instrument || (a.instrument == c.instrument && a.actionId < c.actionId)))
  }

  lemma BeforeIs(a: Action, c: Action)
    requires ActionBefore(a, c) && a.actionId != c.actionId
    ensures TakesEffectBefore(a, c)
  {
  }

  /** The order in which what is selected takes effect. */
  lemma SelectionOrder(b: Batch, before: Balance)
    requires Select(b, before).Some? && b.mode == OpeningMode
    ensures var s := Select(b, before).value;
      && (forall i, j | 0 <= i < j < |s.actions| :: TakesEffectBefore(s.actions[i], s.actions[j]))
      && (forall i, j | 0 <= i < j < |s.mergers| :: s.mergers[i].mappingId < s.mergers[j].mappingId)
  {
    hide Select, ActionBefore, TakesEffectBefore, Newest;
    SelectionIsComplete(b, before);
    var s := Select(b, before).value;
    forall i, j | 0 <= i < j < |s.actions| ensures TakesEffectBefore(s.actions[i], s.actions[j]) { BeforeIs(s.actions[i], s.actions[j]); }
  }

  // ----- Dividends declared before a split -----

  /** The split that a dividend was declared before: on its instrument, under the name and at the ratio its terms state. */
  predicate SplitBehind(s: Action, a: Action, conversion: Id, ratio: Dec) {
    s.change.Split? && s.actionId == conversion && s.instrument == a.instrument && V(s.change.ratio) == V(ratio)
  }

  lemma {:induction false} FilterOne<T(!new)>(xs: seq<T>, keep: T -> bool, x: T)
    requires Distinct(xs) && x in xs && keep(x) && forall y | y in xs && keep(y) :: y == x
    ensures Filter(xs, keep) == [x]
  {
    if xs[0] == x {
      FilterNone(xs[1..], keep);
    } else {
      FilterOne(xs[1..], keep, x);
    }
  }

  lemma {:induction false} FilterNone<T(!new)>(xs: seq<T>, keep: T -> bool)
    requires forall y | y in xs :: !keep(y)
    ensures Filter(xs, keep) == []
  {
    if xs != [] { FilterNone(xs[1..], keep); }
  }

  /** A dividend on shares before a split passes exactly when the batch has that split among its actions. */
  lemma ConversionIs(c: Context, a: Action, basis: Basis)
    requires forall i, j | 0 <= i < j < |c.selection.actions| :: c.selection.actions[i].actionId != c.selection.actions[j].actionId
    ensures ConversionNamed(c, a, basis) <==>
      (basis.PreSplit? ==> exists s :: s in c.selection.actions && SplitBehind(s, a, basis.conversion, basis.ratio))
  {
    hide V;
    if basis.PreSplit? {
      var actions := c.selection.actions;
      var keep := (s: Action) => s.change.Split? && s.actionId == basis.conversion && s.instrument == a.instrument;
      if s :| s in actions && keep(s) { FilterOne(actions, keep, s); } else { FilterNone(actions, keep); }
    }
  }
}
