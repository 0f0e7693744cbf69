/**
  Selection as it runs: actions grouped by identifier, each group checked revision by
  revision, the newest of the new ones sorted.  And what a selection is, in terms of what
  was submitted.
 */
module ActionSelection {
  import opened Options
  import opened Decimals
  import opened Contracts
  import opened Accounts
  import opened Ordering
  import opened CorporateActions

  // ----- What a selection is -----

  /**
    One action for every identifier not applied before, its newest revision, by priority,
    instrument and identifier; and every merger not applied before, by identifier.
   */
  ghost predicate IsSelection(b: Batch, applied: map<Id, Applied>, s: Selection) {
    && Sorted(s.actions, ActionBefore) && (forall i, j | 0 <= i < j < |s.actions| :: s.actions[i].actionId != s.actions[j].actionId)
    && (forall a :: a in s.actions <==> a in b.actions && a.actionId !in applied && Newest(a, b.actions))
    && Sorted(s.mergers, MergerBefore) && (forall i, j | 0 <= i < j < |s.mergers| :: s.mergers[i].mappingId != s.mergers[j].mappingId)
    && (forall m :: m in s.mergers <==> m in b.mergers && m.mappingId !in applied)
  }

  /** Sequences of the same elements, sorted, are the same if no two elements tie. */
  lemma {:induction false} SortedSame<T(!new)>(xs: seq<T>, ys: seq<T>, before: (T, T) -> bool)
    requires Sorted(xs, before) && Sorted(ys, before) && Distinct(xs) && Distinct(ys) && forall x :: x in xs <==> x in ys
    requires forall x, y | x in xs && y in xs && before(x, y) && before(y, x) :: x == y
    ensures xs == ys
  {
    if ys != [] { assert ys[0] in xs; }
    if xs != [] {
      assert xs[0] in ys;
      FirstIsLeast(ys, xs[0], before);
      FirstIsLeast(xs, ys[0], before);
      TailElements(xs);
      TailElements(ys);
      SortedSame(xs[1..], ys[1..], before);
    }
  }

  lemma FirstIsLeast<T>(xs: seq<T>, x: T, before: (T, T) -> bool)
    requires Sorted(xs, before) && x in xs
    ensures x == xs[0] || before(xs[0], x)
  {
  }

  lemma TailElements<T>(xs: seq<T>)
    requires xs != [] && Distinct(xs)
    ensures Distinct(xs[1..]) && forall x :: x in xs[1..] <==> x in xs && x != xs[0]
  {
    assert xs == [xs[0]] + xs[1..];
    forall x | x in xs[1..] ensures x != xs[0] { var i :| 0 <= i < |xs[1..]| && xs[1..][i] == x; assert xs[i + 1] == x; }
  }

  /** There is one selection of what was submitted. */
  lemma OneSelection(b: Batch, applied: map<Id, Applied>, s: Selection, t: Selection)
    requires IsSelection(b, applied, s) && IsSelection(b, applied, t)
    ensures s == t
  {
    hide Newest;
    NoTies(s.actions);
    SortedSame(s.actions, t.actions, ActionBefore);
    assert Distinct(s.mergers) && Distinct(t.mergers);
    forall m, n | m in s.mergers && n in s.mergers && MergerBefore(m, n) && MergerBefore(n, m) ensures m == n {
      var i :| 0 <= i < |s.mergers| && s.mergers[i] == m;
      var j :| 0 <= j < |s.mergers| && s.mergers[j] == n;
    }
    SortedSame(s.mergers, t.mergers, MergerBefore);
  }

  lemma NoTies(actions: seq<Action>)
    requires forall i, j | 0 <= i < j < |actions| :: actions[i].actionId != actions[j].actionId
    ensures Distinct(actions) && forall a, c | a in actions && c in actions && ActionBefore(a, c) && ActionBefore(c, a) :: a == c
  {
    forall a, c | a in actions && c in actions && ActionBefore(a, c) && ActionBefore(c, a) ensures a == c {
      var i :| 0 <= i < |actions| && actions[i] == a;
      var j :| 0 <= j < |actions| && actions[j] == c;
    }
  }

  /** Whatever is selected is the selection, and no submitted identifier that was not applied before is without an action. */
  lemma SelectionIsComplete(b: Batch, before: Balance)
    requires Select(b, before).Some? && b.mode != PaymentMode
    ensures var applied := ActionsOf(before).applied; var s := Select(b, before).value;
      && IsSelection(b, applied, s)
      && (forall a | a in b.actions && a.actionId !in applied :: exists c :: c in s.actions && c.actionId == a.actionId)
  {
    hide Select, IsSelection, SeriesHold;
    var applied := ActionsOf(before).applied;
    SelectionChecks(b, before);
    ChosenIsSelection(b, applied);
    forall a | a in b.actions && a.actionId !in applied
      ensures exists c :: c in Select(b, before).value.actions && c.actionId == a.actionId
    {
      var c := NewestExists(a, b.actions);
      SelectionHas(b, applied, Chosen(b, applied), c);
    }
  }

  lemma SelectionChecks(b: Batch, before: Balance)
    requires Select(b, before).Some? && b.mode != PaymentMode
    ensures var applied := ActionsOf(before).applied;
      Select(b, before).value == Chosen(b, applied) && SeriesHold(b) && MergersFit(b, applied)
  {
    hide SeriesHold, ActionsFit, MergersFit, Compatible, Chosen, Affected, Stale, SessionOf;
  }

  lemma SelectionHas(b: Batch, applied: map<Id, Applied>, s: Selection, a: Action)
    requires IsSelection(b, applied, s) && a in b.actions && a.actionId !in applied && Newest(a, b.actions)
    ensures a in s.actions
  {
  }

  lemma {:induction false} NewestExists(a: Action, actions: seq<Action>) returns (c: Action)
    requires a in actions
    ensures c in actions && c.actionId == a.actionId && Newest(c, actions)
  {
    c := a;
    for i := 0 to |actions|
      invariant c in actions && c.actionId == a.actionId
      invariant forall d | d in actions[..i] && d.actionId == a.actionId :: d.manifest.revision <= c.manifest.revision
    {
      assert actions[..i + 1] == actions[..i] + [actions[i]];
      if actions[i].actionId == a.actionId && actions[i].manifest.revision > c.manifest.revision { c := actions[i]; }
    }
    assert actions[..|actions|] == actions;
  }

  /** Sorting the newest of the new actions, and the new mergers, gives the selection. */
  lemma ChosenIsSelection(b: Batch, applied: map<Id, Applied>)
    requires SeriesHold(b) && MergersFit(b, applied)
    ensures IsSelection(b, applied, Chosen(b, applied))
  {
    hide Newest, SeriesHold, MergersFit, Chosen, Sorted;
    ChosenActions(b, applied);
    ChosenMergers(b, applied);
  }

  lemma ChosenActions(b: Batch, applied: map<Id, Applied>)
    requires SeriesHold(b)
    ensures var actions := Chosen(b, applied).actions;
      && Sorted(actions, ActionBefore) && (forall i, j | 0 <= i < j < |actions| :: actions[i].actionId != actions[j].actionId)
      && (forall a :: a in actions <==> a in b.actions && a.actionId !in applied && Newest(a, b.actions))
  {
    hide Newest, SeriesHold, SortBy, Filter, ActionBefore;
    var keep := (a: Action) => a.actionId !in applied && Newest(a, b.actions);
    var kept := Filter(b.actions, keep);
    OrderIsTotal();
    SortBySorts(kept, ActionBefore);
    SeriesDistinct(b, keep);
    SortedDistinct(kept, ActionBefore);
    var actions := SortBy(kept, ActionBefore);
    assert Chosen(b, applied).actions == actions;
    forall i, j | 0 <= i < j < |actions| ensures actions[i].actionId != actions[j].actionId {
      assert actions[i] in kept && actions[j] in kept;
      NewestIsOne(b, actions[i], actions[j]);
    }
  }

  lemma ChosenMergers(b: Batch, applied: map<Id, Applied>)
    requires MergersFit(b, applied)
    ensures var mergers := Chosen(b, applied).mergers;
      && Sorted(mergers, MergerBefore) && (forall i, j | 0 <= i < j < |mergers| :: mergers[i].mappingId != mergers[j].mappingId)
      && (forall m :: m in mergers <==> m in b.mergers && m.mappingId !in applied)
  {
    hide MergersFit, SortBy, Filter, MergerBefore;
    var spare := (m: Merger) => m.mappingId !in applied;
    var kept := Filter(b.mergers, spare);
    OrderIsTotal();
    SortBySorts(kept, MergerBefore);
    MergersDistinct(b, applied, spare);
    SortedDistinct(kept, MergerBefore);
    var mergers := SortBy(kept, MergerBefore);
    assert Chosen(b, applied).mergers == mergers;
    forall i, j | 0 <= i < j < |mergers| ensures mergers[i].mappingId != mergers[j].mappingId {
      assert mergers[i] in kept && mergers[j] in kept;
      MergerIsOne(b, applied, mergers[i], mergers[j]);
    }
  }

  lemma OrderIsTotal()
    ensures TotalOrder(ActionBefore) && TotalOrder(MergerBefore)
  {
  }

  /** Sorting keeps the elements, and that no two are the same. */
  lemma SortedDistinct<T(!new)>(xs: seq<T>, before: (T, T) -> bool)
    requires Distinct(xs)
    ensures Distinct(SortBy(xs, before)) && forall x :: x in SortBy(xs, before) <==> x in xs
  {
    var ys := SortBy(xs, before);
    DistinctOnce(xs);
    DistinctOnce(ys);
    hide SortBy;
    forall x ensures x in ys <==> x in xs { assert x in multiset(ys) <==> x in multiset(xs); }
  }

  lemma {:induction false} FilterDistinct<T(!new)>(xs: seq<T>, keep: T -> bool)
    requires Distinct(xs)
    ensures Distinct(Filter(xs, keep))
  {
    if xs != [] { TailElements(xs); FilterDistinct(xs[1..], keep); }
  }

  lemma SeriesDistinct(b: Batch, keep: Action -> bool)
    requires SeriesHold(b)
    ensures Distinct(Filter(b.actions, keep))
  {
    forall i, j | 0 <= i < j < |b.actions| ensures b.actions[i] != b.actions[j] {
      assert b.actions[i].actionId == b.actions[j].actionId ==> SameSeries(b.actions[i], b.actions[j]);
    }
    FilterDistinct(b.actions, keep);
  }

  lemma MergersDistinct(b: Batch, applied: map<Id, Applied>, keep: Merger -> bool)
    requires MergersFit(b, applied)
    ensures Distinct(Filter(b.mergers, keep))
  {
    FilterDistinct(b.mergers, keep);
  }

  lemma NewestIsOne(b: Batch, a: Action, c: Action)
    requires SeriesHold(b) && a in b.actions && c in b.actions && a != c && Newest(a, b.actions) && Newest(c, b.actions)
    ensures a.actionId != c.actionId
  {
    var i :| 0 <= i < |b.actions| && b.actions[i] == a;
    var j :| 0 <= j < |b.actions| && b.actions[j] == c;
  }

  lemma MergerIsOne(b: Batch, applied: map<Id, Applied>, m: Merger, n: Merger)
    requires MergersFit(b, applied) && m in b.mergers && n in b.mergers && m != n
    ensures m.mappingId != n.mappingId
  {
    var i :| 0 <= i < |b.mergers| && b.mergers[i] == m;
    var j :| 0 <= j < |b.mergers| && b.mergers[j] == n;
  }

  // ----- Groups of revisions -----

  function Group(actions: seq<Action>, id: Id): seq<Action> { Filter(actions, (a: Action) => a.actionId == id) }

  function Ids(actions: seq<Action>): set<Id> { set a | a in actions :: a.actionId }

  lemma {:induction false} FilterAppend<T(!new)>(xs: seq<T>, x: T, keep: T -> bool)
    ensures Filter(xs + [x], keep) == Filter(xs, keep) + (if keep(x) then [x] else [])
  {
    if xs == [] {
      assert [x][1..] == [] && [] + [x] == [x];
    } else {
      assert (xs + [x])[1..] == xs[1..] + [x];
      FilterAppend(xs[1..], x, keep);
    }
  }

  lemma {:induction false} FilterCounts<T(!new)>(xs: seq<T>, keep: T -> bool, x: T)
    ensures multiset(Filter(xs, keep))[x] == if keep(x) then multiset(xs)[x] else 0
  {
    if xs != [] {
      assert xs == [xs[0]] + xs[1..];
      FilterCounts(xs[1..], keep, x);
    }
  }

  lemma GroupAppend(actions: seq<Action>, a: Action)
    ensures forall id :: Group(actions + [a], id) == Group(actions, id) + (if a.actionId == id then [a] else [])
  {
    hide Filter;
    forall id ensures Group(actions + [a], id) == Group(actions, id) + (if a.actionId == id then [a] else []) {
      FilterAppend(actions, a, (c: Action) => c.actionId == id);
    }
  }

  lemma IdsAppend(actions: seq<Action>, a: Action)
    ensures Ids(actions + [a]) == Ids(actions) + {a.actionId}
  {
  }

  lemma NoGroups()
    ensures Ids([]) == {} && forall id :: Group([], id) == []
  {
  }

  method GroupActions(actions: seq<Action>) returns (groups: map<Id, seq<Action>>)
    ensures groups.Keys == Ids(actions) && forall id | id in groups :: groups[id] == Group(actions, id)
  {
    hide Group, Ids;
    NoGroups();
    assert actions[..0] == [];
    groups := map[];
    for i := 0 to |actions|
      invariant groups.Keys == Ids(actions[..i])
      invariant forall id | id in groups :: groups[id] == Group(actions[..i], id)
      invariant forall id | id !in groups :: Group(actions[..i], id) == []
    {
      var a := actions[i];
      assert actions[..i + 1] == actions[..i] + [a];
      GroupAppend(actions[..i], a);
      IdsAppend(actions[..i], a);
      groups := groups[a.actionId := (if a.actionId in groups then groups[a.actionId] else []) + [a]];
    }
    assert actions[..|actions|] == actions;
  }

  predicate ByRevision(a: Action, c: Action) { a.manifest.revision <= c.manifest.revision }

  /** What the records of one series have in common. */
  predicate SameKind(a: Action, c: Action) {
    a.instrument == c.instrument && Priority(a.change) == Priority(c.change) && a.effective == c.effective
    && a.manifest.source == c.manifest.source
  }

  /** A later revision, and no earlier by any of its timestamps. */
  predicate Revises(c: Action, a: Action) {
    && a.manifest.revision < c.manifest.revision && a.manifest.availableAt <= c.manifest.availableAt
    && a.manifest.ingestedAt <= c.manifest.ingestedAt && a.manifest.publishedAt <= c.manifest.publishedAt
  }

  ghost predicate GroupHolds(group: seq<Action>, b: Batch) {
    && Distinct(group) && (forall a, c | a in group && c in group && a != c :: SameSeries(a, c))
    && forall a | a in group :: Eligible(a, b)
  }

  /** Each record revises all before it. */
  ghost predicate Chain(group: seq<Action>) {
    forall i, j | 0 <= i < j < |group| :: SameKind(group[j], group[i]) && Revises(group[j], group[i])
  }

  /** Sorted by revision, a group holds exactly when it is a chain of eligible records. */
  lemma HoldsIsChain(group: seq<Action>, sorted: seq<Action>, b: Batch)
    requires sorted == SortBy(group, ByRevision)
    ensures Sorted(sorted, ByRevision) && |sorted| == |group| && forall a :: a in sorted <==> a in group
    ensures GroupHolds(group, b) <==> Chain(sorted) && forall a | a in sorted :: Eligible(a, b)
  {
    hide SortBy, Eligible, Chain, SameSeries, ByRevision;
    RevisionIsTotal();
    SortBySorts(group, ByRevision);
    SameMembers(group, sorted);
    if Chain(sorted) { ChainHolds(group, sorted); }
    if GroupHolds(group, b) { HoldingChain(group, sorted, b); }
  }

  lemma ChainHolds(group: seq<Action>, sorted: seq<Action>)
    requires sorted == SortBy(group, ByRevision) && Chain(sorted)
    ensures Distinct(group) && forall a, c | a in group && c in group && a != c :: SameSeries(a, c)
  {
    hide SortBy;
    SameMembers(group, sorted);
    DistinctOnce(group);
    DistinctOnce(sorted);
    assert Distinct(sorted);
    forall a, c | a in group && c in group && a != c ensures SameSeries(a, c) {
      var i :| 0 <= i < |sorted| && sorted[i] == a;
      var j :| 0 <= j < |sorted| && sorted[j] == c;
    }
  }

  lemma HoldingChain(group: seq<Action>, sorted: seq<Action>, b: Batch)
    requires sorted == SortBy(group, ByRevision) && Sorted(sorted, ByRevision) && GroupHolds(group, b)
    ensures Chain(sorted)
  {
    hide SortBy, Eligible;
    SameMembers(group, sorted);
    DistinctOnce(group);
    DistinctOnce(sorted);
    forall i, j | 0 <= i < j < |sorted| ensures SameKind(sorted[j], sorted[i]) && Revises(sorted[j], sorted[i]) {
      assert sorted[i] != sorted[j] && ByRevision(sorted[i], sorted[j]);
      assert SameSeries(sorted[i], sorted[j]);
    }
  }

  lemma RevisionIsTotal()
    ensures TotalOrder(ByRevision)
  {
  }

  lemma SameMembers<T>(xs: seq<T>, ys: seq<T>)
    requires multiset(xs) == multiset(ys)
    ensures |xs| == |ys| && forall x :: x in ys <==> x in xs
  {
    assert |multiset(xs)| == |multiset(ys)|;
    forall x ensures x in ys <==> x in xs { assert x in multiset(ys) <==> x in multiset(xs); }
  }

  lemma NoChainYet(sorted: seq<Action>)
    requires sorted != []
    ensures Chain(sorted[..0]) && Chain(sorted[..1])
  {
  }

  lemma ChainGoesOn(sorted: seq<Action>, i: nat)
    requires 0 < i < |sorted| && Chain(sorted[..i]) && SameKind(sorted[i], sorted[0]) && Revises(sorted[i], sorted[i - 1])
    ensures Chain(sorted[..i + 1])
  {
    assert forall j | 0 < j < i :: SameKind(sorted[..i][j], sorted[..i][0]);
    assert forall j | 0 <= j < i - 1 :: Revises(sorted[..i][i - 1], sorted[..i][j]);
  }

  lemma NoChain(sorted: seq<Action>, i: nat, b: Batch)
    requires i < |sorted|
    requires !SameKind(sorted[i], sorted[0]) || (i > 0 && !Revises(sorted[i], sorted[i - 1])) || !Eligible(sorted[i], b)
    ensures !(Chain(sorted) && forall a | a in sorted :: Eligible(a, b))
  {
    hide Eligible;
    assert sorted[i] in sorted;
  }

  /** Checks the revisions of one identifier in order, each against the first and the one before it. */
  method CheckGroup(group: seq<Action>, b: Batch) returns (r: Option<Action>)
    requires group != []
    ensures r.Some? <==> GroupHolds(group, b)
    ensures r.Some? ==> r.value in group && forall c | c in group :: c.manifest.revision <= r.value.manifest.revision
  {
    hide SortBy, Eligible, GroupHolds, Chain, SameKind, Revises;
    var sorted := SortBy(group, ByRevision);
    HoldsIsChain(group, sorted, b);
    var first := sorted[0];
    NoChainYet(sorted);
    for i := 0 to |sorted|
      invariant Chain(sorted[..i]) && forall j | 0 <= j < i :: Eligible(sorted[j], b) && SameKind(sorted[j], first)
    {
      var a := sorted[i];
      if !SameKind(a, first) || (i > 0 && !Revises(a, sorted[i - 1])) || !Eligible(a, b) {
        NoChain(sorted, i, b);
        return None;
      }
      if i > 0 { ChainGoesOn(sorted, i); }
    }
    assert sorted[..|sorted|] == sorted;
    var last := sorted[|sorted| - 1];
    forall c | c in group ensures c.manifest.revision <= last.manifest.revision {
      var k :| 0 <= k < |sorted| && sorted[k] == c;
    }
    return Some(last);
  }

  /** The batch's series hold exactly when each group does. */
  lemma GroupsHold(b: Batch)
    ensures (&& (forall i, j | 0 <= i < |b.actions| && 0 <= j < |b.actions| && i != j && b.actions[i].actionId == b.actions[j].actionId ::
                   SameSeries(b.actions[i], b.actions[j]))
             && forall a | a in b.actions :: Eligible(a, b))
        <==> forall id | id in Ids(b.actions) :: GroupHolds(Group(b.actions, id), b)
  {
    hide Eligible, Filter;
    if forall i, j | 0 <= i < |b.actions| && 0 <= j < |b.actions| && i != j && b.actions[i].actionId == b.actions[j].actionId ::
         SameSeries(b.actions[i], b.actions[j]) {
      SeriesGroups(b);
    }
    if forall id | id in Ids(b.actions) :: GroupHolds(Group(b.actions, id), b) { GroupsSeries(b); }
  }

  lemma SeriesGroups(b: Batch)
    requires forall i, j | 0 <= i < |b.actions| && 0 <= j < |b.actions| && i != j && b.actions[i].actionId == b.actions[j].actionId ::
      SameSeries(b.actions[i], b.actions[j])
    ensures forall id :: var g := Group(b.actions, id); Distinct(g) && forall a, c | a in g && c in g && a != c :: SameSeries(a, c)
  {
    hide Filter;
    forall i, j | 0 <= i < j < |b.actions| ensures b.actions[i] != b.actions[j] {
      assert b.actions[i].actionId == b.actions[j].actionId ==> SameSeries(b.actions[i], b.actions[j]);
    }
    forall id ensures var g := Group(b.actions, id); Distinct(g) && forall a, c | a in g && c in g && a != c :: SameSeries(a, c) {
      FilterDistinct(b.actions, (a: Action) => a.actionId == id);
      var g := Group(b.actions, id);
      forall a, c | a in g && c in g && a != c ensures SameSeries(a, c) {
        var i :| 0 <= i < |b.actions| && b.actions[i] == a;
        var j :| 0 <= j < |b.actions| && b.actions[j] == c;
      }
    }
  }

  lemma GroupsSeries(b: Batch)
    requires forall id | id in Ids(b.actions) :: GroupHolds(Group(b.actions, id), b)
    ensures forall i, j | 0 <= i < |b.actions| && 0 <= j < |b.actions| && i != j && b.actions[i].actionId == b.actions[j].actionId ::
      SameSeries(b.actions[i], b.actions[j])
    ensures forall a | a in b.actions :: Eligible(a, b)
  {
    hide Eligible, Filter, SameSeries;
    forall a | a in b.actions ensures multiset(b.actions)[a] <= 1 && Eligible(a, b) {
      var g := Group(b.actions, a.actionId);
      assert a.actionId in Ids(b.actions);
      FilterCounts(b.actions, (c: Action) => c.actionId == a.actionId, a);
      DistinctOnce(g);
      assert a in g;
    }
    DistinctOnce(b.actions);
    forall a ensures multiset(b.actions)[a] <= 1 { if a in multiset(b.actions) { assert a in b.actions; } }
    forall i, j | 0 <= i < |b.actions| && 0 <= j < |b.actions| && i != j && b.actions[i].actionId == b.actions[j].actionId
      ensures SameSeries(b.actions[i], b.actions[j])
    {
      assert b.actions[i] != b.actions[j] by { if i < j {} else { assert b.actions[j] != b.actions[i]; } }
      assert b.actions[i].actionId in Ids(b.actions);
      assert b.actions[i] in Group(b.actions, b.actions[i].actionId) && b.actions[j] in Group(b.actions, b.actions[i].actionId);
    }
  }

  // ----- The newest of the new actions -----

  predicate FitsAlone(a: Action, b: Batch, applied: map<Id, Applied>) {
    if a.actionId in applied then applied[a.actionId] == Applied(a.manifest.revision, FromAction(a))
    else a.effective == b.session.date && (a.change.TickerChange? || a.terms.Some?)
  }

  /** The newest of a group is the newest of its identifier, and the only one. */
  lemma NewestOfGroup(b: Batch, id: Id, a: Action)
    requires var g := Group(b.actions, id);
      GroupHolds(g, b) && a in g && forall c | c in g :: c.manifest.revision <= a.manifest.revision
    ensures a in b.actions && a.actionId == id && Newest(a, b.actions)
    ensures forall c | c in b.actions && c.actionId == id && Newest(c, b.actions) :: c == a
  {
    hide Filter, Eligible;
    var g := Group(b.actions, id);
    forall c | c in b.actions && c.actionId == id && Newest(c, b.actions) ensures c == a {
      assert c in g;
      assert c != a ==> SameSeries(c, a);
    }
  }

  /** What the loop over the identifiers has selected so far. */
  ghost predicate Selected(b: Batch, applied: map<Id, Applied>, done: seq<Id>, selected: seq<Action>) {
    && (forall i, j | 0 <= i < j < |selected| :: selected[i].actionId != selected[j].actionId)
    && (forall a :: a in selected <==> a in b.actions && a.actionId in done && a.actionId !in applied && Newest(a, b.actions))
  }

  ghost predicate FitSoFar(b: Batch, applied: map<Id, Applied>, done: seq<Id>) {
    && (forall id | id in done :: GroupHolds(Group(b.actions, id), b))
    && forall a | a in b.actions && a.actionId in done && Newest(a, b.actions) :: FitsAlone(a, b, applied)
  }

  lemma SelectsOn(b: Batch, applied: map<Id, Applied>, done: seq<Id>, selected: seq<Action>, id: Id, a: Action)
    requires Selected(b, applied, done, selected) && FitSoFar(b, applied, done) && id !in done && FitsAlone(a, b, applied)
    requires a in b.actions && a.actionId == id && Newest(a, b.actions) && GroupHolds(Group(b.actions, id), b)
    requires forall c | c in b.actions && c.actionId == id && Newest(c, b.actions) :: c == a
    ensures FitSoFar(b, applied, done + [id])
    ensures Selected(b, applied, done + [id], if id in applied then selected else selected + [a])
  {
    hide Newest, FitsAlone, GroupHolds, Group;
    forall i | 0 <= i < |selected| ensures selected[i].actionId != id { assert selected[i] in selected; }
  }

  lemma SelectedIsChosen(b: Batch, applied: map<Id, Applied>, done: seq<Id>, selected: seq<Action>)
    requires Selected(b, applied, done, selected) && SeriesHold(b) && forall a | a in b.actions :: a.actionId in done
    ensures SortBy(selected, ActionBefore) == Chosen(b, applied).actions
  {
    hide SortBy, Chosen, Newest, SeriesHold, ActionBefore;
    NoTies(selected);
    OrderIsTotal();
    SortBySorts(selected, ActionBefore);
    SortedDistinct(selected, ActionBefore);
    ChosenActions(b, applied);
    NoTies(Chosen(b, applied).actions);
    SortedSame(SortBy(selected, ActionBefore), Chosen(b, applied).actions, ActionBefore);
  }

  lemma FitsAll(b: Batch, applied: map<Id, Applied>, done: seq<Id>)
    requires FitSoFar(b, applied, done) && (forall a | a in b.actions :: a.actionId in done) && |Ids(b.actions)| + |b.mergers| <= 32
    ensures SeriesHold(b) && ActionsFit(b, applied)
  {
    GroupsHold(b);
    hide Eligible, SameSeries, Newest, Group;
    assert forall id | id in Ids(b.actions) :: id in done;
    assert (set a | a in b.actions :: a.actionId) == Ids(b.actions);
  }

  /** A group that fails, or a newest record that does not fit, rejects the batch. */
  lemma Misfit(b: Batch, applied: map<Id, Applied>, id: Id)
    requires id in Ids(b.actions)
    requires !GroupHolds(Group(b.actions, id), b)
          || exists a :: a in b.actions && Newest(a, b.actions) && !FitsAlone(a, b, applied)
    ensures !(SeriesHold(b) && ActionsFit(b, applied))
  {
    GroupsHold(b);
    hide Eligible, SameSeries, Newest, Group;
  }

  lemma TooMany(b: Batch)
    requires |Ids(b.actions)| + |b.mergers| > 32
    ensures !SeriesHold(b)
  {
    hide Eligible, SameSeries;
    assert (set a | a in b.actions :: a.actionId) == Ids(b.actions);
  }

  lemma GroupIsNotEmpty(actions: seq<Action>, id: Id)
    requires id in Ids(actions)
    ensures Group(actions, id) != []
  {
    hide Filter;
    var a :| a in actions && a.actionId == id;
    assert a in Group(actions, id);
  }

  /** Groups, checks and sorts the actions. */
  method SelectNewest(b: Batch, applied: map<Id, Applied>) returns (r: Option<seq<Action>>)
    ensures r.Some? <==> SeriesHold(b) && ActionsFit(b, applied)
    ensures r.Some? ==> r.value == Chosen(b, applied).actions
  {
    hide SeriesHold, ActionsFit, Chosen, GroupHolds, Group, Newest, FitsAlone, SortBy, Ordered, Selected, FitSoFar;
    var groups := GroupActions(b.actions);
    if |groups.Keys| + |b.mergers| > 32 { TooMany(b); return None; }
    var selected: seq<Action> := [];
    var ids := Ordered(groups.Keys);
    NothingSelected(b, applied);
    assert ids[..0] == [];
    for i := 0 to |ids|
      invariant Selected(b, applied, ids[..i], selected) && FitSoFar(b, applied, ids[..i])
    {
      var id := ids[i];
      assert id in groups && id in Ids(b.actions);
      assert ids[..i + 1] == ids[..i] + [id] && id !in ids[..i];
      GroupIsNotEmpty(b.actions, id);
      var newest := CheckGroup(groups[id], b);
      if newest.None? { Misfit(b, applied, id); return None; }
      var a := newest.value;
      NewestOfGroup(b, id, a);
      if !FitsAlone(a, b, applied) { Misfit(b, applied, id); return None; }
      SelectsOn(b, applied, ids[..i], selected, id, a);
      if id !in applied { selected := selected + [a]; }
    }
    assert ids[..|ids|] == ids;
    AllDone(b.actions, groups.Keys, ids);
    FitsAll(b, applied, ids);
    SelectedIsChosen(b, applied, ids, selected);
    return Some(SortBy(selected, ActionBefore));
  }

  lemma NothingSelected(b: Batch, applied: map<Id, Applied>)
    ensures Selected(b, applied, [], []) && FitSoFar(b, applied, [])
  {
    hide Newest, Group;
  }

  lemma AllDone(actions: seq<Action>, keys: set<Id>, ids: seq<Id>)
    requires keys == Ids(actions) && forall x :: x in ids <==> x in keys
    ensures forall a | a in actions :: a.actionId in ids
  {
    forall a | a in actions ensures a.actionId in ids { assert a.actionId in Ids(actions); }
  }

  // ----- Mergers -----

  predicate MergerFits(m: Merger, b: Batch, applied: map<Id, Applied>) {
    && Known(m.manifest, b.session, b.replay, b.archive)
    && (if m.mappingId in applied then applied[m.mappingId].source == FromMerger(m) else m.effective == b.session.date)
  }

  ghost predicate MergersSoFar(b: Batch, applied: map<Id, Applied>, done: seq<Merger>, seen: set<Id>) {
    && seen == Ids(b.actions) + (set m | m in done :: m.mappingId)
    && (forall j, k | 0 <= j < k < |done| :: done[j].mappingId != done[k].mappingId)
    && forall m | m in done :: m.mappingId !in Ids(b.actions) && MergerFits(m, b, applied)
  }

  lemma MergersOn(b: Batch, applied: map<Id, Applied>, done: seq<Merger>, seen: set<Id>, m: Merger)
    requires MergersSoFar(b, applied, done, seen) && m.mappingId !in seen && MergerFits(m, b, applied)
    ensures MergersSoFar(b, applied, done + [m], seen + {m.mappingId})
  {
    hide MergerFits;
    forall j | 0 <= j < |done| ensures done[j].mappingId != m.mappingId { assert done[j] in done; }
  }

  lemma MergersAll(b: Batch, applied: map<Id, Applied>, seen: set<Id>)
    requires MergersSoFar(b, applied, b.mergers, seen)
    ensures MergersFit(b, applied)
  {
    hide Known;
    assert forall a | a in b.actions :: a.actionId in Ids(b.actions);
  }

  lemma MergerMisfit(b: Batch, applied: map<Id, Applied>, i: nat, seen: set<Id>)
    requires i < |b.mergers| && MergersSoFar(b, applied, b.mergers[..i], seen)
    requires b.mergers[i].mappingId in seen || !MergerFits(b.mergers[i], b, applied)
    ensures !MergersFit(b, applied)
  {
    assert b.mergers[i] in b.mergers;
    if b.mergers[i].mappingId in seen { SeenBefore(b, applied, i, seen); }
    hide Known;
  }

  /** Checks the mergers in order against the identifiers seen so far, and sorts the new ones. */
  method SelectMergers(b: Batch, applied: map<Id, Applied>) returns (r: Option<seq<Merger>>)
    ensures r.Some? <==> MergersFit(b, applied)
    ensures r.Some? ==> r.value == Chosen(b, applied).mergers
  {
    var seen := Ids(b.actions);
    var mappings: seq<Merger> := [];
    ghost var spare := Spare(applied);
    assert b.mergers[..0] == [];
    MergersStart(b, applied);
    hide *;
    for i := 0 to |b.mergers|
      invariant MergersSoFar(b, applied, b.mergers[..i], seen) && mappings == Filter(b.mergers[..i], spare)
    {
      var m := b.mergers[i];
      assert b.mergers[..i + 1] == b.mergers[..i] + [m] && m in b.mergers;
      SpareAppend(b.mergers[..i], m, applied);
      if m.mappingId in seen || !MergerFits(m, b, applied) { MergerMisfit(b, applied, i, seen); return None; }
      MergersOn(b, applied, b.mergers[..i], seen, m);
      seen := seen + {m.mappingId};
      if m.mappingId !in applied { mappings := mappings + [m]; }
    }
    assert b.mergers[..|b.mergers|] == b.mergers;
    MergersAll(b, applied, seen);
    SparesChosen(b, applied);
    return Some(SortBy(mappings, MergerBefore));
  }

  ghost function Spare(applied: map<Id, Applied>): Merger -> bool { (m: Merger) => m.mappingId !in applied }

  lemma SpareAppend(done: seq<Merger>, m: Merger, applied: map<Id, Applied>)
    ensures Filter(done + [m], Spare(applied)) == Filter(done, Spare(applied)) + (if m.mappingId !in applied then [m] else [])
  {
    FilterAppend(done, m, Spare(applied));
  }

  lemma MergersStart(b: Batch, applied: map<Id, Applied>)
    ensures MergersSoFar(b, applied, [], Ids(b.actions)) && Filter([], Spare(applied)) == []
  {
  }

  lemma SparesChosen(b: Batch, applied: map<Id, Applied>)
    ensures Chosen(b, applied).mergers == SortBy(Filter(b.mergers, Spare(applied)), MergerBefore)
  {
    hide SortBy, Filter, Newest, ActionBefore, MergerBefore;
  }

  lemma SeenBefore(b: Batch, applied: map<Id, Applied>, i: nat, seen: set<Id>)
    requires i < |b.mergers| && MergersSoFar(b, applied, b.mergers[..i], seen) && b.mergers[i].mappingId in seen
    ensures !MergersFit(b, applied)
  {
    hide Known;
    var id := b.mergers[i].mappingId;
    if id in Ids(b.actions) {
      var a :| a in b.actions && a.actionId == id;
      assert b.mergers[i] in b.mergers;
    } else {
      var m :| m in b.mergers[..i] && m.mappingId == id;
      var j :| 0 <= j < i && b.mergers[j] == m;
    }
  }

  // ----- Selection as it runs -----

  method SelectActions(b: Batch, before: Balance) returns (r: Option<Selection>)
    ensures r == Select(b, before)
  {
    hide SeriesHold, ActionsFit, MergersFit, Compatible, Chosen, Affected, Stale, SessionOf;
    var state := ActionsOf(before);
    if !SessionOf(b.calendar, b.session) || b.calendar.id != before.header.calendarId { return None; }
    if state.bound.Some? && state.bound.value != (b.calendar, b.policy) { return None; }
    if b.prior != before { return None; }
    if b.mode == PaymentMode { return Some(Selection([], [])); }
    if exists i, j | 0 <= i < j < |b.intents| :: b.intents[i].intentId == b.intents[j].intentId { return None; }
    var actions := SelectNewest(b, state.applied);
    if actions.None? { return None; }
    var mergers := SelectMergers(b, state.applied);
    if mergers.None? { return None; }
    var chosen := Selection(actions.value, mergers.value);
    if (chosen.actions != [] || chosen.mergers != []) && before.latestEconomic.Some? && before.latestEconomic.value >= b.session.openAt {
      return None;
    }
    if !Compatible(chosen) { return None; }
    var candidates := set i, k | i in Affected(chosen) && k in Stale(b, before, i) :: k;
    if |candidates - state.cancelled.Keys| > 64 { return None; }
    return Some(chosen);
  }
}
