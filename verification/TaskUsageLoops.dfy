/**
  Task usage as it is computed: rows gathered one by one, the tree walked from the root, and
  each total added up with its overflow check.
 */
module TaskUsageLoops {
  import opened Options
  import opened Ordering
  import opened TaskUsage

  // ----- Gathering -----

  /** What the rows must satisfy before the tree is looked at. */
  predicate Gatherable(rows: multiset<Row>) {
    && Malformed !in rows && AgentsAgree(rows) && ResponsesAgree(rows)
    && |ParentsOf(rows)| <= MAX_AGENTS && ValidResponses(ResponsesOf(rows))
  }

  /** The state after some rows: their parents and responses, and how often each response was repeated. */
  ghost predicate Gathered(rows: multiset<Row>, parents: Parents, responses: Responses, repeats: map<Ref, nat>) {
    && Malformed !in rows && ParentsMatch(rows, parents) && ResponsesMatch(rows, responses)
    && |parents| <= MAX_AGENTS && ValidResponses(responses) && repeats.Keys == responses.Keys
    && forall q | q in responses :: rows[ResponseRow(responses[q].owner, q, responses[q].usage)] == repeats[q] + 1
  }

  lemma GatherableMatches(rows: multiset<Row>)
    requires Gatherable(rows)
    ensures ParentsMatch(rows, ParentsOf(rows)) && ResponsesMatch(rows, ResponsesOf(rows)) && Malformed !in rows
    ensures |ParentsOf(rows)| <= MAX_AGENTS && ValidResponses(ResponsesOf(rows))
  {
    hide ParentsOf, ResponsesOf, AgentsAgree, ResponsesAgree, ParentsMatch, ResponsesMatch, ValidResponses;
    ParentsAre(rows, ParentsOf(rows));
    ResponsesAre(rows, ResponsesOf(rows));
  }

  lemma GatheredIs(rows: multiset<Row>, parents: Parents, responses: Responses, repeats: map<Ref, nat>)
    requires Gathered(rows, parents, responses, repeats)
    ensures Gatherable(rows) && parents == ParentsOf(rows) && responses == ResponsesOf(rows)
  {
    ParentsAre(rows, parents);
    ResponsesAre(rows, responses);
    hide ParentsOf, ResponsesOf, AgentsAgree, ResponsesAgree, ParentsMatch, ResponsesMatch, ValidResponses;
  }

  lemma AgentJoins(rows: multiset<Row>, parents: Parents, responses: Responses, repeats: map<Ref, nat>, a: Ref, p: Option<Ref>)
    requires Gathered(rows, parents, responses, repeats) && (a in parents ==> parents[a] == p) && |parents[a := p]| <= MAX_AGENTS
    ensures Gathered(rows + multiset{AgentRow(a, p)}, parents[a := p], responses, repeats)
  {
    hide ValidResponses;
  }

  lemma RepeatsJoin(rows: multiset<Row>, responses: Responses, repeats: map<Ref, nat>, a: Ref, q: Ref, u: Usage)
    requires ResponsesMatch(rows, responses) && repeats.Keys == responses.Keys && (q in responses ==> responses[q] == Response(a, u))
    requires forall k | k in responses :: rows[ResponseRow(responses[k].owner, k, responses[k].usage)] == repeats[k] + 1
    ensures var more, now := rows + multiset{ResponseRow(a, q, u)}, responses[q := Response(a, u)];
      forall k | k in now :: more[ResponseRow(now[k].owner, k, now[k].usage)] == repeats[q := if q in responses then repeats[q] + 1 else 0][k] + 1
  {
    assert q !in responses ==> ResponseRow(a, q, u) !in rows;
    var row, more := ResponseRow(a, q, u), rows + multiset{ResponseRow(a, q, u)};
    assert more[row] == rows[row] + 1;
    hide ResponsesMatch;
    forall k | k in responses && k != q
      ensures more[ResponseRow(responses[k].owner, k, responses[k].usage)] == rows[ResponseRow(responses[k].owner, k, responses[k].usage)] {}
  }

  lemma ResponseJoins(rows: multiset<Row>, parents: Parents, responses: Responses, repeats: map<Ref, nat>, a: Ref, q: Ref, u: Usage)
    requires Gathered(rows, parents, responses, repeats) && (q in responses ==> responses[q] == Response(a, u)) && ValidUsage(u)
    ensures Gathered(rows + multiset{ResponseRow(a, q, u)}, parents, responses[q := Response(a, u)],
                     repeats[q := if q in responses then repeats[q] + 1 else 0])
  {
    hide ValidUsage, ParentsMatch, ResponsesMatch;
    RepeatsJoin(rows, responses, repeats, a, q, u);
    MatchesJoin(rows, parents, responses, a, q, u);
  }

  lemma MatchesJoin(rows: multiset<Row>, parents: Parents, responses: Responses, a: Ref, q: Ref, u: Usage)
    requires ParentsMatch(rows, parents) && ResponsesMatch(rows, responses) && (q in responses ==> responses[q] == Response(a, u))
    ensures var more := rows + multiset{ResponseRow(a, q, u)};
      ParentsMatch(more, parents) && ResponsesMatch(more, responses[q := Response(a, u)])
  {
  }

  /** In an acceptable list, an agent says what it said before, and there is room for it. */
  lemma AgentFits(before: multiset<Row>, all: multiset<Row>, parents: Parents, responses: Responses, repeats: map<Ref, nat>, a: Ref, p: Option<Ref>)
    requires Gathered(before, parents, responses, repeats) && Gatherable(all)
    requires (forall row | row in before :: row in all) && AgentRow(a, p) in all
    ensures (a in parents ==> parents[a] == p) && |parents[a := p]| <= MAX_AGENTS
  {
    hide Gatherable, ParentsOf, ResponsesOf, ResponsesMatch, ValidResponses;
    GatherableMatches(all);
    var whole := ParentsOf(all);
    assert a in parents ==> AgentRow(a, parents[a]) in all;
    forall x | x in parents[a := p] ensures x in whole { if x != a { assert AgentRow(x, parents[x]) in all; } }
    SizeOf(parents[a := p].Keys, whole.Keys);
    SizeOfKeys(parents[a := p], whole);
  }

  lemma SizeOfKeys<T>(m: map<Ref, T>, n: map<Ref, T>)
    ensures |m| == |m.Keys| && |n| == |n.Keys|
  {
  }

  lemma SizeOf(small: set<Ref>, large: set<Ref>)
    requires small <= large
    ensures |small| <= |large| && (|small| == |large| ==> small == large)
  {
    assert large == small + (large - small);
  }

  lemma ResponseFits(before: multiset<Row>, all: multiset<Row>, parents: Parents, responses: Responses, repeats: map<Ref, nat>, a: Ref, q: Ref, u: Usage)
    requires Gathered(before, parents, responses, repeats) && Gatherable(all)
    requires (forall row | row in before :: row in all) && ResponseRow(a, q, u) in all
    ensures (q in responses ==> responses[q] == Response(a, u)) && ValidUsage(u)
  {
    hide Gatherable, ParentsOf, ResponsesOf, ParentsMatch, ValidUsage;
    GatherableMatches(all);
    assert q in responses ==> ResponseRow(responses[q].owner, q, responses[q].usage) in all;
    assert q in ResponsesOf(all) && ResponsesOf(all)[q] == Response(a, u);
  }

  /** Reads the rows in order: a repeated agent or response must say the same again. */
  method Gather(rows: seq<Row>) returns (r: Option<(Parents, Responses, map<Ref, nat>)>)
    ensures r.Some? <==> Gatherable(multiset(rows))
    ensures r.Some? ==> Gathered(multiset(rows), r.value.0, r.value.1, r.value.2)
  {
    hide Gatherable, Gathered, ValidUsage;
    var parents: Parents, responses: Responses, repeats: map<Ref, nat> := map[], map[], map[];
    assert rows[..0] == [];
    NothingGathered();
    for i := 0 to |rows|
      invariant Gathered(multiset(rows[..i]), parents, responses, repeats)
    {
      ghost var before := multiset(rows[..i]);
      assert rows[..i + 1] == rows[..i] + [rows[i]];
      assert multiset(rows[..i + 1]) == before + multiset{rows[i]};
      PrefixRows(rows, i);
      match rows[i] {
      case Malformed =>
        MalformedSpoils(multiset(rows));
        return None;
      case AgentRow(a, p) =>
        if Gatherable(multiset(rows)) { AgentFits(before, multiset(rows), parents, responses, repeats, a, p); }
        if a in parents && parents[a] != p { return None; }
        if |parents[a := p]| > MAX_AGENTS { return None; }
        AgentJoins(before, parents, responses, repeats, a, p);
        parents := parents[a := p];
      case ResponseRow(a, q, u) =>
        if Gatherable(multiset(rows)) { ResponseFits(before, multiset(rows), parents, responses, repeats, a, q, u); }
        if !ValidUsage(u) || (q in responses && responses[q] != Response(a, u)) { return None; }
        ResponseJoins(before, parents, responses, repeats, a, q, u);
        RepeatsKnown(before, parents, responses, repeats);
        repeats := repeats[q := if q in responses then repeats[q] + 1 else 0];
        responses := responses[q := Response(a, u)];
      }
    }
    assert rows[..|rows|] == rows;
    GatheredIs(multiset(rows), parents, responses, repeats);
    return Some((parents, responses, repeats));
  }

  lemma PrefixRows(rows: seq<Row>, i: nat)
    requires i < |rows|
    ensures (forall row | row in multiset(rows[..i]) :: row in multiset(rows)) && rows[i] in multiset(rows)
  {
    forall row | row in multiset(rows[..i]) ensures row in multiset(rows) { assert row in rows[..i] && row in rows; }
  }

  lemma NothingGathered()
    ensures Gathered(multiset{}, map[], map[], map[])
  {
  }

  lemma MalformedSpoils(rows: multiset<Row>)
    requires Malformed in rows
    ensures !Gatherable(rows)
  {
    hide AgentsAgree, ResponsesAgree, ParentsOf, ResponsesOf, ValidResponses;
  }

  lemma RepeatsKnown(rows: multiset<Row>, parents: Parents, responses: Responses, repeats: map<Ref, nat>)
    requires Gathered(rows, parents, responses, repeats)
    ensures repeats.Keys == responses.Keys
  {
    hide ParentsMatch, ResponsesMatch, ValidResponses;
  }

  // ----- The tree -----

  function Children(parents: Parents, root: Ref, parent: Ref): set<Ref> {
    set a | a in parents && a != root && parents[a] == Some(parent)
  }

  function Elements(xs: seq<Ref>): set<Ref> { set x | x in xs }

  /** Everything visited reaches the root, each by way of a parent already dealt with, and nothing dealt with has a child left out. */
  ghost predicate Visits(parents: Parents, root: Ref, visited: set<Ref>, pending: set<Ref>) {
    && root in visited && visited <= parents.Keys && pending <= visited
    && (forall v | v in visited :: Reaches(parents, v, root))
    && (forall v | v in visited && v != root :: parents[v].Some? && parents[v].value in visited && parents[v].value !in pending)
    && (forall v | v in visited && v !in pending :: Children(parents, root, v) <= visited)
  }

  lemma ChildReaches(parents: Parents, root: Ref, child: Ref)
    requires child in parents && parents[child].Some? && Reaches(parents, parents[child].value, root)
    ensures Reaches(parents, child, root)
  {
    var n: nat :| Ancestor(parents, parents[child].value, n) == Some(root);
    assert Ancestor(parents, child, n + 1) == Some(root);
  }

  lemma {:induction false} ReachingIsVisited(parents: Parents, root: Ref, visited: set<Ref>, a: Ref, n: nat)
    requires Linked(parents, root) && Visits(parents, root, visited, {}) && a in parents && Ancestor(parents, a, n) == Some(root)
    ensures a in visited
    decreases n
  {
    hide Reaches;
    if a != root {
      ReachingIsVisited(parents, root, visited, parents[a].value, n - 1);
      assert a in Children(parents, root, parents[a].value);
    }
  }

  lemma VisitedAllIsTree(parents: Parents, root: Ref, visited: set<Ref>)
    requires Linked(parents, root) && Visits(parents, root, visited, {})
    ensures |visited| == |parents| <==> Tree(parents, root)
  {
    if Tree(parents, root) {
      forall a | a in parents ensures a in visited {
        var n: nat :| Ancestor(parents, a, n) == Some(root);
        ReachingIsVisited(parents, root, visited, a, n);
      }
      assert visited == parents.Keys;
    }
    if |visited| == |parents| {
      assert |parents| == |parents.Keys|;
      SizeOf(visited, parents.Keys);
    }
    hide Reaches;
  }

  /** Visiting the children of one pending parent. */
  lemma VisitChildren(parents: Parents, root: Ref, visited: set<Ref>, pending: set<Ref>, parent: Ref)
    requires Linked(parents, root) && Visits(parents, root, visited, pending) && parent in pending
    ensures var kids := Children(parents, root, parent);
      kids !! visited && Visits(parents, root, visited + kids, pending - {parent} + kids)
  {
    var kids := Children(parents, root, parent);
    forall c | c in kids ensures c !in visited && Reaches(parents, c, root) { ChildReaches(parents, root, c); }
    hide Reaches;
    forall v | v in visited + kids && v !in pending - {parent} + kids ensures Children(parents, root, v) <= visited + kids {}
  }

  /** The walk so far: what was visited, and the work list of visited agents whose children are still to come. */
  ghost predicate Walking(parents: Parents, root: Ref, visited: set<Ref>, pending: seq<Ref>) {
    Visits(parents, root, visited, Elements(pending)) && Distinct(pending)
  }

  /** Walks the inventory from the root, child by child. */
  method WalkTree(parents: Parents, root: Ref) returns (ok: bool)
    ensures ok == Tree(parents, root)
  {
    hide Reaches, Visits, Children, Walking, Linked, Tree, Elements, Ordered, Distinct;
    if !Linked(parents, root) {
      NoTreeUnlinked(parents, root);
      return false;
    }
    var visited, pending := {root}, [root];
    StartVisits(parents, root);
    while pending != []
      invariant Walking(parents, root, visited, pending)
      decreases |parents.Keys - visited| + |pending|
    {
      var parent, rest := pending[|pending| - 1], pending[..|pending| - 1];
      var kids := Children(parents, root, parent);
      WalkStep(parents, root, visited, pending);
      visited, pending := visited + kids, rest + Ordered(kids);
    }
    WalkEnds(parents, root, visited);
    return |visited| == |parents|;
  }

  lemma NoTreeUnlinked(parents: Parents, root: Ref)
    ensures Tree(parents, root) ==> Linked(parents, root)
  {
    hide Linked, Reaches;
  }

  lemma WalkEnds(parents: Parents, root: Ref, visited: set<Ref>)
    requires Linked(parents, root) && Walking(parents, root, visited, [])
    ensures |visited| == |parents| <==> Tree(parents, root)
  {
    hide Linked, Tree, Visits;
    assert Elements([]) == {};
    VisitedAllIsTree(parents, root, visited);
  }

  /** Taking the last pending parent and adding its children keeps the walk going and makes progress. */
  lemma WalkStep(parents: Parents, root: Ref, visited: set<Ref>, pending: seq<Ref>)
    requires Linked(parents, root) && Walking(parents, root, visited, pending) && pending != []
    ensures var kids := Children(parents, root, pending[|pending| - 1]);
      var next := pending[..|pending| - 1] + Ordered(kids);
      Walking(parents, root, visited + kids, next)
      && |parents.Keys - (visited + kids)| + |next| < |parents.Keys - visited| + |pending|
  {
    hide Reaches, Visits, Children, Linked, Tree, Ordered, Elements;
    var parent, rest := pending[|pending| - 1], pending[..|pending| - 1];
    var kids := Children(parents, root, parent);
    LastTaken(pending);
    VisitChildren(parents, root, visited, Elements(pending), parent);
    VisitsPending(parents, root, visited, Elements(pending));
    ChildrenKnown(parents, root, parent);
    NextPending(rest, kids, visited, Elements(pending));
    Progress(parents.Keys, visited, kids);
    OrderedSize(kids);
  }

  lemma LastTaken(pending: seq<Ref>)
    requires pending != [] && Distinct(pending)
    ensures var rest, last := pending[..|pending| - 1], pending[|pending| - 1];
      last in Elements(pending) && Elements(rest) == Elements(pending) - {last} && Distinct(rest)
  {
    assert pending == pending[..|pending| - 1] + [pending[|pending| - 1]];
  }

  lemma NextPending(rest: seq<Ref>, kids: set<Ref>, visited: set<Ref>, pending: set<Ref>)
    requires Distinct(rest) && Elements(rest) <= pending <= visited && kids !! visited
    ensures Distinct(rest + Ordered(kids)) && Elements(rest + Ordered(kids)) == Elements(rest) + kids
  {
    hide Ordered;
    assert forall x | x in rest :: x in Elements(rest);
    DistinctJoin(rest, Ordered(kids), kids, visited);
  }

  lemma Progress(all: set<Ref>, visited: set<Ref>, kids: set<Ref>)
    requires kids <= all && kids !! visited
    ensures |all - (visited + kids)| + |kids| == |all - visited|
  {
    assert all - visited == (all - (visited + kids)) + kids;
  }

  lemma StartVisits(parents: Parents, root: Ref)
    requires Linked(parents, root)
    ensures Walking(parents, root, {root}, [root])
  {
    assert Ancestor(parents, root, 0) == Some(root);
    assert Elements([root]) == {root};
  }

  lemma ChildrenKnown(parents: Parents, root: Ref, parent: Ref)
    ensures Children(parents, root, parent) <= parents.Keys
  {
  }

  lemma VisitsPending(parents: Parents, root: Ref, visited: set<Ref>, pending: set<Ref>)
    requires Visits(parents, root, visited, pending)
    ensures pending <= visited
  {
    hide Reaches, Children;
  }

  lemma DistinctJoin(rest: seq<Ref>, next: seq<Ref>, kids: set<Ref>, visited: set<Ref>)
    requires Distinct(rest)
    requires forall i, j | 0 <= i < j < |next| :: next[i] < next[j]
    requires (forall x | x in rest :: x in visited) && (forall x :: x in next <==> x in kids) && kids !! visited
    ensures Distinct(rest + next)
  {
    forall i, j | 0 <= i < j < |rest + next| ensures (rest + next)[i] != (rest + next)[j] {
      if i < |rest| <= j {
        assert rest[i] in rest && next[j - |rest|] in next;
      } else if i >= |rest| {
        assert (rest + next)[i] == next[i - |rest|] && (rest + next)[j] == next[j - |rest|];
      }
    }
  }

  lemma {:induction false} OrderedSize(s: set<Ref>)
    ensures |Ordered(s)| == |s|
    decreases |s|
  {
    if s != {} { OrderedSize(s - {Ordering.Minimum(s)}); }
  }

  // ----- Totals -----

  /** Adds up values, rejecting a total past the signed bound. */
  method SumKnown(values: map<Ref, nat>) returns (r: Option<nat>)
    ensures r == if Sum(values) <= MAX_SIGNED then Some(Sum(values)) else None
  {
    hide Sum;
    var total, left := 0, values;
    SumNothing();
    while left != map[]
      invariant total + Sum(left) == Sum(values) && total <= MAX_SIGNED
      decreases |left|
    {
      var q := Ordering.Minimum(left.Keys);
      assert q in left;
      SumRemove(left, q);
      total := total + left[q];
      if total > MAX_SIGNED { return None; }
      left := left - {q};
    }
    return Some(total);
  }

  /** The totals of a group of agents and their responses. */
  method SummarizeGroup(agents: set<Ref>, rs: Responses, retries: nat) returns (r: Option<Group>)
    requires ValidResponses(rs)
    ensures r.Some? <==> Fits(agents, rs)
    ensures r.Some? ==>
      && r.value.agents == |agents| && r.value.withUsage == |Owners(rs)| && r.value.responses == |rs| && r.value.retries == retries
      && r.value.observed.Keys == (set m: Metric | m in METRICS) && r.value.complete.Keys == (set m: Metric | m in METRICS)
      && forall m: Metric | m in METRICS :: r.value.observed[m] == Observed(agents, rs, m) && r.value.complete[m] == Complete(agents, rs, m)
  {
    hide Sum, Known, ValidResponses, Owners;
    var observed: map<Metric, Option<nat>>, complete: map<Metric, Option<nat>> := map[], map[];
    for i := 0 to |METRICS|
      invariant observed.Keys == (set m: Metric | m in METRICS[..i]) && complete.Keys == observed.Keys
      invariant forall m | m in observed :: observed[m] == Observed(agents, rs, m) && complete[m] == Complete(agents, rs, m)
      invariant agents != {} ==> forall m | m in observed :: Sum(Known(rs, m)) <= MAX_SIGNED
    {
      var metric := METRICS[i];
      assert METRICS[..i + 1] == METRICS[..i] + [metric];
      if agents == {} {
        observed, complete := observed[metric := Some(0)], complete[metric := Some(0)];
      } else {
        var known := Known(rs, metric);
        var total := SumKnown(known);
        if total.None? { return None; }
        observed := observed[metric := if known == map[] then None else total];
        complete := complete[metric := if Owners(rs) != agents || known.Keys != rs.Keys then None else total];
      }
    }
    assert METRICS[..|METRICS|] == METRICS;
    AllMetrics();
    return Some(Group(|agents|, |Owners(rs)|, |rs|, retries, observed, complete));
  }

  /** How often the responses of some agents were repeated. */
  method CountRepeats(repeats: map<Ref, nat>, rs: Responses) returns (total: nat)
    requires rs.Keys <= repeats.Keys
    ensures total == Sum(map q | q in rs :: repeats[q])
  {
    hide Sum;
    var left := map q | q in rs :: repeats[q];
    ghost var all := left;
    total := 0;
    SumNothing();
    while left != map[]
      invariant total + Sum(left) == Sum(all)
      decreases |left|
    {
      var q := Ordering.Minimum(left.Keys);
      assert q in left;
      SumRemove(left, q);
      total := total + left[q];
      left := left - {q};
    }
  }

  lemma RepeatsAre(rows: multiset<Row>, parents: Parents, responses: Responses, repeats: map<Ref, nat>, agents: set<Ref>)
    requires Gathered(rows, parents, responses, repeats)
    ensures var part := OwnedBy(responses, agents);
      && part.Keys <= repeats.Keys && (forall q | q in part :: ResponseRow(part[q].owner, q, part[q].usage) in rows)
      && Repeats(rows, part) == map q | q in part :: repeats[q]
  {
    hide ValidResponses, ParentsMatch;
  }

  lemma PartValid(rs: Responses, agents: set<Ref>)
    requires ValidResponses(rs)
    ensures ValidResponses(OwnedBy(rs, agents))
  {
    hide ValidUsage;
  }

  lemma AllOwned(rs: Responses, agents: set<Ref>)
    requires Owners(rs) <= agents
    ensures OwnedBy(rs, agents) == rs
  {
    assert forall q | q in rs :: rs[q].owner in Owners(rs);
  }

  /**
    The whole summary: accepted exactly when the rows, in whatever order, are an inventory
    whose every agent reaches the root, with totals that fit; and then what they say.
   */
  method Summarize(rows: seq<Row>, root: Ref) returns (r: Option<Summary>)
    ensures r.Some? <==> Accepts(multiset(rows), root)
    ensures r.Some? ==> SummaryIs(r.value, multiset(rows), root)
  {
    hide Gatherable, Gathered, Tree, Fits, Sum, Repeats, OwnedBy, Owners, ValidResponses, AgentsAgree, ResponsesAgree, ParentsOf, ResponsesOf,
      GroupIs;
    AcceptsIs(multiset(rows), root);
    if |rows| > MAX_ROWS { return None; }
    var gathered := Gather(rows);
    if gathered.None? { return None; }
    var (parents, responses, repeats) := gathered.value;
    GatheredIs(multiset(rows), parents, responses, repeats);
    GatherableIs(multiset(rows));
    var ok := WalkTree(parents, root);
    if !ok || !(Owners(responses) <= parents.Keys) { return None; }
    var agents := parents.Keys;
    AllOwned(responses, agents);
    var own := Part(rows, parents, responses, repeats, {root});
    if own.None? { return None; }
    var others := Part(rows, parents, responses, repeats, agents - {root});
    if others.None? { return None; }
    var all := Part(rows, parents, responses, repeats, agents);
    if all.None? { return None; }
    return Some(Summary(own.value, others.value, all.value));
  }

  /** The group of some of the agents. */
  method Part(rows: seq<Row>, parents: Parents, responses: Responses, repeats: map<Ref, nat>, agents: set<Ref>) returns (r: Option<Group>)
    requires Gathered(multiset(rows), parents, responses, repeats) && ValidResponses(responses)
    ensures var part := OwnedBy(responses, agents);
      && ValidResponses(part) && (forall q | q in part :: ResponseRow(part[q].owner, q, part[q].usage) in multiset(rows))
      && (r.Some? <==> Fits(agents, part)) && (r.Some? ==> GroupIs(r.value, multiset(rows), agents, part))
  {
    hide Gathered, Fits, Sum, OwnedBy, Owners, ValidResponses, Observed, Complete;
    PartValid(responses, agents);
    RepeatsAre(multiset(rows), parents, responses, repeats, agents);
    var part := OwnedBy(responses, agents);
    var retries := CountRepeats(repeats, part);
    r := SummarizeGroup(agents, part, retries);
  }

  lemma GatherableIs(rows: multiset<Row>)
    requires Gatherable(rows)
    ensures Malformed !in rows && AgentsAgree(rows) && ResponsesAgree(rows)
    ensures |ParentsOf(rows)| <= MAX_AGENTS && ValidResponses(ResponsesOf(rows))
  {
    hide AgentsAgree, ResponsesAgree, ParentsOf, ResponsesOf, ValidResponses;
  }

  lemma AcceptsIs(rows: multiset<Row>, root: Ref)
    ensures Accepts(rows, root) ==> |rows| <= MAX_ROWS && Gatherable(rows)
  {
    hide AgentsAgree, ResponsesAgree, ParentsOf, ResponsesOf, ValidResponses, Tree, Fits, Owners, OwnedBy;
  }

  /** The same rows in two orders give the same summary, or none. */
  method SummarizeBoth(rows: seq<Row>, shuffled: seq<Row>, root: Ref) returns (a: Option<Summary>, b: Option<Summary>)
    requires multiset(rows) == multiset(shuffled)
    ensures a == b
  {
    a := Summarize(rows, root);
    b := Summarize(shuffled, root);
    if a.Some? { SummaryIsUnique(a.value, b.value, multiset(rows), root); }
    hide Accepts, SummaryIs;
  }
}
