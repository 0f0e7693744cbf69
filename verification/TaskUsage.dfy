/**
  Task usage: an inventory of agents under one root, their responses, and totals for the
  root, its descendants and both together.
 */
module TaskUsage {
  import opened Options

  type Ref = nat

  datatype Usage = Usage(input: Option<nat>, cached: Option<nat>, output: Option<nat>, reasoning: Option<nat>)

  /** An agent with its parent, a response of an agent with its usage, or anything else. */
  datatype Row = AgentRow(agent: Ref, parent: Option<Ref>) | ResponseRow(agent: Ref, response: Ref, usage: Usage) | Malformed

  datatype Metric = Input | Cached | Output | Reasoning | TotalTokens | Uncached | Nonreasoning

  const MAX_ROWS := 10000
  const MAX_AGENTS := 256
  const MAX_SIGNED := 0x7fff_ffff_ffff_ffff

  // ----- Usage -----

  predicate InBounds(v: Option<nat>) { v.Some? ==> v.value <= MAX_SIGNED }

  predicate ValidUsage(u: Usage) {
    && InBounds(u.input) && InBounds(u.cached) && InBounds(u.output) && InBounds(u.reasoning)
    && (u.input.Some? && u.cached.Some? ==> u.cached.value <= u.input.value)
    && (u.output.Some? && u.reasoning.Some? ==> u.reasoning.value <= u.output.value)
    && (u.input.Some? && u.output.Some? ==> u.input.value + u.output.value <= MAX_SIGNED)
  }

  /** A metric of one response, known only if what it is made of is known. */
  function MetricOf(u: Usage, m: Metric): Option<nat>
    requires ValidUsage(u)
  {
    match m
    case Input => u.input
    case Cached => u.cached
    case Output => u.output
    case Reasoning => u.reasoning
    case TotalTokens => if u.input.Some? && u.output.Some? then Some(u.input.value + u.output.value) else None
    case Uncached => if u.input.Some? && u.cached.Some? then Some(u.input.value - u.cached.value) else None
    case Nonreasoning => if u.output.Some? && u.reasoning.Some? then Some(u.output.value - u.reasoning.value) else None
  }

  // ----- What the rows say, in any order -----

  datatype Response = Response(owner: Ref, usage: Usage)
  type Parents = map<Ref, Option<Ref>>
  type Responses = map<Ref, Response>

  predicate AgentsAgree(rows: multiset<Row>) {
    forall x, y | x in rows && y in rows && x.AgentRow? && y.AgentRow? && x.agent == y.agent :: x.parent == y.parent
  }

  predicate ResponsesAgree(rows: multiset<Row>) {
    forall x, y | x in rows && y in rows && x.ResponseRow? && y.ResponseRow? && x.response == y.response ::
      x.agent == y.agent && x.usage == y.usage
  }

  function ParentsOf(rows: multiset<Row>): Parents
    requires AgentsAgree(rows)
  {
    map row | row in rows && row.AgentRow? :: row.agent := row.parent
  }

  function ResponsesOf(rows: multiset<Row>): Responses
    requires ResponsesAgree(rows)
  {
    map row | row in rows && row.ResponseRow? :: row.response := Response(row.agent, row.usage)
  }

  /** The parents are those of the rows and no others. */
  ghost predicate ParentsMatch(rows: multiset<Row>, parents: Parents) {
    && (forall row | row in rows && row.AgentRow? :: row.agent in parents && parents[row.agent] == row.parent)
    && forall a | a in parents :: AgentRow(a, parents[a]) in rows
  }

  ghost predicate ResponsesMatch(rows: multiset<Row>, rs: Responses) {
    && (forall row | row in rows && row.ResponseRow? :: row.response in rs && rs[row.response] == Response(row.agent, row.usage))
    && forall q | q in rs :: ResponseRow(rs[q].owner, q, rs[q].usage) in rows
  }

  lemma ParentsAre(rows: multiset<Row>, parents: Parents)
    ensures ParentsMatch(rows, parents) <==> AgentsAgree(rows) && ParentsOf(rows) == parents
  {
    if ParentsMatch(rows, parents) {
      assert AgentsAgree(rows);
      forall a ensures a in ParentsOf(rows) <==> a in parents {
        if a in parents { assert AgentRow(a, parents[a]) in rows; }
      }
      forall a | a in parents ensures ParentsOf(rows)[a] == parents[a] { assert AgentRow(a, parents[a]) in rows; }
    }
    if AgentsAgree(rows) && ParentsOf(rows) == parents {
      forall a | a in parents ensures AgentRow(a, parents[a]) in rows {
        var row :| row in rows && row.AgentRow? && row.agent == a;
        assert row == AgentRow(a, parents[a]);
      }
    }
  }

  lemma ResponsesAre(rows: multiset<Row>, rs: Responses)
    ensures ResponsesMatch(rows, rs) <==> ResponsesAgree(rows) && ResponsesOf(rows) == rs
  {
    hide ResponsesMatch, ResponsesAgree, ResponsesOf;
    if ResponsesMatch(rows, rs) { MatchingAgree(rows, rs); }
    if ResponsesAgree(rows) && ResponsesOf(rows) == rs { ResponsesOfMatch(rows); }
  }

  lemma MatchingAgree(rows: multiset<Row>, rs: Responses)
    requires ResponsesMatch(rows, rs)
    ensures ResponsesAgree(rows) && ResponsesOf(rows) == rs
  {
    assert ResponsesAgree(rows);
    forall q | q in rs ensures q in ResponsesOf(rows) && ResponsesOf(rows)[q] == rs[q] {
      assert ResponseRow(rs[q].owner, q, rs[q].usage) in rows;
    }
  }

  lemma ResponsesOfMatch(rows: multiset<Row>)
    requires ResponsesAgree(rows)
    ensures ResponsesMatch(rows, ResponsesOf(rows))
  {
    var rs := ResponsesOf(rows);
    forall q | q in rs ensures ResponseRow(rs[q].owner, q, rs[q].usage) in rows {
      var row :| row in rows && row.ResponseRow? && row.response == q;
      assert row == ResponseRow(rs[q].owner, q, rs[q].usage);
    }
  }

  /** Every other agent has a different parent in the inventory, and the root has none. */
  predicate Linked(parents: Parents, root: Ref) {
    && root in parents && parents[root] == None
    && forall a | a in parents && a != root :: parents[a].Some? && parents[a].value != a && parents[a].value in parents
  }

  /** The ancestor so many links up. */
  function Ancestor(parents: Parents, a: Ref, n: nat): Option<Ref>
    decreases n
  {
    if n == 0 then Some(a)
    else if a !in parents || parents[a].None? then None
    else Ancestor(parents, parents[a].value, n - 1)
  }

  ghost predicate Reaches(parents: Parents, a: Ref, root: Ref) { exists n :: Ancestor(parents, a, n) == Some(root) }

  /** The inventory is one tree: every agent reaches the root through its parents. */
  ghost predicate Tree(parents: Parents, root: Ref) {
    Linked(parents, root) && forall a | a in parents :: Reaches(parents, a, root)
  }

  // ----- Totals -----

  ghost function Sum(m: map<Ref, nat>): nat
    decreases |m|
  {
    if m == map[] then 0 else var k :| k in m; m[k] + Sum(m - {k})
  }

  lemma {:induction false} SumRemove(m: map<Ref, nat>, k: Ref)
    requires k in m
    ensures Sum(m) == m[k] + Sum(m - {k})
    decreases |m|
  {
    var j :| j in m && Sum(m) == m[j] + Sum(m - {j});
    if j != k {
      SumRemove(m - {j}, k);
      SumRemove(m - {k}, j);
      assert m - {j} - {k} == m - {k} - {j};
    }
  }

  /** Parts of a map, with no key in common, that make it up. */
  ghost predicate Covers(all: map<Ref, nat>, a: map<Ref, nat>, b: map<Ref, nat>) {
    && (forall k :: k in all <==> k in a || k in b) && (forall k | k in a :: k !in b && a[k] == all[k]) && forall k | k in b :: b[k] == all[k]
  }

  lemma CoversSwap(all: map<Ref, nat>, a: map<Ref, nat>, b: map<Ref, nat>, j: Ref)
    requires Covers(all, a, b) && j in a
    ensures Covers(all - {j}, a - {j}, b)
  {
  }

  lemma {:induction false} SumOfParts(all: map<Ref, nat>, a: map<Ref, nat>, b: map<Ref, nat>)
    requires Covers(all, a, b)
    ensures Sum(all) == Sum(a) + Sum(b)
    decreases |a|
  {
    if a == map[] {
      assert all == b;
      SumNothing();
      hide Sum;
    } else {
      var j :| j in a;
      assert j in all && all[j] == a[j];
      CoversSwap(all, a, b, j);
      hide Sum, Covers;
      SumRemove(all, j);
      SumRemove(a, j);
      SumOfParts(all - {j}, a - {j}, b);
    }
  }

  lemma SumNothing()
    ensures Sum(map[]) == 0
  {
  }

  predicate ValidResponses(rs: Responses) { forall q | q in rs :: ValidUsage(rs[q].usage) }

  /** The known values of a metric. */
  function Known(rs: Responses, m: Metric): map<Ref, nat>
    requires ValidResponses(rs)
  {
    map q | q in rs && MetricOf(rs[q].usage, m).Some? :: MetricOf(rs[q].usage, m).value
  }

  function Owners(rs: Responses): set<Ref> { set q | q in rs :: rs[q].owner }

  datatype Group = Group(agents: nat, withUsage: nat, responses: nat, retries: nat,
                         observed: map<Metric, Option<nat>>, complete: map<Metric, Option<nat>>)

  const METRICS: seq<Metric> := [Input, Cached, Output, Reasoning, TotalTokens, Uncached, Nonreasoning]

  /** What is known of a metric, and what all of it comes to if all of it is known. */
  ghost function Observed(agents: set<Ref>, rs: Responses, m: Metric): Option<nat>
    requires ValidResponses(rs)
  {
    if agents == {} then Some(0) else if Known(rs, m) == map[] then None else Some(Sum(Known(rs, m)))
  }

  ghost function Complete(agents: set<Ref>, rs: Responses, m: Metric): Option<nat>
    requires ValidResponses(rs)
  {
    if agents == {} then Some(0)
    else if Owners(rs) != agents || Known(rs, m).Keys != rs.Keys then None
    else Some(Sum(Known(rs, m)))
  }

  ghost predicate Fits(agents: set<Ref>, rs: Responses)
    requires ValidResponses(rs)
  {
    agents != {} ==> forall m: Metric :: Sum(Known(rs, m)) <= MAX_SIGNED
  }

  /** The responses of some agents. */
  function OwnedBy(rs: Responses, agents: set<Ref>): Responses { map q | q in rs && rs[q].owner in agents :: rs[q] }

  /** How often each response was repeated. */
  function Repeats(rows: multiset<Row>, rs: Responses): map<Ref, nat>
    requires forall q | q in rs :: ResponseRow(rs[q].owner, q, rs[q].usage) in rows
  {
    map q | q in rs :: rows[ResponseRow(rs[q].owner, q, rs[q].usage)] - 1
  }

  ghost predicate GroupIs(g: Group, rows: multiset<Row>, agents: set<Ref>, rs: Responses)
    requires ValidResponses(rs) && forall q | q in rs :: ResponseRow(rs[q].owner, q, rs[q].usage) in rows
  {
    && g.agents == |agents| && g.withUsage == |Owners(rs)| && g.responses == |rs| && g.retries == Sum(Repeats(rows, rs))
    && g.observed.Keys == (set m: Metric | m in METRICS) && g.complete.Keys == (set m: Metric | m in METRICS)
    && forall m: Metric | m in METRICS :: g.observed[m] == Observed(agents, rs, m) && g.complete[m] == Complete(agents, rs, m)
  }

  datatype Summary = Summary(root: Group, children: Group, combined: Group)

  /** What is accepted, in terms that do not mention the order of the rows. */
  ghost predicate Accepts(rows: multiset<Row>, root: Ref) {
    && |rows| <= MAX_ROWS && Malformed !in rows && AgentsAgree(rows) && ResponsesAgree(rows)
    && |ParentsOf(rows)| <= MAX_AGENTS && ValidResponses(ResponsesOf(rows)) && Tree(ParentsOf(rows), root)
    && Owners(ResponsesOf(rows)) <= ParentsOf(rows).Keys
    && var agents, rs := ParentsOf(rows).Keys, ResponsesOf(rows);
       Fits({root}, OwnedBy(rs, {root})) && Fits(agents - {root}, OwnedBy(rs, agents - {root})) && Fits(agents, rs)
  }

  lemma ResponsesAreRows(rows: multiset<Row>)
    requires ResponsesAgree(rows)
    ensures forall q | q in ResponsesOf(rows) :: ResponseRow(ResponsesOf(rows)[q].owner, q, ResponsesOf(rows)[q].usage) in rows
  {
  }

  ghost predicate SummaryIs(s: Summary, rows: multiset<Row>, root: Ref)
    requires ResponsesAgree(rows) && AgentsAgree(rows) && ValidResponses(ResponsesOf(rows))
  {
    ResponsesAreRows(rows);
    var agents, rs := ParentsOf(rows).Keys, ResponsesOf(rows);
    && GroupIs(s.root, rows, {root}, OwnedBy(rs, {root}))
    && GroupIs(s.children, rows, agents - {root}, OwnedBy(rs, agents - {root}))
    && GroupIs(s.combined, rows, agents, rs)
  }

  // ----- Order does not matter -----

  /** A summary is determined by the rows and their multiplicities. */
  lemma SummaryIsUnique(s: Summary, t: Summary, rows: multiset<Row>, root: Ref)
    requires ResponsesAgree(rows) && AgentsAgree(rows) && ValidResponses(ResponsesOf(rows))
    requires SummaryIs(s, rows, root) && SummaryIs(t, rows, root)
    ensures s == t
  {
    hide Sum, Known, Repeats, ParentsOf, ResponsesOf, OwnedBy, Observed, Complete, Owners;
    SameGroup(s.root, t.root, METRICS);
    SameGroup(s.children, t.children, METRICS);
    SameGroup(s.combined, t.combined, METRICS);
  }

  lemma SameGroup(g: Group, h: Group, metrics: seq<Metric>)
    ensures (&& g.observed.Keys == h.observed.Keys && g.complete.Keys == h.complete.Keys
             && (forall m | m in g.observed :: g.observed[m] == h.observed[m]) && (forall m | m in g.complete :: g.complete[m] == h.complete[m]))
      ==> g.observed == h.observed && g.complete == h.complete
  {
  }

  // ----- The two parts add up -----

  /** Responses in two parts. */
  predicate Parts(rs: Responses, own: Responses, other: Responses) {
    && own.Keys + other.Keys == rs.Keys && own.Keys !! other.Keys
    && (forall q | q in own :: own[q] == rs[q]) && forall q | q in other :: other[q] == rs[q]
  }

  lemma OwnedParts(rs: Responses, agents: set<Ref>, root: Ref)
    requires root in agents && Owners(rs) <= agents
    ensures var own, other := OwnedBy(rs, {root}), OwnedBy(rs, agents - {root});
      && Parts(rs, own, other) && Owners(rs) == Owners(own) + Owners(other) && Owners(own) <= {root} && Owners(other) <= agents - {root}
  {
    var own, other := OwnedBy(rs, {root}), OwnedBy(rs, agents - {root});
    assert forall q | q in rs :: rs[q].owner in Owners(rs);
    assert forall q | q in rs :: q in own || q in other;
    assert Owners(rs) == Owners(own) + Owners(other) by {
      forall a | a in Owners(rs) ensures a in Owners(own) + Owners(other) {
        var q :| q in rs && rs[q].owner == a;
        assert q in own ==> own[q].owner in Owners(own);
        assert q in other ==> other[q].owner in Owners(other);
      }
    }
  }

  /** A split of the known values between the root's responses and the others'. */
  lemma KnownSplits(rs: Responses, own: Responses, other: Responses, m: Metric)
    requires ValidResponses(rs) && Parts(rs, own, other)
    ensures ValidResponses(own) && ValidResponses(other)
    ensures Sum(Known(rs, m)) == Sum(Known(own, m)) + Sum(Known(other, m))
    ensures Known(rs, m).Keys == rs.Keys <==> Known(own, m).Keys == own.Keys && Known(other, m).Keys == other.Keys
  {
    hide Known, Sum, ValidResponses, Parts, Covers;
    PartsValid(rs, own, other);
    KnownCovers(rs, own, other, m);
    AllKnownSplits(rs, own, other, m);
    SumOfParts(Known(rs, m), Known(own, m), Known(other, m));
  }

  lemma KnownCovers(rs: Responses, own: Responses, other: Responses, m: Metric)
    requires ValidResponses(rs) && ValidResponses(own) && ValidResponses(other) && Parts(rs, own, other)
    requires forall q :: q in rs <==> q in own || q in other
    ensures Covers(Known(rs, m), Known(own, m), Known(other, m))
  {
    hide Known, MetricOf, ValidResponses;
    KnownIs(rs, m);
    KnownIs(own, m);
    KnownIs(other, m);
  }

  lemma AllKnownSplits(rs: Responses, own: Responses, other: Responses, m: Metric)
    requires ValidResponses(rs) && ValidResponses(own) && ValidResponses(other) && Parts(rs, own, other)
    requires forall q :: q in rs <==> q in own || q in other
    ensures Known(rs, m).Keys == rs.Keys <==> Known(own, m).Keys == own.Keys && Known(other, m).Keys == other.Keys
  {
    hide Known, MetricOf, ValidResponses;
    AllKnown(rs, m);
    AllKnown(own, m);
    AllKnown(other, m);
  }

  lemma AllKnown(rs: Responses, m: Metric)
    requires ValidResponses(rs)
    ensures Known(rs, m).Keys == rs.Keys <==> forall q | q in rs :: MetricOf(rs[q].usage, m).Some?
  {
    hide Known, MetricOf;
    KnownIs(rs, m);
    if forall q | q in rs :: MetricOf(rs[q].usage, m).Some? { assert forall q :: q in Known(rs, m).Keys <==> q in rs.Keys; }
    if Known(rs, m).Keys == rs.Keys { assert forall q | q in rs :: q in Known(rs, m).Keys; }
  }

  lemma PartsValid(rs: Responses, own: Responses, other: Responses)
    requires ValidResponses(rs) && Parts(rs, own, other)
    ensures ValidResponses(own) && ValidResponses(other)
    ensures forall q :: q in rs <==> q in own || q in other
  {
    hide ValidUsage;
    forall q ensures q in rs <==> q in own || q in other { assert q in rs.Keys <==> q in own.Keys + other.Keys; }
  }

  lemma KnownIs(rs: Responses, m: Metric)
    requires ValidResponses(rs)
    ensures forall q :: q in Known(rs, m) <==> q in rs && MetricOf(rs[q].usage, m).Some?
    ensures forall q | q in Known(rs, m) :: Known(rs, m)[q] == MetricOf(rs[q].usage, m).value
  {
    hide MetricOf, ValidUsage;
  }

  lemma RepeatsSplit(rows: multiset<Row>, rs: Responses, own: Responses, other: Responses)
    requires Parts(rs, own, other) && forall q | q in rs :: ResponseRow(rs[q].owner, q, rs[q].usage) in rows
    ensures forall q | q in own :: ResponseRow(own[q].owner, q, own[q].usage) in rows
    ensures forall q | q in other :: ResponseRow(other[q].owner, q, other[q].usage) in rows
    ensures Sum(Repeats(rows, rs)) == Sum(Repeats(rows, own)) + Sum(Repeats(rows, other)) && |rs| == |own| + |other|
  {
    forall q | q in own ensures ResponseRow(own[q].owner, q, own[q].usage) in rows { assert q in rs; }
    forall q | q in other ensures ResponseRow(other[q].owner, q, other[q].usage) in rows { assert q in rs; }
    PartsSize(rs, own, other);
    RepeatsCover(rows, rs, own, other);
    hide Sum, Repeats, Parts, Covers;
    SumOfParts(Repeats(rows, rs), Repeats(rows, own), Repeats(rows, other));
  }

  lemma RepeatsCover(rows: multiset<Row>, rs: Responses, own: Responses, other: Responses)
    requires Parts(rs, own, other)
    requires forall q | q in rs :: ResponseRow(rs[q].owner, q, rs[q].usage) in rows
    requires forall q | q in own :: ResponseRow(own[q].owner, q, own[q].usage) in rows
    requires forall q | q in other :: ResponseRow(other[q].owner, q, other[q].usage) in rows
    ensures Covers(Repeats(rows, rs), Repeats(rows, own), Repeats(rows, other))
  {
    forall q ensures q in rs <==> q in own || q in other { assert q in rs.Keys <==> q in own.Keys + other.Keys; }
  }

  lemma PartsSize(rs: Responses, own: Responses, other: Responses)
    requires Parts(rs, own, other)
    ensures |rs| == |own| + |other|
  {
    assert |rs| == |rs.Keys| && |own| == |own.Keys| && |other| == |other.Keys|;
  }

  /**
    Totals of root and descendants add up to the combined one: of what is known, and of
    everything, which is known exactly when both are.
   */
  lemma CombinedIsSum(s: Summary, rows: multiset<Row>, root: Ref, m: Metric)
    requires Accepts(rows, root) && SummaryIs(s, rows, root) && m in METRICS
    ensures m in s.root.complete && m in s.children.complete && m in s.combined.complete
    ensures s.combined.complete[m].Some? <==> s.root.complete[m].Some? && s.children.complete[m].Some?
    ensures s.combined.complete[m].Some? ==> s.combined.complete[m].value == s.root.complete[m].value + s.children.complete[m].value
    ensures m in s.root.observed && m in s.children.observed && m in s.combined.observed
    ensures s.combined.observed[m].GetOr(0) == s.root.observed[m].GetOr(0) + s.children.observed[m].GetOr(0)
    ensures s.combined.agents == s.root.agents + s.children.agents && s.combined.retries == s.root.retries + s.children.retries
    ensures s.combined.responses == s.root.responses + s.children.responses
  {
    hide Sum, Known, Repeats, ParentsOf, ResponsesOf, OwnedBy, Tree, Fits, ValidUsage, AgentsAgree, ResponsesAgree, Owners, Observed,
      Complete, Parts, GroupIs;
    ResponsesAreRows(rows);
    var agents, rs := ParentsOf(rows).Keys, ResponsesOf(rows);
    var own, other := OwnedBy(rs, {root}), OwnedBy(rs, agents - {root});
    TreeHasRoot(ParentsOf(rows), root);
    OwnedParts(rs, agents, root);
    KnownSplits(rs, own, other, m);
    RepeatsSplit(rows, rs, own, other);
    NoOthers(rs, agents, root);
    CompleteSplits(agents, rs, own, other, root, m);
    ObservedSplits(agents, rs, own, other, root, m);
    RootApart(agents, root);
    GroupHas(s.root, rows, {root}, own, m);
    GroupHas(s.children, rows, agents - {root}, other, m);
    GroupHas(s.combined, rows, agents, rs, m);
  }

  lemma TreeHasRoot(parents: Parents, root: Ref)
    requires Tree(parents, root)
    ensures root in parents
  {
    hide Reaches;
  }

  lemma NoOthers(rs: Responses, agents: set<Ref>, root: Ref)
    ensures agents - {root} == {} ==> OwnedBy(rs, agents - {root}) == map[]
  {
  }

  lemma RootApart(agents: set<Ref>, root: Ref)
    requires root in agents
    ensures |agents| == |{root}| + |agents - {root}|
  {
    assert agents == {root} + (agents - {root});
  }

  lemma GroupHas(g: Group, rows: multiset<Row>, agents: set<Ref>, rs: Responses, m: Metric)
    requires ValidResponses(rs) && forall q | q in rs :: ResponseRow(rs[q].owner, q, rs[q].usage) in rows
    requires GroupIs(g, rows, agents, rs) && m in METRICS
    ensures g.agents == |agents| && g.responses == |rs| && g.retries == Sum(Repeats(rows, rs))
    ensures m in g.complete && g.complete[m] == Complete(agents, rs, m)
    ensures m in g.observed && g.observed[m] == Observed(agents, rs, m)
  {
    hide Sum, Known, Repeats, Observed, Complete, ValidUsage, Owners;
  }

  lemma ObservedSplits(agents: set<Ref>, rs: Responses, own: Responses, other: Responses, root: Ref, m: Metric)
    requires ValidResponses(rs) && ValidResponses(own) && ValidResponses(other) && root in agents
    requires Sum(Known(rs, m)) == Sum(Known(own, m)) + Sum(Known(other, m))
    requires agents - {root} == {} ==> other == map[]
    ensures Observed(agents, rs, m).GetOr(0) == Observed({root}, own, m).GetOr(0) + Observed(agents - {root}, other, m).GetOr(0)
  {
    assert other == map[] ==> Known(other, m) == map[];
    SumNothing();
    hide Sum, Known, ValidResponses;
  }

  lemma CompleteSplits(agents: set<Ref>, rs: Responses, own: Responses, other: Responses, root: Ref, m: Metric)
    requires ValidResponses(rs) && ValidResponses(own) && ValidResponses(other) && root in agents
    requires Sum(Known(rs, m)) == Sum(Known(own, m)) + Sum(Known(other, m))
    requires Known(rs, m).Keys == rs.Keys <==> Known(own, m).Keys == own.Keys && Known(other, m).Keys == other.Keys
    requires Owners(rs) == Owners(own) + Owners(other) && Owners(own) <= {root} && Owners(other) <= agents - {root}
    requires agents - {root} == {} ==> other == map[]
    ensures var all, part, rest := Complete(agents, rs, m), Complete({root}, own, m), Complete(agents - {root}, other, m);
      (all.Some? <==> part.Some? && rest.Some?) && (all.Some? ==> all.value == part.value + rest.value)
  {
    hide MetricOf;
    assert Owners(rs) == agents <==> Owners(own) == {root} && Owners(other) == agents - {root};
    if agents - {root} == {} { assert Known(other, m) == map[]; }
  }

  // ----- Totals of a group -----

  /** One map is the sum of two others, key by key. */
  ghost predicate AddsUp(all: map<Ref, nat>, a: map<Ref, nat>, b: map<Ref, nat>) {
    all.Keys == a.Keys && all.Keys == b.Keys && forall k | k in all :: all[k] == a[k] + b[k]
  }

  lemma AddsUpWithout(all: map<Ref, nat>, a: map<Ref, nat>, b: map<Ref, nat>, j: Ref)
    requires AddsUp(all, a, b)
    ensures AddsUp(all - {j}, a - {j}, b - {j})
  {
    assert (all - {j}).Keys == all.Keys - {j} && (a - {j}).Keys == a.Keys - {j} && (b - {j}).Keys == b.Keys - {j};
  }

  lemma {:induction false} SumOfSums(all: map<Ref, nat>, a: map<Ref, nat>, b: map<Ref, nat>)
    requires AddsUp(all, a, b)
    ensures Sum(all) == Sum(a) + Sum(b)
    decreases |all|
  {
    if all == map[] {
      assert a.Keys == {} && b.Keys == {};
      assert a == map[] && b == map[];
      SumNothing();
    } else {
      var j :| j in all;
      assert j in a.Keys && j in b.Keys;
      AddsUpWithout(all, a, b, j);
      hide Sum, AddsUp;
      SumRemove(all, j);
      SumRemove(a, j);
      SumRemove(b, j);
      SumOfSums(all - {j}, a - {j}, b - {j});
    }
  }

  /** Of three figures, the derived one is known exactly where the two it is made of are, and then one is the sum of the others. */
  predicate SumOf(derived: Option<nat>, x: Option<nat>, y: Option<nat>, all: Option<nat>, a: Option<nat>, b: Option<nat>) {
    (derived.Some? <==> x.Some? && y.Some?) && (derived.Some? ==> all.Some? && a.Some? && b.Some? && all.value == a.value + b.value)
  }

  predicate Derives(u: Usage, derived: Metric, x: Metric, y: Metric, all: Metric, a: Metric, b: Metric)
    requires ValidUsage(u)
  {
    SumOf(MetricOf(u, derived), MetricOf(u, x), MetricOf(u, y), MetricOf(u, all), MetricOf(u, a), MetricOf(u, b))
  }

  lemma MetricsDerive(u: Usage)
    requires ValidUsage(u)
    ensures Derives(u, TotalTokens, Input, Output, TotalTokens, Input, Output)
    ensures Derives(u, Uncached, Input, Cached, Input, Cached, Uncached)
    ensures Derives(u, Nonreasoning, Output, Reasoning, Output, Reasoning, Nonreasoning)
  {
  }

  predicate KnownFor(rs: Responses, m: Metric)
    requires ValidResponses(rs)
  {
    forall q | q in rs :: MetricOf(rs[q].usage, m).Some?
  }

  ghost predicate AllDerive(rs: Responses, derived: Metric, x: Metric, y: Metric, all: Metric, a: Metric, b: Metric)
    requires ValidResponses(rs)
  {
    forall q | q in rs :: Derives(rs[q].usage, derived, x, y, all, a, b)
  }

  lemma DerivesAt(u: Usage, derived: Metric, x: Metric, y: Metric, all: Metric, a: Metric, b: Metric)
    requires ValidUsage(u) && Derives(u, derived, x, y, all, a, b)
    ensures MetricOf(u, derived).Some? <==> MetricOf(u, x).Some? && MetricOf(u, y).Some?
    ensures MetricOf(u, derived).Some? ==> MetricOf(u, all).Some? && MetricOf(u, a).Some? && MetricOf(u, b).Some?
    ensures MetricOf(u, derived).Some? ==> MetricOf(u, all).value == MetricOf(u, a).value + MetricOf(u, b).value
  {
    hide MetricOf, ValidUsage;
  }

  lemma DerivedKnown(rs: Responses, derived: Metric, x: Metric, y: Metric, all: Metric, a: Metric, b: Metric)
    requires ValidResponses(rs) && AllDerive(rs, derived, x, y, all, a, b)
    ensures KnownFor(rs, derived) <==> KnownFor(rs, x) && KnownFor(rs, y)
    ensures KnownFor(rs, derived) ==> KnownFor(rs, all) && KnownFor(rs, a) && KnownFor(rs, b)
  {
    hide MetricOf, ValidUsage, Derives;
    forall q | q in rs
      ensures MetricOf(rs[q].usage, derived).Some? <==> MetricOf(rs[q].usage, x).Some? && MetricOf(rs[q].usage, y).Some?
      ensures MetricOf(rs[q].usage, derived).Some? ==>
        MetricOf(rs[q].usage, all).Some? && MetricOf(rs[q].usage, a).Some? && MetricOf(rs[q].usage, b).Some?
    {
      DerivesAt(rs[q].usage, derived, x, y, all, a, b);
    }
  }

  lemma KnownForIs(rs: Responses, m: Metric)
    requires ValidResponses(rs)
    ensures KnownFor(rs, m) <==> Known(rs, m).Keys == rs.Keys
  {
    hide MetricOf, Known, ValidUsage;
    AllKnown(rs, m);
  }

  lemma KnownAdds(rs: Responses, derived: Metric, x: Metric, y: Metric, all: Metric, a: Metric, b: Metric)
    requires ValidResponses(rs) && AllDerive(rs, derived, x, y, all, a, b) && KnownFor(rs, derived)
    ensures AddsUp(Known(rs, all), Known(rs, a), Known(rs, b))
  {
    hide MetricOf, Known, ValidUsage;
    DerivedKnown(rs, derived, x, y, all, a, b);
    KnownForIs(rs, all);
    KnownForIs(rs, a);
    KnownForIs(rs, b);
    KnownIs(rs, all);
    KnownIs(rs, a);
    KnownIs(rs, b);
    forall q | q in Known(rs, all) ensures Known(rs, all)[q] == Known(rs, a)[q] + Known(rs, b)[q] {
      assert Derives(rs[q].usage, derived, x, y, all, a, b);
    }
  }

  lemma CompleteIs(agents: set<Ref>, rs: Responses, m: Metric)
    requires ValidResponses(rs)
    ensures Complete(agents, rs, m) == if agents == {} then Some(0)
                                       else if Owners(rs) != agents || !KnownFor(rs, m) then None
                                       else Some(Sum(Known(rs, m)))
  {
    hide MetricOf, Known, Sum, Owners, ValidUsage;
    KnownForIs(rs, m);
  }

  lemma CompleteAdds(agents: set<Ref>, rs: Responses, derived: Metric, x: Metric, y: Metric, all: Metric, a: Metric, b: Metric)
    requires ValidResponses(rs) && AllDerive(rs, derived, x, y, all, a, b)
    ensures SumOf(Complete(agents, rs, derived), Complete(agents, rs, x), Complete(agents, rs, y),
                  Complete(agents, rs, all), Complete(agents, rs, a), Complete(agents, rs, b))
  {
    hide MetricOf, Known, Sum, Owners, ValidResponses, AddsUp, AllDerive, Complete, KnownFor;
    DerivedKnown(rs, derived, x, y, all, a, b);
    CompleteIs(agents, rs, derived);
    CompleteIs(agents, rs, x);
    CompleteIs(agents, rs, y);
    CompleteIs(agents, rs, all);
    CompleteIs(agents, rs, a);
    CompleteIs(agents, rs, b);
    if KnownFor(rs, derived) {
      KnownAdds(rs, derived, x, y, all, a, b);
      SumOfSums(Known(rs, all), Known(rs, a), Known(rs, b));
    }
  }

  /** What a metric being complete means for the responses: everyone responded and every value is known. */
  lemma CompleteMeans(agents: set<Ref>, rs: Responses, m: Metric)
    requires ValidResponses(rs) && agents != {} && Owners(rs) <= agents
    ensures Complete(agents, rs, m).Some? <==>
      (forall a | a in agents :: exists q :: q in rs && rs[q].owner == a) && forall q | q in rs :: MetricOf(rs[q].usage, m).Some?
  {
    hide MetricOf, Sum, ValidResponses;
    AllKnown(rs, m);
    if forall a | a in agents :: exists q :: q in rs && rs[q].owner == a { assert agents <= Owners(rs); }
    if Owners(rs) == agents {
      forall a | a in agents ensures exists q :: q in rs && rs[q].owner == a { assert a in Owners(rs); }
    }
    hide Known;
  }

  /** Totals are input plus output, input is cached plus uncached, output is reasoning plus the rest; each derived one is complete where its parts are. */
  predicate TotalsAdd(g: Group) {
    var c := g.complete;
    && c.Keys >= {Input, Cached, Output, Reasoning, TotalTokens, Uncached, Nonreasoning}
    && SumOf(c[TotalTokens], c[Input], c[Output], c[TotalTokens], c[Input], c[Output])
    && SumOf(c[Uncached], c[Input], c[Cached], c[Input], c[Cached], c[Uncached])
    && SumOf(c[Nonreasoning], c[Output], c[Reasoning], c[Output], c[Reasoning], c[Nonreasoning])
  }

  lemma GroupTotals(g: Group, rows: multiset<Row>, agents: set<Ref>, rs: Responses)
    requires ValidResponses(rs) && forall q | q in rs :: ResponseRow(rs[q].owner, q, rs[q].usage) in rows
    requires GroupIs(g, rows, agents, rs)
    ensures TotalsAdd(g)
  {
    hide GroupIs, Complete, SumOf, Derives, ValidUsage;
    AllMetrics();
    forall q | q in rs
      ensures Derives(rs[q].usage, TotalTokens, Input, Output, TotalTokens, Input, Output)
      ensures Derives(rs[q].usage, Uncached, Input, Cached, Input, Cached, Uncached)
      ensures Derives(rs[q].usage, Nonreasoning, Output, Reasoning, Output, Reasoning, Nonreasoning)
    {
      MetricsDerive(rs[q].usage);
    }
    forall m: Metric | m in METRICS ensures m in g.complete && g.complete[m] == Complete(agents, rs, m) { GroupHas(g, rows, agents, rs, m); }
    CompleteAdds(agents, rs, TotalTokens, Input, Output, TotalTokens, Input, Output);
    CompleteAdds(agents, rs, Uncached, Input, Cached, Input, Cached, Uncached);
    CompleteAdds(agents, rs, Nonreasoning, Output, Reasoning, Output, Reasoning, Nonreasoning);
  }

  lemma AllMetrics()
    ensures forall m: Metric :: m in METRICS
  {
    forall m: Metric ensures m in METRICS {
      match m
      case Input => assert METRICS[0] == m;
      case Cached => assert METRICS[1] == m;
      case Output => assert METRICS[2] == m;
      case Reasoning => assert METRICS[3] == m;
      case TotalTokens => assert METRICS[4] == m;
      case Uncached => assert METRICS[5] == m;
      case Nonreasoning => assert METRICS[6] == m;
    }
  }

  /**
    In each group of an accepted summary, total tokens are input plus output, input is cached plus
    uncached, and output is reasoning plus the rest, wherever the parts are complete.
   */
  lemma SummaryAddsUp(s: Summary, rows: multiset<Row>, root: Ref)
    requires Accepts(rows, root) && SummaryIs(s, rows, root)
    ensures TotalsAdd(s.root) && TotalsAdd(s.children) && TotalsAdd(s.combined)
  {
    hide Known, Repeats, ParentsOf, ResponsesOf, Tree, Fits, ValidUsage, AgentsAgree, ResponsesAgree, Owners, GroupIs, TotalsAdd;
    ResponsesAreRows(rows);
    var agents, rs := ParentsOf(rows).Keys, ResponsesOf(rows);
    GroupTotals(s.root, rows, {root}, OwnedBy(rs, {root}));
    GroupTotals(s.children, rows, agents - {root}, OwnedBy(rs, agents - {root}));
    GroupTotals(s.combined, rows, agents, rs);
  }
}
