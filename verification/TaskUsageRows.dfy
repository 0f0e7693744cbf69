/**
  What the rows of a task say, told by the rows alone: which are accepted, and how many of them
  are repetitions.
 */
module TaskUsageRows {
  import opened Options
  import opened TaskUsage

  // ----- The tree -----

  /** Agents, each a row's agent under the next as its parent. */
  predicate Path(rows: multiset<Row>, path: seq<Ref>) {
    path != [] && forall k | 0 <= k < |path| - 1 :: AgentRow(path[k], Some(path[k + 1])) in rows
  }

  ghost predicate LeadsTo(rows: multiset<Row>, a: Ref, root: Ref) {
    exists path :: Path(rows, path) && path[0] == a && path[|path| - 1] == root
  }

  /** The root has no parent, and from every agent a path of parents leads to it. */
  ghost predicate OneTree(rows: multiset<Row>, root: Ref) {
    && AgentRow(root, None) in rows
    && forall row | row in rows && row.AgentRow? :: LeadsTo(rows, row.agent, root)
  }

  lemma {:induction false} AncestorPath(rows: multiset<Row>, parents: Parents, a: Ref, n: nat, root: Ref) returns (path: seq<Ref>)
    requires ParentsMatch(rows, parents) && Ancestor(parents, a, n) == Some(root)
    ensures Path(rows, path) && path[0] == a && path[|path| - 1] == root
    decreases n
  {
    if n == 0 {
      path := [a];
    } else {
      var rest := AncestorPath(rows, parents, parents[a].value, n - 1, root);
      assert AgentRow(a, parents[a]) in rows;
      path := [a] + rest;
      assert forall k | 0 < k < |path| - 1 :: path[k] == rest[k - 1] && path[k + 1] == rest[k];
    }
  }

  lemma {:induction false} PathAncestor(rows: multiset<Row>, parents: Parents, path: seq<Ref>)
    requires ParentsMatch(rows, parents) && Path(rows, path)
    ensures Ancestor(parents, path[0], |path| - 1) == Some(path[|path| - 1])
    decreases |path|
  {
    if |path| > 1 {
      var rest := path[1..];
      assert AgentRow(path[0], Some(path[1])) in rows;
      forall k | 0 <= k < |rest| - 1 ensures AgentRow(rest[k], Some(rest[k + 1])) in rows {
        assert AgentRow(path[k + 1], Some(path[k + 2])) in rows;
      }
      PathAncestor(rows, parents, rest);
    }
  }

  /** A path that does not stop at once leaves its first agent for another listed one. */
  lemma PathLeaves(rows: multiset<Row>, parents: Parents, a: Ref, root: Ref)
    requires ParentsMatch(rows, parents) && a in parents && a != root && root in parents && forall b | b in parents :: Reaches(parents, b, root)
    requires parents[root] == None
    ensures parents[a].Some? && parents[a].value in parents && parents[a].value != a
  {
    var n :| Ancestor(parents, a, n) == Some(root);
    Loops(parents, a, n, root);
    if n == 1 { assert Ancestor(parents, parents[a].value, 0) == Some(parents[a].value); }
  }

  /** An agent that is its own parent reaches nothing else. */
  lemma {:induction false} Loops(parents: Parents, a: Ref, n: nat, root: Ref)
    requires Ancestor(parents, a, n) == Some(root) && a in parents && a != root
    ensures n > 0 && parents[a].Some? && parents[a].value != a
    ensures parents[a].value in parents || (n == 1 && parents[a].value == root)
    decreases n
  {
    assert n > 0 && parents[a].Some?;
    var b := parents[a].value;
    assert Ancestor(parents, b, n - 1) == Some(root);
    if b == a { Loops(parents, a, n - 1, root); }
  }

  lemma TreeIs(rows: multiset<Row>, parents: Parents, root: Ref)
    requires ParentsMatch(rows, parents)
    ensures Tree(parents, root) <==> OneTree(rows, root)
  {
    hide ParentsMatch;
    if Tree(parents, root) {
      RootRow(rows, parents, root);
      forall row | row in rows && row.AgentRow? ensures LeadsTo(rows, row.agent, root) {
        RowAgent(rows, parents, row);
        var n :| Ancestor(parents, row.agent, n) == Some(root);
        var path := AncestorPath(rows, parents, row.agent, n, root);
      }
    }
    if OneTree(rows, root) {
      RootRow(rows, parents, root);
      forall a | a in parents ensures Reaches(parents, a, root) {
        AgentHasRow(rows, parents, a);
        var path :| Path(rows, path) && path[0] == a && path[|path| - 1] == root;
        PathAncestor(rows, parents, path);
      }
      forall a | a in parents && a != root ensures parents[a].Some? && parents[a].value != a && parents[a].value in parents {
        PathLeaves(rows, parents, a, root);
      }
    }
  }

  lemma RootRow(rows: multiset<Row>, parents: Parents, root: Ref)
    requires ParentsMatch(rows, parents)
    ensures AgentRow(root, None) in rows <==> root in parents && parents[root] == None
  {
  }

  lemma RowAgent(rows: multiset<Row>, parents: Parents, row: Row)
    requires ParentsMatch(rows, parents) && row in rows && row.AgentRow?
    ensures row.agent in parents && parents[row.agent] == row.parent
  {
  }

  lemma AgentHasRow(rows: multiset<Row>, parents: Parents, a: Ref)
    requires ParentsMatch(rows, parents) && a in parents
    ensures AgentRow(a, parents[a]) in rows
  {
  }

  // ----- What is accepted -----

  /** Values within 63 bits; cached within input and reasoning within output; and a total within 63 bits. */
  predicate Sound(u: Usage) {
    && (forall v | v in [u.input, u.cached, u.output, u.reasoning] && v.Some? :: v.value < 0x8000_0000_0000_0000)
    && !(u.input.Some? && u.cached.Some? && u.cached.value > u.input.value)
    && !(u.output.Some? && u.reasoning.Some? && u.reasoning.value > u.output.value)
    && !(u.input.Some? && u.output.Some? && u.input.value + u.output.value >= 0x8000_0000_0000_0000)
  }

  lemma SoundIs(u: Usage)
    ensures Sound(u) <==> ValidUsage(u)
  {
    var values := [u.input, u.cached, u.output, u.reasoning];
    assert values[0] == u.input && values[1] == u.cached && values[2] == u.output && values[3] == u.reasoning;
    assert forall v :: v in values <==> v == u.input || v == u.cached || v == u.output || v == u.reasoning;
  }

  /** The agents that the rows name. */
  function AgentsOf(rows: multiset<Row>): set<Ref> { set row | row in rows && row.AgentRow? :: row.agent }

  /** Rows of one agent give it one parent, and rows of one response are the same. */
  predicate NoConflict(rows: multiset<Row>) {
    forall x, y | x in rows && y in rows ::
      && (x.AgentRow? && y.AgentRow? && x.agent == y.agent ==> x == y)
      && (x.ResponseRow? && y.ResponseRow? && x.response == y.response ==> x == y)
  }

  /** Every response is of a listed agent, and what it states is sound. */
  predicate SoundResponses(rows: multiset<Row>) {
    forall row | row in rows && row.ResponseRow? :: row.agent in AgentsOf(rows) && Sound(row.usage)
  }

  /** No total of a metric over all responses is past 63 bits. */
  ghost predicate NoOverflow(rs: Responses)
    requires ValidResponses(rs)
  {
    forall m: Metric :: Sum(Known(rs, m)) < 0x8000_0000_0000_0000
  }

  /** Everything the rows must meet but for the sums over them. */
  ghost predicate WellSupplied(rows: multiset<Row>, root: Ref) {
    && |rows| <= 10000 && Malformed !in rows && NoConflict(rows) && |AgentsOf(rows)| <= 256 && OneTree(rows, root) && SoundResponses(rows)
  }

  lemma AgreesIs(rows: multiset<Row>)
    ensures NoConflict(rows) <==> AgentsAgree(rows) && ResponsesAgree(rows)
  {
  }

  lemma AgentsAre(rows: multiset<Row>)
    requires AgentsAgree(rows)
    ensures ParentsOf(rows).Keys == AgentsOf(rows) && |ParentsOf(rows)| == |AgentsOf(rows)|
  {
    var parents := ParentsOf(rows);
    assert |parents| == |parents.Keys|;
    assert parents.Keys == AgentsOf(rows);
  }

  lemma ResponsesSound(rows: multiset<Row>)
    requires AgentsAgree(rows) && ResponsesAgree(rows)
    ensures SoundResponses(rows) <==> ValidResponses(ResponsesOf(rows)) && Owners(ResponsesOf(rows)) <= ParentsOf(rows).Keys
  {
    hide ValidUsage, Sound, ParentsOf, AgentsAgree, AgentsOf, ResponsesOf, ResponsesAgree;
    AgentsAre(rows);
    ResponsesAre(rows, ResponsesOf(rows));
    var rs := ResponsesOf(rows);
    forall u ensures Sound(u) <==> ValidUsage(u) { SoundIs(u); }
    forall row | row in rows && row.ResponseRow? ensures row.response in rs && rs[row.response] == Response(row.agent, row.usage) {}
    forall q | q in rs ensures ResponseRow(rs[q].owner, q, rs[q].usage) in rows && rs[q].owner in Owners(rs) {}
    if ValidResponses(rs) && Owners(rs) <= AgentsOf(rows) {
      forall row | row in rows && row.ResponseRow? ensures row.agent in AgentsOf(rows) && Sound(row.usage) {
        assert rs[row.response].owner in Owners(rs);
      }
    }
    if SoundResponses(rows) {
      forall q | q in rs ensures ValidUsage(rs[q].usage) && rs[q].owner in AgentsOf(rows) {
        assert ResponseRow(rs[q].owner, q, rs[q].usage) in rows;
      }
    }
  }

  lemma FitsIs(agents: set<Ref>, rs: Responses, root: Ref)
    requires ValidResponses(rs) && root in agents && Owners(rs) <= agents
    ensures ValidResponses(OwnedBy(rs, {root})) && ValidResponses(OwnedBy(rs, agents - {root}))
    ensures NoOverflow(rs) <==> Fits({root}, OwnedBy(rs, {root})) && Fits(agents - {root}, OwnedBy(rs, agents - {root})) && Fits(agents, rs)
  {
    var own, other := OwnedBy(rs, {root}), OwnedBy(rs, agents - {root});
    OwnedParts(rs, agents, root);
    hide Sum, Known, OwnedBy, Parts, ValidResponses, Owners;
    PartsValid(rs, own, other);
    forall m: Metric ensures Sum(Known(rs, m)) == Sum(Known(own, m)) + Sum(Known(other, m)) { KnownSplits(rs, own, other, m); }
  }

  /**
    Rows are accepted exactly when there are at most 10000, well-formed and without conflict, of
    at most 256 agents in one tree under the root, with sound responses of listed agents whose
    totals stay within 63 bits.
   */
  lemma AcceptsExactly(rows: multiset<Row>, root: Ref)
    ensures Accepts(rows, root) <==>
      WellSupplied(rows, root) && ResponsesAgree(rows) && ValidResponses(ResponsesOf(rows)) && NoOverflow(ResponsesOf(rows))
  {
    hide AgentsAgree, ResponsesAgree, ParentsOf, ResponsesOf, Tree, OneTree, Owners, Fits, NoOverflow, ValidResponses, NoConflict, AgentsOf, SoundResponses,
      OwnedBy;
    AgreesIs(rows);
    if AgentsAgree(rows) && ResponsesAgree(rows) {
      var parents, rs := ParentsOf(rows), ResponsesOf(rows);
      ParentsAre(rows, parents);
      AgentsAre(rows);
      TreeIs(rows, parents, root);
      ResponsesSound(rows);
      if Tree(parents, root) && ValidResponses(rs) && Owners(rs) <= parents.Keys {
        TreeHasRoot(parents, root);
        FitsIs(parents.Keys, rs, root);
      }
    }
  }

  // ----- Repetitions -----

  /** How many of the rows are responses. */
  function ResponseCount(rows: seq<Row>): nat {
    if rows == [] then 0 else ResponseCount(rows[..|rows| - 1]) + (if rows[|rows| - 1].ResponseRow? then 1 else 0)
  }

  /** How often responses are repeated, as the summary counts it. */
  ghost function Retried(rows: multiset<Row>): nat
    requires ResponsesAgree(rows)
  {
    ResponsesAreRows(rows);
    Sum(Repeats(rows, ResponsesOf(rows)))
  }

  lemma FewerAgree(rows: multiset<Row>, row: Row)
    requires ResponsesAgree(rows + multiset{row})
    ensures ResponsesAgree(rows)
  {
    forall x | x in rows ensures x in rows + multiset{row} {}
  }

  lemma OneMore(rows: multiset<Row>, row: Row)
    ensures var more := rows + multiset{row};
      more[row] == rows[row] + 1 && (forall x: Row | x != row :: more[x] == rows[x]) && forall x: Row :: x in more <==> x in rows || x == row
  {
  }

  lemma RetriedIs(rows: multiset<Row>, rs: Responses)
    requires ResponsesMatch(rows, rs)
    ensures ResponsesAgree(rows) && ResponsesOf(rows) == rs && Retried(rows) == Sum(Repeats(rows, rs))
  {
    hide ResponsesMatch, Sum, Repeats, ResponsesOf, ResponsesAgree;
    ResponsesAre(rows, rs);
  }

  lemma AddOther(rows: multiset<Row>, row: Row)
    requires ResponsesAgree(rows) && !row.ResponseRow?
    ensures ResponsesAgree(rows + multiset{row}) && ResponsesOf(rows + multiset{row}) == ResponsesOf(rows)
    ensures Retried(rows + multiset{row}) == Retried(rows)
  {
    hide Sum, ResponsesOf, ResponsesAgree, Retried;
    var more, rs := rows + multiset{row}, ResponsesOf(rows);
    ResponsesAre(rows, rs);
    OneMore(rows, row);
    RetriedIs(rows, rs);
    RetriedIs(more, rs);
    assert Repeats(more, rs) == Repeats(rows, rs);
  }

  /** A repetition counts once more. */
  lemma AddRepeat(rows: multiset<Row>, row: Row)
    requires ResponsesAgree(rows) && row.ResponseRow? && row in rows
    ensures ResponsesAgree(rows + multiset{row}) && ResponsesOf(rows + multiset{row}) == ResponsesOf(rows)
    ensures Retried(rows + multiset{row}) == Retried(rows) + 1
  {
    hide Sum, ResponsesOf, ResponsesAgree, Retried;
    var more, rs, q := rows + multiset{row}, ResponsesOf(rows), row.response;
    ResponsesAre(rows, rs);
    OneMore(rows, row);
    RetriedIs(rows, rs);
    RetriedIs(more, rs);
    var before, after := Repeats(rows, rs), Repeats(more, rs);
    hide ResponsesMatch, Repeats;
    RepeatsAt(rows, more, rs, row);
    SumRemove(before, q);
    SumRemove(after, q);
  }

  lemma RepeatsAt(rows: multiset<Row>, more: multiset<Row>, rs: Responses, row: Row)
    requires ResponsesMatch(rows, rs) && ResponsesMatch(more, rs) && row in rows && row.ResponseRow? && more == rows + multiset{row}
    ensures var before, after := Repeats(rows, rs), Repeats(more, rs);
      row.response in before && row.response in after && after[row.response] == before[row.response] + 1 && after - {row.response} == before - {row.response}
  {
    OneMore(rows, row);
    var before, after := Repeats(rows, rs), Repeats(more, rs);
    forall p | p in rs && p != row.response ensures after[p] == before[p] { assert ResponseRow(rs[p].owner, p, rs[p].usage) != row; }
    assert after.Keys == rs.Keys && before.Keys == rs.Keys;
    assert after - {row.response} == before - {row.response};
  }

  /** A response not seen before is not a repetition. */
  lemma AddNew(rows: multiset<Row>, row: Row)
    requires ResponsesAgree(rows + multiset{row}) && ResponsesAgree(rows) && row.ResponseRow? && row !in rows
    ensures Retried(rows + multiset{row}) == Retried(rows) && |ResponsesOf(rows + multiset{row})| == |ResponsesOf(rows)| + 1
  {
    hide Sum, ResponsesOf, Retried;
    var more, rs, q := rows + multiset{row}, ResponsesOf(rows), row.response;
    var now := rs[q := Response(row.agent, row.usage)];
    ResponsesAre(rows, rs);
    OneMore(rows, row);
    NotSeen(rows, row, rs);
    hide ResponsesAgree;
    RetriedIs(rows, rs);
    RetriedIs(more, now);
    RepeatsNew(rows, more, rs, now, row);
    assert now.Keys == rs.Keys + {q};
    assert |now| == |now.Keys| && |rs| == |rs.Keys|;
  }

  lemma NotSeen(rows: multiset<Row>, row: Row, rs: Responses)
    requires ResponsesAgree(rows + multiset{row}) && ResponsesMatch(rows, rs) && row.ResponseRow? && row !in rows
    ensures row.response !in rs
  {
    assert forall x: Row | x in rows :: x in rows + multiset{row};
    assert row in rows + multiset{row};
  }

  lemma RepeatsNew(rows: multiset<Row>, more: multiset<Row>, rs: Responses, now: Responses, row: Row)
    requires ResponsesMatch(rows, rs) && ResponsesMatch(more, now) && row.ResponseRow? && row !in rows && row.response !in rs
    requires more == rows + multiset{row} && now == rs[row.response := Response(row.agent, row.usage)]
    ensures Sum(Repeats(more, now)) == Sum(Repeats(rows, rs))
  {
    hide Sum;
    OneMore(rows, row);
    var before, after := Repeats(rows, rs), Repeats(more, now);
    forall p | p in rs ensures after[p] == before[p] { assert ResponseRow(rs[p].owner, p, rs[p].usage) != row; }
    assert after[row.response] == 0;
    SumRemove(after, row.response);
    assert after - {row.response} == before;
  }

  /** Every response row is a response or a repetition of one. */
  lemma {:induction false} RowsAreCounted(rows: seq<Row>)
    requires ResponsesAgree(multiset(rows))
    ensures Retried(multiset(rows)) + |ResponsesOf(multiset(rows))| == ResponseCount(rows)
    decreases |rows|
  {
    if rows == [] {
      assert ResponsesOf(multiset(rows)) == map[];
    } else {
      var init, row := rows[..|rows| - 1], rows[|rows| - 1];
      assert rows == init + [row];
      assert multiset(rows) == multiset(init) + multiset{row};
      hide ResponsesOf, ResponsesAgree, Retried;
      FewerAgree(multiset(init), row);
      RowsAreCounted(init);
      if !row.ResponseRow? {
        AddOther(multiset(init), row);
      } else if row in multiset(init) {
        AddRepeat(multiset(init), row);
      } else {
        AddNew(multiset(init), row);
      }
    }
  }

  /** The combined group's responses and retries make up the response rows supplied. */
  lemma RetriesAreTheRest(s: Summary, rows: seq<Row>, root: Ref)
    requires Accepts(multiset(rows), root) && SummaryIs(s, multiset(rows), root)
    ensures s.combined.responses + s.combined.retries == ResponseCount(rows)
  {
    hide AgentsAgree, ResponsesAgree, ParentsOf, ResponsesOf, Tree, Owners, Fits, ValidResponses, OwnedBy, Observed, Complete;
    RowsAreCounted(rows);
  }
}
