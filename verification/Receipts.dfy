/**
  The receipts of a partitioned test run: each shard reports the outcomes of the tests it was
  assigned, and the reports are accepted only if together they are one clean run of the
  whole collection.
 */
module Receipts {
  import opened Options
  import Ordering
  import opened Partition

  type Binding = nat

  datatype Status = Passed | Skipped | Failed

  /** The phases of one test and the counts of its subtests. */
  datatype Outcome = Outcome(test: Test, setup: Status, called: Option<Status>, teardown: Status, xfail: bool,
                             passed: nat, skipped: nat, failed: nat)

  datatype Shard = Zero | One | Serial

  datatype Receipt = Receipt(shard: Shard, binding: Binding, elapsed: int, exitCode: int, completed: bool,
                             tests: seq<Test>, selected: seq<Test>, outcomes: seq<Outcome>)

  /** The collection: its tests in node id order, and in the order they were collected in. */
  datatype Manifest = Manifest(binding: Binding, tests: seq<Test>, order: seq<Test>)

  /** What acceptance reports: how many tests, agreement with the serial run if there was one, and every outcome by node id. */
  datatype Verdict = Verdict(count: nat, parity: Option<bool>, coverage: seq<Outcome>)

  predicate Increasing(tests: seq<Test>) { forall i, j | 0 <= i < j < |tests| :: tests[i] < tests[j] }

  predicate Members(tests: seq<Test>, others: seq<Test>) { forall t | t in tests :: t in others }

  predicate ValidManifest(m: Manifest) {
    && m.tests != [] && Increasing(m.tests) && Ordering.Distinct(m.order) && |m.order| == |m.tests|
    && Members(m.order, m.tests) && Members(m.tests, m.order)
  }

  /** A test that passed or was skipped, and none of whose subtests failed. */
  predicate Clean(o: Outcome) {
    && o.setup in {Passed, Skipped} && o.teardown == Passed && o.failed == 0
    && if o.setup == Skipped then o.called == None else o.called in {Some(Passed), Some(Skipped)}
  }

  // ----- What is accepted -----

  /** The outcomes of these tests, in order, all clean. */
  predicate Reports(outcomes: seq<Outcome>, tests: seq<Test>) {
    |outcomes| == |tests| && forall i | 0 <= i < |tests| :: outcomes[i].test == tests[i] && Clean(outcomes[i])
  }

  /** A complete and clean run of exactly these tests, in this order, on one shard. */
  predicate RanAll(r: Receipt, m: Manifest, shard: Shard, tests: seq<Test>) {
    && r.shard == shard && r.binding == m.binding && r.elapsed >= 0 && r.exitCode == 0 && r.completed
    && r.tests == m.tests && r.selected == tests && Reports(r.outcomes, tests)
  }

  ghost function ForOne(order: seq<Test>, weights: Weights): set<Test> { Others(order, ForZero(order, weights)) }

  ghost predicate SameOutcomes(a: seq<Outcome>, b: seq<Outcome>) { forall o :: o in a <==> o in b }

  /** Both shards ran what the partition gave them, and a serial run saw the same outcomes. */
  ghost predicate Verifies(binding: Binding, m: Manifest, weights: Weights, zero: Receipt, one: Receipt, serial: Option<Receipt>) {
    && ValidManifest(m) && m.binding == binding && |m.order| >= 2
    && RanAll(zero, m, Zero, Filter(m.order, ForZero(m.order, weights)))
    && RanAll(one, m, One, Filter(m.order, ForOne(m.order, weights)))
    && (serial.Some? ==> RanAll(serial.value, m, Serial, m.order) && SameOutcomes(serial.value.outcomes, zero.outcomes + one.outcomes))
  }

  /** Every collected test once, by node id, with a clean outcome that was reported. */
  ghost predicate Coverage(coverage: seq<Outcome>, tests: seq<Test>, reported: seq<Outcome>) {
    Reports(coverage, tests) && SameOutcomes(coverage, reported)
  }

  // ----- Validation as it runs -----

  method ValidateOutcomes(outcomes: seq<Outcome>, selected: seq<Test>) returns (ok: bool)
    ensures ok == Reports(outcomes, selected)
  {
    if |outcomes| != |selected| { return false; }
    for i := 0 to |selected|
      invariant forall k | 0 <= k < i :: outcomes[k].test == selected[k] && Clean(outcomes[k])
    {
      if outcomes[i].test != selected[i] || !Clean(outcomes[i]) { return false; }
    }
    return true;
  }

  /** What any receipt must satisfy, whatever it was to run: a selection of the collection in its order. */
  predicate ValidReceipt(r: Receipt, binding: Binding, m: Manifest, shard: Shard) {
    && r.shard == shard && r.binding == binding && r.elapsed >= 0 && r.exitCode == 0 && r.completed
    && r.tests == m.tests && r.selected != [] && Ordering.Distinct(r.selected) && Members(r.selected, r.tests)
    && r.selected == Filter(m.order, set t | t in r.selected)
    && Reports(r.outcomes, r.selected)
  }

  method ValidateReceipt(r: Receipt, binding: Binding, m: Manifest, shard: Shard) returns (ok: bool)
    ensures ok == ValidReceipt(r, binding, m, shard)
  {
    if r.shard != shard || r.binding != binding || r.elapsed < 0 || r.exitCode != 0 || !r.completed || r.tests != m.tests { return false; }
    if r.selected == [] || !Ordering.Distinct(r.selected) || !Members(r.selected, r.tests) { return false; }
    if r.selected != Filter(m.order, set t | t in r.selected) { return false; }
    ok := ValidateOutcomes(r.outcomes, r.selected);
  }

  predicate ByTest(x: Outcome, y: Outcome) { x.test <= y.test }

  /** The whole verification of a partitioned run. */
  method VerifyValues(binding: Binding, m: Manifest, weights: Weights, zero: Receipt, one: Receipt, serial: Option<Receipt>)
    returns (r: Option<Verdict>)
    ensures r.Some? <==> Verifies(binding, m, weights, zero, one, serial)
    ensures r.Some? ==>
      && r.value.count == |m.tests| && r.value.parity == (if serial.Some? then Some(true) else None)
      && Coverage(r.value.coverage, m.tests, zero.outcomes + one.outcomes)
  {
    hide RanAll, ForZero, Filter, Increasing, Members, Reports, Ordering.Distinct, Clean, Coverage, SameOutcomes, Ordering.SortBy;
    if !ValidManifest(m) || m.binding != binding { return None; }
    var shards := PartitionTests(m.order, weights);
    if shards.PartitionError? { return None; }
    ghost var first := ForZero(m.order, weights);
    RanIsValid(zero, m, Zero, first);
    RanIsValid(one, m, One, Others(m.order, first));
    var zeroOk := ValidateReceipt(zero, binding, m, Zero);
    var oneOk := ValidateReceipt(one, binding, m, One);
    if !zeroOk || !oneOk { return None; }
    var zeroSet, oneSet := set t | t in zero.selected, set t | t in one.selected;
    if zero.selected == shards.zero && one.selected == shards.one {
      TheyCover(m, first);
    }
    if !(zeroSet !! oneSet) || zeroSet + oneSet != (set t | t in m.tests) { return None; }
    if zero.selected != shards.zero || one.selected != shards.one { return None; }
    var outcomes := Ordering.SortBy(zero.outcomes + one.outcomes, ByTest);
    ShardsCover(m, first, zero.outcomes, one.outcomes);
    if |zero.outcomes + one.outcomes| != |m.tests| { return None; }
    if serial.None? { return Some(Verdict(|m.tests|, None, outcomes)); }
    var serialOk := ValidateReceipt(serial.value, binding, m, Serial);
    WholeOrder(m);
    RanIsValid(serial.value, m, Serial, set t | t in m.order);
    if !serialOk || serial.value.selected != m.order { return None; }
    var serialOutcomes := Ordering.SortBy(serial.value.outcomes, ByTest);
    SortCovers(m, m.order, serial.value.outcomes);
    SameWhenSorted(m.tests, outcomes, serialOutcomes, zero.outcomes + one.outcomes, serial.value.outcomes);
    if serialOutcomes != outcomes { return None; }
    return Some(Verdict(|m.tests|, Some(true), outcomes));
  }

  // ----- Why the checks amount to that -----

  lemma {:induction false} FilterMembers(order: seq<Test>, side: set<Test>)
    ensures forall t :: t in Filter(order, side) <==> t in order && t in side
    ensures Ordering.Distinct(order) ==> Ordering.Distinct(Filter(order, side))
  {
    FilterLoad(order, side, map[]);
    if order != [] {
      FilterMembers(order[1..], side);
      FilterLoad(order[1..], side, map[]);
      assert forall t | t in order[1..] :: t in order;
      if Ordering.Distinct(order) { assert order[0] !in order[1..]; }
    }
  }

  lemma {:induction false} FilterAgrees(order: seq<Test>, side: set<Test>, other: set<Test>)
    requires forall t | t in order :: t in side <==> t in other
    ensures Filter(order, side) == Filter(order, other)
  {
    if order != [] { FilterAgrees(order[1..], side, other); }
  }

  /** A receipt that ran one side of the collection is valid, and a valid one that selected it ran it. */
  lemma RanIsValid(r: Receipt, m: Manifest, shard: Shard, side: set<Test>)
    requires ValidManifest(m) && Filter(m.order, side) != []
    ensures RanAll(r, m, shard, Filter(m.order, side)) <==> ValidReceipt(r, m.binding, m, shard) && r.selected == Filter(m.order, side)
  {
    hide Filter, Reports, Increasing;
    FilterMembers(m.order, side);
    FilterAgrees(m.order, side, set t | t in Filter(m.order, side));
  }

  /** The two sides of the collection do not overlap and leave nothing out. */
  lemma TheyCover(m: Manifest, first: set<Test>)
    requires ValidManifest(m)
    ensures var zero, one := Filter(m.order, first), Filter(m.order, Others(m.order, first));
      && (set t | t in zero) !! (set t | t in one) && (set t | t in zero) + (set t | t in one) == (set t | t in m.tests)
      && Ordering.Distinct(zero + one) && forall t :: t in zero + one <==> t in m.tests
  {
    var zero, one := Filter(m.order, first), Filter(m.order, Others(m.order, first));
    FilterMembers(m.order, first);
    FilterMembers(m.order, Others(m.order, first));
    hide Filter, Increasing;
    forall t ensures t in zero || t in one <==> t in m.tests { InOthers(m.order, first, t); }
    forall i, j | 0 <= i < j < |zero + one| ensures (zero + one)[i] != (zero + one)[j] {
      if i < |zero| <= j { assert zero[i] in zero && one[j - |zero|] in one; }
    }
  }

  lemma InOthers(order: seq<Test>, side: set<Test>, t: Test)
    ensures t in Others(order, side) <==> t in order && t !in side
  {
  }

  lemma WholeOrder(m: Manifest)
    requires ValidManifest(m)
    ensures Filter(m.order, set t | t in m.order) == m.order && m.order != []
    ensures forall t :: t in m.order <==> t in m.tests
  {
    FilterAll(m.order, set t | t in m.order);
    assert m.tests[0] in m.order;
  }

  lemma {:induction false} FilterAll(order: seq<Test>, side: set<Test>)
    requires forall t | t in order :: t in side
    ensures Filter(order, side) == order
  {
    if order != [] { FilterAll(order[1..], side); }
  }

  lemma {:induction false} IncreasingSame(xs: seq<Test>, ys: seq<Test>)
    requires Increasing(xs) && Increasing(ys) && forall t :: t in xs <==> t in ys
    ensures xs == ys
  {
    if ys != [] { assert ys[0] in xs; }
    if xs != [] {
      assert xs[0] in ys;
      TailMembers(xs);
      TailMembers(ys);
      IncreasingSame(xs[1..], ys[1..]);
    }
  }

  lemma TailMembers(xs: seq<Test>)
    requires xs != [] && Increasing(xs)
    ensures Increasing(xs[1..]) && forall t :: t in xs[1..] <==> t in xs && t != xs[0]
  {
    assert xs == [xs[0]] + xs[1..];
  }

  lemma ByTestOrders()
    ensures Ordering.TotalOrder(ByTest)
  {
  }

  /** Outcomes of distinct tests, sorted, are strictly so. */
  lemma SortedStrictly(ran: seq<Test>, outcomes: seq<Outcome>)
    requires Ordering.Distinct(ran) && Reports(outcomes, ran)
    ensures var sorted := Ordering.SortBy(outcomes, ByTest);
      |sorted| == |outcomes| && SameOutcomes(sorted, outcomes) && Increasing(TestsOf(sorted))
  {
    hide Clean, Ordering.SortBy;
    var sorted := Ordering.SortBy(outcomes, ByTest);
    ByTestOrders();
    Ordering.SortBySorts(outcomes, ByTest);
    Ordering.DistinctOnce(outcomes);
    Ordering.DistinctOnce(sorted);
    SameElements(sorted, outcomes);
    assert Ordering.Sorted(sorted, ByTest);
    forall i, j | 0 <= i < j < |sorted| ensures sorted[i].test < sorted[j].test {
      assert ByTest(sorted[i], sorted[j]) && sorted[i] != sorted[j];
      assert sorted[i] in sorted && sorted[j] in sorted;
      assert sorted[i] in outcomes && sorted[j] in outcomes;
      var k :| 0 <= k < |outcomes| && outcomes[k] == sorted[i];
      var l :| 0 <= l < |outcomes| && outcomes[l] == sorted[j];
    }
  }

  lemma SameElements(a: seq<Outcome>, b: seq<Outcome>)
    requires multiset(a) == multiset(b)
    ensures SameOutcomes(a, b) && |a| == |b|
  {
    assert |multiset(a)| == |multiset(b)|;
    forall o ensures o in a <==> o in b { assert o in multiset(a) <==> o in multiset(b); }
  }

  ghost function TestsOf(outcomes: seq<Outcome>): (r: seq<Test>)
    ensures |r| == |outcomes|
  {
    seq(|outcomes|, i requires 0 <= i < |outcomes| => outcomes[i].test)
  }

  /** Reports of every collected test once, sorted, cover the collection. */
  lemma SortCovers(m: Manifest, ran: seq<Test>, outcomes: seq<Outcome>)
    requires ValidManifest(m) && Ordering.Distinct(ran) && (forall t :: t in ran <==> t in m.tests) && Reports(outcomes, ran)
    ensures |outcomes| == |m.tests| && Coverage(Ordering.SortBy(outcomes, ByTest), m.tests, outcomes)
  {
    hide Ordering.SortBy, Clean;
    var sorted := Ordering.SortBy(outcomes, ByTest);
    SortedStrictly(ran, outcomes);
    var tests := TestsOf(sorted);
    forall t ensures t in tests <==> t in m.tests { SortedTests(ran, outcomes, sorted, t); }
    IncreasingSame(tests, m.tests);
    forall i | 0 <= i < |sorted| ensures sorted[i].test == m.tests[i] && Clean(sorted[i]) {
      assert tests[i] == m.tests[i];
      assert sorted[i] in sorted && sorted[i] in outcomes;
    }
  }

  lemma SortedTests(ran: seq<Test>, outcomes: seq<Outcome>, sorted: seq<Outcome>, t: Test)
    requires Reports(outcomes, ran) && SameOutcomes(sorted, outcomes)
    ensures t in TestsOf(sorted) <==> t in ran
  {
    hide Clean;
    if t in TestsOf(sorted) {
      var i :| 0 <= i < |sorted| && TestsOf(sorted)[i] == t;
      assert sorted[i] in sorted && sorted[i] in outcomes;
      var k :| 0 <= k < |outcomes| && outcomes[k] == sorted[i];
      assert ran[k] == t;
    }
    if t in ran {
      var k :| 0 <= k < |ran| && ran[k] == t;
      assert outcomes[k] in outcomes && outcomes[k] in sorted;
      var i :| 0 <= i < |sorted| && sorted[i] == outcomes[k];
      assert TestsOf(sorted)[i] == t;
    }
  }

  /** The outcomes of both shards, sorted, cover the collection. */
  lemma ShardsCover(m: Manifest, first: set<Test>, zero: seq<Outcome>, one: seq<Outcome>)
    requires ValidManifest(m)
    requires Reports(zero, Filter(m.order, first)) && Reports(one, Filter(m.order, Others(m.order, first)))
    ensures |zero + one| == |m.tests| && Coverage(Ordering.SortBy(zero + one, ByTest), m.tests, zero + one)
  {
    hide Filter, Reports, Ordering.Distinct, Coverage, ValidManifest;
    TheyCover(m, first);
    ReportsJoin(zero, one, Filter(m.order, first), Filter(m.order, Others(m.order, first)));
    SortCovers(m, Filter(m.order, first) + Filter(m.order, Others(m.order, first)), zero + one);
  }

  lemma ReportsJoin(a: seq<Outcome>, b: seq<Outcome>, s: seq<Test>, t: seq<Test>)
    requires Reports(a, s) && Reports(b, t)
    ensures Reports(a + b, s + t)
  {
    hide Clean;
  }

  /** Two coverings of one collection are equal exactly when they come from the same outcomes. */
  lemma SameWhenSorted(tests: seq<Test>, a: seq<Outcome>, b: seq<Outcome>, reportedA: seq<Outcome>, reportedB: seq<Outcome>)
    requires Increasing(tests) && Coverage(a, tests, reportedA) && Coverage(b, tests, reportedB)
    ensures a == b <==> SameOutcomes(reportedB, reportedA)
  {
    hide Clean;
    if SameOutcomes(reportedB, reportedA) {
      forall i | 0 <= i < |tests| ensures a[i] == b[i] {
        assert a[i] in a && a[i] in reportedA && a[i] in b;
        var j :| 0 <= j < |b| && b[j] == a[i];
        assert b[j].test == tests[j];
      }
    }
  }

  // ----- Accepted runs -----

  /** The outcomes of these tests in one set of results. */
  function ResultsFor(tests: seq<Test>, results: map<Test, Outcome>): (r: seq<Outcome>)
    requires forall t | t in tests :: t in results
    ensures |r| == |tests|
  {
    seq(|tests|, i requires 0 <= i < |tests| => results[tests[i]])
  }

  ghost predicate CleanResults(m: Manifest, results: map<Test, Outcome>) {
    && (forall t :: t in results <==> t in m.order)
    && forall t | t in results :: results[t].test == t && Clean(results[t])
  }

  /** What a run writes for one shard when these are the results of the tests. */
  function RunReceipt(m: Manifest, shard: Shard, selected: seq<Test>, results: map<Test, Outcome>, elapsed: nat): Receipt
    requires forall t | t in selected :: t in results
  {
    Receipt(shard, m.binding, elapsed, 0, true, m.tests, selected, ResultsFor(selected, results))
  }

  ghost predicate Wrote(r: Receipt, m: Manifest, shard: Shard, selected: seq<Test>, results: map<Test, Outcome>) {
    && (forall t | t in selected :: t in results)
    && exists elapsed: nat :: r == RunReceipt(m, shard, selected, results, elapsed)
  }

  /** The receipts are those of one set of clean results, dealt out by the partition. */
  ghost predicate FromOneRun(m: Manifest, weights: Weights, zero: Receipt, one: Receipt, serial: Option<Receipt>, results: map<Test, Outcome>) {
    && CleanResults(m, results)
    && Wrote(zero, m, Zero, Filter(m.order, ForZero(m.order, weights)), results)
    && Wrote(one, m, One, Filter(m.order, ForOne(m.order, weights)), results)
    && (serial.Some? ==> Wrote(serial.value, m, Serial, m.order, results))
  }

  lemma WroteRan(r: Receipt, m: Manifest, shard: Shard, selected: seq<Test>, results: map<Test, Outcome>)
    requires CleanResults(m, results) && Members(selected, m.order)
    ensures Wrote(r, m, shard, selected, results) <==> RanAll(r, m, shard, selected) && r.outcomes == ResultsFor(selected, results)
  {
    hide Clean;
    if RanAll(r, m, shard, selected) && r.outcomes == ResultsFor(selected, results) {
      assert r == RunReceipt(m, shard, selected, results, r.elapsed);
    }
  }

  lemma PartsOfOrder(m: Manifest, weights: Weights)
    ensures Members(Filter(m.order, ForZero(m.order, weights)), m.order) && Members(Filter(m.order, ForOne(m.order, weights)), m.order)
  {
    FilterMembers(m.order, ForZero(m.order, weights));
    FilterMembers(m.order, ForOne(m.order, weights));
    hide Filter, ForZero, ForOne;
  }

  /** Outcomes of the same tests from the same results are the same in any order, shared out or not. */
  lemma ResultsTogether(m: Manifest, weights: Weights, results: map<Test, Outcome>)
    requires ValidManifest(m) && CleanResults(m, results)
    ensures var z, o := Filter(m.order, ForZero(m.order, weights)), Filter(m.order, ForOne(m.order, weights));
      && Members(z, m.order) && Members(o, m.order)
      && SameOutcomes(ResultsFor(m.order, results), ResultsFor(z, results) + ResultsFor(o, results))
  {
    hide Filter, ForZero, ValidManifest, Clean;
    var z, o := Filter(m.order, ForZero(m.order, weights)), Filter(m.order, ForOne(m.order, weights));
    PartsOfOrder(m, weights);
    TheyCover(m, ForZero(m.order, weights));
    WholeOrder(m);
    forall x ensures x in ResultsFor(m.order, results) <==> x in ResultsFor(z, results) + ResultsFor(o, results) {
      ResultsIn(m.order, results, x);
      ResultsIn(z, results, x);
      ResultsIn(o, results, x);
    }
  }

  lemma ResultsIn(tests: seq<Test>, results: map<Test, Outcome>, x: Outcome)
    requires forall t | t in tests :: t in results
    ensures x in ResultsFor(tests, results) <==> exists t :: t in tests && results[t] == x
  {
    var r := ResultsFor(tests, results);
    if x in r {
      var i :| 0 <= i < |r| && r[i] == x;
      assert tests[i] in tests && results[tests[i]] == x;
    }
    if t :| t in tests && results[t] == x {
      var i :| 0 <= i < |tests| && tests[i] == t;
      assert r[i] == x;
    }
  }

  /** The results a pair of shard receipts reports. */
  lemma ResultsOf(m: Manifest, first: set<Test>, zero: seq<Outcome>, one: seq<Outcome>) returns (results: map<Test, Outcome>)
    requires ValidManifest(m)
    requires Reports(zero, Filter(m.order, first)) && Reports(one, Filter(m.order, Others(m.order, first)))
    ensures CleanResults(m, results) && forall o | o in zero + one :: o.test in results && results[o.test] == o
  {
    hide Filter, ValidManifest;
    var z, w := Filter(m.order, first), Filter(m.order, Others(m.order, first));
    TheyCover(m, first);
    WholeOrder(m);
    ReportsJoin(zero, one, z, w);
    results := Collected(z + w, zero + one);
  }

  lemma Collected(ran: seq<Test>, outcomes: seq<Outcome>) returns (results: map<Test, Outcome>)
    requires Ordering.Distinct(ran) && Reports(outcomes, ran)
    ensures forall t :: t in results <==> t in ran
    ensures forall t | t in results :: results[t].test == t && Clean(results[t])
    ensures forall o | o in outcomes :: o.test in results && results[o.test] == o
  {
    hide Clean;
    results := map[];
    for i := 0 to |ran|
      invariant forall t :: t in results <==> t in ran[..i]
      invariant forall t | t in results :: results[t].test == t && Clean(results[t])
      invariant forall k | 0 <= k < i :: outcomes[k].test in results && results[outcomes[k].test] == outcomes[k]
    {
      assert ran[..i + 1] == ran[..i] + [ran[i]];
      assert ran[i] !in ran[..i];
      results := results[ran[i] := outcomes[i]];
    }
    assert ran[..|ran|] == ran;
  }

  lemma ReportedResults(tests: seq<Test>, outcomes: seq<Outcome>, results: map<Test, Outcome>)
    requires Reports(outcomes, tests) && (forall t | t in tests :: t in results)
    requires forall o | o in outcomes :: o.test in results && results[o.test] == o
    ensures outcomes == ResultsFor(tests, results)
  {
    hide Clean;
    forall i | 0 <= i < |tests| ensures outcomes[i] == results[tests[i]] { assert outcomes[i] in outcomes; }
  }

  /**
    Receipts are accepted exactly when some clean results of the collected tests, dealt out
    by the partition, are what each shard, and the serial run if there is one, wrote.
   */
  lemma VerifiesIsOneRun(binding: Binding, m: Manifest, weights: Weights, zero: Receipt, one: Receipt, serial: Option<Receipt>)
    ensures Verifies(binding, m, weights, zero, one, serial) <==>
      && ValidManifest(m) && m.binding == binding && |m.order| >= 2
      && exists results :: FromOneRun(m, weights, zero, one, serial, results)
  {
    if Verifies(binding, m, weights, zero, one, serial) {
      var results := ResultsOf(m, ForZero(m.order, weights), zero.outcomes, one.outcomes);
      VerifiedFromOneRun(m, weights, zero, one, serial, results);
    }
    if ValidManifest(m) && exists results :: FromOneRun(m, weights, zero, one, serial, results) {
      var results :| FromOneRun(m, weights, zero, one, serial, results);
      OneRunRan(m, weights, zero, one, serial, results);
    }
    hide ValidManifest, RanAll, FromOneRun, Filter, ForZero, ForOne, SameOutcomes;
  }

  lemma VerifiedFromOneRun(m: Manifest, weights: Weights, zero: Receipt, one: Receipt, serial: Option<Receipt>, results: map<Test, Outcome>)
    requires Verifies(m.binding, m, weights, zero, one, serial) && CleanResults(m, results)
    requires forall o | o in zero.outcomes + one.outcomes :: o.test in results && results[o.test] == o
    ensures FromOneRun(m, weights, zero, one, serial, results)
  {
    var z, w := Filter(m.order, ForZero(m.order, weights)), Filter(m.order, ForOne(m.order, weights));
    PartsOfOrder(m, weights);
    hide Filter, ForZero, ForOne, Clean, ValidManifest;
    WroteRan(zero, m, Zero, z, results);
    WroteRan(one, m, One, w, results);
    ReportedResults(z, zero.outcomes, results);
    ReportedResults(w, one.outcomes, results);
    if serial.Some? {
      WroteRan(serial.value, m, Serial, m.order, results);
      ReportedResults(m.order, serial.value.outcomes, results);
    }
    hide Wrote, RanAll, CleanResults;
  }

  lemma OneRunRan(m: Manifest, weights: Weights, zero: Receipt, one: Receipt, serial: Option<Receipt>, results: map<Test, Outcome>)
    requires ValidManifest(m) && FromOneRun(m, weights, zero, one, serial, results)
    ensures RanAll(zero, m, Zero, Filter(m.order, ForZero(m.order, weights))) && RanAll(one, m, One, Filter(m.order, ForOne(m.order, weights)))
    ensures serial.Some? ==> RanAll(serial.value, m, Serial, m.order) && SameOutcomes(serial.value.outcomes, zero.outcomes + one.outcomes)
  {
    var z, w := Filter(m.order, ForZero(m.order, weights)), Filter(m.order, ForOne(m.order, weights));
    PartsOfOrder(m, weights);
    ResultsTogether(m, weights, results);
    WroteRan(zero, m, Zero, z, results);
    WroteRan(one, m, One, w, results);
    if serial.Some? { WroteRan(serial.value, m, Serial, m.order, results); }
    hide Wrote, RanAll, CleanResults, Filter, ForZero, ForOne, ResultsFor, SameOutcomes, Members, ValidManifest;
  }

  /** The coverage is the results by node id, whatever the weights and so however the tests were shared out. */
  lemma CoverageIsTheResults(m: Manifest, weights: Weights, zero: Receipt, one: Receipt, serial: Option<Receipt>,
                             results: map<Test, Outcome>, coverage: seq<Outcome>)
    requires ValidManifest(m) && FromOneRun(m, weights, zero, one, serial, results)
    requires Coverage(coverage, m.tests, zero.outcomes + one.outcomes)
    ensures (forall t | t in m.tests :: t in results) && coverage == ResultsFor(m.tests, results)
  {
    OneRunRan(m, weights, zero, one, serial, results);
    var z, w := Filter(m.order, ForZero(m.order, weights)), Filter(m.order, ForOne(m.order, weights));
    PartsOfOrder(m, weights);
    WroteRan(zero, m, Zero, z, results);
    WroteRan(one, m, One, w, results);
    WholeOrder(m);
    hide Wrote, RanAll, Filter, ForZero, ForOne, Clean, ValidManifest, Members;
    forall o | o in coverage ensures o.test in results && results[o.test] == o {
      ResultsIn(z, results, o);
      ResultsIn(w, results, o);
    }
    ReportedResults(m.tests, coverage, results);
  }

  // ----- No failure is accepted -----

  /** Setup, call, teardown or a subtest failed, the teardown did not pass, or the test was not called though its setup passed, or called though it was skipped. */
  predicate Failing(o: Outcome) {
    || o.setup == Failed || o.called == Some(Failed) || o.teardown != Passed || o.failed > 0
    || (o.called == None && o.setup == Passed) || (o.called != None && o.setup == Skipped)
  }

  lemma CleanIsNotFailing(o: Outcome)
    ensures Clean(o) <==> !Failing(o)
  {
    if o.called.Some? {
      match o.called.value
      case Passed =>
      case Skipped =>
      case Failed =>
    }
  }

  /** What is accepted covers no failing outcome, whichever receipt reported it; with one, nothing is accepted. */
  lemma NoFailureIsAccepted(binding: Binding, m: Manifest, weights: Weights, zero: Receipt, one: Receipt, serial: Option<Receipt>, coverage: seq<Outcome>)
    requires Verifies(binding, m, weights, zero, one, serial) && Coverage(coverage, m.tests, zero.outcomes + one.outcomes)
    ensures forall o | o in coverage || o in zero.outcomes || o in one.outcomes || (serial.Some? && o in serial.value.outcomes) :: !Failing(o)
  {
    hide Clean, Failing, Filter, ForZero, Others, ValidManifest;
    forall o | o in coverage || o in zero.outcomes || o in one.outcomes || (serial.Some? && o in serial.value.outcomes) ensures !Failing(o) {
      CleanIsNotFailing(o);
    }
  }
}
