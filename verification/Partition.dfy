/**
  The two-runner test partition: heaviest test first, each to the lighter shard.  Its
  larger shard is within 7/6 of the best two-way split, and no constant below 7/6 will do.
 */
module Partition {
  import opened LargestFirst
  import Ordering

  /** A test is its rank among the node ids in their string order. */
  type Test = nat

  type Milliseconds = m: nat | 1 <= m witness 1

  const DEFAULT_MS: Milliseconds := 786

  type Weights = map<Test, Milliseconds>

  function Weight(weights: Weights, t: Test): Milliseconds {
    if t in weights then weights[t] else DEFAULT_MS
  }

  function WeightsOf(tests: seq<Test>, weights: Weights): seq<nat> {
    seq(|tests|, i requires 0 <= i < |tests| => Weight(weights, tests[i]))
  }

  function Max(a: nat, b: nat): nat { if a < b then b else a }

  // ----- Loads -----

  /** The weight of those of `tests` that lie in `side`. */
  ghost function Load(tests: seq<Test>, side: set<Test>, weights: Weights): nat {
    if tests == [] then 0
    else (if tests[0] in side then Weight(weights, tests[0]) else 0) + Load(tests[1..], side, weights)
  }

  /** The larger load when the tests in `side` run on one shard and the others on the other. */
  ghost function SplitMax(tests: seq<Test>, side: set<Test>, weights: Weights): nat {
    Max(Load(tests, side, weights), Load(tests, Others(tests, side), weights))
  }

  function Others(tests: seq<Test>, side: set<Test>): set<Test> {
    set t | t in tests && t !in side
  }

  lemma {:induction false} LoadAppend(a: seq<Test>, b: seq<Test>, side: set<Test>, weights: Weights)
    ensures Load(a + b, side, weights) == Load(a, side, weights) + Load(b, side, weights)
  {
    if a == [] {
      assert a + b == b;
    } else {
      assert (a + b)[1..] == a[1..] + b;
      LoadAppend(a[1..], b, side, weights);
    }
  }

  lemma LoadOne(t: Test, side: set<Test>, weights: Weights)
    ensures Load([t], side, weights) == if t in side then Weight(weights, t) else 0
  {
    assert [t][1..] == [];
  }

  /** Loads do not depend on the order of the tests. */
  lemma {:induction false} LoadPermutes(a: seq<Test>, b: seq<Test>, side: set<Test>, weights: Weights)
    requires multiset(a) == multiset(b)
    ensures Load(a, side, weights) == Load(b, side, weights)
    decreases |a|
  {
    if a == [] {
      assert |multiset(b)| == 0;
    } else {
      var i := RemoveOne(a, b);
      LoadPermutes(a[1..], b[..i] + b[i + 1..], side, weights);
      LoadAt(b, i, side, weights);
    }
  }

  lemma RemoveOne(a: seq<Test>, b: seq<Test>) returns (i: nat)
    requires a != [] && multiset(a) == multiset(b)
    ensures i < |b| && b[i] == a[0] && multiset(a[1..]) == multiset(b[..i] + b[i + 1..])
  {
    assert a[0] in multiset(b);
    i :| 0 <= i < |b| && b[i] == a[0];
    assert a == [a[0]] + a[1..];
    assert b == b[..i] + ([b[i]] + b[i + 1..]);
    assert multiset(a) == multiset{a[0]} + multiset(a[1..]);
    assert multiset(b) == multiset{a[0]} + multiset(b[..i] + b[i + 1..]);
    assert multiset(a[1..]) == multiset(a) - multiset{a[0]};
  }

  lemma LoadAt(b: seq<Test>, i: nat, side: set<Test>, weights: Weights)
    requires i < |b|
    ensures Load(b, side, weights) ==
            (if b[i] in side then Weight(weights, b[i]) else 0) + Load(b[..i] + b[i + 1..], side, weights)
  {
    assert b == b[..i] + ([b[i]] + b[i + 1..]);
    LoadAppend(b[..i], b[i + 1..], side, weights);
    LoadAppend(b[..i], [b[i]] + b[i + 1..], side, weights);
    LoadAppend([b[i]], b[i + 1..], side, weights);
    LoadOne(b[i], side, weights);
  }

  /** Only the listed tests matter to which side they are on. */
  lemma {:induction false} LoadAgrees(tests: seq<Test>, s: set<Test>, u: set<Test>, weights: Weights)
    requires forall t | t in tests :: t in s <==> t in u
    ensures Load(tests, s, weights) == Load(tests, u, weights)
  {
    if tests != [] { LoadAgrees(tests[1..], s, u, weights); }
  }

  // ----- Heaviest first -----

  predicate Before(weights: Weights, a: Test, b: Test) {
    Weight(weights, a) > Weight(weights, b) || (Weight(weights, a) == Weight(weights, b) && a <= b)
  }

  ghost predicate Ordered(tests: seq<Test>, weights: Weights) {
    forall i, j | 0 <= i < j < |tests| :: Before(weights, tests[i], tests[j])
  }

  ghost predicate BeforeAll(t: Test, tests: seq<Test>, weights: Weights) {
    forall x | x in tests :: Before(weights, t, x)
  }

  lemma OrderedCons(t: Test, tests: seq<Test>, weights: Weights)
    ensures Ordered([t] + tests, weights) <==> BeforeAll(t, tests, weights) && Ordered(tests, weights)
  {
    var all := [t] + tests;
    if Ordered(all, weights) {
      forall x | x in tests ensures Before(weights, t, x) {
        var i :| 0 <= i < |tests| && tests[i] == x;
        assert all[0] == t && all[i + 1] == x;
      }
      forall i, j | 0 <= i < j < |tests| ensures Before(weights, tests[i], tests[j]) {
        assert all[i + 1] == tests[i] && all[j + 1] == tests[j];
      }
    }
  }

  function Insert(t: Test, tests: seq<Test>, weights: Weights): seq<Test> {
    if tests == [] || Before(weights, t, tests[0]) then [t] + tests
    else [tests[0]] + Insert(t, tests[1..], weights)
  }

  /** The collection sorted by descending weight, ties by node id. */
  function HeaviestFirst(tests: seq<Test>, weights: Weights): seq<Test> {
    if tests == [] then [] else Insert(tests[0], HeaviestFirst(tests[1..], weights), weights)
  }

  lemma {:induction false} InsertPermutes(t: Test, tests: seq<Test>, weights: Weights)
    ensures multiset(Insert(t, tests, weights)) == multiset{t} + multiset(tests)
  {
    if tests != [] && !Before(weights, t, tests[0]) {
      assert tests == [tests[0]] + tests[1..];
      InsertPermutes(t, tests[1..], weights);
    }
  }

  lemma {:induction false} HeaviestFirstPermutes(tests: seq<Test>, weights: Weights)
    ensures multiset(HeaviestFirst(tests, weights)) == multiset(tests)
  {
    if tests != [] {
      assert tests == [tests[0]] + tests[1..];
      HeaviestFirstPermutes(tests[1..], weights);
      InsertPermutes(tests[0], HeaviestFirst(tests[1..], weights), weights);
    }
  }

  lemma SameTests(tests: seq<Test>, weights: Weights)
    ensures |HeaviestFirst(tests, weights)| == |tests|
    ensures forall t :: t in HeaviestFirst(tests, weights) <==> t in tests
  {
    var r := HeaviestFirst(tests, weights);
    HeaviestFirstPermutes(tests, weights);
    assert |multiset(r)| == |multiset(tests)|;
    assert forall t :: t in r <==> t in multiset(r);
    assert forall t :: t in tests <==> t in multiset(tests);
  }

  lemma {:induction false} InsertOrdered(t: Test, tests: seq<Test>, weights: Weights)
    requires Ordered(tests, weights)
    ensures Ordered(Insert(t, tests, weights), weights)
  {
    if tests == [] {
      OrderedCons(t, tests, weights);
    } else {
      var h, rest := tests[0], tests[1..];
      assert tests == [h] + rest;
      OrderedCons(h, rest, weights);
      if Before(weights, t, h) {
        forall x | x in tests ensures Before(weights, t, x) { assert x == h || x in rest; }
        OrderedCons(t, tests, weights);
      } else {
        InsertOrdered(t, rest, weights);
        InsertPermutes(t, rest, weights);
        var r := Insert(t, rest, weights);
        forall x | x in r ensures Before(weights, h, x) {
          assert x in multiset(r);
          assert x == t || x in multiset(rest);
        }
        OrderedCons(h, r, weights);
      }
    }
  }

  lemma {:induction false} HeaviestFirstOrdered(tests: seq<Test>, weights: Weights)
    ensures Ordered(HeaviestFirst(tests, weights), weights)
    ensures NonIncreasing(WeightsOf(HeaviestFirst(tests, weights), weights))
  {
    if tests != [] {
      HeaviestFirstOrdered(tests[1..], weights);
      InsertOrdered(tests[0], HeaviestFirst(tests[1..], weights), weights);
    }
    var r := HeaviestFirst(tests, weights);
    var ws := WeightsOf(r, weights);
    forall i, j | 0 <= i <= j < |ws| ensures ws[i] >= ws[j] {
      if i < j { assert Before(weights, r[i], r[j]); }
    }
  }

  // ----- Splits of tests as splits of weights -----

  ghost function Sent(tests: seq<Test>, side: set<Test>): seq<bool> {
    seq(|tests|, i requires 0 <= i < |tests| => tests[i] in side)
  }

  lemma {:induction false} PartIsLoad(tests: seq<Test>, side: set<Test>, weights: Weights, n: nat)
    requires n <= |tests|
    ensures Part(WeightsOf(tests, weights), Sent(tests, side), true, n) == Load(tests[..n], side, weights)
    ensures Part(WeightsOf(tests, weights), Sent(tests, side), false, n) == Load(tests[..n], Others(tests, side), weights)
  {
    if n > 0 {
      PartIsLoad(tests, side, weights, n - 1);
      var t := tests[n - 1];
      assert tests[..n] == tests[..n - 1] + [t];
      LoadAppend(tests[..n - 1], [t], side, weights);
      LoadAppend(tests[..n - 1], [t], Others(tests, side), weights);
      LoadOne(t, side, weights);
      LoadOne(t, Others(tests, side), weights);
    }
  }

  /** No split of the same tests, in any order, has a larger side below 6/7 of a greedy load. */
  lemma GreedyBound(order: seq<Test>, side: set<Test>, weights: Weights, first: bool)
    ensures var ws := WeightsOf(HeaviestFirst(order, weights), weights);
            6 * Side(Greedy(ws, |ws|), first) <= 7 * SplitMax(order, side, weights)
  {
    var sorted := HeaviestFirst(order, weights);
    var ws, split := WeightsOf(sorted, weights), Sent(sorted, side);
    HeaviestFirstOrdered(order, weights);
    PartIsLoad(sorted, side, weights, |sorted|);
    assert sorted[..|sorted|] == sorted;
    HeaviestFirstPermutes(order, weights);
    LoadPermutes(order, sorted, side, weights);
    LoadPermutes(order, sorted, Others(order, side), weights);
    SameTests(order, weights);
    assert Others(sorted, side) == Others(order, side);
    SevenSixths(ws, split, SplitMax(order, side, weights), first);
  }

  // ----- Distinct tests -----

  lemma SortedDistinct(order: seq<Test>, weights: Weights)
    requires Ordering.Distinct(order)
    ensures Ordering.Distinct(HeaviestFirst(order, weights))
  {
    HeaviestFirstPermutes(order, weights);
    Ordering.DistinctOnce(order);
    Ordering.DistinctOnce(HeaviestFirst(order, weights));
  }

  // ----- The tests of shard 0 -----

  /** The tests of the sorted prefix that the greedy rule gives to shard 0. */
  ghost function FirstShard(tests: seq<Test>, weights: Weights, n: nat): set<Test>
    requires n <= |tests|
  {
    if n == 0 then {}
    else FirstShard(tests, weights, n - 1)
         + (if Shard(Greedy(WeightsOf(tests, weights), n - 1)) then {tests[n - 1]} else {})
  }

  lemma {:induction false} FirstShardWithin(tests: seq<Test>, weights: Weights, n: nat)
    requires n <= |tests|
    ensures forall t | t in FirstShard(tests, weights, n) :: t in tests[..n]
  {
    if n > 0 {
      FirstShardWithin(tests, weights, n - 1);
      assert tests[..n] == tests[..n - 1] + [tests[n - 1]];
    }
  }

  lemma {:induction false} FirstShardLoads(tests: seq<Test>, weights: Weights, n: nat)
    requires n <= |tests| && Ordering.Distinct(tests)
    ensures var l := Greedy(WeightsOf(tests, weights), n);
            && Load(tests[..n], FirstShard(tests, weights, n), weights) == l.0
            && Load(tests[..n], Others(tests, FirstShard(tests, weights, n)), weights) == l.1
  {
    if n > 0 {
      FirstShardLoads(tests, weights, n - 1);
      FirstShardWithin(tests, weights, n - 1);
      var before, t := tests[..n - 1], tests[n - 1];
      var p, q := FirstShard(tests, weights, n - 1), FirstShard(tests, weights, n);
      assert tests[..n] == before + [t];
      assert t !in before;
      LoadAppend(before, [t], q, weights);
      LoadAppend(before, [t], Others(tests, q), weights);
      LoadOne(t, q, weights);
      LoadOne(t, Others(tests, q), weights);
      LoadAgrees(before, p, q, weights);
      LoadAgrees(before, Others(tests, p), Others(tests, q), weights);
    }
  }

  // ----- The partition of a collection -----

  /** The tests in `side`, in collection order. */
  function Filter(tests: seq<Test>, side: set<Test>): seq<Test> {
    if tests == [] then []
    else (if tests[0] in side then [tests[0]] else []) + Filter(tests[1..], side)
  }

  ghost function Sum(tests: seq<Test>, weights: Weights): nat {
    Load(tests, (set t | t in tests), weights)
  }

  lemma {:induction false} FilterLoad(tests: seq<Test>, side: set<Test>, weights: Weights)
    ensures forall t :: t in Filter(tests, side) <==> t in tests && t in side
    ensures Load(Filter(tests, side), side, weights) == Load(tests, side, weights)
  {
    if tests != [] {
      var rest := Filter(tests[1..], side);
      FilterLoad(tests[1..], side, weights);
      if tests[0] in side { assert ([tests[0]] + rest)[1..] == rest; } else { assert [] + rest == rest; }
    }
  }

  lemma FilterStep(tests: seq<Test>, i: nat, side: set<Test>)
    requires i < |tests|
    ensures Filter(tests[i..], side) == (if tests[i] in side then [tests[i]] else []) + Filter(tests[i + 1..], side)
  {
    assert tests[i..][1..] == tests[i + 1..];
  }

  lemma InOthers(tests: seq<Test>, side: set<Test>, t: Test)
    requires t in tests
    ensures t in Others(tests, side) <==> t !in side
  {
  }

  lemma FilterSum(tests: seq<Test>, side: set<Test>, weights: Weights)
    ensures Sum(Filter(tests, side), weights) == Load(tests, side, weights)
  {
    FilterLoad(tests, side, weights);
    var kept := Filter(tests, side);
    LoadAgrees(kept, (set t | t in kept), side, weights);
  }

  datatype Assignment = PartitionError | Assigned(zero: seq<Test>, one: seq<Test>)

  /** The tests the greedy rule gives to shard 0, taking the whole collection heaviest first. */
  ghost function ForZero(order: seq<Test>, weights: Weights): set<Test> {
    var sorted := HeaviestFirst(order, weights);
    FirstShard(sorted, weights, |sorted|)
  }

  /** The two lists are the collection split in two, each in collection order. */
  ghost predicate SplitsInOrder(order: seq<Test>, a: Assignment)
    requires a.Assigned?
  {
    exists side: set<Test> :: a.zero == Filter(order, side) && a.one == Filter(order, Others(order, side))
  }

  /** The larger load is at most 7/6 of the larger load of any split of the same tests. */
  ghost predicate WithinSevenSixths(order: seq<Test>, weights: Weights, a: Assignment)
    requires a.Assigned?
  {
    forall side: set<Test> ::
      6 * Max(Sum(a.zero, weights), Sum(a.one, weights)) <= 7 * SplitMax(order, side, weights)
  }

  /** The loads differ by no more than some single test weighs. */
  ghost predicate Balanced(order: seq<Test>, weights: Weights, a: Assignment)
    requires a.Assigned?
  {
    exists t :: t in order
      && Sum(a.zero, weights) <= Sum(a.one, weights) + Weight(weights, t)
      && Sum(a.one, weights) <= Sum(a.zero, weights) + Weight(weights, t)
  }

  /**
    Collection ids are unique (their validation demands it).  The partition fails exactly
    when a shard would be empty, which is when there are fewer than two tests.
   */
  method PartitionTests(order: seq<Test>, weights: Weights) returns (a: Assignment)
    requires Ordering.Distinct(order)
    ensures a.PartitionError? <==> |order| < 2
    ensures a.Assigned? ==> a.zero == Filter(order, ForZero(order, weights)) && a.one == Filter(order, Others(order, ForZero(order, weights)))
    ensures a.Assigned? ==> a.zero != [] && a.one != []
    ensures a.Assigned? ==> SplitsInOrder(order, a) && WithinSevenSixths(order, weights, a) && Balanced(order, weights, a)
  {
    var sorted := HeaviestFirst(order, weights);
    SortedDistinct(order, weights);
    var owners := Own(sorted, weights);
    ghost var first := ForZero(order, weights);
    SameTests(order, weights);
    forall t | t in order ensures t in owners && owners[t] == if t in first then 0 else 1 {
      OwnerOf(sorted, owners, first, t);
    }
    var zero, one := Deal(order, owners, first);
    ShardSums(order, weights);
    hide *;
    EmptySum(zero, weights);
    EmptySum(one, weights);
    if zero == [] || one == [] { return PartitionError; }
    a := Assigned(zero, one);
    Dealt(order, first, a);
    PartitionBounds(order, weights, a);
  }

  lemma Dealt(order: seq<Test>, side: set<Test>, a: Assignment)
    requires a.Assigned? && a.zero == Filter(order, side) && a.one == Filter(order, Others(order, side))
    ensures SplitsInOrder(order, a)
  {
  }

  /** Deals the collection out in its own order. */
  method Deal(order: seq<Test>, owners: map<Test, nat>, ghost first: set<Test>) returns (zero: seq<Test>, one: seq<Test>)
    requires forall t | t in order :: t in owners && owners[t] == if t in first then 0 else 1
    ensures zero == Filter(order, first) && one == Filter(order, Others(order, first))
  {
    ghost var second := Others(order, first);
    var shards: seq<seq<Test>> := [[], []];
    assert order[0..] == order;
    for i := 0 to |order|
      invariant |shards| == 2
      invariant shards[0] + Filter(order[i..], first) == Filter(order, first)
      invariant shards[1] + Filter(order[i..], second) == Filter(order, second)
    {
      var t := order[i];
      FilterStep(order, i, first);
      FilterStep(order, i, second);
      shards := shards[owners[t] := shards[owners[t]] + [t]];
      hide Filter;
    }
    zero, one := shards[0], shards[1];
  }

  lemma OwnerOf(sorted: seq<Test>, owners: map<Test, nat>, first: set<Test>, t: Test)
    requires t in sorted && forall i | 0 <= i < |sorted| :: sorted[i] in owners
    requires forall i | 0 <= i < |sorted| :: owners[sorted[i]] == if sorted[i] in first then 0 else 1
    ensures t in owners && owners[t] == if t in first then 0 else 1
  {
    var k :| 0 <= k < |sorted| && sorted[k] == t;
  }

  /** Which shard each test goes to. */
  method Own(sorted: seq<Test>, weights: Weights) returns (owners: map<Test, nat>)
    requires Ordering.Distinct(sorted)
    ensures forall i | 0 <= i < |sorted| :: sorted[i] in owners
    ensures forall i | 0 <= i < |sorted| ::
      owners[sorted[i]] == if sorted[i] in FirstShard(sorted, weights, |sorted|) then 0 else 1
  {
    owners := map[];
    var loads: seq<nat> := [0, 0];
    ghost var ws := WeightsOf(sorted, weights);
    for n := 0 to |sorted|
      invariant forall i | 0 <= i < n :: sorted[i] in owners
      invariant forall i | 0 <= i < n :: owners[sorted[i]] == if sorted[i] in FirstShard(sorted, weights, n) then 0 else 1
      invariant |loads| == 2 && (loads[0], loads[1]) == Greedy(ws, n)
    {
      var t := sorted[n];
      var shard := if loads[0] <= loads[1] then 0 else 1;
      FirstShardNext(sorted, weights, n);
      owners := owners[t := shard];
      loads := loads[shard := loads[shard] + Weight(weights, t)];
      hide FirstShard;
    }
  }

  /** The next test joins shard 0 when that is the lighter; the earlier ones stay where they are. */
  lemma FirstShardNext(tests: seq<Test>, weights: Weights, n: nat)
    requires n < |tests| && Ordering.Distinct(tests)
    ensures var p, q := FirstShard(tests, weights, n), FirstShard(tests, weights, n + 1);
            && (tests[n] in q <==> Shard(Greedy(WeightsOf(tests, weights), n)))
            && forall i | 0 <= i < n :: tests[i] != tests[n] && (tests[i] in p <==> tests[i] in q)
  {
    FirstShardWithin(tests, weights, n);
    assert tests[n] !in tests[..n];
  }

  lemma EmptySum(tests: seq<Test>, weights: Weights)
    ensures Sum(tests, weights) == 0 <==> tests == []
  {
  }

  /** The final loads are what the two lists weigh, and both are positive from two tests on. */
  lemma ShardSums(order: seq<Test>, weights: Weights)
    requires Ordering.Distinct(order)
    ensures var sorted := HeaviestFirst(order, weights);
            var first := FirstShard(sorted, weights, |sorted|);
            var l := Greedy(WeightsOf(sorted, weights), |sorted|);
            && Sum(Filter(order, first), weights) == l.0
            && Sum(Filter(order, Others(order, first)), weights) == l.1
            && ((l.0 > 0 && l.1 > 0) <==> |order| >= 2)
  {
    var sorted := HeaviestFirst(order, weights);
    var first := FirstShard(sorted, weights, |sorted|);
    SortedDistinct(order, weights);
    SameTests(order, weights);
    BothShardsUsed(WeightsOf(sorted, weights));
    FilterSum(order, first, weights);
    FilterSum(order, Others(order, first), weights);
    SortedLoads(order, weights);
    hide *;
  }

  lemma SortedLoads(order: seq<Test>, weights: Weights)
    requires Ordering.Distinct(HeaviestFirst(order, weights))
    ensures var sorted := HeaviestFirst(order, weights);
            var first := FirstShard(sorted, weights, |sorted|);
            var l := Greedy(WeightsOf(sorted, weights), |sorted|);
            Load(order, first, weights) == l.0 && Load(order, Others(order, first), weights) == l.1
  {
    var sorted := HeaviestFirst(order, weights);
    var first := FirstShard(sorted, weights, |sorted|);
    assert sorted[..|sorted|] == sorted;
    FirstShardLoads(sorted, weights, |sorted|);
    HeaviestFirstPermutes(order, weights);
    LoadPermutes(order, sorted, first, weights);
    LoadPermutes(order, sorted, Others(order, first), weights);
    SameTests(order, weights);
    assert Others(order, first) == Others(sorted, first);
  }

  lemma BothShardsUsed(ws: seq<nat>)
    requires forall i | 0 <= i < |ws| :: ws[i] > 0
    ensures var l := Greedy(ws, |ws|); (l.0 > 0 && l.1 > 0) <==> |ws| >= 2
  {
    if |ws| >= 1 {
      assert Greedy(ws, 0) == (0, 0);
      assert Greedy(ws, 1) == (ws[0], 0);
      if |ws| >= 2 {
        assert Greedy(ws, 2) == (ws[0], ws[1]);
        GreedyGrows(ws, 2, |ws|);
      }
    }
  }

  lemma PartitionBounds(order: seq<Test>, weights: Weights, a: Assignment)
    requires a.Assigned? && |order| > 0
    requires var ws := WeightsOf(HeaviestFirst(order, weights), weights);
             (Sum(a.zero, weights), Sum(a.one, weights)) == Greedy(ws, |ws|)
    ensures WithinSevenSixths(order, weights, a) && Balanced(order, weights, a)
  {
    var sorted := HeaviestFirst(order, weights);
    var ws := WeightsOf(sorted, weights);
    SameTests(order, weights);
    forall side: set<Test>
      ensures 6 * Max(Sum(a.zero, weights), Sum(a.one, weights)) <= 7 * SplitMax(order, side, weights)
    {
      GreedyBound(order, side, weights, true);
      GreedyBound(order, side, weights, false);
    }
    HeaviestFirstOrdered(order, weights);
    GreedyBalanced(ws, |ws|, ws[0]);
    assert sorted[0] in order && ws[0] == Weight(weights, sorted[0]);
  }

  /** Weights 3, 3, 2, 2, 2: the greedy rule reaches 7, a perfect split 6. */
  lemma SevenSixthsIsReached(ws: seq<nat>, split: seq<bool>)
    requires ws == [3, 3, 2, 2, 2] && split == [true, true, false, false, false]
    ensures NonIncreasing(ws) && Greedy(ws, 5).0 == 7
    ensures Part(ws, split, true, 5) == 6 && Part(ws, split, false, 5) == 6
  {
    assert Greedy(ws, 1) == (3, 0);
    assert Greedy(ws, 2) == (3, 3);
    assert Greedy(ws, 3) == (5, 3);
    assert Greedy(ws, 4) == (5, 5);
    SixOnSide(ws, split, true);
    SixOnSide(ws, split, false);
  }

  lemma SixOnSide(ws: seq<nat>, split: seq<bool>, side: bool)
    requires ws == [3, 3, 2, 2, 2] && split == [true, true, false, false, false]
    ensures Part(ws, split, side, 5) == 6
  {
    PartStep(ws, split, side, 0);
    PartStep(ws, split, side, 1);
    PartStep(ws, split, side, 2);
    PartStep(ws, split, side, 3);
    PartStep(ws, split, side, 4);
  }

  lemma PartStep(ws: seq<nat>, split: seq<bool>, side: bool, n: nat)
    requires n < |ws| == |split|
    ensures Part(ws, split, side, 0) == 0
    ensures Part(ws, split, side, n + 1) == Part(ws, split, side, n) + (if split[n] == side then ws[n] else 0)
  {
  }

  // ----- Where each test goes -----

  /** The tests of a collection that are dealt before one: heavier ones, and of those as heavy the ones with a smaller id. */
  function Earlier(order: seq<Test>, weights: Weights, t: Test): set<Test> {
    set x | x in order && (Weight(weights, x) > Weight(weights, t) || (Weight(weights, x) == Weight(weights, t) && x < t))
  }

  lemma {:induction false} LoadNothing(tests: seq<Test>, side: set<Test>, weights: Weights)
    requires forall x | x in tests :: x !in side
    ensures Load(tests, side, weights) == 0
  {
    if tests != [] { LoadNothing(tests[1..], side, weights); }
  }

  lemma EarlierIsPrefix(sorted: seq<Test>, weights: Weights, n: nat)
    requires n < |sorted| && Ordered(sorted, weights) && Ordering.Distinct(sorted)
    ensures forall i | 0 <= i < |sorted| :: sorted[i] in Earlier(sorted, weights, sorted[n]) <==> i < n
  {
    forall i | 0 <= i < |sorted| ensures sorted[i] in Earlier(sorted, weights, sorted[n]) <==> i < n {
      if i < n {
        assert Before(weights, sorted[i], sorted[n]) && sorted[i] != sorted[n];
      } else if i > n {
        assert Before(weights, sorted[n], sorted[i]) && sorted[i] != sorted[n];
      }
    }
  }

  lemma {:induction false} ShardStays(tests: seq<Test>, weights: Weights, n: nat, m: nat)
    requires n <= m <= |tests| && Ordering.Distinct(tests)
    ensures forall i | 0 <= i < n :: tests[i] in FirstShard(tests, weights, n) <==> tests[i] in FirstShard(tests, weights, m)
    decreases m
  {
    if n < m {
      ShardStays(tests, weights, n, m - 1);
      FirstShardNext(tests, weights, m - 1);
    }
  }

  /** The load of the tests before a position, on either side of the partition. */
  lemma PrefixLoad(sorted: seq<Test>, weights: Weights, n: nat, side: set<Test>, part: set<Test>)
    requires n <= |sorted|
    requires forall i | 0 <= i < |sorted| :: sorted[i] in part <==> i < n && sorted[i] in side
    ensures Load(sorted, part, weights) == Load(sorted[..n], side, weights)
  {
    assert sorted == sorted[..n] + sorted[n..];
    LoadAppend(sorted[..n], sorted[n..], part, weights);
    LoadAgrees(sorted[..n], part, side, weights);
    LoadNothing(sorted[n..], part, weights);
  }

  /**
    Each test goes to the first shard exactly when, of the tests heavier than it and those as
    heavy with a smaller id, the first shard's share weighs no more than the second's.
   */
  lemma EachGoesToTheLighter(order: seq<Test>, weights: Weights, t: Test)
    requires Ordering.Distinct(order) && t in order
    ensures var zero, earlier := ForZero(order, weights), Earlier(order, weights, t);
      t in zero <==> Load(order, earlier * zero, weights) <= Load(order, earlier - zero, weights)
  {
    hide Load, FirstShard, Greedy, WeightsOf, HeaviestFirst, Ordered, Ordering.Distinct;
    var sorted, zero, earlier := HeaviestFirst(order, weights), ForZero(order, weights), Earlier(order, weights, t);
    SortedDistinct(order, weights);
    HeaviestFirstOrdered(order, weights);
    HeaviestFirstPermutes(order, weights);
    SameTests(order, weights);
    LoadPermutes(order, sorted, earlier * zero, weights);
    LoadPermutes(order, sorted, earlier - zero, weights);
    var n :| 0 <= n < |sorted| && sorted[n] == t;
    EarlierIsPrefix(sorted, weights, n);
    assert earlier == Earlier(sorted, weights, t);
    FirstShardNext(sorted, weights, n);
    FirstShardLoads(sorted, weights, n);
    ShardStays(sorted, weights, n + 1, |sorted|);
    ShardStays(sorted, weights, n, |sorted|);
    var before := FirstShard(sorted, weights, n);
    PrefixLoad(sorted, weights, n, before, earlier * zero);
    PrefixLoad(sorted, weights, n, Others(sorted, before), earlier - zero);
  }
}
