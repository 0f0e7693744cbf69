/**
  List scheduling on two machines, largest weight first: the arithmetic of the bound, on
  a non-increasing list of weights and any way to send each of them to one of two sides.
 */
module LargestFirst {

  predicate Shard(loads: (nat, nat)) { loads.0 <= loads.1 }

  function Side(loads: (nat, nat), first: bool): nat { if first then loads.0 else loads.1 }

  /** The loads after the first n weights, each put on the lighter side, the first on ties. */
  function Greedy(ws: seq<nat>, n: nat): (nat, nat)
    requires n <= |ws|
  {
    if n == 0 then (0, 0)
    else
      var l := Greedy(ws, n - 1);
      if Shard(l) then (l.0 + ws[n - 1], l.1) else (l.0, l.1 + ws[n - 1])
  }

  function Total(ws: seq<nat>, n: nat): nat
    requires n <= |ws|
  {
    if n == 0 then 0 else Total(ws, n - 1) + ws[n - 1]
  }

  /** What a split sends to one side among the first n weights. */
  function Part(ws: seq<nat>, split: seq<bool>, side: bool, n: nat): nat
    requires n <= |ws| == |split|
  {
    if n == 0 then 0
    else Part(ws, split, side, n - 1) + (if split[n - 1] == side then ws[n - 1] else 0)
  }

  function Count(split: seq<bool>, side: bool, n: nat): nat
    requires n <= |split|
  {
    if n == 0 then 0 else Count(split, side, n - 1) + (if split[n - 1] == side then 1 else 0)
  }

  ghost predicate NonIncreasing(ws: seq<nat>) {
    forall i, j | 0 <= i <= j < |ws| :: ws[i] >= ws[j]
  }

  lemma {:induction false} GreedyTotal(ws: seq<nat>, n: nat)
    requires n <= |ws|
    ensures Greedy(ws, n).0 + Greedy(ws, n).1 == Total(ws, n)
  {
    if n > 0 { GreedyTotal(ws, n - 1); }
  }

  lemma {:induction false} PartTotal(ws: seq<nat>, split: seq<bool>, n: nat)
    requires n <= |ws| == |split|
    ensures Part(ws, split, true, n) + Part(ws, split, false, n) == Total(ws, n)
    ensures Count(split, true, n) + Count(split, false, n) == n
  {
    if n > 0 { PartTotal(ws, split, n - 1); }
  }

  lemma {:induction false} PartGrows(ws: seq<nat>, split: seq<bool>, side: bool, n: nat, m: nat)
    requires n <= m <= |ws| == |split|
    ensures Part(ws, split, side, n) <= Part(ws, split, side, m)
    decreases m
  {
    if n < m { PartGrows(ws, split, side, n, m - 1); }
  }

  /** The two loads never drift apart by more than the heaviest weight. */
  lemma {:induction false} GreedyBalanced(ws: seq<nat>, n: nat, heaviest: nat)
    requires n <= |ws| && forall i | 0 <= i < n :: ws[i] <= heaviest
    ensures Greedy(ws, n).0 <= Greedy(ws, n).1 + heaviest && Greedy(ws, n).1 <= Greedy(ws, n).0 + heaviest
  {
    if n > 0 { GreedyBalanced(ws, n - 1, heaviest); }
  }

  lemma {:induction false} GreedyGrows(ws: seq<nat>, n: nat, m: nat)
    requires n <= m <= |ws|
    ensures Greedy(ws, n).0 <= Greedy(ws, m).0 && Greedy(ws, n).1 <= Greedy(ws, m).1
    decreases m
  {
    if n < m { GreedyGrows(ws, n, m - 1); }
  }

  /** A side's load is what it had when it got its last weight, being then the lighter, plus that weight. */
  lemma {:induction false} LastPlaced(ws: seq<nat>, n: nat, first: bool) returns (j: nat)
    requires n <= |ws| && Side(Greedy(ws, n), first) > 0
    ensures j < n && Shard(Greedy(ws, j)) == first
    ensures Side(Greedy(ws, n), first) == Side(Greedy(ws, j), first) + ws[j]
  {
    if Shard(Greedy(ws, n - 1)) == first {
      j := n - 1;
    } else {
      j := LastPlaced(ws, n - 1, first);
    }
  }

  /** k weights of at least w make at least k times w. */
  lemma {:induction false} CountTimes(ws: seq<nat>, split: seq<bool>, side: bool, n: nat, w: nat)
    requires n <= |ws| == |split| && forall i | 0 <= i < n :: w <= ws[i]
    ensures Count(split, side, n) * w <= Part(ws, split, side, n)
  {
    if n > 0 {
      CountTimes(ws, split, side, n - 1, w);
      var c := Count(split, side, n - 1);
      assert (c + 1) * w == c * w + w;
    }
  }

  /** A split whose sides stay within `best`, all weights being over a third of it, has at most two a side. */
  lemma AtMostTwo(ws: seq<nat>, split: seq<bool>, side: bool, n: nat, w: nat, best: nat)
    requires n <= |ws| == |split| && forall i | 0 <= i < n :: w <= ws[i]
    requires 3 * w > best && Part(ws, split, side, n) <= best
    ensures Count(split, side, n) <= 2
  {
    CountTimes(ws, split, side, n, w);
    var c := Count(split, side, n);
    assert c >= 3 ==> c * w >= 3 * w;
  }

  lemma AtMostFour(ws: seq<nat>, split: seq<bool>, j: nat, best: nat)
    requires j < |ws| == |split| && NonIncreasing(ws)
    requires Part(ws, split, true, j + 1) <= best && Part(ws, split, false, j + 1) <= best
    requires 3 * ws[j] > best
    ensures j <= 3
  {
    AtMostTwo(ws, split, true, j + 1, ws[j], best);
    AtMostTwo(ws, split, false, j + 1, ws[j], best);
    PartTotal(ws, split, j + 1);
  }

  /** With weights all over a third of the best load there are at most four, and they are placed optimally. */
  lemma FewHeavy(ws: seq<nat>, split: seq<bool>, j: nat, best: nat, first: bool)
    requires j < |ws| == |split| && NonIncreasing(ws)
    requires Part(ws, split, true, j + 1) <= best && Part(ws, split, false, j + 1) <= best
    requires 3 * ws[j] > best && Shard(Greedy(ws, j)) == first
    ensures Side(Greedy(ws, j), first) + ws[j] <= best
  {
    AtMostFour(ws, split, j, best);
    Unfold(ws, split, true, j);
    Unfold(ws, split, false, j);
    var l := Greedy(ws, j);
    hide Part, Greedy, NonIncreasing;
    if j == 2 {
      ThreeHeavy(ws[0], ws[1], ws[2], split[0], split[1], split[2], best);
    } else if j == 3 {
      FourHeavy(ws[0], ws[1], ws[2], ws[3], split[0], split[1], split[2], split[3], best);
    } else if j == 1 {
      TwoHeavy(ws[0], ws[1], split[0], split[1], best);
    }
    hide On;
  }

  lemma TwoHeavy(a: nat, b: nat, p: bool, q: bool, best: nat)
    requires On(p, true, a) + On(q, true, b) <= best && On(p, false, a) + On(q, false, b) <= best
    ensures a <= best && b <= best
  {
  }

  function On(sent: bool, side: bool, w: nat): nat { if sent == side then w else 0 }

  /** The greedy loads and a split's parts over the first up to four weights, written out. */
  lemma Unfold(ws: seq<nat>, split: seq<bool>, side: bool, j: nat)
    requires j < |ws| == |split| && j <= 3 && NonIncreasing(ws)
    requires ws[j] > 0
    ensures (j >= 1 ==> ws[0] >= ws[1]) && (j >= 2 ==> ws[1] >= ws[2]) && (j >= 3 ==> ws[2] >= ws[3])
    ensures j == 0 ==> Greedy(ws, j) == (0, 0)
    ensures j == 1 ==> Greedy(ws, j) == (ws[0], 0)
    ensures j == 2 ==> Greedy(ws, j) == (ws[0], ws[1])
    ensures j == 3 ==> Greedy(ws, j) == if ws[0] <= ws[1] then (ws[0] + ws[2], ws[1]) else (ws[0], ws[1] + ws[2])
    ensures Part(ws, split, side, j + 1) == On(split[0], side, ws[0])
      + (if j >= 1 then On(split[1], side, ws[1]) else 0)
      + (if j >= 2 then On(split[2], side, ws[2]) else 0)
      + (if j >= 3 then On(split[3], side, ws[3]) else 0)
  {
    assert Greedy(ws, 0) == (0, 0);
    assert Greedy(ws, 1) == (ws[0], 0);
    if j >= 2 { assert Greedy(ws, 2) == (ws[0], ws[1]); }
    assert Part(ws, split, side, 1) == On(split[0], side, ws[0]);
    if j >= 1 { assert Part(ws, split, side, 2) == Part(ws, split, side, 1) + On(split[1], side, ws[1]); }
    if j >= 2 { assert Part(ws, split, side, 3) == Part(ws, split, side, 2) + On(split[2], side, ws[2]); }
  }

  lemma ThreeHeavy(a: nat, b: nat, c: nat, p: bool, q: bool, r: bool, best: nat)
    requires a >= b >= c
    requires On(p, true, a) + On(q, true, b) + On(r, true, c) <= best
    requires On(p, false, a) + On(q, false, b) + On(r, false, c) <= best
    ensures (if a <= b then a else b) + c <= best
  {
  }

  lemma FourHeavy(a: nat, b: nat, c: nat, d: nat, p: bool, q: bool, r: bool, s: bool, best: nat)
    requires a >= b >= c >= d && 3 * d > best
    requires On(p, true, a) + On(q, true, b) + On(r, true, c) + On(s, true, d) <= best
    requires On(p, false, a) + On(q, false, b) + On(r, false, c) + On(s, false, d) <= best
    ensures var l := if a <= b then (a + c, b) else (a, b + c);
            (if l.0 <= l.1 then l.0 else l.1) + d <= best
  {
  }

  lemma SevenSixths(ws: seq<nat>, split: seq<bool>, best: nat, first: bool)
    requires |ws| == |split| && NonIncreasing(ws)
    requires Part(ws, split, true, |ws|) <= best && Part(ws, split, false, |ws|) <= best
    ensures 6 * Side(Greedy(ws, |ws|), first) <= 7 * best
  {
    var n := |ws|;
    if Side(Greedy(ws, n), first) > 0 {
      var j := LastPlaced(ws, n, first);
      PartGrows(ws, split, true, j + 1, n);
      PartGrows(ws, split, false, j + 1, n);
      if 3 * ws[j] > best {
        FewHeavy(ws, split, j, best, first);
      } else {
        LightLast(ws, split, j, best, first);
      }
    }
  }

  /** When the last weight is at most a third of the best load, averaging gives the bound. */
  lemma LightLast(ws: seq<nat>, split: seq<bool>, j: nat, best: nat, first: bool)
    requires j < |ws| == |split| && 3 * ws[j] <= best && Shard(Greedy(ws, j)) == first
    requires Part(ws, split, true, j + 1) <= best && Part(ws, split, false, j + 1) <= best
    ensures 6 * (Side(Greedy(ws, j), first) + ws[j]) <= 7 * best
  {
    GreedyTotal(ws, j);
    PartTotal(ws, split, j + 1);
    assert Total(ws, j + 1) == Total(ws, j) + ws[j];
  }
}
