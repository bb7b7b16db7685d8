/**
 * The list manipulations both hand evaluators perform on the five ranks of
 * a hand: sorting in descending order, counting equal ranks, the distinct
 * ranks, the (rank, count) groups ordered by count and then rank, filtering
 * out a rank, `max` and slicing.
 */
module RankAnalysis {
  import opened Wrappers

  predicate NonIncreasing(s: seq<int>) {
    forall i, j :: 0 <= i < j < |s| ==> s[i] >= s[j]
  }

  predicate Decreasing(s: seq<int>) {
    forall i, j :: 0 <= i < j < |s| ==> s[i] > s[j]
  }

  // ---------------------------------------------------------------------
  // sorted(xs, reverse=True)

  /** Putting a head no smaller than every element in front keeps a list descending. */
  lemma ConsNonIncreasing(h: int, t: seq<int>)
    requires NonIncreasing(t)
    requires forall y :: y in t ==> y <= h
    ensures NonIncreasing([h] + t)
  {
    forall i, j | 0 <= i < j < |[h] + t| ensures ([h] + t)[i] >= ([h] + t)[j] {
      if i == 0 {
        assert ([h] + t)[j] == t[j - 1] && t[j - 1] in t;
      } else {
        assert ([h] + t)[i] == t[i - 1] && ([h] + t)[j] == t[j - 1];
      }
    }
  }

  /** The head of a descending list is its largest element. */
  lemma HeadIsMax(s: seq<int>)
    requires NonIncreasing(s)
    ensures |s| > 0 ==> forall y :: y in s ==> y <= s[0]
  {
    forall y | y in s ensures y <= s[0] {
      var k :| 0 <= k < |s| && s[k] == y;
    }
  }

  function InsertDesc(x: int, s: seq<int>): (r: seq<int>)
    requires NonIncreasing(s)
    ensures |r| == |s| + 1
    ensures forall y :: y in r <==> y == x || y in s
    ensures NonIncreasing(r)
  {
    if s == [] || x >= s[0] then
      HeadIsMax(s);
      ConsNonIncreasing(x, s);
      [x] + s
    else
      HeadIsMax(s);
      var rest := InsertDesc(x, s[1..]);
      ConsNonIncreasing(s[0], rest);
      [s[0]] + rest
  }

  /** Inserting adds exactly the one element. */
  lemma {:induction false} InsertDescMultiset(x: int, s: seq<int>)
    requires NonIncreasing(s)
    ensures multiset(InsertDesc(x, s)) == multiset(s) + multiset{x}
  {
    if s == [] || x >= s[0] {
      assert InsertDesc(x, s) == [x] + s;
    } else {
      var t := s[1..];
      var rest := InsertDesc(x, t);
      InsertDescMultiset(x, t);
      assert InsertDesc(x, s) == [s[0]] + rest;
      assert s == [s[0]] + t;
      calc {
        multiset(InsertDesc(x, s));
        multiset([s[0]] + rest);
        multiset([s[0]]) + multiset(rest);
        multiset([s[0]]) + multiset(t) + multiset{x};
        multiset([s[0]] + t) + multiset{x};
      }
    }
  }

  /** Insertion sort into descending order: a descending permutation of the input. */
  function SortDesc(s: seq<int>): (r: seq<int>)
    ensures |r| == |s|
    ensures multiset(r) == multiset(s)
    ensures NonIncreasing(r)
  {
    if s == [] then []
    else
      var rest := SortDesc(s[1..]);
      SortDescStep(s, rest);
      InsertDesc(s[0], rest)
  }

  /** Inserting the head into the sorted tail gives the elements of the whole list. */
  lemma SortDescStep(s: seq<int>, rest: seq<int>)
    requires s != [] && NonIncreasing(rest) && multiset(rest) == multiset(s[1..])
    ensures multiset(InsertDesc(s[0], rest)) == multiset(s)
  {
    InsertDescMultiset(s[0], rest);
    assert s == [s[0]] + s[1..];
  }

  /** Sorting brings in no value that was not there. */
  lemma SortedMembers(s: seq<int>)
    ensures forall v :: v in SortDesc(s) ==> v in s
  {
    forall v | v in SortDesc(s)
      ensures v in s
    {
      assert v in multiset(SortDesc(s));
    }
  }

  /** A descending sequence is determined by its multiset of elements. */
  lemma {:induction false} SortedUnique(a: seq<int>, b: seq<int>)
    requires NonIncreasing(a) && NonIncreasing(b)
    requires multiset(a) == multiset(b)
    ensures a == b
  {
    assert |a| == |multiset(a)| == |multiset(b)| == |b|;
    if a != [] {
      HeadIsMax(a);
      HeadIsMax(b);
      assert a[0] in multiset(b) && b[0] in multiset(a);
      assert a[0] == b[0] by {
        assert a[0] in b && b[0] in a;
      }
      var ta, tb := a[1..], b[1..];
      assert a == [a[0]] + ta && b == [b[0]] + tb;
      calc {
        multiset(ta);
        multiset(a) - multiset{a[0]};
        multiset(b) - multiset{b[0]};
        multiset(tb);
      }
      SortedUnique(ta, tb);
    }
  }

  /** Sorting what is already in descending order changes nothing. */
  lemma SortDescOfSorted(s: seq<int>)
    requires NonIncreasing(s)
    ensures SortDesc(s) == s
  {
    SortedUnique(SortDesc(s), s);
  }

  // ---------------------------------------------------------------------
  // xs.count(x)

  function Count(s: seq<int>, x: int): nat {
    multiset(s)[x]
  }

  /** Two different values together occur at most |s| times. */
  lemma {:induction false} CountTwo(s: seq<int>, a: int, b: int)
    requires a != b
    ensures Count(s, a) + Count(s, b) <= |s|
  {
    if s != [] {
      assert s == [s[0]] + s[1..];
      CountTwo(s[1..], a, b);
    }
  }

  /** Three different values together occur at most |s| times. */
  lemma {:induction false} CountThree(s: seq<int>, a: int, b: int, c: int)
    requires a != b && b != c && a != c
    ensures Count(s, a) + Count(s, b) + Count(s, c) <= |s|
  {
    if s != [] {
      assert s == [s[0]] + s[1..];
      CountThree(s[1..], a, b, c);
    }
  }

  /** A value occurring |s| times is the only value of s. */
  lemma {:induction false} CountAll(s: seq<int>, x: int, y: int)
    requires Count(s, x) == |s| && y in s
    ensures y == x
  {
    if y != x {
      assert Count(s, y) >= 1;
      CountTwo(s, x, y);
    }
  }

  // ---------------------------------------------------------------------
  // [r for r in xs if r != x], max(...), xs[:n]

  function Without(s: seq<int>, x: int): (r: seq<int>)
    ensures forall y :: y in r <==> y in s && y != x
    ensures NonIncreasing(s) ==> NonIncreasing(r)
  {
    if s == [] then []
    else
      var rest := Without(s[1..], x);
      if s[0] == x then rest
      else
        assert NonIncreasing(s) ==> NonIncreasing([s[0]] + rest) by {
          if NonIncreasing(s) {
            HeadIsMax(s);
            ConsNonIncreasing(s[0], rest);
          }
        }
        [s[0]] + rest
  }

  /** Filtering out x removes its occurrences and keeps every other count. */
  lemma {:induction false} WithoutCounts(s: seq<int>, x: int)
    ensures |Without(s, x)| == |s| - Count(s, x)
    ensures multiset(Without(s, x)) == multiset(s)[x := 0]
  {
    if s != [] {
      var t := s[1..];
      WithoutCounts(t, x);
      assert s == [s[0]] + t;
      assert multiset(s) == multiset{s[0]} + multiset(t);
      if s[0] != x {
        assert Without(s, x) == [s[0]] + Without(t, x);
        assert multiset(Without(s, x)) == multiset{s[0]} + multiset(Without(t, x));
      }
    }
  }

  function Max(s: seq<int>): (m: int)
    requires |s| > 0
    ensures m in s && forall y :: y in s ==> y <= m
  {
    if |s| == 1 then s[0]
    else
      var rest := Max(s[1..]);
      assert forall y :: y in s ==> y == s[0] || y in s[1..];
      if s[0] >= rest then s[0] else rest
  }

  /** `max(a, b)` and `min(a, b)`. */
  function Larger(a: int, b: int): int {
    if a >= b then a else b
  }

  function Min(a: int, b: int): (m: int)
    ensures m <= a && m <= b && (m == a || m == b)
  {
    if a <= b then a else b
  }

  /** The maximum of a descending sequence is its head. */
  lemma MaxOfSorted(s: seq<int>)
    requires |s| > 0 && NonIncreasing(s)
    ensures Max(s) == s[0]
  {
  }

  /** Python's slice `xs[:n]`. */
  function Take(s: seq<int>, n: nat): (r: seq<int>)
    ensures |r| == if |s| <= n then |s| else n
    ensures forall i :: 0 <= i < |r| ==> r[i] == s[i]
  {
    if |s| <= n then s else s[..n]
  }

  // ---------------------------------------------------------------------
  // sorted(set(xs), reverse=True), on a list already in descending order

  function Dedup(s: seq<int>): (u: seq<int>)
    requires NonIncreasing(s)
    ensures Decreasing(u)
    ensures forall x :: x in u <==> x in s
    ensures |u| <= |s|
    ensures |s| > 0 ==> |u| > 0 && u[0] == s[0]
  {
    if |s| <= 1 then s
    else if s[0] == s[1] then Dedup(s[1..])
    else
      var rest := Dedup(s[1..]);
      assert forall x :: x in rest ==> x in s[1..];
      [s[0]] + rest
  }

  /** All five (or n) ranks are distinct exactly when the distinct ranks number n. */
  lemma {:induction false} DedupFull(s: seq<int>)
    requires NonIncreasing(s) && |Dedup(s)| == |s|
    ensures Decreasing(s) && Dedup(s) == s
  {
    if |s| > 1 {
      if s[0] == s[1] {
        assert false;
      }
      DedupFull(s[1..]);
    }
  }

  /** Conversely, a strictly descending list is its own set of distinct values. */
  lemma {:induction false} DedupOfDecreasing(s: seq<int>)
    requires Decreasing(s)
    ensures Dedup(s) == s
  {
    if |s| > 1 {
      DedupOfDecreasing(s[1..]);
    }
  }

  // ---------------------------------------------------------------------
  // sorted(counts.items(), key=lambda x: (-x[1], -x[0]))

  datatype Group = Group(rank: int, count: nat)

  /** `a` sorts before `b`: a larger count, or the same count and a larger rank. */
  predicate Precedes(a: Group, b: Group) {
    a.count > b.count || (a.count == b.count && a.rank > b.rank)
  }

  predicate GroupsSorted(gs: seq<Group>) {
    forall i, j :: 0 <= i < j < |gs| ==> Precedes(gs[i], gs[j])
  }

  predicate DistinctRanks(gs: seq<Group>) {
    forall i, j :: 0 <= i < j < |gs| ==> gs[i].rank != gs[j].rank
  }

  function InsertGroup(g: Group, gs: seq<Group>): (r: seq<Group>)
    requires GroupsSorted(gs)
    requires forall h :: h in gs ==> h.rank != g.rank
    ensures |r| == |gs| + 1
    ensures forall h :: h in r <==> h == g || h in gs
    ensures GroupsSorted(r)
  {
    if gs == [] || Precedes(g, gs[0]) then [g] + gs
    else
      var rest := InsertGroup(g, gs[1..]);
      assert forall h :: h in rest ==> Precedes(gs[0], h) by {
        forall h | h in rest ensures Precedes(gs[0], h) {
          if h != g {
            var j :| 0 <= j < |gs[1..]| && gs[1..][j] == h;
            assert gs[j + 1] == h;
          }
        }
      }
      [gs[0]] + rest
  }

  function SortGroups(gs: seq<Group>): (r: seq<Group>)
    requires DistinctRanks(gs)
    ensures |r| == |gs|
    ensures forall h :: h in r <==> h in gs
    ensures GroupsSorted(r)
  {
    if gs == [] then []
    else
      assert forall h :: h in gs[1..] ==> h.rank != gs[0].rank;
      InsertGroup(gs[0], SortGroups(gs[1..]))
  }

  /** `counts.items()`: each distinct rank with its number of occurrences. */
  function CountGroups(u: seq<int>, s: seq<int>): (gs: seq<Group>)
    ensures |gs| == |u|
    ensures forall i :: 0 <= i < |u| ==> gs[i] == Group(u[i], Count(s, u[i]))
  {
    seq(|u|, i requires 0 <= i < |u| => Group(u[i], Count(s, u[i])))
  }

  /** `ordered`: the groups of a descending rank list, most frequent first, ties by rank. */
  function Ordered(s: seq<int>): (o: seq<Group>)
    requires NonIncreasing(s)
    ensures |o| == |Dedup(s)|
    ensures GroupsSorted(o)
    ensures forall g :: g in o ==> g.rank in s && g.count == Count(s, g.rank)
    ensures forall x :: x in s ==> Group(x, Count(s, x)) in o
  {
    var u := Dedup(s);
    var gs := CountGroups(u, s);
    assert forall x :: x in s ==> Group(x, Count(s, x)) in gs by {
      forall x | x in s ensures Group(x, Count(s, x)) in gs {
        var i :| 0 <= i < |u| && u[i] == x;
        assert gs[i] == Group(x, Count(s, x));
      }
    }
    SortGroups(gs)
  }

  /** The first group is a most frequent rank, the highest among equally frequent ones. */
  lemma OrderedHead(s: seq<int>)
    requires NonIncreasing(s) && |s| > 0
    ensures |Ordered(s)| > 0
    ensures forall x :: x in s ==>
              Count(s, x) < Ordered(s)[0].count
              || (Count(s, x) == Ordered(s)[0].count && x <= Ordered(s)[0].rank)
  {
    var o := Ordered(s);
    forall x | x in s
      ensures Count(s, x) < o[0].count || (Count(s, x) == o[0].count && x <= o[0].rank)
    {
      assert Group(x, Count(s, x)) in o;
      var i :| 0 <= i < |o| && o[i] == Group(x, Count(s, x));
      if i > 0 {
        assert Precedes(o[0], o[i]);
      }
    }
  }

  /** The second group, when present, is the best of the remaining ranks. */
  lemma OrderedSecond(s: seq<int>)
    requires NonIncreasing(s) && |s| > 0 && Ordered(s)[0].count < |s|
    ensures |Ordered(s)| >= 2
    ensures Precedes(Ordered(s)[0], Ordered(s)[1])
    ensures forall x :: x in s && x != Ordered(s)[0].rank ==>
              Count(s, x) < Ordered(s)[1].count
              || (Count(s, x) == Ordered(s)[1].count && x <= Ordered(s)[1].rank)
  {
    var o := Ordered(s);
    assert o[0] in o;
    var r0 := o[0].rank;
    if |o| < 2 {
      forall y | y in s ensures y == r0 {
        assert Group(y, Count(s, y)) in o;
      }
      CountOnly(s, r0);
      assert false;
    }
    assert Precedes(o[0], o[1]);
    forall x | x in s && x != r0
      ensures Count(s, x) < o[1].count || (Count(s, x) == o[1].count && x <= o[1].rank)
    {
      assert Group(x, Count(s, x)) in o;
      var i :| 0 <= i < |o| && o[i] == Group(x, Count(s, x));
      if i > 1 {
        assert Precedes(o[1], o[i]);
      }
    }
  }

  /** A list whose every element is x consists of |s| copies of x. */
  lemma {:induction false} CountOnly(s: seq<int>, x: int)
    requires forall y :: y in s ==> y == x
    ensures Count(s, x) == |s|
  {
    if s != [] {
      assert s == [s[0]] + s[1..];
      assert s[0] in s && s[0] == x;
      assert forall y :: y in s[1..] ==> y in s;
      CountOnly(s[1..], x);
      assert multiset(s) == multiset{s[0]} + multiset(s[1..]);
    }
  }

  // ---------------------------------------------------------------------
  // for i in range(len(unique) - 4): window = unique[i:i+5]; if window[0] - window[4] == 4: ...

  /** The first five-wide window of the distinct ranks that spans exactly 4, if any. */
  function WindowStraight(u: seq<int>, i: nat): (h: Option<int>)
    decreases |u| - i
  {
    if i + 4 >= |u| then None
    else if u[i] - u[i + 4] == 4 then Some(u[i])
    else WindowStraight(u, i + 1)
  }

  /**
   * The straight test of both evaluators on the descending ranks: the first
   * window of five distinct ranks spanning exactly 4, overridden by the
   * wheel (ace, 5, 4, 3, 2) whose high card is the 5. `deuce` is the value
   * of a 2 on the evaluator's rank scale, so the ace is `deuce + 12`.
   */
  function StraightHigh(ranks: seq<int>, deuce: int): Option<int>
    requires NonIncreasing(ranks)
  {
    var unique := Dedup(ranks);
    if |unique| >= 5 then
      if deuce + 12 in ranks && deuce + 3 in ranks && deuce + 2 in ranks
         && deuce + 1 in ranks && deuce in ranks
      then Some(deuce + 3)
      else WindowStraight(unique, 0)
    else None
  }
}
