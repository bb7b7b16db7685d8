/**
 * `itertools.combinations(xs, k)`: every k-element selection of xs, keeping
 * the input order inside each selection, listed in lexicographic order of
 * positions (all selections that use xs[0] first).
 */
module Combinatorics {
  import opened Cards

  function PrependAll<T>(x: T, cs: seq<seq<T>>): (r: seq<seq<T>>)
    ensures |r| == |cs|
    ensures forall i :: 0 <= i < |cs| ==> r[i] == [x] + cs[i]
  {
    seq(|cs|, i requires 0 <= i < |cs| => [x] + cs[i])
  }

  function Combinations<T>(s: seq<T>, k: nat): seq<seq<T>>
    decreases |s|
  {
    if k == 0 then [[]]
    else if |s| < k then []
    else PrependAll(s[0], Combinations(s[1..], k - 1)) + Combinations(s[1..], k)
  }

  function Binomial(n: nat, k: nat): nat {
    if k == 0 then 1
    else if n == 0 then 0
    else Binomial(n - 1, k - 1) + Binomial(n - 1, k)
  }

  /** There are C(n, k) selections. */
  lemma {:induction false} CombinationsCount<T>(s: seq<T>, k: nat)
    ensures |Combinations(s, k)| == Binomial(|s|, k)
    decreases |s|
  {
    if k > 0 && |s| >= k {
      CombinationsCount(s[1..], k - 1);
      CombinationsCount(s[1..], k);
    } else if k > 0 {
      BinomialZero(|s|, k);
    }
  }

  /** Every selection has exactly k elements. */
  lemma {:induction false} CombinationsLength<T>(s: seq<T>, k: nat, c: seq<T>)
    requires c in Combinations(s, k)
    ensures |c| == k
    decreases |s|
  {
    if k > 0 && |s| >= k {
      var with := PrependAll(s[0], Combinations(s[1..], k - 1));
      var rest := Combinations(s[1..], k);
      assert Combinations(s, k) == with + rest;
      if c in with {
        var i :| 0 <= i < |with| && with[i] == c;
        CombinationsLength(s[1..], k - 1, Combinations(s[1..], k - 1)[i]);
      } else {
        assert c in rest;
        CombinationsLength(s[1..], k, c);
      }
    }
  }

  /** Every selection of the list has exactly k elements. */
  lemma CombinationsLengths<T>(s: seq<T>, k: nat)
    ensures forall i :: 0 <= i < |Combinations(s, k)| ==> |Combinations(s, k)[i]| == k
  {
    forall i | 0 <= i < |Combinations(s, k)| ensures |Combinations(s, k)[i]| == k {
      CombinationsLength(s, k, Combinations(s, k)[i]);
    }
  }

  /** A list of at least k elements has at least one k-element selection. */
  lemma {:induction false} CombinationsNonEmpty<T>(s: seq<T>, k: nat)
    requires k <= |s|
    ensures |Combinations(s, k)| > 0
    decreases |s|
  {
    if k > 0 {
      CombinationsNonEmpty(s[1..], k - 1);
    }
  }

  lemma {:induction false} BinomialZero(n: nat, k: nat)
    requires n < k
    ensures Binomial(n, k) == 0
  {
    if n > 0 {
      BinomialZero(n - 1, k - 1);
      BinomialZero(n - 1, k);
    }
  }

  /** Seven cards have 21 five-card selections. */
  lemma SevenChooseFive<T>(s: seq<T>)
    requires |s| == 7
    ensures |Combinations(s, 5)| == 21
  {
    CombinationsCount(s, 5);
    SevenFive();
  }

  lemma SevenFive()
    ensures Binomial(7, 5) == 21
  {
    BinomialZero(1, 2);
    BinomialZero(2, 3);
    BinomialZero(3, 4);
    BinomialZero(4, 5);
    assert Binomial(1, 1) == 1;
    assert Binomial(2, 1) == 2 && Binomial(2, 2) == 1;
    assert Binomial(3, 1) == 3 && Binomial(3, 2) == 3 && Binomial(3, 3) == 1;
    assert Binomial(4, 2) == 6 && Binomial(4, 3) == 4 && Binomial(4, 4) == 1;
    assert Binomial(5, 3) == 10 && Binomial(5, 4) == 5 && Binomial(5, 5) == 1;
    assert Binomial(6, 4) == 15 && Binomial(6, 5) == 6;
  }

  /** No selection holds more cards of a suit than the whole hand does. */
  lemma {:induction false} CombinationSuitCount(s: seq<Card>, k: nat, c: seq<Card>, u: int)
    requires c in Combinations(s, k)
    ensures SuitCount(c, u) <= SuitCount(s, u)
    decreases |s|
  {
    if k > 0 && |s| >= k {
      var with := PrependAll(s[0], Combinations(s[1..], k - 1));
      var rest := Combinations(s[1..], k);
      assert Combinations(s, k) == with + rest;
      SuitCountCons(s[0], s[1..], u);
      assert s == [s[0]] + s[1..];
      if c in with {
        var i :| 0 <= i < |with| && with[i] == c;
        var c' := Combinations(s[1..], k - 1)[i];
        CombinationSuitCount(s[1..], k - 1, c', u);
        SuitCountCons(s[0], c', u);
        assert c == [s[0]] + c';
      } else {
        assert c in rest;
        CombinationSuitCount(s[1..], k, c, u);
      }
    }
  }

  lemma SuitCountCons(x: Card, t: seq<Card>, u: int)
    ensures SuitCount([x] + t, u) == SuitCount(t, u) + (if x.suit == u then 1 else 0)
  {
    assert ([x] + t)[1..] == t;
  }

  /** Hands agreeing on every rank have position-wise rank-agreeing selections. */
  lemma {:induction false} CombinationsSameRanks(a: seq<Card>, b: seq<Card>, k: nat)
    requires SameRanks(a, b)
    ensures |Combinations(a, k)| == |Combinations(b, k)|
    ensures forall i :: 0 <= i < |Combinations(a, k)| ==>
              SameRanks(Combinations(a, k)[i], Combinations(b, k)[i])
    decreases |a|
  {
    if k > 0 && |a| >= k {
      assert SameRanks(a[1..], b[1..]);
      CombinationsSameRanks(a[1..], b[1..], k - 1);
      CombinationsSameRanks(a[1..], b[1..], k);
      var wa, wb := PrependAll(a[0], Combinations(a[1..], k - 1)), PrependAll(b[0], Combinations(b[1..], k - 1));
      var ra, rb := Combinations(a[1..], k), Combinations(b[1..], k);
      assert Combinations(a, k) == wa + ra;
      assert Combinations(b, k) == wb + rb;
      forall i | 0 <= i < |wa| + |ra|
        ensures SameRanks((wa + ra)[i], (wb + rb)[i])
      {
        if i < |wa| {
          PrependSameRanks(a[0], b[0], Combinations(a[1..], k - 1)[i], Combinations(b[1..], k - 1)[i]);
        } else {
          assert (wa + ra)[i] == ra[i - |wa|] && (wb + rb)[i] == rb[i - |wa|];
        }
      }
    }
  }

  /** Every selection takes its elements from the list. */
  lemma {:induction false} SelectionWithin<T>(s: seq<T>, k: nat, c: seq<T>)
    requires c in Combinations(s, k)
    ensures multiset(c) <= multiset(s)
    decreases |s|
  {
    if k == 0 {
      assert c == [];
    } else {
      SplitCombinations(s, k);
      if c in PrependAll(s[0], Combinations(s[1..], k - 1)) {
        var d := PrependedFrom(s[0], Combinations(s[1..], k - 1), c);
        SelectionWithin(s[1..], k - 1, d);
        ConsWithin(s, d);
      } else {
        SelectionWithin(s[1..], k, c);
        ConsWithin(s, s[1..]);
      }
    }
  }

  /** A member of `PrependAll(x, cs)` is `x` in front of a member of `cs`. */
  lemma PrependedFrom<T>(x: T, cs: seq<seq<T>>, c: seq<T>) returns (d: seq<T>)
    requires c in PrependAll(x, cs)
    ensures d in cs && c == [x] + d
  {
    var i :| 0 <= i < |cs| && PrependAll(x, cs)[i] == c;
    d := cs[i];
  }

  /** The head in front of part of the tail is part of the list. */
  lemma ConsWithin<T>(s: seq<T>, d: seq<T>)
    requires s != [] && multiset(d) <= multiset(s[1..])
    ensures multiset([s[0]] + d) <= multiset(s)
    ensures multiset(d) <= multiset(s)
  {
    assert s == [s[0]] + s[1..];
  }

  /** A non-empty list's selections: those using its head, then those that do not. */
  lemma SplitCombinations<T>(s: seq<T>, k: nat)
    requires k > 0
    ensures |s| < k ==> Combinations(s, k) == []
    ensures |s| >= k ==> Combinations(s, k) == PrependAll(s[0], Combinations(s[1..], k - 1)) + Combinations(s[1..], k)
  {
  }

  /** Any k elements of the list, taken as a multiset, are exactly the elements of some selection. */
  lemma {:induction false} SelectionOf<T>(s: seq<T>, k: nat, m: multiset<T>) returns (c: seq<T>)
    requires m <= multiset(s) && |m| == k
    ensures c in Combinations(s, k) && multiset(c) == m
    decreases |s|
  {
    if k == 0 {
      c := [];
      assert m == multiset{} == multiset(c);
    } else if s == [] {
      assert false;
    } else {
      var t := s[1..];
      WithinTail(s, m);
      if s[0] in m {
        var m' := m - multiset{s[0]};
        var d := SelectionOf(t, k - 1, m');
        c := [s[0]] + d;
        WithHead(s, k, d);
        ConsMultiset(s[0], d, m);
      } else {
        c := SelectionOf(t, k, m);
        WithoutHead(s, k, c);
      }
    }
  }

  /** Part of a list, less one copy of the head, is part of the tail. */
  lemma WithinTail<T>(s: seq<T>, m: multiset<T>)
    requires s != [] && m <= multiset(s)
    ensures s[0] in m ==> m - multiset{s[0]} <= multiset(s[1..]) && |m - multiset{s[0]}| == |m| - 1
    ensures s[0] !in m ==> m <= multiset(s[1..])
  {
    assert s == [s[0]] + s[1..];
  }

  /** Putting back the removed copy of `x` restores the multiset. */
  lemma ConsMultiset<T>(x: T, d: seq<T>, m: multiset<T>)
    requires x in m && multiset(d) == m - multiset{x}
    ensures multiset([x] + d) == m
  {
  }

  /** The head in front of a (k-1)-selection of the tail is a k-selection of the list. */
  lemma WithHead<T>(s: seq<T>, k: nat, d: seq<T>)
    requires s != [] && k > 0 && d in Combinations(s[1..], k - 1)
    ensures [s[0]] + d in Combinations(s, k)
  {
    SelectionLength(s[1..], k - 1, d);
    SplitCombinations(s, k);
    PrependedMember(s[0], Combinations(s[1..], k - 1), d);
  }

  /** A k-selection of the tail is a k-selection of the list. */
  lemma WithoutHead<T>(s: seq<T>, k: nat, c: seq<T>)
    requires s != [] && k > 0 && c in Combinations(s[1..], k)
    ensures c in Combinations(s, k)
  {
    SelectionLength(s[1..], k, c);
    SplitCombinations(s, k);
  }

  /** `x` in front of a member of `cs` is a member of `PrependAll(x, cs)`. */
  lemma PrependedMember<T>(x: T, cs: seq<seq<T>>, d: seq<T>)
    requires d in cs
    ensures [x] + d in PrependAll(x, cs)
  {
    var i :| 0 <= i < |cs| && cs[i] == d;
    assert PrependAll(x, cs)[i] == [x] + d;
  }

  /** A list with a k-element selection has at least k elements. */
  lemma SelectionLength<T>(s: seq<T>, k: nat, c: seq<T>)
    requires c in Combinations(s, k)
    ensures |s| >= k
  {
  }

  lemma PrependSameRanks(x: Card, y: Card, c: seq<Card>, d: seq<Card>)
    requires x.rank == y.rank && SameRanks(c, d)
    ensures SameRanks([x] + c, [y] + d)
  {
  }
}
