/**
 * The order Python uses to compare tuples of integers: lexicographic, with
 * a proper prefix ordered before the longer tuple. The current evaluator's
 * scores are such tuples, so "a better hand" means "a greater tuple".
 */
module TupleOrder {

  /** `a < b` on Python tuples. */
  predicate Less(a: seq<int>, b: seq<int>)
    decreases |a|
  {
    if |a| == 0 then |b| > 0
    else if |b| == 0 then false
    else a[0] < b[0] || (a[0] == b[0] && Less(a[1..], b[1..]))
  }

  predicate LessEq(a: seq<int>, b: seq<int>) {
    Less(a, b) || a == b
  }

  lemma {:induction false} LessIrreflexive(a: seq<int>)
    ensures !Less(a, a)
  {
    if |a| > 0 { LessIrreflexive(a[1..]); }
  }

  lemma {:induction false} LessTransitive(a: seq<int>, b: seq<int>, c: seq<int>)
    requires Less(a, b) && Less(b, c)
    ensures Less(a, c)
  {
    if |a| > 0 && |b| > 0 && |c| > 0 && a[0] == b[0] == c[0] {
      LessTransitive(a[1..], b[1..], c[1..]);
    }
  }

  /** Any two tuples are comparable: exactly one of a < b, a == b, b < a. */
  lemma {:induction false} LessTrichotomy(a: seq<int>, b: seq<int>)
    ensures Less(a, b) || a == b || Less(b, a)
    ensures !(Less(a, b) && Less(b, a))
  {
    if |a| > 0 && |b| > 0 && a[0] == b[0] {
      LessTrichotomy(a[1..], b[1..]);
      if a[1..] == b[1..] {
        assert a == [a[0]] + a[1..] && b == [b[0]] + b[1..];
      }
    }
  }

  /** The first component decides whenever the first components differ. */
  lemma HeadDecides(a: seq<int>, b: seq<int>)
    requires |a| > 0 && |b| > 0 && a[0] < b[0]
    ensures Less(a, b) && !Less(b, a)
  {
  }

  /** Tuples sharing a first component compare as their tails do. */
  lemma SameHeadCompare(a: seq<int>, b: seq<int>, x: int)
    ensures Less([x] + a, [x] + b) == Less(a, b)
  {
    assert ([x] + a)[1..] == a && ([x] + b)[1..] == b;
  }

  /** Tuples sharing their first k components compare as their remainders do. */
  lemma {:induction false} CommonPrefix(a: seq<int>, b: seq<int>, k: nat)
    requires k <= |a| && k <= |b| && a[..k] == b[..k]
    ensures Less(a, b) <==> Less(a[k..], b[k..])
  {
    if k > 0 {
      assert a[0] == b[0] by { assert a[..k][0] == b[..k][0]; }
      assert a[1..][..k - 1] == a[..k][1..] && b[1..][..k - 1] == b[..k][1..];
      CommonPrefix(a[1..], b[1..], k - 1);
      assert a[1..][k - 1..] == a[k..] && b[1..][k - 1..] == b[k..];
    }
  }

  /** Tuples agreeing on their first two components compare as their remainders do. */
  lemma SameTwoHeads(a: seq<int>, b: seq<int>)
    requires 2 <= |a| && 2 <= |b| && a[0] == b[0] && a[1] == b[1]
    ensures Less(a, b) <==> Less(a[2..], b[2..])
  {
    assert a[..2] == b[..2];
    CommonPrefix(a, b, 2);
  }
}
