/** Counting and first-seen ordering over sequences: the behaviour of a JavaScript object used as an
    insertion-ordered dictionary whose keys are added the first time a value is met. */
module Sequences {

  /** Number of occurrences of `v` in `xs`. */
  function Count<T(==)>(xs: seq<T>, v: T): nat
    decreases |xs|
  {
    if |xs| == 0 then 0
    else Count(xs[..|xs| - 1], v) + (if xs[|xs| - 1] == v then 1 else 0)
  }

  /** The distinct values of `xs`, each listed once, in the order of their first occurrence. */
  function FirstSeen<T(==)>(xs: seq<T>): seq<T>
    decreases |xs|
  {
    if |xs| == 0 then []
    else
      var ks := FirstSeen(xs[..|xs| - 1]);
      if xs[|xs| - 1] in ks then ks else ks + [xs[|xs| - 1]]
  }

  /** No value occurs twice. */
  ghost predicate Distinct<T>(s: seq<T>) {
    forall i, j :: 0 <= i < j < |s| ==> s[i] != s[j]
  }

  lemma CountAppend<T>(xs: seq<T>, x: T, v: T)
    ensures Count(xs + [x], v) == Count(xs, v) + (if x == v then 1 else 0)
  {
    assert (xs + [x])[..|xs|] == xs;
  }

  /** A value occurs a positive number of times exactly when it is in the sequence. */
  lemma {:induction false} CountPositive<T>(xs: seq<T>, v: T)
    ensures Count(xs, v) > 0 <==> v in xs
  {
    if |xs| > 0 {
      var p := xs[..|xs| - 1];
      CountPositive(p, v);
      assert xs == p + [xs[|xs| - 1]];
    }
  }

  /** The values recorded are exactly the values of the sequence. */
  lemma {:induction false} FirstSeenMembers<T>(xs: seq<T>)
    ensures forall v :: v in FirstSeen(xs) <==> v in xs
  {
    if |xs| > 0 {
      var p := xs[..|xs| - 1];
      FirstSeenMembers(p);
      assert xs == p + [xs[|xs| - 1]];
    }
  }

  /** Each value is recorded once. */
  lemma {:induction false} FirstSeenDistinct<T>(xs: seq<T>)
    ensures Distinct(FirstSeen(xs))
  {
    if |xs| > 0 {
      FirstSeenDistinct(xs[..|xs| - 1]);
    }
  }

  /** Reading further never reorders the values already recorded. */
  lemma {:induction false} FirstSeenPrefix<T>(xs: seq<T>, m: nat)
    requires m <= |xs|
    ensures FirstSeen(xs[..m]) <= FirstSeen(xs)
    decreases |xs| - m
  {
    if m < |xs| {
      var p := xs[..|xs| - 1];
      assert p[..m] == xs[..m];
      FirstSeenPrefix(p, m);
    } else {
      assert xs[..m] == xs;
    }
  }

  /** The value recorded at position `k` occurs in `xs`. */
  lemma FirstSeenOccurs<T>(xs: seq<T>, k: nat)
    requires k < |FirstSeen(xs)|
    ensures FirstSeen(xs)[k] in xs
  {
    FirstSeenMembers(xs);
    assert FirstSeen(xs)[k] in FirstSeen(xs);
  }

  /** Every value of `xs` is recorded at some position. */
  lemma FirstSeenIndex<T>(xs: seq<T>, v: T) returns (j: nat)
    requires v in xs
    ensures j < |FirstSeen(xs)| && FirstSeen(xs)[j] == v
  {
    FirstSeenMembers(xs);
    j :| 0 <= j < |FirstSeen(xs)| && FirstSeen(xs)[j] == v;
  }

  /** First-seen order is the order of first occurrence: if the value recorded at position `k2`
      occurs at index `i`, every value recorded at a position `k <= k2` already occurs at or
      before `i`. */
  lemma FirstSeenOrder<T>(xs: seq<T>, k: nat, k2: nat, i: nat)
    requires k <= k2 < |FirstSeen(xs)| && i < |xs| && xs[i] == FirstSeen(xs)[k2]
    ensures FirstSeen(xs)[k] in xs[..i + 1]
  {
    var pre := xs[..i + 1];
    FirstSeenPrefix(xs, i + 1);
    FirstSeenDistinct(xs);
    assert pre[i] == xs[i];
    var j := FirstSeenIndex(pre, xs[i]);
    assert FirstSeen(xs)[j] == FirstSeen(pre)[j];
    assert j == k2;
    FirstSeenOccurs(pre, k);
  }

  /** The last element of `rs` sits at some index `i` of its permutation `rs2`, and taking it
      out of both leaves two permutations of each other. */
  lemma RemoveMatching<T>(rs: seq<T>, rs2: seq<T>) returns (i: nat)
    requires rs != [] && multiset(rs) == multiset(rs2)
    ensures i < |rs2| && rs2[i] == rs[|rs| - 1]
    ensures multiset(rs[..|rs| - 1]) == multiset(rs2[..i] + rs2[i + 1..])
  {
    var p, x := rs[..|rs| - 1], rs[|rs| - 1];
    assert rs == p + [x];
    assert x in multiset(rs2);
    i :| 0 <= i < |rs2| && rs2[i] == x;
    var a, b := rs2[..i], rs2[i + 1..];
    assert rs2 == a + [x] + b;
    assert multiset(a + b) == multiset(a) + multiset(b);
    assert multiset(p) == multiset(rs) - multiset{x};
    assert multiset(a + b) == multiset(rs2) - multiset{x};
  }
}
