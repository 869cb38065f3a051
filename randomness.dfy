/** The random draws of the generator, as values the caller supplies.

    Every `random.*` and Faker call of the script consumes fresh randomness.  The
    model takes each draw as a raw natural number and maps it onto the values the
    library call can return, so a property proved for every raw draw holds for
    every run, whatever the seed.  Probability distributions are not modelled:
    only which values are possible.
 */
module Randomness {

  /** `random.randint(lo, hi)`, and Faker's `date_between` on day numbers:
      the raw draw `r` lands on one of the values lo..hi inclusive. */
  function Pick(lo: int, hi: int, r: nat): (v: int)
    requires lo <= hi
    ensures lo <= v <= hi
  {
    lo + r % (hi - lo + 1)
  }

  /** A draw already inside the range is kept as it is. */
  lemma {:induction false} ModBelow(j: nat, n: nat)
    requires j < n
    ensures j % n == j
  {
  }

  /** Every value of the range is the outcome of some draw, so Pick loses no outcome. */
  lemma {:induction false} PickReaches(lo: int, hi: int, v: int)
    requires lo <= v <= hi
    ensures Pick(lo, hi, v - lo) == v
  {
    ModBelow(v - lo, hi - lo + 1);
  }

  /** `random.choice(s)`: one element of a non-empty list. */
  function Choice<T>(s: seq<T>, r: nat): (x: T)
    requires |s| > 0
    ensures x in s
  {
    s[r % |s|]
  }

  /** Every element of the list is the outcome of some draw. */
  lemma {:induction false} ChoiceReaches<T>(s: seq<T>, i: nat)
    requires i < |s|
    ensures Choice(s, i) == s[i]
  {
    ModBelow(i, |s|);
  }

  predicate Distinct<T(==)>(s: seq<T>) {
    forall i, j :: 0 <= i < j < |s| ==> s[i] != s[j]
  }

  /** The pool that remains after position j is taken: the last element moves into the gap. */
  function TakeAt<T>(pool: seq<T>, j: nat): (rest: seq<T>)
    requires j < |pool|
    ensures |rest| == |pool| - 1
    ensures multiset(rest) + multiset{pool[j]} == multiset(pool)
  {
    var n := |pool|;
    if j == n - 1 then
      assert pool == pool[..n - 1] + [pool[n - 1]];
      pool[..n - 1]
    else
      assert pool[j := pool[n - 1]][..n - 1] == pool[..j] + [pool[n - 1]] + pool[j + 1..n - 1];
      assert pool == pool[..j] + [pool[j]] + pool[j + 1..n - 1] + [pool[n - 1]];
      pool[j := pool[n - 1]][..n - 1]
  }

  /** `random.sample(pool, k)`: k picks without replacement, in the order drawn, by the
      pool algorithm of Python's `random` module (draw a position, take it, move the last
      element into the gap).  The result is a sub-multiset of the pool. */
  function Sample<T>(pool: seq<T>, k: nat, draws: seq<nat>): (r: seq<T>)
    requires k <= |pool| && k <= |draws|
    ensures |r| == k
    ensures multiset(r) <= multiset(pool)
    decreases k
  {
    if k == 0 then []
    else
      var j := draws[0] % |pool|;
      [pool[j]] + Sample(TakeAt(pool, j), k - 1, draws[1..])
  }

  /** A duplicate-free list holds every value at most once. */
  lemma {:induction false} DistinctCounts<T>(s: seq<T>)
    requires Distinct(s)
    ensures forall x :: multiset(s)[x] <= 1
  {
    if s != [] {
      var t := s[1..];
      assert s == [s[0]] + t;
      assert Distinct(t) by {
        forall i, j | 0 <= i < j < |t| ensures t[i] != t[j] {
          assert t[i] == s[i + 1] && t[j] == s[j + 1];
        }
      }
      DistinctCounts(t);
      assert s[0] !in t by {
        forall k | 0 <= k < |t| ensures t[k] != s[0] {
          assert t[k] == s[k + 1];
        }
      }
    }
  }

  /** A list that holds every value at most once is duplicate-free. */
  lemma {:induction false} CountsDistinct<T>(s: seq<T>)
    requires forall x :: multiset(s)[x] <= 1
    ensures Distinct(s)
  {
    forall i, j | 0 <= i < j < |s| ensures s[i] != s[j] {
      assert s == s[..j] + s[j..];
      assert s[i] == s[..j][i] && s[j] == s[j..][0];
      assert multiset(s)[s[j]] == multiset(s[..j])[s[j]] + multiset(s[j..])[s[j]];
    }
  }

  /** Picks without replacement from a list of distinct values are distinct. */
  lemma {:induction false} SampleDistinct<T>(pool: seq<T>, k: nat, draws: seq<nat>)
    requires k <= |pool| && k <= |draws|
    requires Distinct(pool)
    ensures Distinct(Sample(pool, k, draws))
  {
    var r := Sample(pool, k, draws);
    DistinctCounts(pool);
    forall x ensures multiset(r)[x] <= 1 {
      assert multiset(r)[x] <= multiset(pool)[x];
    }
    CountsDistinct(r);
  }

  /** Every pick is an element of the pool. */
  lemma {:induction false} SampleFromPool<T>(pool: seq<T>, k: nat, draws: seq<nat>)
    requires k <= |pool| && k <= |draws|
    ensures forall x :: x in Sample(pool, k, draws) ==> x in pool
  {
    var r := Sample(pool, k, draws);
    forall x | x in r ensures x in pool {
      assert x in multiset(r);
    }
  }

  /** A first draw below the pool size takes exactly that position. */
  lemma {:induction false} SampleCons<T>(pool: seq<T>, j: nat, more: seq<nat>, tail: seq<T>)
    requires j < |pool| && |tail| < |pool| && |tail| <= |more|
    requires Sample(TakeAt(pool, j), |tail|, more) == tail
    ensures Sample(pool, |tail| + 1, [j] + more) == [pool[j]] + tail
  {
    var draws := [j] + more;
    assert draws[0] == j && draws[1..] == more;
    ModBelow(j, |pool|);
  }

  /** After the first value of s is taken from the pool, the pool still holds the rest of s. */
  lemma {:induction false} SampleReachStep<T>(pool: seq<T>, s: seq<T>, j: nat)
    requires multiset(s) <= multiset(pool) && s != []
    requires j < |pool| && pool[j] == s[0]
    ensures multiset(s[1..]) <= multiset(TakeAt(pool, j))
  {
    var tail, rest := s[1..], TakeAt(pool, j);
    assert s == [s[0]] + tail;
    var ms, mp := multiset(s), multiset(pool);
    assert ms == multiset(tail) + multiset{s[0]};
    assert mp == multiset(rest) + multiset{s[0]};
    forall y ensures multiset(tail)[y] <= multiset(rest)[y] {
      assert ms[y] <= mp[y];
    }
  }

  /** Every arrangement of values the pool holds is the outcome of some draws, so the
      sampling loses no outcome; returns those draws.  With Sample's own contract this
      says the outcomes of k picks are exactly the length-k lists drawn from the pool. */
  lemma {:induction false} SampleReaches<T>(pool: seq<T>, s: seq<T>) returns (draws: seq<nat>)
    requires multiset(s) <= multiset(pool) && |s| <= |pool|
    ensures |draws| == |s| && Sample(pool, |s|, draws) == s
    decreases |s|
  {
    if s == [] {
      draws := [];
    } else {
      var tail := s[1..];
      assert s == [s[0]] + tail;
      assert s[0] in multiset(pool);
      var j :| 0 <= j < |pool| && pool[j] == s[0];
      var rest := TakeAt(pool, j);
      SampleReachStep(pool, s, j);
      var more := SampleReaches(rest, tail);
      var first: seq<nat> := [j];
      draws := first + more;
      SampleCons(pool, j, more, tail);
    }
  }
}
