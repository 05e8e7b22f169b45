/** `Array.prototype.filter` over sequences, and the counting facts the
    session aggregator relies on. */
module Seqs {

  function Filter<T(!new)>(s: seq<T>, p: T -> bool): (r: seq<T>)
    ensures |r| <= |s|
    ensures forall x :: x in r <==> x in s && p(x)
  {
    if |s| == 0 then []
    else (if p(s[0]) then [s[0]] else []) + Filter(s[1..], p)
  }

  lemma {:induction false} FilterAppend<T(!new)>(s: seq<T>, t: seq<T>, p: T -> bool)
    ensures Filter(s + t, p) == Filter(s, p) + Filter(t, p)
  {
    if |s| == 0 {
      assert s + t == t;
    } else {
      assert (s + t)[1..] == s[1..] + t;
      FilterAppend(s[1..], t, p);
    }
  }

  /** Elements satisfying `p` and those satisfying `q`, when every element
      satisfies exactly one, together number `|s|`. */
  lemma {:induction false} FilterSplit<T(!new)>(s: seq<T>, p: T -> bool, q: T -> bool)
    requires forall x :: x in s ==> p(x) != q(x)
    ensures |Filter(s, p)| + |Filter(s, q)| == |s|
  {
    if |s| > 0 {
      FilterSplit(s[1..], p, q);
    }
  }

  /** The same for three mutually exclusive, exhaustive predicates. */
  lemma {:induction false} FilterSplit3<T(!new)>(s: seq<T>, p: T -> bool, q: T -> bool, r: T -> bool)
    requires forall x :: x in s ==> (p(x) || q(x) || r(x)) && !(p(x) && q(x)) && !(p(x) && r(x)) && !(q(x) && r(x))
    ensures |Filter(s, p)| + |Filter(s, q)| + |Filter(s, r)| == |s|
  {
    if |s| > 0 {
      FilterSplit3(s[1..], p, q, r);
    }
  }

  /** A predicate that no more than `q` admits keeps no more elements. */
  lemma {:induction false} FilterWeaker<T(!new)>(s: seq<T>, p: T -> bool, q: T -> bool)
    requires forall x :: x in s && p(x) ==> q(x)
    ensures |Filter(s, p)| <= |Filter(s, q)|
  {
    if |s| > 0 {
      FilterWeaker(s[1..], p, q);
    }
  }

  /** Filtering twice is filtering by the conjunction. */
  lemma {:induction false} FilterFilter<T(!new)>(s: seq<T>, p: T -> bool, q: T -> bool)
    ensures Filter(Filter(s, p), q) == Filter(s, x => p(x) && q(x))
  {
    if |s| > 0 {
      FilterFilter(s[1..], p, q);
      var head := if p(s[0]) then [s[0]] else [];
      FilterAppend(head, Filter(s[1..], p), q);
    }
  }

  /** Nothing survives a predicate no element satisfies. */
  lemma {:induction false} FilterNone<T(!new)>(s: seq<T>, p: T -> bool)
    requires forall i :: 0 <= i < |s| ==> !p(s[i])
    ensures Filter(s, p) == []
  {
    if |s| > 0 {
      FilterNone(s[1..], p);
    }
  }

  /** No element occurs twice. */
  predicate Distinct<T(==)>(s: seq<T>) {
    forall i, j :: 0 <= i < j < |s| ==> s[i] != s[j]
  }

  /** Filtering a list without repetitions gives a list without
      repetitions. */
  lemma {:induction false} FilterDistinct<T(!new)>(s: seq<T>, p: T -> bool)
    requires Distinct(s)
    ensures Distinct(Filter(s, p))
  {
    if |s| > 0 {
      assert Distinct(s[1..]);
      FilterDistinct(s[1..], p);
      var t := Filter(s[1..], p);
      assert s[0] !in s[1..];
      assert s[0] !in t;
      var head := if p(s[0]) then [s[0]] else [];
      var r := head + t;
      forall i, j | 0 <= i < j < |r|
        ensures r[i] != r[j]
      {
        if |head| == 1 && i == 0 {
          assert r[j] == t[j - 1];
        } else {
          assert r[i] == t[i - |head|] && r[j] == t[j - |head|];
        }
      }
    }
  }

  /** The elements appear in strictly increasing order of `key`. */
  predicate Increasing<T>(s: seq<T>, key: T -> int) {
    forall i, j :: 0 <= i < j < |s| ==> key(s[i]) < key(s[j])
  }

  /** In an increasing sequence the head's key is below every later key. */
  lemma IncreasingHead<T>(s: seq<T>, key: T -> int, x: T)
    requires Increasing(s, key) && |s| > 0 && x in s[1..]
    ensures key(s[0]) < key(x)
  {
    var k :| 0 <= k < |s[1..]| && s[1..][k] == x;
    assert s[k + 1] == x;
  }

  /** Filtering keeps the survivors in their original order. */
  lemma {:induction false} FilterIncreasing<T(!new)>(s: seq<T>, p: T -> bool, key: T -> int)
    requires Increasing(s, key)
    ensures Increasing(Filter(s, p), key)
  {
    if |s| > 0 {
      assert Increasing(s[1..], key);
      FilterIncreasing(s[1..], p, key);
      var t := Filter(s[1..], p);
      var head := if p(s[0]) then [s[0]] else [];
      var r := head + t;
      assert Filter(s, p) == r;
      forall i, j | 0 <= i < j < |r|
        ensures key(r[i]) < key(r[j])
      {
        if |head| == 1 && i == 0 {
          assert r[j] == t[j - 1] && t[j - 1] in t;
          IncreasingHead(s, key, t[j - 1]);
        } else {
          assert r[i] == t[i - |head|] && r[j] == t[j - |head|];
        }
      }
    }
  }
}
