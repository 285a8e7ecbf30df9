/** Order-preserving filters, counts, sums and a stable sort over sequences. */
module Seqs {

  /** `t` can be obtained from `s` by deleting elements: the order of what is kept is unchanged. */
  ghost predicate IsSubsequence<T>(t: seq<T>, s: seq<T>)
    decreases |s|
  {
    if t == [] then true
    else if s == [] then false
    else (t[0] == s[0] && IsSubsequence(t[1..], s[1..])) || IsSubsequence(t, s[1..])
  }

  /** The elements of `s` that satisfy `p`, in their original order (`Array.prototype.filter`). */
  function Filter<T>(s: seq<T>, p: T -> bool): (r: seq<T>)
    ensures |r| <= |s|
    ensures forall i :: 0 <= i < |r| ==> r[i] in s && p(r[i])
    ensures forall i :: 0 <= i < |s| && p(s[i]) ==> s[i] in r
    ensures IsSubsequence(r, s)
    ensures (forall i :: 0 <= i < |s| ==> p(s[i])) ==> r == s
  {
    if s == [] then []
    else if p(s[0]) then [s[0]] + Filter(s[1..], p)
    else Filter(s[1..], p)
  }

  lemma {:induction false} FilterAppend<T>(a: seq<T>, b: seq<T>, p: T -> bool)
    ensures Filter(a + b, p) == Filter(a, p) + Filter(b, p)
  {
    if a == [] {
      assert a + b == b;
    } else {
      assert (a + b)[0] == a[0];
      assert (a + b)[1..] == a[1..] + b;
      FilterAppend(a[1..], b, p);
      if p(a[0]) {
        calc {
          Filter(a + b, p);
          [a[0]] + Filter(a[1..] + b, p);
          [a[0]] + (Filter(a[1..], p) + Filter(b, p));
          ([a[0]] + Filter(a[1..], p)) + Filter(b, p);
        }
      }
    }
  }

  /** Every sequence is a subsequence of itself. */
  lemma {:induction false} SubsequenceReflexive<T>(s: seq<T>)
    ensures IsSubsequence(s, s)
    decreases |s|
  {
    if s != [] {
      SubsequenceReflexive(s[1..]);
    }
  }

  /** A prefix of a subsequence is still a subsequence (`slice(0, n)` after a filter). */
  lemma {:induction false} PrefixIsSubsequence<T>(t: seq<T>, s: seq<T>, n: nat)
    requires IsSubsequence(t, s) && n <= |t|
    ensures IsSubsequence(t[..n], s)
    decreases |s|
  {
    if n > 0 {
      if t[0] == s[0] && IsSubsequence(t[1..], s[1..]) {
        PrefixIsSubsequence(t[1..], s[1..], n - 1);
        assert t[..n][1..] == t[1..][..n - 1];
      } else {
        PrefixIsSubsequence(t, s[1..], n);
      }
    }
  }

  /** A subsequence of a subsequence is a subsequence. */
  lemma {:induction false} SubsequenceTransitive<T>(r: seq<T>, t: seq<T>, s: seq<T>)
    requires IsSubsequence(r, t) && IsSubsequence(t, s)
    ensures IsSubsequence(r, s)
    decreases |s|
  {
    if r != [] {
      assert t != [] && s != [];
      if t[0] == s[0] && IsSubsequence(t[1..], s[1..]) {
        if r[0] == t[0] && IsSubsequence(r[1..], t[1..]) {
          SubsequenceTransitive(r[1..], t[1..], s[1..]);
        } else {
          SubsequenceTransitive(r, t[1..], s[1..]);
        }
      } else {
        SubsequenceTransitive(r, t, s[1..]);
      }
    }
  }

  /** Number of elements of `s` satisfying `p` (`s.filter(p).length`). */
  function Count<T>(s: seq<T>, p: T -> bool): (n: nat)
    ensures n <= |s|
  {
    |Filter(s, p)|
  }

  /** Counting a weaker predicate never gives less. */
  lemma {:induction false} CountMonotone<T>(s: seq<T>, p: T -> bool, q: T -> bool)
    requires forall i :: 0 <= i < |s| && p(s[i]) ==> q(s[i])
    ensures Count(s, p) <= Count(s, q)
  {
    if s != [] {
      CountMonotone(s[1..], p, q);
    }
  }

  /** Counting is additive over disjoint predicates. */
  lemma {:induction false} CountDisjointUnion<T>(s: seq<T>, p: T -> bool, q: T -> bool, pq: T -> bool)
    requires forall i :: 0 <= i < |s| ==> (pq(s[i]) <==> p(s[i]) || q(s[i]))
    requires forall i :: 0 <= i < |s| ==> !(p(s[i]) && q(s[i]))
    ensures Count(s, pq) == Count(s, p) + Count(s, q)
  {
    if s != [] {
      CountDisjointUnion(s[1..], p, q, pq);
    }
  }

  /** Counting through predicates that agree on `s` gives the same number. */
  lemma {:induction false} CountCongruent<T>(s: seq<T>, p: T -> bool, q: T -> bool)
    requires forall i :: 0 <= i < |s| ==> (p(s[i]) <==> q(s[i]))
    ensures Filter(s, p) == Filter(s, q)
  {
    if s != [] {
      CountCongruent(s[1..], p, q);
    }
  }

  /** Filtering by `p` and then by `q` is filtering by their conjunction (`filter(p).filter(q)`). */
  lemma {:induction false} FilterFilter<T>(s: seq<T>, p: T -> bool, q: T -> bool, pq: T -> bool)
    requires forall i :: 0 <= i < |s| ==> (pq(s[i]) <==> p(s[i]) && q(s[i]))
    ensures Filter(Filter(s, p), q) == Filter(s, pq)
  {
    if s != [] {
      FilterFilter(s[1..], p, q, pq);
    }
  }

  /** Sum of a sequence of integers (`reduce((acc, x) => acc + x, 0)`). */
  function Sum(s: seq<int>): int {
    if s == [] then 0 else s[0] + Sum(s[1..])
  }

  lemma {:induction false} SumAppend(a: seq<int>, b: seq<int>)
    ensures Sum(a + b) == Sum(a) + Sum(b)
  {
    if a == [] {
      assert a + b == b;
    } else {
      assert (a + b)[0] == a[0];
      assert (a + b)[1..] == a[1..] + b;
      SumAppend(a[1..], b);
    }
  }

  /** `key` is non-decreasing along `s`. */
  ghost predicate SortedBy<T>(s: seq<T>, key: T -> real) {
    forall i, j :: 0 <= i < j < |s| ==> key(s[i]) <= key(s[j])
  }

  /** Inserts `x` after every element whose key is not greater than its own. */
  function Insert<T>(x: T, s: seq<T>, key: T -> real): (r: seq<T>)
    ensures multiset(r) == multiset(s) + multiset{x}
    ensures |r| == |s| + 1
  {
    if s == [] then [x]
    else if key(x) < key(s[0]) then [x] + s
    else
      assert s == [s[0]] + s[1..];
      [s[0]] + Insert(x, s[1..], key)
  }

  /** A bound below `x` and every element of `s` bounds the result of the insertion too. */
  lemma {:induction false} InsertLowerBound<T>(x: T, s: seq<T>, key: T -> real, lo: real)
    requires lo <= key(x)
    requires forall k :: 0 <= k < |s| ==> lo <= key(s[k])
    ensures forall k :: 0 <= k < |Insert(x, s, key)| ==> lo <= key(Insert(x, s, key)[k])
  {
    if s != [] && key(s[0]) <= key(x) {
      InsertLowerBound(x, s[1..], key, lo);
    }
  }

  lemma {:induction false} InsertSorted<T>(x: T, s: seq<T>, key: T -> real)
    requires SortedBy(s, key)
    ensures SortedBy(Insert(x, s, key), key)
  {
    if s != [] && key(s[0]) <= key(x) {
      var tail := Insert(x, s[1..], key);
      InsertSorted(x, s[1..], key);
      InsertLowerBound(x, s[1..], key, key(s[0]));
      assert Insert(x, s, key) == [s[0]] + tail;
    }
  }

  /** Two sequences with the same multiset hold the same elements. */
  lemma PermutationMembers<T>(a: seq<T>, b: seq<T>)
    requires multiset(a) == multiset(b)
    ensures forall j :: 0 <= j < |a| ==> a[j] in b
  {
    forall j | 0 <= j < |a|
      ensures a[j] in b
    {
      assert a[j] in multiset(a);
    }
  }

  /** Stable insertion sort ascending by `key`: the result is a sorted permutation of `s`. */
  function SortBy<T>(s: seq<T>, key: T -> real): (r: seq<T>)
    ensures SortedBy(r, key)
    ensures multiset(r) == multiset(s)
    ensures |r| == |s|
  {
    if s == [] then []
    else
      assert s == s[..|s| - 1] + [s[|s| - 1]];
      InsertSorted(s[|s| - 1], SortBy(s[..|s| - 1], key), key);
      Insert(s[|s| - 1], SortBy(s[..|s| - 1], key), key)
  }
  /** Nothing passes a filter that no element satisfies. */
  lemma {:induction false} FilterNone<T>(s: seq<T>, p: T -> bool)
    requires forall i :: 0 <= i < |s| ==> !p(s[i])
    ensures Filter(s, p) == []
  {
    if s != [] {
      FilterNone(s[1..], p);
    }
  }

  /** Inserting `x` into a sorted sequence keeps the elements of each key in their order, with `x`
      after those of its own key. */
  lemma {:induction false} InsertKeepsTies<T>(x: T, s: seq<T>, key: T -> real, v: real)
    requires SortedBy(s, key)
    ensures Filter(Insert(x, s, key), (y: T) => key(y) == v)
              == Filter(s, (y: T) => key(y) == v) + if key(x) == v then [x] else []
  {
    if s == [] {
    } else if key(x) < key(s[0]) {
      assert Insert(x, s, key) == [x] + s;
      assert ([x] + s)[1..] == s;
      if key(x) == v {
        assert forall i :: 0 <= i < |s| ==> key(s[0]) <= key(s[i]);
        FilterNone(s, (y: T) => key(y) == v);
      }
    } else {
      var tail := Insert(x, s[1..], key);
      assert Insert(x, s, key) == [s[0]] + tail;
      assert ([s[0]] + tail)[1..] == tail;
      assert SortedBy(s[1..], key);
      InsertKeepsTies(x, s[1..], key, v);
    }
  }

  /** `SortBy` is stable: the elements with any one key come out in their input order. */
  lemma {:induction false} SortStable<T>(s: seq<T>, key: T -> real, v: real)
    ensures Filter(SortBy(s, key), (y: T) => key(y) == v) == Filter(s, (y: T) => key(y) == v)
    decreases |s|
  {
    if s != [] {
      var init, last := s[..|s| - 1], s[|s| - 1];
      assert s == init + [last];
      var sorted := SortBy(init, key);
      assert SortBy(s, key) == Insert(last, sorted, key);
      SortStable(init, key, v);
      InsertKeepsTies(last, sorted, key, v);
      FilterAppend(init, [last], (y: T) => key(y) == v);
      assert [last][1..] == [];
      assert Filter([last], (y: T) => key(y) == v) == if key(last) == v then [last] else [];
    }
  }
}
