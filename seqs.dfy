/** Array operations the views use through `filter`, `reduce` and `length`: a filter that
    keeps order, a sum over a projection, and the subsequence relation that ties a filtered
    or de-duplicated list back to its source. */
module Seqs {

  /** `xs.filter(p)`. */
  function Filter<T(!new)>(xs: seq<T>, p: T -> bool): (r: seq<T>)
    ensures |r| <= |xs|
  {
    if xs == [] then [] else Filter(xs[..|xs| - 1], p) + (if p(xs[|xs| - 1]) then [xs[|xs| - 1]] else [])
  }

  /** The filtered list holds exactly the elements of `xs` that satisfy `p`. */
  lemma {:induction false} FilterMembers<T(!new)>(xs: seq<T>, p: T -> bool)
    ensures forall x :: x in Filter(xs, p) <==> x in xs && p(x)
  {
    if xs != [] {
      var init, last := xs[..|xs| - 1], xs[|xs| - 1];
      FilterMembers(init, p);
      assert xs == init + [last];
    }
  }

  lemma FilterAppend<T(!new)>(xs: seq<T>, ys: seq<T>, p: T -> bool)
    ensures Filter(xs + ys, p) == Filter(xs, p) + Filter(ys, p)
  {
    if ys != [] {
      assert (xs + ys)[..|xs + ys| - 1] == xs + ys[..|ys| - 1];
      FilterAppend(xs, ys[..|ys| - 1], p);
    } else {
      assert xs + ys == xs;
    }
  }

  /** Filtering with two predicates that agree on every element gives the same list. */
  lemma {:induction false} FilterCongruent<T(!new)>(xs: seq<T>, p: T -> bool, q: T -> bool)
    requires forall i :: 0 <= i < |xs| ==> p(xs[i]) == q(xs[i])
    ensures Filter(xs, p) == Filter(xs, q)
  {
    if xs != [] {
      FilterCongruent(xs[..|xs| - 1], p, q);
    }
  }

  lemma NoMembersEmpty<T>(xs: seq<T>)
    ensures (forall x :: x !in xs) ==> xs == []
  {
    if xs != [] {
      assert xs[0] in xs;
    }
  }

  /** `xs.reduce((acc, x) => acc + f(x), 0)`. */
  function Sum<T>(xs: seq<T>, f: T -> int): int
  {
    if xs == [] then 0 else Sum(xs[..|xs| - 1], f) + f(xs[|xs| - 1])
  }

  lemma SumAppend<T>(xs: seq<T>, ys: seq<T>, f: T -> int)
    ensures Sum(xs + ys, f) == Sum(xs, f) + Sum(ys, f)
  {
    if ys != [] {
      assert (xs + ys)[..|xs + ys| - 1] == xs + ys[..|ys| - 1];
      SumAppend(xs, ys[..|ys| - 1], f);
    } else {
      assert xs + ys == xs;
    }
  }

  /** With no negative term, a sum over a filtered list lies between 0 and the sum over the
      whole list. */
  lemma {:induction false} FilterSumBounded<T(!new)>(xs: seq<T>, p: T -> bool, f: T -> int)
    requires forall i :: 0 <= i < |xs| ==> f(xs[i]) >= 0
    ensures 0 <= Sum(Filter(xs, p), f) <= Sum(xs, f)
  {
    if xs != [] {
      var init := xs[..|xs| - 1];
      FilterSumBounded(init, p, f);
      SumAppend(Filter(init, p), if p(xs[|xs| - 1]) then [xs[|xs| - 1]] else [], f);
    }
  }

  /** Summing over the elements kept by either of two predicates that never hold together is
      summing over each and adding; `pq` is their disjunction. */
  lemma {:induction false} SumFilterDisjoint<T(!new)>(xs: seq<T>, p: T -> bool, q: T -> bool, pq: T -> bool, f: T -> int)
    requires forall i :: 0 <= i < |xs| ==> pq(xs[i]) == (p(xs[i]) || q(xs[i]))
    requires forall i :: 0 <= i < |xs| ==> !(p(xs[i]) && q(xs[i]))
    ensures Sum(Filter(xs, pq), f) == Sum(Filter(xs, p), f) + Sum(Filter(xs, q), f)
  {
    if xs != [] {
      var init, last := xs[..|xs| - 1], xs[|xs| - 1];
      SumFilterDisjoint(init, p, q, pq, f);
      SumAppend(Filter(init, pq), if pq(last) then [last] else [], f);
      SumAppend(Filter(init, p), if p(last) then [last] else [], f);
      SumAppend(Filter(init, q), if q(last) then [last] else [], f);
    }
  }

  /** Summing over a mapped list is summing the composed projection over the original. */
  lemma {:induction false} SumMap<T, U>(xs: seq<T>, m: T -> U, g: U -> int, h: T -> int)
    requires forall i :: 0 <= i < |xs| ==> g(m(xs[i])) == h(xs[i])
    ensures Sum(Map(xs, m), g) == Sum(xs, h)
  {
    if xs != [] {
      var init := xs[..|xs| - 1];
      assert Map(xs, m)[..|xs| - 1] == Map(init, m);
      SumMap(init, m, g, h);
    }
  }

  /** `xs.filter(p).length`. */
  function Count<T(!new)>(xs: seq<T>, p: T -> bool): nat
  {
    |Filter(xs, p)|
  }

  /** `a` is `b` with some elements removed and the rest kept in order. */
  predicate IsSubsequence<T(==)>(a: seq<T>, b: seq<T>)
  {
    if a == [] then true
    else if b == [] then false
    else if a[|a| - 1] == b[|b| - 1] then IsSubsequence(a[..|a| - 1], b[..|b| - 1])
    else IsSubsequence(a, b[..|b| - 1])
  }

  lemma {:induction false} SubsequenceOfEmpty<T>(b: seq<T>)
    ensures IsSubsequence([], b)
  {
  }

  /** Appending an element to the larger sequence keeps a subsequence a subsequence. */
  lemma {:induction false} SubsequenceExtend<T>(a: seq<T>, b: seq<T>, x: T)
    requires IsSubsequence(a, b)
    ensures IsSubsequence(a, b + [x])
    decreases |a| + |b|, 1
  {
    if a != [] && a[|a| - 1] == x {
      assert (b + [x])[..|b|] == b;
      SubsequenceDropLast(a, b);
    } else {
      assert (b + [x])[..|b|] == b;
    }
  }

  /** Dropping the last element of a subsequence keeps it a subsequence. */
  lemma {:induction false} SubsequenceDropLast<T>(a: seq<T>, b: seq<T>)
    requires a != [] && IsSubsequence(a, b)
    ensures IsSubsequence(a[..|a| - 1], b)
    decreases |a| + |b|, 0
  {
    if |a| == 1 {
      SubsequenceOfEmpty(b);
    } else if a[|a| - 1] == b[|b| - 1] {
      SubsequenceExtend(a[..|a| - 1], b[..|b| - 1], b[|b| - 1]);
      assert b[..|b| - 1] + [b[|b| - 1]] == b;
    } else {
      SubsequenceDropLast(a, b[..|b| - 1]);
      SubsequenceExtend(a[..|a| - 1], b[..|b| - 1], b[|b| - 1]);
      assert b[..|b| - 1] + [b[|b| - 1]] == b;
    }
  }

  /** Appending the same element to both sides keeps a subsequence a subsequence. */
  lemma SubsequenceBothExtend<T>(a: seq<T>, b: seq<T>, x: T)
    requires IsSubsequence(a, b)
    ensures IsSubsequence(a + [x], b + [x])
  {
    assert (a + [x])[..|a|] == a;
    assert (b + [x])[..|b|] == b;
  }

  /** A subsequence is never longer and holds only elements of the sequence. */
  lemma {:induction false} SubsequenceReflexive<T>(xs: seq<T>)
    ensures IsSubsequence(xs, xs)
  {
    if xs == [] {
      SubsequenceOfEmpty<T>([]);
    } else {
      SubsequenceReflexive(xs[..|xs| - 1]);
      SubsequenceBothExtend(xs[..|xs| - 1], xs[..|xs| - 1], xs[|xs| - 1]);
      assert xs[..|xs| - 1] + [xs[|xs| - 1]] == xs;
    }
  }

  lemma {:induction false} SubsequenceProperties<T>(a: seq<T>, b: seq<T>)
    requires IsSubsequence(a, b)
    ensures |a| <= |b|
    ensures forall x :: x in a ==> x in b
  {
    if a != [] {
      if a[|a| - 1] == b[|b| - 1] {
        SubsequenceProperties(a[..|a| - 1], b[..|b| - 1]);
        assert a == a[..|a| - 1] + [a[|a| - 1]];
        assert b == b[..|b| - 1] + [b[|b| - 1]];
      } else {
        SubsequenceProperties(a, b[..|b| - 1]);
        assert b == b[..|b| - 1] + [b[|b| - 1]];
      }
    }
  }

  /** A filter keeps the order of what it keeps. */
  lemma {:induction false} FilterIsSubsequence<T(!new)>(xs: seq<T>, p: T -> bool)
    ensures IsSubsequence(Filter(xs, p), xs)
  {
    if xs == [] {
    } else {
      var init := xs[..|xs| - 1];
      var last := xs[|xs| - 1];
      FilterIsSubsequence(init, p);
      assert init + [last] == xs;
      if p(last) {
        SubsequenceBothExtend(Filter(init, p), init, last);
      } else {
        assert Filter(xs, p) == Filter(init, p);
        SubsequenceExtend(Filter(init, p), init, last);
      }
    }
  }

  /** `xs.map(f)`. */
  function Map<T, U>(xs: seq<T>, f: T -> U): (r: seq<U>)
    ensures |r| == |xs|
    ensures forall i :: 0 <= i < |xs| ==> r[i] == f(xs[i])
  {
    seq(|xs|, i requires 0 <= i < |xs| => f(xs[i]))
  }

  /** `parts.join(sep)`. */
  function Join(parts: seq<string>, sep: string): string
  {
    if parts == [] then ""
    else if |parts| == 1 then parts[0]
    else Join(parts[..|parts| - 1], sep) + sep + parts[|parts| - 1]
  }

  /** Where each part sits in the joined text: part `i` starts right after the parts before it
      and their separators. */
  lemma {:induction false} JoinPosition(parts: seq<string>, sep: string, i: nat) returns (at: nat)
    requires i < |parts|
    ensures at + |parts[i]| <= |Join(parts, sep)|
    ensures Join(parts, sep)[at..at + |parts[i]|] == parts[i]
    ensures i == 0 ==> at == 0
  {
    var j := Join(parts, sep);
    if |parts| == 1 {
      at := 0;
      assert j == parts[0];
    } else if i == |parts| - 1 {
      at := |Join(parts[..|parts| - 1], sep)| + |sep|;
    } else {
      var init := parts[..|parts| - 1];
      at := JoinPosition(init, sep, i);
      var ji := Join(init, sep);
      assert j == ji + sep + parts[|parts| - 1];
      assert j[at..at + |parts[i]|] == ji[at..at + |parts[i]|];
    }
  }

  /** A joined text is as long as its parts plus one separator between each pair. */
  lemma {:induction false} JoinLength(parts: seq<string>, sep: string)
    ensures |parts| > 0 ==> |Join(parts, sep)| == Sum(parts, (s: string) => |s|) + |sep| * (|parts| - 1)
  {
    if |parts| > 1 {
      JoinLength(parts[..|parts| - 1], sep);
    } else if |parts| == 1 {
      assert parts[..0] == [];
    }
  }

  /** `Array.from(new Set(xs))`: every value once, in the order of its first appearance. */
  function Distinct<T(==)>(xs: seq<T>): (r: seq<T>)
    ensures |r| <= |xs|
  {
    if xs == [] then []
    else
      var d := Distinct(xs[..|xs| - 1]);
      if xs[|xs| - 1] in d then d else d + [xs[|xs| - 1]]
  }

  /** `xs.indexOf(x)` for a present `x`: the position of its first occurrence. */
  function IndexOf<T(==)>(xs: seq<T>, x: T): (i: nat)
    requires x in xs
    ensures i < |xs| && xs[i] == x
    ensures forall k :: 0 <= k < i ==> xs[k] != x
  {
    var init := xs[..|xs| - 1];
    if x in init then IndexOf(init, x)
    else
      assert forall k :: 0 <= k < |xs| - 1 ==> xs[k] == init[k];
      |xs| - 1
  }

  /** The distinct list holds each value of `xs` exactly once, ordered by first appearance. */
  lemma {:induction false} DistinctSpec<T>(xs: seq<T>)
    ensures forall x :: x in Distinct(xs) <==> x in xs
    ensures forall i, j :: 0 <= i < j < |Distinct(xs)| ==> Distinct(xs)[i] != Distinct(xs)[j]
    ensures forall i, j :: 0 <= i < j < |Distinct(xs)| ==>
      IndexOf(xs, Distinct(xs)[i]) < IndexOf(xs, Distinct(xs)[j])
  {
    if xs != [] {
      var init, last := xs[..|xs| - 1], xs[|xs| - 1];
      DistinctSpec(init);
      assert xs == init + [last];
      var d := Distinct(init);
      assert forall y :: y in init ==> IndexOf(xs, y) == IndexOf(init, y);
    }
  }

  /** `xs.findIndex(p)`: the first position whose element satisfies `p`, or -1. */
  function FindIndex<T>(xs: seq<T>, p: T -> bool): (r: int)
    ensures -1 <= r < |xs|
    ensures r >= 0 ==> p(xs[r]) && forall k :: 0 <= k < r ==> !p(xs[k])
    ensures r == -1 ==> forall k :: 0 <= k < |xs| ==> !p(xs[k])
  {
    if xs == [] then -1
    else
      var r := FindIndex(xs[..|xs| - 1], p);
      if r >= 0 then r else if p(xs[|xs| - 1]) then |xs| - 1 else -1
  }

  /** At most one element satisfies `p`. */
  predicate AtMostOne<T>(xs: seq<T>, p: T -> bool)
  {
    forall a, b :: 0 <= a < b < |xs| ==> !(p(xs[a]) && p(xs[b]))
  }

  /** When at most one element satisfies `p`, the value of the first one found (0 when none)
      is the sum over all of them. */
  lemma {:induction false} FirstIsSum<T(!new)>(xs: seq<T>, p: T -> bool, f: T -> int)
    requires AtMostOne(xs, p)
    ensures Sum(Filter(xs, p), f) == (var k := FindIndex(xs, p); if k >= 0 then f(xs[k]) else 0)
  {
    if xs != [] {
      var init, last := xs[..|xs| - 1], xs[|xs| - 1];
      assert AtMostOne(init, p);
      FirstIsSum(init, p, f);
      var k := FindIndex(init, p);
      if k >= 0 {
        assert xs[k] == init[k];
        assert !p(last);
        assert Filter(xs, p) == Filter(init, p);
      } else {
        FilterMembers(init, p);
        NoMembersEmpty(Filter(init, p));
      }
    }
  }

  /** The elements in ascending order of `key`. */
  predicate SortedBy<T>(s: seq<T>, key: T -> int)
  {
    forall i, j :: 0 <= i < j < |s| ==> key(s[i]) <= key(s[j])
  }

  /** `x` inserted into an ordered list after every element whose key is not greater. */
  function InsertBy<T>(s: seq<T>, x: T, key: T -> int): (r: seq<T>)
    ensures |r| == |s| + 1
  {
    if s == [] || key(s[|s| - 1]) <= key(x) then s + [x]
    else InsertBy(s[..|s| - 1], x, key) + [s[|s| - 1]]
  }

  /** `xs.sort((a, b) => key(a) - key(b))`, the stable sort of the language. */
  function SortBy<T>(xs: seq<T>, key: T -> int): (r: seq<T>)
    ensures |r| == |xs|
  {
    if xs == [] then [] else InsertBy(SortBy(xs[..|xs| - 1], key), xs[|xs| - 1], key)
  }

  /** Inserting adds exactly `x` to the elements. */
  lemma {:induction false} InsertByPerm<T>(s: seq<T>, x: T, key: T -> int)
    ensures multiset(InsertBy(s, x, key)) == multiset(s) + multiset{x}
  {
    if s != [] && key(s[|s| - 1]) > key(x) {
      var init, last := s[..|s| - 1], s[|s| - 1];
      assert s == init + [last];
      InsertByPerm(init, x, key);
    }
  }

  /** An ordered list followed by an element no smaller than any of its keys is ordered. */
  lemma SortedSnoc<T>(r: seq<T>, last: T, key: T -> int)
    requires SortedBy(r, key)
    requires forall j :: 0 <= j < |r| ==> key(r[j]) <= key(last)
    ensures SortedBy(r + [last], key)
  {
  }

  lemma {:induction false} InsertBySorted<T>(s: seq<T>, x: T, key: T -> int)
    requires SortedBy(s, key)
    ensures SortedBy(InsertBy(s, x, key), key)
    ensures multiset(InsertBy(s, x, key)) == multiset(s) + multiset{x}
  {
    InsertByPerm(s, x, key);
    if s != [] && key(s[|s| - 1]) > key(x) {
      var init, last := s[..|s| - 1], s[|s| - 1];
      InsertBySorted(init, x, key);
      var r' := InsertBy(init, x, key);
      forall j | 0 <= j < |r'|
        ensures key(r'[j]) <= key(last)
      {
        assert r'[j] in multiset(r');
        if r'[j] != x {
          assert r'[j] in multiset(init);
          var k :| 0 <= k < |init| && init[k] == r'[j];
        }
      }
      SortedSnoc(r', last, key);
    }
  }

  /** The sorted list is ordered by `key` and holds the same elements as many times. */
  lemma {:induction false} SortBySpec<T>(xs: seq<T>, key: T -> int)
    ensures SortedBy(SortBy(xs, key), key)
    ensures multiset(SortBy(xs, key)) == multiset(xs)
  {
    if xs != [] {
      SortBySpec(xs[..|xs| - 1], key);
      InsertBySorted(SortBy(xs[..|xs| - 1], key), xs[|xs| - 1], key);
      assert xs == xs[..|xs| - 1] + [xs[|xs| - 1]];
    }
  }
}
