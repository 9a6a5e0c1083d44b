/** The `reduce` into a record that the dashboards use to group records by a key: for each
    record, `acc[key] = (acc[key] || 0) + value` (or `+ 1` to count). The record is held as a
    sequence of keys in insertion order, each with the running sum and count of its records. */
module Grouping {
  import opened JsValues
  import Seqs

  datatype Stat = Stat(sum: int, count: nat)

  type Groups = seq<(string, Stat)>

  /** `value || fallback` used as a record key. */
  function KeyOr(v: JsValue, fallback: string): (k: string)
    ensures !Truthy(v) ==> k == fallback
    ensures v.Str? && v.s != "" ==> k == v.s
  {
    if Truthy(v) then ToJsString(v) else fallback
  }

  function Keys(g: Groups): seq<string>
  {
    Seqs.Map(g, (e: (string, Stat)) => e.0)
  }

  predicate DistinctKeys(g: Groups)
  {
    forall i, j :: 0 <= i < j < |g| ==> g[i].0 != g[j].0
  }

  /** Where `k` sits in the record, or -1. */
  function Find(g: Groups, k: string): (i: int)
    ensures -1 <= i < |g|
    ensures i >= 0 ==> g[i].0 == k
    ensures i == -1 <==> forall j :: 0 <= j < |g| ==> g[j].0 != k
  {
    if g == [] then -1
    else if g[0].0 == k then 0
    else
      var i := Find(g[1..], k);
      if i == -1 then -1 else i + 1
  }

  /** One step of the `reduce`: an existing key keeps its place and grows; a new key is
      appended. */
  function Add(g: Groups, k: string, v: int): Groups
  {
    var i := Find(g, k);
    if i >= 0 then g[i := (k, Stat(g[i].1.sum + v, g[i].1.count + 1))] else g + [(k, Stat(v, 1))]
  }

  /** The record after the whole `reduce`. */
  function GroupBy<T>(xs: seq<T>, key: T -> string, value: T -> int): Groups
  {
    if xs == [] then [] else Add(GroupBy(xs[..|xs| - 1], key, value), key(xs[|xs| - 1]), value(xs[|xs| - 1]))
  }

  /** The chart series of a grouping: one `{category, value}` per key, in record order. */
  function Sums(g: Groups): (s: seq<(string, int)>)
    ensures |s| == |g|
    ensures forall i :: 0 <= i < |g| ==> s[i] == (g[i].0, g[i].1.sum)
  {
    Seqs.Map(g, (e: (string, Stat)) => (e.0, e.1.sum))
  }

  function Counts(g: Groups): (s: seq<(string, int)>)
    ensures |s| == |g|
    ensures forall i :: 0 <= i < |g| ==> s[i] == (g[i].0, g[i].1.count as int)
  {
    Seqs.Map(g, (e: (string, Stat)) => (e.0, e.1.count as int))
  }

  function SumOf(g: Groups): int
  {
    Seqs.Sum(g, (e: (string, Stat)) => e.1.sum)
  }

  function CountOf(g: Groups): int
  {
    Seqs.Sum(g, (e: (string, Stat)) => e.1.count as int)
  }

  /** The keys are distinct, and are exactly the keys of the records grouped. */
  lemma {:induction false} GroupKeys<T>(xs: seq<T>, key: T -> string, value: T -> int)
    ensures DistinctKeys(GroupBy(xs, key, value))
    ensures forall k :: k in Keys(GroupBy(xs, key, value)) <==> k in Seqs.Map(xs, key)
  {
    if xs != [] {
      var init, last := xs[..|xs| - 1], xs[|xs| - 1];
      var g := GroupBy(init, key, value);
      GroupKeys(init, key, value);
      assert Seqs.Map(xs, key) == Seqs.Map(init, key) + [key(last)];
      var i := Find(g, key(last));
      if i >= 0 {
        assert Keys(GroupBy(xs, key, value)) == Keys(g);
        assert key(last) in Keys(g);
      } else {
        assert Keys(GroupBy(xs, key, value)) == Keys(g) + [key(last)];
      }
    }
  }

  lemma {:induction false} UpdateSums(g: Groups, i: nat, e: (string, Stat))
    requires i < |g|
    ensures SumOf(g[i := e]) == SumOf(g) - g[i].1.sum + e.1.sum
    ensures CountOf(g[i := e]) == CountOf(g) - g[i].1.count + e.1.count
  {
    var n := |g| - 1;
    if i < n {
      UpdateSums(g[..n], i, e);
      assert g[i := e][..n] == g[..n][i := e];
    } else {
      assert g[i := e][..n] == g[..n];
    }
  }

  /** One step of the `reduce` adds its value to the total and one to the count. */
  lemma AddTotals(g: Groups, k: string, v: int)
    ensures SumOf(Add(g, k, v)) == SumOf(g) + v
    ensures CountOf(Add(g, k, v)) == CountOf(g) + 1
  {
    var i := Find(g, k);
    if i >= 0 {
      UpdateSums(g, i, (k, Stat(g[i].1.sum + v, g[i].1.count + 1)));
    } else {
      Seqs.SumAppend(g, [(k, Stat(v, 1))], (e: (string, Stat)) => e.1.sum);
      Seqs.SumAppend(g, [(k, Stat(v, 1))], (e: (string, Stat)) => e.1.count as int);
    }
  }

  /** Grouping loses nothing: the sums add up to the total value, and the counts to the
      number of records. */
  lemma {:induction false} GroupTotals<T>(xs: seq<T>, key: T -> string, value: T -> int)
    ensures SumOf(GroupBy(xs, key, value)) == Seqs.Sum(xs, value)
    ensures CountOf(GroupBy(xs, key, value)) == |xs|
  {
    if xs != [] {
      var init, last := xs[..|xs| - 1], xs[|xs| - 1];
      GroupTotals(init, key, value);
      AddTotals(GroupBy(init, key, value), key(last), value(last));
    }
  }

  /** The records filed under `k`. */
  function Under<T(!new)>(xs: seq<T>, key: T -> string, k: string): seq<T>
  {
    Seqs.Filter(xs, (x: T) => key(x) == k)
  }

  lemma UnderStep<T(!new)>(init: seq<T>, last: T, key: T -> string, value: T -> int, k: string)
    ensures Seqs.Sum(Under(init + [last], key, k), value) == Seqs.Sum(Under(init, key, k), value) + (if key(last) == k then value(last) else 0)
    ensures |Under(init + [last], key, k)| == |Under(init, key, k)| + (if key(last) == k then 1 else 0)
  {
    var p := (x: T) => key(x) == k;
    Seqs.FilterAppend(init, [last], p);
    assert Seqs.Filter([last], p) == if p(last) then [last] else [];
    Seqs.SumAppend(Seqs.Filter(init, p), Seqs.Filter([last], p), value);
  }

  lemma UnderAbsent<T(!new)>(xs: seq<T>, key: T -> string, k: string)
    ensures k !in Seqs.Map(xs, key) ==> Under(xs, key, k) == []
  {
    Seqs.FilterMembers(xs, (x: T) => key(x) == k);
    if k !in Seqs.Map(xs, key) {
      assert forall x :: x !in Under(xs, key, k);
      Seqs.NoMembersEmpty(Under(xs, key, k));
    }
  }

  /** Each key holds the sum and the count of exactly the records filed under it. */
  lemma {:induction false} GroupPerKey<T(!new)>(xs: seq<T>, key: T -> string, value: T -> int)
    ensures forall i :: 0 <= i < |GroupBy(xs, key, value)| ==>
      GroupBy(xs, key, value)[i].1.sum == Seqs.Sum(Under(xs, key, GroupBy(xs, key, value)[i].0), value) &&
      GroupBy(xs, key, value)[i].1.count == |Under(xs, key, GroupBy(xs, key, value)[i].0)|
  {
    if xs != [] {
      var init, last := xs[..|xs| - 1], xs[|xs| - 1];
      var g := GroupBy(init, key, value);
      var res := GroupBy(xs, key, value);
      GroupPerKey(init, key, value);
      GroupKeys(init, key, value);
      assert xs == init + [last];
      var i := Find(g, key(last));
      forall j | 0 <= j < |res|
        ensures res[j].1.sum == Seqs.Sum(Under(xs, key, res[j].0), value)
        ensures res[j].1.count == |Under(xs, key, res[j].0)|
      {
        UnderStep(init, last, key, value, res[j].0);
        if j < |g| && j != i {
          assert res[j] == g[j];
          if i >= 0 {
            assert g[j].0 != g[i].0;
          } else {
            assert g[j].0 != key(last);
          }
        } else if j == i {
        } else {
          assert i == -1 && j == |g| && res[j] == (key(last), Stat(value(last), 1));
          UnderAbsent(init, key, key(last));
        }
      }
    }
  }
}
