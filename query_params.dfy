/** Query-parameter objects as the views build them: an ordered list of key/value entries
    (an object's own properties in insertion order), reading a property, dropping the
    `undefined` ones (`Object.fromEntries(Object.entries(p).filter(([_, v]) => v !== undefined))`)
    and object spread `{ ...a, ...b }`. */
module QueryParams {
  import opened JsValues
  import Seqs

  type Entries = seq<(string, JsValue)>

  /** `k in obj` for an own property. */
  predicate HasKey(e: Entries, k: string)
  {
    exists i :: 0 <= i < |e| && e[i].0 == k
  }

  /** An object never holds the same key twice. */
  predicate DistinctKeys(e: Entries)
  {
    forall i, j :: 0 <= i < j < |e| ==> e[i].0 != e[j].0
  }

  /** `obj[k]`: `undefined` when the property is missing. */
  function Lookup(e: Entries, k: string): (v: JsValue)
    ensures !HasKey(e, k) ==> v == Undefined
  {
    if e == [] then Undefined
    else if e[0].0 == k then e[0].1
    else (assert forall i :: 1 <= i < |e| ==> e[1..][i - 1] == e[i]; Lookup(e[1..], k))
  }

  lemma {:induction false} LookupAppend(x: Entries, y: Entries, k: string)
    ensures Lookup(x + y, k) == if HasKey(x, k) then Lookup(x, k) else Lookup(y, k)
    ensures HasKey(x + y, k) <==> HasKey(x, k) || HasKey(y, k)
  {
    if x == [] {
      assert x + y == y;
    } else {
      assert (x + y)[1..] == x[1..] + y;
      LookupAppend(x[1..], y, k);
      assert HasKey(x[1..], k) ==> HasKey(x, k) by {
        if HasKey(x[1..], k) {
          var i :| 0 <= i < |x[1..]| && x[1..][i].0 == k;
          assert x[i + 1].0 == k;
        }
      }
      assert HasKey(x, k) && x[0].0 != k ==> HasKey(x[1..], k) by {
        if HasKey(x, k) && x[0].0 != k {
          var i :| 0 <= i < |x| && x[i].0 == k;
          assert x[1..][i - 1].0 == k;
        }
      }
      if HasKey(y, k) {
        var i :| 0 <= i < |y| && y[i].0 == k;
        assert (x + y)[|x| + i].0 == k;
      }
      if HasKey(x, k) {
        var i :| 0 <= i < |x| && x[i].0 == k;
        assert (x + y)[i].0 == k;
      }
    }
  }

  lemma LookupSingle(en: (string, JsValue), k: string)
    ensures Lookup([en], k) == if en.0 == k then en.1 else Undefined
    ensures HasKey([en], k) <==> en.0 == k
  {
    if HasKey([en], k) {
      assert [en][0].0 == k;
    }
  }

  /** A filter that keeps every entry under `k` leaves `obj[k]` as it was. */
  lemma {:induction false} LookupFilterKeeping(e: Entries, p: ((string, JsValue)) -> bool, k: string)
    requires forall i :: 0 <= i < |e| && e[i].0 == k ==> p(e[i])
    ensures Lookup(Seqs.Filter(e, p), k) == Lookup(e, k)
    ensures HasKey(Seqs.Filter(e, p), k) <==> HasKey(e, k)
  {
    if e != [] {
      var init, last := e[..|e| - 1], e[|e| - 1];
      assert e == init + [last];
      LookupFilterKeeping(init, p, k);
      LookupAppend(init, [last], k);
      LookupSingle(last, k);
      if p(last) {
        LookupAppend(Seqs.Filter(init, p), [last], k);
      } else {
        assert Seqs.Filter(e, p) == Seqs.Filter(init, p);
      }
    }
  }

  predicate IsDefined(en: (string, JsValue))
  {
    en.1 != Undefined
  }

  /** The object with its `undefined` properties removed, the others kept in order. */
  function DropUndefined(e: Entries): Entries
  {
    Seqs.Filter(e, IsDefined)
  }

  /** What is dropped is exactly the `undefined` properties: every entry left is defined, and
      every defined entry is left. */
  lemma DropUndefinedMembers(e: Entries)
    ensures forall i :: 0 <= i < |DropUndefined(e)| ==> DropUndefined(e)[i].1 != Undefined
    ensures forall en :: en in DropUndefined(e) <==> en in e && en.1 != Undefined
  {
    var r := DropUndefined(e);
    Seqs.FilterMembers(e, IsDefined);
    assert forall i :: 0 <= i < |r| ==> r[i] in r;
  }

  /** With distinct keys, dropping `undefined` properties changes no property's value and
      removes exactly the keys whose value was `undefined`. */
  lemma {:induction false} DropUndefinedLookup(e: Entries, k: string)
    requires DistinctKeys(e)
    ensures Lookup(DropUndefined(e), k) == Lookup(e, k)
    ensures HasKey(DropUndefined(e), k) <==> Lookup(e, k) != Undefined
  {
    if e != [] {
      var init, last := e[..|e| - 1], e[|e| - 1];
      assert e == init + [last];
      DropUndefinedLookup(init, k);
      LookupAppend(init, [last], k);
      LookupSingle(last, k);
      assert HasKey(init, k) ==> last.0 != k by {
        if HasKey(init, k) {
          var i :| 0 <= i < |init| && init[i].0 == k;
          assert e[i].0 == k;
        }
      }
      if IsDefined(last) {
        LookupAppend(DropUndefined(init), [last], k);
      } else {
        assert DropUndefined(e) == DropUndefined(init);
      }
    }
  }

  /** In an object with distinct keys, reading the key of the `i`-th entry gives its value. */
  lemma {:induction false} LookupAt(e: Entries, i: nat)
    requires DistinctKeys(e) && i < |e|
    ensures Lookup(e, e[i].0) == e[i].1
  {
    if i > 0 {
      assert e[0].0 != e[i].0;
      assert e[1..][i - 1] == e[i];
      LookupAt(e[1..], i - 1);
    }
  }

  /** A table entry survives the removal of `undefined` properties exactly when its value is
      defined, and keeps its value. */
  lemma TableEntrySent(t: Entries, i: nat)
    requires DistinctKeys(t) && i < |t|
    ensures Lookup(DropUndefined(t), t[i].0) == t[i].1
    ensures HasKey(DropUndefined(t), t[i].0) <==> t[i].1 != Undefined
  {
    LookupAt(t, i);
    DropUndefinedLookup(t, t[i].0);
  }

  /** The left operand of `{ ...a, ...b }`: `a`'s keys in `a`'s order, each taking `b`'s value
      when `b` has the key too. */
  function Override(a: Entries, b: Entries): (r: Entries)
    ensures |r| == |a|
    ensures forall i :: 0 <= i < |a| ==> r[i].0 == a[i].0
  {
    if a == [] then []
    else [(a[0].0, if HasKey(b, a[0].0) then Lookup(b, a[0].0) else a[0].1)] + Override(a[1..], b)
  }

  /** `{ ...a, ...b }`: a key of both keeps its place from `a` and takes its value from `b`;
      the keys only `b` has follow in `b`'s order. */
  function Spread(a: Entries, b: Entries): Entries
  {
    Override(a, b) + Seqs.Filter(b, (en: (string, JsValue)) => !HasKey(a, en.0))
  }

  lemma {:induction false} OverrideLookup(a: Entries, b: Entries, k: string)
    ensures HasKey(Override(a, b), k) <==> HasKey(a, k)
    ensures HasKey(a, k) ==> Lookup(Override(a, b), k) == if HasKey(b, k) then Lookup(b, k) else Lookup(a, k)
  {
    var o := Override(a, b);
    if HasKey(o, k) {
      var i :| 0 <= i < |o| && o[i].0 == k;
      assert a[i].0 == k;
    }
    if HasKey(a, k) {
      var i :| 0 <= i < |a| && a[i].0 == k;
      assert o[i].0 == k;
    }
    if a != [] {
      OverrideLookup(a[1..], b, k);
      assert o[1..] == Override(a[1..], b);
      if a[0].0 != k && HasKey(a, k) {
        var i :| 0 <= i < |a| && a[i].0 == k;
        assert a[1..][i - 1].0 == k;
      }
    }
  }

  /** Reading a property of `{ ...a, ...b }` gives `b`'s value when `b` has the key and `a`'s
      value otherwise; the spread has exactly the keys of `a` and `b`. */
  lemma SpreadLookup(a: Entries, b: Entries, k: string)
    ensures Lookup(Spread(a, b), k) == if HasKey(b, k) then Lookup(b, k) else Lookup(a, k)
    ensures HasKey(Spread(a, b), k) <==> HasKey(a, k) || HasKey(b, k)
  {
    var p := (en: (string, JsValue)) => !HasKey(a, en.0);
    OverrideLookup(a, b, k);
    LookupAppend(Override(a, b), Seqs.Filter(b, p), k);
    if !HasKey(a, k) {
      LookupFilterKeeping(b, p, k);
    } else {
      // every entry under k is filtered out of b's tail
      var f := Seqs.Filter(b, p);
      Seqs.FilterMembers(b, p);
      forall j | 0 <= j < |f|
        ensures f[j].0 != k
      {
        assert f[j] in f;
      }
    }
  }

  /** Spreading two objects gives an object: no key appears twice. */
  lemma SpreadDistinct(a: Entries, b: Entries)
    requires DistinctKeys(a) && DistinctKeys(b)
    ensures DistinctKeys(Spread(a, b))
  {
    var p := (en: (string, JsValue)) => !HasKey(a, en.0);
    var o, f := Override(a, b), Seqs.Filter(b, p);
    FilterDistinct(b, p);
    Seqs.FilterMembers(b, p);
    forall i, j | 0 <= i < |o| && 0 <= j < |f|
      ensures o[i].0 != f[j].0
    {
      assert f[j] in f;
      assert o[i].0 == a[i].0;
    }
    var s := o + f;
    forall i, j | 0 <= i < j < |s|
      ensures s[i].0 != s[j].0
    {
      if j < |o| {
        assert s[i].0 == a[i].0 && s[j].0 == a[j].0;
      } else if i >= |o| {
        assert s[i] == f[i - |o|] && s[j] == f[j - |o|];
      } else {
        assert s[j] == f[j - |o|];
      }
    }
  }

  lemma {:induction false} FilterDistinct(e: Entries, p: ((string, JsValue)) -> bool)
    requires DistinctKeys(e)
    ensures DistinctKeys(Seqs.Filter(e, p))
  {
    Seqs.FilterIsSubsequence(e, p);
    SubsequenceDistinct(Seqs.Filter(e, p), e);
  }

  lemma {:induction false} SubsequenceDistinct(s: Entries, e: Entries)
    requires Seqs.IsSubsequence(s, e) && DistinctKeys(e)
    ensures DistinctKeys(s)
  {
    if s != [] {
      var si, ei := s[..|s| - 1], e[..|e| - 1];
      assert DistinctKeys(ei);
      if s[|s| - 1] == e[|e| - 1] {
        SubsequenceDistinct(si, ei);
        Seqs.SubsequenceProperties(si, ei);
        forall i | 0 <= i < |si|
          ensures si[i].0 != s[|s| - 1].0
        {
          assert si[i] in ei;
          var j :| 0 <= j < |ei| && ei[j] == si[i];
          assert e[j] == si[i];
        }
      } else {
        SubsequenceDistinct(s, ei);
      }
    }
  }

  /** `obj[k] = v`, with its contract: `SetDef` below is the definition, and the lemmas after
      it prove the facts stated here. */
  function Set(e: Entries, k: string, v: JsValue): (r: Entries)
    ensures forall q :: Lookup(r, q) == if q == k then v else Lookup(e, q)
    ensures forall q :: HasKey(r, q) <==> q == k || HasKey(e, q)
    ensures DistinctKeys(e) ==> DistinctKeys(r)
    ensures !HasKey(e, k) ==> r == e + [(k, v)]
  {
    SetFacts(e, k, v);
    SetAppendsNewKey(e, k, v);
    SetDef(e, k, v)
  }

  /** The definition of `obj[k] = v`: overwrite the value of an existing key in place, or add
      the key last. */
  function SetDef(e: Entries, k: string, v: JsValue): Entries
  {
    if e == [] then [(k, v)]
    else if e[0].0 == k then [(k, v)] + e[1..]
    else [e[0]] + SetDef(e[1..], k, v)
  }

  lemma HasKeyCons(en: (string, JsValue), e: Entries, q: string)
    ensures HasKey([en] + e, q) <==> en.0 == q || HasKey(e, q)
  {
    LookupAppend([en], e, q);
    LookupSingle(en, q);
  }

  /** `obj[k] = v` brings in no entry other than `(k, v)`. */
  lemma {:induction false} SetMembers(e: Entries, k: string, v: JsValue)
    ensures forall en :: en in Set(e, k, v) ==> en in e || en == (k, v)
  {
    SetDefMembers(e, k, v);
  }

  lemma {:induction false} SetDefMembers(e: Entries, k: string, v: JsValue)
    ensures forall en :: en in SetDef(e, k, v) ==> en in e || en == (k, v)
  {
    if e != [] {
      assert e == [e[0]] + e[1..];
      if e[0].0 != k {
        SetDefMembers(e[1..], k, v);
      }
    }
  }

  lemma {:induction false} SetAppendsNewKey(e: Entries, k: string, v: JsValue)
    ensures !HasKey(e, k) ==> SetDef(e, k, v) == e + [(k, v)]
  {
    if e != [] && !HasKey(e, k) {
      HasKeyCons(e[0], e[1..], k);
      assert e == [e[0]] + e[1..];
      SetAppendsNewKey(e[1..], k, v);
    }
  }

  lemma {:induction false} SetFacts(e: Entries, k: string, v: JsValue)
    ensures forall q :: Lookup(SetDef(e, k, v), q) == if q == k then v else Lookup(e, q)
    ensures forall q :: HasKey(SetDef(e, k, v), q) <==> q == k || HasKey(e, q)
    ensures DistinctKeys(e) ==> DistinctKeys(SetDef(e, k, v))
  {
    var r := SetDef(e, k, v);
    if e == [] {
      forall q ensures HasKey(r, q) <==> q == k { LookupSingle((k, v), q); }
    } else if e[0].0 == k {
      assert e == [e[0]] + e[1..];
      forall q ensures HasKey(r, q) <==> q == k || HasKey(e, q)
      {
        HasKeyCons((k, v), e[1..], q);
        HasKeyCons(e[0], e[1..], q);
      }
      assert r[1..] == e[1..];
    } else {
      SetFacts(e[1..], k, v);
      var t := SetDef(e[1..], k, v);
      assert e == [e[0]] + e[1..];
      assert r[1..] == t;
      forall q ensures HasKey(r, q) <==> q == k || HasKey(e, q)
      {
        HasKeyCons(e[0], t, q);
        HasKeyCons(e[0], e[1..], q);
      }
      if DistinctKeys(e) {
        forall j | 0 <= j < |t|
          ensures t[j].0 != e[0].0
        {
          assert HasKey(t, t[j].0);
          if t[j].0 != k {
            var i :| 0 <= i < |e[1..]| && e[1..][i].0 == t[j].0;
            assert e[i + 1].0 == t[j].0;
          }
        }
      }
    }
  }

  /** `if (v) params[k] = v` for a value that is a non-empty string or `undefined`, as the
      `n`-th step of building an object from a table of all its keys: the object built from
      the table's first `n` entries becomes the one built from its first `n + 1`. Building
      an object this way, key by key, yields the table's defined entries in table order. */
  method PutIfDefined(params: Entries, ghost table: Entries, ghost n: nat, k: string, v: JsValue)
    returns (r: Entries)
    requires DistinctKeys(table) && n < |table| && table[n] == (k, v)
    requires params == DropUndefined(table[..n])
    ensures r == DropUndefined(table[..n + 1])
    ensures n + 1 == |table| ==> r == DropUndefined(table)
  {
    assert table[..n + 1][..n] == table[..n];
    assert table[..|table|] == table;
    r := params;
    if v != Undefined {
      DropUndefinedMembers(table[..n]);
      assert !HasKey(table[..n], k);
      r := Set(params, k, v);
    }
  }
}
