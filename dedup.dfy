/** De-duplication by notice code, shared by the certificate, fine and eventual-permit
    exports: records are put into an insertion-ordered map under their notice code, a
    record whose code is already there is skipped, and a record without a code goes in
    under a fresh random key. The map's values, in insertion order, are the result. */
module Dedup {
  import opened JsValues
  import Seqs

  /** The codes carried by the records, as a set. */
  function Codes<T>(xs: seq<T>, key: T -> Option<string>): set<string>
  {
    if xs == [] then {}
    else Codes(xs[..|xs| - 1], key) + (if key(xs[|xs| - 1]).Some? then {key(xs[|xs| - 1]).value} else {})
  }

  lemma {:induction false} CodesMembership<T>(xs: seq<T>, key: T -> Option<string>, c: string)
    ensures c in Codes(xs, key) <==> exists i :: 0 <= i < |xs| && key(xs[i]) == Some(c)
  {
    if xs != [] {
      var init := xs[..|xs| - 1];
      CodesMembership(init, key, c);
      if c in Codes(init, key) {
        var i :| 0 <= i < |init| && key(init[i]) == Some(c);
        assert xs[i] == init[i];
      }
      if i :| 0 <= i < |xs| && key(xs[i]) == Some(c) {
        if i < |init| {
          assert init[i] == xs[i];
        }
      }
    }
  }

  /** The specification of the map-filling loop: the records kept from `xs`, in order. */
  function Dedup<T>(xs: seq<T>, key: T -> Option<string>): seq<T>
  {
    if xs == [] then []
    else
      var init, last := xs[..|xs| - 1], xs[|xs| - 1];
      if key(last).Some? && key(last).value in Codes(init, key) then Dedup(init, key)
      else Dedup(init, key) + [last]
  }

  /** The first record of `xs` carrying code `c`. */
  function FirstWithCode<T>(xs: seq<T>, key: T -> Option<string>, c: string): T
    requires c in Codes(xs, key)
  {
    var init := xs[..|xs| - 1];
    if c in Codes(init, key) then FirstWithCode(init, key, c) else xs[|xs| - 1]
  }

  predicate Keyless<T>(key: T -> Option<string>, x: T)
  {
    key(x).None?
  }

  /** The result keeps the input's order: it is the input with some records removed. */
  lemma {:induction false} DedupIsSubsequence<T>(xs: seq<T>, key: T -> Option<string>)
    ensures Seqs.IsSubsequence(Dedup(xs, key), xs)
    ensures |Dedup(xs, key)| <= |xs|
  {
    if xs != [] {
      var init, last := xs[..|xs| - 1], xs[|xs| - 1];
      DedupIsSubsequence(init, key);
      assert init + [last] == xs;
      if key(last).Some? && key(last).value in Codes(init, key) {
        Seqs.SubsequenceExtend(Dedup(init, key), init, last);
      } else {
        Seqs.SubsequenceBothExtend(Dedup(init, key), init, last);
      }
    }
  }

  /** Exactly the input's codes survive. */
  lemma {:induction false} DedupCodes<T>(xs: seq<T>, key: T -> Option<string>)
    ensures Codes(Dedup(xs, key), key) == Codes(xs, key)
  {
    if xs != [] {
      var init, last := xs[..|xs| - 1], xs[|xs| - 1];
      DedupCodes(init, key);
      var d := Dedup(init, key);
      if !(key(last).Some? && key(last).value in Codes(init, key)) {
        assert (d + [last])[..|d + [last]| - 1] == d;
      }
    }
  }

  /** No code is carried by two kept records. */
  lemma {:induction false} DedupUniqueCodes<T>(xs: seq<T>, key: T -> Option<string>)
    ensures UniqueCodes(Dedup(xs, key), key)
  {
    if xs != [] {
      var init, last := xs[..|xs| - 1], xs[|xs| - 1];
      DedupUniqueCodes(init, key);
      var d := Dedup(init, key);
      if !(key(last).Some? && key(last).value in Codes(init, key)) {
        var r := d + [last];
        DedupCodes(init, key);
        forall i, j | 0 <= i < j < |r| && key(r[i]).Some?
          ensures key(r[i]) != key(r[j])
        {
          if j == |d| {
            CodesMembership(d, key, key(r[i]).value);
          }
        }
      }
    }
  }

  predicate UniqueCodes<T>(xs: seq<T>, key: T -> Option<string>)
  {
    forall i, j :: 0 <= i < j < |xs| && key(xs[i]).Some? ==> key(xs[i]) != key(xs[j])
  }

  /** Records without a code are all kept, in their order, however many there are. */
  lemma {:induction false} DedupKeepsKeyless<T(!new)>(xs: seq<T>, key: T -> Option<string>)
    ensures Seqs.Filter(Dedup(xs, key), x => Keyless(key, x)) == Seqs.Filter(xs, x => Keyless(key, x))
  {
    var p := x => Keyless(key, x);
    if xs != [] {
      var init, last := xs[..|xs| - 1], xs[|xs| - 1];
      DedupKeepsKeyless(init, key);
      assert init + [last] == xs;
      Seqs.FilterAppend(init, [last], p);
      if !(key(last).Some? && key(last).value in Codes(init, key)) {
        Seqs.FilterAppend(Dedup(init, key), [last], p);
      }
    }
  }

  /** For every code, the record kept is the first one in input order carrying it. */
  lemma {:induction false} DedupFirstWins<T>(xs: seq<T>, key: T -> Option<string>, i: nat)
    requires i < |Dedup(xs, key)| && key(Dedup(xs, key)[i]).Some?
    ensures key(Dedup(xs, key)[i]).value in Codes(xs, key)
    ensures Dedup(xs, key)[i] == FirstWithCode(xs, key, key(Dedup(xs, key)[i]).value)
  {
    var init, last := xs[..|xs| - 1], xs[|xs| - 1];
    var d := Dedup(init, key);
    var c := key(Dedup(xs, key)[i]).value;
    if key(last).Some? && key(last).value in Codes(init, key) {
      DedupFirstWins(init, key, i);
    } else if i < |d| {
      DedupFirstWins(init, key, i);
    } else {
      DedupCodes(init, key);
      assert c !in Codes(d, key) by {
        assert key(last) == Some(c);
      }
    }
  }

  /** A list whose codes are already unique comes back unchanged. */
  lemma {:induction false} DedupOfUnique<T>(xs: seq<T>, key: T -> Option<string>)
    requires UniqueCodes(xs, key)
    ensures Dedup(xs, key) == xs
  {
    if xs != [] {
      var init, last := xs[..|xs| - 1], xs[|xs| - 1];
      assert UniqueCodes(init, key);
      DedupOfUnique(init, key);
      assert !(key(last).Some? && key(last).value in Codes(init, key)) by {
        if key(last).Some? {
          CodesMembership(init, key, key(last).value);
          forall i | 0 <= i < |init|
            ensures key(init[i]) != key(last)
          {
            assert xs[i] == init[i];
          }
        }
      }
      assert init + [last] == xs;
    }
  }

  /** De-duplicating twice is the same as once. */
  lemma DedupIdempotent<T>(xs: seq<T>, key: T -> Option<string>)
    ensures Dedup(Dedup(xs, key), key) == Dedup(xs, key)
  {
    DedupUniqueCodes(xs, key);
    DedupOfUnique(Dedup(xs, key), key);
  }

  /** A key of the insertion-ordered map: a record's notice code, or the random key a record
      without one receives (`no-notice-<random>`), modelled as a numbered token that never
      collides. */
  datatype MapKey = Code(code: string) | Token(id: nat)

  /** The map-filling loop itself: keys and values of the map grow together; the values, in
      insertion order, are what is returned. */
  method DedupByCode<T>(xs: seq<T>, key: T -> Option<string>) returns (r: seq<T>)
    ensures r == Dedup(xs, key)
  {
    var keys: seq<MapKey> := [];
    var values: seq<T> := [];
    var nextToken: nat := 0;
    var i := 0;
    while i < |xs|
      invariant 0 <= i <= |xs|
      invariant |keys| == |values|
      invariant values == Dedup(xs[..i], key)
      invariant forall c :: Code(c) in keys <==> c in Codes(xs[..i], key)
      invariant forall k :: k in keys && k.Token? ==> k.id < nextToken
      invariant forall a, b :: 0 <= a < b < |keys| ==> keys[a] != keys[b]
    {
      var x := xs[i];
      var code := key(x);
      assert xs[..i + 1][..i] == xs[..i];
      if code.Some? && Code(code.value) !in keys {
        keys := keys + [Code(code.value)];
        values := values + [x];
      } else if code.None? {
        keys := keys + [Token(nextToken)];
        values := values + [x];
        nextToken := nextToken + 1;
      }
      i := i + 1;
    }
    assert xs[..|xs|] == xs;
    r := values;
  }
}
