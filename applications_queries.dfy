/** `ApplicationsQueries.cleanParams`: the filter object of the applications views turned into
    the string record that becomes the query string. A property is kept, as `String(value)`,
    unless its value is `undefined`, `null` or `''`. */
module ApplicationsQueries {
  import opened JsValues
  import opened QueryParams

  /** `value !== undefined && value !== null && value !== ''` */
  predicate Kept(v: JsValue)
  {
    v != Undefined && v != Null && v != Str("")
  }

  /** The record after the `forEach` has visited the entries of `params`, in order. */
  function Clean(params: Entries): Entries
  {
    if params == [] then []
    else
      var init, last := params[..|params| - 1], params[|params| - 1];
      if Kept(last.1) then Set(Clean(init), last.0, Str(ToJsString(last.1))) else Clean(init)
  }

  /** Every value of a cleaned record is a non-empty string. */
  predicate NonEmptyStrings(e: Entries)
  {
    forall i :: 0 <= i < |e| ==> e[i].1.Str? && e[i].1.s != ""
  }

  /** The result is a record: distinct keys, each holding a non-empty string. */
  lemma {:induction false} CleanShape(params: Entries)
    ensures DistinctKeys(Clean(params)) && NonEmptyStrings(Clean(params))
  {
    if params != [] {
      var init, last := params[..|params| - 1], params[|params| - 1];
      CleanShape(init);
      if Kept(last.1) {
        var c := Clean(init);
        var v := Str(ToJsString(last.1));
        SetMembers(c, last.0, v);
        var r := Set(c, last.0, v);
        forall i | 0 <= i < |r|
          ensures r[i].1.Str? && r[i].1.s != ""
        {
          assert r[i] in r;
          if r[i] in c {
            var j :| 0 <= j < |c| && c[j] == r[i];
          }
        }
      }
    }
  }

  /** Reading the cleaned record: a key is present exactly when its value in `params` is kept,
      and then holds `String(value)`; no key is added and none renamed. */
  lemma {:induction false} CleanLookup(params: Entries, k: string)
    requires DistinctKeys(params)
    ensures HasKey(Clean(params), k) <==> Kept(Lookup(params, k))
    ensures Lookup(Clean(params), k) == if Kept(Lookup(params, k)) then Str(ToJsString(Lookup(params, k))) else Undefined
  {
    if params != [] {
      var init, last := params[..|params| - 1], params[|params| - 1];
      assert params == init + [last];
      assert DistinctKeys(init);
      CleanLookup(init, k);
      LookupAppend(init, [last], k);
      LookupSingle(last, k);
      assert HasKey(init, k) ==> last.0 != k by {
        if HasKey(init, k) {
          var i :| 0 <= i < |init| && init[i].0 == k;
          assert params[i].0 == k;
        }
      }
    }
  }

  /** `false` and `0` are values like any other: they are kept, as "false" and "0". */
  lemma FalseAndZeroKept()
    ensures Clean([("isAutomaticRenewal", Bool(false))]) == [("isAutomaticRenewal", Str("false"))]
    ensures Clean([("page", Num(0))]) == [("page", Str("0"))]
  {
    assert [("isAutomaticRenewal", Bool(false))][..0] == [];
    assert [("page", Num(0))][..0] == [];
    assert NatToString(0) == "0";
  }

  /** A record of non-empty strings is already clean. */
  lemma {:induction false} CleanOfClean(e: Entries)
    requires DistinctKeys(e) && NonEmptyStrings(e)
    ensures Clean(e) == e
  {
    if e != [] {
      var init, last := e[..|e| - 1], e[|e| - 1];
      assert DistinctKeys(init) && NonEmptyStrings(init);
      CleanOfClean(init);
      assert !HasKey(init, last.0) by {
        forall i | 0 <= i < |init|
          ensures init[i].0 != last.0
        {
          assert init[i] == e[i];
        }
      }
      assert e == init + [last];
    }
  }

  /** Cleaning twice is cleaning once. */
  lemma CleanIdempotent(params: Entries)
    ensures Clean(Clean(params)) == Clean(params)
  {
    CleanShape(params);
    CleanOfClean(Clean(params));
  }

  /** `cleanParams` itself: a fresh record filled by one pass over the entries. The argument is
      a value, so the caller's filter object is left as it was. */
  method CleanParams(params: Entries) returns (cleaned: Entries)
    ensures cleaned == Clean(params)
  {
    cleaned := [];
    var i := 0;
    while i < |params|
      invariant 0 <= i <= |params|
      invariant cleaned == Clean(params[..i])
    {
      var (key, value) := params[i];
      assert params[..i + 1][..i] == params[..i];
      if value != Undefined && value != Null && value != Str("") {
        cleaned := Set(cleaned, key, Str(ToJsString(value)));
      }
      i := i + 1;
    }
    assert params[..|params|] == params;
  }
}
