/** JavaScript values as the views handle them, and the coercions the views rely on:
    truthiness (`if (x)`, `x || y`), `String(x)`, `x?.toString()`, `toLowerCase()` and
    `includes()`. Numbers are integers here: money and counts never need fractions in
    the branches this model keeps. */
module JsValues {
  import Seqs

  datatype Option<T> = None | Some(value: T)

  /** A value read from a record, a filter field or a query-parameter object. */
  datatype JsValue = Undefined | Null | Bool(b: bool) | Num(n: int) | Str(s: string)

  /** JavaScript truthiness: `undefined`, `null`, `false`, `0` and `''` are the falsy values. */
  predicate Truthy(v: JsValue)
  {
    match v
    case Undefined => false
    case Null => false
    case Bool(b) => b
    case Num(n) => n != 0
    case Str(s) => s != ""
  }

  /** `a || b` */
  function Or(a: JsValue, b: JsValue): JsValue
  {
    if Truthy(a) then a else b
  }

  /** `s || undefined` on a string field, and equally `s !== '' ? s : undefined`. */
  function OrUndefined(s: string): JsValue
  {
    if s != "" then Str(s) else Undefined
  }

  /** `value || ''` on a selection that may come back cleared (undefined). */
  function OrEmpty(value: Option<string>): string
  {
    if value.Some? then value.value else ""
  }

  function DigitChar(d: nat): char
    requires d < 10
  {
    "0123456789"[d]
  }

  /** Decimal digits of a natural number, as `String(n)` prints them. */
  function NatToString(n: nat): (r: string)
    ensures |r| >= 1
    ensures forall i :: 0 <= i < |r| ==> '0' <= r[i] <= '9'
    ensures n >= 10 ==> r[0] != '0'
  {
    if n < 10 then [DigitChar(n)] else NatToString(n / 10) + [DigitChar(n % 10)]
  }

  /** The value a string of decimal digits denotes. */
  function DigitsValue(s: string): int
  {
    if s == [] then 0 else DigitsValue(s[..|s| - 1]) * 10 + (s[|s| - 1] as int - '0' as int)
  }

  /** Printing a number and reading the digits back gives the number: `String(n)` loses nothing. */
  lemma {:induction false} NatToStringRoundTrip(n: nat)
    ensures DigitsValue(NatToString(n)) == n
  {
    var r := NatToString(n);
    if n >= 10 {
      NatToStringRoundTrip(n / 10);
      assert r[..|r| - 1] == NatToString(n / 10);
    }
  }

  /** `String(i)` for an integer. */
  function IntToString(i: int): (r: string)
    ensures r != ""
  {
    if i < 0 then "-" + NatToString(-i) else NatToString(i)
  }

  /** The integer a printed integer denotes. */
  function ParseInt(s: string): int
  {
    if s != [] && s[0] == '-' then -DigitsValue(s[1..]) else DigitsValue(s)
  }

  /** A printed natural number reads back as itself: it has no leading minus sign. */
  lemma NatReadsBack(i: int)
    requires i >= 0
    ensures ParseInt(IntToString(i)) == i
  {
    var d := NatToString(i);
    assert IntToString(i) == d;
    assert d[0] != '-';
    NatToStringRoundTrip(i);
  }

  /** A leading minus sign negates the digits after it. */
  lemma ParseNegative(x: string, d: string, n: nat)
    requires x == "-" + d && DigitsValue(d) == n
    ensures ParseInt(x) == -(n as int)
  {
    assert x[0] == '-' && x[1..] == d;
  }

  /** A minus sign in front of a printed natural number reads back as its negation. */
  lemma NegatedReadsBack(i: int)
    requires i < 0
    ensures ParseInt(IntToString(i)) == i
  {
    var n: nat := -i;
    var d := NatToString(n);
    assert IntToString(i) == "-" + d;
    NatToStringRoundTrip(n);
    ParseNegative(IntToString(i), d, n);
  }

  /** Printing an integer and reading it back gives the integer, so two different integers
      never print alike. */
  lemma IntToStringRoundTrip(i: int)
    ensures ParseInt(IntToString(i)) == i
  {
    if i < 0 {
      NegatedReadsBack(i);
    } else {
      NatReadsBack(i);
    }
  }

  /** `String(v)`. */
  function ToJsString(v: JsValue): string
  {
    match v
    case Undefined => "undefined"
    case Null => "null"
    case Bool(b) => if b then "true" else "false"
    case Num(n) => IntToString(n)
    case Str(s) => s
  }

  /** `v?.toString()`: nothing for undefined or null, the printed value otherwise. */
  function OptionalToString(v: JsValue): Option<string>
  {
    if v.Undefined? || v.Null? then None else Some(ToJsString(v))
  }

  /** The key a record's `noticeCode` gives once `noticeCode?.toString()` has been tested for
      truthiness: a non-empty string, or nothing. */
  function NoticeKey(code: JsValue): (k: Option<string>)
    ensures k.Some? ==> k.value != ""
    ensures k.Some? <==> (code.Num? || code.Bool? || (code.Str? && code.s != ""))
    ensures code.Num? ==> k == Some(IntToString(code.n))
  {
    match OptionalToString(code)
    case None => None
    case Some(s) => if s == "" then None else Some(s)
  }

  /** The notice code 0 is a real key, printed "0"; only absent codes and '' are keyless. */
  lemma ZeroCodeIsAKey()
    ensures NoticeKey(Num(0)) == Some("0")
    ensures NoticeKey(Str("")) == None && NoticeKey(Null) == None && NoticeKey(Undefined) == None
  {
    assert NatToString(0) == "0";
  }

  /** `toLowerCase()` on the Basic Latin and Latin-1 letters used by the catalogues
      (A-Z, and À-Þ except the multiplication sign). */
  function LowerChar(c: char): char
  {
    if 'A' <= c <= 'Z' || ('À' <= c <= 'Þ' && c != '×') then (c as int + 32) as char else c
  }

  function Lower(s: string): (r: string)
    ensures |r| == |s|
    ensures forall i :: 0 <= i < |s| ==> r[i] == LowerChar(s[i])
  {
    if s == [] then [] else [LowerChar(s[0])] + Lower(s[1..])
  }

  predicate StartsWith(s: string, prefix: string)
  {
    |prefix| <= |s| && s[..|prefix|] == prefix
  }

  /** `s.includes(sub)`: `sub` starts at some position of `s`. */
  predicate Contains(s: string, sub: string)
  {
    StartsWith(s, sub) || (s != [] && Contains(s[1..], sub))
  }

  /** `includes` finds `sub` exactly when some slice of `s` equals it. */
  lemma {:induction false} ContainsAt(s: string, sub: string, i: nat)
    requires i + |sub| <= |s| && s[i..i + |sub|] == sub
    ensures Contains(s, sub)
  {
    if i > 0 {
      assert s[1..][i - 1..i - 1 + |sub|] == s[i..i + |sub|];
      ContainsAt(s[1..], sub, i - 1);
    }
  }

  /** Lower-casing a character twice is lower-casing it once. */
  lemma LowerCharIdempotent(c: char)
    ensures LowerChar(LowerChar(c)) == LowerChar(c)
  {
  }

  /** Lower-casing a text twice is lower-casing it once. */
  lemma LowerIdempotent(s: string)
    ensures Lower(Lower(s)) == Lower(s)
  {
    forall i | 0 <= i < |s| {
      LowerCharIdempotent(s[i]);
    }
  }

  /** `status?.toLowerCase().includes(word)`: a missing or non-text status matches nothing. */
  predicate StatusIncludes(status: JsValue, word: string)
  {
    status.Str? && Contains(Lower(status.s), word)
  }

  /** The match ignores the status's letter case: a status and its lower-case form match the
      same words. */
  lemma StatusIgnoresCase(s: string, word: string)
    ensures StatusIncludes(Str(Lower(s)), word) <==> StatusIncludes(Str(s), word)
  {
    LowerIdempotent(s);
  }

  /** A status that is the word in any letter case matches it. */
  lemma StatusNamedInAnyCase(s: string, word: string)
    requires Lower(s) == word
    ensures StatusIncludes(Str(s), word)
  {
    assert word[0..|word|] == word;
    ContainsAt(word, word, 0);
  }

  /** A lower-cased text holds no capital A-Z, so it contains no word that does. */
  lemma {:induction false} LowerNeverContainsCapital(s: string, word: string, k: nat)
    requires k < |word| && 'A' <= word[k] <= 'Z'
    ensures !Contains(Lower(s), word)
  {
    var l := Lower(s);
    if |word| <= |l| {
      assert l[..|word|][k] == LowerChar(s[k]);
    }
    if s != [] {
      assert l[1..] == Lower(s[1..]);
      LowerNeverContainsCapital(s[1..], word, k);
    }
  }

  /** The word is compared against the lower-cased status, so a word holding a capital A-Z
      matches no status at all. */
  lemma CapitalWordNeverMatches(status: JsValue, word: string, k: nat)
    requires k < |word| && 'A' <= word[k] <= 'Z'
    ensures !StatusIncludes(status, word)
  {
    if status.Str? {
      LowerNeverContainsCapital(status.s, word, k);
    }
  }

  /** `parts.join(sep)` includes every part. */
  lemma JoinIncludes(parts: seq<string>, sep: string, k: nat)
    requires k < |parts|
    ensures Contains(Seqs.Join(parts, sep), parts[k])
  {
    var at := Seqs.JoinPosition(parts, sep, k);
    ContainsAt(Seqs.Join(parts, sep), parts[k], at);
  }
}
