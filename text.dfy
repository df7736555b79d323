/** String helpers for the notifier: the JavaScript operations the run relies
    on (substring search, `substring(0, n)`, number-to-string in template
    literals, and the `||` / `??` fallbacks), written out over `seq<char>`. */
module Text {
  import opened Wrappers

  /** `pat` occurs in `s` starting at index `i`. */
  predicate OccursAt(s: string, pat: string, i: int)
  {
    0 <= i && i + |pat| <= |s| && s[i..i + |pat|] == pat
  }

  /** Substring search, as the truthiness of `s.match(pat)` for a pattern
      without regular-expression metacharacters. */
  function Contains(s: string, pat: string): (r: bool)
    ensures r <==> exists i :: OccursAt(s, pat, i)
    decreases |s|
  {
    if |pat| <= |s| && s[..|pat|] == pat then
      assert OccursAt(s, pat, 0);
      true
    else if s == [] then
      assert forall i :: !OccursAt(s, pat, i);
      false
    else
      var rest := Contains(s[1..], pat);
      assert forall i :: OccursAt(s, pat, i) && i > 0 ==> OccursAt(s[1..], pat, i - 1) by {
        forall i | OccursAt(s, pat, i) && i > 0 ensures OccursAt(s[1..], pat, i - 1) {
          assert s[1..][i - 1..i - 1 + |pat|] == s[i..i + |pat|];
        }
      }
      assert forall i :: OccursAt(s[1..], pat, i) ==> OccursAt(s, pat, i + 1) by {
        forall i | OccursAt(s[1..], pat, i) ensures OccursAt(s, pat, i + 1) {
          assert s[1..][i..i + |pat|] == s[i + 1..i + 1 + |pat|];
        }
      }
      rest
  }

  /** Whatever surrounds it, a string contains itself. */
  lemma ContainsInfix(prefix: string, x: string, suffix: string)
    ensures Contains(prefix + x + suffix, x)
  {
    var s := prefix + x + suffix;
    assert s[|prefix|..|prefix| + |x|] == x;
    assert OccursAt(s, x, |prefix|);
  }

  /** A string contains itself. */
  lemma ContainsSelf(x: string)
    ensures Contains(x, x)
  {
    assert x[0..|x|] == x;
    assert OccursAt(x, x, 0);
  }

  /** What a string contains, it still contains with text added after it. */
  lemma ContainsAppend(s: string, t: string, x: string)
    requires Contains(s, x)
    ensures Contains(s + t, x)
  {
    var i :| OccursAt(s, x, i);
    assert (s + t)[i..i + |x|] == s[i..i + |x|];
    assert OccursAt(s + t, x, i);
  }

  /** ... and with text added before it. */
  lemma ContainsPrepend(t: string, s: string, x: string)
    requires Contains(s, x)
    ensures Contains(t + s, x)
  {
    var i :| OccursAt(s, x, i);
    assert (t + s)[|t| + i..|t| + i + |x|] == s[i..i + |x|];
    assert OccursAt(t + s, x, |t| + i);
  }

  /** Nothing occurs in a string shorter than itself. */
  lemma NotContainsLonger(s: string, pat: string)
    requires |s| < |pat|
    ensures !Contains(s, pat)
  {
  }

  function Min(a: int, b: int): int
  {
    if a <= b then a else b
  }

  /** JavaScript `s.substring(0, n)` for `n >= 0`: the first `n` characters,
      or all of `s` when it is shorter. */
  function Prefix(s: string, n: nat): (r: string)
    ensures |r| == Min(n, |s|)
    ensures r <= s
    ensures |s| <= n ==> r == s
  {
    if |s| <= n then s else s[..n]
  }

  // ---- Decimal rendering of a non-negative integer in a template literal ----

  predicate IsDigit(c: char)
  {
    '0' <= c <= '9'
  }

  predicate IsDigits(s: string)
  {
    forall i :: 0 <= i < |s| ==> IsDigit(s[i])
  }

  function DigitChar(d: nat): (c: char)
    requires d < 10
    ensures IsDigit(c)
  {
    ['0', '1', '2', '3', '4', '5', '6', '7', '8', '9'][d]
  }

  function DigitValue(c: char): (d: nat)
    requires IsDigit(c)
    ensures d < 10
  {
    (c as int - '0' as int) as nat
  }

  lemma DigitRoundTrip(d: nat)
    requires d < 10
    ensures DigitValue(DigitChar(d)) == d
  {
  }

  /** The number a string of decimal digits denotes (most significant first). */
  function DecimalValue(s: string): nat
    requires IsDigits(s)
  {
    if s == [] then 0 else 10 * DecimalValue(s[..|s| - 1]) + DigitValue(s[|s| - 1])
  }

  /** `${n}` for a non-negative integer `n`: its shortest decimal notation.
      The result is a non-empty digit string without a leading zero (unless
      it is "0") that denotes `n`. */
  function Decimal(n: nat): (r: string)
    ensures |r| > 0 && IsDigits(r)
    ensures r[0] != '0' || r == "0"
    ensures DecimalValue(r) == n
    decreases n
  {
    if n < 10 then
      DigitRoundTrip(n);
      [DigitChar(n)]
    else
      var hi := Decimal(n / 10);
      var r := hi + [DigitChar(n % 10)];
      assert r[..|r| - 1] == hi;
      DigitRoundTrip(n % 10);
      r
  }

  /** Distinct numbers render differently. */
  lemma DecimalInjective(m: nat, n: nat)
    requires Decimal(m) == Decimal(n)
    ensures m == n
  {
  }

  // ---- The two JavaScript fallbacks ----

  /** A JavaScript string value that may be `null` or `undefined` (None). */
  type JsString = Option<string>

  predicate Truthy(v: JsString)
  {
    v.Some? && v.value != ""
  }

  /** `v || fallback`: the value itself when it is truthy, the fallback when
      it is absent or empty. */
  function FalsyOr(v: JsString, fallback: string): (r: string)
    ensures Truthy(v) ==> r == v.value
    ensures !Truthy(v) ==> r == fallback
  {
    if v.Some? && v.value != "" then v.value else fallback
  }

  /** `v ?? fallback`: the value itself whenever it is present, even empty. */
  function NullishOr(v: JsString, fallback: string): (r: string)
    ensures v.Some? ==> r == v.value
    ensures v.None? ==> r == fallback
  {
    match v
    case Some(s) => s
    case None => fallback
  }

  /** The two fallbacks differ exactly on the present-but-empty string. */
  lemma FalsyAndNullishDiffer(v: JsString, fallback: string)
    requires fallback != ""
    ensures FalsyOr(v, fallback) != NullishOr(v, fallback) <==> v == Some("")
  {
  }
}
