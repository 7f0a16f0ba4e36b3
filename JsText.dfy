/**
 * The string built-ins of JavaScript that the page relies on:
 * `String.prototype.trim`, `String.prototype.includes`, `Array.prototype.join`
 * and the decimal rendering of an integral Number.
 * Strings are sequences of characters; see README for how this differs from
 * JavaScript's UTF-16 code units.
 */
module JsText {

  /** WhiteSpace and LineTerminator code points, the set `trim` removes (ECMA-262, section 12.2 and 12.3). */
  predicate IsWhitespace(c: char) {
    c == '\t' || c == '\n' || c == '\U{B}' || c == '\U{C}' || c == '\r' || c == ' '
    || c == '\U{A0}' || c == '\U{1680}' || ('\U{2000}' <= c <= '\U{200A}')
    || c == '\U{2028}' || c == '\U{2029}' || c == '\U{202F}' || c == '\U{205F}'
    || c == '\U{3000}' || c == '\U{FEFF}'
  }

  predicate AllWhitespace(s: string) {
    forall i :: 0 <= i < |s| ==> IsWhitespace(s[i])
  }

  /** Drops leading whitespace: the result is the longest suffix of `s` that does not start with whitespace. */
  function TrimStart(s: string): (r: string)
    ensures |r| <= |s| && r == s[|s| - |r|..]
    ensures AllWhitespace(s[..|s| - |r|])
    ensures r != [] ==> !IsWhitespace(r[0])
  {
    if |s| > 0 && IsWhitespace(s[0]) then
      var r := TrimStart(s[1..]);
      assert s[..|s| - |r|] == [s[0]] + s[1..][..|s| - 1 - |r|];
      r
    else s
  }

  /** Drops trailing whitespace: the result is the longest prefix of `s` that does not end with whitespace. */
  function TrimEnd(s: string): (r: string)
    ensures |r| <= |s| && r == s[..|r|]
    ensures AllWhitespace(s[|r|..])
    ensures r != [] ==> !IsWhitespace(r[|r| - 1])
  {
    if |s| > 0 && IsWhitespace(s[|s| - 1]) then
      var r := TrimEnd(s[..|s| - 1]);
      assert s[|r|..] == s[..|s| - 1][|r|..] + [s[|s| - 1]];
      r
    else s
  }

  /** `r` is the piece of `s` starting at `k`, with only whitespace before and after it. */
  ghost predicate TrimmedAt(s: string, r: string, k: int) {
    0 <= k <= |s| - |r| && s[k..k + |r|] == r
    && AllWhitespace(s[..k]) && AllWhitespace(s[k + |r|..])
  }

  /** `String.prototype.trim`: a contiguous piece of `s`, with only whitespace cut away on either side. */
  function Trim(s: string): (r: string)
    ensures exists k :: TrimmedAt(s, r, k)
    ensures r != [] ==> !IsWhitespace(r[0]) && !IsWhitespace(r[|r| - 1])
  {
    var t := TrimStart(s);
    TrimPieces(s, t, TrimEnd(t));
    TrimEnd(t)
  }

  /**
   * Cutting whitespace off the front of `s` (leaving `t`) and then off the
   * back of `t` (leaving `r`) leaves a piece of `s` with only whitespace around it.
   */
  lemma TrimPieces(s: string, t: string, r: string)
    requires |t| <= |s| && t == s[|s| - |t|..] && AllWhitespace(s[..|s| - |t|])
    requires |r| <= |t| && r == t[..|r|] && AllWhitespace(t[|r|..])
    ensures TrimmedAt(s, r, |s| - |t|)
  {
    var k := |s| - |t|;
    assert s[k..k + |r|] == r;
    assert s[k + |r|..] == t[|r|..];
  }

  /** The empty query test of the page: trimming yields "" exactly when every character is whitespace. */
  lemma TrimEmptyIff(s: string)
    ensures Trim(s) == [] <==> AllWhitespace(s)
  {
  }

  /** Trimming twice changes nothing more than trimming once. */
  lemma TrimIdempotent(s: string)
    ensures Trim(Trim(s)) == Trim(s)
  {
  }

  /** `s.startsWith(p)`. */
  predicate StartsWith(s: string, p: string) {
    |p| <= |s| && s[..|p|] == p
  }

  /** `String.prototype.includes`: scans the start positions of `s` from left to right. */
  function Includes(s: string, p: string): (r: bool)
    ensures StartsWith(s, p) ==> r
    ensures r ==> |p| <= |s|
    decreases |s|
  {
    if StartsWith(s, p) then true
    else if |s| <= |p| then false
    else Includes(s[1..], p)
  }

  /** Independent definition of containment: some window of `s` equals `p`. */
  ghost predicate OccursAt(s: string, p: string, k: int) {
    0 <= k && k + |p| <= |s| && s[k..k + |p|] == p
  }

  /** The scan finds `p` exactly when `p` occurs somewhere in `s`. */
  lemma {:induction false} IncludesIff(s: string, p: string)
    ensures Includes(s, p) <==> exists k :: OccursAt(s, p, k)
    decreases |s|
  {
    if StartsWith(s, p) {
      assert OccursAt(s, p, 0);
    } else if |s| > |p| {
      IncludesIff(s[1..], p);
      forall k | OccursAt(s[1..], p, k) ensures OccursAt(s, p, k + 1) {
        assert s[1..][k..k + |p|] == s[k + 1..k + 1 + |p|];
      }
      forall k | 1 <= k && OccursAt(s, p, k) ensures OccursAt(s[1..], p, k - 1) {
        assert s[1..][k - 1..k - 1 + |p|] == s[k..k + |p|];
      }
    }
  }

  /** A window found at a known position is reported by `Includes`. */
  lemma IncludesAt(s: string, p: string, k: int)
    requires OccursAt(s, p, k)
    ensures Includes(s, p)
  {
    IncludesIff(s, p);
  }

  /** Every text includes itself. */
  lemma IncludesSelf(p: string)
    ensures Includes(p, p)
  {
    assert OccursAt(p, p, 0);
    IncludesAt(p, p, 0);
  }

  /** Text written in front of `s` keeps what `s` includes. */
  lemma IncludesAfter(a: string, s: string, p: string)
    requires Includes(s, p)
    ensures Includes(a + s, p)
  {
    IncludesIff(s, p);
    var k :| OccursAt(s, p, k);
    assert (a + s)[|a| + k..|a| + k + |p|] == s[k..k + |p|];
    IncludesAt(a + s, p, |a| + k);
  }

  /** Text written after `s` keeps what `s` includes. */
  lemma IncludesBefore(s: string, c: string, p: string)
    requires Includes(s, p)
    ensures Includes(s + c, p)
  {
    IncludesIff(s, p);
    var k :| OccursAt(s, p, k);
    assert (s + c)[k..k + |p|] == s[k..k + |p|];
    IncludesAt(s + c, p, k);
  }

  /** `Array.prototype.join(sep)` over an array of strings. */
  function Join(xs: seq<string>, sep: string): (r: string)
    ensures |xs| == 0 ==> r == ""
    ensures |xs| > 0 ==> StartsWith(r, xs[0])
    ensures |xs| == 1 ==> r == xs[0]
  {
    if |xs| == 0 then ""
    else if |xs| == 1 then xs[0]
    else xs[0] + sep + Join(xs[1..], sep)
  }

  function DigitChar(d: nat): (c: char)
    requires d < 10
  {
    "0123456789"[d]
  }

  /** A non-empty run of decimal digits. */
  predicate IsDigits(s: string) {
    |s| > 0 && forall i :: 0 <= i < |s| ==> '0' <= s[i] <= '9'
  }

  /** The decimal digits of `n`, most significant first, with no leading zero. */
  function NatToDecimal(n: nat): (r: string)
    ensures |r| > 0 && IsDigits(r)
    ensures r[0] == '0' ==> n == 0
  {
    if n < 10 then [DigitChar(n)]
    else NatToDecimal(n / 10) + [DigitChar(n % 10)]
  }

  /** How JavaScript writes an integral Number as text. */
  function IntToDecimal(n: int): (r: string)
    ensures |r| > 0
    ensures n < 0 <==> r[0] == '-'
    ensures n >= 0 ==> IsDigits(r) && DigitsValue(r) == n
    ensures n < 0 ==> IsDigits(r[1..]) && DigitsValue(r[1..]) == -n
  {
    if n < 0 then
      DecimalRoundTrip(-n);
      Negative(NatToDecimal(-n))
    else
      DecimalRoundTrip(n);
      NatToDecimal(n)
  }

  /** A minus sign written in front of a run of digits. */
  function Negative(digits: string): (r: string)
    ensures |r| == |digits| + 1 && r[0] == '-' && r[1..] == digits
  {
    "-" + digits
  }

  /** The value of a string of decimal digits: the reading direction of `NatToDecimal`. */
  function DigitsValue(s: string): int {
    if s == [] then 0
    else DigitsValue(s[..|s| - 1]) * 10 + (s[|s| - 1] as int - '0' as int)
  }

  /** Reading back a rendered number gives the number. */
  lemma {:induction false} DecimalRoundTrip(n: nat)
    ensures DigitsValue(NatToDecimal(n)) == n
  {
    var r := NatToDecimal(n);
    if n >= 10 {
      DecimalRoundTrip(n / 10);
      assert r[..|r| - 1] == NatToDecimal(n / 10);
    }
  }
}
