/**
 The two JavaScript built-ins on text that the bot relies on:
 `String.prototype.trim` (applied to every inbound message) and the
 conversion of a non-negative integer to its decimal text (the `${used}`
 and `${DAILY_LIMIT}` template substitutions).
 */
module JsText {

  /** ECMAScript WhiteSpace and LineTerminator code points: what `trim` removes. */
  predicate IsWhiteSpace(c: char)
  {
    || c == '\t' || c == '\n' || c == '\U{000B}' || c == '\U{000C}' || c == '\r'
    || c == ' ' || c == '\U{00A0}' || c == '\U{1680}'
    || ('\U{2000}' <= c <= '\U{200A}')
    || c == '\U{2028}' || c == '\U{2029}' || c == '\U{202F}' || c == '\U{205F}'
    || c == '\U{3000}' || c == '\U{FEFF}'
  }

  ghost predicate AllWhiteSpace(s: string)
  {
    forall i :: 0 <= i < |s| ==> IsWhiteSpace(s[i])
  }

  /** Length of the run of white space at the start of `s`. */
  function LeadingSpace(s: string): (n: nat)
    ensures n <= |s|
    ensures AllWhiteSpace(s[..n])
    ensures n < |s| ==> !IsWhiteSpace(s[n])
  {
    if |s| == 0 || !IsWhiteSpace(s[0]) then 0
    else
      var k := LeadingSpace(s[1..]);
      assert s[1..][..k] == s[1..k + 1];
      1 + k
  }

  /** Length of the run of white space at the end of `s`. */
  function TrailingSpace(s: string): (n: nat)
    ensures n <= |s|
    ensures AllWhiteSpace(s[|s| - n..])
    ensures n < |s| ==> !IsWhiteSpace(s[|s| - n - 1])
  {
    if |s| == 0 || !IsWhiteSpace(s[|s| - 1]) then 0
    else
      var k := TrailingSpace(s[..|s| - 1]);
      assert s[..|s| - 1][|s| - 1 - k..] == s[|s| - 1 - k..|s| - 1];
      1 + k
  }

  /**
   `s.trim()`: the slice of `s` that starts after its leading white space and
   leaves out its trailing white space.
   */
  function Trim(s: string): (r: string)
    ensures LeadingSpace(s) + |r| <= |s|
    ensures r == s[LeadingSpace(s)..LeadingSpace(s) + |r|]
    ensures AllWhiteSpace(s[LeadingSpace(s) + |r|..])
    ensures r == [] <==> AllWhiteSpace(s)
    ensures r != [] ==> !IsWhiteSpace(r[0]) && !IsWhiteSpace(r[|r| - 1])
  {
    var start := LeadingSpace(s);
    var rest := s[start..];
    var r := rest[..|rest| - TrailingSpace(rest)];
    assert rest[|rest| - TrailingSpace(rest)..] == s[start + |r|..];
    assert r == [] ==> s == s[..start] + rest[|rest| - TrailingSpace(rest)..];
    r
  }

  /** Trimming twice is trimming once. */
  lemma TrimIdempotent(s: string)
    ensures Trim(Trim(s)) == Trim(s)
  {
    var r := Trim(s);
    if r != [] {
      assert LeadingSpace(r) == 0;
      assert TrailingSpace(r) == 0;
    }
  }

  /** A white-space run followed by other text is exactly the leading white space. */
  lemma {:induction false} LeadingSpaceIs(x: string, k: nat)
    requires k < |x| && AllWhiteSpace(x[..k]) && !IsWhiteSpace(x[k])
    ensures LeadingSpace(x) == k
    decreases k
  {
    if k > 0 {
      assert x[..k][0] == x[0];
      assert x[1..][..k - 1] == x[1..k];
      LeadingSpaceIs(x[1..], k - 1);
    }
  }

  /** Other text followed by a white-space run of length k ends in exactly k white space. */
  lemma {:induction false} TrailingSpaceIs(x: string, k: nat)
    requires k < |x| && AllWhiteSpace(x[|x| - k..]) && !IsWhiteSpace(x[|x| - k - 1])
    ensures TrailingSpace(x) == k
    decreases k
  {
    if k > 0 {
      assert x[|x| - k..][k - 1] == x[|x| - 1];
      var y := x[..|x| - 1];
      assert y[|y| - (k - 1)..] == x[|x| - k..|x| - 1];
      TrailingSpaceIs(y, k - 1);
    }
  }

  /**
   Trimming removes exactly the surrounding white space: text with no
   white space at either end comes back unchanged from between any blanks.
   */
  lemma TrimStrips(before: string, s: string, after: string)
    requires AllWhiteSpace(before) && AllWhiteSpace(after)
    requires s != [] && !IsWhiteSpace(s[0]) && !IsWhiteSpace(s[|s| - 1])
    ensures Trim(before + s + after) == s
  {
    var x := before + s + after;
    assert x[..|before|] == before;
    LeadingSpaceIs(x, |before|);
    var rest := x[|before|..];
    assert rest == s + after;
    assert rest[|rest| - |after|..] == after;
    TrailingSpaceIs(rest, |after|);
    assert rest[..|s|] == s;
  }

  function DigitChar(d: nat): (c: char)
    requires d < 10
    ensures '0' <= c <= '9'
  {
    ['0', '1', '2', '3', '4', '5', '6', '7', '8', '9'][d]
  }

  function DigitValue(c: char): nat
    requires '0' <= c <= '9'
  {
    (c as int - '0' as int) as nat
  }

  /** Decimal value of a string of digits: the reading a user makes of the reply. */
  function DecimalValue(s: string): nat
    requires forall i :: 0 <= i < |s| ==> '0' <= s[i] <= '9'
  {
    if s == [] then 0 else 10 * DecimalValue(s[..|s| - 1]) + DigitValue(s[|s| - 1])
  }

  /**
   JavaScript's conversion of a non-negative integer to text: decimal digits,
   most significant first, with no leading zero unless the number is 0.
   */
  function Decimal(n: nat): (s: string)
    ensures |s| > 0
    ensures forall i :: 0 <= i < |s| ==> '0' <= s[i] <= '9'
    ensures s[0] == '0' ==> n == 0 && s == "0"
  {
    if n < 10 then [DigitChar(n)] else Decimal(n / 10) + [DigitChar(n % 10)]
  }

  /** Reading back the digits gives the number: the conversion loses nothing. */
  lemma {:induction false} DecimalRoundTrip(n: nat)
    ensures DecimalValue(Decimal(n)) == n
  {
    var s := Decimal(n);
    if n < 10 {
      assert DigitValue(DigitChar(n)) == n;
    } else {
      assert s[..|s| - 1] == Decimal(n / 10);
      DecimalRoundTrip(n / 10);
      assert DigitValue(DigitChar(n % 10)) == n % 10;
    }
  }

  /** Different numbers are shown as different texts. */
  lemma DecimalInjective(m: nat, n: nat)
    requires Decimal(m) == Decimal(n)
    ensures m == n
  {
    DecimalRoundTrip(m);
    DecimalRoundTrip(n);
  }
}
