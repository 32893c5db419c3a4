/** The string handling the views rely on: trimming whitespace and newlines
    (`trimmingCharacters(in: .whitespacesAndNewlines)`) and printing an integer
    in decimal (string interpolation `"\(n)"`). */
module Text {

  /** The members of Foundation's `whitespacesAndNewlines` set that this model knows. */
  predicate IsWhitespace(c: char) {
    c == ' ' || c == '\t' || c == '\n' || c == '\r' || c == '\U{000B}' || c == '\U{000C}'
    || c == '\U{0085}' || c == '\U{00A0}' || c == '\U{1680}' || ('\U{2000}' <= c <= '\U{200A}')
    || c == '\U{2028}' || c == '\U{2029}' || c == '\U{202F}' || c == '\U{205F}' || c == '\U{3000}'
  }

  predicate AllWhitespace(s: string) {
    forall i :: 0 <= i < |s| ==> IsWhitespace(s[i])
  }

  /** Number of whitespace characters at the start of `s`. */
  function LeadingWhitespace(s: string): (k: nat)
    ensures k <= |s|
    ensures AllWhitespace(s[..k])
    ensures k < |s| ==> !IsWhitespace(s[k])
  {
    if s == [] || !IsWhitespace(s[0]) then 0
    else
      var k' := LeadingWhitespace(s[1..]);
      assert s[..1 + k'] == [s[0]] + s[1..][..k'];
      1 + k'
  }

  /** Number of whitespace characters at the end of `s`. */
  function TrailingWhitespace(s: string): (k: nat)
    ensures k <= |s|
    ensures AllWhitespace(s[|s| - k..])
    ensures k < |s| ==> !IsWhitespace(s[|s| - 1 - k])
  {
    if s == [] || !IsWhitespace(s[|s| - 1]) then 0
    else
      var init := s[..|s| - 1];
      var k' := TrailingWhitespace(init);
      assert s[|s| - (1 + k')..] == init[|init| - k'..] + [s[|s| - 1]];
      1 + k'
  }

  /** `s` without its leading and trailing whitespace. */
  function Trim(s: string): (r: string)
    ensures r == [] <==> AllWhitespace(s)
    ensures r != [] ==> !IsWhitespace(r[0]) && !IsWhitespace(r[|r| - 1])
    ensures exists i, j :: 0 <= i <= j <= |s| && r == s[i..j] && AllWhitespace(s[..i]) && AllWhitespace(s[j..])
  {
    var a := LeadingWhitespace(s);
    var rest := s[a..];
    var b := TrailingWhitespace(rest);
    var r := rest[..|rest| - b];
    assert r == s[a..|s| - b];
    assert s[|s| - b..] == rest[|rest| - b..];
    assert r == [] ==> forall i :: 0 <= i < |s| ==> IsWhitespace(s[i]) by {
      if r == [] {
        assert s == s[..a];
      }
    }
    r
  }

  /** A title the forms accept: something other than whitespace remains after trimming. */
  predicate HasContent(s: string) {
    Trim(s) != []
  }

  /** The content test holds exactly when some character is not whitespace. */
  lemma HasContentIffVisibleChar(s: string)
    ensures HasContent(s) <==> exists i :: 0 <= i < |s| && !IsWhitespace(s[i])
  {
  }

  function DigitChar(d: nat): (c: char)
    requires d < 10
    ensures '0' <= c <= '9' && c as int - '0' as int == d
  {
    (d + '0' as int) as char
  }

  predicate IsDigits(s: string) {
    forall i :: 0 <= i < |s| ==> '0' <= s[i] <= '9'
  }

  /** The decimal text of `n` with no leading zeros, as Swift interpolation prints it. */
  function NatToString(n: nat): (s: string)
    ensures |s| >= 1 && IsDigits(s)
    ensures |s| > 1 ==> s[0] != '0'
  {
    if n < 10 then [DigitChar(n)]
    else
      var p := NatToString(n / 10);
      assert (p + [DigitChar(n % 10)])[0] == p[0];
      p + [DigitChar(n % 10)]
  }

  /** The number a string of decimal digits denotes. */
  function DecimalValue(s: string): nat
    requires IsDigits(s)
  {
    if s == [] then 0
    else DecimalValue(s[..|s| - 1]) * 10 + (s[|s| - 1] as int - '0' as int)
  }

  /** Reading back the printed decimal gives the number. */
  lemma {:induction false} DecimalRoundTrip(n: nat)
    ensures DecimalValue(NatToString(n)) == n
  {
    if n >= 10 {
      var s := NatToString(n);
      assert s[..|s| - 1] == NatToString(n / 10);
      DecimalRoundTrip(n / 10);
    }
  }

  /** Different numbers print differently. */
  lemma NatToStringInjective(a: nat, b: nat)
    ensures NatToString(a) == NatToString(b) ==> a == b
  {
    DecimalRoundTrip(a);
    DecimalRoundTrip(b);
  }

  /** A canonical decimal: at least one digit, and no leading zero unless it is the only digit. */
  predicate Canonical(d: string) {
    |d| >= 1 && IsDigits(d) && (|d| > 1 ==> d[0] != '0')
  }

  /** `t` is the canonical decimal text of `n`: digits denoting `n`, after a '-' when `n` is negative. */
  predicate ShowsInt(t: string, n: int) {
    if n < 0 then |t| >= 1 && t[0] == '-' && Canonical(t[1..]) && DecimalValue(t[1..]) == -n
    else Canonical(t) && DecimalValue(t) == n
  }

  /** Digits that do not start with '0' denote a positive number. */
  lemma {:induction false} LeadingNonZeroPositive(d: string)
    requires |d| >= 1 && IsDigits(d) && d[0] != '0'
    ensures DecimalValue(d) >= 1
  {
    if |d| > 1 {
      assert d[..|d| - 1][0] == d[0];
      LeadingNonZeroPositive(d[..|d| - 1]);
    }
  }

  /** A canonical decimal is the one `NatToString` prints for its value: the text is unique. */
  lemma {:induction false} CanonicalIsNatToString(d: string)
    requires Canonical(d)
    ensures d == NatToString(DecimalValue(d))
  {
    if |d| > 1 {
      var p := d[..|d| - 1];
      var r := d[|d| - 1] as int - '0' as int;
      assert p[0] == d[0];
      LeadingNonZeroPositive(p);
      CanonicalIsNatToString(p);
      var q := DecimalValue(p);
      var v := q * 10 + r;
      assert DecimalValue(d) == v;
      assert v / 10 == q && v % 10 == r by { LastDigit(q, r); }
      assert NatToString(v) == NatToString(q) + [DigitChar(r)];
      assert d == p + [d[|d| - 1]];
    }
  }

  /** Appending digit `r` to `q` and splitting it off again gives back both. */
  lemma LastDigit(q: nat, r: nat)
    requires r < 10
    ensures (q * 10 + r) / 10 == q && (q * 10 + r) % 10 == r
  {
  }

  /** `ShowsInt` pins the text down: it holds only for the text `IntToString` prints. */
  lemma ShowsIntUnique(t: string, n: int)
    requires ShowsInt(t, n)
    ensures t == IntToString(n)
  {
    if n < 0 {
      CanonicalIsNatToString(t[1..]);
      assert t == [t[0]] + t[1..];
    } else {
      CanonicalIsNatToString(t);
    }
  }

  /** The decimal text of `i`, with a leading '-' when negative. */
  function IntToString(i: int): (s: string)
    ensures |s| >= 1
    ensures s[0] == '-' <==> i < 0
    ensures ShowsInt(s, i)
  {
    if i < 0 then
      DecimalRoundTrip(-i);
      assert ("-" + NatToString(-i))[1..] == NatToString(-i);
      "-" + NatToString(-i)
    else
      DecimalRoundTrip(i);
      NatToString(i)
  }

  /** Two texts that each start with a run of digits followed by the same non-digit marker are equal
      only if the digit runs are equal and so are the rests: the marker fixes where the number ends. */
  lemma {:induction false} SplitAfterDigits(a: string, x: string, b: string, y: string, marker: char)
    requires IsDigits(a) && IsDigits(b) && !('0' <= marker <= '9')
    requires a + [marker] + x == b + [marker] + y
    ensures a == b && x == y
  {
    var s := a + [marker] + x;
    assert s == b + [marker] + y;
    assert s[|a|] == marker && s[|b|] == marker;
    assert forall i :: 0 <= i < |a| ==> s[i] == a[i];
    assert forall i :: 0 <= i < |b| ==> s[i] == b[i];
    assert |a| == |b|;
    assert a == s[..|a|] && b == s[..|b|];
    assert x == s[|a| + 1..] && y == s[|b| + 1..];
  }
}
