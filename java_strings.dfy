/** The few java.lang.String operations the configuration rules rely on. */
module JavaStrings {
  import opened Wrappers

  /** `s != null && !s.isEmpty()` */
  predicate NonEmpty(s: Option<string>) {
    s.Some? && s.value != ""
  }

  /** Leading characters at or below U+0020 removed, as the first half of `String.trim()`. */
  function TrimStart(s: string): (r: string)
    ensures |r| <= |s| && r == s[|s| - |r|..]
    ensures forall i :: 0 <= i < |s| - |r| ==> s[i] <= ' '
    ensures r != [] ==> r[0] > ' '
    decreases |s|
  {
    if s != [] && s[0] <= ' ' then TrimStart(s[1..]) else s
  }

  /** Trailing characters at or below U+0020 removed, as the second half of `String.trim()`. */
  function TrimEnd(s: string): (r: string)
    ensures |r| <= |s| && r == s[..|r|]
    ensures forall i :: |r| <= i < |s| ==> s[i] <= ' '
    ensures r != [] ==> r[|r| - 1] > ' '
    decreases |s|
  {
    if s != [] && s[|s| - 1] <= ' ' then TrimEnd(s[..|s| - 1]) else s
  }

  /** `String.trim()` */
  function Trim(s: string): string {
    TrimEnd(TrimStart(s))
  }

  /**
   * `s.trim().isEmpty()`: every character is a control character or space.
   * BlankIffTrimEmpty ties it to Trim.
   */
  predicate IsBlank(s: string)
    decreases |s|
  {
    s == [] || (s[0] <= ' ' && IsBlank(s[1..]))
  }

  /** A string is blank exactly when every character is at or below U+0020. */
  lemma {:induction false} BlankIffWhitespace(s: string)
    ensures IsBlank(s) <==> forall i :: 0 <= i < |s| ==> s[i] <= ' '
    decreases |s|
  {
    if s != [] {
      BlankIffWhitespace(s[1..]);
      assert forall i :: 1 <= i < |s| ==> s[i] == s[1..][i - 1];
    }
  }

  /** A string of control characters and spaces trims to nothing. */
  lemma TrimOfWhitespace(s: string)
    requires forall i :: 0 <= i < |s| ==> s[i] <= ' '
    ensures Trim(s) == ""
  {
  }

  /** A string that trims to nothing holds only control characters and spaces. */
  lemma WhitespaceOfTrim(s: string)
    requires Trim(s) == ""
    ensures forall i :: 0 <= i < |s| ==> s[i] <= ' '
  {
  }

  /** Blank strings are exactly those that `String.trim()` empties. */
  lemma BlankIffTrimEmpty(s: string)
    ensures IsBlank(s) <==> Trim(s) == ""
  {
    BlankIffWhitespace(s);
    if IsBlank(s) {
      TrimOfWhitespace(s);
    } else if Trim(s) == "" {
      WhitespaceOfTrim(s);
    }
  }

  /** `s.contains(part)`: part occurs at some position of s. */
  predicate Contains(s: string, part: string)
    decreases |s|
  {
    part <= s || (s != [] && Contains(s[1..], part))
  }

  /** Contains holds exactly when part is a prefix of some suffix of s. */
  lemma {:induction false} ContainsIffSubstring(s: string, part: string)
    ensures Contains(s, part) <==> exists i :: 0 <= i <= |s| - |part| && part <= s[i..]
    decreases |s|
  {
    if part <= s {
      assert part <= s[0..];
    } else if s != [] {
      ContainsIffSubstring(s[1..], part);
      assert forall i :: 1 <= i <= |s| - |part| ==> s[i..] == s[1..][i - 1..];
      if Contains(s[1..], part) {
        var j :| 0 <= j <= |s| - 1 - |part| && part <= s[1..][j..];
        assert part <= s[j + 1..];
      }
      if exists i :: 0 <= i <= |s| - |part| && part <= s[i..] {
        var i :| 0 <= i <= |s| - |part| && part <= s[i..];
        assert i != 0;
        assert part <= s[1..][i - 1..];
      }
    }
  }

  function DigitChar(d: nat): char
    requires d < 10
  {
    "0123456789"[d]
  }

  /** Decimal rendering of a non-negative number, most significant digit first. */
  function NatToString(n: nat): (r: string)
    ensures |r| >= 1 && forall i :: 0 <= i < |r| ==> '0' <= r[i] <= '9'
  {
    if n < 10 then [DigitChar(n)] else NatToString(n / 10) + [DigitChar(n % 10)]
  }

  /**
   * Decimal with a leading minus sign, as string concatenation writes an
   * `int`; `String.format("%d", n)` agrees in a locale with ASCII digits and no
   * grouping, the only kind this model covers.
   */
  function IntToString(n: int): (r: string)
    ensures |r| >= 1
  {
    if n < 0 then "-" + NatToString(-n) else NatToString(n)
  }

  /** The value of a string of decimal digits, read left to right. */
  function DigitsValue(s: string): int {
    if s == [] then 0 else DigitsValue(s[..|s| - 1]) * 10 + (s[|s| - 1] as int - '0' as int)
  }

  /** `Integer.parseInt` on what IntToString produces. */
  function ParseInt(s: string): int {
    if |s| > 0 && s[0] == '-' then -DigitsValue(s[1..]) else DigitsValue(s)
  }

  lemma {:induction false} NatToStringRoundTrip(n: nat)
    ensures DigitsValue(NatToString(n)) == n
  {
    if n >= 10 {
      NatToStringRoundTrip(n / 10);
      var s := NatToString(n / 10) + [DigitChar(n % 10)];
      assert s[..|s| - 1] == NatToString(n / 10);
    }
  }

  /** A rendering without a sign is read back as is. */
  lemma ParseUnsigned(n: nat)
    ensures ParseInt(NatToString(n)) == n
  {
    NatToStringRoundTrip(n);
    var s := NatToString(n);
    assert '0' <= s[0];
  }

  /** A minus sign in front of a rendering negates the value read back. */
  lemma ParseSigned(n: nat)
    ensures ParseInt("-" + NatToString(n)) == -(n as int)
  {
    NatToStringRoundTrip(n);
    var s := "-" + NatToString(n);
    assert s[1..] == NatToString(n);
  }

  /** Decimal rendering loses nothing: the number can be read back from it. */
  lemma IntToStringRoundTrip(n: int)
    ensures ParseInt(IntToString(n)) == n
  {
    if n < 0 {
      ParseSigned(-n);
      assert IntToString(n) == "-" + NatToString(-n);
    } else {
      ParseUnsigned(n);
      assert IntToString(n) == NatToString(n);
    }
  }
}
