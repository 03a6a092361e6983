/** The two string operations the handlers apply to their fields:
    `String.prototype.toUpperCase` (on currency codes and frequencies) and the
    decimal rendering of a non-negative integer by `String(n)` / `n.toString()`
    (on intervals and cycle counts). Only the ASCII letters are case-mapped. */
module Text {

  predicate IsLower(c: char)
  {
    'a' <= c <= 'z'
  }

  /** The upper-case form of one character; anything but `a`..`z` is kept. */
  function UpperChar(c: char): (u: char)
    ensures !IsLower(u)
    ensures IsLower(c) ==> u as int == c as int - 32
    ensures !IsLower(c) ==> u == c
  {
    if IsLower(c) then (c as int - 32) as char else c
  }

  /** `s.toUpperCase()` */
  function Upper(s: string): (r: string)
    ensures |r| == |s|
    ensures forall i :: 0 <= i < |s| ==> r[i] == UpperChar(s[i])
  {
    if s == [] then [] else [UpperChar(s[0])] + Upper(s[1..])
  }

  /** No character of `s` is a lower-case ASCII letter. */
  predicate IsUpper(s: string)
  {
    forall i :: 0 <= i < |s| ==> !IsLower(s[i])
  }

  /** Upper-casing yields an upper-case string. */
  lemma UpperIsUpper(s: string)
    ensures IsUpper(Upper(s))
  {
  }

  /** An upper-case string is its own upper-case form. */
  lemma {:induction false} UpperFixesUpper(s: string)
    requires IsUpper(s)
    ensures Upper(s) == s
  {
    if s != [] {
      assert IsUpper(s[1..]) by {
        forall i | 0 <= i < |s[1..]| ensures !IsLower(s[1..][i]) {
          assert s[1..][i] == s[i + 1];
        }
      }
      UpperFixesUpper(s[1..]);
      assert !IsLower(s[0]);
    }
  }

  /** Normalising twice gives the same code as normalising once. */
  lemma UpperIdempotent(s: string)
    ensures Upper(Upper(s)) == Upper(s)
  {
    UpperIsUpper(s);
    UpperFixesUpper(Upper(s));
  }

  function DigitChar(d: nat): (c: char)
    requires d < 10
    ensures '0' <= c <= '9'
  {
    ('0' as int + d) as char
  }

  function DigitValue(c: char): (d: nat)
    requires '0' <= c <= '9'
    ensures d < 10 && DigitChar(d) == c
  {
    c as int - '0' as int
  }

  predicate IsDigits(s: string)
  {
    forall i :: 0 <= i < |s| ==> '0' <= s[i] <= '9'
  }

  /** `String(n)` for a non-negative integer `n`: its decimal digits, without leading zeros. */
  function DecimalText(n: nat): (s: string)
    ensures |s| >= 1 && IsDigits(s)
    ensures |s| > 1 ==> s[0] != '0'
  {
    if n < 10 then [DigitChar(n)] else DecimalText(n / 10) + [DigitChar(n % 10)]
  }

  /** Reads a string of decimal digits back as a number. */
  function ParseDecimal(s: string): (n: nat)
    requires IsDigits(s)
  {
    if s == [] then 0 else ParseDecimal(s[..|s| - 1]) * 10 + DigitValue(s[|s| - 1])
  }

  /** Rendering an integer and reading it back gives the integer. */
  lemma {:induction false} DecimalRoundTrip(n: nat)
    ensures ParseDecimal(DecimalText(n)) == n
  {
    var s := DecimalText(n);
    if n < 10 {
      assert s[..0] == [];
    } else {
      var prefix := DecimalText(n / 10);
      assert s[..|s| - 1] == prefix;
      DecimalRoundTrip(n / 10);
    }
  }

  /** Distinct integers render to distinct strings. */
  lemma DecimalInjective(m: nat, n: nat)
    requires DecimalText(m) == DecimalText(n)
    ensures m == n
  {
    DecimalRoundTrip(m);
    DecimalRoundTrip(n);
  }
}
