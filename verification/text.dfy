/**
 * Text helpers shared by the store, the gateway and the data generator:
 * the invariant upper-casing used to build composite keys and partition keys,
 * and the decimal rendering used by string interpolation and `ToString()`.
 */
module Text {

  /**
   * `char.ToUpper` / invariant upper-casing of one character, on the ASCII
   * letters: a lower-case letter becomes the matching capital, nothing else
   * moves, and the result is never a lower-case letter.
   */
  function UpperChar(c: char): (r: char)
    ensures IsLowerLetter(c) ==> IsUpperLetter(r) && r as int == c as int - 32
    ensures !IsLowerLetter(c) ==> r == c
    ensures !IsLowerLetter(r)
  {
    if 'a' <= c <= 'z' then (c as int - 32) as char else c
  }

  /** `ToUpperInvariant`: a length-preserving map applied character by character. */
  function Upper(s: string): (r: string)
    ensures |r| == |s|
    ensures forall i :: 0 <= i < |s| ==> r[i] == UpperChar(s[i])
  {
    seq(|s|, i requires 0 <= i < |s| => UpperChar(s[i]))
  }

  predicate IsLowerLetter(c: char) { 'a' <= c <= 'z' }
  predicate IsUpperLetter(c: char) { 'A' <= c <= 'Z' }

  /** Upper-casing distributes over concatenation. */
  lemma UpperConcat(a: string, b: string)
    ensures Upper(a + b) == Upper(a) + Upper(b)
  {
    var l, r := Upper(a + b), Upper(a) + Upper(b);
    assert |l| == |r|;
    forall i | 0 <= i < |l| ensures l[i] == r[i] {
      if i < |a| {
        assert (a + b)[i] == a[i];
      } else {
        assert (a + b)[i] == b[i - |a|];
      }
    }
  }

  /** A string without lower-case letters is its own upper-case form. */
  lemma UpperFixed(s: string)
    requires forall i :: 0 <= i < |s| ==> !IsLowerLetter(s[i])
    ensures Upper(s) == s
  {
  }

  // ----- decimal rendering -------------------------------------------------

  function DigitChar(d: nat): char
    requires d < 10
  {
    ('0' as int + d) as char
  }

  function DigitValue(c: char): nat
  {
    if '0' <= c <= '9' then c as int - '0' as int else 0
  }

  predicate IsDigit(c: char) { '0' <= c <= '9' }

  /** Decimal digits without a leading zero (a lone "0" aside). */
  predicate IsCanonicalNumber(s: string)
  {
    && |s| >= 1
    && (forall i :: 0 <= i < |s| ==> IsDigit(s[i]))
    && (s[0] == '0' ==> |s| == 1)
  }

  /** `s` is `prefix` followed by the canonical decimal rendering of `n`. */
  predicate IsNumbered(s: string, prefix: string, n: nat)
  {
    && |prefix| < |s|
    && s[..|prefix|] == prefix
    && IsCanonicalNumber(s[|prefix|..])
    && ParseNat(s[|prefix|..]) == n
  }

  /** Decimal rendering of a natural number, as `{n}` interpolation prints it. */
  function NatToString(n: nat): (s: string)
    ensures IsCanonicalNumber(s)
    ensures s[0] == '0' <==> n == 0
  {
    if n < 10 then [DigitChar(n)] else NatToString(n / 10) + [DigitChar(n % 10)]
  }

  /** Decimal rendering of a signed integer, as `long.ToString()` prints it. */
  function IntToString(n: int): (s: string)
    ensures |s| >= 1
    ensures n < 0 <==> s[0] == '-'
    ensures IsCanonicalNumber(if n < 0 then s[1..] else s)
  {
    if n < 0 then
      var digits := NatToString(-n);
      assert ("-" + digits)[1..] == digits;
      "-" + digits
    else NatToString(n)
  }

  /** Reads back a string of decimal digits. */
  function ParseNat(s: string): nat
  {
    if s == [] then 0 else ParseNat(s[..|s| - 1]) * 10 + DigitValue(s[|s| - 1])
  }

  function ParseInt(s: string): int
  {
    if |s| > 0 && s[0] == '-' then -(ParseNat(s[1..]) as int) else ParseNat(s)
  }

  lemma {:induction false} ParseNatToString(n: nat)
    ensures ParseNat(NatToString(n)) == n
  {
    var s := NatToString(n);
    if n < 10 {
      assert s[..0] == [];
    } else {
      ParseNatToString(n / 10);
      assert s[..|s| - 1] == NatToString(n / 10);
    }
  }

  lemma ParseIntNegative(digits: string)
    ensures ParseInt("-" + digits) == -(ParseNat(digits) as int)
  {
    assert ("-" + digits)[1..] == digits;
  }

  lemma ParseIntDigits(s: string)
    requires |s| > 0 && IsDigit(s[0])
    ensures ParseInt(s) == ParseNat(s)
  {
  }

  /** The decimal rendering of a signed integer reads back to that integer. */
  lemma ParseIntToString(n: int)
    ensures ParseInt(IntToString(n)) == n
  {
    if n < 0 {
      var m: nat := -n;
      var digits := NatToString(m);
      assert IntToString(n) == "-" + digits;
      ParseNatToString(m);
      ParseIntNegative(digits);
      assert ParseInt("-" + digits) == -(m as int);
    } else {
      ParseNatToString(n);
      ParseIntDigits(NatToString(n));
    }
  }

  /** Different numbers have different decimal renderings. */
  lemma NatToStringInjective(m: nat, n: nat)
    requires NatToString(m) == NatToString(n)
    ensures m == n
  {
    ParseNatToString(m);
    ParseNatToString(n);
  }

  /** A fixed prefix followed by a number renders distinct numbers distinctly. */
  lemma PrefixedNumberInjective(p: string, m: nat, n: nat)
    ensures m != n ==> p + NatToString(m) != p + NatToString(n)
  {
    assert NatToString(m) == (p + NatToString(m))[|p|..];
    assert NatToString(n) == (p + NatToString(n))[|p|..];
    ParseNatToString(m);
    ParseNatToString(n);
  }

  /** A canonical decimal string is the rendering of the number it reads as. */
  lemma {:induction false} CanonicalRoundTrip(s: string)
    requires IsCanonicalNumber(s)
    ensures NatToString(ParseNat(s)) == s
    ensures s[0] != '0' ==> ParseNat(s) >= 1
  {
    var n := |s| - 1;
    var init, c := s[..n], s[n];
    if n == 0 {
      assert init == [];
      assert NatToString(ParseNat(s)) == [DigitChar(DigitValue(c))];
    } else {
      assert init[0] == s[0];
      CanonicalRoundTrip(init);
      var p := ParseNat(init);
      var v := p * 10 + DigitValue(c);
      assert ParseNat(s) == v;
      assert v / 10 == p && v % 10 == DigitValue(c);
      assert NatToString(v) == NatToString(p) + [DigitChar(DigitValue(c))];
      assert s == init + [c];
    }
  }

  /** `prefix + NatToString(n)` is numbered `n` after `prefix`. */
  lemma NumberedRendering(prefix: string, n: nat)
    ensures IsNumbered(prefix + NatToString(n), prefix, n)
  {
    var s := prefix + NatToString(n);
    assert s[..|prefix|] == prefix && s[|prefix|..] == NatToString(n);
    ParseNatToString(n);
  }

  /** Being numbered `n` after `prefix` pins the string down: it is `prefix + NatToString(n)`. */
  lemma NumberedExactly(s: string, prefix: string, n: nat)
    requires IsNumbered(s, prefix, n)
    ensures s == prefix + NatToString(n)
  {
    CanonicalRoundTrip(s[|prefix|..]);
    assert s == s[..|prefix|] + s[|prefix|..];
  }
}
