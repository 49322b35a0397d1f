/**
 * String helpers with JavaScript meaning: `String.prototype.includes`,
 * decimal formatting of a number inside a template literal, and the
 * ASCII character classes the regular expressions of the system use.
 */
module Strs {

  predicate IsPrefix(p: string, s: string)
  {
    |p| <= |s| && s[..|p|] == p
  }

  predicate IsSuffix(p: string, s: string)
  {
    |p| <= |s| && s[|s| - |p|..] == p
  }

  /** `s.includes(needle)`: the needle occurs somewhere in `s` (an empty needle always does). */
  predicate Contains(s: string, needle: string)
    decreases |s|
  {
    IsPrefix(needle, s) || (|s| > 0 && Contains(s[1..], needle))
  }

  /** Declarative reading of an occurrence: `needle` starts at offset `i` of `s`. */
  ghost predicate OccursAt(s: string, needle: string, i: int)
  {
    0 <= i && i + |needle| <= |s| && s[i..i + |needle|] == needle
  }

  /** The scan `Contains` finds a needle exactly when it occurs at some offset. */
  lemma {:induction false} ContainsIffOccurs(s: string, needle: string)
    ensures Contains(s, needle) <==> exists i :: OccursAt(s, needle, i)
    decreases |s|
  {
    if Contains(s, needle) {
      if IsPrefix(needle, s) {
        assert OccursAt(s, needle, 0);
      } else {
        ContainsIffOccurs(s[1..], needle);
        var i :| OccursAt(s[1..], needle, i);
        assert s[1..][i..i + |needle|] == s[i + 1..i + 1 + |needle|];
        assert OccursAt(s, needle, i + 1);
      }
    }
    if exists i :: OccursAt(s, needle, i) {
      var i :| OccursAt(s, needle, i);
      if i == 0 {
        assert IsPrefix(needle, s);
      } else {
        assert s[1..][i - 1..i - 1 + |needle|] == s[i..i + |needle|];
        assert OccursAt(s[1..], needle, i - 1);
        ContainsIffOccurs(s[1..], needle);
      }
    }
  }

  /** A needle placed anywhere inside a string is found by `includes`. */
  lemma ContainsInfix(a: string, needle: string, b: string)
    ensures Contains(a + needle + b, needle)
  {
    var s := a + needle + b;
    assert s[|a|..|a| + |needle|] == needle;
    assert OccursAt(s, needle, |a|);
    ContainsIffOccurs(s, needle);
  }

  /** A needle found in `s` is found in any string that contains `s`. */
  lemma ContainsWidened(a: string, s: string, b: string, needle: string)
    ensures Contains(s, needle) ==> Contains(a + s + b, needle)
  {
    ContainsIffOccurs(s, needle);
    if Contains(s, needle) {
      var i :| OccursAt(s, needle, i);
      var w := a + s + b;
      assert w[|a| + i..|a| + i + |needle|] == s[i..i + |needle|];
      assert OccursAt(w, needle, |a| + i);
      ContainsIffOccurs(w, needle);
    }
  }

  /** Every character of a needle that is found occurs in the string. */
  lemma CharOfContained(s: string, needle: string, k: nat)
    requires k < |needle|
    ensures Contains(s, needle) ==> needle[k] in s
  {
    ContainsIffOccurs(s, needle);
    if Contains(s, needle) {
      var i :| OccursAt(s, needle, i);
      assert s[i + k] == s[i..i + |needle|][k];
    }
  }

  /** A string shorter than the needle cannot contain it. */
  lemma ContainsNeedsLength(s: string, needle: string)
    ensures Contains(s, needle) ==> |needle| <= |s|
  {
    ContainsIffOccurs(s, needle);
  }

  // ---------------------------------------------------------------------------
  // Decimal digits

  predicate IsDigit(c: char)
  {
    '0' <= c <= '9'
  }

  function DigitChar(d: nat): (c: char)
    requires d < 10
    ensures IsDigit(c)
  {
    (('0' as int) + d) as char
  }

  function DigitValue(c: char): (d: nat)
    requires IsDigit(c)
    ensures d < 10
  {
    (c as int) - ('0' as int)
  }

  predicate AllDigits(s: string)
  {
    forall i :: 0 <= i < |s| ==> IsDigit(s[i])
  }

  /** `${n}` for a non-negative integer: its shortest decimal spelling. */
  function NatToString(n: nat): (r: string)
    ensures |r| >= 1 && AllDigits(r)
    ensures r[0] == '0' <==> n == 0
    decreases n
  {
    if n < 10 then [DigitChar(n)] else NatToString(n / 10) + [DigitChar(n % 10)]
  }

  /** Reads a decimal digit string back as a number (`parseInt(s, 10)` on digit-only input). */
  function ParseNat(s: string): nat
    requires AllDigits(s)
  {
    if |s| == 0 then 0 else ParseNat(s[..|s| - 1]) * 10 + DigitValue(s[|s| - 1])
  }

  /** Formatting then parsing gives the number back. */
  lemma {:induction false} ParseNatToString(n: nat)
    ensures ParseNat(NatToString(n)) == n
    decreases n
  {
    var r := NatToString(n);
    if n >= 10 {
      ParseNatToString(n / 10);
      assert r[..|r| - 1] == NatToString(n / 10);
    }
  }

  /** Distinct numbers are spelled differently. */
  lemma NatToStringInjective(a: nat, b: nat)
    ensures NatToString(a) == NatToString(b) ==> a == b
  {
    ParseNatToString(a);
    ParseNatToString(b);
  }

  /** The number of leading decimal digits of `s`. */
  function LeadingDigits(s: string): (n: nat)
    ensures n <= |s| && AllDigits(s[..n])
    decreases |s|
  {
    if |s| == 0 || !IsDigit(s[0]) then 0
    else
      var n := 1 + LeadingDigits(s[1..]);
      assert s[..n] == [s[0]] + s[1..][..n - 1];
      n
  }

  /** Digits followed by a non-digit: the leading digits are exactly the digit part. */
  lemma {:induction false} LeadingDigitsOfSplit(a: string, x: string)
    requires AllDigits(a) && |x| > 0 && !IsDigit(x[0])
    ensures LeadingDigits(a + x) == |a|
    decreases |a|
  {
    if |a| == 0 {
      assert a + x == x;
    } else {
      assert (a + x)[0] == a[0];
      assert (a + x)[1..] == a[1..] + x;
      LeadingDigitsOfSplit(a[1..], x);
    }
  }

  /**
   * A digit string followed by text that starts with a non-digit can be split
   * in only one way: where the digits end.
   */
  lemma DigitsCancel(a: string, x: string, b: string, y: string)
    requires AllDigits(a) && AllDigits(b)
    requires |x| > 0 && |y| > 0 && !IsDigit(x[0]) && !IsDigit(y[0])
    requires a + x == b + y
    ensures a == b && x == y
  {
    LeadingDigitsOfSplit(a, x);
    LeadingDigitsOfSplit(b, y);
    assert a == (a + x)[..|a|];
    assert b == (b + y)[..|b|];
    assert x == (a + x)[|a|..];
    assert y == (b + y)[|b|..];
  }

  /** Two strings in the same frame are equal exactly when what they frame is. */
  lemma FrameCancels(head: string, a: string, b: string, tail: string)
    ensures head + a + tail == head + b + tail <==> a == b
  {
    if head + a + tail == head + b + tail {
      assert |a| == |b|;
      assert a == (head + a + tail)[|head|..|head| + |a|];
      assert b == (head + b + tail)[|head|..|head| + |b|];
    }
  }

  // ---------------------------------------------------------------------------
  // ASCII letter classes

  predicate IsLower(c: char) { 'a' <= c <= 'z' }
  predicate IsUpper(c: char) { 'A' <= c <= 'Z' }

  /** What the case-insensitive class `[a-z0-9]` matches. */
  predicate IsAlnum(c: char) { IsLower(c) || IsUpper(c) || IsDigit(c) }

  /** What `\w` matches: `[A-Za-z0-9_]`. */
  predicate IsWordChar(c: char) { IsAlnum(c) || c == '_' }

  function ToLower(c: char): (r: char)
    ensures IsUpper(c) ==> IsLower(r)
    ensures !IsUpper(c) ==> r == c
  {
    if IsUpper(c) then ((c as int) + 32) as char else c
  }

  function ToUpper(c: char): (r: char)
    ensures IsLower(c) ==> IsUpper(r)
    ensures !IsLower(c) ==> r == c
  {
    if IsLower(c) then ((c as int) - 32) as char else c
  }

}
