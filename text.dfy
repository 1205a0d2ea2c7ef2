/** Decimal rendering of numbers and `Array.prototype.join`, as the
    controllers use them when they build their error messages, together with
    the reading-back functions that show the rendered index lists are
    unambiguous. */
module Text {

  predicate IsDigit(c: char) { '0' <= c <= '9' }

  predicate AllDigits(s: string) { forall i :: 0 <= i < |s| ==> IsDigit(s[i]) }

  function DigitChar(d: nat): (c: char)
    requires d < 10
    ensures IsDigit(c)
  {
    ('0' as int + d) as char
  }

  function DigitValue(c: char): (d: nat)
    requires IsDigit(c)
    ensures d < 10
  {
    c as int - '0' as int
  }

  /** `String(n)` for a non-negative integer: decimal digits, most significant
      first, without leading zeros. */
  function NatToString(n: nat): (s: string)
    ensures |s| > 0 && AllDigits(s)
    ensures s[0] == '0' ==> n == 0
  {
    if n < 10 then [DigitChar(n)] else NatToString(n / 10) + [DigitChar(n % 10)]
  }

  /** `String(n)` for any integer. */
  function IntToString(n: int): string
  {
    if n < 0 then "-" + NatToString(-n) else NatToString(n)
  }

  /** The value of a string of decimal digits. */
  function ParseNat(s: string): nat
    requires AllDigits(s)
  {
    if |s| == 0 then 0 else ParseNat(s[..|s| - 1]) * 10 + DigitValue(s[|s| - 1])
  }

  /** Reading a rendered number back gives the number. */
  lemma {:induction false} ParseNatToString(n: nat)
    ensures ParseNat(NatToString(n)) == n
  {
    var s := NatToString(n);
    if n >= 10 {
      ParseNatToString(n / 10);
      assert s[..|s| - 1] == NatToString(n / 10);
      assert DigitValue(s[|s| - 1]) == n % 10;
    } else {
      assert DigitValue(s[0]) == n;
    }
  }

  /** `parts.join(sep)`. */
  function Join(parts: seq<string>, sep: string): string
  {
    if |parts| == 0 then ""
    else if |parts| == 1 then parts[0]
    else Join(parts[..|parts| - 1], sep) + sep + parts[|parts| - 1]
  }

  function NatStrings(xs: seq<nat>): seq<string>
  {
    seq(|xs|, i requires 0 <= i < |xs| => NatToString(xs[i]))
  }

  /** The length of the longest run of digits that ends the string. */
  function DigitSuffixLength(s: string): (k: nat)
    ensures k <= |s|
    ensures AllDigits(s[|s| - k..])
    ensures k < |s| ==> !IsDigit(s[|s| - k - 1])
  {
    if |s| == 0 || !IsDigit(s[|s| - 1]) then 0
    else
      var k := DigitSuffixLength(s[..|s| - 1]);
      DigitSuffixGrows(s, k);
      k + 1
  }

  /** A digit run ending the string without its last character grows by one
      when that last character is a digit. */
  lemma DigitSuffixGrows(s: string, k: nat)
    requires |s| > 0 && IsDigit(s[|s| - 1]) && k <= |s| - 1
    requires AllDigits(s[..|s| - 1][|s| - 1 - k..])
    requires k < |s| - 1 ==> !IsDigit(s[..|s| - 1][|s| - 1 - k - 1])
    ensures AllDigits(s[|s| - (k + 1)..])
    ensures k + 1 < |s| ==> !IsDigit(s[|s| - k - 2])
  {
    var t := s[..|s| - 1];
    var u := s[|s| - (k + 1)..];
    forall i | 0 <= i < |u| ensures IsDigit(u[i]) {
      if i < k {
        assert u[i] == t[|s| - 1 - k..][i];
      }
    }
    if k + 1 < |s| {
      assert t[|s| - 1 - k - 1] == s[|s| - k - 2];
    }
  }

  /** Reads back a list of numbers written by `Join(NatStrings(xs), ", ")`:
      decimal numbers separated by exactly a comma and a space. */
  function ParseNatList(s: string): seq<nat>
    decreases |s|
  {
    var k := DigitSuffixLength(s);
    if k == 0 then []
    else if k == |s| then [ParseNat(s)]
    else if k + 2 <= |s| && s[|s| - k - 2] == ',' && s[|s| - k - 1] == ' ' then ParseNatList(s[..|s| - k - 2]) + [ParseNat(s[|s| - k..])]
    else []
  }

  lemma {:induction false} DigitSuffixOfDigits(s: string)
    requires AllDigits(s)
    ensures DigitSuffixLength(s) == |s|
  {
    if |s| > 0 {
      DigitSuffixOfDigits(s[..|s| - 1]);
    }
  }

  lemma {:induction false} DigitSuffixAfterSeparator(a: string, d: string)
    requires |a| > 0 && !IsDigit(a[|a| - 1])
    requires AllDigits(d)
    ensures DigitSuffixLength(a + d) == |d|
  {
    if |d| == 0 {
      assert a + d == a;
    } else {
      assert (a + d)[..|a + d| - 1] == a + d[..|d| - 1];
      DigitSuffixAfterSeparator(a, d[..|d| - 1]);
    }
  }

  /** One step of reading back: the last number after the last separator. */
  lemma ParseNatListStep(p: string, d: string)
    requires AllDigits(d) && |d| > 0
    ensures ParseNatList(p + ", " + d) == ParseNatList(p) + [ParseNat(d)]
  {
    var s := p + ", " + d;
    DigitSuffixAfterSeparator(p + ", ", d);
    assert s == (p + ", ") + d;
    assert s[..|s| - |d| - 2] == p;
    assert s[|s| - |d| - 2] == ',' && s[|s| - |d| - 1] == ' ';
    assert s[|s| - |d|..] == d;
  }

  /** A lone number reads back as a one-element list. */
  lemma ParseSingleNat(d: string)
    requires AllDigits(d) && |d| > 0
    ensures ParseNatList(d) == [ParseNat(d)]
  {
    DigitSuffixOfDigits(d);
  }

  /** Writing one number more appends a separator and that number. */
  lemma JoinNatStringsSnoc(init: seq<nat>, last: nat)
    requires |init| > 0
    ensures Join(NatStrings(init + [last]), ", ") == Join(NatStrings(init), ", ") + ", " + NatToString(last)
  {
    var parts := NatStrings(init + [last]);
    assert parts[..|parts| - 1] == NatStrings(init);
  }

  /** A comma-space joined index list names exactly the indices it was built
      from, in the same order. */
  lemma {:induction false} ParseJoinedNats(xs: seq<nat>)
    requires |xs| > 0
    ensures ParseNatList(Join(NatStrings(xs), ", ")) == xs
  {
    var last := xs[|xs| - 1];
    var d := NatToString(last);
    ParseNatToString(last);
    if |xs| == 1 {
      assert Join(NatStrings(xs), ", ") == d;
      ParseSingleNat(d);
    } else {
      var init := xs[..|xs| - 1];
      assert xs == init + [last];
      JoinNatStringsSnoc(init, last);
      ParseNatListStep(Join(NatStrings(init), ", "), d);
      ParseJoinedNats(init);
    }
  }
}
