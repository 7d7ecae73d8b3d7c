/**
 * The part of the formatting machinery the calendar uses: decimal rendering
 * of integers (`{}`), width padding of ASCII strings (`{:>w}`, `{:<w}`,
 * `{:^w}`, and `{:w}` for numbers, which aligns right) and `join`.
 */
module Fmt {

  function Max(a: int, b: int): (r: int) { if a < b then b else a }

  function Spaces(n: nat): (r: string) {
    seq(n, _ => ' ')
  }

  predicate IsDigit(c: char) { '0' <= c <= '9' }

  function Digit(n: nat): (c: char)
    requires n < 10
    ensures IsDigit(c)
  {
    ('0' as int + n) as char
  }

  function DigitValue(c: char): (v: nat)
    requires IsDigit(c)
  {
    (c as int) - ('0' as int)
  }

  /** Decimal digits of `n`, most significant first, without leading zeros. */
  function NatToString(n: nat): (s: string)
    ensures 1 <= |s|
    ensures forall i :: 0 <= i < |s| ==> IsDigit(s[i])
    ensures s[0] == '0' ==> n == 0
  {
    if n < 10 then [Digit(n)] else NatToString(n / 10) + [Digit(n % 10)]
  }

  /** The value of a string of decimal digits. */
  function ParseNat(s: string): (n: nat)
    requires forall i :: 0 <= i < |s| ==> IsDigit(s[i])
  {
    if |s| == 0 then 0 else 10 * ParseNat(s[..|s| - 1]) + DigitValue(s[|s| - 1])
  }

  /** Rendering a number in decimal loses nothing: reading the digits back gives the number. */
  lemma {:induction false} ParseNatToString(n: nat)
    ensures ParseNat(NatToString(n)) == n
  {
    var s := NatToString(n);
    if n >= 10 {
      ParseNatToString(n / 10);
      assert s[..|s| - 1] == NatToString(n / 10);
    }
  }

  /** A number below 10^k has at most k digits. */
  lemma {:induction false} NatToStringLength(n: nat, k: nat)
    requires 1 <= k && n < Pow10(k)
    ensures |NatToString(n)| <= k
  {
    if n >= 10 {
      NatToStringLength(n / 10, k - 1);
    }
  }

  function Pow10(k: nat): (r: nat)
    ensures r >= 1
  {
    if k == 0 then 1 else 10 * Pow10(k - 1)
  }

  /** `{}` on a signed integer: a minus sign before the digits of a negative value. */
  function IntToString(i: int): (s: string)
    ensures IsDecimal(s)
    ensures s[0] == '-' <==> i < 0
  {
    if i < 0 then "-" + NatToString(-i) else NatToString(i)
  }

  /** An optional minus sign followed by decimal digits. */
  predicate IsDecimal(s: string) {
    && 1 <= |s|
    && (s[0] == '-' || IsDigit(s[0]))
    && forall i :: 1 <= i < |s| ==> IsDigit(s[i])
  }

  function ParseInt(s: string): (n: int)
    requires IsDecimal(s)
  {
    if s[0] == '-' then -(ParseNat(s[1..]) as int) else ParseNat(s)
  }

  /** Reading a rendered integer back gives the integer. */
  lemma ParseIntToString(i: int)
    ensures ParseInt(IntToString(i)) == i
  {
    if i < 0 {
      ParseNegative(-i);
      assert IntToString(i) == "-" + NatToString(-i);
    } else {
      ParseNatToString(i);
      assert IntToString(i) == NatToString(i);
    }
  }

  lemma ParseNegative(n: nat)
    ensures ParseInt("-" + NatToString(n)) == -(n as int)
  {
    var digits := NatToString(n);
    var s := "-" + digits;
    ParseNatToString(n);
    assert s[1..] == digits;
  }

  /** `{:>width}`: right-aligned, spaces in front; a longer string is left as it is. */
  function PadLeft(s: string, width: nat): (r: string)
    ensures |r| == Max(|s|, width)
  {
    if |s| < width then Spaces(width - |s|) + s else s
  }

  /** `{:>width}` ends with the string itself, after nothing but spaces. */
  lemma PadLeftContent(s: string, width: nat)
    ensures var r := PadLeft(s, width);
      && r[|r| - |s|..] == s
      && forall i :: 0 <= i < |r| - |s| ==> r[i] == ' '
  {
    var r := PadLeft(s, width);
    if |s| < width {
      assert r == Spaces(width - |s|) + s;
    }
  }

  /** `{:<width}`: left-aligned, spaces behind; a longer string is left as it is. */
  function PadRight(s: string, width: nat): (r: string)
    ensures |r| == Max(|s|, width)
  {
    if |s| < width then s + Spaces(width - |s|) else s
  }

  /** `{:<width}` starts with the string itself, followed by nothing but spaces. */
  lemma PadRightContent(s: string, width: nat)
    ensures var r := PadRight(s, width);
      && r[..|s|] == s
      && forall i :: |s| <= i < |r| ==> r[i] == ' '
  {
    var r := PadRight(s, width);
    if |s| < width {
      assert r == s + Spaces(width - |s|);
    }
  }

  /**
   * `{:^width}`: centred; of the spaces needed, the smaller half goes in
   * front and the larger half behind.
   */
  function Center(s: string, width: nat): (r: string)
    ensures |r| == Max(|s|, width)
  {
    if |s| < width then
      var pad := width - |s|;
      Spaces(pad / 2) + s + Spaces((pad + 1) / 2)
    else s
  }

  /** `{:^width}` holds the string after `(width - |s|) / 2` spaces, with only spaces after it. */
  lemma CenterContent(s: string, width: nat)
    ensures var r := Center(s, width);
      var pre := (|r| - |s|) / 2;
      && r[pre..pre + |s|] == s
      && (forall i :: 0 <= i < pre ==> r[i] == ' ')
      && (forall i :: pre + |s| <= i < |r| ==> r[i] == ' ')
  {
    var r := Center(s, width);
    if |s| < width {
      var pad := width - |s|;
      assert r == Spaces(pad / 2) + s + Spaces((pad + 1) / 2);
    }
  }

  /** The combined length of the parts. */
  function TotalLength(parts: seq<string>): (n: nat) {
    if |parts| == 0 then 0 else |parts[0]| + TotalLength(parts[1..])
  }

  /** `parts.join(sep)`: the parts, with one separator between each two. */
  function Join(parts: seq<string>, sep: string): (r: string)
    ensures |parts| >= 1 ==> |r| == TotalLength(parts) + (|parts| - 1) * |sep|
  {
    if |parts| == 0 then ""
    else if |parts| == 1 then parts[0]
    else parts[0] + sep + Join(parts[1..], sep)
  }

  /**
   * Joining `n >= 1` two-character fields with single spaces gives `3n - 1`
   * characters, field `k` at columns `3k` and `3k + 1` and a space at `3k + 2`.
   */
  lemma {:induction false} JoinPairs(parts: seq<string>)
    requires 1 <= |parts|
    requires forall k :: 0 <= k < |parts| ==> |parts[k]| == 2
    ensures |Join(parts, " ")| == 3 * |parts| - 1
    ensures forall k :: 0 <= k < |parts| ==> Join(parts, " ")[3 * k..3 * k + 2] == parts[k]
    ensures forall k :: 0 <= k < |parts| - 1 ==> Join(parts, " ")[3 * k + 2] == ' '
  {
    if |parts| > 1 {
      var rest := Join(parts[1..], " ");
      JoinPairs(parts[1..]);
      var r := Join(parts, " ");
      assert r == parts[0] + " " + rest;
      forall k | 1 <= k < |parts|
        ensures r[3 * k..3 * k + 2] == parts[k]
      {
        assert r[3 * k..3 * k + 2] == rest[3 * (k - 1)..3 * (k - 1) + 2];
      }
      forall k | 1 <= k < |parts| - 1
        ensures r[3 * k + 2] == ' '
      {
        assert r[3 * k + 2] == rest[3 * (k - 1) + 2];
      }
    }
  }

  /** A two-character field of `text` keeps its place, shifted by the padding, in `{:>width}`. */
  lemma PadLeftField(text: string, width: nat, j: nat, field: string)
    requires |text| <= width && j + 2 <= |text| && text[j..j + 2] == field
    ensures PadLeft(text, width)[width - |text| + j..width - |text| + j + 2] == field
  {
    var r := PadLeft(text, width);
    PadLeftContent(text, width);
    assert r[width - |text|..] == text;
    assert r[width - |text| + j..width - |text| + j + 2] == r[width - |text|..][j..j + 2];
  }

  /** A two-character field of `text` keeps its place in `{:<width}`. */
  lemma PadRightField(text: string, width: nat, j: nat, field: string)
    requires j + 2 <= |text| && text[j..j + 2] == field
    ensures PadRight(text, width)[j..j + 2] == field
  {
    var r := PadRight(text, width);
    PadRightContent(text, width);
    assert r[..|text|] == text;
    assert r[j..j + 2] == r[..|text|][j..j + 2];
  }

  /** Appending text keeps the fields before it. */
  lemma AppendField(text: string, suffix: string, j: nat, field: string)
    requires j + 2 <= |text| && text[j..j + 2] == field
    ensures (text + suffix)[j..j + 2] == field
  {
    assert (text + suffix)[j..j + 2] == text[j..j + 2];
  }
}
