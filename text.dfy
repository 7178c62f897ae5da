/**
 * The pieces of Rust's `str` API that the search pipeline relies on:
 * prefix tests, substring search, `split(..).nth(1)`, decimal rendering of
 * integers, `trim` and `to_lowercase`.
 */
module Text {
  import opened Prelude

  predicate StartsWith(s: string, p: string) {
    |p| <= |s| && s[..|p|] == p
  }

  /** `str::find`: the index of the first occurrence of `p` in `s`. */
  function Find(s: string, p: string): (r: Option<nat>)
    ensures r.Some? ==> r.value + |p| <= |s| && StartsWith(s[r.value..], p)
    ensures r.Some? ==> forall i {:trigger StartsWith(s[i..], p)} :: 0 <= i < r.value ==> !StartsWith(s[i..], p)
    ensures r.None? ==> forall i {:trigger StartsWith(s[i..], p)} :: 0 <= i <= |s| ==> !StartsWith(s[i..], p)
    decreases |s|
  {
    if StartsWith(s, p) then Some(0)
    else if s == [] then None
    else
      var rest := Find(s[1..], p);
      assert forall i :: 1 <= i <= |s| ==> s[i..] == s[1..][i - 1..];
      match rest
      case None => None
      case Some(i) => Some(i + 1)
  }

  /** `str::contains`. */
  predicate Contains(s: string, p: string)
    decreases |s|
  {
    StartsWith(s, p) || (s != [] && Contains(s[1..], p))
  }

  /** A prefix of `s` that ends before the first occurrence of `p` does not contain `p`. */
  lemma PrefixBeforeFirst(s: string, p: string, j: nat)
    requires |p| > 0 && j <= |s|
    requires forall i {:trigger StartsWith(s[i..], p)} :: 0 <= i < j ==> !StartsWith(s[i..], p)
    ensures Find(s[..j], p).None?
  {
    var t := s[..j];
    if Find(t, p).Some? {
      StartsWithInPrefix(s, j, Find(t, p).value, p);
    }
  }

  lemma StartsWithInPrefix(s: string, j: nat, k: nat, p: string)
    requires k + |p| <= j <= |s|
    requires StartsWith(s[..j][k..], p)
    ensures StartsWith(s[k..], p)
  {
    assert s[..j][k..][..|p|] == s[k..][..|p|];
  }

  /**
   * `s.split(sep).nth(1)`: the text between the first and the second
   * occurrence of `sep`, or after the first when there is no second.
   */
  function SplitSecond(s: string, sep: string): (r: Option<string>)
    requires |sep| > 0
  {
    match Find(s, sep)
    case None => None
    case Some(i) => Some(UpToNext(s[i + |sep|..], sep))
  }

  /** The part of `rest` before its first `sep`, all of it when there is none. */
  function UpToNext(rest: string, sep: string): string {
    match Find(rest, sep)
    case None => rest
    case Some(j) => rest[..j]
  }

  /**
   * The piece `SplitSecond` takes from what follows the first `sep`: a
   * prefix holding no `sep`, followed by the end of the text or by the next
   * `sep`.
   */
  lemma UpToNextSpec(rest: string, sep: string)
    requires |sep| > 0
    ensures var piece := UpToNext(rest, sep);
      && StartsWith(rest, piece)
      && Find(piece, sep).None?
      && (|piece| == |rest| || StartsWith(rest[|piece|..], sep))
  {
    match Find(rest, sep)
    case None =>
      assert rest[..|rest|] == rest;
      PrefixBeforeFirst(rest, sep, |rest|);
    case Some(j) =>
      PrefixBeforeFirst(rest, sep, j);
  }

  /** The digit character for `d`. */
  function Digit(d: nat): (c: char)
    requires d < 10
    ensures '0' <= c <= '9' && c as int - '0' as int == d
  {
    (d + '0' as int) as char
  }

  predicate IsDigits(s: string) {
    forall i :: 0 <= i < |s| ==> '0' <= s[i] <= '9'
  }

  /** The `Display` form of an unsigned integer: decimal digits, no sign, no leading zero. */
  function Decimal(n: nat): (s: string)
    ensures |s| >= 1 && IsDigits(s)
    ensures s[0] == '0' ==> n == 0
    decreases n
  {
    if n < 10 then [Digit(n)] else Decimal(n / 10) + [Digit(n % 10)]
  }

  /** The number a string of decimal digits denotes. */
  function DigitsValue(s: string): nat
    requires IsDigits(s)
    decreases |s|
  {
    if s == [] then 0
    else DigitsValue(s[..|s| - 1]) * 10 + (s[|s| - 1] as int - '0' as int)
  }

  /** Reading back a rendered number gives the number. */
  lemma {:induction false} DecimalRoundTrip(n: nat)
    ensures DigitsValue(Decimal(n)) == n
    decreases n
  {
    if n >= 10 {
      var s := Decimal(n);
      DecimalRoundTrip(n / 10);
      assert s[..|s| - 1] == Decimal(n / 10);
    }
  }

  /** Different numbers render differently. */
  lemma DecimalInjective(m: nat, n: nat)
    requires Decimal(m) == Decimal(n)
    ensures m == n
  {
    DecimalRoundTrip(m);
    DecimalRoundTrip(n);
  }

  /** Rust's `char::is_whitespace`: the Unicode White_Space property. */
  predicate IsWhitespace(c: char) {
    || ('\t' <= c <= '\r') || c == ' ' || c == '\U{0085}' || c == '\U{00A0}'
    || c == '\U{1680}' || ('\U{2000}' <= c <= '\U{200A}') || c == '\U{2028}'
    || c == '\U{2029}' || c == '\U{202F}' || c == '\U{205F}' || c == '\U{3000}'
  }

  /** `str::trim_start`. */
  function TrimStart(s: string): (r: string)
    ensures |r| <= |s| && r == s[|s| - |r|..]
    ensures forall i :: 0 <= i < |s| - |r| ==> IsWhitespace(s[i])
    ensures r != [] ==> !IsWhitespace(r[0])
    decreases |s|
  {
    if s != [] && IsWhitespace(s[0]) then TrimStart(s[1..]) else s
  }

  /** `str::trim_end`. */
  function TrimEnd(s: string): (r: string)
    ensures |r| <= |s| && r == s[..|r|]
    ensures forall i :: |r| <= i < |s| ==> IsWhitespace(s[i])
    ensures r != [] ==> !IsWhitespace(r[|r| - 1])
    decreases |s|
  {
    if s != [] && IsWhitespace(s[|s| - 1]) then TrimEnd(s[..|s| - 1]) else s
  }

  /** `str::trim`: the text with leading and trailing whitespace removed. */
  function Trim(s: string): string {
    TrimEnd(TrimStart(s))
  }

  /**
   * Lower-casing one character, exact for every character whose lower-case
   * form consists of ASCII letters only: 'A'..'Z' and the KELVIN SIGN.
   * Any other character is kept; its true lower-case form is never made of
   * ASCII letters alone, so no comparison with an ASCII name is affected.
   */
  function LowerChar(c: char): char {
    if 'A' <= c <= 'Z' then (c as int + 32) as char
    else if c == '\U{212A}' then 'k'
    else c
  }

  /** `str::to_lowercase`, as far as comparisons with lower-case ASCII names go. */
  function ToLowercase(s: string): (r: string)
    ensures |r| == |s|
    ensures forall i :: 0 <= i < |s| ==> r[i] == LowerChar(s[i])
  {
    seq(|s|, i requires 0 <= i < |s| => LowerChar(s[i]))
  }
}
