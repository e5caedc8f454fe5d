/** The few string operations the program takes from its standard library. */
module Strings {

  datatype Option<+T> = None | Some(value: T)

  lemma ConcatAssoc(a: string, b: string, c: string)
    ensures a + (b + c) == a + b + c
  {
  }

  lemma DropHead(c: char, s: string)
    ensures ([c] + s)[0] == c && ([c] + s)[1..] == s
  {
  }

  // Numbers.

  predicate IsSpace(c: char) {
    c in {' ', '\t', '\n', '\r', '\U{000B}', '\U{000C}', '\U{0085}', '\U{00A0}', '\U{1680}',
          '\U{2028}', '\U{2029}', '\U{202F}', '\U{205F}', '\U{3000}'} || '\U{2000}' <= c <= '\U{200A}'
  }

  predicate IsDigit(c: char) {
    '0' <= c <= '9'
  }

  predicate AllDigits(s: string) {
    forall i :: 0 <= i < |s| ==> IsDigit(s[i])
  }

  function SkipSpace(s: string): string {
    if s != "" && IsSpace(s[0]) then SkipSpace(s[1..]) else s
  }

  function TrimRight(s: string): string {
    if s != "" && IsSpace(s[|s| - 1]) then TrimRight(s[..|s| - 1]) else s
  }

  function TrimSpace(s: string): string {
    TrimRight(SkipSpace(s))
  }

  function DigitPrefix(s: string): string {
    if s != "" && IsDigit(s[0]) then [s[0]] + DigitPrefix(s[1..]) else ""
  }

  function DigitValue(c: char): nat
    requires IsDigit(c)
  {
    c as int - '0' as int
  }

  function ValueOf(digits: string): nat
    requires AllDigits(digits)
  {
    if digits == "" then 0
    else 10 * ValueOf(digits[..|digits| - 1]) + DigitValue(digits[|digits| - 1])
  }

  function Decimal(n: nat): string {
    var digit := ('0' as int + n % 10) as char;
    if n < 10 then [digit] else Decimal(n / 10) + [digit]
  }

  lemma {:induction false} DigitPrefixIsDigits(s: string)
    ensures AllDigits(DigitPrefix(s))
  {
    if s != "" && IsDigit(s[0]) { DigitPrefixIsDigits(s[1..]); }
  }

  lemma {:induction false} DecimalValue(n: nat)
    ensures Decimal(n) != "" && AllDigits(Decimal(n)) && ValueOf(Decimal(n)) == n
  {
    if n >= 10 {
      DecimalValue(n / 10);
      assert Decimal(n)[..|Decimal(n)| - 1] == Decimal(n / 10);
    } else {
      assert Decimal(n)[..0] == "";
    }
  }

  lemma {:induction false} DigitPrefixOf(digits: string, rest: string)
    requires AllDigits(digits) && (rest == "" || !IsDigit(rest[0]))
    ensures DigitPrefix(digits + rest) == digits
  {
    if digits == "" {
      assert digits + rest == rest;
    } else {
      assert (digits + rest)[1..] == digits[1..] + rest;
      DigitPrefixOf(digits[1..], rest);
    }
  }

  const MIN_INT64: int := -0x8000_0000_0000_0000
  const MAX_INT64: int := 0x7FFF_FFFF_FFFF_FFFF

  /** The %d verb of fmt.Sscanf: spaces, an optional sign, digits that fit 64 bits; the rest is ignored. */
  function ScanInt(s: string): Option<int> {
    var t := SkipSpace(s);
    var negative := t != "" && t[0] == '-';
    var unsigned := if t != "" && t[0] in {'+', '-'} then t[1..] else t;
    var digits := DigitPrefix(unsigned);
    DigitPrefixIsDigits(unsigned);
    var value: int := if negative then 0 - ValueOf(digits) else ValueOf(digits);
    if digits == "" || !(MIN_INT64 <= value <= MAX_INT64) then None else Some(value)
  }

  lemma ScanDecimal(n: nat, rest: string)
    requires n <= MAX_INT64 && (rest == "" || !IsDigit(rest[0]))
    ensures ScanInt(Decimal(n) + rest) == Some(n)
  {
    DecimalValue(n);
    DigitPrefixOf(Decimal(n), rest);
  }

  lemma {:induction false} SpaceSkipped(s: string) returns (space: string)
    ensures s == space + SkipSpace(s) && forall i :: 0 <= i < |space| ==> IsSpace(space[i])
    ensures SkipSpace(s) != "" ==> !IsSpace(SkipSpace(s)[0])
  {
    if s != "" && IsSpace(s[0]) {
      var rest := SpaceSkipped(s[1..]);
      space := [s[0]] + rest;
      assert s == [s[0]] + s[1..];
    } else {
      space := "";
    }
  }

  lemma {:induction false} DigitsTaken(s: string) returns (rest: string)
    ensures s == DigitPrefix(s) + rest && (rest != "" ==> !IsDigit(rest[0]))
  {
    if s != "" && IsDigit(s[0]) {
      rest := DigitsTaken(s[1..]);
      assert s == [s[0]] + s[1..];
    } else {
      rest := s;
    }
  }

  /** What is read of a text: spaces, a sign and digits up to the first other character; nothing without a digit or
      beyond 64 bits. */
  lemma ScanIsExact(s: string) returns (space: string, sign: string, digits: string, rest: string)
    ensures s == space + sign + digits + rest && (forall i :: 0 <= i < |space| ==> IsSpace(space[i]))
    ensures sign in {"", "+", "-"} && AllDigits(digits) && (rest != "" ==> !IsDigit(rest[0]))
    ensures sign == "" && digits == "" && rest != "" ==> !IsSpace(rest[0]) && rest[0] !in {'+', '-'}
    ensures var value: int := if sign == "-" then 0 - ValueOf(digits) else ValueOf(digits);
      ScanInt(s) ==
        if digits != "" && -0x8000_0000_0000_0000 <= value <= 0x7FFF_FFFF_FFFF_FFFF then Some(value) else None
  {
    space := SpaceSkipped(s);
    var t := SkipSpace(s);
    sign := if t != "" && t[0] in {'+', '-'} then [t[0]] else "";
    var unsigned := t[|sign|..];
    assert t == sign + unsigned;
    digits := DigitPrefix(unsigned);
    DigitPrefixIsDigits(unsigned);
    rest := DigitsTaken(unsigned);
    ConcatAssoc(sign, digits, rest);
    ConcatAssoc(space, sign, digits + rest);
    ConcatAssoc(space + sign, digits, rest);
  }
}
