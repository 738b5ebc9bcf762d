/**
 * The few PHP string primitives the registry and the offset requests rely
 * on: integer-to-string conversion, the `(int)` cast, `explode` and
 * `substr($s, $start)`. PHP strings are byte strings; names and addresses
 * are modelled as `string`, wire payloads as `seq<byte>`.
 */
module PhpString {

  newtype byte = x: int | 0 <= x < 256

  predicate IsDigit(c: char) {
    '0' <= c <= '9'
  }

  predicate IsDigits(s: string) {
    forall i :: 0 <= i < |s| ==> IsDigit(s[i])
  }

  function DigitValue(c: char): (d: nat)
    requires IsDigit(c)
    ensures d < 10
  {
    (c as int) - ('0' as int)
  }

  function DigitChar(d: nat): (c: char)
    requires d < 10
    ensures IsDigit(c) && DigitValue(c) == d
  {
    (('0' as int) + d) as char
  }

  /** The value of a string of decimal digits, most significant first. */
  function DigitsValue(s: string): nat
    requires IsDigits(s)
  {
    if |s| == 0 then 0 else DigitsValue(s[..|s| - 1]) * 10 + DigitValue(s[|s| - 1])
  }

  /** PHP's rendering of a non-negative integer: decimal digits, no leading zero. */
  function NatToDecimal(n: nat): (s: string)
    ensures |s| >= 1 && IsDigits(s)
    ensures DigitsValue(s) == n
    ensures s[0] == '0' <==> n == 0
    decreases n
  {
    if n < 10 then [DigitChar(n)]
    else
      var prefix := NatToDecimal(n / 10);
      var s := prefix + [DigitChar(n % 10)];
      assert s[..|s| - 1] == prefix;
      s
  }

  /** PHP's `(string)$n` (and `.` concatenation) of an integer. */
  function IntToDecimal(n: int): string {
    if n < 0 then "-" + NatToDecimal(-n) else NatToDecimal(n)
  }

  /** The longest prefix of `s` made of decimal digits. */
  function LeadingDigits(s: string): (p: string)
    ensures IsDigits(p) && p <= s
    ensures |p| < |s| ==> !IsDigit(s[|p|])
  {
    if |s| == 0 || !IsDigit(s[0]) then "" else [s[0]] + LeadingDigits(s[1..])
  }

  /**
   * PHP's `(int)$s` cast of a string: an optional sign followed by the
   * leading run of digits; no digits at all gives 0.
   */
  function IntCast(s: string): int {
    if |s| > 0 && s[0] == '-' then -(DigitsValue(LeadingDigits(s[1..])) as int)
    else if |s| > 0 && s[0] == '+' then DigitsValue(LeadingDigits(s[1..]))
    else DigitsValue(LeadingDigits(s))
  }

  lemma {:induction false} LeadingDigitsOfDigits(s: string)
    requires IsDigits(s)
    ensures LeadingDigits(s) == s
  {
    if |s| > 0 {
      LeadingDigitsOfDigits(s[1..]);
    }
  }

  /** The `(int)` cast undoes the integer-to-string conversion. */
  lemma IntCastOfDecimal(n: int)
    ensures IntCast(IntToDecimal(n)) == n
  {
    if n < 0 {
      var d := NatToDecimal(-n);
      assert ("-" + d)[1..] == d;
      LeadingDigitsOfDigits(d);
    } else {
      var d := NatToDecimal(n);
      LeadingDigitsOfDigits(d);
    }
  }

  /** The inverse of `explode`: the parts joined with the separator. */
  function Implode(sep: char, parts: seq<string>): string
    requires |parts| >= 1
  {
    if |parts| == 1 then parts[0] else parts[0] + [sep] + Implode(sep, parts[1..])
  }

  /** PHP's `explode($sep, $s)` for a one-character separator. */
  function Explode(sep: char, s: string): (parts: seq<string>)
    ensures |parts| >= 1
    ensures |parts| >= 2 <==> sep in s
    ensures forall i :: 0 <= i < |parts| ==> sep !in parts[i]
    ensures Implode(sep, parts) == s
  {
    if |s| == 0 then [""]
    else if s[0] == sep then
      var rest := Explode(sep, s[1..]);
      assert ([""] + rest)[1..] == rest;
      [""] + rest
    else
      var rest := Explode(sep, s[1..]);
      var parts := [[s[0]] + rest[0]] + rest[1..];
      assert parts[1..] == rest[1..];
      assert |rest| > 1 ==> rest[0] + [sep] + Implode(sep, rest[1..]) == Implode(sep, rest);
      assert s == [s[0]] + s[1..];
      parts
  }

  lemma {:induction false} ExplodeWithoutSeparator(sep: char, s: string)
    requires sep !in s
    ensures Explode(sep, s) == [s]
  {
    if |s| > 0 {
      ExplodeWithoutSeparator(sep, s[1..]);
    }
  }

  /** Splitting `a + sep + b` where `a` holds no separator yields `a` first. */
  lemma {:induction false} ExplodeAfterFirst(sep: char, a: string, b: string)
    requires sep !in a
    ensures Explode(sep, a + [sep] + b) == [a] + Explode(sep, b)
  {
    var s := a + [sep] + b;
    if |a| == 0 {
      assert s == [sep] + b && s[1..] == b;
    } else {
      assert s[0] == a[0] && s[1..] == a[1..] + [sep] + b;
      var rest := Explode(sep, s[1..]);
      assert Explode(sep, s) == [[a[0]] + rest[0]] + rest[1..];
      ExplodeAfterFirst(sep, a[1..], b);
      assert rest == [a[1..]] + Explode(sep, b);
      assert [a[0]] + a[1..] == a;
    }
  }

  /** A rendered integer holds only digits and a leading minus sign. */
  lemma DecimalHasNoColon(n: int)
    ensures ':' !in IntToDecimal(n)
  {
    if n < 0 {
      assert forall i :: 1 <= i < |IntToDecimal(n)| ==> IntToDecimal(n)[i] == NatToDecimal(-n)[i - 1];
    }
  }

  /** PHP 8's `substr($s, $start)` for a non-negative start. */
  function SubstrFrom<T>(s: seq<T>, start: nat): (r: seq<T>)
    ensures start <= |s| ==> s == s[..start] + r
    ensures start >= |s| ==> r == []
  {
    if start <= |s| then s[start..] else []
  }
}
