/** The PHP values and built-in string functions that the wrapper relies on:
    dynamically typed scalars and lists, truthiness and empty(), strtoupper,
    str_replace with an empty replacement, and integer-to-string conversion. */
module Php {

  datatype Option<+T> = None | Some(value: T)

  /** The PHP values that reach the wrapper's settings and cURL options.
      A list stands for a PHP array of strings (the header list, say). */
  datatype Value = Null | Bool(b: bool) | Int(i: int) | Str(s: string) | List(items: seq<string>)

  /** PHP's conversion to bool: null, false, 0, "", "0" and the empty array
      are false, every other value is true. */
  predicate Truthy(v: Value): (r: bool)
    ensures !r <==> v in {Null, Bool(false), Int(0), Str(""), Str("0"), List([])}
  {
    match v
    case Null => false
    case Bool(b) => b
    case Int(i) => i != 0
    case Str(s) => StrTruthy(s)
    case List(items) => items != []
  }

  predicate StrTruthy(s: string) {
    s != "" && s != "0"
  }

  /** PHP's empty(): the negation of truthiness. */
  predicate Empty(v: Value) {
    !Truthy(v)
  }

  /** strtoupper on one character: only the ASCII letters a-z change. */
  function UpperChar(c: char): char {
    if 'a' <= c <= 'z' then (c as int - 'a' as int + 'A' as int) as char else c
  }

  /** strtoupper, one character at a time; UpperLetters states what it does
      to letters and to every other character. */
  function Upper(s: string): (r: string)
    ensures |r| == |s|
  {
    seq(|s|, i requires 0 <= i < |s| => UpperChar(s[i]))
  }

  /** strtoupper leaves no lower-case ASCII letter: each letter becomes its
      upper-case form and every other character is kept. */
  lemma UpperLetters(s: string)
    ensures forall k :: 0 <= k < |s| ==> !('a' <= Upper(s)[k] <= 'z')
    ensures forall k :: 0 <= k < |s| && !('a' <= s[k] <= 'z') ==> Upper(s)[k] == s[k]
    ensures forall k :: 0 <= k < |s| && 'a' <= s[k] <= 'z' ==> Upper(s)[k] as int == s[k] as int - 32
  {
  }

  /** `needle` occurs somewhere in `s`. */
  predicate Occurs(needle: string, s: string) {
    exists i | 0 <= i <= |s| :: OccursAt(needle, s, i)
  }

  predicate OccursAt(needle: string, s: string, i: int) {
    0 <= i && i + |needle| <= |s| && s[i..i + |needle|] == needle
  }

  /** str_replace(needle, '', s): scans left to right and deletes each
      non-overlapping occurrence; text formed by a deletion is not scanned again. */
  function RemoveAll(needle: string, s: string): (r: string)
    requires needle != ""
    ensures |r| <= |s|
    ensures forall c :: c in r ==> c in s
    ensures |s| < |needle| ==> r == s
    decreases |s|
  {
    if |s| < |needle| then s
    else if s[..|needle|] == needle then RemoveAll(needle, s[|needle|..])
    else [s[0]] + RemoveAll(needle, s[1..])
  }

  function DigitValue(c: char): nat
    requires IsDigit(c)
  {
    c as int - '0' as int
  }

  function DigitChar(d: nat): char
    requires d < 10
  {
    ('0' as int + d) as char
  }

  predicate IsDigit(c: char) {
    '0' <= c <= '9'
  }

  /** PHP's string conversion of a non-negative integer: its decimal digits. */
  function Decimal(n: nat): (r: string)
    ensures r != [] && forall k :: 0 <= k < |r| ==> IsDigit(r[k])
    ensures r[0] == '0' ==> n == 0
    ensures |r| == 1 || r[0] != '0'
  {
    if n < 10 then [DigitChar(n)] else Decimal(n / 10) + [DigitChar(n % 10)]
  }

  /** Reads a run of decimal digits back as a number. */
  function ParseDecimal(s: string): nat
    requires forall k :: 0 <= k < |s| ==> IsDigit(s[k])
  {
    if s == [] then 0 else 10 * ParseDecimal(s[..|s| - 1]) + DigitValue(s[|s| - 1])
  }

  /** The number of leading decimal digits of `s`. */
  function DigitRun(s: string): (n: nat)
    ensures n <= |s|
    ensures forall k :: 0 <= k < n ==> IsDigit(s[k])
    ensures n < |s| ==> !IsDigit(s[n])
  {
    if s == [] || !IsDigit(s[0]) then 0 else 1 + DigitRun(s[1..])
  }

  lemma {:induction false} DecimalRoundTrip(n: nat)
    ensures ParseDecimal(Decimal(n)) == n
  {
    if n >= 10 {
      var d := Decimal(n);
      assert d[..|d| - 1] == Decimal(n / 10);
      DecimalRoundTrip(n / 10);
    }
  }

  lemma {:induction false} DigitRunOfDigits(digits: string, rest: string)
    requires forall k :: 0 <= k < |digits| ==> IsDigit(digits[k])
    requires rest == [] || !IsDigit(rest[0])
    ensures DigitRun(digits + rest) == |digits|
  {
    if digits != [] {
      assert (digits + rest)[1..] == digits[1..] + rest;
      DigitRunOfDigits(digits[1..], rest);
    }
  }

  /** Text that does not contain the needle passes through str_replace unchanged. */
  lemma {:induction false} RemoveAllWithoutOccurrence(needle: string, s: string)
    requires needle != ""
    requires !Occurs(needle, s)
    ensures RemoveAll(needle, s) == s
    decreases |s|
  {
    if |s| >= |needle| {
      assert !OccursAt(needle, s, 0);
      if Occurs(needle, s[1..]) {
        var i :| 0 <= i <= |s[1..]| && OccursAt(needle, s[1..], i);
        assert s[1..][i..i + |needle|] == s[i + 1..i + 1 + |needle|];
        assert OccursAt(needle, s, i + 1);
      }
      RemoveAllWithoutOccurrence(needle, s[1..]);
    }
  }

  /** A leading needle is deleted by str_replace. */
  lemma RemoveAllLeading(needle: string, s: string)
    requires needle != ""
    ensures RemoveAll(needle, needle + s) == RemoveAll(needle, s)
  {
    assert (needle + s)[..|needle|] == needle;
    assert (needle + s)[|needle|..] == s;
  }
}
