/**
 * The pieces of Python's text handling the orchestrator relies on:
 * `str(n)` and f-string formatting of an integer, `int(s)` parsing,
 * `str.split(sep)`, `str.lower()` (as far as the comparison with "all"
 * needs it) and the whitespace stripping that `int` performs.
 */
module Text {
  import opened Wrappers

  predicate IsDigit(c: char) {
    '0' <= c <= '9'
  }

  predicate AllDigits(s: string) {
    forall i :: 0 <= i < |s| ==> IsDigit(s[i])
  }

  function DigitChar(d: nat): (c: char)
    requires d < 10
    ensures IsDigit(c) && c as int - '0' as int == d
  {
    (d + '0' as int) as char
  }

  /** Decimal rendering of a natural number, as `str(n)` gives it. */
  function NatToString(n: nat): (s: string)
    ensures |s| > 0 && AllDigits(s)
    ensures s[0] == '0' ==> n == 0
    decreases n
  {
    if n < 10 then [DigitChar(n)] else NatToString(n / 10) + [DigitChar(n % 10)]
  }

  /** Decimal rendering of an integer, as `str(n)` or `f"{n}"` gives it. */
  function IntToString(i: int): (s: string)
    ensures |s| > 0
    ensures i >= 0 ==> AllDigits(s)
    ensures i < 0 ==> s[0] == '-' && |s| > 1 && AllDigits(s[1..])
  {
    if i < 0 then "-" + NatToString(-i) else NatToString(i)
  }

  /** The number a string of decimal digits denotes (leading zeros allowed). */
  function DigitsValue(s: string): nat
    requires AllDigits(s)
  {
    if |s| == 0 then 0 else DigitsValue(s[..|s| - 1]) * 10 + (s[|s| - 1] as int - '0' as int)
  }

  lemma {:induction false} NatToStringValue(n: nat)
    ensures DigitsValue(NatToString(n)) == n
    decreases n
  {
    if n >= 10 {
      var s := NatToString(n);
      assert s[..|s| - 1] == NatToString(n / 10);
      NatToStringValue(n / 10);
    }
  }

  /**
   * The characters `int()` strips: the ASCII blanks it skips itself, and the
   * non-ASCII characters `str.isspace` accepts, which it reads as blanks.
   * The separators U+001C to U+001F pass `str.isspace` but are not stripped.
   */
  predicate IsSpace(c: char) {
    c == ' ' || '\t' <= c <= '\r' || c == '\U{85}' || c == '\U{a0}'
    || c == '\U{1680}' || '\U{2000}' <= c <= '\U{200a}' || c == '\U{2028}' || c == '\U{2029}'
    || c == '\U{202f}' || c == '\U{205f}' || c == '\U{3000}'
  }

  /** `s` without its leading whitespace. */
  function TrimStart(s: string): (r: string)
    ensures |r| <= |s| && r == s[|s| - |r|..]
    ensures r == [] || !IsSpace(r[0])
    ensures forall i :: 0 <= i < |s| - |r| ==> IsSpace(s[i])
  {
    if |s| > 0 && IsSpace(s[0]) then TrimStart(s[1..]) else s
  }

  /** `s` without its trailing whitespace. */
  function TrimEnd(s: string): (r: string)
    ensures |r| <= |s| && r == s[..|r|]
    ensures r == [] || !IsSpace(r[|r| - 1])
    ensures forall i :: |r| <= i < |s| ==> IsSpace(s[i])
  {
    if |s| > 0 && IsSpace(s[|s| - 1]) then TrimEnd(s[..|s| - 1]) else s
  }

  /** `s.strip()`. */
  function Strip(s: string): string {
    TrimEnd(TrimStart(s))
  }

  /**
   * The digit part `int()` accepts: one or more decimal digits, where a
   * single underscore may separate two digits ("1_000").
   */
  predicate IsDigitGroup(t: string) {
    && |t| > 0
    && IsDigit(t[0])
    && IsDigit(t[|t| - 1])
    && forall i :: 0 < i < |t| - 1 ==> InnerGroupChar(t, i)
  }

  /** An inner character of a group: a digit, or a single underscore between two digits. */
  predicate InnerGroupChar(t: string, i: int)
    requires 0 < i < |t| - 1
  {
    IsDigit(t[i]) || (t[i] == '_' && IsDigit(t[i - 1]) && IsDigit(t[i + 1]))
  }

  /** `t` with its underscores dropped. */
  function RemoveUnderscores(t: string): (r: string)
    ensures (forall i :: 0 <= i < |t| ==> IsDigit(t[i]) || t[i] == '_') ==> AllDigits(r)
    ensures AllDigits(t) ==> r == t
  {
    if |t| == 0 then []
    else (if t[0] == '_' then [] else [t[0]]) + RemoveUnderscores(t[1..])
  }

  function GroupValue(t: string): nat
    requires IsDigitGroup(t)
  {
    forall i | 0 <= i < |t|
      ensures IsDigit(t[i]) || t[i] == '_'
    {
      if 0 < i < |t| - 1 {
        assert InnerGroupChar(t, i);
      }
    }
    DigitsValue(RemoveUnderscores(t))
  }

  /**
   * `int(s)` with base 10: surrounding whitespace is stripped, an optional
   * sign precedes the digits; None stands for the ValueError.
   */
  function ParseInt(s: string): Option<int> {
    var t := Strip(s);
    var signed := |t| > 0 && (t[0] == '+' || t[0] == '-');
    var digits := if signed then t[1..] else t;
    if !IsDigitGroup(digits) then None
    else
      var magnitude: int := GroupValue(digits);
      Some(if signed && t[0] == '-' then -magnitude else magnitude)
  }

  lemma StripUnchanged(s: string)
    requires s == [] || (!IsSpace(s[0]) && !IsSpace(s[|s| - 1]))
    ensures Strip(s) == s
  {
  }

  /** A string whose first character is neither blank, sign nor digit is not an integer. */
  lemma {:induction false} BadFirstCharRejected(s: string)
    requires |s| > 0 && !IsSpace(s[0]) && !IsDigit(s[0]) && s[0] != '+' && s[0] != '-'
    ensures ParseInt(s) == None
  {
    assert TrimStart(s) == s;
    var t := TrimEnd(s);
    assert t == [] || t[0] == s[0];
    assert !IsDigitGroup(t);
  }

  /** A digit after an information separator is not an integer: `int('\x1c1')` raises. */
  lemma SeparatorNotStripped()
    ensures ParseInt(['\U{1c}', '1']) == None
  {
    var s := ['\U{1c}', '1'];
    assert !IsSpace(s[0]) && !IsDigit(s[0]);
    BadFirstCharRejected(s);
  }

  /** Formatting an integer and parsing it back gives the integer. */
  lemma {:induction false} ParseIntOfIntToString(i: int)
    ensures ParseInt(IntToString(i)) == Some(i)
  {
    var s := IntToString(i);
    StripUnchanged(s);
    assert Strip(s) == s;
    var signed := s[0] == '+' || s[0] == '-';
    assert signed <==> i < 0;
    var digits := if i < 0 then s[1..] else s;
    var n: nat := if i < 0 then -i else i;
    assert digits == NatToString(n);
    assert AllDigits(digits);
    assert IsDigitGroup(digits) by {
      forall k | 0 < k < |digits| - 1 ensures InnerGroupChar(digits, k) {
        assert IsDigit(digits[k]);
      }
    }
    assert RemoveUnderscores(digits) == digits;
    NatToStringValue(n);
    assert GroupValue(digits) == n;
  }

  /** `str.split(sep)`: the pieces between occurrences of `sep`. */
  function Split(s: string, sep: char): (parts: seq<string>)
    ensures |parts| >= 1
    ensures forall k :: 0 <= k < |parts| ==> sep !in parts[k]
    ensures sep in s <==> |parts| >= 2
    decreases |s|
  {
    if |s| == 0 then [""]
    else
      var rest := Split(s[1..], sep);
      if s[0] == sep then [""] + rest else [[s[0]] + rest[0]] + rest[1..]
  }

  /** `sep.join(parts)`, the inverse of Split. */
  function Join(parts: seq<string>, sep: char): string
    requires |parts| >= 1
  {
    if |parts| == 1 then parts[0] else parts[0] + [sep] + Join(parts[1..], sep)
  }

  lemma {:induction false} JoinSplit(s: string, sep: char)
    ensures Join(Split(s, sep), sep) == s
    decreases |s|
  {
    if |s| > 0 {
      JoinSplit(s[1..], sep);
      var rest := Split(s[1..], sep);
      if s[0] == sep {
        assert ([""] + rest)[1..] == rest;
      } else {
        var parts := [[s[0]] + rest[0]] + rest[1..];
        if |rest| > 1 {
          assert parts[1..] == rest[1..];
        }
      }
    }
  }

  lemma SplitNoSep(s: string, sep: char)
    requires sep !in s
    ensures Split(s, sep) == [s]
  {
    JoinSplit(s, sep);
  }

  lemma {:induction false} SplitAtFirst(a: string, b: string, sep: char)
    requires sep !in a
    ensures Split(a + [sep] + b, sep) == [a] + Split(b, sep)
    decreases |a|
  {
    var s := a + [sep] + b;
    if |a| == 0 {
      assert s[1..] == b;
    } else {
      assert s[1..] == a[1..] + [sep] + b;
      SplitAtFirst(a[1..], b, sep);
      assert [a[0]] + a[1..] == a;
    }
  }

  function LowerChar(c: char): char {
    if 'A' <= c <= 'Z' then (c as int + 32) as char else c
  }

  /** `s.lower()` on ASCII letters; other characters are kept. */
  function Lower(s: string): (r: string)
    ensures |r| == |s|
  {
    seq(|s|, i requires 0 <= i < |s| => LowerChar(s[i]))
  }

  lemma LowerIsAll(s: string)
    ensures Lower(s) == "all" <==>
      |s| == 3 && s[0] in "aA" && s[1] in "lL" && s[2] in "lL"
  {
    if Lower(s) == "all" {
      assert Lower(s)[0] == 'a' && Lower(s)[1] == 'l' && Lower(s)[2] == 'l';
    }
    if |s| == 3 && s[0] in "aA" && s[1] in "lL" && s[2] in "lL" {
      assert Lower(s) == "all";
    }
  }
}
