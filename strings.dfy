/**
 * The few Python string operations core.py relies on, over `string` (= seq<char>):
 * startswith/endswith, `in`, str.replace, str.lstrip(chars), str.lower (ASCII letters),
 * int(text) and str(n).
 */
module Strings {
  import opened Outcomes

  predicate StartsWith(s: string, prefix: string) {
    |prefix| <= |s| && s[..|prefix|] == prefix
  }

  predicate EndsWith(s: string, suffix: string) {
    |suffix| <= |s| && s[|s| - |suffix|..] == suffix
  }

  /** Python's `sub in s`. */
  predicate Contains(s: string, sub: string)
    decreases |s|
  {
    StartsWith(s, sub) || (s != [] && Contains(s[1..], sub))
  }

  /**
   * Python's `s.replace(pattern, replacement)` for a non-empty `pattern`: a left-to-right scan that
   * replaces non-overlapping occurrences.
   */
  function Replace(s: string, pattern: string, replacement: string): string
    requires pattern != []
    decreases |s|
  {
    if |s| < |pattern| then s
    else if s[..|pattern|] == pattern then replacement + Replace(s[|pattern|..], pattern, replacement)
    else [s[0]] + Replace(s[1..], pattern, replacement)
  }

  /** Replacing text that does not occur leaves the string as it was. */
  lemma {:induction false} ReplaceAbsent(s: string, pattern: string, replacement: string)
    requires pattern != [] && !Contains(s, pattern)
    ensures Replace(s, pattern, replacement) == s
    decreases |s|
  {
    if |s| >= |pattern| {
      assert s[..|pattern|] != pattern;
      ReplaceAbsent(s[1..], pattern, replacement);
      assert [s[0]] + s[1..] == s;
    }
  }

  /** An occurrence of `pattern` that is the whole string is replaced by `replacement`. */
  lemma ReplaceWhole(pattern: string, replacement: string)
    requires pattern != []
    ensures Replace(pattern, pattern, replacement) == replacement
  {
  }

  /** A pattern after a prefix free of the pattern's first character is replaced once, at the end. */
  lemma {:induction false} ReplaceAfter(p: string, pattern: string, replacement: string)
    requires pattern != [] && forall k :: 0 <= k < |p| ==> p[k] != pattern[0]
    ensures Replace(p + pattern, pattern, replacement) == p + replacement
    decreases |p|
  {
    var t := p + pattern;
    if p == [] {
      assert t == pattern;
      ReplaceWhole(pattern, replacement);
    } else {
      assert t[..|pattern|][0] == p[0];
      assert t[1..] == p[1..] + pattern;
      ReplaceAfter(p[1..], pattern, replacement);
      assert [p[0]] + (p[1..] + replacement) == p + replacement;
    }
  }

  /** Replacing one character by one character rewrites each position independently. */
  lemma {:induction false} ReplaceChar(s: string, c: char, d: char)
    ensures |Replace(s, [c], [d])| == |s|
    ensures forall k :: 0 <= k < |s| ==> Replace(s, [c], [d])[k] == (if s[k] == c then d else s[k])
    decreases |s|
  {
    if s != [] {
      ReplaceChar(s[1..], c, d);
      assert s[..1] == [s[0]];
      assert s[1..] == s[|[c]|..];
      var t := Replace(s[1..], [c], [d]);
      var r := Replace(s, [c], [d]);
      assert r == [if s[0] == c then d else s[0]] + t;
      forall k | 0 <= k < |s|
        ensures r[k] == (if s[k] == c then d else s[k])
      {
        if k > 0 {
          assert r[k] == t[k - 1];
          assert s[k] == s[1..][k - 1];
        }
      }
    }
  }

  /**
   * Python's `s.lstrip(chars)`: drops the longest prefix made only of characters in `chars`.
   * It strips a character set, not a prefix string.
   */
  function LStrip(s: string, chars: string): (r: string)
    ensures |r| <= |s| && r == s[|s| - |r|..]
    ensures forall i :: 0 <= i < |s| - |r| ==> s[i] in chars
    ensures r == [] || r[0] !in chars
    decreases |s|
  {
    if s != [] && s[0] in chars then LStrip(s[1..], chars) else s
  }

  /** Characters of the set in front of `t` are all stripped. */
  lemma {:induction false} LStripPrefix(prefix: string, t: string, chars: string)
    requires forall i :: 0 <= i < |prefix| ==> prefix[i] in chars
    ensures LStrip(prefix + t, chars) == LStrip(t, chars)
    decreases |prefix|
  {
    if prefix == [] {
      assert prefix + t == t;
    } else {
      assert (prefix + t)[1..] == prefix[1..] + t;
      LStripPrefix(prefix[1..], t, chars);
    }
  }

  function LowerChar(c: char): char {
    if 'A' <= c <= 'Z' then (c as int - 'A' as int + 'a' as int) as char else c
  }

  /** Python's `s.lower()`, restricted to ASCII letters. */
  function Lower(s: string): (r: string)
    ensures |r| == |s|
    ensures forall i :: 0 <= i < |s| ==> r[i] == LowerChar(s[i])
  {
    seq(|s|, i requires 0 <= i < |s| => LowerChar(s[i]))
  }

  predicate IsDigit(c: char) {
    '0' <= c <= '9'
  }

  predicate AllDigits(s: string) {
    forall i :: 0 <= i < |s| ==> IsDigit(s[i])
  }

  /** The value of a string of decimal digits, most significant first. */
  function DigitsValue(s: string): nat
    requires AllDigits(s)
    decreases |s|
  {
    if s == [] then 0 else 10 * DigitsValue(s[..|s| - 1]) + (s[|s| - 1] as int - '0' as int)
  }

  /** Python's `int(text)` for an optional sign followed by ASCII digits; anything else raises. */
  function ParseInt(text: string): Option<int> {
    if text != [] && (text[0] == '-' || text[0] == '+') then
      var digits := text[1..];
      if digits != [] && AllDigits(digits) then
        Some(if text[0] == '-' then 0 - DigitsValue(digits) as int else DigitsValue(digits))
      else None
    else if text != [] && AllDigits(text) then Some(DigitsValue(text))
    else None
  }

  function DigitChar(d: nat): char
    requires d < 10
  {
    ('0' as int + d) as char
  }

  /** Python's `str(n)` for a natural number. */
  function NatToString(n: nat): (r: string)
    ensures r != [] && AllDigits(r)
    decreases n
  {
    if n < 10 then [DigitChar(n)] else NatToString(n / 10) + [DigitChar(n % 10)]
  }

  /** Python's `str(i)` for an integer. */
  function IntToString(i: int): string {
    if i < 0 then "-" + NatToString(-i) else NatToString(i)
  }

  lemma {:induction false} NatToStringValue(n: nat)
    ensures DigitsValue(NatToString(n)) == n
    decreases n
  {
    if n >= 10 {
      NatToStringValue(n / 10);
      var s := NatToString(n);
      assert s[..|s| - 1] == NatToString(n / 10);
    }
  }

  /** `int(str(i)) == i`: what `str` writes, `int` reads back. */
  lemma IntToStringRoundTrip(i: int)
    ensures ParseInt(IntToString(i)) == Some(i)
  {
    if i < 0 {
      NatToStringValue(-i);
      var s := IntToString(i);
      assert s[1..] == NatToString(-i);
    } else {
      NatToStringValue(i);
    }
  }
}
