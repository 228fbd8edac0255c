/**
 * The two pieces of JavaScript's string library the registry relies on:
 * `String.prototype.split` with a one-character separator, and `Number`
 * applied to a string of decimal digits.
 */
module Strings {

  /** `s.split(c)`: the pieces between occurrences of `c`, in order; "" gives [""]. */
  function Split(s: string, c: char): (parts: seq<string>)
    ensures |parts| >= 1
    ensures forall k :: 0 <= k < |parts| ==> c !in parts[k]
    ensures Join(parts, c) == s
  {
    if s == [] then [""]
    else
      var rest := Split(s[1..], c);
      if s[0] == c then
        [""] + rest
      else
        assert Join([[s[0]] + rest[0]] + rest[1..], c) == [s[0]] + Join(rest, c) by {
          if |rest| > 1 {
            assert ([[s[0]] + rest[0]] + rest[1..])[1..] == rest[1..];
          }
        }
        [[s[0]] + rest[0]] + rest[1..]
  }

  /** `parts.join(c)`: the inverse of `Split`. */
  function Join(parts: seq<string>, c: char): string
    requires |parts| >= 1
  {
    if |parts| == 1 then parts[0] else parts[0] + [c] + Join(parts[1..], c)
  }

  /** Splitting a join of separator-free pieces gives the pieces back. */
  lemma {:induction false} SplitJoin(parts: seq<string>, c: char)
    requires |parts| >= 1
    requires forall k :: 0 <= k < |parts| ==> c !in parts[k]
    ensures Split(Join(parts, c), c) == parts
  {
    if |parts| == 1 {
      NoSeparatorIsOnePiece(parts[0], c);
    } else {
      SplitJoin(parts[1..], c);
      SplitNoSeparatorPrefix(parts[0], Join(parts[1..], c), c);
    }
  }

  lemma {:induction false} NoSeparatorIsOnePiece(s: string, c: char)
    requires c !in s
    ensures Split(s, c) == [s]
  {
    if s != [] {
      NoSeparatorIsOnePiece(s[1..], c);
    }
  }

  /** A separator-free prefix followed by the separator becomes the first piece. */
  lemma {:induction false} SplitNoSeparatorPrefix(p: string, t: string, c: char)
    requires c !in p
    ensures Split(p + [c] + t, c) == [p] + Split(t, c)
  {
    if p == [] {
      assert p + [c] + t == [c] + t;
      assert ([c] + t)[1..] == t;
    } else {
      SplitNoSeparatorPrefix(p[1..], t, c);
      var s := p + [c] + t;
      assert s[0] == p[0] && p[0] != c;
      assert s[1..] == p[1..] + [c] + t;
      var rest := Split(s[1..], c);
      assert rest[0] == p[1..] && rest[1..] == Split(t, c);
      assert [p[0]] + p[1..] == p;
    }
  }

  predicate IsDigit(ch: char) { '0' <= ch <= '9' }

  /** `[A-Za-z]`, the letters `/[a-z]/i` accepts. */
  predicate IsLetter(ch: char) { 'a' <= ch <= 'z' || 'A' <= ch <= 'Z' }

  /** `\w`: a letter, a digit or `_`. */
  predicate IsWordChar(ch: char) { IsLetter(ch) || IsDigit(ch) || ch == '_' }

  predicate AllDigits(s: string) { forall k :: 0 <= k < |s| ==> IsDigit(s[k]) }

  /** The number of leading decimal digits of `s`. */
  function DigitRun(s: string): (n: nat)
    ensures n <= |s|
  {
    if s != [] && IsDigit(s[0]) then 1 + DigitRun(s[1..]) else 0
  }

  lemma {:induction false} DigitRunSpec(s: string)
    ensures AllDigits(s[..DigitRun(s)])
    ensures DigitRun(s) < |s| ==> !IsDigit(s[DigitRun(s)])
  {
    if s != [] && IsDigit(s[0]) {
      DigitRunSpec(s[1..]);
      assert s[..DigitRun(s)] == [s[0]] + s[1..][..DigitRun(s[1..])];
    }
  }

  lemma {:induction false} DigitRunOfDigits(d: string, t: string)
    requires AllDigits(d)
    requires t == [] || !IsDigit(t[0])
    ensures DigitRun(d + t) == |d|
  {
    if d != [] {
      assert (d + t)[1..] == d[1..] + t;
      DigitRunOfDigits(d[1..], t);
    } else {
      assert d + t == t;
    }
  }

  /** `Number(d)` for a non-empty run of decimal digits (leading zeros allowed). */
  function DigitsValue(d: string): int {
    if d == [] then 0
    else DigitsValue(d[..|d| - 1]) * 10 + (d[|d| - 1] as int - '0' as int)
  }
}
