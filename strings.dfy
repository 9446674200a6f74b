/**
 * The few Python string operations the stop handler relies on, over `seq<char>`:
 * the substring test `sub in s`, `s.split(' ')`, `s.isdigit()` with `int(s)`, and `str(n)`.
 */
module Strings {

  /** Python's `sub in s`: `sub` occurs at some position of `s`. */
  predicate Contains(s: string, sub: string) {
    exists i: nat | i <= |s| :: OccursAt(s, sub, i)
  }

  /** `sub` starts at position `i` of `s`. */
  predicate OccursAt(s: string, sub: string, i: nat) {
    i + |sub| <= |s| && s[i..i + |sub|] == sub
  }

  /** A string that lacks one of the letters of `sub` cannot contain `sub`. */
  lemma NotContainsMissingChar(s: string, sub: string, k: nat)
    requires k < |sub| && sub[k] !in s
    ensures !Contains(s, sub)
  {
  }

  /** A string shorter than `sub` cannot contain it. */
  lemma NotContainsShorter(s: string, sub: string)
    requires |s| < |sub|
    ensures !Contains(s, sub)
  {
  }

  /** Occurrences survive extension on either side. */
  lemma ContainsExtended(p: string, s: string, q: string, sub: string)
    requires Contains(s, sub)
    ensures Contains(p + s + q, sub)
  {
    var i: nat :| i <= |s| && OccursAt(s, sub, i);
    assert i + |sub| <= |s|;
    assert (p + s + q)[|p| + i..|p| + i + |sub|] == s[i..i + |sub|];
    assert OccursAt(p + s + q, sub, |p| + i);
  }

  /**
   * When `p` does not contain `sub` and its last letter does not occur in `sub`, no
   * occurrence can start inside `p`: `p + q` contains `sub` exactly when `q` does.
   */
  lemma ContainsAfterBarrier(p: string, q: string, sub: string)
    requires |p| > 0 && p[|p| - 1] !in sub && !Contains(p, sub)
    ensures Contains(p + q, sub) <==> Contains(q, sub)
  {
    if Contains(q, sub) {
      ContainsExtended(p, q, "", sub);
      assert p + q + "" == p + q;
    }
    if i: nat :| i <= |p + q| && OccursAt(p + q, sub, i) {
      if i + |sub| <= |p| {
        assert p[i..i + |sub|] == (p + q)[i..i + |sub|];
        assert OccursAt(p, sub, i);
        assert false;
      } else if i < |p| {
        StraddleShowsLast(p, q, sub, i);
        assert false;
      } else {
        assert q[i - |p|..i - |p| + |sub|] == (p + q)[i..i + |sub|];
        assert OccursAt(q, sub, i - |p|);
      }
    }
  }

  /** An occurrence straddling the end of `p` shows the last letter of `p`. */
  lemma StraddleShowsLast(p: string, q: string, sub: string, i: nat)
    requires i < |p| < i + |sub| && OccursAt(p + q, sub, i)
    ensures p[|p| - 1] in sub
  {
    assert sub[|p| - 1 - i] == (p + q)[i..i + |sub|][|p| - 1 - i] == p[|p| - 1];
  }

  /** Python's `"sep".join(parts)` for a one-letter separator. */
  function Join(parts: seq<string>, sep: char): string
    requires |parts| >= 1
  {
    if |parts| == 1 then parts[0] else parts[0] + [sep] + Join(parts[1..], sep)
  }

  /**
   * Python's `s.split(sep)` with an explicit one-letter separator: every separator cuts,
   * so neighbouring separators leave empty pieces and `"".split(sep)` is `[""]`.
   */
  function Split(s: string, sep: char): (parts: seq<string>)
    ensures |parts| >= 1
    ensures forall k :: 0 <= k < |parts| ==> sep !in parts[k]
    ensures Join(parts, sep) == s
    ensures sep !in s ==> parts == [s]
    decreases |s|
  {
    if |s| == 0 then [""]
    else
      var rest := Split(s[1..], sep);
      if s[0] == sep then
        assert ([""] + rest)[1..] == rest;
        [""] + rest
      else
        var parts := [[s[0]] + rest[0]] + rest[1..];
        assert parts[1..] == rest[1..];
        assert s == [s[0]] + s[1..];
        parts
  }

  /** Splitting after a separator-free first piece peels that piece off. */
  lemma {:induction false} SplitAfterPiece(piece: string, sep: char, rest: string)
    requires sep !in piece
    ensures Split(piece + [sep] + rest, sep) == [piece] + Split(rest, sep)
    decreases |piece|
  {
    var s := piece + [sep] + rest;
    if |piece| == 0 {
      assert s[0] == sep && s[1..] == rest;
    } else {
      assert s[0] == piece[0];
      assert s[1..] == piece[1..] + [sep] + rest;
      SplitAfterPiece(piece[1..], sep, rest);
      assert [piece[0]] + piece[1..] == piece;
    }
  }

  /** `split` undoes `join` when no piece holds the separator. */
  lemma {:induction false} SplitJoin(parts: seq<string>, sep: char)
    requires |parts| >= 1
    requires forall k :: 0 <= k < |parts| ==> sep !in parts[k]
    ensures Split(Join(parts, sep), sep) == parts
    decreases |parts|
  {
    if |parts| > 1 {
      SplitAfterPiece(parts[0], sep, Join(parts[1..], sep));
      SplitJoin(parts[1..], sep);
      assert [parts[0]] + parts[1..] == parts;
    }
  }

  /** The ASCII decimal digits; Python's `isdigit` also admits other Unicode digits. */
  predicate IsDigitChar(c: char) {
    '0' <= c <= '9'
  }

  /** Python's `s.isdigit()`: non-empty and made of digits only. */
  predicate IsDigits(s: string) {
    |s| > 0 && forall k :: 0 <= k < |s| ==> IsDigitChar(s[k])
  }

  /** Python's `int(s)` for a digit string (leading zeros allowed). */
  function DigitsValue(s: string): nat
    requires forall k :: 0 <= k < |s| ==> IsDigitChar(s[k])
  {
    if |s| == 0 then 0
    else DigitsValue(s[..|s| - 1]) * 10 + DigitOf(s[|s| - 1])
  }

  function DigitOf(c: char): (d: nat)
    requires IsDigitChar(c)
    ensures d < 10
  {
    c as int - '0' as int
  }

  function DigitChar(d: nat): (c: char)
    requires d < 10
    ensures IsDigitChar(c) && DigitOf(c) == d
  {
    ('0' as int + d) as char
  }

  /** Python's `str(n)` for a non-negative integer: its decimal digits, no leading zero. */
  function NatToDigits(n: nat): (s: string)
    ensures IsDigits(s)
    ensures |s| > 1 ==> s[0] != '0'
  {
    if n < 10 then [DigitChar(n)] else NatToDigits(n / 10) + [DigitChar(n % 10)]
  }

  /** `int(str(n)) == n`. */
  lemma {:induction false} DigitsRoundTrip(n: nat)
    ensures DigitsValue(NatToDigits(n)) == n
  {
    if n >= 10 {
      var s := NatToDigits(n);
      assert s[..|s| - 1] == NatToDigits(n / 10);
      DigitsRoundTrip(n / 10);
    }
  }
}
