/** String helpers shared by the modules: prefix tests, `split`/`join` on one
    separator character, and decimal rendering of integers. */
module Strings {
  import opened Wrappers

  predicate StartsWith(s: string, prefix: string) {
    |prefix| <= |s| && s[..|prefix|] == prefix
  }

  /** Index of the first occurrence of `c` in `s`, or -1. */
  function IndexOf(s: string, c: char): (r: int)
    ensures -1 <= r < |s|
    ensures r >= 0 ==> s[r] == c && c !in s[..r]
    ensures r == -1 <==> c !in s
  {
    if |s| == 0 then -1
    else if s[0] == c then 0
    else
      var k := IndexOf(s[1..], c);
      assert s[1..] == s[1..][..];
      if k == -1 then -1
      else
        assert s[..k + 1] == [s[0]] + s[1..][..k];
        k + 1
  }

  /** The first occurrence is the one with no earlier occurrence. */
  lemma IndexOfAt(s: string, c: char, k: nat)
    requires k < |s| && s[k] == c && c !in s[..k]
    ensures IndexOf(s, c) == k
  {
  }

  /** JavaScript's `s.split(sep)` for a one-character separator. */
  function Split(s: string, sep: char): (parts: seq<string>)
    ensures |parts| >= 1
    ensures forall i :: 0 <= i < |parts| ==> sep !in parts[i]
    decreases |s|
  {
    var k := IndexOf(s, sep);
    if k == -1 then [s]
    else [s[..k]] + Split(s[k + 1..], sep)
  }

  /** JavaScript's `parts.join(sep)`. */
  function Join(parts: seq<string>, sep: string): string {
    if |parts| == 0 then ""
    else if |parts| == 1 then parts[0]
    else parts[0] + sep + Join(parts[1..], sep)
  }

  lemma JoinCons(x: string, t: seq<string>, sep: string)
    requires |t| >= 1
    ensures Join([x] + t, sep) == x + sep + Join(t, sep)
  {
    assert ([x] + t)[1..] == t;
  }

  /** Splitting and re-joining on the same separator gives back the input. */
  lemma {:induction false} JoinSplit(s: string, sep: char)
    ensures Join(Split(s, sep), [sep]) == s
    decreases |s|
  {
    var k := IndexOf(s, sep);
    if k != -1 {
      var rest := s[k + 1..];
      var tail := Split(rest, sep);
      SplitAtFirst(s, sep, k);
      JoinSplit(rest, sep);
      JoinCons(s[..k], tail, [sep]);
      assert s == s[..k] + [sep] + rest;
    }
  }

  /** The first part of the split is everything before the first separator. */
  lemma SplitHead(a: string, sep: char, b: string)
    requires sep !in a
    ensures Split(a + [sep] + b, sep) == [a] + Split(b, sep)
  {
    var s := a + [sep] + b;
    assert s[|a|] == sep;
    assert s[..|a|] == a;
    assert s[|a| + 1..] == b;
  }

  lemma ConsTwo(a: string, b: string, xs: seq<string>)
    ensures [a] + ([b] + xs) == [a, b] + xs
  {
  }

  lemma AppendAssoc(x: string, y: string, z: string)
    ensures x + y + z == x + (y + z)
  {
  }

  lemma SplitTwoHeads(a: string, b: string, sep: char, rest: string)
    requires sep !in a && sep !in b
    ensures Split(a + [sep] + b + [sep] + rest, sep) == [a, b] + Split(rest, sep)
  {
    var tail := b + [sep] + rest;
    var head := a + [sep];
    AppendAssoc(head + b, [sep], rest);
    AppendAssoc(head, b, [sep] + rest);
    AppendAssoc(b, [sep], rest);
    assert a + [sep] + b + [sep] + rest == head + tail;
    SplitHead(a, sep, tail);
    SplitHead(b, sep, rest);
    ConsTwo(a, b, Split(rest, sep));
  }

  lemma SplitNoSep(a: string, sep: char)
    requires sep !in a
    ensures Split(a, sep) == [a]
  {
  }

  /** The first part of `a + tail` is `a` when `tail` is empty or starts with the separator. */
  lemma SplitFirst(a: string, sep: char, tail: string)
    requires sep !in a
    requires tail == "" || tail[0] == sep
    ensures Split(a + tail, sep)[0] == a
  {
    if tail == "" {
      assert a + tail == a;
      SplitNoSep(a, sep);
    } else {
      assert a + tail == a + [sep] + tail[1..];
      SplitHead(a, sep, tail[1..]);
    }
  }

  /** The split at a known first separator. */
  lemma SplitAtFirst(s: string, sep: char, k: nat)
    requires k < |s| && s[k] == sep && sep !in s[..k]
    ensures Split(s, sep) == [s[..k]] + Split(s[k + 1..], sep)
  {
    IndexOfAt(s, sep, k);
  }

  function Last(parts: seq<string>): string
    requires |parts| > 0
  {
    parts[|parts| - 1]
  }

  lemma LastCons(x: string, t: seq<string>)
    requires |t| > 0
    ensures Last([x] + t) == Last(t)
  {
  }

  /** `part` ends `s` and is either all of `s` or preceded by the separator. */
  predicate SuffixAfter(s: string, part: string, sep: char) {
    |part| <= |s| && s[|s| - |part|..] == part &&
    (|part| < |s| ==> s[|s| - |part| - 1] == sep)
  }

  lemma SuffixAfterWhole(s: string, sep: char)
    ensures SuffixAfter(s, s, sep)
  {
    assert s[0..] == s;
  }

  lemma SuffixAfterStep(s: string, k: nat, rest: string, part: string, sep: char)
    requires k < |s| && s[k] == sep && rest == s[k + 1..]
    requires SuffixAfter(rest, part, sep)
    ensures SuffixAfter(s, part, sep)
  {
    assert rest[|rest| - |part|..] == s[|s| - |part|..];
  }

  /** The last part of the split is the text after the last separator. */
  lemma {:induction false} SplitLast(s: string, sep: char)
    ensures SuffixAfter(s, Last(Split(s, sep)), sep)
    decreases |s|
  {
    var k := IndexOf(s, sep);
    if k == -1 {
      SplitNoSep(s, sep);
      assert Last(Split(s, sep)) == s;
      SuffixAfterWhole(s, sep);
    } else {
      var rest := s[k + 1..];
      SplitLast(rest, sep);
      SplitAtFirst(s, sep, k);
      var tail := Split(rest, sep);
      LastCons(s[..k], tail);
      SuffixAfterStep(s, k, rest, Last(tail), sep);
    }
  }

  /** The text after the last occurrence of `sep` (`s.split(sep).pop()`). */
  function LastSegment(s: string, sep: char): (r: string)
    ensures sep !in r
    ensures SuffixAfter(s, r, sep)
  {
    SplitLast(s, sep);
    Last(Split(s, sep))
  }

  // ---- UTF-16 length ------------------------------------------------------

  /** Code units of one scalar value: two above the Basic Multilingual Plane. */
  function Utf16Units(c: char): nat {
    if (c as int) >= 0x10000 then 2 else 1
  }

  /** JavaScript's `s.length`: the number of UTF-16 code units. */
  function Utf16Length(s: string): (n: nat)
    ensures |s| <= n <= 2 * |s|
  {
    if |s| == 0 then 0 else Utf16Units(s[0]) + Utf16Length(s[1..])
  }

  lemma {:induction false} Utf16LengthAppend(a: string, b: string)
    ensures Utf16Length(a + b) == Utf16Length(a) + Utf16Length(b)
  {
    if |a| == 0 {
      assert a + b == b;
    } else {
      assert (a + b)[1..] == a[1..] + b;
      Utf16LengthAppend(a[1..], b);
    }
  }

  /** A prefix is never longer than the whole. */
  lemma Utf16LengthPrefix(s: string, k: nat)
    requires k <= |s|
    ensures Utf16Length(s[..k]) <= Utf16Length(s)
  {
    assert s == s[..k] + s[k..];
    Utf16LengthAppend(s[..k], s[k..]);
  }

  // ---- decimal digits -------------------------------------------------------

  predicate IsDigit(c: char) { '0' <= c <= '9' }

  function DigitChar(d: nat): (c: char)
    requires d < 10
    ensures IsDigit(c) && (c as int) - ('0' as int) == d
  {
    ('0' as int + d) as char
  }

  /** JavaScript's `String(n)` for a non-negative integer below 1e21. */
  function NatToString(n: nat): (s: string)
    ensures |s| >= 1
    ensures forall i :: 0 <= i < |s| ==> IsDigit(s[i])
  {
    if n < 10 then [DigitChar(n)]
    else NatToString(n / 10) + [DigitChar(n % 10)]
  }

  /** JavaScript's `String(i)` for an integer below 1e21 in magnitude. */
  function IntToString(i: int): string {
    if i < 0 then "-" + NatToString(-i) else NatToString(i)
  }

  /** The value of a string of decimal digits; `None` if any character is not a digit
      or the string is empty. */
  function ParseNat(s: string): Option<nat> {
    if |s| == 0 || !IsDigit(s[|s| - 1]) then None
    else if |s| == 1 then Some((s[0] as int) - ('0' as int))
    else
      match ParseNat(s[..|s| - 1])
      case None => None
      case Some(v) => Some(v * 10 + ((s[|s| - 1] as int) - ('0' as int)))
  }

  lemma {:induction false} ParseNatToString(n: nat)
    ensures ParseNat(NatToString(n)) == Some(n)
  {
    if n >= 10 {
      var s := NatToString(n);
      ParseNatToString(n / 10);
      assert s[..|s| - 1] == NatToString(n / 10);
    }
  }

}
