/** String operations the bridge relies on: `indexOf`, a single-character
    `replace`, `split` and `join` on one separator, and number formatting. */
module Text {
  import opened Wrappers

  /** `sub` occurs in `s` starting at index `i`. */
  predicate OccursAt(s: string, sub: string, i: int) {
    0 <= i && i + |sub| <= |s| && s[i..i + |sub|] == sub
  }

  /** The first index at or after `from` where `sub` occurs, or -1. */
  function IndexFrom(s: string, sub: string, from: nat): (r: int)
    ensures r == -1 || (from <= r && OccursAt(s, sub, r))
    ensures r == -1 ==> forall i :: from <= i ==> !OccursAt(s, sub, i)
    ensures r != -1 ==> forall i :: from <= i < r ==> !OccursAt(s, sub, i)
    decreases |s| - from
  {
    if |s| < from + |sub| then -1
    else if s[from..from + |sub|] == sub then from
    else IndexFrom(s, sub, from + 1)
  }

  /** JavaScript's `s.indexOf(sub)`: the first index where `sub` occurs, or -1. */
  function IndexOf(s: string, sub: string): (r: int)
    ensures r == -1 <==> forall i :: !OccursAt(s, sub, i)
    ensures r != -1 ==> OccursAt(s, sub, r) && forall i :: 0 <= i < r ==> !OccursAt(s, sub, i)
  {
    IndexFrom(s, sub, 0)
  }

  /** `s.indexOf(sub) > -1`. */
  predicate Contains(s: string, sub: string) {
    IndexOf(s, sub) > -1
  }

  /** The first occurrence of `c` in `a + [c] + b` is right after `a` when
      `a` holds no `c`. */
  lemma IndexOfAfterFree(a: string, c: char, b: string)
    requires c !in a
    ensures IndexOf(a + [c] + b, [c]) == |a|
  {
    var s := a + [c] + b;
    assert OccursAt(s, [c], |a|);
    forall i | 0 <= i < |a| ensures !OccursAt(s, [c], i) {
      assert s[i] == a[i];
      assert s[i..i + 1] == [s[i]];
    }
  }

  /** Number of occurrences of character `c` in `s`. */
  function Count(s: string, c: char): nat {
    if |s| == 0 then 0 else (if s[0] == c then 1 else 0) + Count(s[1..], c)
  }

  /** The index of the first `c` in `s`, or `|s|` when there is none. */
  function CharIndex(s: string, c: char): (k: nat)
    ensures k <= |s|
    ensures k < |s| ==> s[k] == c
    ensures forall i :: 0 <= i < k ==> s[i] != c
    ensures k == |s| <==> c !in s
  {
    if |s| == 0 then 0 else if s[0] == c then 0 else 1 + CharIndex(s[1..], c)
  }

  /** JavaScript's `s.replace(/x/, y)` for a one-character pattern: only the
      first occurrence of `from` is replaced by `to`. */
  function ReplaceFirst(s: string, from: char, to: char): (r: string)
    ensures |r| == |s|
    ensures forall i :: 0 <= i < |s| ==> r[i] == (if i == CharIndex(s, from) then to else s[i])
  {
    if |s| == 0 then s
    else if s[0] == from then [to] + s[1..]
    else [s[0]] + ReplaceFirst(s[1..], from, to)
  }

  /** A string without `from` is left as it is. */
  lemma ReplaceFirstAbsent(s: string, from: char, to: char)
    requires from !in s
    ensures ReplaceFirst(s, from, to) == s
  {
    var r := ReplaceFirst(s, from, to);
    assert forall i :: 0 <= i < |s| ==> r[i] == s[i];
  }

  lemma {:induction false} ReplaceFirstCountOther(s: string, from: char, to: char, c: char)
    requires c != from && c != to
    ensures Count(ReplaceFirst(s, from, to), c) == Count(s, c)
  {
    if |s| > 0 && s[0] != from {
      ReplaceFirstCountOther(s[1..], from, to, c);
      assert ([s[0]] + ReplaceFirst(s[1..], from, to))[1..] == ReplaceFirst(s[1..], from, to);
    } else if |s| > 0 {
      assert ([to] + s[1..])[1..] == s[1..];
    }
  }

  /** Every occurrence of `from` replaced by `to`. */
  function ReplaceAll(s: string, from: char, to: char): (r: string)
    ensures |r| == |s|
    ensures forall i :: 0 <= i < |s| ==> r[i] == (if s[i] == from then to else s[i])
  {
    if |s| == 0 then s
    else [if s[0] == from then to else s[0]] + ReplaceAll(s[1..], from, to)
  }

  /** JavaScript's `s.split(c)` for a one-character separator: the maximal runs
      between separators, including empty ones; the empty string splits to `[""]`. */
  function Split(s: string, sep: char): (parts: seq<string>)
    ensures |parts| >= 1
  {
    if |s| == 0 then [""]
    else
      var rest := Split(s[1..], sep);
      if s[0] == sep then [""] + rest
      else [[s[0]] + rest[0]] + rest[1..]
  }

  /** JavaScript's `parts.join(sep)`; the empty array joins to `""`. */
  function Join(parts: seq<string>, sep: string): string {
    if |parts| == 0 then ""
    else if |parts| == 1 then parts[0]
    else parts[0] + sep + Join(parts[1..], sep)
  }

  /** No part produced by `Split` contains the separator. */
  lemma {:induction false} SplitPartsFree(s: string, sep: char)
    ensures forall i :: 0 <= i < |Split(s, sep)| ==> sep !in Split(s, sep)[i]
  {
    if |s| > 0 {
      SplitPartsFree(s[1..], sep);
    }
  }

  /** `Split` yields one more part than there are separators. */
  lemma {:induction false} SplitCount(s: string, sep: char)
    ensures |Split(s, sep)| == Count(s, sep) + 1
  {
    if |s| > 0 {
      SplitCount(s[1..], sep);
    }
  }

  /** Joining the parts with the separator gives back the string. */
  lemma {:induction false} JoinSplit(s: string, sep: char)
    ensures Join(Split(s, sep), [sep]) == s
  {
    if |s| > 0 {
      var rest := Split(s[1..], sep);
      JoinSplit(s[1..], sep);
      if s[0] == sep {
        assert Split(s, sep) == [""] + rest;
        assert ([""] + rest)[1..] == rest;
      } else {
        var first := [s[0]] + rest[0];
        assert Split(s, sep) == [first] + rest[1..];
        if |rest| == 1 {
          assert Join(rest, [sep]) == rest[0];
        } else {
          assert Join(rest, [sep]) == rest[0] + [sep] + Join(rest[1..], [sep]);
          assert ([first] + rest[1..])[1..] == rest[1..];
        }
      }
    }
  }

  /** A separator-free string ahead of a separator becomes one whole part. */
  lemma {:induction false} SplitFreePrefix(p: string, t: string, sep: char)
    requires sep !in p
    ensures Split(p + [sep] + t, sep) == [p] + Split(t, sep)
    ensures Split(p, sep) == [p]
  {
    if |p| > 0 {
      SplitFreePrefix(p[1..], t, sep);
      assert (p + [sep] + t)[1..] == p[1..] + [sep] + t;
      assert [p[0]] + p[1..] == p;
    }
  }

  /** Splitting a join of separator-free parts gives back the parts. */
  lemma {:induction false} SplitJoin(parts: seq<string>, sep: char)
    requires |parts| >= 1
    requires forall i :: 0 <= i < |parts| ==> sep !in parts[i]
    ensures Split(Join(parts, [sep]), sep) == parts
  {
    if |parts| == 1 {
      SplitFreePrefix(parts[0], "", sep);
    } else {
      SplitJoin(parts[1..], sep);
      SplitFreePrefix(parts[0], Join(parts[1..], [sep]), sep);
      assert [parts[0]] + parts[1..] == parts;
    }
  }

  /** Joining the parts of a split on one character with another character
      replaces every separator. */
  lemma {:induction false} JoinSplitReplaces(s: string, sep: char, glue: char)
    ensures Join(Split(s, sep), [glue]) == ReplaceAll(s, sep, glue)
  {
    if |s| > 0 {
      var rest := Split(s[1..], sep);
      JoinSplitReplaces(s[1..], sep, glue);
      if s[0] == sep {
        assert ([""] + rest)[1..] == rest;
      } else {
        var first := [s[0]] + rest[0];
        if |rest| > 1 {
          assert Join(rest, [glue]) == rest[0] + [glue] + Join(rest[1..], [glue]);
          assert ([first] + rest[1..])[1..] == rest[1..];
        }
      }
    }
  }

  predicate IsDigit(c: char) {
    '0' <= c <= '9'
  }

  function DigitChar(d: nat): (c: char)
    requires d < 10
    ensures IsDigit(c)
  {
    ['0', '1', '2', '3', '4', '5', '6', '7', '8', '9'][d]
  }

  function DigitValue(c: char): (d: nat)
    requires IsDigit(c)
    ensures d < 10 && DigitChar(d) == c
  {
    if c == '0' then 0 else if c == '1' then 1 else if c == '2' then 2
    else if c == '3' then 3 else if c == '4' then 4 else if c == '5' then 5
    else if c == '6' then 6 else if c == '7' then 7 else if c == '8' then 8 else 9
  }

  /** The decimal digits of `n`, most significant first, without leading zeros. */
  function NatToString(n: nat): (r: string)
    ensures |r| >= 1
    ensures forall i :: 0 <= i < |r| ==> IsDigit(r[i])
    ensures r[0] == '0' ==> n == 0
  {
    if n < 10 then [DigitChar(n)] else NatToString(n / 10) + [DigitChar(n % 10)]
  }

  /** The number a non-empty string of decimal digits denotes. */
  function DigitsValue(s: string): nat
    requires AllDigits(s)
  {
    if |s| == 0 then 0 else DigitsValue(s[..|s| - 1]) * 10 + DigitValue(s[|s| - 1])
  }

  lemma {:induction false} NatToStringRoundTrip(n: nat)
    ensures DigitsValue(NatToString(n)) == n
  {
    if n >= 10 {
      NatToStringRoundTrip(n / 10);
      var s := NatToString(n);
      assert s[..|s| - 1] == NatToString(n / 10);
      assert DigitValue(DigitChar(n % 10)) == n % 10;
    } else {
      assert DigitValue(DigitChar(n)) == n;
    }
  }

  /** How JavaScript renders an integer-valued number in string concatenation. */
  function IntToString(i: int): (r: string)
    ensures |r| >= 1
    ensures forall k :: 0 <= k < |r| ==> IsDigit(r[k]) || (k == 0 && r[k] == '-')
  {
    if i < 0 then "-" + NatToString(-i) else NatToString(i)
  }

  predicate AllDigits(s: string) {
    forall i :: 0 <= i < |s| ==> IsDigit(s[i])
  }

  /** Reads back a rendered integer: an optional `-` followed by digits. */
  function ParseInt(s: string): Option<int> {
    if |s| > 1 && s[0] == '-' && AllDigits(s[1..]) then Some(0 - DigitsValue(s[1..]))
    else if |s| > 0 && AllDigits(s) then Some(DigitsValue(s))
    else None
  }

  lemma IntToStringRoundTrip(i: int)
    ensures ParseInt(IntToString(i)) == Some(i)
  {
    if i < 0 {
      var d := NatToString(-i);
      NatToStringRoundTrip(-i);
      var r := "-" + d;
      assert r[1..] == d;
      assert AllDigits(d);
      assert r == IntToString(i);
    } else {
      NatToStringRoundTrip(i);
      assert AllDigits(NatToString(i));
    }
  }
}
