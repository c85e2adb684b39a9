/**
 * The functions of Go's `strings` package that the tool applies to command
 * output, on `seq<char>`. Each one is the instance the source uses: the
 * separators and replacement patterns it passes are fixed characters, so
 * `Split`, `RemoveAll` and `ReplaceCRLF` take exactly those shapes.
 */
module Strings {

  /** Go's `unicode.IsSpace`, which `strings.TrimSpace` trims. */
  predicate IsSpace(c: char) {
    || c == ' ' || c == '\t' || c == '\n' || c == '\U{000B}' || c == '\U{000C}' || c == '\r'
    || c == '\U{0085}' || c == '\U{00A0}' || c == '\U{1680}'
    || ('\U{2000}' <= c <= '\U{200A}')
    || c == '\U{2028}' || c == '\U{2029}' || c == '\U{202F}' || c == '\U{205F}' || c == '\U{3000}'
  }

  /** Neither the first nor the last character is white space. */
  predicate Trimmed(s: string) {
    s == [] || (!IsSpace(s[0]) && !IsSpace(s[|s| - 1]))
  }

  /** `strings.Contains(s, sub)`: `sub` occurs somewhere in `s`. */
  predicate Contains(s: string, sub: string) {
    exists i :: 0 <= i <= |s| && sub <= s[i..]
  }

  /** A one-character needle occurs exactly when the character does. */
  lemma ContainsChar(s: string, c: char)
    ensures Contains(s, [c]) <==> c in s
  {
    if c in s {
      var i :| 0 <= i < |s| && s[i] == c;
      assert [c] <= s[i..];
    }
    if Contains(s, [c]) {
      var i :| 0 <= i <= |s| && [c] <= s[i..];
      assert s[i..][0] == c;
    }
  }

  /** `strings.HasSuffix(s, x)`. */
  predicate EndsWith(s: string, x: string) {
    |x| <= |s| && s[|s| - |x|..] == x
  }

  /** `strings.Index(s, sub)`: the first position of `sub` in `s`, or -1. */
  function IndexOf(s: string, sub: string): (r: int)
    ensures -1 <= r <= |s|
    ensures r == -1 <==> !Contains(s, sub)
    ensures 0 <= r ==> sub <= s[r..] && forall j :: 0 <= j < r ==> !(sub <= s[j..])
    decreases |s|
  {
    if sub <= s then 0
    else if s == [] then -1
    else
      var k := IndexOf(s[1..], sub);
      assert forall j :: 1 <= j <= |s| ==> s[j..] == s[1..][j - 1..];
      if k < 0 then -1 else k + 1
  }

  /** The text before the first occurrence of `sub` does not contain it. */
  lemma BeforeFirstOccurrence(s: string, sub: string, idx: int)
    requires sub != [] && 0 <= idx <= |s|
    requires forall j :: 0 <= j < idx ==> !(sub <= s[j..])
    ensures !Contains(s[..idx], sub)
  {
    forall j | 0 <= j <= idx ensures !(sub <= s[..idx][j..]) {
      if j == idx {
        assert s[..idx][j..] == [];
      } else {
        assert s[..idx][j..] <= s[j..];
      }
    }
  }

  /** For a single character, `strings.Index` finds its first position. */
  lemma IndexOfChar(s: string, c: char)
    ensures IndexOf(s, [c]) == -1 <==> c !in s
    ensures IndexOf(s, [c]) >= 0 ==> IndexOf(s, [c]) < |s| && s[IndexOf(s, [c])] == c && c !in s[..IndexOf(s, [c])]
  {
    ContainsChar(s, c);
    var idx := IndexOf(s, [c]);
    if idx >= 0 {
      OneCharPrefix(s[idx..], c);
      forall j | 0 <= j < idx ensures s[..idx][j] != c {
        OneCharPrefix(s[j..], c);
      }
    }
  }

  /** A one-character prefix is the first character. */
  lemma OneCharPrefix(t: string, c: char)
    ensures [c] <= t <==> |t| > 0 && t[0] == c
  {
  }

  /** `strings.TrimLeft(s, space)`: drops the leading white space. */
  function TrimLeftSpace(s: string): (r: string)
    ensures |r| <= |s| && r == s[|s| - |r|..]
    ensures r == [] || !IsSpace(r[0])
    ensures forall i :: 0 <= i < |s| - |r| ==> IsSpace(s[i])
    decreases |s|
  {
    if s != [] && IsSpace(s[0]) then TrimLeftSpace(s[1..]) else s
  }

  /** `strings.TrimRight(s, space)`: drops the trailing white space. */
  function TrimRightSpace(s: string): (r: string)
    ensures |r| <= |s| && r == s[..|r|]
    ensures r == [] || !IsSpace(r[|r| - 1])
    ensures forall i :: |r| <= i < |s| ==> IsSpace(s[i])
    decreases |s|
  {
    if s != [] && IsSpace(s[|s| - 1]) then TrimRightSpace(s[..|s| - 1]) else s
  }

  /**
   * `strings.TrimSpace(s)`: the slice of `s` left when the white space at
   * both ends is removed.
   */
  function TrimSpace(s: string): (r: string)
    ensures Contains(s, r)
    ensures forall c :: c in r ==> c in s
    ensures r == [] || (!IsSpace(r[0]) && !IsSpace(r[|r| - 1]))
  {
    var left := TrimLeftSpace(s);
    var r := TrimRightSpace(left);
    assert r <= s[|s| - |left|..];
    r
  }

  /** What `TrimSpace` leaves is a slice of its input with only white space outside it. */
  lemma TrimSpaceSlice(s: string)
    ensures exists a, b :: TrimmedSlice(s, TrimSpace(s), a, b)
  {
    var left := TrimLeftSpace(s);
    var r := TrimRightSpace(left);
    TrimBothEnds(s, left, r);
    assert TrimmedSlice(s, TrimSpace(s), |s| - |left|, |s| - |left| + |r|);
  }

  /** Trimming the left and then the right end leaves a slice with only white space outside it. */
  lemma TrimBothEnds(s: string, left: string, r: string)
    requires |left| <= |s| && left == s[|s| - |left|..]
    requires forall i :: 0 <= i < |s| - |left| ==> IsSpace(s[i])
    requires |r| <= |left| && r == left[..|r|]
    requires forall i :: |r| <= i < |left| ==> IsSpace(left[i])
    ensures TrimmedSlice(s, r, |s| - |left|, |s| - |left| + |r|)
  {
    var a := |s| - |left|;
    assert r == s[a..a + |r|];
    forall k | a + |r| <= k < |s| ensures IsSpace(s[k]) {
      assert s[k] == left[k - a];
    }
  }

  /** `r` is `s[a..b]` and only white space lies outside it. */
  predicate TrimmedSlice(s: string, r: string, a: int, b: int) {
    && 0 <= a <= b <= |s| && r == s[a..b]
    && (forall k :: 0 <= k < a ==> IsSpace(s[k]))
    && (forall k :: b <= k < |s| ==> IsSpace(s[k]))
  }

  /** `strings.TrimPrefix(s, p)`. */
  function TrimPrefix(s: string, p: string): (r: string)
    ensures p <= s ==> s == p + r
    ensures !(p <= s) ==> r == s
  {
    if p <= s then s[|p|..] else s
  }

  /** `strings.TrimSuffix(s, x)`. */
  function TrimSuffix(s: string, x: string): (r: string)
    ensures EndsWith(s, x) ==> s == r + x
    ensures !EndsWith(s, x) ==> r == s
  {
    if EndsWith(s, x) then s[..|s| - |x|] else s
  }

  /** The upper-case form of an ASCII letter; every other character is kept. */
  function UpperChar(c: char): char {
    if 'a' <= c <= 'z' then (c as int - 32) as char else c
  }

  /** `strings.ToUpper`, restricted to the ASCII letters. */
  function ToUpper(s: string): (r: string)
    ensures |r| == |s|
    ensures forall i :: 0 <= i < |s| ==> r[i] == UpperChar(s[i])
  {
    seq(|s|, i requires 0 <= i < |s| => UpperChar(s[i]))
  }

  /** Go's `strings.EqualFold`, restricted to the ASCII letters. */
  predicate EqualFold(a: string, b: string) {
    |a| == |b| && forall i :: 0 <= i < |a| ==> UpperChar(a[i]) == UpperChar(b[i])
  }

  /** Against a word that is already upper case, upper-casing and `EqualFold` agree. */
  lemma ToUpperMatches(a: string, b: string)
    requires ToUpper(b) == b
    ensures ToUpper(a) == b <==> EqualFold(a, b)
  {
    if EqualFold(a, b) {
      assert forall i :: 0 <= i < |a| ==> ToUpper(a)[i] == ToUpper(b)[i];
    }
    if ToUpper(a) == b {
      assert forall i :: 0 <= i < |a| ==> UpperChar(a[i]) == ToUpper(b)[i];
    }
  }

  /** The number of occurrences of `c` in `s`. */
  function Count(s: string, c: char): nat
    decreases |s|
  {
    if s == [] then 0 else (if s[0] == c then 1 else 0) + Count(s[1..], c)
  }

  /** `strings.ReplaceAll(s, [c], "")`: every `c` removed, the rest kept in order. */
  function RemoveAll(s: string, c: char): (r: string)
    ensures c !in r
    ensures forall x :: x in r ==> x in s
    ensures |r| + Count(s, c) == |s|
    decreases |s|
  {
    if s == [] then [] else (if s[0] == c then [] else [s[0]]) + RemoveAll(s[1..], c)
  }

  /**
   * `strings.ReplaceAll(s, "\r\n", "\n")`: a left-to-right scan that
   * replaces each non-overlapping CR LF pair by LF.
   */
  function ReplaceCRLF(s: string): string
    decreases |s|
  {
    if |s| >= 2 && s[0] == '\r' && s[1] == '\n' then "\n" + ReplaceCRLF(s[2..])
    else if s == [] then []
    else [s[0]] + ReplaceCRLF(s[1..])
  }

  /** `strings.Split(s, [sep])`: the pieces of `s` between occurrences of `sep`. */
  function Split(s: string, sep: char): (parts: seq<string>)
    ensures |parts| >= 1
    decreases |s|
  {
    if s == [] then [[]]
    else
      var rest := Split(s[1..], sep);
      if s[0] == sep then [[]] + rest
      else [[s[0]] + rest[0]] + rest[1..]
  }

  /** `strings.Join(parts, [sep])`. */
  function Join(parts: seq<string>, sep: char): string
    decreases |parts|
  {
    if parts == [] then []
    else if |parts| == 1 then parts[0]
    else parts[0] + [sep] + Join(parts[1..], sep)
  }

  /** No piece of a split contains the separator. */
  lemma {:induction false} SplitNoSeparator(s: string, sep: char)
    ensures forall i :: 0 <= i < |Split(s, sep)| ==> sep !in Split(s, sep)[i]
    decreases |s|
  {
    if s != [] {
      SplitNoSeparator(s[1..], sep);
    }
  }

  /** Joining the pieces with the separator gives back the split text. */
  lemma {:induction false} SplitJoin(s: string, sep: char)
    ensures Join(Split(s, sep), sep) == s
    decreases |s|
  {
    if s != [] {
      var rest := Split(s[1..], sep);
      SplitJoin(s[1..], sep);
      if s[0] == sep {
        JoinEmptyFirst(rest, sep);
        assert s == [sep] + s[1..];
      } else {
        JoinExtendFirst(s[0], rest, sep);
        assert s == [s[0]] + s[1..];
      }
    }
  }

  /** An empty first piece joins to a leading separator. */
  lemma JoinEmptyFirst(parts: seq<string>, sep: char)
    requires |parts| >= 1
    ensures Join([[]] + parts, sep) == [sep] + Join(parts, sep)
  {
    assert ([[]] + parts)[1..] == parts;
  }

  /** A character put in front of the first piece comes first in the join. */
  lemma JoinExtendFirst(c: char, parts: seq<string>, sep: char)
    requires |parts| >= 1
    ensures Join([[c] + parts[0]] + parts[1..], sep) == [c] + Join(parts, sep)
  {
    var joined := [[c] + parts[0]] + parts[1..];
    if |parts| > 1 {
      assert joined[1..] == parts[1..];
      assert ([c] + parts[0]) + [sep] + Join(parts[1..], sep) == [c] + (parts[0] + [sep] + Join(parts[1..], sep));
    }
  }

  /** A split has one piece more than there are separators. */
  lemma {:induction false} SplitCount(s: string, sep: char)
    ensures |Split(s, sep)| == Count(s, sep) + 1
    decreases |s|
  {
    if s != [] {
      SplitCount(s[1..], sep);
    }
  }

  /**
   * The first piece is the text before the first separator: a prefix of `s`
   * without the separator, followed in `s` by the separator or by nothing.
   */
  lemma {:induction false} SplitFirst(s: string, sep: char)
    ensures Split(s, sep)[0] <= s
    ensures sep !in Split(s, sep)[0]
    ensures |Split(s, sep)[0]| < |s| ==> s[|Split(s, sep)[0]|] == sep
    decreases |s|
  {
    if s != [] {
      SplitFirst(s[1..], sep);
    }
  }
}
