/** util/string.go: splitting command output into lines. */
module Lines {
  import opened Strings

  /** `MultiLine`: CR LF pairs become LF, then the text is split at every LF. */
  function MultiLine(s: string): (lines: seq<string>)
    ensures |lines| >= 1
  {
    Split(ReplaceCRLF(s), '\n')
  }

  /** `s` holds no CR LF pair. */
  predicate NoCRLF(s: string) {
    forall i :: 0 <= i < |s| - 1 ==> !(s[i] == '\r' && s[i + 1] == '\n')
  }

  /** Empty output is one empty line, not zero lines. */
  lemma MultiLineEmpty()
    ensures MultiLine("") == [""]
  {
  }

  /** No line holds a line feed. */
  lemma MultiLineNoNewline(s: string)
    ensures forall i :: 0 <= i < |MultiLine(s)| ==> '\n' !in MultiLine(s)[i]
  {
    SplitNoSeparator(ReplaceCRLF(s), '\n');
  }

  /** Joining the lines with LF gives the CR LF normalised text. */
  lemma MultiLineJoin(s: string)
    ensures Join(MultiLine(s), '\n') == ReplaceCRLF(s)
  {
    SplitJoin(ReplaceCRLF(s), '\n');
  }

  /** There is one line more than the normalised text has line feeds. */
  lemma MultiLineCount(s: string)
    ensures |MultiLine(s)| == Count(ReplaceCRLF(s), '\n') + 1
  {
    SplitCount(ReplaceCRLF(s), '\n');
  }

  /** Text without a CR LF pair is not changed by the normalisation. */
  lemma {:induction false} ReplaceCRLFIdentity(s: string)
    requires NoCRLF(s)
    ensures ReplaceCRLF(s) == s
    decreases |s|
  {
    if s != [] {
      assert NoCRLF(s[1..]) by {
        forall i | 0 <= i < |s[1..]| - 1 ensures !(s[1..][i] == '\r' && s[1..][i + 1] == '\n') {
          assert s[1..][i] == s[i + 1] && s[1..][i + 1] == s[i + 2];
        }
      }
      ReplaceCRLFIdentity(s[1..]);
    }
  }

  /** So for text without a CR LF pair the lines joined with LF are the text itself. */
  lemma MultiLineJoinNoCRLF(s: string)
    requires NoCRLF(s)
    ensures Join(MultiLine(s), '\n') == s
  {
    ReplaceCRLFIdentity(s);
    MultiLineJoin(s);
  }

  /**
   * A CR that is not followed by LF survives the normalisation, and text on
   * either side of it is normalised on its own.
   */
  lemma {:induction false} LoneCRPreserved(a: string, b: string)
    requires b == [] || b[0] != '\n'
    ensures ReplaceCRLF(a + ['\r'] + b) == ReplaceCRLF(a) + ['\r'] + ReplaceCRLF(b)
    decreases |a|
  {
    if a == [] {
      LoneCRFirst(b);
    } else {
      var t, head := FirstStep(a, b);
      LoneCRPreserved(t, b);
      Regroup(head, ReplaceCRLF(t), ReplaceCRLF(b));
    }
  }

  /** A CR at the very start that no LF follows is kept. */
  lemma LoneCRFirst(b: string)
    requires b == [] || b[0] != '\n'
    ensures ReplaceCRLF([] + ['\r'] + b) == ReplaceCRLF([]) + ['\r'] + ReplaceCRLF(b)
  {
    assert [] + ['\r'] + b == ['\r'] + b;
    ReplaceCRLFKeeps('\r', b);
  }

  /** Moving the first piece into a concatenation with a CR. */
  lemma Regroup(x: string, y: string, z: string)
    ensures x + (y + ['\r'] + z) == (x + y) + ['\r'] + z
  {
  }

  /** The first step of the normalisation, taken on `a` alone and on `a` followed by a lone CR. */
  lemma FirstStep(a: string, b: string) returns (t: string, head: string)
    requires a != []
    requires b == [] || b[0] != '\n'
    ensures |t| < |a|
    ensures ReplaceCRLF(a) == head + ReplaceCRLF(t)
    ensures ReplaceCRLF(a + ['\r'] + b) == head + ReplaceCRLF(t + ['\r'] + b)
  {
    if |a| >= 2 && a[0] == '\r' && a[1] == '\n' {
      t, head := a[2..], "\n";
      PairFirst(a, b);
    } else {
      t, head := a[1..], [a[0]];
      KeepFirst(a, b);
    }
  }

  /** Text that opens with CR LF. */
  lemma PairFirst(a: string, b: string)
    requires |a| >= 2 && a[0] == '\r' && a[1] == '\n'
    ensures ReplaceCRLF(a) == "\n" + ReplaceCRLF(a[2..])
    ensures ReplaceCRLF(a + ['\r'] + b) == "\n" + ReplaceCRLF(a[2..] + ['\r'] + b)
  {
    var s := a + ['\r'] + b;
    assert s[0] == '\r' && s[1] == '\n';
    assert s[2..] == a[2..] + ['\r'] + b;
  }

  /** Text whose first character is kept. */
  lemma KeepFirst(a: string, b: string)
    requires a != [] && !(|a| >= 2 && a[0] == '\r' && a[1] == '\n')
    requires b == [] || b[0] != '\n'
    ensures ReplaceCRLF(a) == [a[0]] + ReplaceCRLF(a[1..])
    ensures ReplaceCRLF(a + ['\r'] + b) == [a[0]] + ReplaceCRLF(a[1..] + ['\r'] + b)
  {
    var s := a + ['\r'] + b;
    assert s[0] == a[0];
    assert s[1] == if |a| == 1 then '\r' else a[1];
    assert s[1..] == a[1..] + ['\r'] + b;
  }

  /** The normalisation never lengthens the text and keeps every line break. */
  lemma {:induction false} ReplaceCRLFCount(s: string)
    ensures |ReplaceCRLF(s)| <= |s|
    ensures Count(ReplaceCRLF(s), '\n') == Count(s, '\n')
    decreases |s|
  {
    if |s| >= 2 && s[0] == '\r' && s[1] == '\n' {
      ReplaceCRLFCount(s[2..]);
      var t := ReplaceCRLF(s[2..]);
      assert ("\n" + t)[1..] == t && s[1..][1..] == s[2..];
    } else if s != [] {
      ReplaceCRLFCount(s[1..]);
      var t := ReplaceCRLF(s[1..]);
      assert ([s[0]] + t)[1..] == t;
    }
  }

  /** A CR LF pair becomes a single LF. */
  lemma ReplaceCRLFPair(t: string)
    ensures ReplaceCRLF("\r\n" + t) == "\n" + ReplaceCRLF(t)
  {
    assert ("\r\n" + t)[2..] == t;
  }

  /** A character that does not open a CR LF pair is kept as it is. */
  lemma ReplaceCRLFKeeps(x: char, t: string)
    requires x != '\r' || t == [] || t[0] != '\n'
    ensures ReplaceCRLF([x] + t) == [x] + ReplaceCRLF(t)
  {
    assert ([x] + t)[1..] == t;
  }
}
