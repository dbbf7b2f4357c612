/** The string methods the source relies on: `strip`, `splitlines`, `startswith` and `lower`, with Python's character
    classes. */
module Text {

  predicate InRanges(c: char, ranges: seq<(char, char)>) {
    ranges != [] && (ranges[0].0 <= c <= ranges[0].1 || InRanges(c, ranges[1..]))
  }

  const WIDE_SPACES: seq<(char, char)> := [
    ('\U{0085}', '\U{0085}'), ('\U{00A0}', '\U{00A0}'), ('\U{1680}', '\U{1680}'), ('\U{2000}', '\U{200A}'),
    ('\U{2028}', '\U{2029}'), ('\U{202F}', '\U{202F}'), ('\U{205F}', '\U{205F}'), ('\U{3000}', '\U{3000}')]

  /** `str.isspace` on one character. */
  predicate IsSpace(c: char) {
    '\U{0009}' <= c <= '\U{000D}' || '\U{001C}' <= c <= ' ' || (c >= '\U{0080}' && InRanges(c, WIDE_SPACES))
  }

  /** The characters at which `str.splitlines` breaks. */
  predicate IsLineBreak(c: char) {
    || '\U{000A}' <= c <= '\U{000D}' || '\U{001C}' <= c <= '\U{001E}'
    || c == '\U{0085}' || c == '\U{2028}' || c == '\U{2029}'
  }

  function LStrip(s: string): string {
    if s != [] && IsSpace(s[0]) then LStrip(s[1..]) else s
  }

  function RStrip(s: string): string {
    if s != [] && IsSpace(s[|s| - 1]) then RStrip(s[..|s| - 1]) else s
  }

  function Strip(s: string): string {
    LStrip(RStrip(s))
  }

  predicate Blank(s: string) { forall i :: 0 <= i < |s| ==> IsSpace(s[i]) }

  predicate Trimmed(s: string) {
    s == [] || (!IsSpace(s[0]) && !IsSpace(s[|s| - 1]))
  }

  lemma {:induction false} LStripShape(s: string)
    ensures var r := LStrip(s);
      && |r| <= |s| && r == s[|s| - |r|..]
      && (r == [] || !IsSpace(r[0]))
      && (r == [] <==> Blank(s))
  {
    hide IsSpace, Blank;
    if s != [] && IsSpace(s[0]) {
      LStripShape(s[1..]);
      BlankTail(s);
      assert s[|s| - |LStrip(s)|..] == s[1..][|s| - 1 - |LStrip(s)|..];
    } else {
      BlankHead(s);
    }
  }

  lemma BlankTail(s: string)
    requires s != [] && IsSpace(s[0])
    ensures Blank(s) <==> Blank(s[1..])
  {
    hide IsSpace;
    assert forall i :: 0 < i < |s| ==> s[i] == s[1..][i - 1];
    assert forall i :: 0 <= i < |s[1..]| ==> s[1..][i] == s[i + 1];
  }

  lemma BlankHead(s: string)
    requires s == [] || !IsSpace(s[0])
    ensures s == [] <==> Blank(s)
  {
  }

  lemma {:induction false} RStripShape(s: string)
    ensures var r := RStrip(s);
      && |r| <= |s| && r == s[..|r|]
      && (r == [] || !IsSpace(r[|r| - 1]))
      && (forall i :: |r| <= i < |s| ==> IsSpace(s[i]))
  {
    if s != [] && IsSpace(s[|s| - 1]) {
      RStripShape(s[..|s| - 1]);
    }
  }

  lemma StripTrims(s: string)
    ensures Trimmed(Strip(s)) && |Strip(s)| <= |s|
    ensures Strip(s) == [] <==> Blank(s)
    ensures Trimmed(s) ==> Strip(s) == s
  {
    var r, t := RStrip(s), Strip(s);
    RStripShape(s);
    LStripShape(r);
    if t != [] {
      assert t[|t| - 1] == r[|r| - 1] == s[|r| - 1];
    }
    if Blank(r) { assert Blank(s); }
  }

  /** Stripping takes away only spaces, and only at the ends. */
  lemma StripIs(s: string) returns (front: string, back: string)
    ensures s == front + Strip(s) + back && Blank(front) && Blank(back)
  {
    hide LStrip, RStrip, IsSpace, Blank;
    var r := RStrip(s);
    RStripShape(s);
    LStripShape(r);
    LStripDropsBlanks(r);
    front, back := Around(s, r, LStrip(r));
  }

  lemma Around(s: string, r: string, t: string) returns (front: string, back: string)
    requires |t| <= |r| <= |s| && r == s[..|r|] && t == r[|r| - |t|..]
    requires Blank(r[..|r| - |t|]) && forall i :: |r| <= i < |s| ==> IsSpace(s[i])
    ensures s == front + t + back && Blank(front) && Blank(back)
  {
    hide IsSpace;
    front, back := r[..|r| - |t|], s[|r|..];
    assert front + t == r && r + back == s;
  }

  lemma {:induction false} LStripDropsBlanks(s: string)
    ensures |LStrip(s)| <= |s| && Blank(s[..|s| - |LStrip(s)|])
  {
    hide Blank, IsSpace;
    if s != [] && IsSpace(s[0]) {
      LStripDropsBlanks(s[1..]);
      BlankFront(s, |s| - 1 - |LStrip(s[1..])|);
    } else {
      NoneBlank(s);
    }
  }

  lemma BlankFront(s: string, m: nat)
    requires m < |s| && IsSpace(s[0]) && Blank(s[1..][..m])
    ensures Blank(s[..m + 1])
  {
    hide IsSpace;
    forall i | 0 <= i < m + 1 ensures IsSpace(s[i]) {
      if i > 0 { assert s[1..][..m][i - 1] == s[i]; }
    }
  }

  lemma NoneBlank(s: string)
    ensures Blank(s[..0])
  {
  }

  function LowerChar(c: char): char {
    if 'A' <= c <= 'Z' then (c as int + 32) as char else c
  }

  function Lower(s: string): (r: string)
    ensures |r| == |s| && forall i :: 0 <= i < |s| ==> r[i] == LowerChar(s[i])
  {
    seq(|s|, i requires 0 <= i < |s| => LowerChar(s[i]))
  }

  predicate StartsWith(s: string, prefix: string) {
    prefix == [] || (s != [] && s[0] == prefix[0] && StartsWith(s[1..], prefix[1..]))
  }

  /** `cur` is the line being read. */
  function SplitLinesFrom(cur: string, s: string): seq<string>
    decreases |s|
  {
    if s == [] then (if cur == [] then [] else [cur])
    else if |s| > 1 && s[0] == '\r' && s[1] == '\n' then [cur] + SplitLinesFrom([], s[2..])
    else if IsLineBreak(s[0]) then [cur] + SplitLinesFrom([], s[1..])
    else SplitLinesFrom(cur + [s[0]], s[1..])
  }

  function SplitLines(s: string): seq<string> {
    SplitLinesFrom([], s)
  }

  predicate SingleLine(s: string) { forall i :: 0 <= i < |s| ==> !IsLineBreak(s[i]) }

  lemma {:induction false} SplitFirstLine(cur: string, line: string, rest: string)
    requires SingleLine(line)
    ensures SplitLinesFrom(cur, line + ("\n" + rest)) == [cur + line] + SplitLinesFrom([], rest)
    decreases line
  {
    var s := line + ("\n" + rest);
    if line == [] {
      assert s == "\n" + rest && s[1..] == rest && cur + line == cur;
    } else {
      assert s[0] == line[0] && s[1..] == line[1..] + ("\n" + rest);
      SplitFirstLine(cur + [line[0]], line[1..], rest);
      assert cur + [line[0]] + line[1..] == cur + line;
    }
  }

  lemma {:induction false} SplitLastLine(cur: string, line: string)
    requires SingleLine(line) && cur + line != []
    ensures SplitLinesFrom(cur, line) == [cur + line]
    decreases line
  {
    if line == [] {
      assert cur + line == cur;
    } else {
      assert (cur + [line[0]]) + line[1..] == cur + line;
      SplitLastLine(cur + [line[0]], line[1..]);
    }
  }

  function JoinLines(lines: seq<string>): string {
    if lines == [] then []
    else if |lines| == 1 then lines[0]
    else lines[0] + ("\n" + JoinLines(lines[1..]))
  }

  /** `splitlines` undoes `"\n".join` on non-empty lines without line breaks. */
  lemma {:induction false} SplitJoin(lines: seq<string>)
    requires forall i :: 0 <= i < |lines| ==> lines[i] != [] && SingleLine(lines[i])
    ensures SplitLines(JoinLines(lines)) == lines
  {
    if |lines| == 1 {
      assert [] + lines[0] == lines[0];
      SplitLastLine([], lines[0]);
    } else if |lines| > 1 {
      SplitFirstLine([], lines[0], JoinLines(lines[1..]));
      SplitJoin(lines[1..]);
      assert [] + lines[0] == lines[0];
      assert lines == [lines[0]] + lines[1..];
    }
  }
}
