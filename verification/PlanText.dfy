/** Reading a plan that a model wrote as text, and the numbered printer of the mock agent. */
module PlanText {
  import opened Prelude
  import opened Json
  import opened Text

  datatype Step = Step(id: string, title: string, index: nat)

  datatype Section = Goal | Steps | Constraints | Verification

  /** The variables of the line loop. */
  datatype Draft = Draft(goal: string, steps: seq<string>, constraints: seq<string>, verification: seq<string>,
                         section: Section)

  datatype PlanSchema = PlanSchema(goal: string, steps: seq<Step>, constraints: seq<string>, verification: seq<string>)

  // ---------------------------------------------------------------- the printer

  function NumberedLines(titles: seq<string>, start: nat): seq<string> {
    if titles == [] then [] else [Digits(start) + (". " + titles[0])] + NumberedLines(titles[1..], start + 1)
  }

  function PrintPlan(titles: seq<string>): string {
    JoinLines(NumberedLines(titles, 1))
  }

  // ---------------------------------------------------------------- the reader

  predicate IsDigit(c: char) { '0' <= c <= '9' }

  function DropDigits(s: string): (r: string)
    ensures |r| <= |s|
  {
    if s != [] && IsDigit(s[0]) then DropDigits(s[1..]) else s
  }

  /** What remains of `s` after the pattern `^\d+[.)]\s+`, when it matches. */
  function AfterNumber(s: string): Option<string> {
    var d := DropDigits(s);
    if |d| < |s| && |d| >= 2 && (d[0] == '.' || d[0] == ')') && IsSpace(d[1]) then Some(LStrip(d[1..])) else None
  }

  predicate Bulleted(s: string) { |s| >= 2 && (s[0] == '-' || s[0] == '*') && s[1] == ' ' }

  function ItemText(text: string): string {
    var t := if AfterNumber(text).Some? then AfterNumber(text).value else text;
    if Bulleted(t) then Strip(t[2..]) else Strip(t)
  }

  /** `text.split(":", 1)[1].strip()` for a text that contains a colon. */
  function AfterColon(text: string): string {
    if text == [] then [] else if text[0] == ':' then Strip(text[1..]) else AfterColon(text[1..])
  }

  /** A line that opens a section, if it is one. */
  function Heading(text: string): Option<Section> {
    var lower := Lower(text);
    if StartsWith(lower, "goal:") then Some(Goal)
    else if StartsWith(lower, "steps:") then Some(Steps)
    else if StartsWith(lower, "constraints:") then Some(Constraints)
    else if StartsWith(lower, "verification:") then Some(Verification)
    else None
  }

  /** A numbered or bulleted line. */
  function ReadItem(d: Draft, item: string): Draft {
    if item == [] then d
    else if d.section == Constraints then d.(constraints := d.constraints + [item])
    else if d.section == Verification then d.(verification := d.verification + [item])
    else d.(steps := d.steps + [item])
  }

  /** One round of the line loop. */
  function ReadLine(d: Draft, line: string): Draft {
    var text := Strip(line);
    var heading := Heading(text);
    if heading == Some(Goal) then d.(goal := AfterColon(text), section := Goal)
    else if heading.Some? then d.(section := heading.value)
    else if AfterNumber(text).Some? || Bulleted(text) then ReadItem(d, ItemText(text))
    else if d.section == Goal && d.goal == [] then d.(goal := text)
    else ReadItem(d, text)
  }

  function ReadLines(d: Draft, lines: seq<string>): Draft
    decreases lines
  {
    if lines == [] then d else ReadLines(ReadLine(d, lines[0]), lines[1..])
  }

  const EMPTY_DRAFT := Draft([], [], [], [], Steps)

  function NonBlankLines(lines: seq<string>): seq<string> {
    if lines == [] then []
    else if Strip(lines[0]) == [] then NonBlankLines(lines[1..])
    else [RStrip(lines[0])] + NonBlankLines(lines[1..])
  }

  function NormalizeSteps(titles: seq<string>): (r: seq<Step>)
    ensures |r| == |titles|
    ensures forall i :: 0 <= i < |r| ==> r[i] == Step("step_" + Digits(i), Strip(titles[i]), i)
  {
    seq(|titles|, i requires 0 <= i < |titles| => Step("step_" + Digits(i), Strip(titles[i]), i))
  }

  function ParsePlan(text: string): PlanSchema {
    var lines := NonBlankLines(SplitLines(text));
    if lines == [] then PlanSchema([], NormalizeSteps(["Execute task"]), [], [])
    else
      var d := ReadLines(EMPTY_DRAFT, lines);
      PlanSchema(Strip(d.goal), NormalizeSteps(d.steps), d.constraints, d.verification)
  }

  lemma {:induction false} ReadLinesConcat(d: Draft, a: seq<string>, line: string)
    ensures ReadLines(d, a + [line]) == ReadLine(ReadLines(d, a), line)
    decreases a
  {
    if a != [] {
      assert (a + [line])[1..] == a[1..] + [line];
      ReadLinesConcat(ReadLine(d, a[0]), a[1..], line);
    } else {
      assert ReadLines(d, [] + [line]) == ReadLines(ReadLine(d, line), []);
    }
  }

  /** The parser as the source runs it: one pass over the lines, with the section and the four collections as
      variables. */
  method ParsePlanText(text: string) returns (schema: PlanSchema)
    ensures schema == ParsePlan(text)
  {
    var lines := NonBlankLines(SplitLines(text));
    if lines == [] {
      return PlanSchema([], NormalizeSteps(["Execute task"]), [], []);
    }
    var goal, steps, constraints, verification, section := "", [], [], [], Steps;
    for i := 0 to |lines|
      invariant Draft(goal, steps, constraints, verification, section) == ReadLines(EMPTY_DRAFT, lines[..i])
    {
      ReadLinesConcat(EMPTY_DRAFT, lines[..i], lines[i]);
      assert lines[..i + 1] == lines[..i] + [lines[i]];
      var text := Strip(lines[i]);
      var heading := Heading(text);
      if heading == Some(Goal) {
        goal, section := AfterColon(text), Goal;
        continue;
      }
      if heading.Some? {
        section := heading.value;
        continue;
      }
      var item := text;
      if AfterNumber(text).Some? || Bulleted(text) {
        item := ItemText(text);
      } else if section == Goal && goal == [] {
        goal := text;
        continue;
      }
      if item == [] {
        continue;
      }
      if section == Constraints {
        constraints := constraints + [item];
      } else if section == Verification {
        verification := verification + [item];
      } else {
        steps := steps + [item];
      }
    }
    assert lines[..|lines|] == lines;
    schema := PlanSchema(Strip(goal), NormalizeSteps(steps), constraints, verification);
  }

  // ---------------------------------------------------------------- the round trip

  /** What the reader makes of one printed title. */
  function ReadTitle(title: string): string {
    var t := Strip(title);
    if Bulleted(t) then Strip(t[2..]) else t
  }

  predicate Printable(title: string) { SingleLine(title) && !Blank(title) }

  lemma {:induction false} DropAllDigits(d: string, rest: string)
    requires forall i :: 0 <= i < |d| ==> IsDigit(d[i])
    requires rest != [] && !IsDigit(rest[0])
    ensures DropDigits(d + rest) == rest
    decreases d
  {
    if d == [] {
      assert d + rest == rest;
    } else {
      assert (d + rest)[0] == d[0] && (d + rest)[1..] == d[1..] + rest;
      DropAllDigits(d[1..], rest);
    }
  }

  lemma RStripKeepsFront(p: string, s: string)
    requires !Blank(s)
    ensures RStrip(p + s) == p + RStrip(s)
  {
    var r, q := RStrip(p + s), RStrip(s);
    RStripShape(p + s);
    RStripShape(s);
    assert |q| > 0;
    assert (p + s)[|p| + |q| - 1] == s[|q| - 1] == q[|q| - 1];
    forall i | |p| + |q| <= i < |p + s| ensures IsSpace((p + s)[i]) { assert (p + s)[i] == s[i - |p|]; }
    assert |r| == |p| + |q|;
    assert r == (p + s)[..|r|] == p + s[..|q|];
  }

  lemma NumberMatched(d: string, t: string)
    requires d != [] && forall i :: 0 <= i < |d| ==> IsDigit(d[i])
    ensures AfterNumber(d + (". " + t)) == Some(LStrip(t))
  {
    DropAllDigits(d, ". " + t);
    assert (". " + t)[1..] == " " + t && (" " + t)[1..] == t;
  }

  /** The number printed before a title is exactly what the reader takes off. */
  lemma NumberTakenOff(n: nat, title: string)
    requires !Blank(title)
    ensures RStrip(Digits(n) + (". " + title)) == Digits(n) + (". " + RStrip(title))
    ensures Strip(Digits(n) + (". " + title)) == Digits(n) + (". " + RStrip(title))
    ensures AfterNumber(Digits(n) + (". " + RStrip(title))) == Some(Strip(title))
  {
    var d, t := Digits(n), RStrip(title);
    RStripKeepsFront(". ", title);
    BlankGrows(". ", title);
    RStripKeepsFront(d, ". " + title);
    forall i | 0 <= i < |d| ensures IsDigit(d[i]) { assert d[i] in d; }
    NumberMatched(d, t);
    LStripStops(d, ". " + t);
  }

  lemma BlankGrows(p: string, s: string)
    requires !Blank(s)
    ensures !Blank(p + s)
  {
    var i :| 0 <= i < |s| && !IsSpace(s[i]);
    assert (p + s)[|p| + i] == s[i];
  }

  lemma LStripStops(d: string, rest: string)
    requires d != [] && IsDigit(d[0])
    ensures LStrip(d + rest) == d + rest
  {
    assert (d + rest)[0] == d[0];
  }

  function ReadTitles(titles: seq<string>): (r: seq<string>)
    ensures |r| == |titles|
    ensures forall i :: 0 <= i < |r| ==> r[i] == ReadTitle(titles[i])
  {
    if titles == [] then [] else [ReadTitle(titles[0])] + ReadTitles(titles[1..])
  }

  lemma NumberedLineRead(d: Draft, n: nat, title: string)
    requires d.section == Steps && Printable(title)
    ensures Strip(Digits(n) + (". " + title)) != []
    ensures ReadLine(d, RStrip(Digits(n) + (". " + title))) == d.(steps := d.steps + [ReadTitle(title)])
  {
    var text := Digits(n) + (". " + RStrip(title));
    NumberTakenOff(n, title);
    assert RStrip(text) == text && Strip(text) == text by {
      RStripShape(Digits(n) + (". " + title));
    }
    DigitsStart(n);
    assert text[0] == Digits(n)[0];
    TitleSurvives(title);
    NumberedTextRead(d, text, title);
  }

  lemma NotAHeading(text: string)
    requires text != [] && IsDigit(text[0])
    ensures Heading(text) == None
  {
    assert Lower(text)[0] == text[0];
  }

  lemma NumberedTextRead(d: Draft, text: string, title: string)
    requires d.section == Steps && ReadTitle(title) != []
    requires text != [] && IsDigit(text[0]) && Strip(text) == text && AfterNumber(text) == Some(Strip(title))
    ensures ReadLine(d, text) == d.(steps := d.steps + [ReadTitle(title)])
  {
    NotAHeading(text);
    StripTrims(title);
    StripTrims(Strip(title));
    assert ItemText(text) == ReadTitle(title);
  }

  /** A non-blank title never reads as empty. */
  lemma TitleSurvives(title: string)
    requires !Blank(title)
    ensures ReadTitle(title) != [] && Trimmed(ReadTitle(title))
  {
    var t := Strip(title);
    StripTrims(title);
    if Bulleted(t) {
      StripTrims(t[2..]);
      assert !IsSpace(t[|t| - 1]);
      assert t[2..][|t| - 3] == t[|t| - 1];
    }
  }

  lemma NonBlankCons(line: string, rest: seq<string>)
    requires Strip(line) != []
    ensures NonBlankLines([line] + rest) == [RStrip(line)] + NonBlankLines(rest)
  {
    assert ([line] + rest)[1..] == rest;
  }

  lemma ReadLinesCons(d: Draft, line: string, rest: seq<string>)
    ensures ReadLines(d, [line] + rest) == ReadLines(ReadLine(d, line), rest)
  {
    assert ([line] + rest)[1..] == rest;
  }

  lemma ReadsOneMore(d: Draft, n: nat, title: string, rest: seq<string>)
    requires d.section == Steps && Printable(title)
    ensures ReadLines(d, NonBlankLines([Digits(n) + (". " + title)] + rest)) ==
      ReadLines(d.(steps := d.steps + [ReadTitle(title)]), NonBlankLines(rest))
  {
    NumberedLineRead(d, n, title);
    NonBlankCons(Digits(n) + (". " + title), rest);
    ReadLinesCons(d, RStrip(Digits(n) + (". " + title)), NonBlankLines(rest));
  }

  lemma {:induction false} ReadsNumberedLines(d: Draft, titles: seq<string>, start: nat)
    requires d.section == Steps
    requires forall i :: 0 <= i < |titles| ==> Printable(titles[i])
    ensures ReadLines(d, NonBlankLines(NumberedLines(titles, start))) == d.(steps := d.steps + ReadTitles(titles))
    decreases |titles|
  {
    if titles == [] {
      assert d.steps + [] == d.steps;
    } else {
      var t := ReadTitle(titles[0]);
      ReadsOneMore(d, start, titles[0], NumberedLines(titles[1..], start + 1));
      ReadsNumberedLines(d.(steps := d.steps + [t]), titles[1..], start + 1);
      AppendMoves(d.steps, t, ReadTitles(titles[1..]));
    }
  }

  lemma AppendMoves(a: seq<string>, x: string, b: seq<string>)
    ensures (a + [x]) + b == a + ([x] + b)
  {
  }

  lemma {:induction false} NumberedLinesShape(titles: seq<string>, start: nat)
    requires forall i :: 0 <= i < |titles| ==> Printable(titles[i])
    ensures var ls := NumberedLines(titles, start);
      |ls| == |titles| && forall i :: 0 <= i < |ls| ==> ls[i] != [] && SingleLine(ls[i])
    decreases |titles|
  {
    if titles != [] {
      NumberedLinesShape(titles[1..], start + 1);
      var d := Digits(start);
      assert forall i :: 0 <= i < |d| ==> d[i] in d;
      var line := d + (". " + titles[0]);
      assert SingleLine(line);
      assert NumberedLines(titles, start) == [line] + NumberedLines(titles[1..], start + 1);
    }
  }

  /** The steps that carry these titles in order. */
  function StepsOf(titles: seq<string>): (r: seq<Step>)
    ensures |r| == |titles|
    ensures forall i :: 0 <= i < |r| ==> r[i] == Step("step_" + Digits(i), titles[i], i)
  {
    seq(|titles|, i requires 0 <= i < |titles| => Step("step_" + Digits(i), titles[i], i))
  }

  lemma SomeLineLeft(titles: seq<string>)
    requires titles != [] && Printable(titles[0])
    ensures NonBlankLines(NumberedLines(titles, 1)) != []
  {
    NumberedLineRead(EMPTY_DRAFT, 1, titles[0]);
    NonBlankCons(Digits(1) + (". " + titles[0]), NumberedLines(titles[1..], 2));
  }

  lemma StepsOnly(text: string, lines: seq<string>, read: seq<string>)
    requires lines == NonBlankLines(SplitLines(text)) != []
    requires ReadLines(EMPTY_DRAFT, lines) == EMPTY_DRAFT.(steps := read)
    ensures ParsePlan(text) == PlanSchema([], NormalizeSteps(read), [], [])
  {
    assert Strip([]) == [];
  }

  /** Reading a printed plan, for every list of non-blank single-line titles. */
  lemma {:induction false} PrintedPlanIsRead(titles: seq<string>)
    requires titles != [] && forall i :: 0 <= i < |titles| ==> Printable(titles[i])
    ensures ParsePlan(PrintPlan(titles)) == PlanSchema([], StepsOf(ReadTitles(titles)), [], [])
  {
    var lines, read := NumberedLines(titles, 1), ReadTitles(titles);
    NumberedLinesShape(titles, 1);
    SplitJoin(lines);
    ReadsNumberedLines(EMPTY_DRAFT, titles, 1);
    SomeLineLeft(titles);
    StepsOnly(PrintPlan(titles), NonBlankLines(lines), [] + read);
    assert [] + read == read;
    TitlesNormal(titles);
  }

  lemma TitlesNormal(titles: seq<string>)
    requires forall i :: 0 <= i < |titles| ==> Printable(titles[i])
    ensures NormalizeSteps(ReadTitles(titles)) == StepsOf(ReadTitles(titles))
  {
    var read := ReadTitles(titles);
    forall i | 0 <= i < |titles| ensures Strip(read[i]) == read[i] {
      TitleSurvives(titles[i]);
      StripTrims(read[i]);
    }
  }

  /** Trimmed titles come back, in order and as `step_0` to `step_n-1`, exactly when none of them looks like a
      bullet. */
  lemma PlanRoundTrip(titles: seq<string>)
    requires titles != []
    requires forall i :: 0 <= i < |titles| ==> SingleLine(titles[i]) && titles[i] != [] && Trimmed(titles[i])
    ensures ParsePlan(PrintPlan(titles)).steps == StepsOf(titles) <==>
      forall i :: 0 <= i < |titles| ==> !Bulleted(titles[i])
  {
    forall i | 0 <= i < |titles| ensures Printable(titles[i]) { assert !IsSpace(titles[i][0]); }
    PrintedPlanIsRead(titles);
    var read := ReadTitles(titles);
    forall i | 0 <= i < |titles| ensures read[i] == titles[i] <==> !Bulleted(titles[i]) {
      StripTrims(titles[i]);
      if Bulleted(titles[i]) { StripTrims(titles[i][2..]); }
    }
    if StepsOf(read) == StepsOf(titles) {
      forall i | 0 <= i < |titles| ensures read[i] == titles[i] {
        assert StepsOf(read)[i].title == StepsOf(titles)[i].title;
      }
    } else {
      assert read != titles;
    }
  }
}
