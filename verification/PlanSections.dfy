/** A plan text with all its sections: goal, steps, constraints and verification come back as they were written. */
module PlanSections {
  import opened Prelude
  import opened Json
  import opened Text
  import opened PlanText

  /** One trimmed line. */
  predicate Plain(line: string) { line != [] && Trimmed(line) && SingleLine(line) }

  predicate AllPlain(ts: seq<string>) { forall i :: 0 <= i < |ts| ==> Plain(ts[i]) }

  function Bullets(ts: seq<string>): (r: seq<string>)
    ensures |r| == |ts| && forall i :: 0 <= i < |r| ==> r[i] == "- " + ts[i]
  {
    seq(|ts|, i requires 0 <= i < |ts| => "- " + ts[i])
  }

  /** The lines of a plan with every section. */
  function Document(goal: string, titles: seq<string>, constraints: seq<string>, verification: seq<string>)
    : seq<string>
  {
    ["Goal: " + goal] + ["Steps:"] + NumberedLines(titles, 1)
      + ["Constraints:"] + Bullets(constraints) + ["Verification:"] + Bullets(verification)
  }

  // ---------------------------------------------------------------- lines

  lemma PlainIsKept(line: string)
    requires Plain(line)
    ensures Strip(line) == line && RStrip(line) == line
  {
    StripTrims(line);
  }

  lemma {:induction false} PlainLines(lines: seq<string>)
    requires AllPlain(lines)
    ensures NonBlankLines(lines) == lines
  {
    if lines != [] {
      PlainIsKept(lines[0]);
      PlainLines(lines[1..]);
    }
  }

  lemma {:induction false} ReadLinesAppend(d: Draft, a: seq<string>, b: seq<string>)
    ensures ReadLines(d, a + b) == ReadLines(ReadLines(d, a), b)
    decreases a
  {
    hide ReadLine;
    if a == [] {
      assert a + b == b;
    } else {
      assert (a + b)[1..] == a[1..] + b && (a + b)[0] == a[0];
      ReadLinesAppend(ReadLine(d, a[0]), a[1..], b);
    }
  }

  lemma ReadOne(d: Draft, line: string)
    ensures ReadLines(d, [line]) == ReadLine(d, line)
  {
    hide ReadLine;
    assert [line][1..] == [];
    assert ReadLines(ReadLine(d, line), []) == ReadLine(d, line);
  }

  // ---------------------------------------------------------------- headings

  lemma {:induction false} StartsWithItself(p: string, rest: string)
    ensures StartsWith(p + rest, p)
    decreases p
  {
    if p != [] {
      assert (p + rest)[0] == p[0] && (p + rest)[1..] == p[1..] + rest;
      StartsWithItself(p[1..], rest);
    }
  }

  lemma HeadingIs(text: string, word: string, section: Section)
    requires |text| >= |word| && Lower(text)[..|word|] == word
    requires match section
      case Goal => word == "goal:"
      case Steps => word == "steps:"
      case Constraints => word == "constraints:"
      case Verification => word == "verification:"
    ensures Heading(text) == Some(section)
  {
    var lower := Lower(text);
    assert lower == word + lower[|word|..];
    StartsWithItself(word, lower[|word|..]);
    assert lower[0] == word[0];
  }

  lemma HeadingRead(d: Draft, line: string, word: string, section: Section)
    requires section != Goal && Plain(line) && |line| == |word| && Lower(line) == word
    requires match section
      case Goal => false
      case Steps => word == "steps:"
      case Constraints => word == "constraints:"
      case Verification => word == "verification:"
    ensures ReadLine(d, line) == d.(section := section)
  {
    PlainIsKept(line);
    assert Lower(line)[..|word|] == word;
    HeadingIs(line, word, section);
    hide Heading, Strip;
  }

  lemma {:induction false} ColonFound(p: string, x: string)
    requires ':' !in p
    ensures AfterColon(p + ":" + x) == Strip(x)
    decreases p
  {
    var t := p + ":" + x;
    if p == [] {
      assert t == ":" + x && t[1..] == x;
    } else {
      assert t[0] == p[0] && t[1..] == p[1..] + ":" + x;
      ColonFound(p[1..], x);
    }
  }

  lemma SpaceStripped(g: string)
    requires g != [] && Trimmed(g)
    ensures Strip(" " + g) == g
  {
    StripTrims(g);
    PlainStripped(g);
    assert !Blank(g);
    RStripKeepsFront(" ", g);
    assert (" " + g)[1..] == g;
  }

  lemma PlainStripped(g: string)
    requires g != [] && Trimmed(g)
    ensures RStrip(g) == g && LStrip(g) == g
  {
  }

  lemma GoalRead(d: Draft, goal: string)
    requires Plain(goal)
    ensures Plain("Goal: " + goal) && ReadLine(d, "Goal: " + goal) == d.(goal := goal, section := Goal)
  {
    var line := "Goal: " + goal;
    assert Plain(line) by {
      assert line[0] == 'G' && line[|line| - 1] == goal[|goal| - 1];
      assert forall i :: 0 <= i < |line| ==> line[i] == (if i < 6 then "Goal: "[i] else goal[i - 6]);
    }
    PlainIsKept(line);
    assert Lower(line)[..5] == "goal:";
    HeadingIs(line, "goal:", Goal);
    assert line == "Goal" + ":" + (" " + goal);
    ColonFound("Goal", " " + goal);
    SpaceStripped(goal);
    hide Strip, Heading, AfterColon;
  }

  // ---------------------------------------------------------------- bullets

  /** The draft after one item of a list. */
  function WithItem(d: Draft, items: seq<string>): Draft {
    if d.section == Constraints then d.(constraints := d.constraints + items)
    else if d.section == Verification then d.(verification := d.verification + items)
    else d.(steps := d.steps + items)
  }

  lemma BulletRead(d: Draft, item: string)
    requires Plain(item)
    ensures Plain("- " + item) && ReadLine(d, "- " + item) == WithItem(d, [item])
  {
    var line := "- " + item;
    assert line[|line| - 1] == item[|item| - 1];
    assert forall i :: 0 <= i < |line| ==> line[i] == (if i < 2 then "- "[i] else item[i - 2]);
    PlainIsKept(line);
    assert Lower(line)[0] == '-';
    assert Heading(line).None?;
    assert DropDigits(line) == line;
    assert line[2..] == item;
    StripTrims(item);
    assert ItemText(line) == item;
    hide Strip, Heading, AfterNumber, ItemText;
  }

  lemma {:induction false} BulletsRead(d: Draft, items: seq<string>)
    requires AllPlain(items)
    ensures ReadLines(d, Bullets(items)) == WithItem(d, items)
    ensures AllPlain(Bullets(items))
    decreases items
  {
    hide ReadLine, Plain;
    if items == [] {
      assert d.constraints + [] == d.constraints && d.verification + [] == d.verification && d.steps + [] == d.steps;
    } else {
      BulletRead(d, items[0]);
      assert Bullets(items)[1..] == Bullets(items[1..]);
      BulletsRead(WithItem(d, [items[0]]), items[1..]);
      assert [items[0]] + items[1..] == items;
      ItemsJoin(d, [items[0]], items[1..]);
      forall i | 0 <= i < |items| ensures Plain(Bullets(items)[i]) {
        if i > 0 { assert Bullets(items)[i] == Bullets(items[1..])[i - 1]; }
      }
    }
  }

  lemma ItemsJoin(d: Draft, a: seq<string>, b: seq<string>)
    ensures WithItem(WithItem(d, a), b) == WithItem(d, a + b)
  {
    assert d.constraints + a + b == d.constraints + (a + b);
    assert d.verification + a + b == d.verification + (a + b);
    assert d.steps + a + b == d.steps + (a + b);
  }

  // ---------------------------------------------------------------- numbers

  lemma {:induction false} NumbersRead(d: Draft, titles: seq<string>, start: nat)
    requires d.section == Steps && AllPlain(titles)
    ensures ReadLines(d, NumberedLines(titles, start)) == d.(steps := d.steps + ReadTitles(titles))
    ensures AllPlain(NumberedLines(titles, start))
    decreases titles
  {
    hide ReadLine, Plain, ReadTitle;
    if titles == [] {
      assert d.steps + [] == d.steps;
    } else {
      var t := ReadTitle(titles[0]);
      NumberRead(d, start, titles[0]);
      NumbersRead(d.(steps := d.steps + [t]), titles[1..], start + 1);
      AppendMoves(d.steps, t, ReadTitles(titles[1..]));
      var lines := NumberedLines(titles, start);
      assert lines == [Digits(start) + (". " + titles[0])] + NumberedLines(titles[1..], start + 1);
    }
  }

  lemma NumberRead(d: Draft, n: nat, title: string)
    requires d.section == Steps && Plain(title)
    ensures var line := Digits(n) + (". " + title);
      Plain(line) && ReadLine(d, line) == d.(steps := d.steps + [ReadTitle(title)])
  {
    var line := Digits(n) + (". " + title);
    StripTrims(title);
    assert PlanText.Printable(title);
    NumberedLineRead(d, n, title);
    NumberIsPlain(n, title);
    PlainIsKept(line);
    hide ReadLine, Strip, RStrip, Digits, ReadTitle;
  }

  lemma NumberIsPlain(n: nat, title: string)
    requires Plain(title)
    ensures Plain(Digits(n) + (". " + title))
  {
    hide Digits;
    var d := Digits(n);
    var line := d + (". " + title);
    assert forall i :: 0 <= i < |d| ==> d[i] in d;
    assert line[0] == d[0] && line[|line| - 1] == title[|title| - 1];
    assert forall i :: 0 <= i < |line| ==>
      line[i] == (if i < |d| then d[i] else if i < |d| + 2 then ". "[i - |d|] else title[i - |d| - 2]);
  }

  // ---------------------------------------------------------------- the whole text

  lemma StepsAreNormal(titles: seq<string>)
    requires AllPlain(titles)
    ensures NormalizeSteps(ReadTitles(titles)) == StepsOf(ReadTitles(titles))
  {
    forall i | 0 <= i < |titles| ensures PlanText.Printable(titles[i]) { StripTrims(titles[i]); }
    TitlesNormal(titles);
  }

  lemma FixedLinesPlain()
    ensures Plain("Steps:") && Plain("Constraints:") && Plain("Verification:")
  {
  }

  lemma FixedLinesLower()
    ensures Lower("Steps:") == "steps:" && Lower("Constraints:") == "constraints:"
    ensures Lower("Verification:") == "verification:"
  {
  }

  /** A section without items: its heading, then its lines. */
  lemma SectionRead(d: Draft, before: seq<string>, after: Draft, line: string, items: seq<string>, section: Section)
    requires ReadLines(d, before) == after && AllPlain(before) && Plain(line) && AllPlain(items)
    requires ReadLine(after, line) == after.(section := section)
    ensures var lines := before + [line] + Bullets(items);
      AllPlain(lines) && ReadLines(d, lines) == WithItem(after.(section := section), items)
  {
    ReadOne(after, line);
    ReadLinesAppend(d, before, [line]);
    BulletsRead(after.(section := section), items);
    ReadLinesAppend(d, before + [line], Bullets(items));
    hide ReadLines, ReadLine, Plain, Bullets;
  }

  /** The goal and the steps. */
  lemma {:induction false} FrontIsRead(goal: string, titles: seq<string>)
    requires Plain(goal) && AllPlain(titles)
    ensures var lines := ["Goal: " + goal] + ["Steps:"] + NumberedLines(titles, 1);
      && AllPlain(lines)
      && ReadLines(EMPTY_DRAFT, lines) == Draft(goal, ReadTitles(titles), [], [], Steps)
  {
    FixedLinesPlain();
    FixedLinesLower();
    hide ReadLine, Plain, ReadLines, ReadTitles, Bullets, NumberedLines;
    GoalRead(EMPTY_DRAFT, goal);
    ReadOne(EMPTY_DRAFT, "Goal: " + goal);
    var d := EMPTY_DRAFT.(goal := goal, section := Goal);
    HeadingRead(d, "Steps:", "steps:", Steps);
    var a := ["Goal: " + goal];
    SectionRead(EMPTY_DRAFT, a, d, "Steps:", [], Steps);
    assert Bullets([]) == [] && a + ["Steps:"] + [] == a + ["Steps:"];
    var e := d.(section := Steps);
    assert WithItem(e, []) == e;
    NumbersRead(e, titles, 1);
    ReadLinesAppend(EMPTY_DRAFT, a + ["Steps:"], NumberedLines(titles, 1));
    assert [] + ReadTitles(titles) == ReadTitles(titles);
  }

  lemma {:induction false} DocumentIsRead(goal: string, titles: seq<string>, constraints: seq<string>,
                                          verification: seq<string>)
    requires Plain(goal) && AllPlain(titles) && AllPlain(constraints) && AllPlain(verification)
    ensures var lines := Document(goal, titles, constraints, verification);
      && lines != [] && AllPlain(lines)
      && ReadLines(EMPTY_DRAFT, lines) == Draft(goal, ReadTitles(titles), constraints, verification, Verification)
  {
    FixedLinesPlain();
    FixedLinesLower();
    FrontIsRead(goal, titles);
    hide ReadLine, ReadLines, ReadTitles, Bullets, Plain, AllPlain, NumberedLines;
    var front := ["Goal: " + goal] + ["Steps:"] + NumberedLines(titles, 1);
    var d := Draft(goal, ReadTitles(titles), [], [], Steps);
    HeadingRead(d, "Constraints:", "constraints:", Constraints);
    SectionRead(EMPTY_DRAFT, front, d, "Constraints:", constraints, Constraints);
    assert [] + constraints == constraints;
    var more := front + ["Constraints:"] + Bullets(constraints);
    var e := d.(section := Constraints, constraints := constraints);
    HeadingRead(e, "Verification:", "verification:", Verification);
    SectionRead(EMPTY_DRAFT, more, e, "Verification:", verification, Verification);
    assert [] + verification == verification;
  }

  /** A plan text with all sections is read back whole: its goal, its steps in order, its constraints and its
      verification, each in its own place. Only a title that begins like a bullet loses it. */
  lemma {:induction false} SectionsRoundTrip(goal: string, titles: seq<string>, constraints: seq<string>,
                                             verification: seq<string>)
    requires Plain(goal) && AllPlain(titles) && AllPlain(constraints) && AllPlain(verification)
    ensures ParsePlan(JoinLines(Document(goal, titles, constraints, verification))) ==
      PlanSchema(goal, StepsOf(ReadTitles(titles)), constraints, verification)
    ensures ReadTitles(titles) == titles <==> forall i :: 0 <= i < |titles| ==> !Bulleted(titles[i])
  {
    var lines := Document(goal, titles, constraints, verification);
    DocumentIsRead(goal, titles, constraints, verification);
    SplitJoin(lines);
    PlainLines(lines);
    StripTrims(goal);
    StepsAreNormal(titles);
    TitlesAsTheyAre(titles);
    hide Document, ReadLines, SplitLines, JoinLines, NonBlankLines, Strip, StepsOf, NormalizeSteps, ReadTitles,
         Bulleted, Trimmed;
  }

  lemma TitlesAsTheyAre(titles: seq<string>)
    requires AllPlain(titles)
    ensures ReadTitles(titles) == titles <==> forall i :: 0 <= i < |titles| ==> !Bulleted(titles[i])
  {
    forall i | 0 <= i < |titles| ensures ReadTitles(titles)[i] == titles[i] <==> !Bulleted(titles[i]) {
      StripTrims(titles[i]);
      if Bulleted(titles[i]) { StripTrims(titles[i][2..]); }
    }
  }
}
