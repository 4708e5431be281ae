/**
 * The two helpers of `src/components/BlogOutput.tsx` that are not UI: the
 * plain-text layout of a post used for copying and downloading
 * (`getFormattedContent`) and the reading-time label (`calculateReadingTime`).
 *
 * The text is a sequence of lines, each followed by '\n', and then the
 * conclusion: the title, a blank line, the introduction, a blank line, and for
 * every section its heading and a blank line, each paragraph and a blank line,
 * and, when the section has bullet points, one marked line per point and a
 * blank line.
 */
module BlogOutput {
  import opened Wrappers
  import opened Strings
  import opened BlogTypes
  import FileDownload

  /** The bullet marker as the source spells it: U+2022 BULLET's UTF-8 bytes read
      as Windows-1252, that is U+00E2 U+20AC U+00A2. */
  const BulletMarker: string := "\U{E2}\U{20AC}\U{A2}"

  // ---------------------------------------------------------------------
  // The layout
  // ---------------------------------------------------------------------

  /** Each paragraph, then a blank line. */
  function ParagraphLines(paragraphs: seq<string>): seq<string> {
    if paragraphs == [] then []
    else ParagraphLines(paragraphs[..|paragraphs| - 1]) + [paragraphs[|paragraphs| - 1], ""]
  }

  /** The line of one bullet point. */
  function BulletLine(point: string): string {
    BulletMarker + " " + point
  }

  /** One marked line per point. */
  function BulletLines(points: seq<string>): seq<string> {
    if points == [] then []
    else BulletLines(points[..|points| - 1]) + [BulletLine(points[|points| - 1])]
  }

  /** The bullet lines and a blank line, only when there are bullet points. */
  function BulletBlock(bulletPoints: Option<seq<string>>): seq<string> {
    if bulletPoints.Some? && |bulletPoints.value| > 0 then BulletLines(bulletPoints.value) + [""] else []
  }

  function SectionLines(section: Section): seq<string> {
    [section.heading, ""] + ParagraphLines(section.paragraphs) + BulletBlock(section.bulletPoints)
  }

  function SectionsLines(sections: seq<Section>): seq<string> {
    if sections == [] then []
    else SectionsLines(sections[..|sections| - 1]) + SectionLines(sections[|sections| - 1])
  }

  /** The title and the introduction, each followed by a blank line. */
  function HeadLines(content: BlogContent): seq<string> {
    [content.title, "", content.introduction, ""]
  }

  /** Every line before the conclusion. */
  function Layout(content: BlogContent): seq<string> {
    HeadLines(content) + SectionsLines(content.sections)
  }

  /** The text `getFormattedContent` returns: "" without content, else the lines
      of the layout, each followed by '\n', then the conclusion. */
  function FormattedText(content: Option<BlogContent>): string {
    match content
    case None => ""
    case Some(c) => Terminated(Layout(c), '\n') + c.conclusion
  }

  // ---------------------------------------------------------------------
  // getFormattedContent
  // ---------------------------------------------------------------------

  /** Appending a line and its '\n'. */
  lemma AppendLine(lines: seq<string>, line: string)
    ensures Terminated(lines + [line], '\n') == Terminated(lines, '\n') + (line + "\n")
  {
    assert (lines + [line])[..|lines|] == lines;
  }

  /** Appending a line followed by a blank line: `${line}\n\n`. */
  lemma AppendLineAndBlank(lines: seq<string>, line: string)
    ensures Terminated(lines + [line, ""], '\n') == Terminated(lines, '\n') + (line + "\n\n")
  {
    AppendLine(lines, line);
    AppendLine(lines + [line], "");
    assert lines + [line] + [""] == lines + [line, ""];
  }

  /** `getFormattedContent`: builds the text with `+=` over the sections, their
      paragraphs and their bullet points. */
  method GetFormattedContent(content: Option<BlogContent>) returns (formatted: string)
    ensures formatted == FormattedText(content)
    ensures content.None? ==> formatted == ""
  {
    if content.None? {
      return "";
    }
    var c := content.value;
    formatted := c.title + "\n\n";
    formatted := formatted + (c.introduction + "\n\n");
    HeadText(c);
    for i := 0 to |c.sections|
      invariant formatted == Terminated(HeadLines(c) + SectionsLines(c.sections[..i]), '\n')
    {
      formatted := AppendSection(formatted, HeadLines(c) + SectionsLines(c.sections[..i]), c.sections[i]);
      SectionsStep(HeadLines(c), c.sections, i);
    }
    SectionsStep(HeadLines(c), c.sections, |c.sections|);
    formatted := formatted + c.conclusion;
  }

  /** The text before the first section. */
  lemma HeadText(c: BlogContent)
    ensures Terminated(HeadLines(c) + SectionsLines(c.sections[..0]), '\n')
      == c.title + "\n\n" + (c.introduction + "\n\n")
  {
    HeadTerminated(c);
    assert HeadLines(c) + SectionsLines(c.sections[..0]) == HeadLines(c);
  }

  /** The lines of the first `i + 1` sections extend those of the first `i`;
      at `i == |sections|` they are all the sections' lines. */
  lemma SectionsStep(head: seq<string>, sections: seq<Section>, i: nat)
    requires i <= |sections|
    ensures i < |sections| ==>
      head + SectionsLines(sections[..i]) + SectionLines(sections[i]) == head + SectionsLines(sections[..i + 1])
    ensures i == |sections| ==> sections[..i] == sections
  {
    if i < |sections| {
      assert sections[..i + 1][..i] == sections[..i];
    }
  }

  /** One pass of the loop over the sections: the heading, the paragraphs and
      the bullet block. */
  method AppendSection(formatted: string, ghost done: seq<string>, section: Section) returns (after: string)
    requires formatted == Terminated(done, '\n')
    ensures after == Terminated(done + SectionLines(section), '\n')
  {
    AppendLineAndBlank(done, section.heading);
    after := formatted + (section.heading + "\n\n");
    after := AppendParagraphs(after, done + [section.heading, ""], section.paragraphs);
    ghost var withParagraphs := done + [section.heading, ""] + ParagraphLines(section.paragraphs);
    if section.bulletPoints.Some? && |section.bulletPoints.value| > 0 {
      var points := section.bulletPoints.value;
      after := AppendBullets(after, withParagraphs, points);
      AppendLine(withParagraphs + BulletLines(points), "");
      after := after + "\n";
      LinesAssociative(withParagraphs, BulletLines(points), [""]);
    } else {
      assert withParagraphs + BulletBlock(section.bulletPoints) == withParagraphs;
    }
    LinesAssociative(done, [section.heading, ""] + ParagraphLines(section.paragraphs), BulletBlock(section.bulletPoints));
    LinesAssociative(done, [section.heading, ""], ParagraphLines(section.paragraphs));
  }

  /** The loop over the paragraphs of a section. */
  method AppendParagraphs(formatted: string, ghost done: seq<string>, paragraphs: seq<string>) returns (after: string)
    requires formatted == Terminated(done, '\n')
    ensures after == Terminated(done + ParagraphLines(paragraphs), '\n')
  {
    after := formatted;
    assert done + ParagraphLines(paragraphs[..0]) == done;
    for j := 0 to |paragraphs|
      invariant after == Terminated(done + ParagraphLines(paragraphs[..j]), '\n')
    {
      assert paragraphs[..j + 1][..j] == paragraphs[..j];
      AppendLineAndBlank(done + ParagraphLines(paragraphs[..j]), paragraphs[j]);
      after := after + (paragraphs[j] + "\n\n");
      assert done + ParagraphLines(paragraphs[..j + 1]) == done + ParagraphLines(paragraphs[..j]) + [paragraphs[j], ""];
    }
    assert paragraphs[..|paragraphs|] == paragraphs;
  }

  /** The loop over the bullet points of a section. */
  method AppendBullets(formatted: string, ghost done: seq<string>, points: seq<string>) returns (after: string)
    requires formatted == Terminated(done, '\n')
    ensures after == Terminated(done + BulletLines(points), '\n')
  {
    after := formatted;
    assert done + BulletLines(points[..0]) == done;
    for k := 0 to |points|
      invariant after == Terminated(done + BulletLines(points[..k]), '\n')
    {
      assert points[..k + 1][..k] == points[..k];
      AppendLine(done + BulletLines(points[..k]), BulletLine(points[k]));
      after := after + (BulletMarker + " " + points[k] + "\n");
      assert done + BulletLines(points[..k + 1]) == done + BulletLines(points[..k]) + [BulletLine(points[k])];
    }
    assert points[..|points|] == points;
  }

  // ---------------------------------------------------------------------
  // What the layout promises
  // ---------------------------------------------------------------------

  /** The title and the introduction, each followed by a blank line. */
  lemma HeadTerminated(c: BlogContent)
    ensures Terminated(HeadLines(c), '\n') == c.title + "\n\n" + c.introduction + "\n\n"
  {
    AppendLineAndBlank([], c.title);
    AppendLineAndBlank([c.title, ""], c.introduction);
    assert [] + [c.title, ""] == [c.title, ""];
    assert [c.title, ""] + [c.introduction, ""] == HeadLines(c);
  }

  /** The text opens with the title and the introduction, each followed by a blank line. */
  lemma FormattedOpening(c: BlogContent)
    ensures StartsWith(FormattedText(Some(c)), c.title + "\n\n" + c.introduction + "\n\n")
  {
    HeadTerminated(c);
    TerminatedAppend(HeadLines(c), SectionsLines(c.sections), '\n');
    var head := Terminated(HeadLines(c), '\n');
    var body := Terminated(SectionsLines(c.sections), '\n');
    assert FormattedText(Some(c)) == head + (body + c.conclusion);
    StartsWithConcat(head, body + c.conclusion);
  }

  /** The text closes with the conclusion, with no newline after it. */
  lemma FormattedClosing(c: BlogContent)
    ensures EndsWith(FormattedText(Some(c)), c.conclusion)
  {
    EndsWithConcat(Terminated(Layout(c), '\n'), c.conclusion);
  }

  lemma SectionsLinesSnoc(sections: seq<Section>, section: Section)
    ensures SectionsLines(sections + [section]) == SectionsLines(sections) + SectionLines(section)
  {
    assert (sections + [section])[..|sections|] == sections;
  }

  lemma LinesAssociative(x: seq<string>, y: seq<string>, z: seq<string>)
    ensures (x + y) + z == x + (y + z)
  {
  }

  lemma SplitLast(a: seq<Section>, b: seq<Section>)
    requires b != []
    ensures a + b == (a + b[..|b| - 1]) + [b[|b| - 1]]
    ensures b == b[..|b| - 1] + [b[|b| - 1]]
  {
  }

  lemma {:induction false} SectionsLinesAppend(a: seq<Section>, b: seq<Section>)
    ensures SectionsLines(a + b) == SectionsLines(a) + SectionsLines(b)
    decreases |b|
  {
    if b == [] {
      assert a + b == a;
    } else {
      var n := |b| - 1;
      SplitLast(a, b);
      var front, last := a + b[..n], b[n];
      SectionsLinesSnoc(front, last);
      SectionsLinesSnoc(b[..n], last);
      SectionsLinesAppend(a, b[..n]);
      var x, y, z := SectionsLines(a), SectionsLines(b[..n]), SectionLines(last);
      calc {
        SectionsLines(a + b);
        SectionsLines(front + [last]);
        SectionsLines(front) + z;
        (x + y) + z;
        { LinesAssociative(x, y, z); }
        x + (y + z);
        x + SectionsLines(b[..n] + [last]);
        x + SectionsLines(b);
      }
    }
  }

  /** Paragraph `j` is line `2 * j`, followed by a blank line. */
  lemma {:induction false} ParagraphLinesLayout(paragraphs: seq<string>)
    ensures |ParagraphLines(paragraphs)| == 2 * |paragraphs|
    ensures forall j :: 0 <= j < |paragraphs| ==>
      ParagraphLines(paragraphs)[2 * j] == paragraphs[j] && ParagraphLines(paragraphs)[2 * j + 1] == ""
    decreases |paragraphs|
  {
    if paragraphs != [] {
      var n := |paragraphs| - 1;
      ParagraphLinesLayout(paragraphs[..n]);
      var lines := ParagraphLines(paragraphs);
      forall j | 0 <= j < |paragraphs|
        ensures lines[2 * j] == paragraphs[j] && lines[2 * j + 1] == ""
      {
        if j < n {
          assert lines[2 * j] == ParagraphLines(paragraphs[..n])[2 * j];
          assert lines[2 * j + 1] == ParagraphLines(paragraphs[..n])[2 * j + 1];
        }
      }
    }
  }

  /** Point `k` is line `k`, behind the marker and a space. */
  lemma {:induction false} BulletLinesLayout(points: seq<string>)
    ensures |BulletLines(points)| == |points|
    ensures forall k :: 0 <= k < |points| ==> BulletLines(points)[k] == BulletMarker + " " + points[k]
    decreases |points|
  {
    if points != [] {
      var n := |points| - 1;
      BulletLinesLayout(points[..n]);
      var lines := BulletLines(points);
      forall k | 0 <= k < |points| ensures lines[k] == BulletMarker + " " + points[k] {
        if k < n {
          assert lines[k] == BulletLines(points[..n])[k];
        }
      }
    }
  }

  /** The lines of one section: the heading and a blank line, each paragraph and
      a blank line, and, only when there are bullet points, one marked line per
      point and a blank line. */
  lemma SectionLayout(section: Section)
    ensures var lines := SectionLines(section);
      var n := |section.paragraphs|;
      && |lines| >= 2 + 2 * n
      && lines[0] == section.heading && lines[1] == ""
      && (forall j :: 0 <= j < n ==> lines[2 + 2 * j] == section.paragraphs[j] && lines[3 + 2 * j] == "")
      && (section.bulletPoints.None? || section.bulletPoints.value == [] ==> |lines| == 2 + 2 * n)
  {
    ParagraphLinesLayout(section.paragraphs);
  }

  /** The bullet block of a section with bullet points. */
  lemma SectionBulletLayout(section: Section)
    requires section.bulletPoints.Some? && section.bulletPoints.value != []
    ensures var lines := SectionLines(section);
      var n := |section.paragraphs|;
      var points := section.bulletPoints.value;
      && |lines| == 2 + 2 * n + |points| + 1
      && (forall k :: 0 <= k < |points| ==> lines[2 + 2 * n + k] == BulletMarker + " " + points[k])
      && lines[|lines| - 1] == ""
  {
    ParagraphLinesLayout(section.paragraphs);
    BulletLinesLayout(section.bulletPoints.value);
  }

  /** The sections come in order: the lines of section `k` follow those of the
      sections before it and precede those after it. */
  lemma SectionsInOrder(c: BlogContent, k: nat)
    requires k < |c.sections|
    ensures Layout(c) == HeadLines(c) + SectionsLines(c.sections[..k])
      + SectionLines(c.sections[k]) + SectionsLines(c.sections[k + 1..])
  {
    var ss := c.sections;
    SplitAround(ss, k);
    SectionsLinesAppend(ss[..k] + [ss[k]], ss[k + 1..]);
    SectionsLinesSnoc(ss[..k], ss[k]);
    var h, x, y, z := HeadLines(c), SectionsLines(ss[..k]), SectionLines(ss[k]), SectionsLines(ss[k + 1..]);
    calc {
      Layout(c);
      h + SectionsLines(ss[..k] + [ss[k]] + ss[k + 1..]);
      h + ((x + y) + z);
      { LinesAssociative(h, x + y, z); LinesAssociative(h, x, y); }
      h + x + y + z;
    }
  }

  lemma SplitAround(ss: seq<Section>, k: nat)
    requires k < |ss|
    ensures ss == ss[..k] + [ss[k]] + ss[k + 1..]
  {
  }

  /** No line of the layout holds a '\n' when no part of the post does. */
  predicate SingleLine(s: string) {
    '\n' !in s
  }

  predicate SingleLineSection(section: Section) {
    && SingleLine(section.heading)
    && (forall k :: 0 <= k < |section.paragraphs| ==> SingleLine(section.paragraphs[k]))
    && (section.bulletPoints.Some? ==>
          forall k :: 0 <= k < |section.bulletPoints.value| ==> SingleLine(section.bulletPoints.value[k]))
  }

  predicate SingleLineParts(c: BlogContent) {
    && SingleLine(c.title) && SingleLine(c.introduction) && SingleLine(c.conclusion)
    && (forall k :: 0 <= k < |c.sections| ==> SingleLineSection(c.sections[k]))
  }

  predicate AllSingleLine(lines: seq<string>) {
    forall k :: 0 <= k < |lines| ==> SingleLine(lines[k])
  }

  lemma {:induction false} ParagraphLinesSingle(paragraphs: seq<string>)
    requires forall k :: 0 <= k < |paragraphs| ==> SingleLine(paragraphs[k])
    ensures AllSingleLine(ParagraphLines(paragraphs))
    decreases |paragraphs|
  {
    if paragraphs != [] {
      var n := |paragraphs| - 1;
      ParagraphLinesSingle(paragraphs[..n]);
      assert SingleLine(paragraphs[n]);
      assert SingleLine("");
    }
  }

  lemma {:induction false} BulletLinesSingle(points: seq<string>)
    requires forall k :: 0 <= k < |points| ==> SingleLine(points[k])
    ensures AllSingleLine(BulletLines(points))
    decreases |points|
  {
    if points != [] {
      var n := |points| - 1;
      BulletLinesSingle(points[..n]);
      assert SingleLine(points[n]);
      assert SingleLine(BulletLine(points[n])) by {
        assert BulletLine(points[n]) == BulletMarker + " " + points[n];
      }
    }
  }

  lemma SectionLinesSingle(section: Section)
    requires SingleLineSection(section)
    ensures AllSingleLine(SectionLines(section))
  {
    ParagraphLinesSingle(section.paragraphs);
    if section.bulletPoints.Some? {
      BulletLinesSingle(section.bulletPoints.value);
    }
  }

  lemma {:induction false} SectionsLinesSingle(sections: seq<Section>)
    requires forall k :: 0 <= k < |sections| ==> SingleLineSection(sections[k])
    ensures AllSingleLine(SectionsLines(sections))
    decreases |sections|
  {
    if sections != [] {
      var n := |sections| - 1;
      SectionsLinesSingle(sections[..n]);
      SectionLinesSingle(sections[n]);
    }
  }

  /** Splitting the text on '\n' gives back exactly the layout's lines and the
      conclusion, when no part of the post holds a '\n'. */
  lemma FormattedLines(c: BlogContent)
    requires SingleLineParts(c)
    ensures Split(FormattedText(Some(c)), '\n') == Layout(c) + [c.conclusion]
  {
    SectionsLinesSingle(c.sections);
    var lines := Layout(c) + [c.conclusion];
    assert AllSingleLine(lines);
    TerminatedIsJoin(Layout(c), c.conclusion, '\n');
    SplitJoin(lines, '\n');
  }

  /** A bullet line of the text does not start with a list marker once trimmed,
      so exporting the text as HTML makes it a heading or a paragraph, never a
      list item: the marker starts with U+00E2, not U+2022. */
  lemma BulletLineIsNotListItem(point: string)
    ensures !FileDownload.StartsWithListMarker(Trim(BulletLine(point)))
  {
    var line := BulletLine(point);
    assert line[0] == '\U{E2}' && !IsSpace(line[0]);
    TrimNotSpaceStart(line);
  }

  /** A text that starts with a character other than white space keeps it when trimmed. */
  lemma TrimNotSpaceStart(s: string)
    requires s != [] && !IsSpace(s[0])
    ensures Trim(s) != [] && Trim(s)[0] == s[0]
  {
    TrimProperties(s);
    assert TrimStart(s) == s;
  }

  // ---------------------------------------------------------------------
  // calculateReadingTime
  // ---------------------------------------------------------------------

  /** `Math.ceil(wordCount / 200)`: the fewest minutes in which 200 words a minute
      cover the words. */
  function ReadingMinutes(wordCount: nat): (minutes: nat)
    ensures 200 * minutes >= wordCount
    ensures minutes > 0 ==> 200 * (minutes - 1) < wordCount
  {
    (wordCount + 199) / 200
  }

  /** `calculateReadingTime`: the minutes in decimal, then " min read". */
  function CalculateReadingTime(wordCount: nat): (readout: string)
    ensures EndsWith(readout, " min read") && |readout| > |" min read"|
  {
    var digits := NatToString(ReadingMinutes(wordCount));
    EndsWithConcat(digits, " min read");
    digits + " min read"
  }

  /** The number in front of " min read" is the reading time in minutes. */
  lemma ReadingTimeNumber(wordCount: nat)
    ensures var readout := CalculateReadingTime(wordCount);
      var digits := readout[..|readout| - |" min read"|];
      && (forall i :: 0 <= i < |digits| ==> IsDigit(digits[i]))
      && DecimalValue(digits) == ReadingMinutes(wordCount)
  {
    var digits := NatToString(ReadingMinutes(wordCount));
    var readout := CalculateReadingTime(wordCount);
    assert readout[..|readout| - |" min read"|] == digits;
    DecimalRoundTrip(ReadingMinutes(wordCount));
  }

  /** No words take no time. */
  lemma ReadingTimeNoWords()
    ensures CalculateReadingTime(0) == "0 min read"
  {
    assert NatToString(0) == "0";
  }

  /** From one word up to 200 words take one minute. */
  lemma ReadingTimeOneMinute(wordCount: nat)
    requires 1 <= wordCount <= 200
    ensures CalculateReadingTime(wordCount) == "1 min read"
  {
    assert ReadingMinutes(wordCount) == 1;
    assert NatToString(1) == "1";
  }

  /** The 201st word starts a second minute. */
  lemma ReadingTimeTwoMinutes()
    ensures CalculateReadingTime(201) == "2 min read"
  {
    assert ReadingMinutes(201) == 2;
    assert NatToString(2) == "2";
  }
}
