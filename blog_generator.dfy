/**
 * The template blog synthesiser of `src/utils/blogGenerator.ts`.
 *
 * `generateBlogContent` classifies the topic, picks a title, writes a fixed
 * introduction and conclusion, builds one section per template heading from
 * fragment pools, and counts the words of the result. Every `Math.random()`
 * of the source is an injected pick here (`Picks`), each with the range the
 * source's `Math.floor(Math.random() * n)` produces, so that the structural
 * promises are proved for every outcome of the random choices.
 *
 * The long fixed phrases are written as concatenations of short string
 * literals; the text is the same, and short literals are much cheaper for
 * the verifier than long ones.
 */
module BlogGenerator {
  import opened Wrappers
  import opened Strings
  import opened BlogTypes

  // ---------------------------------------------------------------------
  // Categories and their templates
  // ---------------------------------------------------------------------

  datatype Category = Technology | Business | Health | Lifestyle

  /** One entry of `contentTemplates`: section headings and framing phrases. */
  datatype Template = Template(sections: seq<string>, intro: string, conclusion: string)

  function TemplateOf(category: Category): (t: Template)
    ensures |t.sections| == 6
  {
    match category
    case Technology => Template(
      ["Introduction", "Current State", "Key Benefits", "Implementation", "Future Outlook", "Best Practices"],
      "In today's rapidly " + "evolving " + "technological " + "landscape",
      "As we move forward, " + "embracing these " + "technological " + "advances")
    case Business => Template(
      ["Overview", "Market Analysis", "Strategic Advantages", "Implementation " + "Strategy", "ROI Considerations", "Action Steps"],
      "In the competitive " + "business " + "environment of today",
      "By implementing " + "these strategies, " + "businesses can " + "achieve")
    case Health => Template(
      ["Introduction", "Understanding the " + "Basics", "Key Benefits", "Scientific Evidence", "Practical " + "Applications", "Getting Started"],
      "Health and wellness " + "continue to be " + "paramount concerns",
      "Taking proactive " + "steps toward better " + "health")
    case Lifestyle => Template(
      ["Setting the Context", "Core Principles", "Practical Benefits", "Real-World " + "Applications", "Common Challenges", "Moving Forward"],
      "Living a fulfilling " + "and balanced life " + "requires",
      "By incorporating " + "these principles " + "into daily life")
  }

  const TechnologyKeywords: seq<string> := ["tech", "digital", "ai", "software", "web", "data"]
  const BusinessKeywords: seq<string> := ["business", "market", "strategy", "management", "entrepreneur"]
  const HealthKeywords: seq<string> := ["health", "wellness", "fitness", "nutrition", "medical"]

  /** Some keyword of the list occurs in the text. */
  predicate MentionsAny(text: string, keywords: seq<string>) {
    exists k :: k in keywords && Contains(text, k)
  }

  lemma MentionsFive(text: string, a: string, b: string, c: string, d: string, e: string)
    ensures MentionsAny(text, [a, b, c, d, e])
            == (Contains(text, a) || Contains(text, b) || Contains(text, c) || Contains(text, d) || Contains(text, e))
  {
    if Contains(text, a) || Contains(text, b) || Contains(text, c) || Contains(text, d) || Contains(text, e) {
      var k :| k in [a, b, c, d, e] && Contains(text, k);
    }
  }

  lemma MentionsSix(text: string, a: string, b: string, c: string, d: string, e: string, f: string)
    ensures MentionsAny(text, [a, b, c, d, e, f])
            == (Contains(text, a) || Contains(text, b) || Contains(text, c) || Contains(text, d)
                || Contains(text, e) || Contains(text, f))
  {
    if Contains(text, a) || Contains(text, b) || Contains(text, c) || Contains(text, d)
       || Contains(text, e) || Contains(text, f) {
      var k :| k in [a, b, c, d, e, f] && Contains(text, k);
    }
  }

  /** `getContentCategory`: the first keyword set, in the order technology,
      business, health, that the lower-cased topic mentions; lifestyle if none. */
  function GetContentCategory(topic: string): (c: Category)
    ensures var t := LowerStr(topic);
      && (c == Technology <==> MentionsAny(t, TechnologyKeywords))
      && (c == Business <==> !MentionsAny(t, TechnologyKeywords) && MentionsAny(t, BusinessKeywords))
      && (c == Health <==> !MentionsAny(t, TechnologyKeywords) && !MentionsAny(t, BusinessKeywords)
                           && MentionsAny(t, HealthKeywords))
      && (c == Lifestyle <==> !MentionsAny(t, TechnologyKeywords) && !MentionsAny(t, BusinessKeywords)
                              && !MentionsAny(t, HealthKeywords))
  {
    var t := LowerStr(topic);
    MentionsSix(t, "tech", "digital", "ai", "software", "web", "data");
    MentionsFive(t, "business", "market", "strategy", "management", "entrepreneur");
    MentionsFive(t, "health", "wellness", "fitness", "nutrition", "medical");
    if Contains(t, "tech") || Contains(t, "digital") || Contains(t, "ai")
       || Contains(t, "software") || Contains(t, "web") || Contains(t, "data") then
      Technology
    else if Contains(t, "business") || Contains(t, "market") || Contains(t, "strategy")
            || Contains(t, "management") || Contains(t, "entrepreneur") then
      Business
    else if Contains(t, "health") || Contains(t, "wellness") || Contains(t, "fitness")
            || Contains(t, "nutrition") || Contains(t, "medical") then
      Health
    else
      Lifestyle
  }

  /** Technology wins a tie with any other category. */
  lemma TechnologyWinsTies(topic: string)
    requires MentionsAny(LowerStr(topic), TechnologyKeywords)
    ensures GetContentCategory(topic) == Technology
  {
  }

  /** The keyword test is substring-based: "Digital Marketing" mentions "market" but is technology,
      "Sustainable Living" is technology through the "ai" inside "sustainable",
      "AI Technology" is technology. */
  lemma CategoryExamples()
    ensures GetContentCategory("Digital Marketing") == Technology
    ensures GetContentCategory("Sustainable Living") == Technology
    ensures GetContentCategory("AI Technology") == Technology
  {
    var d := LowerStr("Digital Marketing");
    assert OccursAt(d, "digital", 0);
    var s := LowerStr("Sustainable Living");
    assert OccursAt(s, "ai", 4);
    var a := LowerStr("AI Technology");
    assert OccursAt(a, "ai", 0);
  }

  // ---------------------------------------------------------------------
  // Title, introduction, conclusion
  // ---------------------------------------------------------------------

  /** A template literal with one `${topic}` hole: the text before and after it. */
  datatype Affix = Affix(before: string, after: string)

  /** Fills the topic into the hole. */
  function Fill(affix: Affix, topic: string): (text: string)
    ensures Contains(text, topic)
    ensures StartsWith(text, affix.before)
  {
    ContainsInfix(affix.before, topic, affix.after);
    StartsWithConcat(affix.before, topic);
    StartsWithExtend(affix.before + topic, affix.before, affix.after);
    affix.before + topic + affix.after
  }

  const TitleAffixes: seq<Affix> := [
    Affix("The Ultimate Guide " + "to ", ""),
    Affix("Understanding ", ": A Comprehensive " + "Overview"),
    Affix("", ": Everything You " + "Need to Know"),
    Affix("Mastering ", ": Key Strategies " + "and Insights"),
    Affix("The Complete ", " Handbook"),
    Affix("Unlocking the Power " + "of ", ""),
    Affix("", " Explained: From " + "Basics to Advanced " + "Concepts")
  ]

  /** The seven `titleFormats`, each mentioning the topic. */
  function TitleFormats(topic: string): (formats: seq<string>)
    ensures |formats| == 7
    ensures forall i :: 0 <= i < 7 ==> Contains(formats[i], topic)
  {
    seq(7, i requires 0 <= i < 7 => Fill(TitleAffixes[i], topic))
  }

  /** `generateTitle` with the random index injected: one of the seven formats,
      so it mentions the topic. */
  function GenerateTitle(topic: string, pick: nat): (title: string)
    requires pick < 7
    ensures title in TitleFormats(topic)
    ensures Contains(title, topic)
  {
    TitleFormats(topic)[pick]
  }

  const IntroFirstTail := " has emerged as a " + "critical factor for " + "success and growth."
  const IntroSecond := Affix("This comprehensive " + "guide explores the " + "multifaceted " + "aspects of ",
                             ", providing " + "valuable insights " + "and actionable " + "strategies.")
  const IntroThird := "Whether you're a " + "beginner or looking " + "to deepen your " + "understanding, this " + "article covers " + "essential concepts " + "and practical " + "applications."

  /** `generateIntroduction`: three fixed sentences joined by single spaces; no
      random choice. It opens with the category's framing phrase, a comma and the topic. */
  function GenerateIntroduction(topic: string, template: Template): (intro: string)
    ensures StartsWith(intro, template.intro + ", " + topic)
  {
    var first := Fill(Affix(template.intro + ", ", IntroFirstTail), topic);
    var sentences := [first, Fill(IntroSecond, topic), IntroThird];
    var rest := " " + Join([Fill(IntroSecond, topic), IntroThird], " ");
    assert Join(sentences, " ") == first + rest;
    StartsWithConcat(template.intro + ", " + topic, IntroFirstTail);
    StartsWithExtend(first, template.intro + ", " + topic, rest);
    Join(sentences, " ")
  }

  const ConclusionLead := " significant " + "competitive " + "advantages and " + "sustainable growth. "
  const ConclusionMiddle := " represents a " + "crucial investment " + "in future success, " + "offering both " + "immediate benefits " + "and long-term " + "value. By " + "understanding these " + "key concepts and " + "implementing the " + "strategies outlined " + "in this guide, you " + "can harness the " + "full potential of "
  const ConclusionEnd := " to achieve your " + "objectives and " + "drive meaningful " + "results."

  /** `generateConclusion`: deterministic; the closing phrase, then two sentences
      naming the topic. It opens with the category's closing phrase. */
  function GenerateConclusion(topic: string, template: Template): (conclusion: string)
    ensures StartsWith(conclusion, template.conclusion)
    ensures Contains(conclusion, topic)
  {
    TopicFramed(template.conclusion, ConclusionLead, topic, ConclusionMiddle, ConclusionEnd);
    template.conclusion + ConclusionLead + topic + ConclusionMiddle + topic + ConclusionEnd
  }

  /** Text made of an opening, a lead, the topic, a middle part, the topic again
      and a close starts with the opening and mentions the topic. */
  lemma TopicFramed(opening: string, lead: string, topic: string, middle: string, close: string)
    ensures StartsWith(opening + lead + topic + middle + topic + close, opening)
    ensures Contains(opening + lead + topic + middle + topic + close, topic)
  {
    var head := opening + lead;
    var tail := middle + topic + close;
    assert opening + lead + topic + middle + topic + close == head + topic + tail;
    StartsWithConcat(opening, lead);
    StartsWithExtend(head, opening, topic);
    StartsWithExtend(head + topic, opening, tail);
    ContainsInfix(head, topic, tail);
  }

  // ---------------------------------------------------------------------
  // Paragraphs and bullet points
  // ---------------------------------------------------------------------

  const StarterAffixes: seq<Affix> := [
    Affix("When exploring ", ", it's essential to " + "understand"),
    Affix("The significance of ", " becomes apparent " + "when"),
    Affix("Research has " + "consistently shown " + "that ", ""),
    Affix("Industry experts " + "emphasize that ", ""),
    Affix("One of the key " + "aspects of ", " involves"),
    Affix("Modern approaches " + "to ", " focus on"),
    Affix("The implementation " + "of ", " strategies"),
    Affix("Studies indicate " + "that effective ", "")
  ]

  /** The eight `sentenceStarters`. */
  function SentenceStarters(topic: string): (pool: seq<string>)
    ensures |pool| == 8
    ensures forall i :: 0 <= i < 8 ==> Contains(pool[i], topic)
  {
    seq(8, i requires 0 <= i < 8 => Fill(StarterAffixes[i], topic))
  }

  /** The eight `middlePhrases`. */
  const MiddlePhrases: seq<string> := [
    "provides numerous " + "advantages " + "including enhanced " + "efficiency, " + "improved outcomes, " + "and sustainable " + "growth.",
    "requires careful " + "planning, strategic " + "thinking, and " + "consistent " + "execution to " + "achieve optimal " + "results.",
    "can significantly " + "impact performance, " + "productivity, and " + "overall success in " + "various " + "applications.",
    "involves " + "understanding core " + "principles, best " + "practices, and " + "emerging trends in " + "the field.",
    "demands attention " + "to detail, " + "continuous " + "learning, and " + "adaptation to " + "changing " + "circumstances.",
    "offers " + "opportunities for " + "innovation, " + "improvement, and " + "competitive " + "advantage in the " + "market.",
    "necessitates " + "collaboration, " + "communication, and " + "coordination among " + "stakeholders.",
    "enables " + "organizations to " + "achieve their goals " + "through systematic " + "and methodical " + "approaches."
  ]

  const AdditionalAffixes: seq<Affix> := [
    Affix("This approach " + "ensures that ", " initiatives are " + "both effective and " + "sustainable."),
    Affix("By focusing on " + "these fundamentals, " + "organizations can " + "maximize the " + "benefits of ", "."),
    Affix("The integration of ", " into existing " + "processes requires " + "thoughtful " + "consideration."),
    Affix("Success in ", " often depends on " + "understanding these " + "critical factors.")
  ]

  /** The four `additionalSentences`. */
  function AdditionalSentences(topic: string): (pool: seq<string>)
    ensures |pool| == 4
  {
    seq(4, i requires 0 <= i < 4 => Fill(AdditionalAffixes[i], topic))
  }

  /** The three random indices one paragraph draws. */
  datatype ParagraphPick = ParagraphPick(starter: nat, middle: nat, additional: nat)

  predicate ValidParagraphPick(pick: ParagraphPick) {
    pick.starter < 8 && pick.middle < 8 && pick.additional < 4
  }

  /** One starter, one middle phrase and one closing sentence of the pools, separated by single spaces. */
  ghost predicate IsPoolParagraph(topic: string, p: string) {
    exists i, j, k :: 0 <= i < 8 && 0 <= j < 8 && 0 <= k < 4
      && p == SentenceStarters(topic)[i] + " " + MiddlePhrases[j] + " " + AdditionalSentences(topic)[k]
  }

  /** `generateParagraph` with its three random indices injected. The source's
      section title, index and word target parameters are unused there and are dropped. */
  function GenerateParagraph(topic: string, pick: ParagraphPick): string
    requires ValidParagraphPick(pick)
  {
    SentenceStarters(topic)[pick.starter] + " " + MiddlePhrases[pick.middle] + " "
    + AdditionalSentences(topic)[pick.additional]
  }

  /** Every paragraph is one of the 8 * 8 * 4 pool combinations, opens with its
      starter sentence and names the topic. */
  lemma ParagraphShape(topic: string, pick: ParagraphPick)
    requires ValidParagraphPick(pick)
    ensures IsPoolParagraph(topic, GenerateParagraph(topic, pick))
    ensures StartsWith(GenerateParagraph(topic, pick), SentenceStarters(topic)[pick.starter])
    ensures Contains(GenerateParagraph(topic, pick), topic)
  {
    var starter := SentenceStarters(topic)[pick.starter];
    var middle := MiddlePhrases[pick.middle];
    var additional := AdditionalSentences(topic)[pick.additional];
    var p := GenerateParagraph(topic, pick);
    assert p == starter + " " + middle + " " + additional;
    StartsWithConcat(starter, " ");
    StartsWithExtend(starter + " ", starter, middle);
    StartsWithExtend(starter + " " + middle, starter, " ");
    StartsWithExtend(starter + " " + middle + " ", starter, additional);
    ContainsPrefix(p, starter);
    ContainsWithin(p, starter, topic);
  }

  const BulletOpening := Affix("Enhanced " + "understanding of ", " fundamentals")
  const BulletClosing: seq<string> := [
    "Improved " + "implementation " + "strategies and " + "methodologies",
    "Better " + "decision-making " + "capabilities and " + "outcomes",
    "Increased " + "efficiency and " + "productivity " + "measures",
    "Stronger " + "competitive " + "positioning and " + "market presence",
    "More effective " + "resource allocation " + "and utilization",
    "Greater stakeholder " + "engagement and " + "satisfaction",
    "Improved risk " + "management and " + "mitigation " + "strategies"
  ]

  /** The eight `bulletTemplates`; only the first names the topic. */
  function BulletTemplates(topic: string): (pool: seq<string>)
    ensures |pool| == 8
    ensures Contains(pool[0], topic)
  {
    [Fill(BulletOpening, topic)] + BulletClosing
  }

  /** `generateBulletPoints` with `Math.floor(Math.random() * 3)` injected as
      `offset`: the first 3, 4 or 5 bullet templates. */
  function GenerateBulletPoints(topic: string, offset: nat): (points: seq<string>)
    requires offset < 3
    ensures 3 <= |points| <= 5
    ensures points == BulletTemplates(topic)[..|points|]
  {
    BulletTemplates(topic)[..offset + 3]
  }

  // ---------------------------------------------------------------------
  // Heading title-casing: title.replace(/\b\w/g, l => l.toUpperCase())
  // ---------------------------------------------------------------------

  /** Position `i` holds a word character at a word boundary (the start of a `\w` run). */
  predicate StartsWord(s: string, i: nat)
    requires i < |s|
  {
    IsWordChar(s[i]) && (i == 0 || !IsWordChar(s[i - 1]))
  }

  /** Upper-cases the first character of every word; only the letter case changes,
      and no word is left starting with a lower-case letter. */
  function TitleCase(s: string): (r: string)
    ensures |r| == |s|
    ensures forall i :: 0 <= i < |s| ==> IsWordChar(r[i]) == IsWordChar(s[i]) && ToLower(r[i]) == ToLower(s[i])
    ensures forall i :: 0 <= i < |s| && !StartsWord(s, i) ==> r[i] == s[i]
    ensures forall i :: 0 <= i < |r| && StartsWord(r, i) ==> !IsLowerAscii(r[i])
  {
    seq(|s|, i requires 0 <= i < |s| => if StartsWord(s, i) then ToUpper(s[i]) else s[i])
  }

  /** Title-casing an already title-cased heading changes nothing. */
  lemma TitleCaseIdempotent(s: string)
    ensures TitleCase(TitleCase(s)) == TitleCase(s)
  {
    var r := TitleCase(s);
    var rr := TitleCase(r);
    forall i | 0 <= i < |s| ensures rr[i] == r[i] {
      if StartsWord(r, i) {
        assert !IsLowerAscii(r[i]);
      }
    }
  }

  // ---------------------------------------------------------------------
  // Sections
  // ---------------------------------------------------------------------

  /** The random draws of one section: one pick per paragraph, the bullet
      coin (`Math.random() > 0.4`) and the bullet count offset. */
  datatype SectionPicks = SectionPicks(paragraphs: seq<ParagraphPick>, includeBullets: bool, bulletOffset: nat)

  /** Every random draw of one call of `generateBlogContent`. */
  datatype Picks = Picks(title: nat, sections: seq<SectionPicks>)

  predicate ValidParagraphPicks(picks: seq<ParagraphPick>) {
    forall j :: 0 <= j < |picks| ==> ValidParagraphPick(picks[j])
  }

  predicate ValidSectionPicks(pick: SectionPicks, paragraphCount: nat) {
    |pick.paragraphs| == paragraphCount && ValidParagraphPicks(pick.paragraphs) && pick.bulletOffset < 3
  }

  predicate ValidPicks(picks: Picks, targetWordCount: nat) {
    && picks.title < 7
    && |picks.sections| == 6
    && forall i :: 0 <= i < |picks.sections| ==> ValidSectionPicks(picks.sections[i], ParagraphCount(targetWordCount, 6))
  }

  lemma DivisionIsNatural(a: nat, b: nat)
    requires b > 0
    ensures a / b >= 0
  {
  }

  /** `Math.floor((targetWordCount * 0.7) / sectionTitles.length)`, in integers.
      With no sections the source divides by zero, but then no section is built
      and the value is never used. */
  function WordsPerSection(targetWordCount: nat, sectionCount: nat): (words: nat)
    ensures sectionCount == 0 ==> words == 0
    ensures sectionCount > 0 ==>
      words * (10 * sectionCount) <= targetWordCount * 7 < (words + 1) * (10 * sectionCount)
  {
    if sectionCount == 0 then 0
    else
      DivisionIsNatural(targetWordCount * 7, 10 * sectionCount);
      (targetWordCount * 7) / (10 * sectionCount)
  }

  /** `Math.max(2, Math.floor(wordsPerSection / 80))` */
  function ParagraphCount(targetWordCount: nat, sectionCount: nat): (n: nat)
    ensures n >= 2
    ensures n >= WordsPerSection(targetWordCount, sectionCount) / 80
    ensures n == 2 || n == WordsPerSection(targetWordCount, sectionCount) / 80
  {
    var perSection := WordsPerSection(targetWordCount, sectionCount) / 80;
    if perSection > 2 then perSection else 2
  }

  /** Every word target the input form offers, and the default 500 the app
      actually passes, gives exactly two paragraphs per section. */
  lemma ParagraphCountForOfferedTargets()
    ensures ParagraphCount(300, 6) == 2
    ensures ParagraphCount(500, 6) == 2
    ensures ParagraphCount(750, 6) == 2
    ensures ParagraphCount(1000, 6) == 2
    ensures ParagraphCount(4800, 6) == 7
  {
  }

  /** The bullet list of section `index`: only odd-indexed sections whose coin came up. */
  function SectionBullets(topic: string, index: nat, pick: SectionPicks): (bullets: Option<seq<string>>)
    requires pick.bulletOffset < 3
    ensures bullets.Some? <==> index % 2 == 1 && pick.includeBullets
  {
    if index % 2 == 1 && pick.includeBullets then Some(GenerateBulletPoints(topic, pick.bulletOffset)) else None
  }

  /** One paragraph per pick, in order. */
  function SectionParagraphs(topic: string, picks: seq<ParagraphPick>): (paragraphs: seq<string>)
    requires ValidParagraphPicks(picks)
  {
    seq(|picks|, j requires 0 <= j < |picks| => GenerateParagraph(topic, picks[j]))
  }

  /** Section `index` as `generateSections` builds it from heading `title` and its picks. */
  function BuildSection(topic: string, title: string, index: nat, pick: SectionPicks): Section
    requires ValidParagraphPicks(pick.paragraphs) && pick.bulletOffset < 3
  {
    Section(TitleCase(title), SectionParagraphs(topic, pick.paragraphs), SectionBullets(topic, index, pick))
  }

  /** The structural invariants of one section of a document:
      at least two paragraphs, bullets only on odd-indexed sections and then 3 to 5 of them. */
  predicate WellFormedSection(section: Section, index: nat) {
    && |section.paragraphs| >= 2
    && (section.bulletPoints.Some? ==> index % 2 == 1 && 3 <= |section.bulletPoints.value| <= 5)
  }

  /** A section built from any valid picks is well formed: its heading is the
      title-cased template heading, it has `paragraphCount` paragraphs from the
      fragment pools, and an odd-indexed section whose coin came up carries a
      prefix of the bullet templates. */
  lemma BuiltSectionProperties(topic: string, title: string, index: nat, paragraphCount: nat, pick: SectionPicks)
    requires paragraphCount >= 2
    requires ValidSectionPicks(pick, paragraphCount)
    ensures var section := BuildSection(topic, title, index, pick);
      && WellFormedSection(section, index)
      && section.heading == TitleCase(title)
      && |section.paragraphs| == paragraphCount
      && (forall j :: 0 <= j < |section.paragraphs| ==> IsPoolParagraph(topic, section.paragraphs[j]))
      && (section.bulletPoints.Some? <==> index % 2 == 1 && pick.includeBullets)
      && (section.bulletPoints.Some? ==>
            section.bulletPoints.value == BulletTemplates(topic)[..|section.bulletPoints.value|])
  {
    var section := BuildSection(topic, title, index, pick);
    forall j | 0 <= j < |section.paragraphs| ensures IsPoolParagraph(topic, section.paragraphs[j]) {
      ParagraphShape(topic, pick.paragraphs[j]);
    }
  }

  /** The inner loop of `generateSections`: one paragraph per pick, appended in order. */
  method GenerateParagraphs(topic: string, picks: seq<ParagraphPick>) returns (paragraphs: seq<string>)
    requires ValidParagraphPicks(picks)
    ensures paragraphs == SectionParagraphs(topic, picks)
  {
    paragraphs := [];
    for i := 0 to |picks|
      invariant paragraphs == SectionParagraphs(topic, picks[..i])
    {
      var paragraph := GenerateParagraph(topic, picks[i]);
      paragraphs := paragraphs + [paragraph];
    }
    assert picks[..|picks|] == picks;
  }

  /** The body of the loop of `generateSections` for one heading: the paragraphs,
      the title-cased heading, and maybe a bullet list. */
  method GenerateSection(topic: string, title: string, index: nat, pick: SectionPicks)
    returns (section: Section)
    requires ValidParagraphPicks(pick.paragraphs) && pick.bulletOffset < 3
    ensures section == BuildSection(topic, title, index, pick)
  {
    var paragraphs := GenerateParagraphs(topic, pick.paragraphs);
    var shouldIncludeBullets := index % 2 == 1 && pick.includeBullets;
    var bulletPoints := if shouldIncludeBullets then Some(GenerateBulletPoints(topic, pick.bulletOffset)) else None;
    section := Section(TitleCase(title), paragraphs, bulletPoints);
  }

  /** `generateSections`: one section per heading, in order. */
  method GenerateSections(topic: string, sectionTitles: seq<string>, picks: seq<SectionPicks>)
    returns (sections: seq<Section>)
    requires |picks| == |sectionTitles|
    requires forall i :: 0 <= i < |picks| ==> ValidParagraphPicks(picks[i].paragraphs) && picks[i].bulletOffset < 3
    ensures |sections| == |sectionTitles|
    ensures forall i :: 0 <= i < |sections| ==> sections[i] == BuildSection(topic, sectionTitles[i], i, picks[i])
  {
    sections := [];
    for index := 0 to |sectionTitles|
      invariant |sections| == index
      invariant forall i :: 0 <= i < index ==> sections[i] == BuildSection(topic, sectionTitles[i], i, picks[i])
    {
      var section := GenerateSection(topic, sectionTitles[index], index, picks[index]);
      sections := sections + [section];
    }
  }

  // ---------------------------------------------------------------------
  // Word count: text.split(' ').length summed over every field
  // ---------------------------------------------------------------------

  /** `text.split(' ').length` */
  function WordsIn(text: string): nat {
    |Split(text, ' ')|
  }

  /** `split(' ')` counts one more than the number of space characters, so
      "" counts 1 and a doubled space counts an empty word. */
  lemma WordsInCountsSpaces(text: string)
    ensures WordsIn(text) == multiset(text)[' '] + 1
  {
    SplitLength(text, ' ');
  }

  function TotalWords(texts: seq<string>): nat {
    if texts == [] then 0 else TotalWords(texts[..|texts| - 1]) + WordsIn(texts[|texts| - 1])
  }

  function BulletWords(bullets: Option<seq<string>>): nat {
    match bullets
    case Some(points) => TotalWords(points)
    case None => 0
  }

  function SectionWords(section: Section): nat {
    WordsIn(section.heading) + TotalWords(section.paragraphs) + BulletWords(section.bulletPoints)
  }

  function SectionsWords(sections: seq<Section>): nat {
    if sections == [] then 0 else SectionsWords(sections[..|sections| - 1]) + SectionWords(sections[|sections| - 1])
  }

  /** The word count the document states for itself: every title, introduction,
      conclusion, heading, paragraph and bullet, each split on ' '. */
  function WordCount(content: BlogContent): nat {
    WordsIn(content.title) + WordsIn(content.introduction) + WordsIn(content.conclusion)
    + SectionsWords(content.sections)
  }

  /** `calculateWordCount`: accumulates the counts in nested loops. */
  method CalculateWordCount(content: BlogContent) returns (count: nat)
    ensures count == WordCount(content)
  {
    count := 0;
    count := count + WordsIn(content.title);
    count := count + WordsIn(content.introduction);
    count := count + WordsIn(content.conclusion);
    var base := count;
    for s := 0 to |content.sections|
      invariant count == base + SectionsWords(content.sections[..s])
    {
      var section := content.sections[s];
      var before := count;
      count := count + WordsIn(section.heading);
      for p := 0 to |section.paragraphs|
        invariant count == before + WordsIn(section.heading) + TotalWords(section.paragraphs[..p])
      {
        count := count + WordsIn(section.paragraphs[p]);
        assert section.paragraphs[..p + 1][..p] == section.paragraphs[..p];
      }
      assert section.paragraphs[..|section.paragraphs|] == section.paragraphs;
      if section.bulletPoints.Some? {
        var points := section.bulletPoints.value;
        var afterParagraphs := count;
        for b := 0 to |points|
          invariant count == afterParagraphs + TotalWords(points[..b])
        {
          count := count + WordsIn(points[b]);
          assert points[..b + 1][..b] == points[..b];
        }
        assert points[..|points|] == points;
      }
      assert content.sections[..s + 1][..s] == content.sections[..s];
    }
    assert content.sections[..|content.sections|] == content.sections;
  }

  // ---------------------------------------------------------------------
  // The whole document
  // ---------------------------------------------------------------------

  /** The invariants of a document: six sections,
      every one well formed, and a word count equal to a recount of its text. */
  predicate WellFormed(content: BlogContent) {
    && |content.sections| == 6
    && (forall i :: 0 <= i < |content.sections| ==> WellFormedSection(content.sections[i], i))
    && content.wordCount == WordCount(content)
  }

  /** A document whose six sections are built from valid picks and whose word
      count is a recount of its text is well formed. */
  lemma AssembledWellFormed(content: BlogContent, topic: string, titles: seq<string>, targetWordCount: nat, picks: Picks)
    requires ValidPicks(picks, targetWordCount)
    requires |titles| == 6 && |content.sections| == 6
    requires forall i :: 0 <= i < 6 ==> content.sections[i] == BuildSection(topic, titles[i], i, picks.sections[i])
    requires content.wordCount == WordCount(content)
    ensures WellFormed(content)
  {
    forall i | 0 <= i < 6 ensures WellFormedSection(content.sections[i], i) {
      BuiltSectionProperties(topic, titles[i], i, ParagraphCount(targetWordCount, 6), picks.sections[i]);
    }
  }

  /** `generateBlogContent` with every random draw injected and the clock
      reading `new Date()` passed in as `generatedAt`. The number of paragraphs
      per section comes from the word target through `ParagraphCount`, which the
      picks must match. */
  method GenerateBlogContent(topic: string, targetWordCount: nat, picks: Picks, generatedAt: int)
    returns (content: BlogContent)
    requires ValidPicks(picks, targetWordCount)
    ensures var template := TemplateOf(GetContentCategory(topic));
      && content.topic == topic
      && content.generatedAt == generatedAt
      && content.title == GenerateTitle(topic, picks.title)
      && content.introduction == GenerateIntroduction(topic, template)
      && content.conclusion == GenerateConclusion(topic, template)
      && |content.sections| == 6
      && forall i :: 0 <= i < 6 ==>
           content.sections[i] == BuildSection(topic, template.sections[i], i, picks.sections[i])
    ensures WellFormed(content)
  {
    var category := GetContentCategory(topic);
    var template := TemplateOf(category);
    var title := GenerateTitle(topic, picks.title);
    var introduction := GenerateIntroduction(topic, template);
    var sections := GenerateSections(topic, template.sections, picks.sections);
    var conclusion := GenerateConclusion(topic, template);
    content := BlogContent(title, introduction, sections, conclusion, 0, topic, generatedAt);
    var count := CalculateWordCount(content);
    content := content.(wordCount := count);
    AssembledWellFormed(content, topic, template.sections, targetWordCount, picks);
  }

  // ---------------------------------------------------------------------
  // formatTopic
  // ---------------------------------------------------------------------

  /** White space only as single ' ' characters between non-space characters:
      no leading, trailing, doubled or non-' ' white space. */
  predicate NormalSpacing(s: string) {
    forall i :: 0 <= i < |s| && IsSpace(s[i]) ==> s[i] == ' ' && 0 < i < |s| - 1 && !IsSpace(s[i + 1])
  }

  predicate NoSpace(w: string) {
    forall k :: 0 <= k < |w| ==> !IsSpace(w[k])
  }

  /** Non-empty words without white space. */
  predicate NormalWords(words: seq<string>) {
    forall k :: 0 <= k < |words| ==> words[k] != "" && NoSpace(words[k])
  }

  /** A word whose first character is not a lower-case letter and whose other characters are not upper-case letters. */
  predicate IsCapitalized(w: string) {
    (|w| > 0 ==> !IsLowerAscii(w[0])) && forall k :: 1 <= k < |w| ==> !IsUpperAscii(w[k])
  }

  /** `word.charAt(0).toUpperCase() + word.slice(1).toLowerCase()` */
  function CapitalizeWord(word: string): (r: string)
    ensures |r| == |word|
    ensures IsCapitalized(r)
    ensures LowerStr(r) == LowerStr(word)
    ensures NoSpace(word) ==> NoSpace(r)
    ensures IsCapitalized(word) ==> r == word
  {
    if word == "" then "" else [ToUpper(word[0])] + LowerStr(word[1..])
  }

  /** Every word capitalised: one word out per word in, each with the same letters up to case. */
  function CapitalizeAll(words: seq<string>): (r: seq<string>)
    ensures |r| == |words|
    ensures forall k :: 0 <= k < |words| ==>
      && IsCapitalized(r[k])
      && LowerStr(r[k]) == LowerStr(words[k])
      && (NoSpace(words[k]) ==> NoSpace(r[k]))
      && (IsCapitalized(words[k]) ==> r[k] == words[k])
  {
    seq(|words|, k requires 0 <= k < |words| => CapitalizeWord(words[k]))
  }

  /** `formatTopic`: trim, turn every white-space run into one ' ', split on ' ',
      capitalise each word, join with ' '. The result is normally spaced, every
      word is capitalised, it is "" exactly for a blank topic, and up to letter
      case it is the trimmed topic with each white-space run turned into one ' '. */
  function FormatTopic(topic: string): (r: string)
    ensures NormalSpacing(r)
    ensures forall k :: 0 <= k < |Split(r, ' ')| ==> IsCapitalized(Split(r, ' ')[k])
    ensures r == "" <==> forall k :: 0 <= k < |topic| ==> IsSpace(topic[k])
    ensures LowerStr(r) == LowerStr(ReplaceRuns(Trim(topic), IsSpace, ' '))
  {
    var collapsed := ReplaceRuns(Trim(topic), IsSpace, ' ');
    var words := Split(collapsed, ' ');
    var r := Join(CapitalizeAll(words), " ");
    CollapsedSpacing(topic);
    assert NormalSpacing(r) && forall k :: 0 <= k < |Split(r, ' ')| ==> IsCapitalized(Split(r, ' ')[k]) by {
      if collapsed == "" {
        assert words == [""];
      } else {
        CapitalizedWords(collapsed);
      }
    }
    LowerJoinCapitalized(words);
    JoinSplit(collapsed, ' ');
    assert [' '] == " ";
    r
  }

  function IndexOf(s: string, c: char): (i: nat)
    requires c in s
    ensures i < |s| && s[i] == c && c !in s[..i]
  {
    if s[0] == c then 0
    else
      assert c in s[1..] by { assert s == [s[0]] + s[1..]; }
      var i := 1 + IndexOf(s[1..], c);
      assert s[..i] == [s[0]] + s[1..][..i - 1];
      i
  }

  /** Splitting normally spaced text on ' ' gives non-empty words without white space. */
  lemma {:induction false} SplitNormalSpacing(s: string)
    requires s != "" && NormalSpacing(s)
    ensures NormalWords(Split(s, ' '))
    decreases |s|
  {
    if ' ' !in s {
      SplitNoSeparator(s, ' ');
      assert NoSpace(s);
    } else {
      var k := IndexOf(s, ' ');
      var head, tail := s[..k], s[k + 1..];
      assert s == head + [' '] + tail;
      SplitAtFirst(head, ' ', tail);
      assert NoSpace(head) by {
        forall j | 0 <= j < |head| ensures !IsSpace(head[j]) {
          assert head[j] == s[j];
          assert head[j] in s[..k];
        }
      }
      assert head != "";
      assert tail != "";
      assert NormalSpacing(tail) by {
        forall j | 0 <= j < |tail| && IsSpace(tail[j])
          ensures tail[j] == ' ' && 0 < j < |tail| - 1 && !IsSpace(tail[j + 1])
        {
          assert tail[j] == s[k + 1 + j];
          assert !IsSpace(s[k + 1]);
          assert j + 1 < |tail| ==> tail[j + 1] == s[k + 2 + j];
        }
      }
      SplitNormalSpacing(tail);
    }
  }

  /** Two normally spaced texts joined by one space are normally spaced. */
  lemma JoinSpacing(a: string, b: string)
    requires a != "" && NoSpace(a)
    requires b != "" && NormalSpacing(b)
    ensures NormalSpacing(a + " " + b)
  {
    var s := a + " " + b;
    forall i | 0 <= i < |s| && IsSpace(s[i]) ensures s[i] == ' ' && 0 < i < |s| - 1 && !IsSpace(s[i + 1]) {
      if i < |a| {
        assert false;
      } else if i == |a| {
        assert s[i + 1] == b[0];
      } else {
        assert s[i] == b[i - |a| - 1];
        assert i + 1 < |s| ==> s[i + 1] == b[i - |a|];
      }
    }
  }

  /** Non-empty words without white space, joined by single spaces, are normally spaced. */
  lemma {:induction false} JoinNormalWords(words: seq<string>)
    requires |words| > 0 && NormalWords(words)
    ensures Join(words, " ") != "" && NormalSpacing(Join(words, " "))
    decreases |words|
  {
    if |words| > 1 {
      JoinNormalWords(words[1..]);
      JoinSpacing(words[0], Join(words[1..], " "));
    }
  }

  /** Collapsing the white-space runs of text with non-space ends gives normally spaced text. */
  lemma CollapsedNormal(t: string)
    requires t == "" || (!IsSpace(t[0]) && !IsSpace(t[|t| - 1]))
    ensures NormalSpacing(ReplaceRuns(t, IsSpace, ' '))
  {
    var c := ReplaceRuns(t, IsSpace, ' ');
    ReplaceRunsProperties(t, IsSpace, ' ');
    if c != "" {
      assert !IsSpace(c[0]) && !IsSpace(c[|c| - 1]);
    }
    forall i | 0 <= i < |c| && IsSpace(c[i]) ensures c[i] == ' ' && 0 < i < |c| - 1 && !IsSpace(c[i + 1]) {
      assert c[i] == ' ';
      assert i != 0 && i != |c| - 1;
    }
  }

  /** The normalised topic before the words are capitalised. */
  lemma CollapsedSpacing(topic: string)
    ensures var c := ReplaceRuns(Trim(topic), IsSpace, ' ');
      && (c == "" <==> forall k :: 0 <= k < |topic| ==> IsSpace(topic[k]))
      && NormalSpacing(c)
  {
    TrimProperties(topic);
    ReplaceRunsProperties(Trim(topic), IsSpace, ' ');
    CollapsedNormal(Trim(topic));
  }

  /** Capitalising non-empty words without white space and joining them with
      single spaces gives normally spaced text that splits back into those words. */
  lemma JoinCapitalized(parts: seq<string>)
    requires |parts| > 0 && NormalWords(parts)
    ensures var r := Join(CapitalizeAll(parts), " ");
      && r != "" && NormalSpacing(r)
      && Split(r, ' ') == CapitalizeAll(parts)
  {
    var words := CapitalizeAll(parts);
    assert NormalWords(words);
    JoinNormalWords(words);
    forall k | 0 <= k < |words| ensures ' ' !in words[k] {
      assert NoSpace(words[k]);
      assert IsSpace(' ');
    }
    SplitJoin(words, ' ');
  }

  /** Capitalising and re-joining the words of non-blank normally spaced text
      gives non-blank normally spaced text whose words are all capitalised. */
  lemma CapitalizedWords(collapsed: string)
    requires collapsed != "" && NormalSpacing(collapsed)
    ensures var r := Join(CapitalizeAll(Split(collapsed, ' ')), " ");
      && r != "" && NormalSpacing(r)
      && (forall k :: 0 <= k < |Split(r, ' ')| ==> IsCapitalized(Split(r, ' ')[k]))
  {
    SplitNormalSpacing(collapsed);
    JoinCapitalized(Split(collapsed, ' '));
  }

  /** Capitalising the words changes their joined text only in letter case. */
  lemma {:induction false} LowerJoinCapitalized(words: seq<string>)
    ensures LowerStr(Join(CapitalizeAll(words), " ")) == LowerStr(Join(words, " "))
    decreases |words|
  {
    var capitalized := CapitalizeAll(words);
    if |words| > 1 {
      var rest := words[1..];
      assert capitalized[1..] == CapitalizeAll(rest);
      LowerJoinCapitalized(rest);
      var tail, capitalizedTail := Join(rest, " "), Join(CapitalizeAll(rest), " ");
      LowerAppend(capitalized[0] + " ", capitalizedTail);
      LowerAppend(capitalized[0], " ");
      LowerAppend(words[0] + " ", tail);
      LowerAppend(words[0], " ");
    }
  }

  /** `formatTopic` keeps every character of the topic that is not white space,
      in order, changing only its case. */
  lemma FormatTopicKeepsCharacters(topic: string)
    ensures Filter(LowerStr(FormatTopic(topic)), IsVisible) == Filter(LowerStr(topic), IsVisible)
  {
    var collapsed := ReplaceRuns(Trim(topic), IsSpace, ' ');
    VisibleIgnoresCase();
    FilterLower(collapsed, IsVisible);
    FilterReplaceRuns(Trim(topic), IsSpace, ' ', IsVisible);
    FilterTrim(topic, IsVisible);
    FilterLower(topic, IsVisible);
  }

  /** Trimming and collapsing white space leave normally spaced text unchanged. */
  lemma NormalSpacingCollapsed(r: string)
    requires NormalSpacing(r)
    ensures ReplaceRuns(Trim(r), IsSpace, ' ') == r
  {
    if r != "" {
      assert !IsSpace(r[0]) && !IsSpace(r[|r| - 1]);
      TrimProperties(r);
      ReplaceRunsNoop(r, IsSpace, ' ');
    }
  }

  /** Capitalising capitalised words changes nothing. */
  lemma CapitalizedUnchanged(words: seq<string>)
    requires forall k :: 0 <= k < |words| ==> IsCapitalized(words[k])
    ensures CapitalizeAll(words) == words
  {
    forall k | 0 <= k < |words| ensures CapitalizeAll(words)[k] == words[k] {
      assert IsCapitalized(words[k]);
    }
  }

  /** Normally spaced text whose words are all capitalised is left unchanged. */
  lemma FormatTopicFixedPoint(r: string)
    requires NormalSpacing(r)
    requires forall k :: 0 <= k < |Split(r, ' ')| ==> IsCapitalized(Split(r, ' ')[k])
    ensures FormatTopic(r) == r
  {
    NormalSpacingCollapsed(r);
    CapitalizedUnchanged(Split(r, ' '));
    JoinSplit(r, ' ');
    assert FormatTopic(r) == Join(Split(r, ' '), [' ']);
  }

  /** `formatTopic` is idempotent. */
  lemma FormatTopicIdempotent(topic: string)
    ensures FormatTopic(FormatTopic(topic)) == FormatTopic(topic)
  {
    FormatTopicFixedPoint(FormatTopic(topic));
  }
}
