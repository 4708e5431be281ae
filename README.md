# Blog generator core, modelled in Dafny

This project models the three string pipelines at the heart of a client-side
"AI blog generator":

- **The template synthesiser** `generateBlogContent` (`src/utils/blogGenerator.ts`).
  It classifies a topic by keyword, picks one of seven title formats, writes a
  fixed introduction and conclusion, and builds six sections from fixed fragment
  pools, each with a title-cased heading, at least two paragraphs and, on
  odd-indexed sections only, 3 to 5 bullet points. It then counts the words of
  the result. The same file's `formatTopic` normalises a topic string.
- **The export helpers** of `src/utils/fileDownload.ts`:
  - `sanitizeFilename`;
  - the names and bodies `downloadAsTxt` and `downloadAsPdf` hand to the browser;
  - `formatContentForPdf`, which re-reads exported plain text line by line and
    turns it into HTML headings, paragraphs and lists, driven by one `inList` flag.
- **The plain-text layout** `getFormattedContent` and the reading-time label
  `calculateReadingTime` (`src/components/BlogOutput.tsx`).

Every `Math.random()` of the generator is an injected choice: an index in the
range its `Math.floor(Math.random() * n)` produces, or a boolean outcome for the
bullet coin `Math.random() > 0.4` (`Picks`, `SectionPicks`, `ParagraphPick`), so
the structural promises are proved for every outcome.

Files, one module each:

- `strings.dfy`: `Wrappers` (`Option`) and `Strings`. The JavaScript string
  operations the core relies on:
  - `trim` with the ECMAScript white-space set;
  - `split`/`join`;
  - run replacement (`replace(/x+/g, …)`);
  - `includes`, `startsWith`, `endsWith`;
  - UTF-16 length;
  - decimal printing.
- `blog_types.dfy`: `BlogTypes`, the records of `src/types/blog.ts`.
- `blog_generator.dfy`: `BlogGenerator`.
- `file_download.dfy`: `FileDownload`.
- `blog_output.dfy`: `BlogOutput`.

How the imperative parts are modelled:

- **The loops.** The loops of the source are methods with loop invariants, each
  proved equal to a specification function whose properties are proved as lemmas:
  - `GenerateParagraphs`, `GenerateSection`, `GenerateSections` and `CalculateWordCount`;
  - `FormatContentForPdf` and its per-line `FormatLine`;
  - `GetFormattedContent`.
- **`formatContentForPdf`.** It is specified as the rendering of a sequence of
  `Piece`s (`<h1>`, `<h2>`, `<ul>`, `</ul>`, `<li>`, `<p>`, framed paragraphs):
  - `PdfPieces` gives that sequence for a text;
  - tag balance, non-emptiness, one element per non-blank line and title-first
    are proved about it.
- **`getFormattedContent`.** Its text is a sequence of lines, each followed by
  '\n', and then the conclusion (`Layout`, `FormattedText`).

Details of the code that the model keeps as written:

- **Word count.** Every field is split on `' '`, so a field counts one more word
  than it has space characters. Two adjacent spaces count an empty word, and
  other white space does not separate words.
- **Bullet marker.** In the plain-text layout the marker is the three characters
  U+00E2 U+20AC U+00A2. Those are the UTF-8 bytes of U+2022 BULLET read as
  Windows-1252, and they are what the source file holds. It is not U+2022.
  Because of this, the HTML export never reads those lines as list items
  (`BlogOutput.BulletLineIsNotListItem`).
- **Underscores in file names.** `sanitizeFilename` keeps `_`, because `\w`
  includes it.

## Model

| member | source | states |
|---|---|---|
| BlogGenerator.TemplateOf | src/utils/blogGenerator.ts:10-31 | every category's template has exactly six section headings |
| BlogGenerator.GetContentCategory | src/utils/blogGenerator.ts:34-48 | on the lower-cased topic: technology iff a technology keyword occurs; business iff no technology keyword and a business keyword; health iff neither of those and a health keyword; lifestyle iff none |
| BlogGenerator.TechnologyWinsTies | src/utils/blogGenerator.ts:36-38 | a topic mentioning a technology keyword is technology whatever else it mentions |
| BlogGenerator.CategoryExamples | src/utils/blogGenerator.ts:34-48 | "Digital Marketing", "Sustainable Living" (through the "ai" inside it) and "AI Technology" are all technology |
| BlogGenerator.TitleFormats | src/utils/blogGenerator.ts:55-63 | there are seven title formats and each contains the topic |
| BlogGenerator.GenerateTitle | src/utils/blogGenerator.ts:54-65 | for any pick below 7 the title is one of the seven formats and contains the topic |
| BlogGenerator.GenerateIntroduction | src/utils/blogGenerator.ts:68-75 | the introduction starts with the template's intro phrase, ", " and the topic |
| BlogGenerator.GenerateConclusion | src/utils/blogGenerator.ts:160-162 | the conclusion starts with the template's conclusion phrase and contains the topic |
| BlogGenerator.SentenceStarters | src/utils/blogGenerator.ts:105-114 | eight sentence starters, each containing the topic |
| BlogGenerator.AdditionalSentences | src/utils/blogGenerator.ts:130-135 | four closing sentences |
| BlogGenerator.GenerateParagraph | src/utils/blogGenerator.ts:104-140 | no contract of its own (see ParagraphShape): starter + " " + middle + " " + closing, chosen by the three injected indices |
| BlogGenerator.ParagraphShape | src/utils/blogGenerator.ts:104-140 | every paragraph is starter + " " + middle + " " + closing from the 8/8/4 pools, starts with its starter and contains the topic |
| BlogGenerator.BulletTemplates | src/utils/blogGenerator.ts:144-153 | eight bullet templates, the first containing the topic |
| BlogGenerator.GenerateBulletPoints | src/utils/blogGenerator.ts:143-157 | for an offset below 3 the bullets are the first 3, 4 or 5 templates |
| BlogGenerator.TitleCase | src/utils/blogGenerator.ts:96 | same length; every character keeps its class and letter; characters that do not start a `\w` run are unchanged; no word of the result starts with a lower-case letter |
| BlogGenerator.TitleCaseIdempotent | src/utils/blogGenerator.ts:96 | title-casing twice is title-casing once |
| BlogGenerator.WordsPerSection | src/utils/blogGenerator.ts:79 | for n > 0 sections, the budget is the largest w with w·10n ≤ 7·target, that is the floor of target·0.7/n in exact arithmetic; 0 without sections |
| BlogGenerator.ParagraphCount | src/utils/blogGenerator.ts:79-82 | the paragraph count is at least 2 and is 2 or `wordsPerSection / 80`, whichever is larger |
| BlogGenerator.ParagraphCountForOfferedTargets | src/utils/blogGenerator.ts:79-82 | for six sections, targets 300, 500 (the default), 750 and 1000 give two paragraphs; 4800 gives seven |
| BlogGenerator.SectionBullets | src/utils/blogGenerator.ts:92-93 | a section has bullets iff its index is odd and the coin came up |
| BlogGenerator.BuiltSectionProperties | src/utils/blogGenerator.ts:81-99 | a built section is well formed: the title-cased heading, exactly the requested paragraph count of pool paragraphs, bullets iff odd index and coin, and then a prefix of the bullet templates |
| BlogGenerator.GenerateParagraphs | src/utils/blogGenerator.ts:83-89 | the loop that pushes one paragraph per pick yields exactly the specified paragraphs, in pick order |
| BlogGenerator.GenerateSection | src/utils/blogGenerator.ts:81-99 | one heading's section is exactly the specified section: title-cased heading, its paragraphs, bullets only for an odd index whose coin came up |
| BlogGenerator.GenerateSections | src/utils/blogGenerator.ts:78-101 | one section per heading, in heading order, section i built from heading i with index i |
| BlogGenerator.WordsInCountsSpaces | src/utils/blogGenerator.ts:167 | `split(' ').length` is the number of space characters plus one |
| BlogGenerator.CalculateWordCount | src/utils/blogGenerator.ts:165-184 | the nested accumulation equals the sum of the word counts of every title, introduction, conclusion, heading, paragraph and bullet |
| BlogGenerator.AssembledWellFormed | src/utils/blogGenerator.ts:186-203 | six sections built from valid picks with a recounted word count form a well-formed document |
| BlogGenerator.GenerateBlogContent | src/utils/blogGenerator.ts:186-205 | the result carries the topic and time stamp, the picked title, the category's introduction and conclusion, the six sections built in template order, and is well formed (six well-formed sections, stored word count equal to a recount) |
| BlogGenerator.CapitalizeWord | src/utils/blogGenerator.ts:216 | same length, capitalised, equal up to case, no white space added, and capitalised words unchanged |
| BlogGenerator.CapitalizeAll | src/utils/blogGenerator.ts:216 | one word out per word in; each is capitalised, has the same letters up to case, gains no white space, and is unchanged if already capitalised |
| BlogGenerator.CollapsedSpacing | src/utils/blogGenerator.ts:212-214 | after trimming and collapsing white-space runs the text is normally spaced, and it is empty iff the topic is all white space |
| BlogGenerator.SplitNormalSpacing | src/utils/blogGenerator.ts:215 | splitting normally spaced text on ' ' gives non-empty words without white space |
| BlogGenerator.JoinNormalWords | src/utils/blogGenerator.ts:217 | joining such words with ' ' gives non-empty normally spaced text |
| BlogGenerator.JoinCapitalized | src/utils/blogGenerator.ts:215-217 | capitalised words joined with ' ' are normally spaced and split back into exactly those words |
| BlogGenerator.FormatTopic | src/utils/blogGenerator.ts:211-218 | the result has no leading, trailing, doubled or non-space white space; every word is capitalised; it is "" iff the topic is blank; and up to letter case it is the trimmed topic with every white-space run turned into one ' ' |
| BlogGenerator.NormalSpacingCollapsed | src/utils/blogGenerator.ts:213-214 | trimming and collapsing leave normally spaced text unchanged |
| BlogGenerator.CapitalizedUnchanged | src/utils/blogGenerator.ts:216 | capitalising capitalised words changes nothing |
| BlogGenerator.FormatTopicFixedPoint | src/utils/blogGenerator.ts:211-218 | normally spaced text of capitalised words is left unchanged |
| BlogGenerator.FormatTopicIdempotent | src/utils/blogGenerator.ts:211-218 | formatting a formatted topic changes nothing |
| BlogGenerator.LowerJoinCapitalized | src/utils/blogGenerator.ts:216-217 | capitalising the words and joining them with ' ' gives, up to letter case, the words joined as they were |
| BlogGenerator.FormatTopicKeepsCharacters | src/utils/blogGenerator.ts:211-218 | up to letter case, the result holds exactly the topic's non-white-space characters, in their order |
| FileDownload.SanitizeFilename | src/utils/fileDownload.ts:174-181 | the cleaned name has at most 100 characters, only `[A-Za-z0-9_-]`, and no two hyphens in a row |
| FileDownload.CutClean | src/utils/fileDownload.ts:176-180 | any prefix of at most 100 characters of the collapsed name is clean and the final trim leaves it unchanged |
| FileDownload.NoSpaceRuns | src/utils/fileDownload.ts:177 | the white-space replacement leaves a clean name unchanged |
| FileDownload.CleanNameUnchanged | src/utils/fileDownload.ts:174-181 | a clean name is its own cleaned name |
| FileDownload.SanitizeIdempotent | src/utils/fileDownload.ts:174-181 | cleaning twice is cleaning once |
| FileDownload.CollapsedKeepsCharacters | src/utils/fileDownload.ts:175-178 | before the cut, the text holds exactly the ASCII letters and digits of the name as given, in order |
| FileDownload.SanitizeKeepsCharacters | src/utils/fileDownload.ts:174-181 | the cleaned name's letters and digits are a prefix of those of the name as given, in order, and all of them when the collapsed text before the cut has at most 100 characters (so in particular when the cleaned name is shorter than 100) |
| FileDownload.WithExtension | src/utils/fileDownload.ts:7 | the file name ends with the extension, is at most 100 characters plus the extension, has no '.', '/' or '\\' before it, and removing the extension gives back the cleaned name |
| FileDownload.DownloadName | src/utils/fileDownload.ts:5-7 | the name `${cleanFilename}.txt` / `.html` ends with the extension, has at most 100 characters before it and no '.', '/' or '\\' there, and removing the extension gives back the cleaned name |
| FileDownload.DownloadAsTxt | src/utils/fileDownload.ts:4-8 | the text is saved unchanged as "text/plain;charset=utf-8" under the cleaned name plus ".txt", at most 104 characters, and removing ".txt" gives back the cleaned name |
| FileDownload.Page | src/utils/fileDownload.ts:22-79 | no contract of its own (see PageContents): the HTML template around the title, the formatted content and the date, character for character |
| FileDownload.PageContents | src/utils/fileDownload.ts:22-79 | the page contains the title and the formatted content |
| FileDownload.DownloadAsPdf | src/utils/fileDownload.ts:15-83 | the page is saved as "text/html;charset=utf-8" under the cleaned name with ".html", and its body is the page around the formatted content, titled with the name as given |
| FileDownload.Classify | src/utils/fileDownload.ts:104-141 | a non-blank line becomes an element with text, and a title iff it is line 0 or line 1 after a blank line 0 |
| FileDownload.ClassifiedNonEmpty | src/utils/fileDownload.ts:117-122 | every element made from a non-blank line holds non-empty text, a list item's included |
| FileDownload.CloseOpenList | src/utils/fileDownload.ts:110-113 | `</ul>` is appended exactly when a list is open |
| FileDownload.OpenListIfClosed | src/utils/fileDownload.ts:118-121 | `<ul>` is appended exactly when no list is open |
| FileDownload.AppendProse | src/utils/fileDownload.ts:131-141 | appends the intro, conclusion or plain paragraph chosen by the intro and conclusion tests |
| FileDownload.FormatLine | src/utils/fileDownload.ts:93-143 | one callback call appends exactly the pieces of the line's step and leaves the list flag that step gives |
| FileDownload.FormatContentForPdf | src/utils/fileDownload.ts:88-150 | the loop's HTML is the rendering of the pieces of the text's lines, with a list left open closed at the end |
| FileDownload.BlankLineClosesList | src/utils/fileDownload.ts:96-102 | a blank line appends only the `</ul>` of an open list and leaves no list open |
| FileDownload.ShortBulletIsHeading | src/utils/fileDownload.ts:109-117 | a bullet line under 100 UTF-16 units not ending in '.', '!' or '?' becomes a heading |
| FileDownload.BulletLineIsItem | src/utils/fileDownload.ts:117-123 | any other bullet line becomes an item with the trimmed text after its marker, in a list opened for it if none is open |
| FileDownload.LongEarlyProseIsIntro | src/utils/fileDownload.ts:125-138 | a long prose line among the first five is framed as the introduction after closing an open list |
| FileDownload.InConclusionRedundant | src/utils/fileDownload.ts:133-135 | the "in conclusion" test adds nothing to the "conclusion" test |
| FileDownload.LinePiecesValid | src/utils/fileDownload.ts:93-141 | every line's element has non-empty text, and a title comes only from line 0, or from line 1 after a blank line 0 |
| FileDownload.AdvanceNested | src/utils/fileDownload.ts:96-141 | one line's pieces keep lists properly nested from the list state before it |
| FileDownload.AssembleNested | src/utils/fileDownload.ts:93-143 | the pieces of all lines are properly nested and end with a list open iff the flag says so |
| FileDownload.PdfPiecesWellNested | src/utils/fileDownload.ts:91-147 | `<ul>` and `</ul>` alternate and never nest, every `<li>` is inside a list, every other element outside, and no list is left open |
| FileDownload.AssembleNonEmpty | src/utils/fileDownload.ts:93-143 | no element of the assembled pieces is empty |
| FileDownload.PdfPiecesNonEmpty | src/utils/fileDownload.ts:93-147 | no exported element is empty |
| FileDownload.AdvanceTextCount | src/utils/fileDownload.ts:96-141 | a line adds one text element if it is not blank and none if it is |
| FileDownload.AssembleTextCount | src/utils/fileDownload.ts:93-143 | the text elements are as many as the non-blank lines |
| FileDownload.PdfPiecesOnePerLine | src/utils/fileDownload.ts:89-147 | a line has an element iff it is not blank, and the export has exactly one text element per non-blank line |
| FileDownload.AssembleTitleFirst | src/utils/fileDownload.ts:105-107 | a title element can only be the first element |
| FileDownload.PdfPiecesTitleFirst | src/utils/fileDownload.ts:105-107 | the export has at most one `<h1>`, and it is first |
| BlogOutput.GetFormattedContent | src/components/BlogOutput.tsx:21-42 | the text is "" without content; otherwise every layout line, each followed by '\n', then the conclusion |
| BlogOutput.AppendSection | src/components/BlogOutput.tsx:27-38 | one section appends its heading, paragraphs and bullet block as terminated lines |
| BlogOutput.AppendParagraphs | src/components/BlogOutput.tsx:29-31 | each paragraph is appended with a blank line, in order |
| BlogOutput.AppendBullets | src/components/BlogOutput.tsx:33-35 | each point is appended as a marked line, in order |
| BlogOutput.FormattedOpening | src/components/BlogOutput.tsx:24-25 | the text starts with the title, "\n\n", the introduction and "\n\n" |
| BlogOutput.FormattedClosing | src/components/BlogOutput.tsx:40 | the text ends with the conclusion, with nothing after it |
| BlogOutput.SectionsInOrder | src/components/BlogOutput.tsx:27-38 | section k's lines come after those of the sections before it and before those of the sections after it |
| BlogOutput.SectionLayout | src/components/BlogOutput.tsx:28-31 | a section is its heading and a blank line, then each paragraph and a blank line, and nothing more when it has no bullet points |
| BlogOutput.SectionBulletLayout | src/components/BlogOutput.tsx:32-37 | with bullet points, one marker + " " + point line per point follows the paragraphs, then one blank line |
| BlogOutput.ParagraphLinesLayout | src/components/BlogOutput.tsx:29-31 | paragraph j is line 2j and is followed by a blank line |
| BlogOutput.BulletLinesLayout | src/components/BlogOutput.tsx:33-35 | point k is line k behind the marker and a space |
| BlogOutput.FormattedLines | src/components/BlogOutput.tsx:21-42 | when no field holds a '\n', splitting the text on '\n' gives back exactly the layout lines and the conclusion |
| BlogOutput.BulletLineIsNotListItem | src/components/BlogOutput.tsx:34 | a plain-text bullet line, trimmed, does not start with a list marker of the HTML export |
| BlogOutput.ReadingMinutes | src/components/BlogOutput.tsx:16 | the minutes are the least m with 200·m ≥ the word count |
| BlogOutput.CalculateReadingTime | src/components/BlogOutput.tsx:15-18 | the label ends with " min read" after a non-empty number |
| BlogOutput.ReadingTimeNumber | src/components/BlogOutput.tsx:15-18 | the part before " min read" is all decimal digits and its value is the reading time in minutes |
| BlogOutput.ReadingTimeNoWords | src/components/BlogOutput.tsx:15-18 | 0 words read "0 min read" |
| BlogOutput.ReadingTimeOneMinute | src/components/BlogOutput.tsx:15-18 | 1 to 200 words read "1 min read" |
| BlogOutput.ReadingTimeTwoMinutes | src/components/BlogOutput.tsx:15-18 | 201 words read "2 min read" |

## Left out

- **React components and their state.** All rendering, hooks and state in the components are left out, and so is the JSX of `BlogOutput.tsx`. The model covers only the two helpers of that file.
- **Browser I/O.**
  - The artificial generation delay.
  - Clipboard copying.
  - Blob creation, object URLs, the hidden download link and the clean-up timer. A download is modelled as the value `Download(name, mimeType, body)` that would be handed to them.
- **Clock and locale.** `new Date()` in the generator is the parameter `generatedAt`. The page's `new Date().toLocaleDateString()` is the parameter `date` of `DownloadAsPdf`.
- **Randomness.** `Math.random()` is replaced by injected choices in the ranges it can produce. The probability of the bullet coin (`> 0.4`) is not modelled, only its outcome.
- **Floating point.** The section word budget `Math.floor(target * 0.7 / n)` is computed in integers as `(target * 7) / (10 * n)`. `Math.ceil(wordCount / 200)` is `(wordCount + 199) / 200` on a natural word count. The integer budget is the exact floor, and the source's double-precision product can fall just below an integer: at target 180, `Math.floor(180 * 0.7 / 6)` is 20 where the model gives 21, and the paragraph count first differs at target 43200 (62 in the source, 63 in the model). The targets the input form offers (300, 500, 750, 1000) and the default 500 are not affected (see `ParagraphCountForOfferedTargets`).
- **Case mapping.**
  - `toUpperCase` and `toLowerCase` are modelled for ASCII letters only; other characters are left unchanged.
  - `\w` is ASCII, as in JavaScript.
  - `\s` and `trim` use the full ECMAScript white-space set.
- **Text encoding.** Strings are sequences of characters. `.length` in the HTML export's 100-unit tests is the UTF-16 length, counting two units for characters outside the Basic Multilingual Plane. Lone surrogates are not represented.
- **HTML escaping.** The source does not escape line text inside tags. The nesting properties are therefore stated on the sequence of emitted elements, not on the characters of the HTML.
- **Unused parameters.** `FormatContentForPdf` keeps the `title` parameter of `formatContentForPdf`, which is unused there as in the source. The section title, index and word target of `generateParagraph` and the section title of `generateBulletPoints` are unused in the source too, and the model drops them.
- **`GenerationOptions`** in `src/types/blog.ts` is unused by the source and is not modelled.
- **The empty-section case of `WordsPerSection`.** Its division by zero is not modelled, because every template has six headings.
- BlogGenerator.TitleCase: the concrete instance "Understanding the Basics" to "Understanding The Basics" is not proved as its own lemma. It follows from TitleCase's contract, which fixes every character that does not start a word and upper-cases the ones that do.
