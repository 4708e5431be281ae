/**
 * The export helpers of `src/utils/fileDownload.ts`: the file name cleaner,
 * the two downloads (plain text and an HTML page meant for printing to PDF),
 * and the line classifier that turns exported plain text into HTML.
 *
 * The browser side of a download (Blob, object URL, a hidden link that is
 * clicked, the clean-up timer) is not modelled: a download is the value
 * `Download(name, mimeType, body)` that would be handed to it.
 */
module FileDownload {
  import opened Wrappers
  import opened Strings

  // ---------------------------------------------------------------------
  // sanitizeFilename
  // ---------------------------------------------------------------------

  /** The characters `/[^\w\s-]/g` leaves in place. */
  predicate IsKeptInFilename(c: char) {
    IsWordChar(c) || IsSpace(c) || IsHyphen(c)
  }

  /** What a cleaned name is made of: `\w` characters and '-'. */
  predicate IsSafeChar(c: char) {
    IsWordChar(c) || IsHyphen(c)
  }

  /** A name made of safe characters, without "--", at most 100 characters long. */
  predicate IsCleanName(name: string) {
    && |name| <= MaxNameLength
    && (forall i :: 0 <= i < |name| ==> IsSafeChar(name[i]))
    && (forall i :: 0 <= i < |name| - 1 ==> !(IsHyphen(name[i]) && IsHyphen(name[i + 1])))
  }

  const MaxNameLength := 100

  /** `sanitizeFilename`: drop every character other than `\w`, white space and '-',
      turn each white-space run into '_', collapse each run of '-', keep the first
      100 characters and trim. */
  function SanitizeFilename(filename: string): (name: string)
    ensures IsCleanName(name)
  {
    var kept := Filter(filename, IsKeptInFilename);
    var underscored := ReplaceRuns(kept, IsSpace, '_');
    var collapsed := ReplaceRuns(underscored, IsHyphen, '-');
    var cut := collapsed[..if |collapsed| < MaxNameLength then |collapsed| else MaxNameLength];
    CutClean(filename, |cut|);
    Trim(cut)
  }

  /** The first `n <= 100` characters of the collapsed text are a clean name
      without white space, so trimming them changes nothing. */
  lemma CutClean(filename: string, n: nat)
    requires var underscored := ReplaceRuns(Filter(filename, IsKeptInFilename), IsSpace, '_');
      n <= MaxNameLength && n <= |ReplaceRuns(underscored, IsHyphen, '-')|
    ensures var underscored := ReplaceRuns(Filter(filename, IsKeptInFilename), IsSpace, '_');
      var cut := ReplaceRuns(underscored, IsHyphen, '-')[..n];
      IsCleanName(cut) && Trim(cut) == cut
  {
    var kept := Filter(filename, IsKeptInFilename);
    FilterKeeps(filename, IsKeptInFilename);
    var underscored := ReplaceRuns(kept, IsSpace, '_');
    UnderscoredSafe(kept);
    var collapsed := ReplaceRuns(underscored, IsHyphen, '-');
    CollapsedSafe(underscored);
    PrefixClean(collapsed, n);
    TrimNoSpace(collapsed[..n]);
  }

  /** After the white-space runs become '_', only `\w` characters and '-' remain. */
  lemma UnderscoredSafe(kept: string)
    requires forall i :: 0 <= i < |kept| ==> IsKeptInFilename(kept[i])
    ensures forall i :: 0 <= i < |ReplaceRuns(kept, IsSpace, '_')| ==> IsSafeChar(ReplaceRuns(kept, IsSpace, '_')[i])
  {
    ReplaceRunsClass(kept, IsSpace, '_', IsSafeChar);
  }

  /** Collapsing the runs of '-' keeps the characters safe and leaves no "--". */
  lemma CollapsedSafe(underscored: string)
    requires forall i :: 0 <= i < |underscored| ==> IsSafeChar(underscored[i])
    ensures var collapsed := ReplaceRuns(underscored, IsHyphen, '-');
      && (forall i :: 0 <= i < |collapsed| ==> IsSafeChar(collapsed[i]))
      && (forall i :: 0 <= i < |collapsed| - 1 ==> !(IsHyphen(collapsed[i]) && IsHyphen(collapsed[i + 1])))
  {
    ReplaceRunsClass(underscored, IsHyphen, '-', IsSafeChar);
    ReplaceRunsSeparated(underscored, IsHyphen, '-');
  }

  /** The first `n <= 100` characters of such a text are a clean name without white space. */
  lemma PrefixClean(collapsed: string, n: nat)
    requires forall i :: 0 <= i < |collapsed| ==> IsSafeChar(collapsed[i])
    requires forall i :: 0 <= i < |collapsed| - 1 ==> !(IsHyphen(collapsed[i]) && IsHyphen(collapsed[i + 1]))
    requires n <= MaxNameLength && n <= |collapsed|
    ensures IsCleanName(collapsed[..n])
    ensures forall i :: 0 <= i < n ==> !IsSpace(collapsed[..n][i])
  {
    var cut := collapsed[..n];
    forall i | 0 <= i < n ensures IsSafeChar(cut[i]) && !IsSpace(cut[i]) {
      assert cut[i] == collapsed[i];
    }
    forall i | 0 <= i < n - 1 ensures !(IsHyphen(cut[i]) && IsHyphen(cut[i + 1])) {
      assert cut[i] == collapsed[i] && cut[i + 1] == collapsed[i + 1];
    }
  }

  /** A clean name is left as it is, so cleaning twice is cleaning once. */
  lemma CleanNameUnchanged(name: string)
    requires IsCleanName(name)
    ensures SanitizeFilename(name) == name
  {
    CleanKept(name);
    NoSpaceRuns(name);
    CleanHyphens(name);
    CleanTrimmed(name);
  }

  lemma CleanKept(name: string)
    requires IsCleanName(name)
    ensures Filter(name, IsKeptInFilename) == name
  {
    FilterAll(name, IsKeptInFilename);
  }

  lemma CleanHyphens(name: string)
    requires IsCleanName(name)
    ensures ReplaceRuns(name, IsHyphen, '-') == name
  {
    ReplaceRunsNoop(name, IsHyphen, '-');
  }

  lemma CleanTrimmed(name: string)
    requires IsCleanName(name)
    ensures |name| <= MaxNameLength && Trim(name[..|name|]) == name
  {
    assert name[..|name|] == name;
    TrimNoSpace(name);
  }

  /** A clean name has no white space, so turning white-space runs into '_' leaves it alone. */
  lemma NoSpaceRuns(name: string)
    requires IsCleanName(name)
    ensures ReplaceRuns(name, IsSpace, '_') == name
  {
    ReplaceRunsNoop(name, IsSpace, '_');
  }

  /** Cleaning is idempotent. */
  lemma SanitizeIdempotent(filename: string)
    ensures SanitizeFilename(SanitizeFilename(filename)) == SanitizeFilename(filename)
  {
    CleanNameUnchanged(SanitizeFilename(filename));
  }

  /** An ASCII letter or digit: a `\w` character other than '_'. */
  predicate IsAlphanumeric(c: char) {
    IsWordChar(c) && c != '_'
  }

  /** Letters and digits survive every step of the cleaning but the cut. */
  lemma AlphanumericKept()
    ensures forall c :: IsAlphanumeric(c) ==> IsKeptInFilename(c)
    ensures forall c :: IsSpace(c) ==> !IsAlphanumeric(c)
    ensures forall c :: IsHyphen(c) ==> !IsAlphanumeric(c)
  {
  }

  /** Before the cut, the text holds exactly the letters and digits of the name as given, in order. */
  lemma CollapsedKeepsCharacters(filename: string)
    ensures var underscored := ReplaceRuns(Filter(filename, IsKeptInFilename), IsSpace, '_');
      Filter(ReplaceRuns(underscored, IsHyphen, '-'), IsAlphanumeric) == Filter(filename, IsAlphanumeric)
  {
    var kept := Filter(filename, IsKeptInFilename);
    var underscored := ReplaceRuns(kept, IsSpace, '_');
    AlphanumericKept();
    FilterFilter(filename, IsKeptInFilename, IsAlphanumeric);
    FilterReplaceRuns(kept, IsSpace, '_', IsAlphanumeric);
    FilterReplaceRuns(underscored, IsHyphen, '-', IsAlphanumeric);
  }

  /** The cleaned name keeps the letters and digits of the name as given, in order:
      they are a prefix of the original ones, and all of them unless the collapsed
      text was longer than 100 characters and was cut. */
  lemma SanitizeKeepsCharacters(filename: string)
    ensures var name := SanitizeFilename(filename);
      var letters := Filter(filename, IsAlphanumeric);
      var collapsed := ReplaceRuns(ReplaceRuns(Filter(filename, IsKeptInFilename), IsSpace, '_'), IsHyphen, '-');
      && StartsWith(letters, Filter(name, IsAlphanumeric))
      && (|collapsed| <= MaxNameLength ==> Filter(name, IsAlphanumeric) == letters)
      && (|name| < MaxNameLength ==> Filter(name, IsAlphanumeric) == letters)
  {
    var collapsed := ReplaceRuns(ReplaceRuns(Filter(filename, IsKeptInFilename), IsSpace, '_'), IsHyphen, '-');
    var n := if |collapsed| < MaxNameLength then |collapsed| else MaxNameLength;
    CutClean(filename, n);
    var name := SanitizeFilename(filename);
    assert name == collapsed[..n];
    CollapsedKeepsCharacters(filename);
    FilterSplitAt(collapsed, n, IsAlphanumeric);
    PrefixOfConcat(Filter(name, IsAlphanumeric), Filter(collapsed[n..], IsAlphanumeric));
    if n == |collapsed| {
      assert collapsed[n..] == [];
    }
  }

  lemma PrefixOfConcat(front: string, back: string)
    ensures StartsWith(front + back, front)
    ensures back == [] ==> front + back == front
  {
    assert (front + back)[..|front|] == front;
  }

  // ---------------------------------------------------------------------
  // Downloads
  // ---------------------------------------------------------------------

  /** The file handed to the browser: its name, MIME type and contents. */
  datatype Download = Download(name: string, mimeType: string, body: string)

  /** A clean name, then the extension. Before the extension there is no '.', '/'
      or '\\', so the name cannot carry a second extension or a path. */
  function WithExtension(clean: string, extension: string): (name: string)
    requires IsCleanName(clean)
    ensures EndsWith(name, extension)
    ensures |name| <= MaxNameLength + |extension|
    ensures forall i :: 0 <= i < |name| - |extension| ==> name[i] != '.' && name[i] != '/' && name[i] != '\\'
    ensures name[..|name| - |extension|] == clean
  {
    var name := clean + extension;
    EndsWithConcat(clean, extension);
    forall i | 0 <= i < |clean| ensures name[i] != '.' && name[i] != '/' && name[i] != '\\' {
      assert name[i] == clean[i] && IsSafeChar(clean[i]);
    }
    name
  }

  /** The name `downloadAsTxt` and `downloadAsPdf` give their file. */
  function DownloadName(filename: string, extension: string): (name: string)
    ensures EndsWith(name, extension)
    ensures |name| <= MaxNameLength + |extension|
    ensures forall i :: 0 <= i < |name| - |extension| ==> name[i] != '.' && name[i] != '/' && name[i] != '\\'
    ensures name[..|name| - |extension|] == SanitizeFilename(filename)
  {
    WithExtension(SanitizeFilename(filename), extension)
  }

  /** `downloadAsTxt`: the text unchanged, as UTF-8 plain text, under the cleaned
      name with ".txt": removing the extension gives back the cleaned name. */
  function DownloadAsTxt(content: string, filename: string): (d: Download)
    ensures d.body == content
    ensures d.mimeType == "text/plain;charset=utf-8"
    ensures d.name == DownloadName(filename, ".txt")
    ensures EndsWith(d.name, ".txt") && |d.name| <= MaxNameLength + 4
    ensures d.name[..|d.name| - 4] == SanitizeFilename(filename)
  {
    Download(DownloadName(filename, ".txt"), "text/plain;charset=utf-8", content)
  }

  const PageOpening :=
    "\n"
    + "    <!DOCTYPE html>\n"
    + "    <html>\n"
    + "      <head>\n"
    + "        <title>"

  const PageBeforeContent :=
    "</title>\n"
    + "        <style>\n"
    + "          body {\n"
    + "            font-family: 'Times New Roman', serif;\n"
    + "            line-height: 1.6;\n"
    + "            margin: 40px;\n"
    + "            color: #333;\n"
    + "          }\n"
    + "          h1 {\n"
    + "            color: #2563eb;\n"
    + "            border-bottom: 3px solid #2563eb;\n"
    + "            padding-bottom: 10px;\n"
    + "            margin-bottom: 30px;\n"
    + "          }\n"
    + "          h2 {\n"
    + "            color: #1e40af;\n"
    + "            margin-top: 30px;\n"
    + "            margin-bottom: 15px;\n"
    + "          }\n"
    + "          p {\n"
    + "            margin-bottom: 15px;\n"
    + "            text-align: justify;\n"
    + "          }\n"
    + "          .intro, .conclusion {\n"
    + "            background-color: #f8fafc;\n"
    + "            padding: 20px;\n"
    + "            border-left: 4px solid #3b82f6;\n"
    + "            margin: 20px 0;\n"
    + "          }\n"
    + "          ul {\n"
    + "            margin: 15px 0;\n"
    + "            padding-left: 30px;\n"
    + "          }\n"
    + "          li {\n"
    + "            margin-bottom: 8px;\n"
    + "          }\n"
    + "          .metadata {\n"
    + "            text-align: center;\n"
    + "            color: #64748b;\n"
    + "            font-size: 12px;\n"
    + "            margin-top: 40px;\n"
    + "            padding-top: 20px;\n"
    + "            border-top: 1px solid #e2e8f0;\n"
    + "          }\n"
    + "        </style>\n"
    + "      </head>\n"
    + "      <body>\n"
    + "        "

  const PageBeforeDate :=
    "\n"
    + "        <div class=\"metadata\">\n"
    + "          Generated on "

  const PageClosing :=
    " by AI Blog Generator\n"
    + "        </div>\n"
    + "      </body>\n"
    + "    </html>\n"
    + "  "

  /** The page `downloadAsPdf` writes around the formatted content; `date` stands
      for the browser's `new Date().toLocaleDateString()`. Its properties are in
      `PageContents`: stated on the function itself, they would be unfolded over the
      long template text at every use. */
  function Page(title: string, formatted: string, date: string): string {
    PageOpening + title + PageBeforeContent + formatted + PageBeforeDate + date + PageClosing
  }

  /** The page names its title and contains the formatted content. */
  lemma PageContents(title: string, formatted: string, date: string)
    ensures Contains(Page(title, formatted, date), title)
    ensures Contains(Page(title, formatted, date), formatted)
  {
    ContainsSuffix(PageOpening, title);
    ContainsExtend(PageOpening + title, title, PageBeforeContent);
    ContainsExtend(PageOpening + title + PageBeforeContent, title, formatted);
    ContainsSuffix(PageOpening + title + PageBeforeContent, formatted);
    var upToContent := PageOpening + title + PageBeforeContent + formatted;
    ContainsExtend(upToContent, title, PageBeforeDate);
    ContainsExtend(upToContent, formatted, PageBeforeDate);
    ContainsExtend(upToContent + PageBeforeDate, title, date);
    ContainsExtend(upToContent + PageBeforeDate, formatted, date);
    ContainsExtend(upToContent + PageBeforeDate + date, title, PageClosing);
    ContainsExtend(upToContent + PageBeforeDate + date, formatted, PageClosing);
  }

  /** `downloadAsPdf`: an HTML page holding the formatted content, titled with the
      name as given, saved under the cleaned name with ".html". */
  method DownloadAsPdf(content: string, filename: string, date: string) returns (d: Download)
    ensures d.name == DownloadName(filename, ".html")
    ensures d.mimeType == "text/html;charset=utf-8"
    ensures d.body == Page(filename, RenderAll(PdfPieces(content)), date)
  {
    var formattedContent := FormatContentForPdf(content, filename);
    d := Download(DownloadName(filename, ".html"), "text/html;charset=utf-8", Page(filename, formattedContent, date));
  }

  // ---------------------------------------------------------------------
  // formatContentForPdf
  // ---------------------------------------------------------------------

  /** What one step of `formatContentForPdf` appends: a tag pair around a line, or a list tag. */
  datatype Piece =
    | Title(text: string)
    | Heading(text: string)
    | OpenList
    | CloseList
    | Item(text: string)
    | Paragraph(text: string)
    | Intro(text: string)
    | Conclusion(text: string)

  function Render(piece: Piece): string {
    match piece
    case Title(t) => "<h1>" + t + "</h1>"
    case Heading(t) => "<h2>" + t + "</h2>"
    case OpenList => "<ul>"
    case CloseList => "</ul>"
    case Item(t) => "<li>" + t + "</li>"
    case Paragraph(t) => "<p>" + t + "</p>"
    case Intro(t) => Framed("intro", t)
    case Conclusion(t) => Framed("conclusion", t)
  }

  /** A paragraph inside a `div` of the given class. */
  function Framed(kind: string, t: string): string {
    "<div class=\"" + kind + "\"><p>" + t + "</p></div>"
  }

  function RenderAll(pieces: seq<Piece>): string {
    if pieces == [] then "" else RenderAll(pieces[..|pieces| - 1]) + Render(pieces[|pieces| - 1])
  }

  lemma RenderAllSnoc(pieces: seq<Piece>, piece: Piece)
    ensures RenderAll(pieces + [piece]) == RenderAll(pieces) + Render(piece)
  {
    assert (pieces + [piece])[..|pieces|] == pieces;
  }

  lemma SplitLastPiece(a: seq<Piece>, b: seq<Piece>)
    requires b != []
    ensures a + b == (a + b[..|b| - 1]) + [b[|b| - 1]]
    ensures b == b[..|b| - 1] + [b[|b| - 1]]
  {
  }

  lemma {:induction false} RenderAllAppend(a: seq<Piece>, b: seq<Piece>)
    ensures RenderAll(a + b) == RenderAll(a) + RenderAll(b)
    decreases |b|
  {
    if b == [] {
      assert a + b == a;
    } else {
      var n := |b| - 1;
      SplitLastPiece(a, b);
      var front, last := a + b[..n], b[n];
      RenderAllSnoc(front, last);
      RenderAllSnoc(b[..n], last);
      RenderAllAppend(a, b[..n]);
      var x, y, z := RenderAll(a), RenderAll(b[..n]), Render(last);
      calc {
        RenderAll(a + b);
        RenderAll(front + [last]);
        RenderAll(front) + z;
        (x + y) + z;
        { ConcatAssociative(x, y, z); }
        x + (y + z);
        x + RenderAll(b[..n] + [last]);
        x + RenderAll(b);
      }
    }
  }

  /** `/[.!?]$/` on a trimmed line: it ends with sentence punctuation. */
  predicate EndsWithSentenceMark(t: string) {
    |t| > 0 && (t[|t| - 1] == '.' || t[|t| - 1] == '!' || t[|t| - 1] == '?')
  }

  /** It starts with U+2022 BULLET, '-' or '*'. */
  predicate StartsWithListMarker(t: string) {
    |t| > 0 && (t[0] == '\U{2022}' || t[0] == '-' || t[0] == '*')
  }

  predicate IsBlank(line: string) {
    Trim(line) == ""
  }

  /** The title is the first line, or the second when the first is blank. */
  predicate IsTitleLine(lines: seq<string>, index: nat)
    requires index < |lines|
  {
    index == 0 || (index == 1 && IsBlank(lines[0]))
  }

  /** The piece for the non-blank line `index`, tested in the order the source tests:
      title, heading, bullet, then paragraph as introduction, conclusion or plain. */
  function Classify(lines: seq<string>, index: nat): (piece: Piece)
    requires index < |lines| && !IsBlank(lines[index])
    ensures HasText(piece)
    ensures piece.Title? <==> IsTitleLine(lines, index)
  {
    var t := Trim(lines[index]);
    if IsTitleLine(lines, index) then Title(t)
    else if Utf16Length(t) < 100 && !EndsWithSentenceMark(t) then Heading(t)
    else if StartsWithListMarker(t) then Item(Trim(t[1..]))
    else ProsePiece(lines, index, t)
  }

  /** A line of prose: the introduction if it is long and among the first five
      lines, the conclusion if it is long, among the last nine lines and mentions
      a conclusion or a summary or is the last line, else a plain paragraph. */
  function ProsePiece(lines: seq<string>, index: nat, t: string): Piece {
    var isIntro := index < 5 && Utf16Length(t) > 100;
    var isConclusion := index > |lines| - 10 && Utf16Length(t) > 100
      && (Contains(t, "conclusion") || Contains(t, "summary") || Contains(t, "in conclusion")
          || index == |lines| - 1);
    if isIntro then Intro(t) else if isConclusion then Conclusion(t) else Paragraph(t)
  }

  /** The piece for line `index`, none for a blank line. */
  function LinePiece(lines: seq<string>, index: nat): Option<Piece>
    requires index < |lines|
  {
    if IsBlank(lines[index]) then None else Some(Classify(lines, index))
  }

  /** The pieces appended for a line's piece when a list is open or not, and
      whether a list is open afterwards. A blank line only closes an open list;
      the title leaves the list state alone; a bullet opens a list if none is
      open; every other line closes an open list first. */
  function Advance(piece: Option<Piece>, inList: bool): (seq<Piece>, bool) {
    match piece
    case None => (if inList then [CloseList] else [], false)
    case Some(p) =>
      if p.Title? then ([p], inList)
      else if p.Item? then (if inList then [p] else [OpenList, p], true)
      else (if inList then [CloseList, p] else [p], false)
  }

  /** What the callback appends for line `index`. */
  function Step(lines: seq<string>, index: nat, inList: bool): (seq<Piece>, bool)
    requires index < |lines|
  {
    Advance(LinePiece(lines, index), inList)
  }

  /** The piece of every line, in order. */
  function LinePieces(lines: seq<string>): seq<Option<Piece>> {
    seq(|lines|, i requires 0 <= i < |lines| => LinePiece(lines, i))
  }

  /** The pieces for a sequence of line pieces and whether a list is open after them. */
  function Assemble(linePieces: seq<Option<Piece>>): (seq<Piece>, bool) {
    if linePieces == [] then ([], false)
    else
      var state := Assemble(linePieces[..|linePieces| - 1]);
      var step := Advance(linePieces[|linePieces| - 1], state.1);
      (state.0 + step.0, step.1)
  }

  /** The assembled pieces, then `</ul>` if a list is still open. */
  function Finish(state: (seq<Piece>, bool)): seq<Piece> {
    state.0 + (if state.1 then [CloseList] else [])
  }

  /** Every piece for a text: its lines' pieces, with a list still open at the end closed. */
  function PdfPieces(content: string): seq<Piece> {
    Finish(Assemble(LinePieces(Split(content, '\n'))))
  }

  /** Appending a piece's HTML to the HTML of the pieces before it. */
  lemma AppendPiece(html: string, emitted: seq<Piece>, current: string, piece: Piece)
    requires current == html + RenderAll(emitted)
    ensures current + Render(piece) == html + RenderAll(emitted + [piece])
  {
    RenderAllSnoc(emitted, piece);
    ConcatAssociative(html, RenderAll(emitted), Render(piece));
  }

  /** What a bullet appends: `<ul>` unless a list is open, then the item. */
  lemma AdvanceItem(piece: Piece, inList: bool)
    requires piece.Item?
    ensures Advance(Some(piece), inList) == ((if inList then [] else [OpenList]) + [piece], true)
  {
    assert (if inList then [] else [OpenList]) + [piece] == if inList then [piece] else [OpenList, piece];
  }

  /** What a heading or prose appends: `</ul>` if a list is open, then the piece. */
  lemma AdvanceClosing(piece: Piece, inList: bool)
    requires !piece.Title? && !piece.Item?
    ensures Advance(Some(piece), inList) == ((if inList then [CloseList] else []) + [piece], false)
  {
    assert (if inList then [CloseList] else []) + [piece] == if inList then [CloseList, piece] else [piece];
  }

  /** `Step` on the title line: the `<h1>`, with the list left as it was. */
  lemma StepTitle(lines: seq<string>, index: nat, inList: bool)
    requires index < |lines| && !IsBlank(lines[index])
    requires IsTitleLine(lines, index)
    ensures Step(lines, index, inList) == ([Title(Trim(lines[index]))], inList)
  {
  }

  /** `Step` on a line the callback treats as a bullet. */
  lemma StepItem(lines: seq<string>, index: nat, inList: bool)
    requires index < |lines| && !IsBlank(lines[index])
    requires !IsTitleLine(lines, index)
    requires var t := Trim(lines[index]);
      !(Utf16Length(t) < 100 && !EndsWithSentenceMark(t)) && StartsWithListMarker(t)
    ensures Step(lines, index, inList)
      == ((if inList then [] else [OpenList]) + [Item(Trim(Trim(lines[index])[1..]))], true)
  {
    var piece := Item(Trim(Trim(lines[index])[1..]));
    assert Classify(lines, index) == piece;
    AdvanceItem(piece, inList);
  }

  /** `Step` on a line the callback treats as prose. */
  lemma StepProse(lines: seq<string>, index: nat, inList: bool)
    requires index < |lines| && !IsBlank(lines[index])
    requires !IsTitleLine(lines, index)
    requires var t := Trim(lines[index]);
      !(Utf16Length(t) < 100 && !EndsWithSentenceMark(t)) && !StartsWithListMarker(t)
    ensures Step(lines, index, inList)
      == ((if inList then [CloseList] else []) + [ProsePiece(lines, index, Trim(lines[index]))], false)
  {
    var piece := ProsePiece(lines, index, Trim(lines[index]));
    assert Classify(lines, index) == piece;
    AdvanceClosing(piece, inList);
  }

  /** `Step` on a line the callback treats as a heading or a paragraph: the
      piece follows the `</ul>` of an open list. */
  lemma StepClosing(lines: seq<string>, index: nat, inList: bool, piece: Piece)
    requires index < |lines| && !IsBlank(lines[index])
    requires Classify(lines, index) == piece && !piece.Title? && !piece.Item?
    ensures Step(lines, index, inList) == ((if inList then [CloseList] else []) + [piece], false)
  {
    AdvanceClosing(piece, inList);
  }

  /** The callback's `if (inList) { html += '</ul>'; inList = false; }`. */
  method CloseOpenList(html: string, inList: bool) returns (htmlAfter: string, inListAfter: bool)
    ensures htmlAfter == html + RenderAll(if inList then [CloseList] else [])
    ensures !inListAfter
  {
    htmlAfter, inListAfter := html, inList;
    if inListAfter {
      AppendPiece(html, [], htmlAfter, CloseList);
      htmlAfter := htmlAfter + "</ul>";
      inListAfter := false;
    }
  }

  /** The callback's `if (!inList) { html += '<ul>'; inList = true; }`. */
  method OpenListIfClosed(html: string, inList: bool) returns (htmlAfter: string, inListAfter: bool)
    ensures htmlAfter == html + RenderAll(if inList then [] else [OpenList])
    ensures inListAfter
  {
    htmlAfter, inListAfter := html, inList;
    if !inListAfter {
      AppendPiece(html, [], htmlAfter, OpenList);
      htmlAfter := htmlAfter + "<ul>";
      inListAfter := true;
    }
  }

  /** The callback `formatContentForPdf` runs for line `index`: appends that
      line's HTML to `html` and updates whether a list is open. */
  method FormatLine(lines: seq<string>, index: nat, html: string, inList: bool)
    returns (htmlAfter: string, inListAfter: bool)
    requires index < |lines|
    ensures htmlAfter == html + RenderAll(Step(lines, index, inList).0)
    ensures inListAfter == Step(lines, index, inList).1
  {
    var trimmedLine := Trim(lines[index]);
    if trimmedLine == "" {
      htmlAfter, inListAfter := CloseOpenList(html, inList);
      return;
    }
    if index == 0 || (index == 1 && Trim(lines[0]) == "") {
      AppendPiece(html, [], html, Title(trimmedLine));
      htmlAfter := html + ("<h1>" + trimmedLine + "</h1>");
      inListAfter := inList;
      StepTitle(lines, index, inList);
    } else if Utf16Length(trimmedLine) < 100 && !EndsWithSentenceMark(trimmedLine) {
      htmlAfter, inListAfter := CloseOpenList(html, inList);
      AppendPiece(html, if inList then [CloseList] else [], htmlAfter, Heading(trimmedLine));
      htmlAfter := htmlAfter + ("<h2>" + trimmedLine + "</h2>");
      assert Classify(lines, index) == Heading(trimmedLine);
      StepClosing(lines, index, inList, Heading(trimmedLine));
    } else if StartsWithListMarker(trimmedLine) {
      htmlAfter, inListAfter := OpenListIfClosed(html, inList);
      AppendPiece(html, if inList then [] else [OpenList], htmlAfter, Item(Trim(trimmedLine[1..])));
      htmlAfter := htmlAfter + ("<li>" + Trim(trimmedLine[1..]) + "</li>");
      StepItem(lines, index, inList);
    } else {
      htmlAfter, inListAfter := CloseOpenList(html, inList);
      AppendPiece(html, if inList then [CloseList] else [], htmlAfter, ProsePiece(lines, index, trimmedLine));
      htmlAfter := AppendProse(lines, index, trimmedLine, htmlAfter);
      StepProse(lines, index, inList);
    }
  }

  /** The prose part of the callback: `<div class="intro">`, `<div class="conclusion">`
      or a plain `<p>` around the trimmed line `t`. */
  method AppendProse(lines: seq<string>, index: nat, t: string, html: string) returns (htmlAfter: string)
    ensures htmlAfter == html + Render(ProsePiece(lines, index, t))
  {
    var isIntro := index < 5 && Utf16Length(t) > 100;
    var isConclusion := index > |lines| - 10 && Utf16Length(t) > 100
      && (Contains(t, "conclusion") || Contains(t, "summary")
          || Contains(t, "in conclusion") || index == |lines| - 1);
    if isIntro || isConclusion {
      var kind := if isIntro then "intro" else "conclusion";
      htmlAfter := html + ("<div class=\"" + kind + "\"><p>" + t + "</p></div>");
    } else {
      htmlAfter := html + ("<p>" + t + "</p>");
    }
  }

  /** `formatContentForPdf`: splits on '\n', runs the line callback over every
      line, and closes a list left open. The source's `title` parameter is unused
      there as well. */
  method FormatContentForPdf(content: string, title: string) returns (html: string)
    ensures html == RenderAll(PdfPieces(content))
  {
    var lines := Split(content, '\n');
    ghost var linePieces := LinePieces(lines);
    html := "";
    var inList := false;
    for index := 0 to |lines|
      invariant html == RenderAll(Assemble(linePieces[..index]).0)
      invariant inList == Assemble(linePieces[..index]).1
    {
      AssembleStep(lines, index);
      html, inList := FormatLine(lines, index, html, inList);
    }
    assert linePieces[..|lines|] == linePieces;
    FinishRender(Assemble(linePieces));
    if inList {
      html := html + "</ul>";
    }
  }

  /** One more line extends the assembled pieces by that line's step, and their HTML by its HTML. */
  lemma AssembleStep(lines: seq<string>, index: nat)
    requires index < |lines|
    ensures var before := Assemble(LinePieces(lines)[..index]);
      var step := Step(lines, index, before.1);
      && Assemble(LinePieces(lines)[..index + 1]) == (before.0 + step.0, step.1)
      && RenderAll(before.0 + step.0) == RenderAll(before.0) + RenderAll(step.0)
  {
    var linePieces := LinePieces(lines);
    assert linePieces[..index + 1][..index] == linePieces[..index];
    var before := Assemble(linePieces[..index]);
    RenderAllAppend(before.0, Step(lines, index, before.1).0);
  }

  /** The HTML of the finished pieces: a list left open gets its `</ul>`. */
  lemma FinishRender(state: (seq<Piece>, bool))
    ensures RenderAll(Finish(state)) == RenderAll(state.0) + (if state.1 then "</ul>" else "")
  {
    RenderAllAppend(state.0, if state.1 then [CloseList] else []);
    assert RenderAll([CloseList]) == "</ul>" by {
      assert [CloseList][..0] == [];
    }
  }

  // ---------------------------------------------------------------------
  // What the exported HTML looks like
  // ---------------------------------------------------------------------

  /** Reads `pieces` from the front with a list open or not: `Some` of whether a
      list is open at the end when `<ul>` only opens a closed list, `</ul>` only
      closes an open one, and inside a list there are only items; `None` otherwise. */
  function ListCheck(pieces: seq<Piece>, open: bool): Option<bool> {
    if pieces == [] then Some(open)
    else
      var rest := ListCheck(pieces[1..], pieces[0] == OpenList || (open && pieces[0] != CloseList));
      match pieces[0]
      case OpenList => if open then None else rest
      case CloseList => if open then rest else None
      case Item(_) => if open then rest else None
      case _ => if open then None else rest
  }

  /** Lists are opened and closed in turn, every item is inside one, every other
      element outside, and no list is left open. */
  predicate WellNested(pieces: seq<Piece>) {
    ListCheck(pieces, false) == Some(false)
  }

  lemma {:induction false} ListCheckAppend(a: seq<Piece>, b: seq<Piece>, open: bool)
    ensures ListCheck(a + b, open)
      == match ListCheck(a, open) case None => None case Some(o) => ListCheck(b, o)
    decreases |a|
  {
    if a == [] {
      assert a + b == b;
    } else {
      assert (a + b)[0] == a[0] && (a + b)[1..] == a[1..] + b;
      ListCheckAppend(a[1..], b, a[0] == OpenList || (open && a[0] != CloseList));
    }
  }

  /** A piece that carries a line's text. */
  predicate HasText(piece: Piece) {
    !piece.OpenList? && !piece.CloseList?
  }

  /** What holds of the pieces of a text's lines: each carries non-empty text,
      and a title comes only from the first line, or from the second after a
      blank first line. */
  predicate ValidLinePieces(linePieces: seq<Option<Piece>>) {
    && (forall i :: 0 <= i < |linePieces| && linePieces[i].Some? ==>
          HasText(linePieces[i].value) && linePieces[i].value.text != "")
    && (forall i :: 0 <= i < |linePieces| && linePieces[i].Some? && linePieces[i].value.Title? ==>
          i == 0 || (i == 1 && linePieces[0].None?))
  }

  /** Each non-blank line is exported with non-empty text, a bullet's text included:
      a bullet line that is not a heading is at least 100 UTF-16 units long or ends
      with sentence punctuation, so something follows its marker. */
  lemma ClassifiedNonEmpty(lines: seq<string>, index: nat)
    requires index < |lines| && !IsBlank(lines[index])
    ensures Classify(lines, index).text != ""
  {
    var t := Trim(lines[index]);
    TrimProperties(lines[index]);
    if !IsTitleLine(lines, index) && !(Utf16Length(t) < 100 && !EndsWithSentenceMark(t))
      && StartsWithListMarker(t)
    {
      MarkedLineNonEmpty(t);
    }
  }

  /** A trimmed line that is long or ends a sentence keeps some text after its list marker. */
  lemma MarkedLineNonEmpty(t: string)
    requires StartsWithListMarker(t) && !IsSpace(t[|t| - 1])
    requires Utf16Length(t) >= 100 || EndsWithSentenceMark(t)
    ensures Trim(t[1..]) != ""
  {
    assert |t| >= 2;
    var rest := t[1..];
    assert rest[|rest| - 1] == t[|t| - 1];
    TrimEdges(rest);
    TrimBlank(rest, TrimStart(rest), Trim(rest));
  }

  lemma LinePiecesValid(lines: seq<string>)
    ensures ValidLinePieces(LinePieces(lines))
  {
    var linePieces := LinePieces(lines);
    forall i | 0 <= i < |linePieces| && linePieces[i].Some?
      ensures HasText(linePieces[i].value) && linePieces[i].value.text != ""
    {
      ClassifiedNonEmpty(lines, i);
    }
  }

  /** One line's pieces keep the nesting from the list state before the line,
      provided the title does not come inside a list. */
  lemma AdvanceNested(piece: Option<Piece>, inList: bool)
    requires piece.Some? ==> HasText(piece.value) && (piece.value.Title? ==> !inList)
    ensures ListCheck(Advance(piece, inList).0, inList) == Some(Advance(piece, inList).1)
  {
    assert [CloseList][1..] == [];
    if piece.Some? {
      var p := piece.value;
      assert [CloseList, p][1..] == [p] && [OpenList, p][1..] == [p];
      assert [p][1..] == [];
      if p.Item? {
        assert ListCheck([p], true) == Some(true);
        assert ListCheck([OpenList, p], false) == ListCheck([p], true);
      } else {
        assert ListCheck([p], false) == Some(false);
        assert ListCheck([CloseList, p], true) == ListCheck([p], false);
      }
    }
  }

  /** The only piece with text that a line appends is its own. */
  lemma AdvanceTexts(piece: Option<Piece>, inList: bool)
    ensures var more := Advance(piece, inList).0;
      forall j :: 0 <= j < |more| && HasText(more[j]) ==> piece == Some(more[j])
  {
  }

  /** A prefix of valid line pieces is valid. */
  lemma ValidPrefix(linePieces: seq<Option<Piece>>, n: nat)
    requires ValidLinePieces(linePieces) && n <= |linePieces|
    ensures ValidLinePieces(linePieces[..n])
  {
    var prefix := linePieces[..n];
    forall i | 0 <= i < n ensures prefix[i] == linePieces[i] {
    }
  }

  lemma {:induction false} AssembleNested(linePieces: seq<Option<Piece>>)
    requires ValidLinePieces(linePieces)
    ensures ListCheck(Assemble(linePieces).0, false) == Some(Assemble(linePieces).1)
    decreases |linePieces|
  {
    if linePieces != [] {
      var n := |linePieces| - 1;
      var before := linePieces[..n];
      ValidPrefix(linePieces, n);
      AssembleNested(before);
      var state := Assemble(before);
      var piece := linePieces[n];
      if piece.Some? && piece.value.Title? {
        assert n == 0 || (n == 1 && linePieces[0].None?);
        if n == 1 {
          assert before == [] + [linePieces[0]];
          assert Assemble(before) == ([] + Advance(None, false).0, false);
        }
        assert !state.1;
      }
      AdvanceNested(piece, state.1);
      ListCheckAppend(state.0, Advance(piece, state.1).0, false);
    }
  }

  /** The exported HTML nests its lists properly: `<ul>` and `</ul>` alternate,
      every `<li>` is inside a list, every other element outside, and a list left
      open by the last lines is closed at the end. */
  lemma PdfPiecesWellNested(content: string)
    ensures WellNested(PdfPieces(content))
  {
    var linePieces := LinePieces(Split(content, '\n'));
    LinePiecesValid(Split(content, '\n'));
    AssembleNested(linePieces);
    var state := Assemble(linePieces);
    ListCheckAppend(state.0, if state.1 then [CloseList] else [], false);
    assert [CloseList][1..] == [];
  }

  /** Every element that holds text holds some. */
  predicate NoEmptyElement(pieces: seq<Piece>) {
    forall i :: 0 <= i < |pieces| && HasText(pieces[i]) ==> pieces[i].text != ""
  }

  lemma {:induction false} AssembleNonEmpty(linePieces: seq<Option<Piece>>)
    requires ValidLinePieces(linePieces)
    ensures NoEmptyElement(Assemble(linePieces).0)
    decreases |linePieces|
  {
    if linePieces != [] {
      var n := |linePieces| - 1;
      ValidPrefix(linePieces, n);
      AssembleNonEmpty(linePieces[..n]);
      var state := Assemble(linePieces[..n]);
      var more := Advance(linePieces[n], state.1).0;
      AdvanceTexts(linePieces[n], state.1);
      var pieces := state.0 + more;
      forall i | 0 <= i < |pieces| && HasText(pieces[i]) ensures pieces[i].text != "" {
        if i >= |state.0| {
          assert pieces[i] == more[i - |state.0|];
          assert linePieces[n] == Some(pieces[i]);
        } else {
          assert pieces[i] == state.0[i];
        }
      }
    }
  }

  /** No exported element is empty: every `h1`, `h2`, `li`, `p` and framed
      paragraph holds text. */
  lemma PdfPiecesNonEmpty(content: string)
    ensures NoEmptyElement(PdfPieces(content))
  {
    var linePieces := LinePieces(Split(content, '\n'));
    LinePiecesValid(Split(content, '\n'));
    AssembleNonEmpty(linePieces);
    var state := Assemble(linePieces);
    var pieces := Finish(state);
    forall i | 0 <= i < |state.0| ensures pieces[i] == state.0[i] {
    }
  }

  /** The number of pieces that carry text. */
  function TextCount(pieces: seq<Piece>): nat {
    if pieces == [] then 0
    else TextCount(pieces[..|pieces| - 1]) + (if HasText(pieces[|pieces| - 1]) then 1 else 0)
  }

  lemma {:induction false} TextCountAppend(a: seq<Piece>, b: seq<Piece>)
    ensures TextCount(a + b) == TextCount(a) + TextCount(b)
    decreases |b|
  {
    if b == [] {
      assert a + b == a;
    } else {
      assert (a + b)[..|a + b| - 1] == a + b[..|b| - 1];
      TextCountAppend(a, b[..|b| - 1]);
    }
  }

  /** The number of lines that are not blank, that is, that have a piece. */
  function PresentCount(linePieces: seq<Option<Piece>>): nat {
    if linePieces == [] then 0
    else PresentCount(linePieces[..|linePieces| - 1]) + (if linePieces[|linePieces| - 1].Some? then 1 else 0)
  }

  /** The text pieces one line appends: one for a non-blank line, none for a blank one. */
  lemma AdvanceTextCount(piece: Option<Piece>, inList: bool)
    requires piece.Some? ==> HasText(piece.value)
    ensures TextCount(Advance(piece, inList).0) == if piece.Some? then 1 else 0
  {
    assert [CloseList][..0] == [];
    assert TextCount([CloseList]) == 0;
    if piece.Some? {
      var p := piece.value;
      assert [CloseList, p][..1] == [CloseList] && [OpenList, p][..1] == [OpenList];
      assert [p][..0] == [];
      assert TextCount([p]) == 1;
      assert [OpenList][..0] == [];
      assert TextCount([OpenList]) == 0;
    }
  }

  lemma {:induction false} AssembleTextCount(linePieces: seq<Option<Piece>>)
    requires ValidLinePieces(linePieces)
    ensures TextCount(Assemble(linePieces).0) == PresentCount(linePieces)
    decreases |linePieces|
  {
    if linePieces != [] {
      var n := |linePieces| - 1;
      ValidPrefix(linePieces, n);
      AssembleTextCount(linePieces[..n]);
      var state := Assemble(linePieces[..n]);
      AdvanceTextCount(linePieces[n], state.1);
      TextCountAppend(state.0, Advance(linePieces[n], state.1).0);
    }
  }

  /** Nothing is lost: every non-blank line of the text becomes exactly one element. */
  lemma PdfPiecesOnePerLine(content: string)
    ensures var lines := Split(content, '\n');
      && (forall i :: 0 <= i < |lines| ==> (LinePieces(lines)[i].Some? <==> !IsBlank(lines[i])))
      && TextCount(PdfPieces(content)) == PresentCount(LinePieces(lines))
  {
    var lines := Split(content, '\n');
    var linePieces := LinePieces(lines);
    LinePiecesValid(lines);
    AssembleTextCount(linePieces);
    var state := Assemble(linePieces);
    TextCountAppend(state.0, if state.1 then [CloseList] else []);
    assert TextCount([CloseList]) == 0 by {
      assert [CloseList][..0] == [];
    }
  }

  /** A title is only ever the first element. */
  predicate TitleFirst(pieces: seq<Piece>) {
    forall i :: 0 <= i < |pieces| && pieces[i].Title? ==> i == 0
  }

  lemma {:induction false} AssembleTitleFirst(linePieces: seq<Option<Piece>>)
    requires ValidLinePieces(linePieces)
    ensures TitleFirst(Assemble(linePieces).0)
    decreases |linePieces|
  {
    if linePieces != [] {
      var n := |linePieces| - 1;
      ValidPrefix(linePieces, n);
      AssembleTitleFirst(linePieces[..n]);
      var state := Assemble(linePieces[..n]);
      var piece := linePieces[n];
      var more := Advance(piece, state.1).0;
      if piece.Some? && piece.value.Title? {
        if n == 1 {
          assert linePieces[..1] == [] + [linePieces[0]];
          assert Assemble(linePieces[..1]) == ([] + Advance(None, false).0, false);
        }
        assert state.0 == [];
      } else {
        AdvanceTexts(piece, state.1);
      }
      var pieces := state.0 + more;
      forall i | 0 <= i < |pieces| && pieces[i].Title? ensures i == 0 {
        if i >= |state.0| {
          assert pieces[i] == more[i - |state.0|];
        } else {
          assert pieces[i] == state.0[i];
        }
      }
    }
  }

  /** The exported HTML has at most one `<h1>`, and it comes first. */
  lemma PdfPiecesTitleFirst(content: string)
    ensures TitleFirst(PdfPieces(content))
  {
    var linePieces := LinePieces(Split(content, '\n'));
    LinePiecesValid(Split(content, '\n'));
    AssembleTitleFirst(linePieces);
    var state := Assemble(linePieces);
    var pieces := Finish(state);
    forall i | 0 <= i < |state.0| ensures pieces[i] == state.0[i] {
    }
  }

  /** A bullet line shorter than 100 UTF-16 units that does not end like a
      sentence is exported as a heading: the heading test comes first. */
  lemma ShortBulletIsHeading(lines: seq<string>, index: nat)
    requires index < |lines| && !IsBlank(lines[index]) && !IsTitleLine(lines, index)
    requires var t := Trim(lines[index]);
      StartsWithListMarker(t) && Utf16Length(t) < 100 && !EndsWithSentenceMark(t)
    ensures Classify(lines, index) == Heading(Trim(lines[index]))
  {
  }

  /** A blank line appends nothing but the `</ul>` of an open list, and leaves no list open. */
  lemma BlankLineClosesList(lines: seq<string>, index: nat, inList: bool)
    requires index < |lines| && IsBlank(lines[index])
    ensures Step(lines, index, inList) == (if inList then [CloseList] else [], false)
  {
  }

  /** A line that is neither the title nor a heading and starts with a list marker
      is a list item holding the trimmed text after the marker, inside a list
      opened for it if none was open. */
  lemma BulletLineIsItem(lines: seq<string>, index: nat, inList: bool)
    requires index < |lines| && !IsBlank(lines[index]) && !IsTitleLine(lines, index)
    requires var t := Trim(lines[index]);
      StartsWithListMarker(t) && !(Utf16Length(t) < 100 && !EndsWithSentenceMark(t))
    ensures var item := Item(Trim(Trim(lines[index])[1..]));
      Step(lines, index, inList) == (if inList then [item] else [OpenList, item], true)
  {
    assert Classify(lines, index) == Item(Trim(Trim(lines[index])[1..]));
  }

  /** A long line of prose among the first five lines is framed as the introduction,
      after the `</ul>` of an open list. */
  lemma LongEarlyProseIsIntro(lines: seq<string>, index: nat, inList: bool)
    requires index < |lines| && !IsBlank(lines[index]) && !IsTitleLine(lines, index)
    requires var t := Trim(lines[index]);
      !StartsWithListMarker(t) && index < 5 && Utf16Length(t) > 100
    ensures var intro := Intro(Trim(lines[index]));
      Step(lines, index, inList) == (if inList then [CloseList, intro] else [intro], false)
  {
    assert Classify(lines, index) == Intro(Trim(lines[index]));
  }

  /** Mentioning "in conclusion" is mentioning "conclusion", so that test of the
      conclusion rule adds nothing. */
  lemma InConclusionRedundant(t: string)
    ensures Contains(t, "in conclusion") ==> Contains(t, "conclusion")
  {
    if Contains(t, "in conclusion") {
      assert OccursAt("in conclusion", "conclusion", 3);
      ContainsWithin(t, "in conclusion", "conclusion");
    }
  }
}
