/** `PDFPreprocessor`: the one-time pass that turns a theme's PDFs into the
    per-PDF and summary key points stored as JSON, with the language model's
    numbered-list reply parsed back into points. The model call is a function
    parameter standing for the reply to the prompt built from its arguments
    (None when the call raises); file and JSON I/O are outside the model. */
module PdfPreprocessor {
  import opened Base
  import opened Text
  import PdfProcessor

  // ---------------------------------------------------------------------------
  // Theme names

  const ThemePrefixes: seq<string> := ["04_", "05_", "06_", "07_"]

  /** `theme_name.startswith(('04_', '05_', '06_', '07_'))` */
  predicate ValidThemeName(name: string)
  {
    exists k :: 0 <= k < |ThemePrefixes| && StartsWith(name, ThemePrefixes[k])
  }

  /** A valid name is two digits from 04 to 07 followed by an underscore. */
  lemma ValidThemeNameShape(name: string)
    ensures ValidThemeName(name) <==>
              |name| >= 3 && name[0] == '0' && '4' <= name[1] <= '7' && name[2] == '_'
  {
    if |name| >= 3 && name[0] == '0' && '4' <= name[1] <= '7' && name[2] == '_' {
      var k := name[1] as int - '4' as int;
      assert name[..3] == ThemePrefixes[k];
    }
  }

  // ---------------------------------------------------------------------------
  // Parsing the reply

  /** `re.sub(r'^\d+[\.\)]\s*', '', line)` */
  function StripNumbering(line: string): string
  {
    var d := DigitRun(line);
    if 0 < d < |line| && (line[d] == '.' || line[d] == ')') then TrimLeft(line[d + 1..], Whitespace) else line
  }

  /** `re.sub(r'^[-*]\s*', '', line)` */
  function StripBullet(line: string): string
  {
    if line != [] && (line[0] == '-' || line[0] == '*') then TrimLeft(line[1..], Whitespace) else line
  }

  /** One line of the reply, cleaned: stripped, numbering removed, then a
      bullet removed. */
  function CleanLine(line: string): string
  {
    StripBullet(StripNumbering(Strip(line)))
  }

  /** Cleaning only removes characters from the front of the stripped line. */
  lemma CleanLineSuffix(line: string)
    ensures var s := Strip(line); var r := CleanLine(line);
            |r| <= |s| && r == s[|s| - |r|..]
  {
    var s := Strip(line);
    var n := StripNumbering(s);
    StripNumberingSuffix(s);
    var b := StripBullet(n);
    StripBulletSuffix(n);
    SuffixOfSuffix(s, n, b);
  }

  /** A line that starts with neither a digit nor a bullet keeps all of its
      stripped text. */
  lemma CleanLinePlain(line: string)
    ensures var s := Strip(line);
            (s == [] || (!IsDigit(s[0]) && s[0] != '-' && s[0] != '*')) ==> CleanLine(line) == s
  {
    var s := Strip(line);
    if s == [] || (!IsDigit(s[0]) && s[0] != '-' && s[0] != '*') {
      assert DigitRun(s) == 0;
      assert StripNumbering(s) == s;
    }
  }

  lemma SuffixOfSuffix(s: string, n: string, b: string)
    requires |n| <= |s| && n == s[|s| - |n|..]
    requires |b| <= |n| && b == n[|n| - |b|..]
    ensures b == s[|s| - |b|..]
  {
    assert n[|n| - |b|..] == s[|s| - |b|..];
  }

  lemma StripNumberingSuffix(s: string)
    ensures var n := StripNumbering(s); |n| <= |s| && n == s[|s| - |n|..]
  {
    var d := DigitRun(s);
    if 0 < d < |s| && (s[d] == '.' || s[d] == ')') {
      TrimLeftSuffix(s[d + 1..], Whitespace);
    }
  }

  lemma StripBulletSuffix(s: string)
    ensures var b := StripBullet(s); |b| <= |s| && b == s[|s| - |b|..]
  {
    if s != [] && (s[0] == '-' || s[0] == '*') {
      TrimLeftSuffix(s[1..], Whitespace);
    }
  }

  /** The lines longer than 10 characters, in order. */
  function LongLines(cleaned: seq<string>): (r: seq<string>)
    ensures |r| <= |cleaned|
    ensures forall p :: p in r ==> |p| > 10
  {
    if cleaned == [] then []
    else
      var rest := LongLines(cleaned[..|cleaned| - 1]);
      var last := cleaned[|cleaned| - 1];
      if |last| > 10 then rest + [last] else rest
  }

  /** `LongLines` keeps exactly the lines longer than 10 characters. */
  lemma {:induction false} LongLinesAre(cleaned: seq<string>)
    ensures forall p :: p in LongLines(cleaned) ==> p in cleaned
    ensures forall k :: 0 <= k < |cleaned| && |cleaned[k]| > 10 ==> cleaned[k] in LongLines(cleaned)
  {
    if cleaned != [] {
      var init := cleaned[..|cleaned| - 1];
      LongLinesAre(init);
      forall k | 0 <= k < |cleaned| - 1 ensures cleaned[k] == init[k] {
      }
    }
  }

  /** Every line of the reply, cleaned. */
  function Cleaned(lines: seq<string>): (r: seq<string>)
    ensures |r| == |lines| && forall k :: 0 <= k < |lines| ==> r[k] == CleanLine(lines[k])
  {
    seq(|lines|, k requires 0 <= k < |lines| => CleanLine(lines[k]))
  }

  /** The cleaned lines longer than 10 characters, in order. */
  function Takeaways(lines: seq<string>): seq<string>
  {
    LongLines(Cleaned(lines))
  }

  /** The takeaways are exactly the cleaned lines longer than 10 characters. */
  lemma TakeawaysAre(lines: seq<string>)
    ensures forall p :: p in Takeaways(lines) ==> p in Cleaned(lines)
    ensures forall k :: 0 <= k < |lines| && |CleanLine(lines[k])| > 10 ==> CleanLine(lines[k]) in Takeaways(lines)
  {
    LongLinesAre(Cleaned(lines));
  }

  lemma TakeawaysSnoc(lines: seq<string>, i: nat)
    requires i < |lines|
    ensures var line := CleanLine(lines[i]);
            Takeaways(lines[..i + 1]) == Takeaways(lines[..i]) + (if |line| > 10 then [line] else [])
  {
    var cs := Cleaned(lines[..i + 1]);
    assert cs[..i] == Cleaned(lines[..i]);
  }

  /** The lines of the stripped reply. */
  function ReplyLines(reply: string): seq<string>
  {
    Split(Strip(reply), "\n")
  }

  /** The parsing loop of `refine_key_points_with_llm`. */
  method ParseReply(reply: string) returns (points: seq<string>)
    ensures points == Takeaways(ReplyLines(reply))
  {
    var lines := ReplyLines(reply);
    points := [];
    var i := 0;
    while i < |lines|
      invariant 0 <= i <= |lines|
      invariant points == Takeaways(lines[..i])
    {
      TakeawaysSnoc(lines, i);
      var line := CleanLine(lines[i]);
      if |line| > 10 {
        points := points + [line];
      }
      i := i + 1;
    }
    assert lines[..i] == lines;
  }

  /** A line made of a number, '.' or ')', blanks and then the text loses
      all but the text. */
  lemma NumberedLine(digits: string, mark: char, spaces: string, text: string)
    requires digits != [] && forall k :: 0 <= k < |digits| ==> IsDigit(digits[k])
    requires mark == '.' || mark == ')'
    requires forall k :: 0 <= k < |spaces| ==> spaces[k] in Whitespace
    requires text == [] || text[0] !in Whitespace
    ensures StripNumbering(digits + [mark] + spaces + text) == text
  {
    var line := digits + [mark] + spaces + text;
    assert line == digits + ([mark] + spaces + text);
    DigitRunOf(digits, [mark] + spaces + text);
    assert line[|digits|] == mark;
    assert line[|digits| + 1..] == spaces + text;
    TrimLeftRun(spaces, text);
  }

  /** A line made of '-' or '*', blanks and then the text loses all but the
      text. */
  lemma BulletLine(bullet: char, spaces: string, text: string)
    requires bullet == '-' || bullet == '*'
    requires forall k :: 0 <= k < |spaces| ==> spaces[k] in Whitespace
    requires text == [] || text[0] !in Whitespace
    ensures StripBullet([bullet] + spaces + text) == text
  {
    assert ([bullet] + spaces + text)[1..] == spaces + text;
    TrimLeftRun(spaces, text);
  }

  // ---------------------------------------------------------------------------
  // Refinement

  /** The raw block the prompt embeds: the first 20 raw points, one `- `
      line each. */
  function RawBlock(raw: seq<string>): string
  {
    Join(Bulleted(Prefix(raw, 20)), "\n")
  }

  function Bulleted(points: seq<string>): (r: seq<string>)
    ensures |r| == |points| && forall k :: 0 <= k < |points| ==> r[k] == "- " + points[k]
  {
    if points == [] then [] else ["- " + points[0]] + Bulleted(points[1..])
  }

  /** Raw points after the twentieth never reach the model. */
  lemma RawBlockFirst20(raw: seq<string>, extra: seq<string>)
    requires |raw| >= 20
    ensures RawBlock(raw + extra) == RawBlock(raw)
  {
    assert Prefix(raw + extra, 20) == Prefix(raw, 20);
  }

  /** A call to the language model: the theme, the raw block and the number
      of points asked for go into the prompt; None stands for a raised
      exception or a reply without content. */
  type Model = (string, string, int) -> Option<string>

  /** What `refine_key_points_with_llm` returns. */
  function Refined(raw: seq<string>, theme: string, maxPoints: int, hasClient: bool, ask: Model): (r: seq<string>)
    ensures !hasClient ==> r == Prefix(raw, maxPoints)
    ensures hasClient && ask(theme, RawBlock(raw), maxPoints).None? ==> r == Prefix(raw, maxPoints)
    ensures maxPoints >= 0 ==> |r| <= maxPoints
  {
    if !hasClient then Prefix(raw, maxPoints)
    else
      var reply := ask(theme, RawBlock(raw), maxPoints);
      if reply.None? then Prefix(raw, maxPoints)
      else
        var parsed := Takeaways(ReplyLines(reply.value));
        if parsed != [] then Prefix(parsed, maxPoints) else Prefix(raw, maxPoints)
  }

  /** The refined points are the model's cleaned takeaways when it gave any,
      and otherwise the raw points, cut to `max_points` either way. */
  lemma RefinedSource(raw: seq<string>, theme: string, maxPoints: int, hasClient: bool, ask: Model)
    ensures var r := Refined(raw, theme, maxPoints, hasClient, ask);
            var reply := ask(theme, RawBlock(raw), maxPoints);
            (hasClient && reply.Some? && Takeaways(ReplyLines(reply.value)) != [] ==>
               r <= Takeaways(ReplyLines(reply.value)) && forall p :: p in r ==> |p| > 10) &&
            (!hasClient || reply.None? || Takeaways(ReplyLines(reply.value)) == [] ==>
               r <= raw || (maxPoints < 0 && r == Prefix(raw, maxPoints)))
  {
    var r := Refined(raw, theme, maxPoints, hasClient, ask);
    var reply := ask(theme, RawBlock(raw), maxPoints);
    if hasClient && reply.Some? && Takeaways(ReplyLines(reply.value)) != [] {
      var parsed := Takeaways(ReplyLines(reply.value));
      assert forall p :: p in r ==> p in parsed;
    }
  }

  /** `refine_key_points_with_llm`. */
  method RefineKeyPoints(raw: seq<string>, theme: string, maxPoints: int, hasClient: bool, ask: Model)
    returns (points: seq<string>)
    ensures points == Refined(raw, theme, maxPoints, hasClient, ask)
  {
    if !hasClient {
      return Prefix(raw, maxPoints);
    }
    var reply := ask(theme, RawBlock(raw), maxPoints);
    if reply.None? {
      return Prefix(raw, maxPoints);
    }
    var parsed := ParseReply(reply.value);
    points := if parsed != [] then Prefix(parsed, maxPoints) else Prefix(raw, maxPoints);
  }

  // ---------------------------------------------------------------------------
  // Preprocessing a theme

  /** One entry of the `pdfs` list. */
  datatype PdfEntry = PdfEntry(filename: string, keyPoints: seq<string>, wordCount: nat, characterCount: nat,
                               pagesProcessed: int)

  /** The `summary` object. */
  datatype SummaryEntry = SummaryEntry(combinedKeyPoints: seq<string>, totalWordCount: nat,
                                       totalCharacterCount: nat, totalPdfs: nat)

  /** The outcome of `preprocess_theme`: the stored JSON returned as it is,
      `{}` when the theme has no PDFs, or the freshly processed content. */
  datatype Outcome = Loaded(json: string) | NoPdfs | Processed(theme: string, pdfs: seq<PdfEntry>, summary: SummaryEntry)

  /** The settings and the model access that a preprocessing run uses. */
  datatype Run = Run(maxPages: int, maxKeyPoints: int, force: bool, hasClient: bool, ask: Model)

  /** The entry for one PDF, or None when no text was extracted from it. */
  function EntryOf(theme: string, name: string, doc: PdfProcessor.Document, run: Run): (e: Option<PdfEntry>)
    ensures e.None? <==> PdfProcessor.PdfText(doc, Some(run.maxPages)) == ""
    ensures e.Some? ==> e.value.filename == name && e.value.pagesProcessed == run.maxPages
  {
    var text := PdfProcessor.PdfText(doc, Some(run.maxPages));
    if text == "" then None
    else
      var raw := PdfProcessor.KeyPoints(text, run.maxKeyPoints);
      Some(PdfEntry(name, Refined(raw, theme, run.maxKeyPoints, run.hasClient, run.ask),
                    |Words(text)|, |text|, run.maxPages))
  }

  /** The entries of the PDFs that yield text, in order. */
  function Entries(theme: string, pdfs: seq<(string, PdfProcessor.Document)>, run: Run): (r: seq<PdfEntry>)
    ensures |r| <= |pdfs|
  {
    if pdfs == [] then []
    else
      var rest := Entries(theme, pdfs[..|pdfs| - 1], run);
      var e := EntryOf(theme, pdfs[|pdfs| - 1].0, pdfs[|pdfs| - 1].1, run);
      if e.Some? then rest + [e.value] else rest
  }

  /** The texts of the PDFs that yield text, in order. */
  function Texts(pdfs: seq<(string, PdfProcessor.Document)>, maxPages: int): seq<string>
  {
    if pdfs == [] then []
    else
      var rest := Texts(pdfs[..|pdfs| - 1], maxPages);
      var text := PdfProcessor.PdfText(pdfs[|pdfs| - 1].1, Some(maxPages));
      if text != "" then rest + [text] else rest
  }

  function SumWords(entries: seq<PdfEntry>): nat
  {
    if entries == [] then 0 else SumWords(entries[..|entries| - 1]) + entries[|entries| - 1].wordCount
  }

  function SumChars(entries: seq<PdfEntry>): nat
  {
    if entries == [] then 0 else SumChars(entries[..|entries| - 1]) + entries[|entries| - 1].characterCount
  }

  /** The number of PDFs that yield text. */
  function CountWithText(pdfs: seq<(string, PdfProcessor.Document)>, maxPages: int): nat
  {
    if pdfs == [] then 0
    else CountWithText(pdfs[..|pdfs| - 1], maxPages) +
         (if PdfProcessor.PdfText(pdfs[|pdfs| - 1].1, Some(maxPages)) != "" then 1 else 0)
  }

  /** The summary key-point limit: per-PDF limit times the number of PDF
      files found, counting files that yielded no text. */
  function SummaryLimit(maxKeyPoints: int, pdfCount: nat): int
  {
    maxKeyPoints * pdfCount
  }

  /** The content `preprocess_theme` stores for a theme with PDFs. */
  function Preprocessed(theme: string, pdfs: seq<(string, PdfProcessor.Document)>, run: Run): Outcome
  {
    var entries := Entries(theme, pdfs, run);
    var combined := Join(Texts(pdfs, run.maxPages), PdfProcessor.PdfSeparator);
    var limit := SummaryLimit(run.maxKeyPoints, |pdfs|);
    var raw := PdfProcessor.KeyPoints(combined, limit);
    Processed(theme, entries,
              SummaryEntry(Refined(raw, theme, limit, run.hasClient, run.ask),
                           SumWords(entries), SumChars(entries), |entries|))
  }

  /** Only PDFs with text are counted and listed; the totals add up their
      word and character counts; the summary has at most `max_key_points`
      points per PDF file found. */
  lemma {:induction false} EntriesCount(theme: string, pdfs: seq<(string, PdfProcessor.Document)>, run: Run)
    ensures |Entries(theme, pdfs, run)| == CountWithText(pdfs, run.maxPages)
    ensures |Entries(theme, pdfs, run)| == |Texts(pdfs, run.maxPages)|
    ensures forall k :: 0 <= k < |Entries(theme, pdfs, run)| ==>
              Entries(theme, pdfs, run)[k].characterCount == |Texts(pdfs, run.maxPages)[k]| &&
              Entries(theme, pdfs, run)[k].wordCount == |Words(Texts(pdfs, run.maxPages)[k])|
  {
    if pdfs != [] {
      EntriesCount(theme, pdfs[..|pdfs| - 1], run);
    }
  }

  lemma SummaryBound(theme: string, pdfs: seq<(string, PdfProcessor.Document)>, run: Run)
    requires run.maxKeyPoints >= 0
    ensures Preprocessed(theme, pdfs, run).summary.combinedKeyPoints != [] ==> pdfs != []
    ensures |Preprocessed(theme, pdfs, run).summary.combinedKeyPoints| <= run.maxKeyPoints * |pdfs|
  {
    var limit := SummaryLimit(run.maxKeyPoints, |pdfs|);
    assert limit >= 0;
    var combined := Join(Texts(pdfs, run.maxPages), PdfProcessor.PdfSeparator);
    var raw := PdfProcessor.KeyPoints(combined, limit);
    var r := Refined(raw, theme, limit, run.hasClient, run.ask);
    assert Preprocessed(theme, pdfs, run).summary.combinedKeyPoints == r;
    assert |r| <= limit;
  }

  /** The entries and texts of one more PDF. */
  lemma EntriesStep(theme: string, pdfs: seq<(string, PdfProcessor.Document)>, i: nat, run: Run)
    requires i < |pdfs|
    ensures var e := EntryOf(theme, pdfs[i].0, pdfs[i].1, run);
            Entries(theme, pdfs[..i + 1], run) ==
              if e.Some? then Entries(theme, pdfs[..i], run) + [e.value] else Entries(theme, pdfs[..i], run)
    ensures var text := PdfProcessor.PdfText(pdfs[i].1, Some(run.maxPages));
            Texts(pdfs[..i + 1], run.maxPages) ==
              if text != "" then Texts(pdfs[..i], run.maxPages) + [text] else Texts(pdfs[..i], run.maxPages)
  {
    assert pdfs[..i + 1][..i] == pdfs[..i];
  }

  /** What one more PDF adds to the lists and the totals. */
  lemma LoopStep(theme: string, pdfs: seq<(string, PdfProcessor.Document)>, i: nat, run: Run,
                 entries: seq<PdfEntry>, texts: seq<string>, entry: Option<PdfEntry>, text: string)
    requires i < |pdfs| && entries == Entries(theme, pdfs[..i], run) && texts == Texts(pdfs[..i], run.maxPages)
    requires entry == EntryOf(theme, pdfs[i].0, pdfs[i].1, run) && text == PdfProcessor.PdfText(pdfs[i].1, Some(run.maxPages))
    ensures entry.Some? ==> Entries(theme, pdfs[..i + 1], run) == entries + [entry.value] &&
                            Texts(pdfs[..i + 1], run.maxPages) == texts + [text] &&
                            SumWords(entries + [entry.value]) == SumWords(entries) + entry.value.wordCount &&
                            SumChars(entries + [entry.value]) == SumChars(entries) + entry.value.characterCount
    ensures entry.None? ==> Entries(theme, pdfs[..i + 1], run) == entries && Texts(pdfs[..i + 1], run.maxPages) == texts
  {
    EntriesStep(theme, pdfs, i, run);
    if entry.Some? {
      SumsAppend(entries, entry.value);
    }
  }

  lemma SumsAppend(entries: seq<PdfEntry>, e: PdfEntry)
    ensures SumWords(entries + [e]) == SumWords(entries) + e.wordCount
    ensures SumChars(entries + [e]) == SumChars(entries) + e.characterCount
  {
    assert (entries + [e])[..|entries|] == entries;
  }

  /** The per-PDF loop of `preprocess_theme`. */
  method ProcessPdfs(theme: string, pdfs: seq<(string, PdfProcessor.Document)>, run: Run)
    returns (entries: seq<PdfEntry>, texts: seq<string>, totalWords: nat, totalChars: nat)
    ensures entries == Entries(theme, pdfs, run) && texts == Texts(pdfs, run.maxPages)
    ensures totalWords == SumWords(entries) && totalChars == SumChars(entries)
  {
    entries, texts, totalWords, totalChars := [], [], 0, 0;
    for i := 0 to |pdfs|
      invariant entries == Entries(theme, pdfs[..i], run)
      invariant texts == Texts(pdfs[..i], run.maxPages)
      invariant totalWords == SumWords(entries) && totalChars == SumChars(entries)
    {
      var entry, text := ProcessPdf(theme, pdfs[i].0, pdfs[i].1, run);
      LoopStep(theme, pdfs, i, run, entries, texts, entry, text);
      if entry.Some? {
        entries := entries + [entry.value];
        texts := texts + [text];
        totalWords := totalWords + entry.value.wordCount;
        totalChars := totalChars + entry.value.characterCount;
      }
    }
    assert pdfs[..|pdfs|] == pdfs;
  }

  /** One PDF of the loop in `preprocess_theme`: its text, and its entry
      when the text is not empty. */
  method ProcessPdf(theme: string, name: string, doc: PdfProcessor.Document, run: Run)
    returns (entry: Option<PdfEntry>, text: string)
    ensures entry == EntryOf(theme, name, doc, run)
    ensures text == PdfProcessor.PdfText(doc, Some(run.maxPages))
    ensures entry.Some? ==> entry.value.wordCount == |Words(text)| && entry.value.characterCount == |text|
  {
    text := PdfProcessor.ExtractText(doc, Some(run.maxPages));
    if text == "" {
      return None, text;
    }
    var raw := PdfProcessor.ExtractKeyPoints(text, run.maxKeyPoints);
    var refined := RefineKeyPoints(raw, theme, run.maxKeyPoints, run.hasClient, run.ask);
    entry := Some(PdfEntry(name, refined, |Words(text)|, |text|, run.maxPages));
  }

  /** `preprocess_theme`: `existing` is the stored `content.json`, if any,
      and `pdfs` the theme's PDFs as `find_pdfs` lists them. */
  method PreprocessTheme(theme: string, existing: Option<string>, pdfs: seq<(string, PdfProcessor.Document)>, run: Run)
    returns (r: Result<Outcome, string>)
    ensures !ValidThemeName(theme) <==> r.Err?
    ensures ValidThemeName(theme) && existing.Some? && !run.force ==> r == Ok(Loaded(existing.value))
    ensures ValidThemeName(theme) && (existing.None? || run.force) && pdfs == [] ==> r == Ok(NoPdfs)
    ensures ValidThemeName(theme) && (existing.None? || run.force) && pdfs != [] ==>
              r == Ok(Preprocessed(theme, pdfs, run))
  {
    if !(StartsWith(theme, "04_") || StartsWith(theme, "05_") || StartsWith(theme, "06_") || StartsWith(theme, "07_")) {
      assert !ValidThemeName(theme) by {
        forall k | 0 <= k < |ThemePrefixes| ensures !StartsWith(theme, ThemePrefixes[k]) {
        }
      }
      return Err("Invalid theme name: theme names must start with 04_, 05_, 06_, or 07_");
    }
    assert ValidThemeName(theme) by {
      if StartsWith(theme, "04_") {
        assert StartsWith(theme, ThemePrefixes[0]);
      } else if StartsWith(theme, "05_") {
        assert StartsWith(theme, ThemePrefixes[1]);
      } else if StartsWith(theme, "06_") {
        assert StartsWith(theme, ThemePrefixes[2]);
      } else {
        assert StartsWith(theme, ThemePrefixes[3]);
      }
    }
    if existing.Some? && !run.force {
      return Ok(Loaded(existing.value));
    }
    if pdfs == [] {
      return Ok(NoPdfs);
    }
    var entries, texts, totalWords, totalChars := ProcessPdfs(theme, pdfs, run);
    var combined := Join(texts, PdfProcessor.PdfSeparator);
    var limit := run.maxKeyPoints * |pdfs|;
    var raw := PdfProcessor.ExtractKeyPoints(combined, limit);
    var summary := RefineKeyPoints(raw, theme, limit, run.hasClient, run.ask);
    r := Ok(Processed(theme, entries, SummaryEntry(summary, totalWords, totalChars, |entries|)));
  }

  // ---------------------------------------------------------------------------
  // All themes

  const AllThemes: seq<string> := ["04_immune_system", "05_kombucha_benefits", "06_digestive_health",
                                   "07_kombucha_research"]

  /** What a theme directory holds: its stored JSON, if any, and its PDFs. */
  datatype ThemeDir = ThemeDir(existing: Option<string>, pdfs: seq<(string, PdfProcessor.Document)>)

  /** The fixed theme names all pass the name check. */
  lemma AllThemesValid()
    ensures forall t :: t in AllThemes ==> ValidThemeName(t)
  {
    forall t | t in AllThemes ensures ValidThemeName(t) {
      ValidThemeNameShape(t);
    }
  }

  /** The position of a theme in `AllThemes`, or 4 for any other name. */
  function ThemeIndex(theme: string): (k: nat)
    ensures k < |AllThemes| ==> AllThemes[k] == theme
    ensures theme in AllThemes ==> k < |AllThemes|
  {
    if theme == AllThemes[0] then 0
    else if theme == AllThemes[1] then 1
    else if theme == AllThemes[2] then 2
    else if theme == AllThemes[3] then 3
    else 4
  }

  /** The result `preprocess_theme` gives for a theme directory. */
  function ThemeOutcome(theme: string, dir: ThemeDir, run: Run): Outcome
  {
    if dir.existing.Some? && !run.force then Loaded(dir.existing.value)
    else if dir.pdfs == [] then NoPdfs
    else Preprocessed(theme, dir.pdfs, run)
  }

  /** `preprocess_all_themes`: the four fixed themes, in order and each at
      most once, skipping those whose directory is missing (`dirs` maps a theme to its directory,
      None when absent). */
  method PreprocessAllThemes(dirs: string -> Option<ThemeDir>, run: Run)
    returns (results: seq<(string, Outcome)>)
    ensures |results| <= 4
    ensures forall e :: e in results ==> e.0 in AllThemes && dirs(e.0).Some? && e.1 == ThemeOutcome(e.0, dirs(e.0).value, run)
    ensures forall t :: t in AllThemes && dirs(t).Some? ==> exists e :: e in results && e.0 == t
    ensures forall a, b :: 0 <= a < b < |results| ==> ThemeIndex(results[a].0) < ThemeIndex(results[b].0)
  {
    AllThemesValid();
    results := [];
    var i := 0;
    while i < |AllThemes|
      invariant 0 <= i <= |AllThemes| && |results| <= i
      invariant forall e :: e in results ==> e.0 in AllThemes && dirs(e.0).Some? && e.1 == ThemeOutcome(e.0, dirs(e.0).value, run)
      invariant forall k :: 0 <= k < i && dirs(AllThemes[k]).Some? ==> exists e :: e in results && e.0 == AllThemes[k]
      invariant forall a :: 0 <= a < |results| ==> ThemeIndex(results[a].0) < i
      invariant forall a, b :: 0 <= a < b < |results| ==> ThemeIndex(results[a].0) < ThemeIndex(results[b].0)
    {
      var theme := AllThemes[i];
      var dir := dirs(theme);
      if dir.Some? {
        assert ValidThemeName(theme);
        var outcome := PreprocessTheme(theme, dir.value.existing, dir.value.pdfs, run);
        results := results + [(theme, outcome.value)];
        assert results[|results| - 1].0 == theme;
        assert ThemeIndex(theme) == i;
      }
      i := i + 1;
    }
  }
}
