/** `PDFProcessor`: page-limited text extraction, the combined text of a
    theme, its summary, and the keyword heuristic that picks key points.
    Reading a PDF is outside the model: a document is given as the texts its
    pages yield. */
module PdfProcessor {
  import opened Base
  import opened Text

  // ---------------------------------------------------------------------------
  // Text extraction

  /** What `page.extract_text()` gives for one page: some text (possibly
      empty, standing also for None) or an exception. */
  datatype PageText = Text(text: string) | Raises

  /** A document as `pdfplumber` would read it: its pages, or None when it
      cannot be opened. */
  type Document = Option<seq<PageText>>

  /** The number of pages `extract_text` reads: all of them unless `max_pages`
      is a non-zero number, in which case at most that many. */
  function PagesToProcess(pageCount: nat, maxPages: Option<int>): (n: int)
    ensures maxPages.None? || maxPages.value == 0 ==> n == pageCount
    ensures maxPages.Some? && maxPages.value != 0 ==> n == Min(pageCount, maxPages.value)
    ensures n <= pageCount
  {
    if maxPages.Some? && maxPages.value != 0 then Min(pageCount, maxPages.value) else pageCount
  }

  predicate PageRaises(p: PageText) { p.Raises? }

  /** The non-empty texts among the pages, in order. */
  function NonEmptyTexts(pages: seq<PageText>): (r: seq<string>)
    ensures forall t :: t in r ==> t != ""
  {
    if pages == [] then []
    else
      var rest := NonEmptyTexts(pages[..|pages| - 1]);
      var last := pages[|pages| - 1];
      if last.Text? && last.text != "" then rest + [last.text] else rest
  }

  /** The text of one PDF: the non-empty texts of the processed pages joined
      by a blank line; "" when the file cannot be opened or a processed page
      raises, since the exception handler discards what was collected. */
  function PdfText(doc: Document, maxPages: Option<int>): string
  {
    if doc.None? then ""
    else
      var n := Max(0, PagesToProcess(|doc.value|, maxPages));
      if exists k :: 0 <= k < n && PageRaises(doc.value[k]) then ""
      else Join(NonEmptyTexts(doc.value[..n]), "\n\n")
  }

  /** `extract_text`: the page loop. */
  method ExtractText(doc: Document, maxPages: Option<int>) returns (r: string)
    ensures r == PdfText(doc, maxPages)
  {
    if doc.None? {
      return "";
    }
    var pages := doc.value;
    var n := Max(0, PagesToProcess(|pages|, maxPages));
    var content: seq<string> := [];
    var i := 0;
    while i < n
      invariant 0 <= i <= n <= |pages|
      invariant content == NonEmptyTexts(pages[..i])
      invariant forall k :: 0 <= k < i ==> !PageRaises(pages[k])
    {
      if pages[i].Raises? {
        return "";
      }
      assert pages[..i + 1][..i] == pages[..i];
      if pages[i].text != "" {
        content := content + [pages[i].text];
      }
      i := i + 1;
    }
    r := Join(content, "\n\n");
  }

  /** Every part occurs in the joined string. */
  lemma {:induction false} JoinContainsPart(parts: seq<string>, sep: string, k: nat)
    requires k < |parts|
    ensures Contains(Join(parts, sep), parts[k])
  {
    if k == 0 {
      ContainsAt(Join(parts, sep), parts[0], 0);
    } else {
      JoinContainsPart(parts[1..], sep, k - 1);
      ContainsAfter(parts[0] + sep, Join(parts[1..], sep), parts[k]);
    }
  }

  /** A page that comes before the limit and yields text puts that text into
      the PDF's text, unless some processed page raises; an unreadable file
      gives "". */
  lemma PdfTextHasPages(doc: Document, maxPages: Option<int>, k: nat)
    requires doc.Some? && k < Max(0, PagesToProcess(|doc.value|, maxPages))
    requires doc.value[k].Text? && doc.value[k].text != ""
    requires forall j :: 0 <= j < |doc.value| ==> !PageRaises(doc.value[j])
    ensures Contains(PdfText(doc, maxPages), doc.value[k].text)
  {
    var n := Max(0, PagesToProcess(|doc.value|, maxPages));
    var pages := doc.value[..n];
    var texts := NonEmptyTexts(pages);
    NonEmptyTextsHas(pages, k);
    var j :| 0 <= j < |texts| && texts[j] == doc.value[k].text;
    JoinContainsPart(texts, "\n\n", j);
  }

  lemma {:induction false} NonEmptyTextsHas(pages: seq<PageText>, k: nat)
    requires k < |pages| && pages[k].Text? && pages[k].text != ""
    ensures pages[k].text in NonEmptyTexts(pages)
  {
    if k < |pages| - 1 {
      NonEmptyTextsHas(pages[..|pages| - 1], k);
    }
  }

  /** `find_pdfs`: the names in the theme's `pdfs` directory that end in
      `.pdf`, in listing order; none when the directory is missing. */
  function FindPdfs(dirExists: bool, names: seq<string>): (r: seq<string>)
    ensures !dirExists ==> r == []
    ensures dirExists ==> forall n :: n in r <==> n in names && EndsWith(n, ".pdf")
    ensures |r| <= |names|
  {
    if !dirExists || names == [] then []
    else (if EndsWith(names[0], ".pdf") then [names[0]] else []) + FindPdfs(dirExists, names[1..])
  }

  /** The `{name: text}` dictionary `process_theme_pdfs` builds, in insertion
      order: the PDFs whose text is not empty. */
  function ThemeTexts(pdfs: seq<(string, Document)>, maxPages: Option<int>): (r: seq<(string, string)>)
    ensures |r| <= |pdfs|
    ensures forall e :: e in r ==> e.1 != "" && exists d :: (e.0, d) in pdfs && e.1 == PdfText(d, maxPages)
    ensures forall e :: e in pdfs && PdfText(e.1, maxPages) != "" ==> (e.0, PdfText(e.1, maxPages)) in r
  {
    if pdfs == [] then []
    else
      var rest := ThemeTexts(pdfs[..|pdfs| - 1], maxPages);
      var last := pdfs[|pdfs| - 1];
      assert forall e :: e in pdfs[..|pdfs| - 1] ==> e in pdfs;
      assert forall e :: e in pdfs ==> e in pdfs[..|pdfs| - 1] || e == last;
      var t := PdfText(last.1, maxPages);
      if t != "" then rest + [(last.0, t)] else rest
  }

  /** `process_theme_pdfs`: extract each PDF and keep the non-empty texts. */
  method ProcessThemePdfs(pdfs: seq<(string, Document)>, maxPages: Option<int>) returns (results: seq<(string, string)>)
    ensures results == ThemeTexts(pdfs, maxPages)
  {
    results := [];
    var i := 0;
    while i < |pdfs|
      invariant 0 <= i <= |pdfs|
      invariant results == ThemeTexts(pdfs[..i], maxPages)
    {
      assert pdfs[..i + 1][..i] == pdfs[..i];
      var text := ExtractText(pdfs[i].1, maxPages);
      if text != "" {
        results := results + [(pdfs[i].0, text)];
      }
      i := i + 1;
    }
    assert pdfs[..i] == pdfs;
  }

  const PdfSeparator: string := "\n\n---\n\n"

  /** The values of a dictionary kept as a sequence of pairs. */
  function Values(d: seq<(string, string)>): (r: seq<string>)
    ensures |r| == |d| && forall k :: 0 <= k < |d| ==> r[k] == d[k].1
  {
    if d == [] then [] else [d[0].1] + Values(d[1..])
  }

  /** `get_combined_text`: the texts of the theme's PDFs separated by a ruled
      blank line. */
  function CombinedText(pdfs: seq<(string, Document)>, maxPages: Option<int>): string
  {
    Join(Values(ThemeTexts(pdfs, maxPages)), PdfSeparator)
  }

  /** The total length of a sequence of strings. */
  function TotalLength(parts: seq<string>): nat
  {
    if parts == [] then 0 else |parts[0]| + TotalLength(parts[1..])
  }

  /** A joined string is as long as its parts plus one separator between each
      two neighbours. */
  lemma {:induction false} JoinLength(parts: seq<string>, sep: string)
    requires parts != []
    ensures |Join(parts, sep)| == TotalLength(parts) + (|parts| - 1) * |sep|
  {
    if |parts| > 1 {
      JoinLength(parts[1..], sep);
    }
  }

  /** The combined text is empty exactly when no PDF yields text; otherwise
      it holds every PDF text once and one separator between neighbours. */
  lemma CombinedLength(pdfs: seq<(string, Document)>, maxPages: Option<int>)
    ensures var d := ThemeTexts(pdfs, maxPages);
            (d == [] <==> CombinedText(pdfs, maxPages) == "") &&
            (d != [] ==> |CombinedText(pdfs, maxPages)| == TotalLength(Values(d)) + (|d| - 1) * 7)
  {
    var d := ThemeTexts(pdfs, maxPages);
    if d != [] {
      assert d[0] in d;
      NonEmptyJoin(Values(d), PdfSeparator);
    }
  }

  /** Joining parts whose first one is not empty gives a non-empty string. */
  lemma NonEmptyJoin(parts: seq<string>, sep: string)
    requires parts != [] && parts[0] != ""
    ensures |Join(parts, sep)| == TotalLength(parts) + (|parts| - 1) * |sep| > 0
  {
    JoinLength(parts, sep);
  }

  /** What `get_summary` reports. */
  datatype Summary = Summary(fullText: string, keyPoints: seq<string>, wordCount: nat, characterCount: nat)

  /** `get_summary` for the texts of a theme's PDFs. */
  function GetSummary(pdfs: seq<(string, Document)>, maxPages: Option<int>): (s: Summary)
    ensures s.fullText == CombinedText(pdfs, maxPages) && s.keyPoints == KeyPoints(s.fullText, 5)
    ensures s.wordCount == |Words(s.fullText)| && s.characterCount == |s.fullText|
    ensures |s.keyPoints| <= 5 && forall p :: p in s.keyPoints ==> p in Sentences(s.fullText)
  {
    var text := CombinedText(pdfs, maxPages);
    KeyPointsBound(text, 5);
    KeyPointsAreSentences(text, 5);
    Summary(text, KeyPoints(text, 5), |Words(text)|, |text|)
  }

  // ---------------------------------------------------------------------------
  // Sentences

  const Terminators: set<char> := {'.', '!', '?'}

  /** The first position holding a character of `cs`. */
  function FirstIn(s: string, cs: set<char>): (r: Option<nat>)
    ensures r.Some? ==> r.value < |s| && s[r.value] in cs && forall k :: 0 <= k < r.value ==> s[k] !in cs
    ensures r.None? ==> forall k :: 0 <= k < |s| ==> s[k] !in cs
  {
    if s == [] then None
    else if s[0] in cs then Some(0)
    else
      var r := FirstIn(s[1..], cs);
      if r.Some? then Some(r.value + 1) else None
  }

  /** The length of the leading run of characters of `cs`. */
  function RunLength(s: string, cs: set<char>): (n: nat)
    ensures n <= |s| && (forall k :: 0 <= k < n ==> s[k] in cs) && (n < |s| ==> s[n] !in cs)
  {
    if s == [] || s[0] !in cs then 0 else 1 + RunLength(s[1..], cs)
  }

  /** `re.split('[cs]+', s)`: the pieces between maximal runs of characters of
      `cs` (an empty piece before a leading run and after a trailing one). */
  function SplitRuns(s: string, cs: set<char>): (r: seq<string>)
    ensures |r| >= 1
    decreases |s|
  {
    match FirstIn(s, cs)
    case None => [s]
    case Some(i) =>
      var n := RunLength(s[i..], cs);
      [s[..i]] + SplitRuns(s[i + n..], cs)
  }

  /** `s` without the characters of `cs`. */
  function Without(s: string, cs: set<char>): string
  {
    if s == [] then "" else (if s[0] in cs then "" else [s[0]]) + Without(s[1..], cs)
  }

  lemma {:induction false} WithoutNone(s: string, cs: set<char>)
    requires forall k :: 0 <= k < |s| ==> s[k] !in cs
    ensures Without(s, cs) == s
  {
    if s != [] {
      WithoutNone(s[1..], cs);
    }
  }

  /** A stretch free of delimiters survives removal unchanged. */
  lemma {:induction false} WithoutCleanPrefix(s: string, cs: set<char>, i: nat)
    requires i <= |s| && forall k :: 0 <= k < i ==> s[k] !in cs
    ensures Without(s, cs) == s[..i] + Without(s[i..], cs)
  {
    if i > 0 {
      WithoutCleanPrefix(s[1..], cs, i - 1);
      assert s[1..][i - 1..] == s[i..];
      assert s[..i] == [s[0]] + s[1..][..i - 1];
    }
  }

  /** A run of delimiters disappears entirely. */
  lemma {:induction false} WithoutRun(s: string, cs: set<char>, n: nat)
    requires n <= |s| && forall k :: 0 <= k < n ==> s[k] in cs
    ensures Without(s, cs) == Without(s[n..], cs)
  {
    if n > 0 {
      WithoutRun(s[1..], cs, n - 1);
      assert s[1..][n - 1..] == s[n..];
    }
  }

  /** The pieces hold no delimiter. */
  lemma {:induction false} SplitRunsClean(s: string, cs: set<char>)
    ensures forall p :: p in SplitRuns(s, cs) ==> forall k :: 0 <= k < |p| ==> p[k] !in cs
    decreases |s|
  {
    match FirstIn(s, cs)
    case None =>
    case Some(i) =>
      var n := RunLength(s[i..], cs);
      SplitRunsClean(s[i + n..], cs);
  }

  /** Together the pieces hold every other character of `s`, in order. */
  lemma {:induction false} SplitRunsContent(s: string, cs: set<char>)
    ensures Concat(SplitRuns(s, cs)) == Without(s, cs)
    decreases |s|
  {
    match FirstIn(s, cs)
    case None =>
      WithoutNone(s, cs);
      assert Concat([s]) == s + Concat([]);
    case Some(i) =>
      var n := RunLength(s[i..], cs);
      SplitRunsContent(s[i + n..], cs);
      SplitRunsContentStep(s, cs, i, n, SplitRuns(s[i + n..], cs));
  }

  lemma SplitRunsContentStep(s: string, cs: set<char>, i: nat, n: nat, pieces: seq<string>)
    requires FirstIn(s, cs) == Some(i) && n == RunLength(s[i..], cs)
    requires pieces == SplitRuns(s[i + n..], cs) && Concat(pieces) == Without(s[i + n..], cs)
    ensures Concat(SplitRuns(s, cs)) == Without(s, cs)
  {
    var head := s[..i];
    assert SplitRuns(s, cs) == [head] + pieces;
    ConcatCons(head, pieces);
    WithoutFirstRun(s, cs, i, n);
  }

  /** Removing the delimiters from `s` keeps the stretch before its first
      delimiter run, drops the run and goes on with the rest. */
  lemma WithoutFirstRun(s: string, cs: set<char>, i: nat, n: nat)
    requires FirstIn(s, cs) == Some(i) && n == RunLength(s[i..], cs)
    ensures Without(s, cs) == s[..i] + Without(s[i + n..], cs)
  {
    WithoutCleanPrefix(s, cs, i);
    WithoutRun(s[i..], cs, n);
    assert s[i..][n..] == s[i + n..];
  }

  /** The stripped pieces longer than 20 characters, in order. */
  function LongStripped(pieces: seq<string>): (r: seq<string>)
    ensures forall x :: x in r ==> |x| > 20 && exists p :: p in pieces && x == Strip(p)
    ensures forall p :: p in pieces && |Strip(p)| > 20 ==> Strip(p) in r
  {
    if pieces == [] then []
    else
      var rest := LongStripped(pieces[1..]);
      assert forall p :: p in pieces[1..] ==> p in pieces;
      if |Strip(pieces[0])| > 20 then [Strip(pieces[0])] + rest else rest
  }

  /** The sentences `extract_key_points` considers: pieces between runs of
      '.', '!' and '?', stripped, longer than 20 characters. */
  function Sentences(text: string): seq<string>
  {
    LongStripped(SplitRuns(text, Terminators))
  }

  // ---------------------------------------------------------------------------
  // Scoring

  const Keywords: seq<string> := ["kombucha", "benefit", "health", "probiotic", "antioxidant",
                                  "research", "study", "scientific", "improve", "reduce",
                                  "digest", "immune", "gut", "bacteria"]

  /** How many of `keywords` occur in `lowered`. */
  function CountKeywords(lowered: string, keywords: seq<string>): (n: nat)
    ensures n <= |keywords|
  {
    if keywords == [] then 0
    else (if Contains(lowered, keywords[0]) then 1 else 0) + CountKeywords(lowered, keywords[1..])
  }

  /** A sentence's score: the number of keywords it contains, ignoring case. */
  function Score(sentence: string): (n: nat)
    ensures n <= 14
  {
    CountKeywords(Lower(sentence), Keywords)
  }

  /** A sentence scores when at least one keyword occurs in it. */
  lemma {:induction false} CountKeywordsPositive(lowered: string, keywords: seq<string>)
    ensures CountKeywords(lowered, keywords) > 0 <==> exists k :: k in keywords && Contains(lowered, k)
  {
    if keywords != [] {
      CountKeywordsPositive(lowered, keywords[1..]);
      assert forall k :: k in keywords ==> k == keywords[0] || k in keywords[1..];
    }
  }

  datatype Scored = Scored(score: nat, sentence: string)

  /** The scoring loop's result: the sentences with a positive score, in order. */
  function ScoreAll(sentences: seq<string>): (r: seq<Scored>)
    ensures forall x :: x in r ==> x.score > 0 && x.score == Score(x.sentence) && x.sentence in sentences
    ensures forall s :: s in sentences && Score(s) > 0 ==> Scored(Score(s), s) in r
  {
    if sentences == [] then []
    else
      var rest := ScoreAll(sentences[..|sentences| - 1]);
      assert forall s :: s in sentences[..|sentences| - 1] ==> s in sentences;
      assert forall s :: s in sentences ==> s in sentences[..|sentences| - 1] || s == sentences[|sentences| - 1];
      var last := sentences[|sentences| - 1];
      if Score(last) > 0 then rest + [Scored(Score(last), last)] else rest
  }

  // ---------------------------------------------------------------------------
  // Stable sort by descending score

  predicate Descending(s: seq<Scored>)
  {
    forall i, j :: 0 <= i < j < |s| ==> s[i].score >= s[j].score
  }

  /** Place `x` before the first entry that does not outscore it. */
  function InsertDesc(x: Scored, s: seq<Scored>): (r: seq<Scored>)
    ensures |r| == |s| + 1 && multiset(r) == multiset(s) + multiset{x}
  {
    if s == [] || x.score >= s[0].score then [x] + s
    else
      assert s == [s[0]] + s[1..];
      [s[0]] + InsertDesc(x, s[1..])
  }

  lemma {:induction false} InsertDescSorted(x: Scored, s: seq<Scored>)
    requires Descending(s)
    ensures Descending(InsertDesc(x, s))
  {
    if s != [] && x.score < s[0].score {
      InsertDescSorted(x, s[1..]);
      var t := InsertDesc(x, s[1..]);
      InsertDescBounded(x, s[1..], s[0].score);
      assert InsertDesc(x, s) == [s[0]] + t;
    }
  }

  /** Inserting keeps every score under a bound all entries respect. */
  lemma InsertDescBounded(x: Scored, s: seq<Scored>, bound: int)
    requires x.score <= bound && forall k :: 0 <= k < |s| ==> s[k].score <= bound
    ensures forall k :: 0 <= k < |s| + 1 ==> InsertDesc(x, s)[k].score <= bound
  {
    var t := InsertDesc(x, s);
    forall k | 0 <= k < |t| ensures t[k].score <= bound {
      assert t[k] in multiset(s) + multiset{x};
      if t[k] != x {
        assert t[k] in s;
      }
    }
  }

  /** `list.sort(reverse=True, key=score)`: highest score first, entries with
      equal scores in their original order. */
  function SortDesc(s: seq<Scored>): (r: seq<Scored>)
    ensures |r| == |s| && multiset(r) == multiset(s)
  {
    if s == [] then []
    else
      assert s == [s[0]] + s[1..];
      InsertDesc(s[0], SortDesc(s[1..]))
  }

  lemma {:induction false} SortDescSorted(s: seq<Scored>)
    ensures Descending(SortDesc(s))
  {
    if s != [] {
      SortDescSorted(s[1..]);
      InsertDescSorted(s[0], SortDesc(s[1..]));
    }
  }

  /** The entries with score `v`, in order. */
  function WithScore(s: seq<Scored>, v: nat): seq<Scored>
  {
    if s == [] then [] else (if s[0].score == v then [s[0]] else []) + WithScore(s[1..], v)
  }

  lemma {:induction false} InsertDescWithScore(x: Scored, s: seq<Scored>, v: nat)
    ensures WithScore(InsertDesc(x, s), v) == (if x.score == v then [x] else []) + WithScore(s, v)
  {
    if s != [] && x.score < s[0].score {
      InsertDescWithScore(x, s[1..], v);
      assert InsertDesc(x, s)[1..] == InsertDesc(x, s[1..]);
    }
  }

  /** The sort is stable: the entries of each score keep their order. */
  lemma {:induction false} SortDescStable(s: seq<Scored>, v: nat)
    ensures WithScore(SortDesc(s), v) == WithScore(s, v)
  {
    if s != [] {
      SortDescStable(s[1..], v);
      InsertDescWithScore(s[0], SortDesc(s[1..]), v);
    }
  }

  // ---------------------------------------------------------------------------
  // Key points

  function SentencesOf(s: seq<Scored>): (r: seq<string>)
    ensures |r| == |s| && forall k :: 0 <= k < |s| ==> r[k] == s[k].sentence
  {
    if s == [] then [] else [s[0].sentence] + SentencesOf(s[1..])
  }

  /** The sentences in ranked order. */
  function Ranked(text: string): seq<Scored>
  {
    SortDesc(ScoreAll(Sentences(text)))
  }

  /** The sentences not in `chosen`, in order. */
  function NotIn(sentences: seq<string>, chosen: seq<string>): (r: seq<string>)
    ensures forall s :: s in r <==> s in sentences && s !in chosen
  {
    if sentences == [] then []
    else (if sentences[0] in chosen then [] else [sentences[0]]) + NotIn(sentences[1..], chosen)
  }

  /** The cut and the top-up: the first `maxPoints` ranked sentences, then,
      while fewer than `maxPoints`, sentences not yet chosen, in order. */
  function Pick(ranked: seq<Scored>, sentences: seq<string>, maxPoints: int): seq<string>
  {
    var top := SentencesOf(Prefix(ranked, maxPoints));
    if |top| < maxPoints then top + Prefix(NotIn(sentences, top), maxPoints - |top|) else top
  }

  /** `extract_key_points(text, max_points)`. */
  function KeyPoints(text: string, maxPoints: int): seq<string>
  {
    Pick(Ranked(text), Sentences(text), maxPoints)
  }

  lemma PickBound(ranked: seq<Scored>, sentences: seq<string>, maxPoints: int)
    ensures maxPoints >= 0 ==> |Pick(ranked, sentences, maxPoints)| <= maxPoints
    ensures maxPoints < 0 ==> |Pick(ranked, sentences, maxPoints)| == Max(0, |ranked| + maxPoints)
  {
  }

  lemma PickFrom(ranked: seq<Scored>, sentences: seq<string>, maxPoints: int)
    requires forall x :: x in ranked ==> x.sentence in sentences
    ensures forall p :: p in Pick(ranked, sentences, maxPoints) ==> p in sentences
  {
    var top := SentencesOf(Prefix(ranked, maxPoints));
    forall p | p in top ensures p in sentences {
      var k :| 0 <= k < |top| && top[k] == p;
      assert Prefix(ranked, maxPoints)[k] == ranked[k];
    }
    if |top| < maxPoints {
      var rest := NotIn(sentences, top);
      assert forall p :: p in Prefix(rest, maxPoints - |top|) ==> p in rest;
    }
  }

  /** At most `max_points` points; a negative limit drops that many ranked
      sentences from the end, as a negative slice bound does. */
  lemma KeyPointsBound(text: string, maxPoints: int)
    ensures maxPoints >= 0 ==> |KeyPoints(text, maxPoints)| <= maxPoints
    ensures maxPoints < 0 ==> |KeyPoints(text, maxPoints)| == Max(0, |Ranked(text)| + maxPoints)
  {
    PickBound(Ranked(text), Sentences(text), maxPoints);
  }

  /** Every ranked entry is a scoring sentence of the text. */
  lemma RankedFromSentences(text: string)
    ensures forall x :: x in Ranked(text) ==> x.sentence in Sentences(text) && x.score > 0 && x.score == Score(x.sentence)
  {
    var scored := ScoreAll(Sentences(text));
    forall x | x in Ranked(text)
      ensures x.sentence in Sentences(text) && x.score > 0 && x.score == Score(x.sentence)
    {
      assert x in multiset(SortDesc(scored));
      assert x in multiset(scored);
    }
  }

  /** Every point is a stripped sentence longer than 20 characters. */
  lemma KeyPointsAreSentences(text: string, maxPoints: int)
    ensures forall p :: p in KeyPoints(text, maxPoints) ==> p in Sentences(text) && |p| > 20
  {
    RankedFromSentences(text);
    PickFrom(Ranked(text), Sentences(text), maxPoints);
  }

  /** The ranking orders the scoring sentences by non-increasing score and
      keeps sentences of equal score in text order. */
  lemma RankedOrder(text: string)
    ensures Descending(Ranked(text))
    ensures forall v :: WithScore(Ranked(text), v) == WithScore(ScoreAll(Sentences(text)), v)
  {
    SortDescSorted(ScoreAll(Sentences(text)));
    forall v ensures WithScore(Ranked(text), v) == WithScore(ScoreAll(Sentences(text)), v) {
      SortDescStable(ScoreAll(Sentences(text)), v);
    }
  }

  /** The points open with the best-ranked sentences, best first, each of
      them containing a keyword. */
  lemma KeyPointsRanked(text: string, maxPoints: int)
    ensures SentencesOf(Prefix(Ranked(text), maxPoints)) <= KeyPoints(text, maxPoints)
    ensures Descending(Prefix(Ranked(text), maxPoints))
    ensures forall x :: x in Prefix(Ranked(text), maxPoints) ==> x.score > 0 && x.score == Score(x.sentence)
  {
    var ranked := Ranked(text);
    PickOpensWithTop(ranked, Sentences(text), maxPoints);
    RankedOrder(text);
    RankedFromSentences(text);
    DescendingPrefix(ranked, maxPoints);
  }

  lemma DescendingPrefix(s: seq<Scored>, n: int)
    requires Descending(s)
    ensures Descending(Prefix(s, n)) && forall x :: x in Prefix(s, n) ==> x in s
  {
    var p := Prefix(s, n);
    assert forall i :: 0 <= i < |p| ==> p[i] == s[i];
  }

  lemma PickOpensWithTop(ranked: seq<Scored>, sentences: seq<string>, maxPoints: int)
    ensures SentencesOf(Prefix(ranked, maxPoints)) <= Pick(ranked, sentences, maxPoints)
  {
  }

  /** When the ranked sentences do not fill the quota, the rest are the
      sentences not yet chosen, in text order, up to the quota. */
  lemma KeyPointsFill(text: string, maxPoints: int)
    ensures var top := SentencesOf(Prefix(Ranked(text), maxPoints));
            |top| < maxPoints ==>
              KeyPoints(text, maxPoints)[|top|..] == Prefix(NotIn(Sentences(text), top), maxPoints - |top|)
  {
  }

  /** The scoring loop of `extract_key_points`: each sentence with the
      number of keywords it contains, keeping those that contain any. */
  method ScoreSentences(sentences: seq<string>) returns (scored: seq<Scored>)
    ensures scored == ScoreAll(sentences)
  {
    scored := [];
    var i := 0;
    while i < |sentences|
      invariant 0 <= i <= |sentences|
      invariant scored == ScoreAll(sentences[..i])
    {
      assert sentences[..i + 1][..i] == sentences[..i];
      var score := Score(sentences[i]);
      if score > 0 {
        scored := scored + [Scored(score, sentences[i])];
      }
      i := i + 1;
    }
    assert sentences[..i] == sentences;
  }

  /** `extract_key_points`: score, sort stably by descending score, cut, and
      top up with the unchosen sentences. */
  method ExtractKeyPoints(text: string, maxPoints: int) returns (points: seq<string>)
    ensures points == KeyPoints(text, maxPoints)
    ensures maxPoints >= 0 ==> |points| <= maxPoints
    ensures forall p :: p in points ==> p in Sentences(text) && |p| > 20
  {
    var sentences := Sentences(text);
    var scored := ScoreSentences(sentences);
    scored := SortDesc(scored);
    points := SentencesOf(Prefix(scored, maxPoints));
    if |points| < maxPoints {
      var remaining := NotIn(sentences, points);
      points := points + Prefix(remaining, maxPoints - |points|);
    }
    KeyPointsBound(text, maxPoints);
    KeyPointsAreSentences(text, maxPoints);
  }
}
