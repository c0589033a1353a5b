# Kombucha Instagram content pipeline — a Dafny model

The pipeline turns a theme folder (images, videos, PDFs) into Instagram feed
posts, reels and quote cards. It extracts key points from the theme's PDFs. It
asks an AI model for a caption, or falls back to a fixed one. It lays text over
an image, or cuts video clips into a reel with subtitles and music. A brand
extractor derives the palette and fonts from a website's CSS.

This project models the deterministic logic inside those steps, one Dafny
module per source file:

- `VideoProcessor`: the reel timeline. It covers how the duration budget is
  shared between clips, the loop or trim into the configured duration range,
  the subtitle clips, and fitting the music to the video.
- `ImageProcessor`: layout geometry. It covers paste offsets, the overlay wrap
  width, text-block height and anchor, the clamped backing rectangle, line
  rows, and quote-card centring.
- `ContentGenerator`: asset discovery by extension, and the error cases of
  feed-post and reel generation. It also covers cyclic or sampled video
  selection and the subtitle schedule.
- `PdfProcessor`: the page limit and page joins, the combined theme text, the
  summary, and key-point extraction. Extraction splits sentences, scores them
  by keyword, stable-sorts them by descending score, and fills up with
  unscored sentences.
- `PdfPreprocessor`: theme-name validation, per-PDF aggregation, and parsing of
  the language model's numbered list, with its fallbacks.
- `QuoteGenerator`: the quote-file parser as a line-by-line state machine, and
  the category, random-quote and keyword-search queries.
- `AiCaptionGenerator`: splitting the reply on `CAPTION:`/`HASHTAGS:`/`CTA:`,
  Instagram formatting, the fallback caption, and prompt truncation.
- `BrandExtractor`: colour normalisation, the colour filter and palette
  assignment, font-name cleanup and font assignment.
- `Utils`: theme lookup, brand sections, API-key injection, and the default
  configuration.
- Shared modules:
  - `Base`: Option/Result, min/max, floor division and sums.
  - `Text`: the Python string operations used, on ASCII text. This includes a
    model of `textwrap.wrap`.
  - `Colors`: `hex_to_rgb` and `%02x` formatting.

External inputs are modelled as follows:

- What the libraries measure is a parameter:
  - media durations are reals;
  - font metrics are functions from a line to its height or width;
  - the regular-expression and HTML match lists are sequences;
  - the language model's reply is a function from the prompt to an optional
    reply, where None stands for "no content or the call raised".
- Directories are given as optional lists of file names (None means the
  directory does not exist).
- Random choices are nondeterministic choices, stated by membership and
  sub-multiset postconditions.

Where the code loops, the model has a method with a loop. The method is proved
equal to a specification function, and the properties are proved about that
function.

## Model

| member | source | states |
|---|---|---|
| Base.SumAppend | src/image_processor.py:124 | extending a list of line heights by one line adds exactly that line's height to the sum |
| Text.Lower | src/quote_generator.py:107 | the lowercased string has the same length and lowercases each ASCII letter in place |
| Text.TrimLeft | src/image_processor.py:39 | `lstrip` removes exactly the maximal prefix of stripped characters: the result does not start with one, and everything removed is one |
| Text.TrimRight | src/pdf_preprocessor.py:240 | `rstrip` removes exactly the maximal suffix of stripped characters |
| Text.Prefix | src/pdf_preprocessor.py:188 | Python's `s[:n]` is a prefix of `s`; its length is `min(n, len)` for n ≥ 0 and `max(0, len + n)` for negative n |
| Text.IndexOfFirst | src/ai_caption_generator.py:156 | the position `split` cuts at is the first occurrence of the separator, and None means it occurs nowhere |
| Text.JoinSplit | src/ai_caption_generator.py:165 | joining the pieces of `split(sep)` with `sep` gives back the original string |
| Text.SplitPiecesAvoidSeparator | src/ai_caption_generator.py:165 | no piece of `split(sep)` contains the separator |
| Text.SplitJoinChar | src/pdf_preprocessor.py:238 | splitting on a one-character separator undoes joining parts that do not contain it |
| Text.Words | src/pdf_processor.py:167 | `split()` yields non-empty words without whitespace |
| Text.WordsKeepContent | src/pdf_processor.py:167 | the words of `split()` are exactly the string's non-whitespace characters, in order |
| Text.Wrap | src/image_processor.py:113-115 | `textwrap.wrap` raises iff width ≤ 0; otherwise every line is non-empty and at most `width` characters long (the model's lines also carry no leading or trailing space, which textwrap does not always ensure; see Left out) |
| Text.WrapKeepsContent | src/image_processor.py:113-115 | wrapping loses and reorders no non-whitespace character of the text |
| Text.SortStrings | src/content_generator.py:74 | `sorted` returns an ordered permutation of its input |
| Colors.Hex2 | src/brand_extractor.py:79 | `%02x` writes lowercase hex digits denoting the number, exactly two of them iff the value is below 256 |
| Colors.RgbHex | src/brand_extractor.py:79 | `#%02x%02x%02x` starts with '#' and has 7 characters when every channel is below 256 |
| Colors.HexToRgb | src/image_processor.py:37-40 | after stripping leading '#', six hex digits give three channels in 0..255; fewer than five characters raise |
| Colors.HexRoundTrip | src/video_processor.py:42-45 | `hex_to_rgb` inverts the `#%02x%02x%02x` formatting for channels in 0..255 |
| Utils.FirstNamed | src/utils.py:117-120 | the index of the first theme with the given name; None iff no theme has it |
| Utils.GetThemeConfig | src/utils.py:115-121 | returns a theme iff one carries the name, and then it is the first such theme in the list |
| Utils.GetBrandColors | src/utils.py:124-126 | the brand colours, or the empty map when the brand section or its colours are absent |
| Utils.GetBrandFonts | src/utils.py:129-131 | the brand fonts, or the empty map when the brand section or its fonts are absent |
| Utils.WithApiKey | src/utils.py:35-40 | the key is set to the environment value exactly when an ai section exists, its lowercased provider contains "openai" and the value is non-empty; otherwise the config is unchanged |
| Utils.FeedSize | src/image_processor.py:32-35 | without an instagram section the feed size defaults to 1080 × 1080 |
| Utils.ReelSize | src/video_processor.py:31-36 | without an instagram section the reel size defaults to 1080 × 1920 |
| Utils.ReelDuration | src/video_processor.py:37-40 | without an instagram section the reel duration range defaults to 15..90 s |
| Utils.DefaultConfigFacts | src/utils.py:45-107 | the default config has feed 1080 × 1080, reel 1080 × 1920 and 15..90 s; both default themes are found by name; an environment key is injected into it |
| VideoProcessor.SettingsOf | src/video_processor.py:18-40 | the processor reads the reel size and duration range, with their defaults |
| VideoProcessor.AllocateFrom | src/video_processor.py:159-175 | the allocation never places more clips than there are paths |
| VideoProcessor.AllocationBounds | src/video_processor.py:164-169 | clip k comes from path k and is allotted `0 < d ≤ 10`; it ends by `max_duration` and its length is `min(d, source length)` |
| VideoProcessor.AllocationAdvance | src/video_processor.py:172-175 | the first clip starts at the current time, and each next start is the previous start plus its allotment minus the transition |
| VideoProcessor.AllocationStops | src/video_processor.py:162-166 | when fewer clips than paths are placed, the remaining budget was ≤ 0 at the point allocation stopped |
| VideoProcessor.AllocationPlacesAll | src/video_processor.py:159-175 | with a positive budget and a non-negative transition every path gets a clip |
| VideoProcessor.AllocationEmpty | src/video_processor.py:162-166 | for a non-empty path list, no clip is placed iff `max_duration ≤ 0` |
| VideoProcessor.LoadClips | src/video_processor.py:159-175 | the allocation loop computes exactly the allocation function |
| VideoProcessor.TotalLengthNonNegative | src/video_processor.py:178-181 | the composed length of clips cut from non-negative sources is non-negative |
| VideoProcessor.Trunc | src/video_processor.py:187 | `int(x)` for x ≥ 0 is the floor of x |
| VideoProcessor.LoopCount | src/video_processor.py:187 | `int(target / length) + 1` copies reach strictly past the target, and one copy fewer does not |
| VideoProcessor.FitDuration | src/video_processor.py:184-193 | a zero-length video below a positive minimum is an error. A short video is looped past the minimum and cut to it; a long one is cut to the maximum; otherwise the length is kept. With min ≤ max the result lies in [min, max], and it never exceeds what the loops cover |
| VideoProcessor.YPosition | src/video_processor.py:108-113 | y is 100 for 'top', centred for 'center', and `reel_height - 300` otherwise |
| VideoProcessor.DisplayTextLines | src/video_processor.py:103-105 | the displayed text is the 30-column wrap joined by newlines, so every line has at most 30 characters and no non-space character is lost |
| VideoProcessor.CreateTextClip | src/video_processor.py:81-132 | the text clip takes the brand text colour, background stroke and heading font with their defaults. Its stroke is 2, its box is `reel_width - 100` wide, its position follows the rule above, and every line has at most 30 characters |
| VideoProcessor.LatestEnd | src/video_processor.py:207-208 | the final duration is the largest of the fitted duration and every text clip's end, and equals one of them |
| VideoProcessor.FitAudio | src/video_processor.py:211-227 | a zero-length track shorter than the video raises in the division and is dropped. Any other track is kept: looped `int(D/a)+1` times when shorter, so it covers the video, then cut to exactly the video's duration, with volume 0.3 |
| VideoProcessor.OverlayClipsAt | src/video_processor.py:196-208 | text clip k is built from overlay k with the defaults (position 'bottom', size 60, start 0, duration 3) |
| VideoProcessor.TextClips | src/video_processor.py:196-208 | the overlay loop yields one text clip per overlay, in order |
| VideoProcessor.CreateReel | src/video_processor.py:134-245 | it succeeds iff there are paths, the budget is positive and the composed length is not 0 while a positive minimum asks for looping. No paths, no placed clip and a zero-length loop are the three errors. On success the clips are the allocation, the composed length is their sum and is fitted into [min, max], the text clips follow the overlays, the duration covers them, and the music is fitted to that duration |
| ImageProcessor.SettingsOf | src/image_processor.py:17-35 | the processor reads the feed size with its 1080 × 1080 default, and the brand colours |
| ImageProcessor.PasteCentres | src/image_processor.py:194-196 | a fitted image lies inside the canvas, with left and right margins (and top and bottom margins) differing by at most one pixel |
| ImageProcessor.WrapWidth | src/image_processor.py:114 | the width `max_width // (font_size // 2)` is an error iff `font_size // 2` is 0, and that many half-size characters fit in `max_width` |
| ImageProcessor.WrapAll | src/image_processor.py:112-115 | every line of the per-paragraph wrap is a wrapped line of at most `width` characters |
| ImageProcessor.AnchorY | src/image_processor.py:126-132 | top starts at `padding`; center leaves equal space above and below to within a pixel; bottom ends the block `padding` above the bottom edge |
| ImageProcessor.RowsStack | src/image_processor.py:149-154 | each row is the previous row plus its line's height plus the gap, and the last line ends at start + block height |
| ImageProcessor.BackingRect | src/image_processor.py:141-147 | the rectangle spans `padding//2 .. width - padding//2`; vertically it lies within [0, height] and is the block widened by `padding//2` where that fits |
| ImageProcessor.WrapParagraphs | src/image_processor.py:112-115 | the wrap loop produces the per-paragraph wrap of the '\n'-separated text, every line 1..width characters |
| ImageProcessor.MeasureLines | src/image_processor.py:119-122 | one measured height per wrapped line, in order |
| ImageProcessor.StackRows | src/image_processor.py:149-154 | the drawing loop's y values are exactly the stacked rows |
| ImageProcessor.CreateTextOverlay | src/image_processor.py:78-158 | it fails iff the wrap width is not positive or a brand colour is malformed. Otherwise the lines are the per-paragraph wrap, the block height is the sum of heights plus 10 per gap, and the anchor follows the position. The rectangle is clamped, lines are left-aligned at `padding` on stacked rows, and the colours are the brand text and background |
| ImageProcessor.ProcessImage | src/image_processor.py:160-206 | it succeeds iff the background colour parses and, when there is overlay text, the wrap width `(W - 80)//24` is positive and the text colour parses. On success the canvas is feed-sized on the brand background, with the image pasted at the centring offset. An overlay is applied iff the overlay text is non-empty, and it is exactly what `create_text_overlay` draws at font size 48 and padding 40: the per-paragraph wrap, measured heights, anchored block, backing rectangle and rows |
| ImageProcessor.PlaceQuoteLines | src/image_processor.py:267-273 | each quote line is centred at `(W - line width)//2` on the stacked rows with gap 20 |
| ImageProcessor.AuthorRow | src/image_processor.py:273-280 | after the last quote line the author is drawn at the block start + quote height + 40 |
| ImageProcessor.LayoutQuote | src/image_processor.py:250-280 | quote height is the sum of line heights plus 20 per gap, and the author adds its height + 40. The block is vertically centred to within a pixel and lines are centred horizontally. The author (prefixed by the dash) appears iff given non-empty, at start + quote height + 40, centred by the width of the bare name |
| ImageProcessor.CreateQuoteCard | src/image_processor.py:208-286 | it succeeds iff the brand colours parse and the wrap width `(W - 160)//30` is positive. The lines are that wrap, each 1..width characters, on the brand background with the primary and text colours. The block is centred vertically, each line is centred horizontally on rows 20 pixels apart, and the author line sits 40 pixels below the quote block |
| ContentGenerator.Matching | src/content_generator.py:71-72 | a glob for one suffix keeps exactly the names ending with it |
| ContentGenerator.WithSuffix | src/content_generator.py:70-72 | the names kept are exactly those ending with one of the suffixes |
| ContentGenerator.GatherPermutes | src/content_generator.py:69-72 | when no suffix ends with another, the per-suffix globs list each matching name once, so the result is a permutation of the filtered names |
| ContentGenerator.ImageSuffixes | src/content_generator.py:60-61 | images are globbed for .jpg, .jpeg, .png and .webp in lower and upper case, and no two of those suffixes overlap |
| ContentGenerator.VideoSuffixes | src/content_generator.py:62-63 | videos are globbed for .mp4, .mov, .avi and .mkv in lower and upper case, and no two of those suffixes overlap |
| ContentGenerator.PdfSuffixes | src/content_generator.py:64-65 | pdfs are globbed for .pdf and .PDF |
| ContentGenerator.AssetsFacts | src/content_generator.py:56-74 | the assets are sorted; a missing directory or unknown type gives none; otherwise they are a permutation of the names with a listed suffix |
| ContentGenerator.GlobAll | src/content_generator.py:69-72 | the extension loop collects the per-suffix globs in order |
| ContentGenerator.FindAssets | src/content_generator.py:45-74 | the result is sorted and contains exactly the names of an existing directory that end with a listed extension in lower or upper case |
| ContentGenerator.GetThemeStats | src/content_generator.py:288-294 | each count is the number of assets of that type |
| ContentGenerator.CaptionSource | src/content_generator.py:112-113 | the caption is generated from the PDF text, or from the fixed sentence when that text is empty |
| ContentGenerator.FeedOverlay | src/content_generator.py:118-122 | a given overlay is kept; without PDF text none is invented. Otherwise the overlay is the first key point cut to 100 characters, a prefix of one of the text's sentences |
| ContentGenerator.GenerateFeedPost | src/content_generator.py:95-128 | the image selection and the text steps fail iff the theme has no images or the given image is not among them. The image is the given one or a theme image, and the caption source and overlay follow the rules above |
| ContentGenerator.RepeatAt | src/content_generator.py:198 | entry i of `videos * k` is `videos[i mod len]` |
| ContentGenerator.Cycle | src/content_generator.py:198 | with fewer videos than clips, the selection has exactly `num_clips` entries and entry i is `videos[i mod len]` |
| ContentGenerator.SelectVideos | src/content_generator.py:190-202 | no videos is an error; explicit paths are used unchanged; too few videos are cycled. Otherwise `num_clips` videos are sampled without replacement, and a negative count raises |
| ContentGenerator.SampleDistinct | src/content_generator.py:200 | a sample drawn from distinct files has distinct entries |
| ContentGenerator.ReelOverlays | src/content_generator.py:216-229 | with PDF text and zero clips the division raises. Without PDF text there are no overlays; otherwise overlay i is the scheduled subtitle of key point i |
| ContentGenerator.Schedule | src/content_generator.py:222-229 | the subtitle loop produces one overlay per key point, in order |
| ContentGenerator.SubtitleSchedule | src/content_generator.py:218-229 | there are at most `num_clips` subtitles. Each is cut to 80 characters at the bottom in size 50, ends before the next slot starts, and ends by 89 s |
| ContentGenerator.SubtitleFacts | src/content_generator.py:220-228 | subtitle i starts at `i * min(90/n, 10)`, lasts `min(slot - 1, 5)`, and ends inside its slot |
| ContentGenerator.GenerateReel | src/content_generator.py:189-235 | the video selection and subtitle steps succeed iff there are videos, PDF text does not meet zero clips, and a sample is not asked for a negative count. The selection is the explicit list, the cyclic repetition, or a sample of exactly `num_clips` drawn from the videos as a sub-multiset. Subtitles are present iff there are scheduled key points, and each is the scheduled subtitle |
| PdfProcessor.PagesToProcess | src/pdf_processor.py:59-61 | a falsy `max_pages` (None or 0) reads every page; otherwise `min(pages, max_pages)` are read |
| PdfProcessor.NonEmptyTexts | src/pdf_processor.py:63-67 | only non-empty page texts are kept |
| PdfProcessor.ExtractText | src/pdf_processor.py:44-73 | the page loop yields the non-empty texts of the pages read, joined by a blank line, or "" when reading raises |
| PdfProcessor.PdfTextHasPages | src/pdf_processor.py:57-73 | every non-empty page text within the limit appears in the extracted text when no page raises |
| PdfProcessor.FindPdfs | src/pdf_processor.py:27-42 | a missing directory has no PDFs; otherwise exactly the names ending in `.pdf` are listed |
| PdfProcessor.ThemeTexts | src/pdf_processor.py:125-134 | exactly the PDFs with non-empty text appear, each with its extracted text |
| PdfProcessor.ProcessThemePdfs | src/pdf_processor.py:114-134 | the loop keeps the PDFs whose text is non-empty, in order |
| PdfProcessor.JoinLength | src/pdf_processor.py:148 | a join is as long as its parts plus one separator per gap |
| PdfProcessor.CombinedLength | src/pdf_processor.py:136-148 | the combined text is empty iff no PDF has text; otherwise its length is the texts' lengths plus 7 per separator |
| PdfProcessor.GetSummary | src/pdf_processor.py:150-169 | the summary holds the combined text, at most 5 key points drawn from its sentences, its whitespace-split word count, and its length |
| PdfProcessor.SplitRunsClean | src/pdf_processor.py:87 | no piece of `re.split('[.!?]+')` contains a sentence terminator |
| PdfProcessor.SplitRunsContent | src/pdf_processor.py:87 | the pieces, concatenated, are the text without its terminators |
| PdfProcessor.LongStripped | src/pdf_processor.py:88 | exactly the pieces whose stripped form is longer than 20 characters are kept, stripped |
| PdfProcessor.CountKeywordsPositive | src/pdf_processor.py:99-100 | a sentence scores above 0 iff it contains some keyword |
| PdfProcessor.Score | src/pdf_processor.py:91-99 | a score counts the 14 keywords, so it is at most 14 |
| PdfProcessor.ScoreAll | src/pdf_processor.py:97-101 | exactly the sentences with a positive score are ranked, each with its own score |
| PdfProcessor.InsertDescSorted | src/pdf_processor.py:104 | inserting after every entry of at least equal score keeps the list in non-increasing score order |
| PdfProcessor.SortDesc | src/pdf_processor.py:104 | the sort is a permutation |
| PdfProcessor.SortDescSorted | src/pdf_processor.py:104 | the sort is in non-increasing score order |
| PdfProcessor.SortDescStable | src/pdf_processor.py:104 | the sort is stable: the entries of each score keep their original order |
| PdfProcessor.NotIn | src/pdf_processor.py:109 | the remaining sentences are exactly those not already chosen |
| PdfProcessor.KeyPointsBound | src/pdf_processor.py:105-111 | there are at most `max_points` key points (for negative `max_points`, Python's slice length) |
| PdfProcessor.KeyPointsAreSentences | src/pdf_processor.py:87-88 | every key point is a stripped sentence longer than 20 characters |
| PdfProcessor.RankedOrder | src/pdf_processor.py:97-105 | the ranked sentences are in non-increasing score order, with ties in text order |
| PdfProcessor.KeyPointsRanked | src/pdf_processor.py:104-105 | the key points open with the top `max_points` ranked sentences, in order |
| PdfProcessor.KeyPointsFill | src/pdf_processor.py:108-110 | when fewer ranked sentences are chosen than `max_points`, the rest are the unchosen sentences in text order, up to `max_points` |
| PdfProcessor.ScoreSentences | src/pdf_processor.py:97-101 | the scoring loop computes the ranked group |
| PdfProcessor.ExtractKeyPoints | src/pdf_processor.py:75-112 | the key points, at most `max_points`, each a sentence longer than 20 characters |
| PdfPreprocessor.ValidThemeNameShape | src/pdf_preprocessor.py:53-59 | a theme name is accepted iff it starts with 04_, 05_, 06_ or 07_ |
| PdfPreprocessor.StripNumberingSuffix | src/pdf_preprocessor.py:242 | removing `^\d+[.)]\s*` leaves a suffix of the line |
| PdfPreprocessor.StripBulletSuffix | src/pdf_preprocessor.py:244 | removing `^[-*]\s*` leaves a suffix of the line |
| PdfPreprocessor.CleanLineSuffix | src/pdf_preprocessor.py:240-244 | a cleaned line is a suffix of the stripped line |
| PdfPreprocessor.CleanLinePlain | src/pdf_preprocessor.py:240-244 | a stripped line that starts with neither a digit nor a bullet is kept as it is |
| PdfPreprocessor.NumberedLine | src/pdf_preprocessor.py:242 | `12) text` and `3. text` lose the number, the mark and the spaces, and nothing else |
| PdfPreprocessor.BulletLine | src/pdf_preprocessor.py:244 | `- text` and `* text` lose the bullet and the spaces, and nothing else |
| PdfPreprocessor.LongLinesAre | src/pdf_preprocessor.py:245-246 | exactly the cleaned lines longer than 10 characters are kept |
| PdfPreprocessor.TakeawaysAre | src/pdf_preprocessor.py:237-246 | every parsed takeaway is a cleaned reply line, and every cleaned line longer than 10 characters is a takeaway |
| PdfPreprocessor.ParseReply | src/pdf_preprocessor.py:237-246 | the parsing loop computes the takeaways of the reply's lines |
| PdfPreprocessor.Bulleted | src/pdf_preprocessor.py:191 | each raw point is prefixed with "- " |
| PdfPreprocessor.RawBlockFirst20 | src/pdf_preprocessor.py:191 | raw points beyond the first 20 do not change the prompt block |
| PdfPreprocessor.Refined | src/pdf_preprocessor.py:169-254 | with no client, or a failed call, the result is `raw[:max_points]`; for non-negative `max_points` it has at most that many points |
| PdfPreprocessor.RefinedSource | src/pdf_preprocessor.py:249-254 | when the reply parses to some takeaways, the result is a prefix of them, each longer than 10 characters. Otherwise it is a prefix of the raw points (Python's slice for a negative cap) |
| PdfPreprocessor.RefineKeyPoints | src/pdf_preprocessor.py:169-254 | the method computes the refinement above |
| PdfPreprocessor.EntryOf | src/pdf_preprocessor.py:87-115 | a PDF gets an entry iff its text is non-empty; the entry carries the file name and the page limit |
| PdfPreprocessor.EntriesCount | src/pdf_preprocessor.py:84-121 | there is one entry per PDF with text, and entry k's counts are the word and character counts of the k-th text |
| PdfPreprocessor.SummaryBound | src/pdf_preprocessor.py:128-139 | the summary has at most `max_key_points_per_pdf × number of PDF files` points, counting skipped files |
| PdfPreprocessor.ProcessPdfs | src/pdf_preprocessor.py:84-121 | the loop's entries and texts are those of the PDFs with text, and the totals are the sums of their counts |
| PdfPreprocessor.ProcessPdf | src/pdf_preprocessor.py:87-121 | one PDF's entry counts the words and characters of its text |
| PdfPreprocessor.PreprocessTheme | src/pdf_preprocessor.py:34-167 | an invalid theme name is an error. An existing content.json is returned unless forced, no PDFs gives an empty result, and otherwise the aggregate is computed |
| PdfPreprocessor.AllThemesValid | src/pdf_preprocessor.py:273-278 | the four listed themes pass the name check |
| PdfPreprocessor.PreprocessAllThemes | src/pdf_preprocessor.py:256-300 | each existing listed theme gets exactly its outcome, at most once and in the listed order; nothing else is reported |
| QuoteGenerator.Lookup | src/quote_generator.py:91 | a category is found iff it is named, and then its quotes are returned |
| QuoteGenerator.AddQuoteLookup | src/quote_generator.py:54 | adding a quote appends it to its category and changes no other category |
| QuoteGenerator.LoadValid | src/quote_generator.py:27-56 | the loaded categories have distinct names, and every stored quote is longer than 10 characters |
| QuoteGenerator.RunAppend | src/quote_generator.py:36-54 | the parser reads a file line by line: parsing `a + b` is parsing `b` from the state after `a` |
| QuoteGenerator.PreambleDropped | src/quote_generator.py:50 | lines before the first category header contribute nothing |
| QuoteGenerator.RunExtends | src/quote_generator.py:42-54 | parsing keeps every earlier category in its place with its quotes as a prefix: it only appends categories and quotes |
| QuoteGenerator.SkippedLinesKeepState | src/quote_generator.py:36-48 | a blank line, a '#' comment that is not a '##' header, and a '---' rule leave the parse state unchanged |
| QuoteGenerator.HeaderOpens | src/quote_generator.py:42-45 | a '##' header (not '###') makes its name current; a new name gets an empty list, and a reopened one keeps its quotes |
| QuoteGenerator.QuoteAppended | src/quote_generator.py:47-54 | under a category, a quote line with surrounding quotes stripped is appended to that category iff it is longer than 10 characters, and nothing else changes |
| QuoteGenerator.UnquoteGood | src/quote_generator.py:52-53 | a stored quote is longer than 10 characters |
| QuoteGenerator.LoadQuotes | src/quote_generator.py:27-56 | the file loop computes the parse; a missing file yields no categories |
| QuoteGenerator.QuotesByCategory | src/quote_generator.py:81-91 | an unknown category gives []; a known one gives its quotes |
| QuoteGenerator.QuotesByCategoryAt | src/quote_generator.py:91 | with distinct names, each category's lookup returns its own quotes |
| QuoteGenerator.AllCategories | src/quote_generator.py:93-95 | the category names in file order |
| QuoteGenerator.CategoriesLookup | src/quote_generator.py:81-95 | every listed category can be looked up, an unlisted one gives [], and no name is listed twice |
| QuoteGenerator.AllQuotes | src/quote_generator.py:72-74 | all quotes is exactly the quotes of every category |
| QuoteGenerator.RandomQuote | src/quote_generator.py:58-79 | the quote is drawn from the named category when it exists, else from all quotes. With no quotes it is the fixed default; a loaded quote is longer than 10 characters |
| QuoteGenerator.Matching | src/quote_generator.py:110-113 | exactly the quotes containing the keyword case-insensitively are kept |
| QuoteGenerator.MatchingAppend | src/quote_generator.py:110-113 | searching two lists in turn gives the matches of the first followed by those of the second |
| QuoteGenerator.SearchQuotes | src/quote_generator.py:97-115 | the nested loop returns exactly the case-insensitive matches, in category order then file order |
| AiCaptionGenerator.SplitSections | src/ai_caption_generator.py:156-174 | `split(m)[0]` is the text up to the first marker; there is a second piece iff the marker occurs, and it runs up to the next marker |
| AiCaptionGenerator.TagLines | src/ai_caption_generator.py:165 | the hashtag lines are stripped, non-empty reply lines |
| AiCaptionGenerator.ParseAiResponseSections | src/ai_caption_generator.py:147-178 | the caption is the stripped text after the first CAPTION: up to HASHTAGS:, or ''. The hashtags are base + custom[:5] + the first 10 non-empty stripped lines up to CTA:. The CTA is the stripped text after CTA: up to any later CTA:, or the default |
| AiCaptionGenerator.ParseAiResponseHashtags | src/ai_caption_generator.py:162-169 | the hashtags start with the base tags then custom[:5], add at most 10 non-empty tags, and so number at most base + 15 |
| AiCaptionGenerator.Layout | src/ai_caption_generator.py:201-218 | a non-empty caption opens the text on its own line; an empty caption data gives the empty text |
| AiCaptionGenerator.LayoutJoin | src/ai_caption_generator.py:201-218 | the formatted text is the '\n'-join of caption, blank, CTA, blank, and the space-joined hashtags, each part only when non-empty |
| AiCaptionGenerator.FormatForInstagram | src/ai_caption_generator.py:191-218 | the line-building code produces that layout |
| AiCaptionGenerator.FallbackCaptionShape | src/ai_caption_generator.py:180-189 | the caption is the first '.'-segment cut to 200 characters (or the default opening for empty content), then the fixed suffix. The four fixed hashtags and the default CTA follow |
| AiCaptionGenerator.AudienceText | src/ai_caption_generator.py:116 | no audiences gives "general audience"; one audience is used as it is |
| AiCaptionGenerator.Preview | src/ai_caption_generator.py:119 | the preview is the first `min(2000, len)` characters of the content |
| AiCaptionGenerator.PromptCarriesPreview | src/ai_caption_generator.py:119-127 | the prompt contains the content preview |
| AiCaptionGenerator.PromptIgnoresTail | src/ai_caption_generator.py:119-127 | content beyond the first 2000 characters does not change the prompt |
| AiCaptionGenerator.NewGenerator | src/ai_caption_generator.py:16-39 | there is a client iff the provider (default openai) is openai and a configured or environment key is non-empty; the model defaults to gpt-4 and the language to pt when the section or the entry is missing |
| AiCaptionGenerator.CaptionRequest | src/ai_caption_generator.py:63-78 | the request carries the content's first 2000 characters and the theme's base hashtags |
| AiCaptionGenerator.CaptionRequestPrompt | src/ai_caption_generator.py:63-78 | the request's prompt is `_build_prompt` of the content, the theme, the given or theme audiences and the theme's hashtags, and it contains the content preview |
| AiCaptionGenerator.RequestCarriesPreview | src/ai_caption_generator.py:104-142 | any request's prompt contains the preview it carries |
| AiCaptionGenerator.GenerateCaption | src/ai_caption_generator.py:41-102 | without a client the fallback caption is used. With one, the request carries the content's first 2000 characters; a failed call gives the fallback; a reply gives the caption after the first CAPTION: up to HASHTAGS: (or '' without it), hashtags opening with the theme's base tags and at most 15 more, and the CTA after CTA: (or the default), all read from the stripped reply |
| AiCaptionGenerator.CaptionFromReply | src/ai_caption_generator.py:97-102 | a failed call gives the fallback caption; a reply is parsed as `ParsedFrom` says: the caption after the first CAPTION: up to HASHTAGS:, hashtags opening with the base tags and at most base + 15 of them, and the CTA after CTA: or the default |
| BrandExtractor.NormalizeColor | src/brand_extractor.py:131-143 | strings that start with neither '#' nor 'rgb' are unchanged, and a '#' colour stays a '#' colour |
| BrandExtractor.NormalizeShortHex | src/brand_extractor.py:134-135 | '#abc' becomes '#aabbcc' with case kept, and denotes the channels 17·a, 17·b, 17·c |
| BrandExtractor.NormalizeLongHex | src/brand_extractor.py:133-136 | any other '#' string is lowercased, and normalising it again changes nothing |
| BrandExtractor.NormalizeRgb | src/brand_extractor.py:137-142 | `rgb(r, g, b)` becomes `#%02x%02x%02x` of its numbers, which `hex_to_rgb` reads back when they are below 256 |
| BrandExtractor.HexColor | src/brand_extractor.py:69-73 | a 3-digit match becomes 7 characters with each digit doubled; any other match is prefixed with '#' |
| BrandExtractor.HexColors | src/brand_extractor.py:68-74 | every hex match is added lowercased |
| BrandExtractor.RgbColors | src/brand_extractor.py:77-90 | every rgb() or rgba() triple is added as `#%02x%02x%02x` |
| BrandExtractor.FoundColorsShape | src/brand_extractor.py:66-90 | every found colour starts with '#' and is lowercase |
| BrandExtractor.CollectColors | src/brand_extractor.py:66-90 | the loops over style blocks collect exactly the found colours |
| BrandExtractor.Filtered | src/brand_extractor.py:96-100 | exactly the colours that are not listed white, black or grey and not '#f' followed by lowercase hex digits are kept, and distinctness is preserved |
| BrandExtractor.FilteredListing | src/brand_extractor.py:93-100 | filtering any listing of the found set gives distinct colours, exactly the kept ones |
| BrandExtractor.BodyColors | src/brand_extractor.py:111-121 | the text and background colours come from the last body or html style that matches |
| BrandExtractor.ExtractCssColors | src/brand_extractor.py:36-129 | primary, secondary and accent are set iff there are at least 1, 2 or 3 kept colours; they are distinct kept colours. Text and background default to '#000000' and '#ffffff' |
| BrandExtractor.DropPunct | src/brand_extractor.py:179 | no '{', '}', ':' or ';' remains |
| BrandExtractor.CleanFontNoPunct | src/brand_extractor.py:173-180 | a cleaned font name contains no '{', '}', ':' or ';' |
| BrandExtractor.Gather | src/brand_extractor.py:171-185 | the kept names are distinct, non-empty, under 50 characters, not 'rgb…' and not inherit/initial/unset |
| BrandExtractor.GatherFacts | src/brand_extractor.py:171-185 | every kept name is the cleanup of some match |
| BrandExtractor.GatherFamilies | src/brand_extractor.py:171-185 | the loop over one block's matches extends the kept names as the specification does |
| BrandExtractor.GatherFonts | src/brand_extractor.py:166-193 | the style-block loop yields the kept names; the heading weight stays 'bold' |
| BrandExtractor.ValidFonts | src/brand_extractor.py:196-208 | exactly the kept names that are alphanumeric after removing spaces and hyphens are valid |
| BrandExtractor.FilterValid | src/brand_extractor.py:196-208 | the validity loop computes the valid fonts |
| BrandExtractor.ExtractFonts | src/brand_extractor.py:145-221 | heading is the first valid font and body the last (the same one when only one), each defaulting to 'Arial'; weights are bold and normal |

## Left out

- Reading and writing files is not modelled: YAML config files, JSON results, caption and metadata files, images, videos and PDFs. Directory creation (`ensure_output_dirs`), timestamps and generated file names are out too. Directory listings and file contents are inputs.
- The media work is not modelled: moviepy decoding, subclipping, resizing, cropping, compositing and encoding, and PIL drawing, alpha compositing and JPEG saving. The model keeps only the numbers these calls receive, and media lengths and font metrics are parameters. `prepare_clip` therefore enters only as the clip length `min(allotted, source length)`.
- `load_font` is not modelled: it probes the filesystem for font files.
- `fetch_website`, `extract_brand_info`, `_default_brand_info` and `save_to_config` are not modelled. They are HTTP, BeautifulSoup and YAML plumbing; the model starts from the match lists they would feed into colour and font extraction.
- `add_subtitles` and `list_themes` are not modelled. The first only wraps `create_reel`; the second only lists directories.
- The command-line scripts are not modelled.
- The OpenAI client is not modelled. A call is a function from the request (the fields `_build_prompt` lays out; its text is `RequestText`) to an optional reply, where None stands for a raised call. The generator keeps the configured model name, but the call does not depend on it, and the temperature and system message sent with the call are not modelled.
- Random choices are not modelled as distributions. `random.choice` and `random.sample` are nondeterministic choices, and only membership, length and sub-multiset are stated; uniformity is not.
- Durations are exact reals, not floating point, so rounding is not modelled. `int(x)` for non-negative x is the floor.
- Text is ASCII. `lower`, `upper`, `isspace`, `isdigit`, `isalnum` and the regular expressions' `\d` and `\s` act on ASCII only. Unicode case folding and Unicode digits are not modelled.
- Text.Whitespace: the whitespace set is space, tab, newline, carriage return, vertical tab and form feed, which is the set `textwrap` uses. Python's `str.isspace`, `split()` and `strip()` also treat the separators `\x1c`–`\x1f` as whitespace; the model does not.
- `int()` on a regex digit match is the decimal value of the digits. Signs and surrounding whitespace never reach it.
- Regular-expression searches over CSS and HTML are not modelled: `findall` over style tags and the body/html style search are input sequences of matches. `_normalize_color`'s own `\d+,\s*\d+,\s*\d+` search is modelled.
- Python dicts are modelled as sequences in insertion order, or as maps where order does not matter. Glob matching is case-sensitive, as on Linux.
- In `preprocess_theme`, the list `all_key_points` is built but never used. It is not modelled.
- Text.Wrap: models `textwrap.wrap` as a greedy word wrap over whitespace-separated words, and differs from it in four ways. (1) textwrap keeps a paragraph's leading whitespace on the first line, so `wrap("  hello", 10)` is `["  hello"]`, while the model gives `["hello"]`. (2) textwrap first fills the current line with the head of a word longer than the width, so `wrap("ab xxxxxxxxxxxxxxx", 10)` is `["ab xxxxxxx", "xxxxxxxx"]`, while the model starts a fresh line and cuts width-sized pieces: `["ab", "xxxxxxxxxx", "xxxxx"]`. (3) Hyphen-aware breaking is not modelled. (4) Runs of inner whitespace are not kept. The contract states only that every line is 1..width characters, and that the non-whitespace content is kept in order.
- BrandExtractor.ExtractCssColors: Python iterates `set(found_colors)` in hash order, so which kept colours become primary, secondary and accent is not determined. The contract states only that they are distinct kept colours and how many are set.
- BrandExtractor.GatherFonts: the heading weight is only ever assigned 'bold', which is also its initial value. The model keeps it constant, and the weight test is a predicate with no effect on the result.
- ContentGenerator.GenerateFeedPost: stops at the plan handed to `process_image`. Its success condition covers only the image selection, so `process_image`'s own errors are not part of it: a malformed background colour, or an overlay with a non-positive wrap width or a malformed text colour. `ImageProcessor.ProcessImage` states those. Caption generation, file names and the caption and metadata files are not modelled.
- ContentGenerator.GenerateReel: stops at the plan handed to `create_reel`. Its success condition covers only the selection and subtitle steps, so `create_reel`'s own errors are not part of it: an empty selection such as `video_paths=[]`, a non-positive budget, or a zero-length loop. `VideoProcessor.CreateReel` states those. Caption generation, file names and the caption and metadata files are not modelled.
- ContentGenerator.SelectVideos: `random.sample` is stated as a sub-multiset of the theme's videos with exactly `num_clips` entries, not as a uniform draw.
- QuoteGenerator.RandomQuote: `random.choice` is stated as membership in the pool, not as a uniform draw.
- VideoProcessor.CreateReel: the composed length of `concatenate_videoclips` is taken to be the sum of the clip lengths, and the transition overlap does not shorten it. The final duration is the latest end among the video and the text clips, as in a moviepy composite.
- Utils.DefaultConfigFacts: the default config's nested font `weights` entry is not carried, because fonts are modelled as a map of strings.
