/** The layout arithmetic of `ImageProcessor`: where a fitted image is pasted
    on the feed canvas, how overlay text is wrapped, stacked and backed by a
    rectangle, and how a quote card centres its lines. Font metrics come from
    the drawing library, so the height and width of a rendered line are
    function parameters (`textbbox` bottom minus top, right minus left). */
module ImageProcessor {
  import opened Base
  import opened Text
  import opened Colors
  import opened Utils

  /** The processor's settings, read from the configuration. */
  datatype Settings = Settings(feedWidth: int, feedHeight: int, colors: map<string, string>, fonts: map<string, string>)

  /** `ImageProcessor.__init__`: feed size with its 1080 x 1080 default, brand
      colours and fonts. */
  function SettingsOf(config: Config): (s: Settings)
    ensures config.instagram.None? ==> s.feedWidth == 1080 && s.feedHeight == 1080
    ensures s.colors == GetBrandColors(config)
  {
    var size := FeedSize(config);
    Settings(size.0, size.1, GetBrandColors(config), GetBrandFonts(config))
  }

  /** `d.get(key, default)` on a string dictionary. */
  function Lookup(m: map<string, string>, key: string, default: string): string
  {
    if key in m then m[key] else default
  }

  type Rgb = (int, int, int)

  /** A brand colour as channels: `hex_to_rgb(colors.get(key, default))`. */
  function BrandRgb(s: Settings, key: string, default: string): Result<Rgb, string>
  {
    HexToRgb(Lookup(s.colors, key, default))
  }

  // ---------------------------------------------------------------------------
  // Pasting the fitted image

  /** `process_image`'s paste position for an image of `w` x `h` on the
      canvas. */
  function PasteOffset(canvasW: int, canvasH: int, w: int, h: int): (int, int)
  {
    (FloorDiv(canvasW - w, 2), FloorDiv(canvasH - h, 2))
  }

  /** An image no larger than the canvas lies inside it, with margins on
      opposite sides that differ by at most one pixel (the extra one on the
      right or bottom). */
  lemma PasteCentres(canvasW: int, canvasH: int, w: int, h: int)
    requires 0 <= w <= canvasW && 0 <= h <= canvasH
    ensures var (x, y) := PasteOffset(canvasW, canvasH, w, h);
            0 <= x && x + w <= canvasW && 0 <= (canvasW - x - w) - x <= 1 &&
            0 <= y && y + h <= canvasH && 0 <= (canvasH - y - h) - y <= 1
  {
  }

  // ---------------------------------------------------------------------------
  // Text overlay

  /** `max_width // (font_size // 2)`: the characters per wrapped line; a
      font size below 2 divides by zero. */
  function WrapWidth(maxWidth: int, fontSize: int): (r: Result<int, string>)
    ensures r.Err? <==> FloorDiv(fontSize, 2) == 0
    ensures r.Ok? && fontSize >= 2 && maxWidth >= 0 ==> r.value * (fontSize / 2) <= maxWidth
  {
    var half := FloorDiv(fontSize, 2);
    if half == 0 then Err("integer division or modulo by zero") else Ok(FloorDiv(maxWidth, half))
  }

  /** The lines of every paragraph wrapped in turn. */
  function WrapAll(paragraphs: seq<string>, width: int): (r: seq<string>)
    requires width > 0
    ensures forall l :: l in r ==> WrappedLine(l, width)
  {
    if paragraphs == [] then []
    else WrapAll(paragraphs[..|paragraphs| - 1], width) + Wrap(paragraphs[|paragraphs| - 1], width).value
  }

  /** The height of a stack of lines with `gap` pixels between neighbours. */
  function BlockHeight(heights: seq<int>, gap: int): int
  {
    Sum(heights) + (|heights| - 1) * gap
  }

  /** The top of the text block: `padding` for 'top', centred for 'center',
      `padding` above the bottom edge otherwise (not clamped). */
  function AnchorY(position: string, imageHeight: int, total: int, padding: int): (y: int)
    ensures position == "top" ==> y == padding
    ensures position == "center" ==> 0 <= (imageHeight - total) - 2 * y <= 1
    ensures position != "top" && position != "center" ==> y + total + padding == imageHeight
  {
    if position == "top" then padding
    else if position == "center" then FloorDiv(imageHeight - total, 2)
    else imageHeight - total - padding
  }

  /** The row of line `k` when each line is drawn `gap` pixels below the
      previous one. */
  function Row(yStart: int, heights: seq<int>, gap: int, k: nat): int
    requires k <= |heights|
  {
    yStart + Sum(heights[..k]) + k * gap
  }

  /** Each row is the previous row plus that line's height and the gap, and the
      last line ends exactly `BlockHeight` below the first row. */
  lemma RowsStack(yStart: int, heights: seq<int>, gap: int)
    ensures forall k :: 0 <= k < |heights| ==> Row(yStart, heights, gap, k + 1) == Row(yStart, heights, gap, k) + heights[k] + gap
    ensures |heights| > 0 ==> Row(yStart, heights, gap, |heights| - 1) + heights[|heights| - 1] == yStart + BlockHeight(heights, gap)
  {
    forall k | 0 <= k < |heights|
      ensures Row(yStart, heights, gap, k + 1) == Row(yStart, heights, gap, k) + heights[k] + gap
    {
      assert heights[..k + 1] == heights[..k] + [heights[k]];
      SumAppend(heights[..k], heights[k]);
    }
    if |heights| > 0 {
      var n := |heights|;
      assert heights[..n - 1] + [heights[n - 1]] == heights;
      SumAppend(heights[..n - 1], heights[n - 1]);
    }
  }

  datatype Rect = Rect(x1: int, y1: int, x2: int, y2: int)

  /** The semi-transparent rectangle behind the text: half the padding around
      the block, clamped to the image vertically but not horizontally. */
  function BackingRect(width: int, height: int, yStart: int, total: int, padding: int): (r: Rect)
    ensures r.x1 == FloorDiv(padding, 2) && r.x2 == width - FloorDiv(padding, 2)
    ensures 0 <= r.y1 && r.y2 <= height
    ensures r.y1 == 0 || r.y1 == yStart - FloorDiv(padding, 2)
    ensures r.y2 == height || r.y2 == yStart + total + FloorDiv(padding, 2)
    ensures 0 <= yStart - FloorDiv(padding, 2) ==> r.y1 == yStart - FloorDiv(padding, 2)
    ensures yStart + total + FloorDiv(padding, 2) <= height ==> r.y2 == yStart + total + FloorDiv(padding, 2)
  {
    var half := FloorDiv(padding, 2);
    Rect(half, Max(0, yStart - half), width - half, Min(height, yStart + total + half))
  }

  /** What `create_text_overlay` draws: the wrapped lines, their heights, the
      block height, its top, the backing rectangle, the row of each line (all
      lines start at x = padding) and the two colours. */
  datatype TextLayout = TextLayout(lines: seq<string>, heights: seq<int>, total: int, yStart: int,
                                   rect: Rect, x: int, rows: seq<int>, textColor: Rgb, backColor: Rgb)

  /** The wrapping loop: every '\n' paragraph wrapped at `width` in turn. */
  method WrapParagraphs(text: string, width: int) returns (lines: seq<string>)
    requires width > 0
    ensures lines == WrapAll(Split(text, "\n"), width)
    ensures forall l :: l in lines ==> 0 < |l| <= width
  {
    var paragraphs := Split(text, "\n");
    lines := [];
    var i := 0;
    while i < |paragraphs|
      invariant 0 <= i <= |paragraphs|
      invariant lines == WrapAll(paragraphs[..i], width)
    {
      assert paragraphs[..i + 1][..i] == paragraphs[..i];
      lines := lines + Wrap(paragraphs[i], width).value;
      i := i + 1;
    }
    assert paragraphs[..i] == paragraphs;
  }

  /** The measuring loop: one height per line. */
  method MeasureLines(lines: seq<string>, lineHeight: string -> int) returns (heights: seq<int>)
    ensures |heights| == |lines| && forall k :: 0 <= k < |lines| ==> heights[k] == lineHeight(lines[k])
  {
    heights := [];
    var i := 0;
    while i < |lines|
      invariant 0 <= i <= |lines| && |heights| == i
      invariant forall k :: 0 <= k < i ==> heights[k] == lineHeight(lines[k])
    {
      heights := heights + [lineHeight(lines[i])];
      i := i + 1;
    }
  }

  /** The drawing loop: `y_offset` starts at `yStart` and moves down by each
      line's height plus `gap`. */
  method StackRows(yStart: int, heights: seq<int>, gap: int) returns (rows: seq<int>)
    ensures |rows| == |heights| && forall k :: 0 <= k < |heights| ==> rows[k] == Row(yStart, heights, gap, k)
  {
    rows := [];
    var y := yStart;
    var i := 0;
    while i < |heights|
      invariant 0 <= i <= |heights| && |rows| == i
      invariant y == Row(yStart, heights, gap, i)
      invariant forall k :: 0 <= k < i ==> rows[k] == Row(yStart, heights, gap, k)
    {
      RowsStack(yStart, heights, gap);
      rows := rows + [y];
      y := y + heights[i] + gap;
      i := i + 1;
    }
  }

  /** `t` is what `create_text_overlay` draws for `text` wrapped at `w`
      characters on a `width` x `height` image: the per-paragraph wrap, one
      measured height per line, the block height with 10-pixel gaps, its
      anchored top, the clamped backing rectangle, the rows 10 pixels apart
      starting at x = padding. */
  predicate OverlayDrawn(t: TextLayout, width: int, height: int, text: string, position: string,
                         w: int, padding: int, lineHeight: string -> int)
  {
    w > 0 && t.lines == WrapAll(Split(text, "\n"), w) &&
    (forall l :: l in t.lines ==> 0 < |l| <= w) &&
    |t.heights| == |t.lines| && (forall k :: 0 <= k < |t.lines| ==> t.heights[k] == lineHeight(t.lines[k])) &&
    t.total == BlockHeight(t.heights, 10) && t.yStart == AnchorY(position, height, t.total, padding) &&
    t.rect == BackingRect(width, height, t.yStart, t.total, padding) &&
    t.x == padding && |t.rows| == |t.lines| &&
    (forall k :: 0 <= k < |t.rows| ==> t.rows[k] == Row(t.yStart, t.heights, 10, k))
  }

  /** The wrapping width `create_text_overlay` works with: `max_width`, or
      the image width less the padding on both sides when it is None. */
  function MaxWidth(maxWidth: Option<int>, width: int, padding: int): int
  {
    if maxWidth.Some? then maxWidth.value else width - 2 * padding
  }

  /** `create_text_overlay` on an image of `width` x `height`. */
  method CreateTextOverlay(s: Settings, width: int, height: int, text: string, position: string,
                           maxWidth: Option<int>, fontSize: int, padding: int, lineHeight: string -> int)
    returns (r: Result<TextLayout, string>)
    ensures var w := WrapWidth(MaxWidth(maxWidth, width, padding), fontSize);
            r.Ok? <==> w.Ok? && w.value > 0 && BrandRgb(s, "text", "#000000").Ok? && BrandRgb(s, "background", "#ffffff").Ok?
    ensures r.Ok? ==>
              OverlayDrawn(r.value, width, height, text, position, WrapWidth(MaxWidth(maxWidth, width, padding), fontSize).value,
                           padding, lineHeight)
    ensures r.Ok? ==> r.value.textColor == BrandRgb(s, "text", "#000000").value &&
                      r.value.backColor == BrandRgb(s, "background", "#ffffff").value
  {
    var w := WrapWidth(MaxWidth(maxWidth, width, padding), fontSize);
    if w.Err? {
      return Err(w.error);
    }
    if w.value <= 0 {
      return Err("invalid width (must be > 0)");
    }
    var lines := WrapParagraphs(text, w.value);
    var heights := MeasureLines(lines, lineHeight);
    var total := Sum(heights) + (|lines| - 1) * 10;
    var yStart := AnchorY(position, height, total, padding);
    var textColor := BrandRgb(s, "text", "#000000");
    var backColor := BrandRgb(s, "background", "#ffffff");
    if textColor.Err? {
      return Err(textColor.error);
    }
    if backColor.Err? {
      return Err(backColor.error);
    }
    var rect := BackingRect(width, height, yStart, total, padding);
    var rows := StackRows(yStart, heights, 10);
    var t := TextLayout(lines, heights, total, yStart, rect, padding, rows, textColor.value, backColor.value);
    // One part of the layout at a time keeps each step small.
    assert t.lines == WrapAll(Split(text, "\n"), w.value) && forall l :: l in t.lines ==> 0 < |l| <= w.value;
    assert |t.heights| == |t.lines| && forall k :: 0 <= k < |t.lines| ==> t.heights[k] == lineHeight(t.lines[k]);
    assert |t.rows| == |t.lines| && forall k :: 0 <= k < |t.rows| ==> t.rows[k] == Row(t.yStart, t.heights, 10, k);
    assert t.total == BlockHeight(t.heights, 10);
    assert t.yStart == AnchorY(position, height, t.total, padding);
    assert t.rect == BackingRect(width, height, t.yStart, t.total, padding);
    assert t.x == padding;
    assert OverlayDrawn(t, width, height, text, position, w.value, padding, lineHeight);
    r := Ok(t);
  }

  // ---------------------------------------------------------------------------
  // Feed post

  /** The feed post `process_image` saves: the canvas size and colour, where
      the fitted image goes and the overlay, if any. */
  datatype FeedPost = FeedPost(width: int, height: int, background: Rgb, offset: (int, int),
                               overlay: Option<TextLayout>)

  /** `process_image` for an image that `thumbnail` fitted to `w` x `h`; the
      overlay uses the default arguments of `create_text_overlay` (position
      from the caller, font size 48, padding 40, so the wrap width is
      `(W - 80) // 24`). */
  method ProcessImage(s: Settings, w: int, h: int, textOverlay: Option<string>, position: string,
                      lineHeight: string -> int)
    returns (r: Result<FeedPost, string>)
    ensures r.Ok? <==> BrandRgb(s, "background", "#ffffff").Ok? &&
                       (textOverlay.None? || textOverlay.value == "" ||
                        (FloorDiv(s.feedWidth - 80, 24) > 0 && BrandRgb(s, "text", "#000000").Ok?))
    ensures r.Ok? ==> r.value.width == s.feedWidth && r.value.height == s.feedHeight
    ensures r.Ok? ==> r.value.background == BrandRgb(s, "background", "#ffffff").value
    ensures r.Ok? ==> r.value.offset == PasteOffset(s.feedWidth, s.feedHeight, w, h)
    ensures r.Ok? ==> (r.value.overlay.Some? <==> textOverlay.Some? && textOverlay.value != "")
    ensures r.Ok? && r.value.overlay.Some? ==>
              OverlayDrawn(r.value.overlay.value, s.feedWidth, s.feedHeight, textOverlay.value, position,
                           FloorDiv(s.feedWidth - 80, 24), 40, lineHeight) &&
              r.value.overlay.value.textColor == BrandRgb(s, "text", "#000000").value &&
              r.value.overlay.value.backColor == r.value.background
  {
    var back := BrandRgb(s, "background", "#ffffff");
    if back.Err? {
      return Err(back.error);
    }
    var offset := PasteOffset(s.feedWidth, s.feedHeight, w, h);
    var overlay: Option<TextLayout> := None;
    if textOverlay.Some? && textOverlay.value != "" {
      var t := CreateTextOverlay(s, s.feedWidth, s.feedHeight, textOverlay.value, position, None, 48, 40, lineHeight);
      assert WrapWidth(MaxWidth(None, s.feedWidth, 40), 48) == Ok(FloorDiv(s.feedWidth - 80, 24));
      if t.Err? {
        return Err(t.error);
      }
      overlay := Some(t.value);
    }
    r := Ok(FeedPost(s.feedWidth, s.feedHeight, back.value, offset, overlay));
  }

  // ---------------------------------------------------------------------------
  // Quote card

  /** The literal `create_quote_card` prints before the author: an em dash
      stored as three mis-decoded characters, then a space. */
  const AuthorPrefix: string := "â€” "

  /** The geometry of a quote card: the quote's lines, their heights, the
      quote block height, the whole block height, its top, the position of
      each line and the author line with its position, if any. */
  datatype QuoteLayout = QuoteLayout(lines: seq<string>, heights: seq<int>, quoteHeight: int, total: int,
                                     startY: int, positions: seq<(int, int)>, author: Option<(string, int, int)>)

  /** What `create_quote_card` draws: its geometry and its three colours. */
  datatype QuoteCard = QuoteCard(layout: QuoteLayout, background: Rgb, primary: Rgb, textColor: Rgb)

  /** The drawing loop of the quote card: each line centred horizontally,
      rows 20 pixels apart. */
  method PlaceQuoteLines(feedWidth: int, startY: int, lines: seq<string>, heights: seq<int>, lineWidth: string -> int)
    returns (positions: seq<(int, int)>, yEnd: int)
    requires |heights| == |lines|
    ensures |positions| == |lines|
    ensures forall k :: 0 <= k < |lines| ==>
              positions[k] == (FloorDiv(feedWidth - lineWidth(lines[k]), 2), Row(startY, heights, 20, k))
    ensures yEnd == Row(startY, heights, 20, |lines|)
  {
    positions := [];
    yEnd := startY;
    var i := 0;
    while i < |lines|
      invariant 0 <= i <= |lines| && |positions| == i
      invariant yEnd == Row(startY, heights, 20, i)
      invariant forall k :: 0 <= k < i ==>
                  positions[k] == (FloorDiv(feedWidth - lineWidth(lines[k]), 2), Row(startY, heights, 20, k))
    {
      RowsStack(startY, heights, 20);
      positions := positions + [(FloorDiv(feedWidth - lineWidth(lines[i]), 2), yEnd)];
      yEnd := yEnd + heights[i] + 20;
      i := i + 1;
    }
  }

  /** The author line is drawn 40 pixels below the quote block, also when the
      quote wraps to no line at all. */
  lemma AuthorRow(startY: int, heights: seq<int>)
    ensures Row(startY, heights, 20, |heights|) + 20 == startY + BlockHeight(heights, 20) + 40
  {
    assert heights[..|heights|] == heights;
  }

  /** `q` is the card geometry for `lines` on a `feedWidth` x `feedHeight`
      canvas: one measured height per line, a quote block with 20-pixel gaps,
      the whole block (with the author line and its 40-pixel gap, if any)
      centred vertically, each line centred horizontally on rows 20 pixels
      apart, and the author line, prefixed, centred on the author's own width
      40 pixels below the quote block. */
  predicate QuoteLaidOut(q: QuoteLayout, feedWidth: int, feedHeight: int, lines: seq<string>, author: Option<string>,
                         quoteHeight: string -> int, quoteWidth: string -> int,
                         authorHeight: string -> int, authorWidth: string -> int)
  {
    q.lines == lines && |q.heights| == |lines| &&
    (forall k :: 0 <= k < |lines| ==> q.heights[k] == quoteHeight(lines[k])) &&
    q.quoteHeight == BlockHeight(q.heights, 20) &&
    q.total == q.quoteHeight + (if author.Some? && author.value != "" then authorHeight(author.value) + 40 else 0) &&
    0 <= (feedHeight - q.total) - 2 * q.startY <= 1 &&
    |q.positions| == |lines| &&
    (forall k :: 0 <= k < |lines| ==> q.positions[k].0 == FloorDiv(feedWidth - quoteWidth(lines[k]), 2)) &&
    (forall k :: 0 <= k < |lines| ==> q.positions[k].1 == Row(q.startY, q.heights, 20, k)) &&
    (q.author.Some? <==> author.Some? && author.value != "") &&
    (q.author.Some? ==> q.author.value == (AuthorPrefix + author.value,
                                          FloorDiv(feedWidth - authorWidth(author.value), 2),
                                          q.startY + q.quoteHeight + 40))
  }

  /** The measuring and drawing part of `create_quote_card` for already wrapped
      lines. */
  method LayoutQuote(feedWidth: int, feedHeight: int, lines: seq<string>, author: Option<string>,
                     quoteHeight: string -> int, quoteWidth: string -> int,
                     authorHeight: string -> int, authorWidth: string -> int)
    returns (q: QuoteLayout)
    ensures QuoteLaidOut(q, feedWidth, feedHeight, lines, author, quoteHeight, quoteWidth, authorHeight, authorWidth)
  {
    var heights := MeasureLines(lines, quoteHeight);
    var qh := Sum(heights) + (|lines| - 1) * 20;
    var hasAuthor := author.Some? && author.value != "";
    var total := if hasAuthor then qh + authorHeight(author.value) + 40 else qh;
    var startY := FloorDiv(feedHeight - total, 2);
    var positions, yEnd := PlaceQuoteLines(feedWidth, startY, lines, heights, quoteWidth);
    var authorLine: Option<(string, int, int)> := None;
    if hasAuthor {
      AuthorRow(startY, heights);
      authorLine := Some((AuthorPrefix + author.value, FloorDiv(feedWidth - authorWidth(author.value), 2), yEnd + 20));
    }
    q := QuoteLayout(lines, heights, qh, total, startY, positions, authorLine);
  }

  /** `create_quote_card`: the quote wrapped at `(feed_width - 160) // 30`
      characters, laid out with the metrics of the quote font and of the
      author font, in the brand's background, primary and text colours. */
  method CreateQuoteCard(s: Settings, quote: string, author: Option<string>,
                         quoteHeight: string -> int, quoteWidth: string -> int,
                         authorHeight: string -> int, authorWidth: string -> int)
    returns (r: Result<QuoteCard, string>)
    ensures r.Ok? <==> BrandRgb(s, "background", "#ffffff").Ok? && FloorDiv(s.feedWidth - 160, 30) > 0 &&
                       BrandRgb(s, "text", "#000000").Ok? && BrandRgb(s, "primary", "#1a5f3f").Ok?
    ensures r.Ok? ==> r.value.layout.lines == Wrap(quote, FloorDiv(s.feedWidth - 160, 30)).value
    ensures r.Ok? ==> forall l :: l in r.value.layout.lines ==> 0 < |l| <= FloorDiv(s.feedWidth - 160, 30)
    ensures r.Ok? ==> QuoteLaidOut(r.value.layout, s.feedWidth, s.feedHeight, Wrap(quote, FloorDiv(s.feedWidth - 160, 30)).value,
                                   author, quoteHeight, quoteWidth, authorHeight, authorWidth)
    ensures r.Ok? ==> r.value.background == BrandRgb(s, "background", "#ffffff").value &&
                      r.value.primary == BrandRgb(s, "primary", "#1a5f3f").value &&
                      r.value.textColor == BrandRgb(s, "text", "#000000").value
  {
    var back := BrandRgb(s, "background", "#ffffff");
    if back.Err? {
      return Err(back.error);
    }
    var width := FloorDiv(s.feedWidth - 160, 30);
    if width <= 0 {
      return Err("invalid width (must be > 0)");
    }
    var lines := Wrap(quote, width).value;
    var textColor := BrandRgb(s, "text", "#000000");
    var primary := BrandRgb(s, "primary", "#1a5f3f");
    if textColor.Err? {
      return Err(textColor.error);
    }
    if primary.Err? {
      return Err(primary.error);
    }
    var layout := LayoutQuote(s.feedWidth, s.feedHeight, lines, author, quoteHeight, quoteWidth, authorHeight, authorWidth);
    r := Ok(QuoteCard(layout, back.value, primary.value, textColor.value));
  }
}
