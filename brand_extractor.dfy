/** `BrandExtractor`: the colours and fonts read from the brand's web site.
    Fetching the page, parsing its HTML and running the regular expressions
    happen outside the model: what the patterns matched in each block of
    CSS is given as input, and the model covers what the extractor does
    with those matches. */
module BrandExtractor {
  import opened Base
  import opened Text
  import Colors

  // ---------------------------------------------------------------------------
  // Normalising one colour

  /** `(\d+),\s*` at the start of `s`: the number, and the text after the
      blanks. The runs of digits and blanks are taken whole, as the greedy
      pattern does. */
  function NumberComma(s: string): (r: Option<(nat, string)>)
    ensures r.Some? ==> |r.value.1| < |s|
  {
    var d := DigitRun(s);
    if d == 0 || d >= |s| || s[d] != ',' then None
    else Some((DecimalValue(s[..d]), TrimLeft(s[d + 1..], Whitespace)))
  }

  /** A match of `(\d+),\s*(\d+),\s*(\d+)` at the start of `s`, with its
      three numbers read as decimal integers. */
  function RgbAt(s: string): Option<(nat, nat, nat)>
  {
    match NumberComma(s)
    case None => None
    case Some((r, t1)) =>
      match NumberComma(t1)
      case None => None
      case Some((g, t2)) =>
        var d := DigitRun(t2);
        if d == 0 then None else Some((r, g, DecimalValue(t2[..d])))
  }

  /** `re.search(r'(\d+),\s*(\d+),\s*(\d+)', s)`: the leftmost match. */
  function RgbSearch(s: string): Option<(nat, nat, nat)>
  {
    if s == [] then None
    else if RgbAt(s).Some? then RgbAt(s)
    else RgbSearch(s[1..])
  }

  /** `_normalize_color`: a '#' colour of four characters has each digit
      doubled (keeping its case), any other '#' colour is lower-cased, an
      'rgb' colour with three numbers becomes `#rrggbb`, and anything else
      is returned as it is. */
  function NormalizeColor(color: string): (r: string)
    ensures !StartsWith(color, "#") && !StartsWith(color, "rgb") ==> r == color
    ensures StartsWith(color, "#") ==> StartsWith(r, "#")
  {
    if StartsWith(color, "#") then
      if |color| == 4 then ['#', color[1], color[1], color[2], color[2], color[3], color[3]]
      else Lower(color)
    else if StartsWith(color, "rgb") then
      match RgbSearch(color)
      case Some(t) => Colors.RgbHex(t.0, t.1, t.2)
      case None => color
    else color
  }

  /** A three-digit colour becomes the six-digit colour of the same shade:
      each channel is its digit repeated, so it reads back as 17 times the
      digit. */
  lemma NormalizeShortHex(a: char, b: char, c: char)
    requires IsHexDigit(a) && IsHexDigit(b) && IsHexDigit(c)
    ensures NormalizeColor(['#', a, b, c]) == ['#', a, a, b, b, c, c]
    ensures Colors.HexToRgb(NormalizeColor(['#', a, b, c])) ==
              Ok((17 * Colors.HexValue(a), 17 * Colors.HexValue(b), 17 * Colors.HexValue(c)))
  {
    var h := [a, a, b, b, c, c];
    assert ['#', a, a, b, b, c, c] == "#" + h;
    Colors.TrimHash(h);
    assert Colors.Slice(h, 0, 2) == [a, a];
    assert Colors.Slice(h, 2, 4) == [b, b];
    assert Colors.Slice(h, 4, 6) == [c, c];
    HexPair(a);
    HexPair(b);
    HexPair(c);
  }

  lemma HexPair(a: char)
    requires IsHexDigit(a)
    ensures Colors.ParseHexSlice([a, a]) == Ok(17 * Colors.HexValue(a))
  {
  }

  /** Any other '#' colour is lower-cased, and normalising it again changes
      nothing. */
  lemma NormalizeLongHex(color: string)
    requires StartsWith(color, "#") && |color| != 4
    ensures NormalizeColor(color) == Lower(color)
    ensures NormalizeColor(NormalizeColor(color)) == NormalizeColor(color)
  {
    var l := Lower(color);
    assert l[0] == '#';
    assert StartsWith(l, "#");
    assert Lower(l) == l;
  }

  /** A concatenation cut at the end of its first part. */
  lemma Halves(p: string, q: string)
    ensures (p + q)[..|p|] == p && (p + q)[|p|..] == q
  {
  }

  /** Digits, a comma and blanks are one number of the pattern; the rest of
      the match starts after the blanks. */
  lemma NumberCommaOf(d: string, sp: string, rest: string)
    requires AllDigits(d) && forall k :: 0 <= k < |sp| ==> sp[k] in Whitespace
    requires rest == [] || rest[0] !in Whitespace
    ensures NumberComma(d + ("," + (sp + rest))) == Some((DecimalValue(d), rest))
  {
    DigitRunOf(d, "," + (sp + rest));
    Halves(d, "," + (sp + rest));
    assert (d + ("," + (sp + rest)))[|d| + 1..] == sp + rest;
    TrimLeftRun(sp, rest);
  }

  /** Three runs of digits separated by a comma and blanks are a match;
      `t1` and `t2` are the text after the first and the second blanks. */
  lemma RgbAtOf(d1: string, s1: string, d2: string, s2: string, d3: string, rest: string, t1: string, t2: string)
    requires AllDigits(d1) && AllDigits(d2) && AllDigits(d3)
    requires forall k :: 0 <= k < |s1| ==> s1[k] in Whitespace
    requires forall k :: 0 <= k < |s2| ==> s2[k] in Whitespace
    requires rest == [] || !IsDigit(rest[0])
    requires t2 == d3 + rest && t1 == d2 + ("," + (s2 + t2))
    ensures RgbAt(d1 + ("," + (s1 + t1))) == Some((DecimalValue(d1), DecimalValue(d2), DecimalValue(d3)))
  {
    DigitNotBlank(t1[0]);
    NumberCommaOf(d1, s1, t1);
    DigitNotBlank(t2[0]);
    NumberCommaOf(d2, s2, t2);
    DigitRunOf(d3, rest);
    Halves(d3, rest);
  }

  lemma DigitNotBlank(c: char)
    requires IsDigit(c)
    ensures c !in Whitespace
  {
  }

  /** The search passes over a prefix without digits. */
  lemma {:induction false} NoMatchBefore(p: string, s: string)
    requires forall k :: 0 <= k < |p| ==> !IsDigit(p[k])
    ensures RgbSearch(p + s) == RgbSearch(s)
  {
    if p != [] {
      assert (p + s)[1..] == p[1..] + s;
      assert DigitRun(p + s) == 0;
      NoMatchBefore(p[1..], s);
    } else {
      assert p + s == s;
    }
  }

  /** `rgb(r, g, b)`, with any blanks after the commas, becomes `#rrggbb`,
      which reads back as the same three channels when each is below 256. */
  lemma NormalizeRgb(d1: string, s1: string, d2: string, s2: string, d3: string)
    requires AllDigits(d1) && AllDigits(d2) && AllDigits(d3)
    requires forall k :: 0 <= k < |s1| ==> s1[k] in Whitespace
    requires forall k :: 0 <= k < |s2| ==> s2[k] in Whitespace
    ensures var color := "rgb(" + d1 + "," + s1 + d2 + "," + s2 + d3 + ")";
            NormalizeColor(color) == Colors.RgbHex(DecimalValue(d1), DecimalValue(d2), DecimalValue(d3))
    ensures var color := "rgb(" + d1 + "," + s1 + d2 + "," + s2 + d3 + ")";
            DecimalValue(d1) < 256 && DecimalValue(d2) < 256 && DecimalValue(d3) < 256 ==>
              Colors.HexToRgb(NormalizeColor(color)) == Ok((DecimalValue(d1), DecimalValue(d2), DecimalValue(d3)))
  {
    var color := "rgb(" + d1 + "," + s1 + d2 + "," + s2 + d3 + ")";
    var body := d1 + ("," + (s1 + (d2 + ("," + (s2 + (d3 + ")"))))));
    assert color == "rgb(" + body;
    RgbSearchText(d1, s1, d2, s2, d3, body);
    NormalizeFound(color, body, (DecimalValue(d1), DecimalValue(d2), DecimalValue(d3)));
    if DecimalValue(d1) < 256 && DecimalValue(d2) < 256 && DecimalValue(d3) < 256 {
      Colors.HexRoundTrip(DecimalValue(d1), DecimalValue(d2), DecimalValue(d3));
    }
  }

  /** The search finds the three numbers of `rgb(r, g, b)`. */
  lemma RgbSearchText(d1: string, s1: string, d2: string, s2: string, d3: string, body: string)
    requires AllDigits(d1) && AllDigits(d2) && AllDigits(d3)
    requires forall k :: 0 <= k < |s1| ==> s1[k] in Whitespace
    requires forall k :: 0 <= k < |s2| ==> s2[k] in Whitespace
    requires body == d1 + ("," + (s1 + (d2 + ("," + (s2 + (d3 + ")"))))))
    ensures RgbSearch("rgb(" + body) == Some((DecimalValue(d1), DecimalValue(d2), DecimalValue(d3)))
  {
    RgbAtOf(d1, s1, d2, s2, d3, ")", d2 + ("," + (s2 + (d3 + ")"))), d3 + ")");
    SearchHere(body);
    NoMatchBefore("rgb(", body);
  }

  /** A match at the start of the text is the one the search finds. */
  lemma SearchHere(s: string)
    requires RgbAt(s).Some?
    ensures RgbSearch(s) == RgbAt(s)
  {
  }

  /** An 'rgb' colour in which the search finds three numbers. */
  lemma NormalizeFound(color: string, body: string, t: (nat, nat, nat))
    requires color == "rgb(" + body && RgbSearch("rgb(" + body) == Some(t)
    ensures NormalizeColor(color) == Colors.RgbHex(t.0, t.1, t.2)
  {
    assert color[..3] == "rgb" && color[0] == 'r';
  }

  // ---------------------------------------------------------------------------
  // Colours

  /** What the three colour patterns found in one block of CSS: the digits
      after '#', and the numbers of each `rgb(...)` and `rgba(...)`, already
      read by `int()`. */
  datatype CssMatches = CssMatches(hex: seq<string>, rgb: seq<(nat, nat, nat)>, rgba: seq<(nat, nat, nat)>)

  /** The colour a hex match stands for: three digits doubled, other
      matches kept. */
  function HexColor(m: string): (c: string)
    ensures |m| == 3 ==> |c| == 7
    ensures |m| != 3 ==> c == "#" + m
  {
    if |m| == 3 then ['#', m[0], m[0], m[1], m[1], m[2], m[2]] else "#" + m
  }

  function HexColors(ms: seq<string>): (r: set<string>)
    ensures forall m :: m in ms ==> Lower(HexColor(m)) in r
  {
    if ms == [] then {} else HexColors(ms[..|ms| - 1]) + {Lower(HexColor(ms[|ms| - 1]))}
  }

  /** The colour an `rgb(...)` or `rgba(...)` match stands for. */
  function RgbColor(t: (nat, nat, nat)): string
  {
    Lower(Colors.RgbHex(t.0, t.1, t.2))
  }

  function RgbColors(ts: seq<(nat, nat, nat)>): (r: set<string>)
    ensures forall t :: t in ts ==> RgbColor(t) in r
  {
    if ts == [] then {} else RgbColors(ts[..|ts| - 1]) + {RgbColor(ts[|ts| - 1])}
  }

  function BlockColors(b: CssMatches): set<string>
  {
    HexColors(b.hex) + RgbColors(b.rgb) + RgbColors(b.rgba)
  }

  /** The set `found_colors` after the given blocks. */
  function FoundColors(blocks: seq<CssMatches>): set<string>
  {
    if blocks == [] then {} else FoundColors(blocks[..|blocks| - 1]) + BlockColors(blocks[|blocks| - 1])
  }

  /** Every colour found is a lower-case '#' colour. */
  lemma {:induction false} FoundColorsShape(blocks: seq<CssMatches>)
    ensures forall c :: c in FoundColors(blocks) ==> StartsWith(c, "#") && Lower(c) == c
  {
    if blocks != [] {
      FoundColorsShape(blocks[..|blocks| - 1]);
      var b := blocks[|blocks| - 1];
      HexColorsShape(b.hex);
      RgbColorsShape(b.rgb);
      RgbColorsShape(b.rgba);
    }
  }

  lemma {:induction false} HexColorsShape(ms: seq<string>)
    ensures forall c :: c in HexColors(ms) ==> StartsWith(c, "#") && Lower(c) == c
  {
    if ms != [] {
      HexColorsShape(ms[..|ms| - 1]);
      LowerHash(HexColor(ms[|ms| - 1]));
    }
  }

  lemma {:induction false} RgbColorsShape(ts: seq<(nat, nat, nat)>)
    ensures forall c :: c in RgbColors(ts) ==> StartsWith(c, "#") && Lower(c) == c
  {
    if ts != [] {
      RgbColorsShape(ts[..|ts| - 1]);
      var t := ts[|ts| - 1];
      LowerHash(Colors.RgbHex(t.0, t.1, t.2));
      assert RgbColor(t) == Lower(Colors.RgbHex(t.0, t.1, t.2));
    }
  }

  lemma LowerHash(s: string)
    requires s != [] && s[0] == '#'
    ensures StartsWith(Lower(s), "#") && Lower(Lower(s)) == Lower(s)
  {
  }

  method AddHexColors(found0: set<string>, ms: seq<string>) returns (found: set<string>)
    ensures found == found0 + HexColors(ms)
  {
    found := found0;
    for j := 0 to |ms|
      invariant found == found0 + HexColors(ms[..j])
    {
      assert ms[..j + 1][..j] == ms[..j];
      var m := ms[j];
      var color := if |m| == 3 then ['#', m[0], m[0], m[1], m[1], m[2], m[2]] else "#" + m;
      found := found + {Lower(color)};
    }
    assert ms[..|ms|] == ms;
  }

  lemma RgbColorsSnoc(ts: seq<(nat, nat, nat)>, j: nat)
    requires j < |ts|
    ensures RgbColors(ts[..j + 1]) == RgbColors(ts[..j]) + {RgbColor(ts[j])}
  {
    assert ts[..j + 1][..j] == ts[..j];
  }

  method AddRgbColors(found0: set<string>, ts: seq<(nat, nat, nat)>) returns (found: set<string>)
    ensures found == found0 + RgbColors(ts)
  {
    found := found0;
    for j := 0 to |ts|
      invariant found == found0 + RgbColors(ts[..j])
    {
      RgbColorsSnoc(ts, j);
      var t := ts[j];
      var color := Colors.RgbHex(t.0, t.1, t.2);
      found := found + {Lower(color)};
    }
    assert ts[..|ts|] == ts;
  }

  /** The colour loop of `extract_css_colors`. */
  method CollectColors(blocks: seq<CssMatches>) returns (found: set<string>)
    ensures found == FoundColors(blocks)
  {
    found := {};
    for i := 0 to |blocks|
      invariant found == FoundColors(blocks[..i])
    {
      assert blocks[..i + 1][..i] == blocks[..i];
      found := AddHexColors(found, blocks[i].hex);
      found := AddRgbColors(found, blocks[i].rgb);
      found := AddRgbColors(found, blocks[i].rgba);
    }
    assert blocks[..|blocks|] == blocks;
  }

  /** White, black and the two light greys the filter names. */
  const Neutral: seq<string> := ["#ffffff", "#fff", "#000000", "#000", "#f5f5f5", "#fafafa"]

  predicate LowerHexDigits(s: string)
  {
    forall k :: 0 <= k < |s| ==> s[k] in "0123456789abcdef"
  }

  /** The filter: not a listed neutral, and not a '#f' colour made of
      lower-case hexadecimal digits (every very light colour). */
  predicate Kept(c: string)
  {
    c !in Neutral && !(StartsWith(c, "#f") && LowerHexDigits(c[1..]))
  }

  /** `filtered_colors`: the kept colours, in list order. */
  function Filtered(list: seq<string>): (r: seq<string>)
    ensures forall c :: c in r <==> c in list && Kept(c)
    ensures Distinct(list) ==> Distinct(r)
  {
    if list == [] then []
    else
      var rest := Filtered(list[..|list| - 1]);
      var c := list[|list| - 1];
      assert list == list[..|list| - 1] + [c];
      if Kept(c) then rest + [c] else rest
  }

  predicate Distinct(s: seq<string>)
  {
    forall i, j :: 0 <= i < j < |s| ==> s[i] != s[j]
  }

  /** A list of distinct items is as long as the set of its items. */
  lemma {:induction false} DistinctCard(s: seq<string>)
    requires Distinct(s)
    ensures |set x | x in s| == |s|
  {
    if s != [] {
      var init := s[..|s| - 1];
      DistinctCard(init);
      assert (set x | x in s) == (set x | x in init) + {s[|s| - 1]};
      assert s[|s| - 1] !in (set x | x in init);
    }
  }

  /** `list` holds each element of `s` once. */
  predicate Lists(list: seq<string>, s: set<string>)
  {
    Distinct(list) && (forall x :: x in list ==> x in s) && (forall x :: x in s ==> x in list)
  }

  /** A sequence that lists each element of the set once: how `list()`
      enumerates a set, in an order the model does not fix. */
  ghost function Listing(s: set<string>): (r: seq<string>)
    ensures Distinct(r) && forall x :: x in r <==> x in s
    decreases |s|
  {
    if s == {} then []
    else
      var x :| x in s;
      [x] + Listing(s - {x})
  }

  /** What the colour pattern and the background pattern found in the
      `style` of one `body` or `html` tag. */
  datatype BodyStyle = BodyStyle(color: Option<string>, background: Option<string>)

  /** The last match, normalised: later tags override earlier ones. */
  function LastColor(matches: seq<Option<string>>): Option<string>
  {
    if matches == [] then None
    else
      var m := matches[|matches| - 1];
      if m.Some? then Some(NormalizeColor(m.value)) else LastColor(matches[..|matches| - 1])
  }

  function TextMatches(bodies: seq<BodyStyle>): (r: seq<Option<string>>)
    ensures |r| == |bodies| && forall k :: 0 <= k < |bodies| ==> r[k] == bodies[k].color
  {
    seq(|bodies|, k requires 0 <= k < |bodies| => bodies[k].color)
  }

  function BackgroundMatches(bodies: seq<BodyStyle>): (r: seq<Option<string>>)
    ensures |r| == |bodies| && forall k :: 0 <= k < |bodies| ==> r[k] == bodies[k].background
  {
    seq(|bodies|, k requires 0 <= k < |bodies| => bodies[k].background)
  }

  /** A colour that is missing or empty takes the default. */
  function OrDefault(c: Option<string>, default: string): string
  {
    if c.None? || c.value == "" then default else c.value
  }

  datatype Palette = Palette(primary: Option<string>, secondary: Option<string>, accent: Option<string>,
                             text: string, background: string)

  /** The body-style loop of `extract_css_colors`. */
  method BodyColors(bodies: seq<BodyStyle>) returns (text: Option<string>, background: Option<string>)
    ensures text == LastColor(TextMatches(bodies)) && background == LastColor(BackgroundMatches(bodies))
  {
    text, background := None, None;
    for i := 0 to |bodies|
      invariant text == LastColor(TextMatches(bodies[..i]))
      invariant background == LastColor(BackgroundMatches(bodies[..i]))
    {
      assert TextMatches(bodies[..i + 1])[..i] == TextMatches(bodies[..i]);
      assert BackgroundMatches(bodies[..i + 1])[..i] == BackgroundMatches(bodies[..i]);
      if bodies[i].color.Some? {
        text := Some(NormalizeColor(bodies[i].color.value));
      }
      if bodies[i].background.Some? {
        background := Some(NormalizeColor(bodies[i].background.value));
      }
    }
    assert bodies[..|bodies|] == bodies;
  }

  /** The colours of `s` that the filter keeps. */
  function KeptColors(s: set<string>): set<string>
  {
    set c | c in s && Kept(c)
  }

  /** Filtering a listing of a set keeps each kept colour of the set once. */
  lemma FilteredListing(list: seq<string>, s: set<string>)
    requires Lists(list, s)
    ensures Distinct(Filtered(list)) && |Filtered(list)| == |KeptColors(s)|
    ensures forall c :: c in Filtered(list) <==> c in KeptColors(s)
  {
    var f := Filtered(list);
    assert (set x | x in f) == KeptColors(s);
    DistinctCard(f);
  }

  /** `extract_css_colors` after the page is parsed: primary, secondary and
      accent are distinct colours that were found and kept, one for each
      kept colour up to three, in an order the set iteration decides; text
      and background come from the last body style that has them, and
      default to black and white. */
  method ExtractCssColors(blocks: seq<CssMatches>, bodies: seq<BodyStyle>) returns (p: Palette)
    ensures var kept := KeptColors(FoundColors(blocks));
            (p.primary.Some? <==> |kept| >= 1) && (p.secondary.Some? <==> |kept| >= 2) &&
            (p.accent.Some? <==> |kept| >= 3)
    ensures forall c :: c in [p.primary, p.secondary, p.accent] && c.Some? ==> c.value in KeptColors(FoundColors(blocks))
    ensures p.primary.Some? && p.secondary.Some? ==> p.primary.value != p.secondary.value
    ensures p.primary.Some? && p.accent.Some? ==> p.primary.value != p.accent.value
    ensures p.secondary.Some? && p.accent.Some? ==> p.secondary.value != p.accent.value
    ensures p.text == OrDefault(LastColor(TextMatches(bodies)), "#000000")
    ensures p.background == OrDefault(LastColor(BackgroundMatches(bodies)), "#ffffff")
  {
    var found := CollectColors(blocks);
    ghost var listing := Listing(found);
    assert Lists(listing, found);
    var colorList :| Lists(colorList, found);
    var filtered := Filtered(colorList);
    FilteredListing(colorList, found);
    var primary, secondary, accent := None, None, None;
    if filtered != [] {
      primary := Some(filtered[0]);
      if |filtered| > 1 {
        secondary := Some(filtered[1]);
      }
      if |filtered| > 2 {
        accent := Some(filtered[2]);
      }
    }
    var text, background := BodyColors(bodies);
    p := Palette(primary, secondary, accent, OrDefault(text, "#000000"), OrDefault(background, "#ffffff"));
  }

  // ---------------------------------------------------------------------------
  // Fonts

  /** `re.sub(r'var\([^)]+\)', '', s)` */
  function RemoveVars(s: string): string
    decreases |s|
  {
    if s == [] then []
    else if StartsWith(s, "var(") && IndexOf(s[4..], ")").Some? && IndexOf(s[4..], ")").value >= 1 then
      RemoveVars(s[4 + IndexOf(s[4..], ")").value + 1..])
    else [s[0]] + RemoveVars(s[1..])
  }

  predicate TokenChar(c: char) { IsAlnum(c) || c == '-' }

  /** The length of the leading run of `[a-zA-Z0-9-]`. */
  function TokenRun(s: string): (n: nat)
    ensures n <= |s|
  {
    if s == [] || !TokenChar(s[0]) then 0 else 1 + TokenRun(s[1..])
  }

  /** `re.sub(r'--[a-zA-Z0-9-]+', '', s)` */
  function RemoveDashTokens(s: string): string
    decreases |s|
  {
    if s == [] then []
    else if StartsWith(s, "--") && |s| > 2 && TokenChar(s[2]) then RemoveDashTokens(s[2 + TokenRun(s[2..])..])
    else [s[0]] + RemoveDashTokens(s[1..])
  }

  predicate Punct(c: char) { c == '{' || c == '}' || c == ':' || c == ';' }

  predicate NoPunct(s: string)
  {
    forall k :: 0 <= k < |s| ==> !Punct(s[k])
  }

  /** `re.sub(r'[{}:;]', '', s)` */
  function DropPunct(s: string): (r: string)
    ensures forall k :: 0 <= k < |r| ==> !Punct(r[k])
  {
    if s == [] then []
    else if Punct(s[0]) then DropPunct(s[1..])
    else [s[0]] + DropPunct(s[1..])
  }

  /** The clean-up of one `font-family` match: stripped, quote marks
      removed, the first of a comma-separated list, then CSS variables,
      custom-property names and the characters `{}:;` removed. */
  function CleanFont(m: string): string
  {
    var f := Trim(Strip(m), {'"', '\''});
    var f2 := if Contains(f, ",") then Strip(Split(f, ",")[0]) else f;
    Strip(DropPunct(RemoveDashTokens(RemoveVars(f2))))
  }

  lemma StripKeepsChars(s: string)
    ensures forall c :: c in Strip(s) ==> c in s
  {
    var l := TrimLeft(s, Whitespace);
    TrimLeftSuffix(s, Whitespace);
    TrimRightPrefix(l, Whitespace);
    assert forall c :: c in l ==> c in s;
  }

  /** A cleaned name never holds `{`, `}`, `:` or `;`. */
  lemma CleanFontNoPunct(m: string)
    ensures NoPunct(CleanFont(m))
  {
    var f := Trim(Strip(m), {'"', '\''});
    var f2 := if Contains(f, ",") then Strip(Split(f, ",")[0]) else f;
    var d := DropPunct(RemoveDashTokens(RemoveVars(f2)));
    StripKeepsChars(d);
    forall k | 0 <= k < |CleanFont(m)| ensures !Punct(CleanFont(m)[k]) {
      assert CleanFont(m)[k] in Strip(d);
    }
  }

  /** The names the extractor treats as too generic. */
  predicate Generic(f: string)
  {
    Lower(f) in ["inherit", "initial", "unset"]
  }

  /** Whether a cleaned name joins `found_fonts`. */
  predicate Keep(f: string, found: seq<string>)
  {
    f != "" && |f| < 50 && f !in found && !StartsWith(f, "rgb") && !Generic(f)
  }

  /** What the patterns found in one `<style>` block: its text, the
      `font-family` values and the first `font-weight` value. */
  datatype FontBlock = FontBlock(css: string, families: seq<string>, weight: Option<string>)

  /** Every `font-family` value, block by block. */
  function Families(blocks: seq<FontBlock>): seq<string>
  {
    if blocks == [] then [] else Families(blocks[..|blocks| - 1]) + blocks[|blocks| - 1].families
  }

  lemma FamiliesSnoc(blocks: seq<FontBlock>, i: nat)
    requires i < |blocks|
    ensures Families(blocks[..i + 1]) == Families(blocks[..i]) + blocks[i].families
  {
    assert blocks[..i + 1][..i] == blocks[..i];
  }

  /** `found_fonts` after the given matches. */
  function Gather(ms: seq<string>): (r: seq<string>)
    ensures Distinct(r) && |r| <= |ms|
    ensures forall k :: 0 <= k < |r| ==> r[k] != "" && |r[k]| < 50 && !StartsWith(r[k], "rgb") && !Generic(r[k])
  {
    if ms == [] then []
    else
      var found := Gather(ms[..|ms| - 1]);
      var f := CleanFont(ms[|ms| - 1]);
      if Keep(f, found) then found + [f] else found
  }

  lemma SliceSnoc(xs: seq<string>, ys: seq<string>, j: nat)
    requires j < |ys|
    ensures xs + ys[..j + 1] == (xs + ys[..j]) + [ys[j]]
  {
    assert ys[..j + 1] == ys[..j] + [ys[j]];
  }

  /** One more match joins `found_fonts` when its cleaned form is kept. */
  lemma GatherStep(ms: seq<string>, m: string)
    ensures var found := Gather(ms);
            var f := CleanFont(m);
            Gather(ms + [m]) == if Keep(f, found) then found + [f] else found
  {
    assert (ms + [m])[..|ms|] == ms;
  }

  function FoundFonts(blocks: seq<FontBlock>): seq<string>
  {
    Gather(Families(blocks))
  }

  /** Every match, cleaned. */
  function CleanedAll(ms: seq<string>): (r: seq<string>)
    ensures |r| == |ms| && forall k :: 0 <= k < |ms| ==> r[k] == CleanFont(ms[k])
  {
    seq(|ms|, k requires 0 <= k < |ms| => CleanFont(ms[k]))
  }

  /** Every font found is the cleaned form of one of the matches, and none
      holds `{`, `}`, `:` or `;`. */
  lemma {:induction false} GatherFacts(ms: seq<string>)
    ensures forall f :: f in Gather(ms) ==> f in CleanedAll(ms)
    ensures forall f :: f in Gather(ms) ==> NoPunct(f)
  {
    if ms != [] {
      var init := ms[..|ms| - 1];
      GatherFacts(init);
      CleanFontNoPunct(ms[|ms| - 1]);
      CleanedAllSnoc(ms);
      forall f | f in Gather(ms)
        ensures f in CleanedAll(ms) && NoPunct(f)
      {
        if f !in Gather(init) {
          assert f == CleanFont(ms[|ms| - 1]);
        }
      }
    }
  }

  lemma CleanedAllSnoc(ms: seq<string>)
    requires ms != []
    ensures CleanedAll(ms) == CleanedAll(ms[..|ms| - 1]) + [CleanFont(ms[|ms| - 1])]
  {
  }

  /** `font.replace(' ', '').replace('-', '')` */
  function WithoutSpacesAndHyphens(s: string): (r: string)
    ensures |r| <= |s|
  {
    if s == [] then []
    else if s[0] == ' ' || s[0] == '-' then WithoutSpacesAndHyphens(s[1..])
    else [s[0]] + WithoutSpacesAndHyphens(s[1..])
  }

  /** `...isalnum()` on the name without spaces and hyphens. */
  predicate AlnumName(f: string)
  {
    AllAlnum(WithoutSpacesAndHyphens(f))
  }

  /** The validity check of `extract_fonts`. */
  predicate ValidFont(f: string)
  {
    f != "" && |f| < 50 && !StartsWith(f, "rgb") && !StartsWith(f, "var(") &&
    '{' !in f && '}' !in f && !Contains(f, "--") && AlnumName(f)
  }

  function ValidFonts(found: seq<string>): (r: seq<string>)
    ensures forall f :: f in r <==> f in found && ValidFont(f)
  {
    if found == [] then []
    else
      var rest := ValidFonts(found[..|found| - 1]);
      var f := found[|found| - 1];
      assert found == found[..|found| - 1] + [f];
      if ValidFont(f) then rest + [f] else rest
  }

  lemma ValidFontsSnoc(found: seq<string>, i: nat)
    requires i < |found|
    ensures ValidFonts(found[..i + 1]) ==
              if ValidFont(found[i]) then ValidFonts(found[..i]) + [found[i]] else ValidFonts(found[..i])
  {
    assert found[..i + 1][..i] == found[..i];
  }

  /** The heading-weight test: a block about headings whose weight mentions
      'bold' or is a number of at least 600. */
  predicate BoldHeading(b: FontBlock)
  {
    (Contains(b.css, "h1") || Contains(b.css, "h2") || Contains(Lower(b.css), "heading")) &&
    b.weight.Some? &&
    var w := Strip(b.weight.value);
    Contains(Lower(w), "bold") || (AllDigits(w) && DecimalValue(w) >= 600)
  }

  datatype Fonts = Fonts(heading: string, body: string, headingWeight: string, bodyWeight: string)

  /** A chosen font, or 'Arial' when none was chosen or it fails the
      alphanumeric check. */
  function FontOrArial(f: Option<string>): string
  {
    if f.None? || f.value == "" || !AlnumName(f.value) then "Arial" else f.value
  }

  /** The loop over one block's `font-family` matches. */
  method GatherFamilies(found0: seq<string>, before: seq<string>, ms: seq<string>) returns (found: seq<string>)
    requires found0 == Gather(before)
    ensures found == Gather(before + ms)
  {
    found := found0;
    assert before + ms[..0] == before;
    for j := 0 to |ms|
      invariant found == Gather(before + ms[..j])
    {
      SliceSnoc(before, ms, j);
      GatherStep(before + ms[..j], ms[j]);
      var font := CleanFont(ms[j]);
      if Keep(font, found) {
        found := found + [font];
      }
    }
    assert ms[..|ms|] == ms;
  }

  /** The loop over the style blocks in `extract_fonts`. */
  method GatherFonts(blocks: seq<FontBlock>) returns (found: seq<string>, headingWeight: string)
    ensures found == FoundFonts(blocks) && headingWeight == "bold"
  {
    found, headingWeight := [], "bold";
    for i := 0 to |blocks|
      invariant found == Gather(Families(blocks[..i])) && headingWeight == "bold"
    {
      FamiliesSnoc(blocks, i);
      found := GatherFamilies(found, Families(blocks[..i]), blocks[i].families);
      if BoldHeading(blocks[i]) {
        headingWeight := "bold";
      }
    }
    assert blocks[..|blocks|] == blocks;
  }

  /** The loop that keeps the valid fonts, in order. */
  method FilterValid(found: seq<string>) returns (valid: seq<string>)
    ensures valid == ValidFonts(found)
  {
    valid := [];
    for i := 0 to |found|
      invariant valid == ValidFonts(found[..i])
    {
      ValidFontsSnoc(found, i);
      if ValidFont(found[i]) {
        valid := valid + [found[i]];
      }
    }
    assert found[..|found|] == found;
  }

  /** `extract_fonts` after the page is parsed: the heading font is the
      first valid font found and the body font the last (the same one when
      there is only one), 'Arial' when there is none; the heading weight is
      'bold' and the body weight 'normal' whatever the CSS says. */
  method ExtractFonts(blocks: seq<FontBlock>) returns (fonts: Fonts)
    ensures var valid := ValidFonts(FoundFonts(blocks));
            fonts.heading == (if valid == [] then "Arial" else valid[0]) &&
            fonts.body == (if valid == [] then "Arial" else valid[|valid| - 1])
    ensures fonts.heading == "Arial" || (ValidFont(fonts.heading) && fonts.heading in FoundFonts(blocks))
    ensures fonts.body == "Arial" || (ValidFont(fonts.body) && fonts.body in FoundFonts(blocks))
    ensures fonts.headingWeight == "bold" && fonts.bodyWeight == "normal"
  {
    var found, headingWeight := GatherFonts(blocks);
    var valid := FilterValid(found);
    var heading, body: Option<string> := None, None;
    if valid != [] {
      heading := Some(valid[0]);
      body := if |valid| == 1 then Some(valid[0]) else Some(valid[|valid| - 1]);
      assert valid[0] in valid && valid[|valid| - 1] in valid;
    }
    fonts := Fonts(FontOrArial(heading), FontOrArial(body), headingWeight, "normal");
  }
}
