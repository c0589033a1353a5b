/** `AICaptionGenerator`: the caption, hashtags and call to action for a post,
    from the language model's reply or from a fixed fallback, and their
    layout as Instagram text. The generator's settings never change after
    construction, so they are a value; the model call is a function
    parameter standing for the reply to the prompt (None when the call
    raises or the client is missing). */
module AiCaptionGenerator {
  import opened Base
  import opened Text
  import Utils

  /** The dictionary with `caption`, `hashtags` and `cta`. */
  datatype Caption = Caption(caption: string, hashtags: seq<string>, cta: string)

  const DefaultCta := "Experimente nosso kombucha hoje! \U{1F375}"

  const DefaultOpening := "Descubra os benef\U{ED}cios do kombucha!"

  const FallbackSuffix := " Descubra mais sobre kombucha em Madeira!"

  const FallbackHashtags := ["#kombucha", "#madeira", "#healthy", "#realhealthkombucha"]

  // ---------------------------------------------------------------------------
  // Sections of a reply

  /** The text before the first occurrence of `m`, or all of `s`. */
  function UpTo(s: string, m: string): (r: string)
    ensures r <= s
    ensures IndexOf(s, m).None? ==> r == s
  {
    match IndexOf(s, m)
    case None => s
    case Some(i) => s[..i]
  }

  /** The text after the first occurrence of `m`. */
  function After(s: string, m: string): (r: string)
    requires Contains(s, m)
    ensures |r| + |m| <= |s| && r == s[|s| - |r|..]
  {
    s[IndexOf(s, m).value + |m|..]
  }

  /** `s.split(m)[0]` is the text before the first `m`; when `m` occurs,
      `s.split(m)[1]` is the text after it up to the next `m`. */
  lemma SplitSections(s: string, m: string)
    requires |m| > 0
    ensures Split(s, m)[0] == UpTo(s, m)
    ensures |Split(s, m)| > 1 <==> Contains(s, m)
    ensures Contains(s, m) ==> Split(s, m)[1] == UpTo(After(s, m), m)
  {
    if Contains(s, m) {
      var rest := After(s, m);
      assert Split(rest, m)[0] == UpTo(rest, m);
    }
  }

  /** The hashtag lines of a reply: each line stripped, empty ones dropped. */
  function TagLines(lines: seq<string>): (r: seq<string>)
    ensures |r| <= |lines|
    ensures forall k :: 0 <= k < |r| ==> r[k] != "" && r[k] in StrippedLines(lines)
  {
    if lines == [] then []
    else
      var rest := TagLines(lines[..|lines| - 1]);
      var t := Strip(lines[|lines| - 1]);
      assert StrippedLines(lines) == StrippedLines(lines[..|lines| - 1]) + [t];
      if t != "" then rest + [t] else rest
  }

  function StrippedLines(lines: seq<string>): (r: seq<string>)
    ensures |r| == |lines| && forall k :: 0 <= k < |lines| ==> r[k] == Strip(lines[k])
  {
    seq(|lines|, k requires 0 <= k < |lines| => Strip(lines[k]))
  }

  /** `_parse_ai_response`. */
  function ParseAiResponse(response: string, base: seq<string>, custom: seq<string>): (r: Caption)
  {
    var captionParts := Split(response, "CAPTION:");
    var caption := if |captionParts| > 1 then Strip(Split(captionParts[1], "HASHTAGS:")[0]) else "";
    var tagParts := Split(response, "HASHTAGS:");
    var hashtags :=
      if |tagParts| > 1 then
        var part := Strip(Split(tagParts[1], "CTA:")[0]);
        base + Prefix(custom, 5) + Prefix(TagLines(Split(part, "\n")), 10)
      else base + Prefix(custom, 5);
    var ctaParts := Split(response, "CTA:");
    var cta := if |ctaParts| > 1 then Strip(ctaParts[1]) else DefaultCta;
    Caption(caption, hashtags, cta)
  }

  /** The caption is the stripped text after the first 'CAPTION:' up to
      'HASHTAGS:' (or the next 'CAPTION:'), and '' without the marker; the
      hashtags are the base ones, at most five custom ones and at most ten
      from the reply; the CTA is the stripped text after the first 'CTA:'
      up to the next one, or the default. */
  lemma ParseAiResponseSections(response: string, base: seq<string>, custom: seq<string>)
    ensures var r := ParseAiResponse(response, base, custom);
            (!Contains(response, "CAPTION:") ==> r.caption == "") &&
            (Contains(response, "CAPTION:") ==>
               r.caption == Strip(UpTo(UpTo(After(response, "CAPTION:"), "CAPTION:"), "HASHTAGS:"))) &&
            (!Contains(response, "HASHTAGS:") ==> r.hashtags == base + Prefix(custom, 5)) &&
            (Contains(response, "HASHTAGS:") ==>
               var part := Strip(UpTo(UpTo(After(response, "HASHTAGS:"), "HASHTAGS:"), "CTA:"));
               r.hashtags == base + Prefix(custom, 5) + Prefix(TagLines(Split(part, "\n")), 10)) &&
            (!Contains(response, "CTA:") ==> r.cta == DefaultCta) &&
            (Contains(response, "CTA:") ==> r.cta == Strip(UpTo(After(response, "CTA:"), "CTA:")))
  {
    SplitSections(response, "CAPTION:");
    SplitSections(response, "HASHTAGS:");
    SplitSections(response, "CTA:");
    var captionParts := Split(response, "CAPTION:");
    if |captionParts| > 1 {
      SplitSections(captionParts[1], "HASHTAGS:");
    }
    var tagParts := Split(response, "HASHTAGS:");
    if |tagParts| > 1 {
      SplitSections(tagParts[1], "CTA:");
    }
  }

  /** The base hashtags always come first, in order, followed by at most
      fifteen more, none of the reply's empty. */
  lemma ParseAiResponseHashtags(response: string, base: seq<string>, custom: seq<string>)
    ensures var r := ParseAiResponse(response, base, custom);
            base <= r.hashtags && |r.hashtags| <= |base| + 15 &&
            r.hashtags[|base|..|base| + Min(5, |custom|)] == Prefix(custom, 5) &&
            forall k :: |base| + Min(5, |custom|) <= k < |r.hashtags| ==> r.hashtags[k] != ""
  {
    var r := ParseAiResponse(response, base, custom);
    var tagParts := Split(response, "HASHTAGS:");
    if |tagParts| > 1 {
      var part := Strip(Split(tagParts[1], "CTA:")[0]);
      var tags := Prefix(TagLines(Split(part, "\n")), 10);
      assert r.hashtags == base + Prefix(custom, 5) + tags;
      forall k | |base| + Min(5, |custom|) <= k < |r.hashtags| ensures r.hashtags[k] != "" {
        assert r.hashtags[k] == tags[k - |base| - Min(5, |custom|)];
      }
    }
  }

  // ---------------------------------------------------------------------------
  // Layout

  /** A block of the caption: the text and an empty line, or nothing. */
  function Block(s: string): string
  {
    if s == "" then "" else s + "\n\n"
  }

  /** The layout of a formatted caption: caption, empty line, CTA, empty
      line, hashtags on one line separated by spaces; a part that is empty
      is left out with its empty line, and no newline ends the text. */
  function Layout(c: Caption): (r: string)
    ensures c.caption != "" ==> StartsWith(r, c.caption + "\n")
    ensures c.caption == "" && c.cta == "" && c.hashtags == [] ==> r == ""
  {
    var head := Block(c.caption) + Block(c.cta);
    if c.hashtags != [] then head + Join(c.hashtags, " ")
    else if head == "" then "" else head[..|head| - 1]
  }

  /** `format_caption_for_instagram`, appending line by line. */
  method FormatForInstagram(c: Caption) returns (text: string)
    ensures text == Layout(c)
  {
    var lines: seq<string> := [];
    if c.caption != "" {
      lines := lines + [c.caption, ""];
    }
    if c.cta != "" {
      lines := lines + [c.cta, ""];
    }
    if c.hashtags != [] {
      lines := lines + [Join(c.hashtags, " ")];
    }
    assert lines == BlockLines(c.caption) + BlockLines(c.cta) +
                    (if c.hashtags != [] then [Join(c.hashtags, " ")] else []);
    text := Join(lines, "\n");
    LayoutJoin(c);
  }

  /** The lines a non-empty part adds: the text and an empty line. */
  function BlockLines(s: string): seq<string>
  {
    if s != "" then [s, ""] else []
  }

  lemma LayoutJoin(c: Caption)
    ensures Join(BlockLines(c.caption) + BlockLines(c.cta) +
                 (if c.hashtags != [] then [Join(c.hashtags, " ")] else []), "\n") == Layout(c)
  {
    var caps, ctas := BlockLines(c.caption), BlockLines(c.cta);
    if c.hashtags != [] {
      var h := Join(c.hashtags, " ");
      assert caps + ctas + [h] == caps + (ctas + [h]);
      BlockBefore(c.cta, [h]);
      BlockBefore(c.caption, ctas + [h]);
    } else {
      assert caps + ctas + [] == caps + ctas;
      BlocksOnly(c.caption, c.cta);
    }
  }

  /** A part's lines in front of more lines add its block to the joined text. */
  lemma BlockBefore(s: string, rest: seq<string>)
    requires rest != []
    ensures Join(BlockLines(s) + rest, "\n") == Block(s) + Join(rest, "\n")
  {
    if s != "" {
      JoinPair(s, rest);
    } else {
      assert BlockLines(s) + rest == rest;
    }
  }

  /** Two parts' lines alone join to their blocks without the final newline. */
  lemma BlocksOnly(a: string, b: string)
    ensures var head := Block(a) + Block(b);
            Join(BlockLines(a) + BlockLines(b), "\n") == if head == "" then "" else head[..|head| - 1]
  {
    var head := Block(a) + Block(b);
    if b != "" {
      JoinPair(b, []);
      assert Join(BlockLines(b), "\n") == b + "\n";
      if a != "" {
        JoinPair(a, BlockLines(b));
        assert head[..|head| - 1] == a + "\n\n" + b + "\n";
      } else {
        assert BlockLines(a) + BlockLines(b) == BlockLines(b);
        assert head[..|head| - 1] == b + "\n";
      }
    } else if a != "" {
      assert BlockLines(a) + BlockLines(b) == [a, ""] + [];
      JoinPair(a, []);
      assert head[..|head| - 1] == a + "\n";
    } else {
      assert BlockLines(a) + BlockLines(b) == [];
    }
  }

  /** Joining a text and an empty line in front of more lines. */
  lemma JoinPair(s: string, rest: seq<string>)
    requires s != ""
    ensures Join([s, ""] + rest, "\n") ==
              if rest == [] then s + "\n" else s + "\n\n" + Join(rest, "\n")
  {
    assert ([s, ""] + rest)[1..] == [""] + rest;
    if rest != [] {
      assert ([""] + rest)[1..] == rest;
    }
  }

  // ---------------------------------------------------------------------------
  // Fallback and prompt

  /** `_fallback_caption`. */
  function FallbackCaption(content: string): Caption
  {
    var first := if content != "" then Prefix(Split(content, ".")[0], 200) else DefaultOpening;
    Caption(first + FallbackSuffix, FallbackHashtags, DefaultCta)
  }

  /** The fallback caption opens with the content up to its first '.', at
      most 200 characters of it, and always ends with the fixed sentence. */
  lemma FallbackCaptionShape(content: string)
    ensures var c := FallbackCaption(content);
            var first := c.caption[..|c.caption| - |FallbackSuffix|];
            EndsWith(c.caption, FallbackSuffix) &&
            (content == "" ==> first == DefaultOpening) &&
            (content != "" ==> first <= content && |first| <= 200 && first == Prefix(UpTo(content, "."), 200) &&
                               forall k :: 0 <= k < |first| ==> first[k] != '.') &&
            c.hashtags == FallbackHashtags && c.cta == DefaultCta
  {
    var c := FallbackCaption(content);
    assert c.caption[|c.caption| - |FallbackSuffix|..] == FallbackSuffix;
    if content != "" {
      SplitSections(content, ".");
      var head := UpTo(content, ".");
      var first := c.caption[..|c.caption| - |FallbackSuffix|];
      assert first == Prefix(head, 200);
      IndexOfFirst(content, ".");
      forall k | 0 <= k < |first| ensures first[k] != '.' {
        assert first[k] == content[k];
        assert !("." <= content[k..]);
        assert content[k..][..1] == [content[k]];
      }
    }
  }

  /** `"Portuguese" if self.language == 'pt' else "English"` */
  function LanguageName(language: string): string
  {
    if language == "pt" then "Portuguese" else "English"
  }

  /** The audiences joined with " and ", or "general audience" for none. */
  function AudienceText(audiences: seq<string>): (r: string)
    ensures audiences == [] ==> r == "general audience"
    ensures |audiences| == 1 ==> r == audiences[0]
  {
    if audiences != [] then Join(audiences, " and ") else "general audience"
  }

  /** The content the prompt carries: its first 2000 characters. */
  function Preview(content: string): (r: string)
    ensures r <= content && |r| == Min(2000, |content|)
  {
    if |content| > 2000 then content[..2000] else content
  }

  /** `_build_prompt`. */
  function BuildPrompt(content: string, theme: string, contentType: string, audiences: seq<string>,
                       base: seq<string>, custom: seq<string>, language: string): string
  {
    PromptAround(Preview(content), theme, contentType, audiences, base, custom, language)
  }

  /** The prompt text around the content it carries. */
  function PromptAround(preview: string, theme: string, contentType: string, audiences: seq<string>,
                        base: seq<string>, custom: seq<string>, language: string): string
  {
    var lang := LanguageName(language);
    var audience := AudienceText(audiences);
    PromptOpening(theme, contentType, audience, lang) + preview + PromptRest(audience, base, custom, lang)
  }

  function PromptOpening(theme: string, contentType: string, audience: string, lang: string): string
  {
    "Create an engaging Instagram " + (if contentType == "reel" then "Reel" else "Feed post") +
    " caption in " + lang + " for a Kombucha business in Madeira.\n\nTheme: " + theme +
    "\nTarget Audience: " + audience + "\n\nContent Context:\n"
  }

  function PromptRest(audience: string, base: seq<string>, custom: seq<string>, lang: string): string
  {
    "\n\nRequirements:\n" +
    "1. Write a captivating caption (2-4 sentences) that highlights key benefits or research findings\n" +
    "2. Make it engaging and suitable for " + audience + "\n" +
    "3. Include relevant hashtags (mix of base and custom hashtags)\n" +
    "4. Add a call-to-action appropriate for the audience\n\n" +
    "Base hashtags to consider: " + Join(base, ", ") + "\n" +
    "Custom hashtags to consider: " + Join(custom, ", ") + "\n\n" +
    "Format your response as:\n" +
    "CAPTION: [your caption text here]\n" +
    "HASHTAGS: [list of hashtags, one per line]\n" +
    "CTA: [call to action text]\n\n" +
    "Write in " + lang + " language."
  }

  /** The prompt carries the text it is built around. */
  lemma PromptCarriesPreviewAround(preview: string, theme: string, contentType: string, audiences: seq<string>,
                                   base: seq<string>, custom: seq<string>, language: string)
    ensures Contains(PromptAround(preview, theme, contentType, audiences, base, custom, language), preview)
  {
    var lang := LanguageName(language);
    var audience := AudienceText(audiences);
    ContainsMiddle(PromptOpening(theme, contentType, audience, lang), preview,
                   PromptRest(audience, base, custom, lang));
  }

  /** The prompt carries the first 2000 characters of the content. */
  lemma PromptCarriesPreview(content: string, theme: string, contentType: string, audiences: seq<string>,
                             base: seq<string>, custom: seq<string>, language: string)
    ensures Contains(BuildPrompt(content, theme, contentType, audiences, base, custom, language), Preview(content))
  {
    PromptCarriesPreviewAround(Preview(content), theme, contentType, audiences, base, custom, language);
  }

  /** Nothing after the first 2000 characters of the content reaches the model. */
  lemma PromptIgnoresTail(content: string, extra: string, theme: string, contentType: string, audiences: seq<string>,
                          base: seq<string>, custom: seq<string>, language: string)
    requires |content| >= 2000
    ensures BuildPrompt(content + extra, theme, contentType, audiences, base, custom, language) ==
            BuildPrompt(content, theme, contentType, audiences, base, custom, language)
  {
    PreviewIgnoresTail(content, extra);
  }

  /** Text after the first 2000 characters does not change the preview. */
  lemma PreviewIgnoresTail(content: string, extra: string)
    ensures |content| >= 2000 ==> Preview(content + extra) == Preview(content)
  {
    if |content| >= 2000 {
      assert (content + extra)[..2000] == content[..2000];
    }
  }

  lemma ContainsMiddle(a: string, b: string, c: string)
    ensures Contains(a + b + c, b)
  {
    assert (a + b + c)[|a|..][..|b|] == b;
    ContainsAt(a + b + c, b, |a|);
  }

  // ---------------------------------------------------------------------------
  // Generating a caption

  /** What `__init__` keeps: the model name, the language and whether an
      OpenAI client exists. */
  datatype Generator = Generator(config: Utils.Config, model: string, language: string, hasClient: bool)

  /** `__init__`, given the value of `OPENAI_API_KEY`: the provider defaults
      to 'openai' and is compared in lower case, the model defaults to
      'gpt-4' and the language to 'pt'; the key comes from the configuration
      or else from the environment, and an empty key counts as none. */
  function NewGenerator(config: Utils.Config, env: Option<string>): (g: Generator)
    ensures g.hasClient <==> (config.ai.None? || config.ai.value.provider.None? ||
                              Lower(config.ai.value.provider.value) == "openai") &&
                             ((config.ai.Some? && config.ai.value.apiKey.Some? && config.ai.value.apiKey.value != "") ||
                              (env.Some? && env.value != ""))
    ensures g.language == if config.ai.Some? && config.ai.value.language.Some? then config.ai.value.language.value else "pt"
    ensures g.model == if config.ai.Some? && config.ai.value.model.Some? then config.ai.value.model.value else "gpt-4"
  {
    var provider := if config.ai.Some? && config.ai.value.provider.Some? then Lower(config.ai.value.provider.value)
                    else "openai";
    var key := if config.ai.Some? && config.ai.value.apiKey.Some? && config.ai.value.apiKey.value != ""
               then config.ai.value.apiKey else env;
    var ai := if config.ai.Some? then config.ai.value else Utils.AiSection(None, None, None, None);
    Generator(config, if ai.model.Some? then ai.model.value else "gpt-4",
              if ai.language.Some? then ai.language.value else "pt",
              provider == "openai" && key.Some? && key.value != "")
  }

  function ThemeHashtags(config: Utils.Config, theme: string): Utils.Hashtags
  {
    var t := Utils.GetThemeConfig(config, theme);
    if t.Some? then t.value.hashtags else Utils.Hashtags([], [])
  }

  /** The audiences of the prompt: the ones given, else the theme's. */
  function Audiences(config: Utils.Config, theme: string, given: Option<seq<string>>): seq<string>
  {
    if given.Some? then given.value
    else
      var t := Utils.GetThemeConfig(config, theme);
      if t.Some? then t.value.targetAudience else []
  }

  /** `r` is the caption parsed from the stripped reply `reply`: the caption
      is the text after the first 'CAPTION:' up to 'HASHTAGS:' (or '' without
      the marker), the hashtags open with the theme's base ones and add at
      most fifteen more, and the CTA is the text after the first 'CTA:' up to
      the next one, or the default. */
  predicate ParsedFrom(r: Caption, reply: string, tags: Utils.Hashtags)
  {
    (!Contains(reply, "CAPTION:") ==> r.caption == "") &&
    (Contains(reply, "CAPTION:") ==>
       r.caption == Strip(UpTo(UpTo(After(reply, "CAPTION:"), "CAPTION:"), "HASHTAGS:"))) &&
    tags.base <= r.hashtags && |r.hashtags| <= |tags.base| + 15 &&
    (!Contains(reply, "CTA:") ==> r.cta == DefaultCta) &&
    (Contains(reply, "CTA:") ==> r.cta == Strip(UpTo(After(reply, "CTA:"), "CTA:")))
  }

  /** What `generate_caption` asks the model about: the content's preview
      and the theme's fields, which `RequestText` lays out as the prompt. */
  datatype Request = Request(preview: string, theme: string, contentType: string, audiences: seq<string>,
                             base: seq<string>, custom: seq<string>, language: string)

  /** The chat model: the reply to a request's prompt, or None when the call raises. */
  type Ask = Request -> Option<string>

  /** The prompt a request stands for. */
  function RequestText(q: Request): string
  {
    PromptAround(q.preview, q.theme, q.contentType, q.audiences, q.base, q.custom, q.language)
  }

  /** The request `generate_caption` sends for a theme. */
  function CaptionRequest(g: Generator, content: string, theme: string, contentType: string,
                          given: Option<seq<string>>): (q: Request)
    ensures q.preview == Preview(content) && q.base == ThemeHashtags(g.config, theme).base
  {
    var tags := ThemeHashtags(g.config, theme);
    Request(Preview(content), theme, contentType, Audiences(g.config, theme, given), tags.base, tags.custom, g.language)
  }

  /** The prompt of that request is `_build_prompt`'s, so it carries the
      first 2000 characters of the content. */
  lemma CaptionRequestPrompt(g: Generator, content: string, theme: string, contentType: string,
                             given: Option<seq<string>>)
    ensures RequestText(CaptionRequest(g, content, theme, contentType, given)) ==
            BuildPrompt(content, theme, contentType, Audiences(g.config, theme, given),
                        ThemeHashtags(g.config, theme).base, ThemeHashtags(g.config, theme).custom, g.language)
    ensures Contains(RequestText(CaptionRequest(g, content, theme, contentType, given)), Preview(content))
  {
    var q := CaptionRequest(g, content, theme, contentType, given);
    RequestCarriesPreview(q);
  }

  /** Whatever else it holds, a prompt carries its request's preview. */
  lemma RequestCarriesPreview(q: Request)
    ensures Contains(RequestText(q), q.preview)
  {
    PromptCarriesPreviewAround(q.preview, q.theme, q.contentType, q.audiences, q.base, q.custom, q.language);
  }

  /** `generate_caption`: the fallback without a client. With one, the
      request carries the first 2000 characters of the content and the
      theme's base hashtags; a failed call gives the fallback, and a reply is
      parsed into its sections. */
  function GenerateCaption(g: Generator, content: string, theme: string, contentType: string,
                           given: Option<seq<string>>, ask: Ask): (r: Caption)
    ensures !g.hasClient ==> r == FallbackCaption(content)
    ensures g.hasClient ==>
              var q := CaptionRequest(g, content, theme, contentType, given);
              q.preview == Preview(content) &&
              (ask(q).None? ==> r == FallbackCaption(content)) &&
              (ask(q).Some? ==> ParsedFrom(r, Strip(ask(q).value), ThemeHashtags(g.config, theme)))
  {
    if !g.hasClient then FallbackCaption(content)
    else
      var q := CaptionRequest(g, content, theme, contentType, given);
      CaptionFromReply(content, ask(q), ThemeHashtags(g.config, theme))
  }

  /** The caption made of the model's reply, or the fallback when there is none. */
  function CaptionFromReply(content: string, reply: Option<string>, tags: Utils.Hashtags): (r: Caption)
    ensures reply.None? ==> r == FallbackCaption(content)
    ensures reply.Some? ==> ParsedFrom(r, Strip(reply.value), tags)
  {
    if reply.None? then FallbackCaption(content)
    else
      ParseAiResponseHashtags(Strip(reply.value), tags.base, tags.custom);
      ParseAiResponseSections(Strip(reply.value), tags.base, tags.custom);
      ParseAiResponse(Strip(reply.value), tags.base, tags.custom)
  }
}
