/** The configuration dictionary and its lookups: the theme list, the brand
    section, the AI section (with the API key taken from the environment) and
    the Instagram dimensions. A key that may be missing from the YAML file is
    an `Option`. */
module Utils {
  import opened Base
  import opened Text

  datatype Hashtags = Hashtags(base: seq<string>, custom: seq<string>)

  datatype Theme = Theme(name: Option<string>, targetAudience: seq<string>, hashtags: Hashtags)

  datatype Brand = Brand(name: string, colors: Option<map<string, string>>, fonts: Option<map<string, string>>)

  datatype AiSection = AiSection(provider: Option<string>, model: Option<string>, language: Option<string>, apiKey: Option<string>)

  datatype Dims = Dims(width: Option<int>, height: Option<int>)

  datatype Duration = Duration(min: Option<int>, max: Option<int>)

  datatype Instagram = Instagram(feed: Option<Dims>, reel: Option<Dims>, reelDuration: Option<Duration>)

  datatype Config = Config(brand: Option<Brand>, themes: Option<seq<Theme>>, ai: Option<AiSection>,
                           instagram: Option<Instagram>)

  /** `config.get('themes', [])` */
  function Themes(config: Config): seq<Theme>
  {
    if config.themes.Some? then config.themes.value else []
  }

  /** The first theme of the list whose name is `name`. */
  function FirstNamed(themes: seq<Theme>, name: string): (r: Option<nat>)
    ensures r.Some? ==> r.value < |themes| && themes[r.value].name == Some(name)
    ensures r.Some? ==> forall j :: 0 <= j < r.value ==> themes[j].name != Some(name)
    ensures r.None? ==> forall j :: 0 <= j < |themes| ==> themes[j].name != Some(name)
  {
    if themes == [] then None
    else if themes[0].name == Some(name) then Some(0)
    else
      var k := FirstNamed(themes[1..], name);
      if k.Some? then Some(k.value + 1) else None
  }

  /** `get_theme_config`: the first theme whose 'name' equals the argument,
      or None when no theme has that name. */
  function GetThemeConfig(config: Config, name: string): (r: Option<Theme>)
    ensures r.Some? <==> exists j :: 0 <= j < |Themes(config)| && Themes(config)[j].name == Some(name)
    ensures r.Some? ==> r.value.name == Some(name) && r.value in Themes(config)
    ensures r.Some? ==> exists j :: 0 <= j < |Themes(config)| && Themes(config)[j] == r.value &&
                          forall k :: 0 <= k < j ==> Themes(config)[k].name != Some(name)
  {
    var k := FirstNamed(Themes(config), name);
    if k.Some? then Some(Themes(config)[k.value]) else None
  }

  /** `get_brand_colors`: {} when the brand section or its colours are absent. */
  function GetBrandColors(config: Config): (r: map<string, string>)
    ensures config.brand.None? || config.brand.value.colors.None? ==> r == map[]
    ensures config.brand.Some? && config.brand.value.colors.Some? ==> r == config.brand.value.colors.value
  {
    match config.brand
    case None => map[]
    case Some(b) => if b.colors.Some? then b.colors.value else map[]
  }

  /** `get_brand_fonts`: {} when the brand section or its fonts are absent. */
  function GetBrandFonts(config: Config): (r: map<string, string>)
    ensures config.brand.None? || config.brand.value.fonts.None? ==> r == map[]
    ensures config.brand.Some? && config.brand.value.fonts.Some? ==> r == config.brand.value.fonts.value
  {
    match config.brand
    case None => map[]
    case Some(b) => if b.fonts.Some? then b.fonts.value else map[]
  }

  /** The condition under which `load_config` stores the environment's key:
      an 'ai' section, a provider containing 'openai' (any case) and a
      non-empty key. */
  predicate InjectsKey(config: Config, env: Option<string>)
  {
    config.ai.Some? &&
    Contains(Lower(if config.ai.value.provider.Some? then config.ai.value.provider.value else ""), "openai") &&
    env.Some? && env.value != ""
  }

  /** The API-key step of `load_config`, given the value of `OPENAI_API_KEY`. */
  function WithApiKey(config: Config, env: Option<string>): (r: Config)
    ensures InjectsKey(config, env) ==> r.ai.Some? && r.ai.value.apiKey == env
    ensures InjectsKey(config, env) ==> r == config.(ai := Some(config.ai.value.(apiKey := env)))
    ensures !InjectsKey(config, env) ==> r == config
  {
    if InjectsKey(config, env) then config.(ai := Some(config.ai.value.(apiKey := env))) else config
  }

  /** The configuration `create_default_config` writes. */
  function DefaultConfig(): Config
  {
    var base := ["#kombucha", "#madeira", "#healthy", "#realhealthkombucha"];
    Config(
      Some(Brand("Real Health Kombucha",
                 Some(map["primary" := "#1a5f3f", "secondary" := "#8bc34a", "accent" := "#4caf50",
                          "text" := "#333333", "background" := "#ffffff"]),
                 Some(map["heading" := "Arial", "body" := "Arial"]))),
      Some([Theme(Some("kombucha_benefits"), ["health_conscious", "restaurants"],
                  Hashtags(base, ["#kombuchamadeira", "#saude", "#madeiraisland"])),
            Theme(Some("kombucha_research"), ["health_conscious", "restaurants"],
                  Hashtags(["#kombucha", "#madeira", "#research", "#realhealthkombucha"],
                           ["#kombucharesearch", "#saude", "#ciencia"]))]),
      Some(AiSection(Some("openai"), Some("gpt-4"), Some("pt"), None)),
      Some(Instagram(Some(Dims(Some(1080), Some(1080))), Some(Dims(Some(1080), Some(1920))),
                     Some(Duration(Some(15), Some(90))))))
  }

  /** `d.get(key, default)` for an optional integer. */
  function GetOr(v: Option<int>, default: int): int
  {
    if v.Some? then v.value else default
  }

  /** The feed canvas size the image processor reads, 1080 x 1080 by default. */
  function FeedSize(config: Config): (r: (int, int))
    ensures config.instagram.None? ==> r == (1080, 1080)
  {
    var d := if config.instagram.Some? && config.instagram.value.feed.Some? then config.instagram.value.feed.value
             else Dims(None, None);
    (GetOr(d.width, 1080), GetOr(d.height, 1080))
  }

  /** The reel canvas size the video processor reads, 1080 x 1920 by default. */
  function ReelSize(config: Config): (r: (int, int))
    ensures config.instagram.None? ==> r == (1080, 1920)
  {
    var d := if config.instagram.Some? && config.instagram.value.reel.Some? then config.instagram.value.reel.value
             else Dims(None, None);
    (GetOr(d.width, 1080), GetOr(d.height, 1920))
  }

  /** The reel duration bounds the video processor reads, 15 to 90 seconds by default. */
  function ReelDuration(config: Config): (r: (int, int))
    ensures config.instagram.None? ==> r == (15, 90)
  {
    var d := if config.instagram.Some? && config.instagram.value.reelDuration.Some? then config.instagram.value.reelDuration.value
             else Duration(None, None);
    (GetOr(d.min, 15), GetOr(d.max, 90))
  }

  /** The default configuration yields the documented dimensions and bounds,
      finds both of its themes by name, and keeps its key slot empty until the
      environment supplies one. */
  lemma DefaultConfigFacts(env: Option<string>)
    ensures FeedSize(DefaultConfig()) == (1080, 1080)
    ensures ReelSize(DefaultConfig()) == (1080, 1920)
    ensures ReelDuration(DefaultConfig()) == (15, 90)
    ensures GetThemeConfig(DefaultConfig(), "kombucha_benefits").Some?
    ensures GetThemeConfig(DefaultConfig(), "kombucha_research").Some?
    ensures env.Some? && env.value != "" ==> WithApiKey(DefaultConfig(), env).ai.value.apiKey == env
  {
    var c := DefaultConfig();
    assert Themes(c)[0].name == Some("kombucha_benefits");
    assert Themes(c)[1].name == Some("kombucha_research");
    var p := Lower("openai");
    assert p == "openai";
    assert IndexOf(p, "openai") == Some(0);
  }
}
