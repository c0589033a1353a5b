/** The reel timeline of `VideoProcessor.create_reel`: how the duration budget
    is shared between the clips, how the composed video is looped or trimmed
    into the configured duration range, which text clips are laid over it and
    how the background music is fitted to it. Media lengths are inputs; the
    decoding, resizing and encoding of the media are not modelled. Durations
    are exact reals. */
module VideoProcessor {
  import opened Base
  import opened Text
  import opened Utils

  /** The processor's settings, read from the configuration. */
  datatype Settings = Settings(reelWidth: int, reelHeight: int, minDuration: real, maxDuration: real,
                               colors: map<string, string>, fonts: map<string, string>)

  /** `VideoProcessor.__init__`: reel size and duration bounds with their
      defaults, brand colours and fonts. */
  function SettingsOf(config: Config): (s: Settings)
    ensures config.instagram.None? ==> s.reelWidth == 1080 && s.reelHeight == 1920
    ensures config.instagram.None? ==> s.minDuration == 15.0 && s.maxDuration == 90.0
  {
    var size, range := ReelSize(config), ReelDuration(config);
    Settings(size.0, size.1, range.0 as real, range.1 as real, GetBrandColors(config), GetBrandFonts(config))
  }

  /** `d.get(key, default)` on a string dictionary. */
  function Lookup(m: map<string, string>, key: string, default: string): string
  {
    if key in m then m[key] else default
  }

  // ---------------------------------------------------------------------------
  // Sharing the duration budget between clips

  /** One loaded clip: the index of its video, the start time the loop gave it,
      the duration it was allotted and the length it actually has (the
      allotment cut to the source's own length by `prepare_clip`). */
  datatype Placement = Placement(source: nat, start: real, allotted: real, length: real)

  /** The clips the loop loads from video `i` on, when the running start time
      is `current`. */
  function AllocateFrom(sources: seq<real>, maxDuration: real, transition: real, i: nat, current: real): (r: seq<Placement>)
    requires i <= |sources|
    ensures |r| <= |sources| - i
    decreases |sources| - i
  {
    if i == |sources| then []
    else
      var remaining := maxDuration - current;
      if remaining <= 0.0 then []
      else
        var d := MinReal(remaining / (|sources| - i) as real, 10.0);
        [Placement(i, current, d, MinReal(d, sources[i]))]
          + AllocateFrom(sources, maxDuration, transition, i + 1, current + d - transition)
  }

  /** The clips `create_reel` loads for videos of the given lengths. */
  function Allocate(sources: seq<real>, maxDuration: real, transition: real): seq<Placement>
  {
    AllocateFrom(sources, maxDuration, transition, 0, 0.0)
  }

  lemma ShareBounds(remaining: real, m: real)
    requires remaining > 0.0 && m >= 1.0
    ensures 0.0 < remaining / m <= remaining
    ensures m >= 2.0 ==> remaining / m < remaining
  {
    var q := remaining / m;
    assert q * m == remaining;
    assert q > 0.0;
    MulMono(1.0, m, q);
    calc {
      q;
    ==
      1.0 * q;
    <=
      m * q;
    ==
      remaining;
    }
    if m >= 2.0 {
      MulStrict(1.0, m, q);
      assert 1.0 * q < m * q;
    }
  }

  lemma MulMono(a: real, b: real, c: real)
    requires a <= b && c >= 0.0
    ensures a * c <= b * c
  {
    assert b * c - a * c == (b - a) * c;
  }

  lemma MulStrict(a: real, b: real, c: real)
    requires a < b && c > 0.0
    ensures a * c < b * c
  {
    assert b * c - a * c == (b - a) * c;
  }

  /** Clip `k` of `r` comes from video `i + k`, has a positive share of at
      most 10 seconds that ends no later than `max_duration`, and is as long as
      its share or its video, whichever is shorter. */
  predicate WithinBudget(r: seq<Placement>, sources: seq<real>, maxDuration: real, i: nat)
  {
    forall k :: 0 <= k < |r| ==>
      r[k].source == i + k && i + k < |sources| &&
      0.0 < r[k].allotted <= 10.0 && r[k].start + r[k].allotted <= maxDuration &&
      r[k].length == MinReal(r[k].allotted, sources[i + k])
  }

  /** Every clip gets a positive share of at most 10 seconds that ends no later
      than `max_duration`, and is no longer than its allotment or its video. */
  lemma {:induction false} AllocationBounds(sources: seq<real>, maxDuration: real, transition: real, i: nat, current: real)
    requires i <= |sources|
    ensures WithinBudget(AllocateFrom(sources, maxDuration, transition, i, current), sources, maxDuration, i)
    decreases |sources| - i
  {
    var remaining := maxDuration - current;
    if i < |sources| && remaining > 0.0 {
      ShareBounds(remaining, (|sources| - i) as real);
      var d := MinReal(remaining / (|sources| - i) as real, 10.0);
      var rest := AllocateFrom(sources, maxDuration, transition, i + 1, current + d - transition);
      AllocationBounds(sources, maxDuration, transition, i + 1, current + d - transition);
      assert WithinBudget(rest, sources, maxDuration, i + 1);
      var r := AllocateFrom(sources, maxDuration, transition, i, current);
      assert r == [Placement(i, current, d, MinReal(d, sources[i]))] + rest;
      forall k | 0 <= k < |r|
        ensures r[k].source == i + k && i + k < |sources| && 0.0 < r[k].allotted <= 10.0
        ensures r[k].start + r[k].allotted <= maxDuration
        ensures r[k].length == MinReal(r[k].allotted, sources[i + k])
      {
        if k == 0 {
          assert r[0] == Placement(i, current, d, MinReal(d, sources[i]));
          assert d <= remaining;
        } else {
          assert r[k] == rest[k - 1];
        }
      }
    }
  }

  /** The first clip starts at the running time, and each next clip starts
      `clip_duration - transition_duration` after the previous one. */
  lemma {:induction false} AllocationAdvance(sources: seq<real>, maxDuration: real, transition: real, i: nat, current: real)
    requires i <= |sources|
    ensures var r := AllocateFrom(sources, maxDuration, transition, i, current);
            (r != [] ==> r[0].start == current) &&
            forall k :: 0 <= k < |r| - 1 ==> r[k + 1].start == r[k].start + r[k].allotted - transition
    decreases |sources| - i
  {
    var remaining := maxDuration - current;
    if i < |sources| && remaining > 0.0 {
      var d := MinReal(remaining / (|sources| - i) as real, 10.0);
      AllocationAdvance(sources, maxDuration, transition, i + 1, current + d - transition);
    }
  }

  /** Fewer clips than videos only when the budget ran out: the time left after
      the last clip (or at the start, when there is none) is not positive. */
  lemma {:induction false} AllocationStops(sources: seq<real>, maxDuration: real, transition: real, i: nat, current: real)
    requires i <= |sources|
    ensures var r := AllocateFrom(sources, maxDuration, transition, i, current);
            |r| < |sources| - i ==>
              (r == [] ==> maxDuration - current <= 0.0) &&
              (r != [] ==> maxDuration - (r[|r| - 1].start + r[|r| - 1].allotted - transition) <= 0.0)
    decreases |sources| - i
  {
    var remaining := maxDuration - current;
    if i < |sources| && remaining > 0.0 {
      var d := MinReal(remaining / (|sources| - i) as real, 10.0);
      var next := current + d - transition;
      AllocationStops(sources, maxDuration, transition, i + 1, next);
      AllocationAdvance(sources, maxDuration, transition, i + 1, next);
    }
  }

  /** With a positive budget and a non-negative transition, every video gets a
      clip: an even share always leaves time for the videos after it. */
  lemma {:induction false} AllocationPlacesAll(sources: seq<real>, maxDuration: real, transition: real, i: nat, current: real)
    requires i <= |sources| && transition >= 0.0 && maxDuration - current > 0.0
    ensures |AllocateFrom(sources, maxDuration, transition, i, current)| == |sources| - i
    decreases |sources| - i
  {
    var remaining := maxDuration - current;
    if i < |sources| {
      var m := (|sources| - i) as real;
      ShareBounds(remaining, m);
      var d := MinReal(remaining / m, 10.0);
      if i + 1 < |sources| {
        assert d < remaining;
        AllocationPlacesAll(sources, maxDuration, transition, i + 1, current + d - transition);
      }
    }
  }

  /** No clip is loaded exactly when the budget is not positive. */
  lemma AllocationEmpty(sources: seq<real>, maxDuration: real, transition: real)
    requires sources != []
    ensures Allocate(sources, maxDuration, transition) == [] <==> maxDuration <= 0.0
  {
    if maxDuration > 0.0 {
      ShareBounds(maxDuration, |sources| as real);
    }
  }

  // ---------------------------------------------------------------------------
  // Fitting the composed video into [min_duration, max_duration]

  /** The length of the clips played one after the other. */
  function TotalLength(clips: seq<Placement>): real
  {
    if clips == [] then 0.0 else clips[0].length + TotalLength(clips[1..])
  }

  lemma {:induction false} TotalLengthNonNegative(clips: seq<Placement>, sources: seq<real>)
    requires forall k :: 0 <= k < |sources| ==> sources[k] >= 0.0
    requires forall k :: 0 <= k < |clips| ==>
               clips[k].source < |sources| && clips[k].allotted > 0.0 &&
               clips[k].length == MinReal(clips[k].allotted, sources[clips[k].source])
    ensures TotalLength(clips) >= 0.0
  {
    if clips != [] {
      TotalLengthNonNegative(clips[1..], sources);
    }
  }

  /** `int(x)` for a non-negative real. */
  function Trunc(x: real): (n: nat)
    requires x >= 0.0
    ensures n as real <= x < n as real + 1.0
  {
    x.Floor
  }

  /** `int(target / length) + 1` copies of a clip of positive `length` are
      longer than `target`, and one copy fewer is not. */
  function LoopCount(target: real, length: real): (n: nat)
    requires target >= 0.0 && length > 0.0
    ensures n >= 1
    ensures (n - 1) as real * length <= target < n as real * length
  {
    var q := target / length;
    assert q * length == target;
    var f := Trunc(q);
    MulMono(f as real, q, length);
    MulStrict(q, f as real + 1.0, length);
    var n := f + 1;
    assert (n - 1) as real == f as real && n as real == f as real + 1.0;
    assert (n - 1) as real * length <= target;
    calc {
      target;
    ==
      q * length;
    <
      (f as real + 1.0) * length;
    ==
      n as real * length;
    }
    n
  }

  /** What the minimum and maximum steps do to a composed length. */
  datatype Fitted = Fitted(loops: nat, duration: real)

  /** Loop a too-short video `int(min/d)+1` times and cut it to `min`, then cut
      a too-long one to `max`; a zero-length video cannot be looped. */
  function FitDuration(composed: real, minDuration: real, maxDuration: real): (r: Result<Fitted, ReelError>)
    requires composed >= 0.0
    ensures r.Err? <==> composed == 0.0 && minDuration > 0.0
    ensures r.Ok? && minDuration <= maxDuration ==> minDuration <= r.value.duration <= maxDuration
    ensures r.Ok? && minDuration <= composed <= maxDuration ==> r.value == Fitted(1, composed)
    ensures r.Ok? && composed < minDuration ==> r.value.loops as real * composed > minDuration
    ensures r.Ok? && composed < minDuration <= maxDuration ==> r.value.duration == minDuration
    ensures r.Ok? && minDuration <= composed && maxDuration < composed ==> r.value.duration == maxDuration
    ensures r.Ok? ==> r.value.duration <= r.value.loops as real * composed
    ensures r.Ok? && maxDuration >= 0.0 ==> r.value.duration >= 0.0
  {
    if composed < minDuration then
      if composed == 0.0 then Err(ZeroLength)
      else
        var n := LoopCount(minDuration, composed);
        Ok(Fitted(n, if minDuration > maxDuration then maxDuration else minDuration))
    else
      Ok(Fitted(1, if composed > maxDuration then maxDuration else composed))
  }

  // ---------------------------------------------------------------------------
  // Text clips

  /** Vertical placement of a text clip: a pixel row, or centred. */
  datatype YPos = Row(y: int) | Centred

  /** The parameters `create_text_clip` passes to `TextClip`. */
  datatype TextClip = TextClip(text: string, fontSize: int, color: string, font: string,
                               strokeColor: string, strokeWidth: int, boxWidth: int,
                               y: YPos, duration: real, start: real)

  /** `create_text_clip`'s position rule. */
  function YPosition(position: string, reelHeight: int): (y: YPos)
    ensures position == "top" ==> y == Row(100)
    ensures position == "center" ==> y == Centred
    ensures position != "top" && position != "center" ==> y == Row(reelHeight - 300)
  {
    if position == "top" then Row(100)
    else if position == "center" then Centred
    else Row(reelHeight - 300)
  }

  /** The text `create_text_clip` displays: `textwrap.wrap(text, 30)` joined by
      newlines. */
  function DisplayText(text: string): string
  {
    var lines := Wrap(text, 30);
    Join(lines.value, "\n")
  }

  /** Every displayed line holds at most 30 characters, and the displayed text
      keeps every non-space character of the original in order. */
  lemma DisplayTextLines(text: string)
    ensures forall line :: line in Split(DisplayText(text), "\n") ==> |line| <= 30
    ensures Wrap(text, 30).Ok? && (Split(DisplayText(text), "\n") == Wrap(text, 30).value || DisplayText(text) == "")
    ensures RemoveSpaces(Concat(Wrap(text, 30).value)) == RemoveSpaces(text)
  {
    var lines := Wrap(text, 30).value;
    WrapKeepsContent(text, 30);
    if lines == [] {
      assert Split("", "\n") == [""];
    } else {
      forall l | l in lines ensures '\n' !in l {
        assert WrappedLine(l, 30);
        forall i | 0 <= i < |l| ensures l[i] != '\n' {
          assert l[i] == ' ' || !IsSpace(l[i]);
        }
      }
      SplitJoinChar(lines, '\n');
    }
  }

  /** `create_text_clip`: wrapped text, brand colours and heading font with
      their defaults, a 2-pixel stroke, a box 100 pixels narrower than the
      reel, and the position rule. */
  function CreateTextClip(s: Settings, text: string, duration: real, position: string, fontSize: int, start: real): (c: TextClip)
    ensures c.color == Lookup(s.colors, "text", "#000000") && c.strokeColor == Lookup(s.colors, "background", "#ffffff")
    ensures c.font == Lookup(s.fonts, "heading", "Arial") && c.strokeWidth == 2 && c.boxWidth == s.reelWidth - 100
    ensures c.y == YPosition(position, s.reelHeight) && c.duration == duration && c.start == start
    ensures forall line :: line in Split(c.text, "\n") ==> |line| <= 30
  {
    DisplayTextLines(text);
    TextClip(DisplayText(text), fontSize, Lookup(s.colors, "text", "#000000"), Lookup(s.fonts, "heading", "Arial"),
             Lookup(s.colors, "background", "#ffffff"), 2, s.reelWidth - 100,
             YPosition(position, s.reelHeight), duration, start)
  }

  /** An overlay request; a missing key takes the default of `create_reel`. */
  datatype Overlay = Overlay(text: Option<string>, duration: Option<real>, position: Option<string>,
                             fontSize: Option<int>, start: Option<real>)

  function OverlayClip(s: Settings, o: Overlay): TextClip
  {
    CreateTextClip(s,
      if o.text.Some? then o.text.value else "",
      if o.duration.Some? then o.duration.value else 3.0,
      if o.position.Some? then o.position.value else "bottom",
      if o.fontSize.Some? then o.fontSize.value else 60,
      if o.start.Some? then o.start.value else 0.0)
  }

  /** The time the last of the clips ends, or `base` if that is later: the
      duration a composite of a `base`-long video and the text clips takes. */
  function LatestEnd(base: real, clips: seq<TextClip>): (e: real)
    ensures e >= base && forall k :: 0 <= k < |clips| ==> e >= clips[k].start + clips[k].duration
    ensures e == base || exists k :: 0 <= k < |clips| && e == clips[k].start + clips[k].duration
  {
    if clips == [] then base
    else
      var rest := LatestEnd(base, clips[1..]);
      var end := clips[0].start + clips[0].duration;
      if end > rest then end else rest
  }

  // ---------------------------------------------------------------------------
  // Background music

  /** The music track laid under the reel. */
  datatype Audio = Audio(loops: nat, duration: real, volume: real)

  /** A shorter track is repeated `int(D/a)+1` times and cut to the video's
      length `D`, a longer one is cut; the volume is scaled to 30%. A track of
      zero length cannot be repeated: the error is caught and the reel gets no
      music. */
  function FitAudio(length: real, videoDuration: real): (a: Option<Audio>)
    requires length >= 0.0 && videoDuration >= 0.0
    ensures a.Some? <==> length > 0.0 || length >= videoDuration
    ensures a.Some? ==> a.value.duration == videoDuration && a.value.volume == 0.3
    ensures a.Some? ==> a.value.loops as real * length >= videoDuration && a.value.loops >= 1
  {
    if length < videoDuration then
      if length == 0.0 then None
      else
        var n := LoopCount(videoDuration, length);
        Some(Audio(n, videoDuration, 0.3))
    else Some(Audio(1, videoDuration, 0.3))
  }

  // ---------------------------------------------------------------------------
  // The reel

  datatype ReelError = NoVideoPaths | NoClipPlaced | ZeroLength

  /** The reel `create_reel` writes: the loaded clips, their composed length,
      the looping and cutting to the duration range, the text clips, the final
      duration and the music. */
  datatype Reel = Reel(clips: seq<Placement>, composed: real, fitted: Fitted,
                       texts: seq<TextClip>, duration: real, audio: Option<Audio>)

  /** The loading loop of `create_reel`: one clip per video until the budget
      is spent. */
  method LoadClips(sources: seq<real>, maxDuration: real, transition: real) returns (clips: seq<Placement>)
    ensures clips == Allocate(sources, maxDuration, transition)
  {
    clips := [];
    var current := 0.0;
    var i := 0;
    while i < |sources|
      invariant 0 <= i <= |sources| && |clips| == i
      invariant clips + AllocateFrom(sources, maxDuration, transition, i, current) == Allocate(sources, maxDuration, transition)
      decreases |sources| - i
    {
      var remaining := maxDuration - current;
      if remaining <= 0.0 {
        break;
      }
      var d := MinReal(remaining / (|sources| - i) as real, 10.0);
      clips := clips + [Placement(i, current, d, MinReal(d, sources[i]))];
      current := current + d - transition;
      i := i + 1;
    }
  }

  /** One text clip per overlay request, in order. */
  function OverlayClips(s: Settings, overlays: seq<Overlay>): (r: seq<TextClip>)
    ensures |r| == |overlays|
  {
    if overlays == [] then []
    else OverlayClips(s, overlays[..|overlays| - 1]) + [OverlayClip(s, overlays[|overlays| - 1])]
  }

  /** Clip `k` is the one made from overlay `k`. */
  lemma {:induction false} OverlayClipsAt(s: Settings, overlays: seq<Overlay>, k: nat)
    requires k < |overlays|
    ensures OverlayClips(s, overlays)[k] == OverlayClip(s, overlays[k])
    decreases |overlays|
  {
    if k < |overlays| - 1 {
      OverlayClipsAt(s, overlays[..|overlays| - 1], k);
    }
  }

  lemma OverlayClipsSnoc(s: Settings, overlays: seq<Overlay>, k: nat)
    requires k < |overlays|
    ensures OverlayClips(s, overlays[..k + 1]) == OverlayClips(s, overlays[..k]) + [OverlayClip(s, overlays[k])]
  {
    assert overlays[..k + 1][..k] == overlays[..k];
  }

  /** The overlay loop of `create_reel`: one text clip per overlay request. */
  method TextClips(s: Settings, overlays: seq<Overlay>) returns (texts: seq<TextClip>)
    ensures texts == OverlayClips(s, overlays)
  {
    texts := [];
    for k := 0 to |overlays|
      invariant texts == OverlayClips(s, overlays[..k])
    {
      OverlayClipsSnoc(s, overlays, k);
      texts := texts + [OverlayClip(s, overlays[k])];
    }
    assert overlays[..|overlays|] == overlays;
  }

  /** `create_reel` for videos of the given lengths and, when there is music,
      the music file's length. */
  method CreateReel(s: Settings, sources: seq<real>, overlays: seq<Overlay>, music: Option<real>, transition: real)
    returns (r: Result<Reel, ReelError>)
    requires forall k :: 0 <= k < |sources| ==> sources[k] >= 0.0
    requires music.Some? ==> music.value >= 0.0
    ensures sources == [] ==> r == Err(NoVideoPaths)
    ensures sources != [] && s.maxDuration <= 0.0 ==> r == Err(NoClipPlaced)
    ensures r.Ok? <==> sources != [] && s.maxDuration > 0.0 &&
                       !(TotalLength(Allocate(sources, s.maxDuration, transition)) == 0.0 && s.minDuration > 0.0)
    ensures r.Err? && sources != [] && s.maxDuration > 0.0 ==> r == Err(ZeroLength)
    ensures r.Ok? ==> r.value.clips == Allocate(sources, s.maxDuration, transition) && r.value.clips != []
    ensures r.Ok? ==> s.maxDuration > 0.0 && r.value.composed >= 0.0 && r.value.fitted.duration >= 0.0
    ensures r.Ok? ==> r.value.duration >= r.value.fitted.duration
    ensures r.Ok? ==> r.value.composed == TotalLength(r.value.clips)
    ensures r.Ok? ==> FitDuration(r.value.composed, s.minDuration, s.maxDuration) == Ok(r.value.fitted)
    ensures r.Ok? && s.minDuration <= s.maxDuration ==> s.minDuration <= r.value.fitted.duration <= s.maxDuration
    ensures r.Ok? ==> r.value.texts == OverlayClips(s, overlays)
    ensures r.Ok? ==> r.value.duration == LatestEnd(r.value.fitted.duration, r.value.texts)
    ensures r.Ok? ==> r.value.audio == if music.Some? then FitAudio(music.value, r.value.duration) else None
  {
    if sources == [] {
      return Err(NoVideoPaths);
    }
    var clips := LoadClips(sources, s.maxDuration, transition);
    AllocationEmpty(sources, s.maxDuration, transition);
    if clips == [] {
      return Err(NoClipPlaced);
    }
    AllocationBounds(sources, s.maxDuration, transition, 0, 0.0);
    var composed := TotalLength(clips);
    assert WithinBudget(clips, sources, s.maxDuration, 0);
    TotalLengthNonNegative(clips, sources);
    var fitted := FitDuration(composed, s.minDuration, s.maxDuration);
    if fitted.Err? {
      return Err(fitted.error);
    }
    var texts := TextClips(s, overlays);
    var duration := fitted.value.duration;
    if overlays != [] {
      duration := LatestEnd(duration, texts);
    }
    var audio: Option<Audio> := None;
    if music.Some? {
      audio := FitAudio(music.value, duration);
    }
    r := Ok(Reel(clips, composed, fitted.value, texts, duration, audio));
  }
}
