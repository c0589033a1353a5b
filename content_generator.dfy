/** `ContentGenerator`: finding a theme's assets, choosing the image or the
    videos of a post, and scheduling the subtitles of a reel. The directory
    listing, the random source and the PDFs are inputs; rendering, captions
    and file output are outside the model. */
module ContentGenerator {
  import opened Base
  import opened Text
  import PdfProcessor
  import VideoProcessor

  // ---------------------------------------------------------------------------
  // Finding assets

  /** The extensions `find_assets` looks for, or None for an unknown type. */
  function Extensions(assetType: string): Option<seq<string>>
  {
    if assetType == "images" then Some([".jpg", ".jpeg", ".png", ".webp"])
    else if assetType == "videos" then Some([".mp4", ".mov", ".avi", ".mkv"])
    else if assetType == "pdfs" then Some([".pdf"])
    else None
  }

  /** The glob suffixes in the order they are tried: each extension, then its
      upper-case form. */
  function Suffixes(exts: seq<string>): (r: seq<string>)
    ensures |r| == 2 * |exts|
  {
    if exts == [] then []
    else Suffixes(exts[..|exts| - 1]) + [exts[|exts| - 1], Upper(exts[|exts| - 1])]
  }

  /** The names a single `glob('*' + suffix)` yields, in listing order. */
  function Matching(names: seq<string>, suffix: string): (r: seq<string>)
    ensures forall n :: n in r <==> n in names && EndsWith(n, suffix)
  {
    if names == [] then []
    else (if EndsWith(names[0], suffix) then [names[0]] else []) + Matching(names[1..], suffix)
  }

  /** The concatenated results of one glob per suffix. */
  function Gather(names: seq<string>, suffixes: seq<string>): seq<string>
  {
    if suffixes == [] then []
    else Gather(names, suffixes[..|suffixes| - 1]) + Matching(names, suffixes[|suffixes| - 1])
  }

  predicate HasSuffix(n: string, suffixes: seq<string>)
  {
    exists k :: 0 <= k < |suffixes| && EndsWith(n, suffixes[k])
  }

  /** The names ending in one of the suffixes, in listing order. */
  function WithSuffix(names: seq<string>, suffixes: seq<string>): (r: seq<string>)
    ensures forall n :: n in r <==> n in names && HasSuffix(n, suffixes)
  {
    if names == [] then []
    else (if HasSuffix(names[0], suffixes) then [names[0]] else []) + WithSuffix(names[1..], suffixes)
  }

  /** No suffix of the list ends with another one, so a name matches at most
      one glob. */
  predicate Unambiguous(suffixes: seq<string>)
  {
    forall i, j :: 0 <= i < |suffixes| && 0 <= j < |suffixes| && i != j ==> !EndsWith(suffixes[i], suffixes[j])
  }

  /** `find_assets`: the sorted names with a listed extension in lower or
      upper case; [] for a missing directory or an unknown type. */
  function AssetsOf(dir: Option<seq<string>>, assetType: string): seq<string>
  {
    if dir.None? || Extensions(assetType).None? then []
    else SortStrings(Gather(dir.value, Suffixes(Extensions(assetType).value)))
  }

  lemma {:induction false} WithSuffixAppend(names: seq<string>, suffixes: seq<string>, x: string)
    requires forall n :: n in names && HasSuffix(n, suffixes) ==> !EndsWith(n, x)
    ensures multiset(WithSuffix(names, suffixes + [x])) ==
            multiset(WithSuffix(names, suffixes)) + multiset(Matching(names, x))
  {
    if names != [] {
      var n := names[0];
      assert HasSuffix(n, suffixes + [x]) <==> HasSuffix(n, suffixes) || EndsWith(n, x) by {
        if EndsWith(n, x) {
          assert (suffixes + [x])[|suffixes|] == x;
        }
        if HasSuffix(n, suffixes) {
          var k :| 0 <= k < |suffixes| && EndsWith(n, suffixes[k]);
          assert (suffixes + [x])[k] == suffixes[k];
        }
        if HasSuffix(n, suffixes + [x]) {
          var k :| 0 <= k < |suffixes| + 1 && EndsWith(n, (suffixes + [x])[k]);
          if k < |suffixes| {
            assert (suffixes + [x])[k] == suffixes[k];
          }
        }
      }
      WithSuffixAppend(names[1..], suffixes, x);
    }
  }

  lemma {:induction false} WithNoSuffixes(names: seq<string>)
    ensures WithSuffix(names, []) == []
  {
    if names != [] {
      WithNoSuffixes(names[1..]);
    }
  }

  /** Gathering one glob per suffix yields, up to order, exactly the names
      with one of the suffixes, each once. */
  lemma {:induction false} GatherPermutes(names: seq<string>, suffixes: seq<string>)
    requires Unambiguous(suffixes)
    ensures multiset(Gather(names, suffixes)) == multiset(WithSuffix(names, suffixes))
  {
    if suffixes == [] {
      WithNoSuffixes(names);
    } else {
      var init := suffixes[..|suffixes| - 1];
      var x := suffixes[|suffixes| - 1];
      assert suffixes == init + [x];
      assert Unambiguous(init) by {
        forall i, j | 0 <= i < |init| && 0 <= j < |init| && i != j ensures !EndsWith(init[i], init[j]) {
          assert init[i] == suffixes[i] && init[j] == suffixes[j];
        }
      }
      GatherPermutes(names, init);
      forall n | n in names && HasSuffix(n, init) ensures !EndsWith(n, x) {
        var k :| 0 <= k < |init| && EndsWith(n, init[k]);
        assert init[k] == suffixes[k];
      }
      WithSuffixAppend(names, init, x);
    }
  }

  /** A dot followed by no other dot. */
  predicate OneDot(s: string) { |s| > 0 && s[0] == '.' && forall k :: 0 < k < |s| ==> s[k] != '.' }

  lemma DotSuffix(a: string, b: string)
    requires OneDot(a) && OneDot(b) && EndsWith(a, b)
    ensures a == b
  {
  }

  /** Distinct extensions with a single leading dot never end one another. */
  lemma DistinctExtensions(s: seq<string>)
    requires forall i :: 0 <= i < |s| ==> OneDot(s[i])
    requires forall i, j :: 0 <= i < |s| && 0 <= j < |s| && i != j ==> s[i] != s[j]
    ensures Unambiguous(s)
  {
    forall i, j | 0 <= i < |s| && 0 <= j < |s| && i != j ensures !EndsWith(s[i], s[j]) {
      if EndsWith(s[i], s[j]) {
        DotSuffix(s[i], s[j]);
      }
    }
  }

  /** The suffixes of four extensions, each followed by its upper-case form. */
  lemma SuffixesOfFour(a: string, b: string, c: string, d: string)
    ensures Suffixes([a, b, c, d]) == [a, Upper(a), b, Upper(b), c, Upper(c), d, Upper(d)]
  {
    var e := [a, b, c, d];
    assert e[..1][..0] == [];
    assert Suffixes(e[..1]) == [a, Upper(a)];
    assert e[..2][..1] == e[..1];
    assert Suffixes(e[..2]) == [a, Upper(a), b, Upper(b)];
    assert e[..3][..2] == e[..2];
    assert Suffixes(e[..3]) == [a, Upper(a), b, Upper(b), c, Upper(c)];
    assert e[..4][..3] == e[..3];
    assert e[..4] == e;
  }

  lemma ImageSuffixes()
    ensures Suffixes(Extensions("images").value) ==
            [".jpg", ".JPG", ".jpeg", ".JPEG", ".png", ".PNG", ".webp", ".WEBP"]
    ensures Unambiguous(Suffixes(Extensions("images").value))
  {
    SuffixesOfFour(".jpg", ".jpeg", ".png", ".webp");
    assert Upper(".jpg") == ".JPG";
    assert Upper(".jpeg") == ".JPEG";
    assert Upper(".png") == ".PNG";
    assert Upper(".webp") == ".WEBP";
    DistinctExtensions([".jpg", ".JPG", ".jpeg", ".JPEG", ".png", ".PNG", ".webp", ".WEBP"]);
  }

  lemma VideoSuffixes()
    ensures Suffixes(Extensions("videos").value) ==
            [".mp4", ".MP4", ".mov", ".MOV", ".avi", ".AVI", ".mkv", ".MKV"]
    ensures Unambiguous(Suffixes(Extensions("videos").value))
  {
    SuffixesOfFour(".mp4", ".mov", ".avi", ".mkv");
    assert Upper(".mp4") == ".MP4";
    assert Upper(".mov") == ".MOV";
    assert Upper(".avi") == ".AVI";
    assert Upper(".mkv") == ".MKV";
    DistinctExtensions([".mp4", ".MP4", ".mov", ".MOV", ".avi", ".AVI", ".mkv", ".MKV"]);
  }

  lemma PdfSuffixes()
    ensures Suffixes(Extensions("pdfs").value) == [".pdf", ".PDF"]
    ensures Unambiguous(Suffixes(Extensions("pdfs").value))
  {
    var e := Extensions("pdfs").value;
    assert e[..0] == [];
    assert Upper(".pdf") == ".PDF";
    DistinctExtensions(Suffixes(e));
  }

  lemma KnownSuffixes(assetType: string)
    requires Extensions(assetType).Some?
    ensures Unambiguous(Suffixes(Extensions(assetType).value))
  {
    if assetType == "images" {
      ImageSuffixes();
    } else if assetType == "videos" {
      VideoSuffixes();
    } else {
      PdfSuffixes();
    }
  }

  /** The assets are sorted, and up to order they are exactly the listed
      names that end in one of the extensions, lower or upper case. */
  lemma AssetsFacts(dir: Option<seq<string>>, assetType: string)
    ensures Sorted(AssetsOf(dir, assetType))
    ensures dir.None? || Extensions(assetType).None? ==> AssetsOf(dir, assetType) == []
    ensures dir.Some? && Extensions(assetType).Some? ==>
              multiset(AssetsOf(dir, assetType)) ==
              multiset(WithSuffix(dir.value, Suffixes(Extensions(assetType).value)))
  {
    if dir.Some? && Extensions(assetType).Some? {
      KnownSuffixes(assetType);
      GatherPermutes(dir.value, Suffixes(Extensions(assetType).value));
    }
  }

  /** The glob loop of `find_assets`: for each extension, the names ending
      in it and then those ending in its upper-case form. */
  method GlobAll(names: seq<string>, exts: seq<string>) returns (assets: seq<string>)
    ensures assets == Gather(names, Suffixes(exts))
  {
    assets := [];
    var i := 0;
    while i < |exts|
      invariant 0 <= i <= |exts|
      invariant assets == Gather(names, Suffixes(exts[..i]))
    {
      var s := Suffixes(exts[..i]);
      assert exts[..i + 1][..i] == exts[..i];
      assert Suffixes(exts[..i + 1]) == s + [exts[i], Upper(exts[i])];
      assert (s + [exts[i], Upper(exts[i])])[..|s| + 1] == s + [exts[i]];
      assert (s + [exts[i]])[..|s|] == s;
      assets := assets + Matching(names, exts[i]);
      assets := assets + Matching(names, Upper(exts[i]));
      i := i + 1;
    }
    assert exts[..i] == exts;
  }

  /** `find_assets`, with the directory listing as input (None when the
      directory does not exist). */
  method FindAssets(dir: Option<seq<string>>, assetType: string) returns (assets: seq<string>)
    ensures assets == AssetsOf(dir, assetType)
    ensures Sorted(assets)
    ensures forall n :: n in assets <==>
              dir.Some? && Extensions(assetType).Some? && n in dir.value &&
              HasSuffix(n, Suffixes(Extensions(assetType).value))
  {
    AssetsFacts(dir, assetType);
    if dir.None? {
      return [];
    }
    var extensions := Extensions(assetType);
    if extensions.None? {
      return [];
    }
    var exts := extensions.value;
    var names := dir.value;
    assets := GlobAll(names, exts);
    assets := SortStrings(assets);
    assert forall n :: n in assets <==> n in multiset(assets);
    assert forall n :: n in WithSuffix(names, Suffixes(exts)) <==> n in multiset(WithSuffix(names, Suffixes(exts)));
  }

  /** The counts `get_theme_stats` reports. */
  datatype ThemeStats = ThemeStats(images: nat, videos: nat, pdfs: nat)

  /** `get_theme_stats`: the number of assets of each type. */
  function GetThemeStats(images: Option<seq<string>>, videos: Option<seq<string>>, pdfs: Option<seq<string>>)
    : (r: ThemeStats)
    ensures r.images == |AssetsOf(images, "images")| && r.videos == |AssetsOf(videos, "videos")|
    ensures r.pdfs == |AssetsOf(pdfs, "pdfs")|
    ensures images.Some? ==> r.images == |WithSuffix(images.value, Suffixes(Extensions("images").value))|
    ensures videos.Some? ==> r.videos == |WithSuffix(videos.value, Suffixes(Extensions("videos").value))|
    ensures pdfs.Some? ==> r.pdfs == |WithSuffix(pdfs.value, Suffixes(Extensions("pdfs").value))|
  {
    AssetsFacts(images, "images");
    AssetsFacts(videos, "videos");
    AssetsFacts(pdfs, "pdfs");
    ThemeStats(|AssetsOf(images, "images")|, |AssetsOf(videos, "videos")|, |AssetsOf(pdfs, "pdfs")|)
  }

  // ---------------------------------------------------------------------------
  // Feed posts

  const DefaultCaptionSource: string := "Kombucha benefits and health information."

  /** The text the caption is generated from: the PDF text, or a fixed
      default when there is none. */
  function CaptionSource(pdfText: string): (r: string)
    ensures r != ""
    ensures pdfText != "" ==> r == pdfText
  {
    if pdfText != "" then pdfText else DefaultCaptionSource
  }

  /** The overlay of a feed post: the one passed in, or, when none was passed
      and there is PDF text, its best key point cut to 100 characters. */
  function FeedOverlay(textOverlay: Option<string>, pdfText: string): (r: Option<string>)
    ensures textOverlay.Some? ==> r == textOverlay
    ensures pdfText == "" ==> r == textOverlay
    ensures textOverlay.None? && r.Some? ==>
              |r.value| <= 100 && exists p :: p in PdfProcessor.Sentences(pdfText) && r.value <= p
    ensures textOverlay.None? && pdfText != "" && PdfProcessor.KeyPoints(pdfText, 1) != [] ==>
              r == Some(Prefix(PdfProcessor.KeyPoints(pdfText, 1)[0], 100))
  {
    if textOverlay.None? && pdfText != "" then
      var points := PdfProcessor.KeyPoints(pdfText, 1);
      PdfProcessor.KeyPointsAreSentences(pdfText, 1);
      if points != [] then
        assert points[0] in points;
        Some(Prefix(points[0], 100))
      else None
    else textOverlay
  }

  /** What `generate_feed_post` hands on: the image it picked, the text the
      caption is generated from, and the overlay for `process_image`. */
  datatype FeedPlan = FeedPlan(image: string, captionSource: string, overlay: Option<string>)

  /** The selection and text steps of `generate_feed_post`; `images` is the
      theme's `find_assets` result and the random choice is nondeterministic.
      `pdfText` is the theme's combined PDF text with at most five pages per
      PDF (`PdfProcessor.CombinedText(pdfs, Some(5))`), or "" when PDF content
      is not used. The plan is what `process_image` is then called with. */
  method GenerateFeedPost(images: seq<string>, imagePath: Option<string>, textOverlay: Option<string>,
                          pdfText: string)
    returns (r: Result<FeedPlan, string>)
    ensures r.Err? <==> images == [] || (imagePath.Some? && imagePath.value !in images)
    ensures r.Ok? ==> r.value.image in images
    ensures r.Ok? && imagePath.Some? ==> r.value.image == imagePath.value
    ensures r.Ok? ==> r.value.captionSource == CaptionSource(pdfText)
    ensures r.Ok? ==> r.value.overlay == FeedOverlay(textOverlay, pdfText)
  {
    if images == [] {
      return Err("No images found in theme");
    }
    var image: string;
    if imagePath.None? {
      assert images[0] in images;
      image :| image in images;
    } else if imagePath.value !in images {
      return Err("Image not found in theme");
    } else {
      image := imagePath.value;
    }
    r := Ok(FeedPlan(image, CaptionSource(pdfText), FeedOverlay(textOverlay, pdfText)));
  }

  // ---------------------------------------------------------------------------
  // Reels: choosing videos

  /** `videos * k` */
  function Repeat<T>(s: seq<T>, k: nat): (r: seq<T>)
    ensures |r| == k * |s|
  {
    if k == 0 then [] else Repeat(s, k - 1) + s
  }

  lemma {:induction false} RepeatAt<T>(s: seq<T>, k: nat, i: nat)
    requires i < k * |s|
    ensures Repeat(s, k)[i] == s[i % |s|]
  {
    assert k > 0 && |s| > 0;
    var before := (k - 1) * |s|;
    assert k * |s| == before + |s|;
    if i < before {
      RepeatAt(s, k - 1, i);
    } else {
      ModOffset(i - before, k - 1, |s|);
    }
  }

  lemma ModOffset(j: nat, q: nat, m: nat)
    requires j < m
    ensures (q * m + j) % m == j
  {
    var x := q * m + j;
    var d, r := x / m, x % m;
    assert x == d * m + r && 0 <= r < m;
    assert (d - q) * m == j - r;
    MulSmall(d - q, m);
  }

  lemma MulSmall(k: int, m: int)
    requires m > 0 && -m < k * m < m
    ensures k == 0
  {
  }

  /** `(videos * (n // len(videos) + 1))[:n]`: the videos taken cyclically
      until there are `n` of them. */
  function Cycle(videos: seq<string>, n: nat): (r: seq<string>)
    requires videos != []
    ensures |r| == n && forall i :: 0 <= i < n ==> r[i] == videos[i % |videos|]
  {
    var k := n / |videos| + 1;
    assert n < k * |videos| by {
      assert n == (n / |videos|) * |videos| + n % |videos|;
      assert k * |videos| == (n / |videos|) * |videos| + |videos|;
    }
    var r := Prefix(Repeat(videos, k), n);
    assert forall i :: 0 <= i < n ==> r[i] == videos[i % |videos|] by {
      forall i | 0 <= i < n ensures r[i] == videos[i % |videos|] {
        RepeatAt(videos, k, i);
      }
    }
    r
  }

  /** The video selection of `generate_reel`: the explicit list when one is
      given; otherwise the theme's videos cycled when there are fewer than
      `num_clips`, else `num_clips` of them sampled without replacement. */
  method SelectVideos(videos: seq<string>, videoPaths: Option<seq<string>>, numClips: int)
    returns (r: Result<seq<string>, string>)
    ensures videos == [] ==> r.Err?
    ensures videos != [] && videoPaths.Some? ==> r == Ok(videoPaths.value)
    ensures videos != [] && videoPaths.None? && |videos| < numClips ==> r == Ok(Cycle(videos, numClips))
    ensures videos != [] && videoPaths.None? && |videos| >= numClips ==>
              (r.Err? <==> numClips < 0) &&
              (r.Ok? ==> |r.value| == numClips && multiset(r.value) <= multiset(videos))
  {
    if videos == [] {
      return Err("No videos found in theme");
    }
    if videoPaths.Some? {
      return Ok(videoPaths.value);
    }
    if |videos| < numClips {
      return Ok(Cycle(videos, numClips));
    }
    if numClips < 0 {
      return Err("Sample larger than population or is negative");
    }
    assert videos == videos[..numClips] + videos[numClips..];
    assert multiset(videos[..numClips]) <= multiset(videos);
    var sample: seq<string> :| |sample| == numClips && multiset(sample) <= multiset(videos);
    r := Ok(sample);
  }

  /** A sample from distinct videos repeats none of them. */
  lemma SampleDistinct(videos: seq<string>, sample: seq<string>)
    requires forall i, j :: 0 <= i < j < |videos| ==> videos[i] != videos[j]
    requires multiset(sample) <= multiset(videos)
    ensures forall i, j :: 0 <= i < j < |sample| ==> sample[i] != sample[j]
  {
    forall i, j | 0 <= i < j < |sample| ensures sample[i] != sample[j] {
      if sample[i] == sample[j] {
        var x := sample[i];
        assert sample == sample[..i] + [x] + sample[i + 1..j] + [x] + sample[j + 1..];
        assert multiset(sample)[x] >= 2;
        CountAtMostOne(videos, x);
        assert false;
      }
    }
  }

  lemma {:induction false} CountAtMostOne(s: seq<string>, x: string)
    requires forall i, j :: 0 <= i < j < |s| ==> s[i] != s[j]
    ensures multiset(s)[x] <= 1
  {
    if s != [] {
      var t := s[1..];
      assert s == [s[0]] + t;
      assert forall i, j :: 0 <= i < j < |t| ==> t[i] != t[j] by {
        forall i, j | 0 <= i < j < |t| ensures t[i] != t[j] {
          assert t[i] == s[i + 1] && t[j] == s[j + 1];
        }
      }
      CountAtMostOne(t, x);
      if s[0] == x {
        assert forall k :: 0 <= k < |t| ==> t[k] == s[k + 1] && s[k + 1] != s[0];
        assert x !in t;
      }
    }
  }

  // ---------------------------------------------------------------------------
  // Reels: subtitles

  /** The slot each subtitle gets: 90 seconds shared among the clips, at
      most 10 each. */
  function SlotLength(numClips: int): real
    requires numClips != 0
  {
    MinReal(90.0 / (numClips as real), 10.0)
  }

  /** The subtitle for the `i`-th key point. */
  function Subtitle(point: string, i: nat, slot: real): VideoProcessor.Overlay
  {
    VideoProcessor.Overlay(Some(Prefix(point, 80)), Some(MinReal(slot - 1.0, 5.0)), Some("bottom"), Some(50),
                           Some(i as real * slot))
  }

  /** The key points that get a subtitle. */
  function SubtitledPoints(pdfText: string, numClips: int): seq<string>
  {
    Prefix(PdfProcessor.KeyPoints(pdfText, numClips), numClips)
  }

  /** The subtitle loop of `generate_reel`: no subtitles without PDF text;
      with text and no clips the slot length divides by zero. */
  method ReelOverlays(pdfText: string, numClips: int) returns (r: Result<seq<VideoProcessor.Overlay>, string>)
    ensures r.Err? <==> pdfText != "" && numClips == 0
    ensures pdfText == "" ==> r == Ok([])
    ensures r.Ok? && pdfText != "" ==>
              var points := SubtitledPoints(pdfText, numClips);
              |r.value| == |points| &&
              forall i :: 0 <= i < |points| ==> r.value[i] == Subtitle(points[i], i, SlotLength(numClips))
  {
    if pdfText == "" {
      return Ok([]);
    }
    if numClips == 0 {
      return Err("division by zero");
    }
    var overlays := Schedule(SubtitledPoints(pdfText, numClips), SlotLength(numClips));
    r := Ok(overlays);
  }

  /** The loop that turns the `i`-th key point into the `i`-th subtitle. */
  method Schedule(points: seq<string>, slot: real) returns (overlays: seq<VideoProcessor.Overlay>)
    ensures |overlays| == |points| && forall k :: 0 <= k < |points| ==> overlays[k] == Subtitle(points[k], k, slot)
  {
    overlays := [];
    var i := 0;
    while i < |points|
      invariant 0 <= i <= |points|
      invariant |overlays| == i && forall k :: 0 <= k < i ==> overlays[k] == Subtitle(points[k], k, slot)
    {
      overlays := overlays + [Subtitle(points[i], i, slot)];
      i := i + 1;
    }
  }

  /** What `generate_reel` hands to `create_reel` and the caption step: the
      chosen videos, the caption's source text, and the subtitles (None when
      there are none). */
  datatype ReelPlan = ReelPlan(videos: seq<string>, captionSource: string,
                               overlays: Option<seq<VideoProcessor.Overlay>>)

  /** The selection and subtitle steps of `generate_reel`; `videos` is the
      theme's `find_assets` result and `pdfText` is drawn as for a feed post.
      The plan is what `create_reel` is then called with. */
  method GenerateReel(videos: seq<string>, videoPaths: Option<seq<string>>, numClips: int, pdfText: string)
    returns (r: Result<ReelPlan, string>)
    ensures r.Ok? <==> videos != [] && !(pdfText != "" && numClips == 0) &&
                       (videoPaths.Some? || |videos| < numClips || numClips >= 0)
    ensures r.Ok? ==> r.value.captionSource == CaptionSource(pdfText)
    ensures r.Ok? && videoPaths.Some? ==> r.value.videos == videoPaths.value
    ensures r.Ok? && videoPaths.None? && |videos| < numClips ==> r.value.videos == Cycle(videos, numClips)
    ensures r.Ok? && videoPaths.None? && |videos| >= numClips ==>
              |r.value.videos| == numClips && multiset(r.value.videos) <= multiset(videos)
    ensures r.Ok? && videoPaths.None? ==> forall v :: v in r.value.videos ==> v in videos
    ensures r.Ok? ==> (r.value.overlays.None? <==> pdfText == "" || SubtitledPoints(pdfText, numClips) == [])
    ensures r.Ok? && r.value.overlays.Some? ==>
              var points := SubtitledPoints(pdfText, numClips);
              |r.value.overlays.value| == |points| &&
              forall i :: 0 <= i < |points| ==>
                r.value.overlays.value[i] == Subtitle(points[i], i, SlotLength(numClips))
  {
    var selected := SelectVideos(videos, videoPaths, numClips);
    if selected.Err? {
      return Err(selected.error);
    }
    if videoPaths.None? && |videos| >= numClips {
      assert forall v :: v in selected.value ==> v in multiset(videos);
    }
    var overlays := ReelOverlays(pdfText, numClips);
    if overlays.Err? {
      return Err(overlays.error);
    }
    var subtitles: Option<seq<VideoProcessor.Overlay>> := if overlays.value != [] then Some(overlays.value) else None;
    r := Ok(ReelPlan(selected.value, CaptionSource(pdfText), subtitles));
  }

  /** With a positive clip count there are at most `num_clips` subtitles,
      each at most 80 characters of a key point, shown at the bottom in size
      50; each one ends before the next begins, and the last ends by 89
      seconds. */
  lemma SubtitleSchedule(pdfText: string, numClips: int)
    requires numClips > 0
    ensures |SubtitledPoints(pdfText, numClips)| <= numClips
    ensures var points := SubtitledPoints(pdfText, numClips);
            forall i :: 0 <= i < |points| ==>
              var o := Subtitle(points[i], i, SlotLength(numClips));
              |o.text.value| <= 80 && o.text.value <= points[i] &&
              o.position == Some("bottom") && o.fontSize == Some(50) &&
              o.start.value + o.duration.value < (i + 1) as real * SlotLength(numClips) &&
              o.start.value + o.duration.value <= 89.0
  {
    var points := SubtitledPoints(pdfText, numClips);
    assert |points| <= numClips;
    forall i | 0 <= i < |points| {
      SubtitleFacts(points[i], i, numClips);
    }
  }

  lemma SubtitleFacts(point: string, i: nat, numClips: int)
    requires 0 <= i < numClips
    ensures var o := Subtitle(point, i, SlotLength(numClips));
            |o.text.value| <= 80 && o.text.value <= point &&
            o.position == Some("bottom") && o.fontSize == Some(50) &&
            o.start.value + o.duration.value < (i + 1) as real * SlotLength(numClips) &&
            o.start.value + o.duration.value <= 89.0
  {
    SlotArithmetic(numClips, i);
  }

  /** Slot `i` of `n` starts at `i * slot`; its subtitle ends before slot
      `i + 1` starts and by 89 seconds. */
  lemma SlotArithmetic(n: int, i: nat)
    requires 0 <= i < n
    ensures var slot := SlotLength(n);
            (i as real) * slot + MinReal(slot - 1.0, 5.0) < ((i + 1) as real) * slot &&
            (i as real) * slot + MinReal(slot - 1.0, 5.0) <= 89.0
  {
    var nr := n as real;
    var slot := SlotLength(n);
    assert slot * nr <= 90.0 by {
      assert (90.0 / nr) * nr == 90.0;
      if slot < 90.0 / nr {
        assert slot * nr < (90.0 / nr) * nr;
      }
    }
    assert ((i + 1) as real) * slot == (i as real) * slot + slot;
    assert slot > 0.0;
    assert ((i + 1) as real) * slot <= nr * slot by {
      assert (nr - (i + 1) as real) * slot >= 0.0;
    }
    var end := (i as real) * slot + MinReal(slot - 1.0, 5.0);
    assert end <= (i as real) * slot + slot - 1.0;
    assert end < ((i + 1) as real) * slot;
    assert end <= 89.0;
  }
}
