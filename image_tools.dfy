/**
 * Size and prompt selection for generated social-media images
 * (backend/app/tools/image_tools.py): a content type and a platform, compared
 * case-insensitively, pick one of the three DALL-E 3 sizes and a prompt; the
 * request is validated before any call to the image API, which is not part
 * of this model.
 */
module ImageTools {

  import opened Text

  const Square: string := "1024x1024"
  const Vertical: string := "1024x1792"
  const Landscape: string := "1792x1024"

  /** `CONTENT_TYPE_SIZES` */
  const ContentTypeSizes: map<string, string> := map[
    "post" := Square,
    "story" := Vertical,
    "reel_cover" := Vertical,
    "youtube_thumbnail" := Landscape,
    "carousel_slide" := Square]

  /** `PLATFORM_SIZE_OVERRIDES` */
  const PlatformSizeOverrides: map<string, map<string, string>> := map[
    "instagram" := map["post" := Square, "story" := Vertical, "reel_cover" := Vertical, "carousel_slide" := Square],
    "tiktok" := map["post" := Vertical, "story" := Vertical, "reel_cover" := Vertical],
    "youtube" := map["post" := Landscape, "youtube_thumbnail" := Landscape, "reel_cover" := Vertical],
    "linkedin" := map["post" := Square, "carousel_slide" := Square],
    "twitter" := map["post" := Landscape],
    "facebook" := map["post" := Landscape, "story" := Vertical],
    "pinterest" := map["post" := Vertical]]

  /** `VALID_SIZES` */
  const ValidSizes: set<string> := {Square, Vertical, Landscape}

  /** `VALID_STYLES` */
  const ValidStyles: set<string> := {"vivid", "natural"}

  /**
   * `_resolve_size`: the platform's override for the content type when the
   * platform lists one, else the general size of the content type, else square.
   */
  function ResolveSize(contentType: string, platform: string): (size: string)
    ensures size in ValidSizes
  {
    var p, c := Lower(platform), Lower(contentType);
    if p in PlatformSizeOverrides && c in PlatformSizeOverrides[p] then PlatformSizeOverrides[p][c]
    else if c in ContentTypeSizes then ContentTypeSizes[c]
    else Square
  }

  /** Both arguments are compared case-insensitively. */
  lemma ResolveSizeIgnoresCase(c1: string, c2: string, p1: string, p2: string)
    requires Lower(c1) == Lower(c2) && Lower(p1) == Lower(p2)
    ensures ResolveSize(c1, p1) == ResolveSize(c2, p2)
  {
  }

  /** A platform's override wins over the general size of the content type. */
  lemma ResolveSizeOverride(contentType: string, platform: string)
    requires Lower(platform) in PlatformSizeOverrides
    requires Lower(contentType) in PlatformSizeOverrides[Lower(platform)]
    ensures ResolveSize(contentType, platform) == PlatformSizeOverrides[Lower(platform)][Lower(contentType)]
  {
  }

  /** Without an override the general size applies, and an unknown content type is square on every platform. */
  lemma ResolveSizeFallback(contentType: string, platform: string)
    requires Lower(platform) !in PlatformSizeOverrides || Lower(contentType) !in PlatformSizeOverrides[Lower(platform)]
    ensures Lower(contentType) in ContentTypeSizes ==> ResolveSize(contentType, platform) == ContentTypeSizes[Lower(contentType)]
    ensures Lower(contentType) !in ContentTypeSizes ==> ResolveSize(contentType, platform) == Square
  {
  }

  /** Every override table lists only known content types. */
  lemma OverridesListKnownTypes()
    ensures forall p, c :: p in PlatformSizeOverrides && c in PlatformSizeOverrides[p] ==> c in ContentTypeSizes
  {
    forall p, c | p in PlatformSizeOverrides && c in PlatformSizeOverrides[p]
      ensures c in ContentTypeSizes
    {
      assert p in {"instagram", "tiktok", "youtube", "linkedin", "twitter", "facebook", "pinterest"};
    }
  }

  /** An unknown content type is square whatever the platform. */
  lemma UnknownContentTypeSquare(contentType: string, platform: string)
    requires Lower(contentType) !in ContentTypeSizes
    ensures ResolveSize(contentType, platform) == Square
  {
    OverridesListKnownTypes();
  }

  /** Stories and reel covers are vertical and thumbnails landscape on every platform. */
  lemma OrientationFixedByType(platform: string)
    ensures ResolveSize("story", platform) == Vertical
    ensures ResolveSize("reel_cover", platform) == Vertical
    ensures ResolveSize("youtube_thumbnail", platform) == Landscape
  {
    assert Lower("story") == "story";
    assert Lower("reel_cover") == "reel_cover";
    assert Lower("youtube_thumbnail") == "youtube_thumbnail";
    var p := Lower(platform);
    if p in PlatformSizeOverrides {
      assert p in {"instagram", "tiktok", "youtube", "linkedin", "twitter", "facebook", "pinterest"};
    }
  }

  /** `style_hints` in `_build_social_media_prompt`. */
  const StyleHints: map<string, string> := map[
    "post" :=
      "Professional social media post image. Clean composition with space "
      + "for text overlay. Vibrant colors, high contrast, visually engaging. "
      + "No text or letters in the image.",
    "story" :=
      "Vertical format image for social media story. Full-bleed composition, "
      + "bold visuals, eye-catching. Leave space at top and bottom for UI elements. "
      + "No text or letters in the image.",
    "reel_cover" :=
      "Vertical cover image for short-form video. Dynamic, attention-grabbing "
      + "composition. Bold colors, clear focal point in the center. "
      + "No text or letters in the image.",
    "youtube_thumbnail" :=
      "YouTube thumbnail style image. High contrast, dramatic lighting, "
      + "bold composition. Clear focal point, vibrant saturated colors. "
      + "Leave space on the right side for text overlay. "
      + "No text or letters in the image.",
    "carousel_slide" :=
      "Clean, professional slide image for a carousel post. Consistent style, "
      + "balanced composition with space for text overlay. Modern and polished. "
      + "No text or letters in the image."]

  /** `platform_hints` in `_build_social_media_prompt`. */
  const PlatformHints: map<string, string> := map[
    "instagram" := "Modern, aesthetic, Instagram-worthy visual style.",
    "tiktok" := "Bold, trendy, Gen-Z friendly visual style with high energy.",
    "youtube" := "Professional, high-quality, cinematic visual style.",
    "linkedin" := "Corporate-friendly, professional, clean visual style.",
    "twitter" := "Eye-catching, shareable, clean visual style.",
    "facebook" := "Engaging, warm, community-friendly visual style.",
    "pinterest" := "Aspirational, beautiful, Pinterest-optimized visual style."]

  const PromptSuffix: string := "Professional photography quality, studio lighting, 8K detail."

  /** The content hint, falling back to the hint for "post". */
  function ContentHint(contentType: string): (h: string)
    ensures Lower(contentType) in StyleHints ==> h == StyleHints[Lower(contentType)]
    ensures Lower(contentType) !in StyleHints ==> h == StyleHints["post"]
  {
    var c := Lower(contentType);
    if c in StyleHints then StyleHints[c] else StyleHints["post"]
  }

  /** The platform hint, falling back to the empty string. */
  function PlatformHint(platform: string): (h: string)
    ensures Lower(platform) in PlatformHints ==> h == PlatformHints[Lower(platform)]
    ensures Lower(platform) !in PlatformHints ==> h == ""
  {
    var p := Lower(platform);
    if p in PlatformHints then PlatformHints[p] else ""
  }

  /** `s` occurs in `t` at position `i`. */
  predicate OccursAt(s: string, t: string, i: nat) {
    i + |s| <= |t| && t[i..i + |s|] == s
  }

  /**
   * `_build_social_media_prompt`: the content hint, the platform hint, the
   * description and the photographic suffix. The prompt starts with the
   * content hint, ends with the suffix, and always carries the description.
   */
  function BuildPrompt(contentType: string, description: string, platform: string): (prompt: string)
    ensures StartsWith(prompt, ContentHint(contentType) + " ")
    ensures OccursAt(PlatformHint(platform) + " ", prompt, |ContentHint(contentType)| + 1)
    ensures OccursAt("Description: " + description + ". ", prompt, |ContentHint(contentType)| + |PlatformHint(platform)| + 2)
    ensures |prompt| >= |PromptSuffix| && prompt[|prompt| - |PromptSuffix|..] == PromptSuffix
  {
    var hint := ContentHint(contentType) + " ";
    var rest := PlatformHint(platform) + " ";
    var middle := "Description: " + description + ". ";
    FourParts(hint, rest, middle, PromptSuffix);
    hint + rest + middle + PromptSuffix
  }

  /** Where each part of a four-part concatenation sits. */
  lemma FourParts(a: string, b: string, c: string, d: string)
    ensures StartsWith(a + b + c + d, a)
    ensures OccursAt(b, a + b + c + d, |a|)
    ensures OccursAt(c, a + b + c + d, |a| + |b|)
    ensures (a + b + c + d)[|a + b + c + d| - |d|..] == d
  {
    var s := a + b + c + d;
    assert s[..|a|] == a;
    assert s[|a|..|a| + |b|] == b;
    assert s[|a| + |b|..|a| + |b| + |c|] == c;
    assert s[|s| - |d|..] == d;
  }

  /** What an image tool hands to the image API, or why it refused before calling it. */
  datatype ImageRequest =
    | InvalidSize(size: string)
    | InvalidStyle(style: string)
    | InvalidContentType(contentType: string)
    | InvalidPlatform(platform: string)
    | Generate(prompt: string, size: string, style: string)

  /** The guards of `_generate_image_core`: size first, then style. */
  function GenerateImageCore(prompt: string, size: string, style: string): (r: ImageRequest)
    ensures r.Generate? <==> size in ValidSizes && style in ValidStyles
    ensures size !in ValidSizes ==> r == InvalidSize(size)
    ensures size in ValidSizes && style !in ValidStyles ==> r == InvalidStyle(style)
    ensures r.Generate? ==> r == Generate(prompt, size, style)
  {
    if size !in ValidSizes then InvalidSize(size)
    else if style !in ValidStyles then InvalidStyle(style)
    else Generate(prompt, size, style)
  }

  /**
   * `generate_social_media_image`: reject an unknown content type, then an
   * unknown platform (both lower-cased), then resolve the size, build the
   * prompt and use the "vivid" style.
   */
  function GenerateSocialMediaImage(contentType: string, description: string, platform: string): (r: ImageRequest)
    ensures Lower(contentType) !in ContentTypeSizes ==> r == InvalidContentType(contentType)
    ensures Lower(contentType) in ContentTypeSizes && Lower(platform) !in PlatformSizeOverrides ==> r == InvalidPlatform(platform)
  {
    var c, p := Lower(contentType), Lower(platform);
    if c !in ContentTypeSizes then InvalidContentType(contentType)
    else if p !in PlatformSizeOverrides then InvalidPlatform(platform)
    else GenerateImageCore(BuildPrompt(c, description, p), ResolveSize(c, p), "vivid")
  }

  /**
   * A known content type on a known platform always reaches the image API,
   * with the resolved size, the "vivid" style and a prompt carrying the
   * description.
   */
  lemma SocialMediaImageGenerates(contentType: string, description: string, platform: string)
    requires Lower(contentType) in ContentTypeSizes && Lower(platform) in PlatformSizeOverrides
    ensures GenerateSocialMediaImage(contentType, description, platform)
         == Generate(BuildPrompt(contentType, description, platform), ResolveSize(contentType, platform), "vivid")
  {
    LowerIdempotent(contentType);
    LowerIdempotent(platform);
  }
}
