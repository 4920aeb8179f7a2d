/** Image-request shaping in backend/server.py: the output-size priority
    chain of `generate_image` and the brand-aware prompt assembly of
    `build_brand_enhanced_prompt`. */
module Images {
  import opened Wrappers
  import Text
  import Lists

  /** The sizes the image model accepts. */
  const VALID_IMAGE_SIZES: seq<string> := ["1024x1024", "1024x1536", "1536x1024", "auto"]

  const ASPECT_RATIO_TO_SIZE: map<string, string> :=
    map["1:1" := "1024x1024", "9:16" := "1024x1536", "16:9" := "1536x1024"]

  datatype PlatformSpec = PlatformSpec(size: string, aspect: string, name: string)

  const PLATFORM_SPECS: map<string, PlatformSpec> := map[
    "instagram" := PlatformSpec("1024x1024", "1:1", "Instagram"),
    "tiktok" := PlatformSpec("1024x1536", "9:16", "TikTok"),
    "youtube" := PlatformSpec("1536x1024", "16:9", "YouTube"),
    "telegram" := PlatformSpec("1536x1024", "16:9", "Telegram"),
    "email" := PlatformSpec("1024x1024", "1:1", "Email")
  ]

  const DEFAULT_SIZE: string := "1024x1024"

  /** Python truthiness of an optional string: present and non-empty. */
  predicate Given(x: Option<string>) {
    x.Some? && x.value != ""
  }

  /** The size and aspect ratio sent to the image model. */
  datatype ImageShape = ImageShape(size: string, aspect: string)

  /** Size selection in `generate_image`: a known marketing platform decides
      both size and aspect; otherwise a known aspect ratio decides the size;
      otherwise a valid explicit size is used; otherwise 1024x1024. The
      aspect reported is the request's (or "1:1") unless a platform decided it. */
  function SelectImageSize(platform: Option<string>, aspectRatio: Option<string>, size: Option<string>): (r: ImageShape)
    ensures r.size in VALID_IMAGE_SIZES
    // priority 1: a known platform
    ensures Given(platform) && platform.value in PLATFORM_SPECS ==>
      r == ImageShape(PLATFORM_SPECS[platform.value].size, PLATFORM_SPECS[platform.value].aspect)
    // priority 2: a known aspect ratio
    ensures !(Given(platform) && platform.value in PLATFORM_SPECS) && Given(aspectRatio) && aspectRatio.value in ASPECT_RATIO_TO_SIZE ==>
      r == ImageShape(ASPECT_RATIO_TO_SIZE[aspectRatio.value], aspectRatio.value)
    // priority 3 and 4: a valid explicit size, else the default; the aspect falls back to "1:1"
    ensures !(Given(platform) && platform.value in PLATFORM_SPECS) && !(Given(aspectRatio) && aspectRatio.value in ASPECT_RATIO_TO_SIZE) ==>
      && r.aspect == StrOr(aspectRatio, "1:1")
      && r.size == (if Given(size) && size.value in VALID_IMAGE_SIZES then size.value else DEFAULT_SIZE)
  {
    var aspect := StrOr(aspectRatio, "1:1");
    var chosen :=
      if Given(platform) && platform.value in PLATFORM_SPECS then
        ImageShape(PLATFORM_SPECS[platform.value].size, PLATFORM_SPECS[platform.value].aspect)
      else if Given(aspectRatio) && aspectRatio.value in ASPECT_RATIO_TO_SIZE then
        ImageShape(ASPECT_RATIO_TO_SIZE[aspectRatio.value], aspect)
      else if Given(size) && size.value in VALID_IMAGE_SIZES then
        ImageShape(size.value, aspect)
      else
        ImageShape(DEFAULT_SIZE, aspect);
    // the final validity check of the source: never taken
    if chosen.size !in VALID_IMAGE_SIZES then ImageShape(DEFAULT_SIZE, "1:1") else chosen
  }

  /** Whenever a platform or a known ratio decided the shape, size and
      aspect agree: the size is the one the ratio table gives for the aspect.
      So every platform's own size matches its declared aspect. */
  lemma {:induction false} SizeMatchesAspect(platform: Option<string>, aspectRatio: Option<string>, size: Option<string>)
    requires (Given(platform) && platform.value in PLATFORM_SPECS) || (Given(aspectRatio) && aspectRatio.value in ASPECT_RATIO_TO_SIZE)
    ensures var r := SelectImageSize(platform, aspectRatio, size);
      r.aspect in ASPECT_RATIO_TO_SIZE && ASPECT_RATIO_TO_SIZE[r.aspect] == r.size
  {
    if Given(platform) && platform.value in PLATFORM_SPECS {
      var p := platform.value;
      assert p == "instagram" || p == "tiktok" || p == "youtube" || p == "telegram" || p == "email";
    }
  }

  /** The stored brand profile fields the prompt builder reads; an absent
      field and an empty one are alike to it. */
  datatype BrandProfile = BrandProfile(
    brandName: Option<string>,
    primaryColors: seq<string>,
    preferredStyles: seq<string>,
    brandMood: seq<string>,
    businessType: Option<string>)

  /** The clauses of the prompt, in order, before joining. */
  function PromptParts(base: string, profile: Option<BrandProfile>, platform: Option<string>): (r: seq<string>)
    ensures |r| >= 1 && r[0] == base
    ensures |r| <= 7
    ensures profile.None? && !(Given(platform) && platform.value in PLATFORM_SPECS) ==> r == [base]
    ensures profile.Some? && Given(profile.value.brandName) ==> |r| >= 2 && r[1] == "for " + profile.value.brandName.value + " brand"
    ensures Given(platform) && platform.value in PLATFORM_SPECS ==>
      r[|r| - 1] == "optimized for " + PLATFORM_SPECS[platform.value].name + ", " + PLATFORM_SPECS[platform.value].aspect + " aspect ratio"
  {
    var brand :=
      if profile.None? then []
      else
        var p := profile.value;
        (if Given(p.brandName) then ["for " + p.brandName.value + " brand"] else [])
        + (if |p.primaryColors| > 0 then ["using brand colors: " + Text.Join(Lists.Take(p.primaryColors, 3), ", ")] else [])
        + (if |p.preferredStyles| > 0 then ["style: " + Text.Join(Lists.Take(p.preferredStyles, 3), ", ")] else [])
        + (if |p.brandMood| > 0 then ["atmosphere: " + Text.Join(Lists.Take(p.brandMood, 3), ", ")] else [])
        + (if Given(p.businessType) then ["for " + p.businessType.value + " business"] else []);
    var hint :=
      if Given(platform) && platform.value in PLATFORM_SPECS then
        var spec := PLATFORM_SPECS[platform.value];
        ["optimized for " + spec.name + ", " + spec.aspect + " aspect ratio"]
      else [];
    [base] + brand + hint
  }

  /** `build_brand_enhanced_prompt(base_prompt, brand_profile, platform)`:
      the clauses joined with ". ". */
  function BuildBrandEnhancedPrompt(base: string, profile: Option<BrandProfile>, platform: Option<string>): (r: string)
    ensures base <= r
    ensures profile.None? && !(Given(platform) && platform.value in PLATFORM_SPECS) ==> r == base
  {
    var parts := PromptParts(base, profile, platform);
    JoinStartsWithFirst(parts, ". ");
    Text.Join(parts, ". ")
  }

  lemma JoinStartsWithFirst(parts: seq<string>, sep: string)
    requires |parts| >= 1
    ensures parts[0] <= Text.Join(parts, sep)
  {
  }

  /** Only the first three colours, styles and moods reach the prompt: a
      profile and its three-per-list truncation give the same prompt. */
  lemma OnlyFirstThreeCount(base: string, p: BrandProfile, platform: Option<string>)
    ensures
      var cut := p.(primaryColors := Lists.Take(p.primaryColors, 3),
                    preferredStyles := Lists.Take(p.preferredStyles, 3),
                    brandMood := Lists.Take(p.brandMood, 3));
      BuildBrandEnhancedPrompt(base, Some(cut), platform) == BuildBrandEnhancedPrompt(base, Some(p), platform)
  {
    var cut := p.(primaryColors := Lists.Take(p.primaryColors, 3),
                  preferredStyles := Lists.Take(p.preferredStyles, 3),
                  brandMood := Lists.Take(p.brandMood, 3));
    TakeTwice(p.primaryColors);
    TakeTwice(p.preferredStyles);
    TakeTwice(p.brandMood);
    assert PromptParts(base, Some(cut), platform) == PromptParts(base, Some(p), platform);
  }

  lemma TakeTwice(s: seq<string>)
    ensures Lists.Take(Lists.Take(s, 3), 3) == Lists.Take(s, 3)
    ensures |Lists.Take(s, 3)| > 0 <==> |s| > 0
  {
  }
}
