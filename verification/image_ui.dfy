/** The image page of frontend/src/pages/ImageGenerator.js: the platform or
    custom aspect-ratio picker, the batch platform list, and the checks made
    before a single or batch request is sent. */
module ImageUi {
  import opened Wrappers
  import Lists
  import Text
  import Images

  /** The page's platform presets and the ratio each one implies. */
  const PLATFORM_RATIOS: map<string, string> := map[
    "instagram" := "1:1", "tiktok" := "9:16", "youtube" := "16:9",
    "telegram" := "16:9", "email" := "1:1"]

  /** The ratios offered in custom mode. */
  const ASPECT_RATIOS: seq<string> := ["1:1", "9:16", "16:9"]

  /** The picker state: the selected platform, whether custom mode is on,
      the selected ratio, and the platforms ticked for a batch. */
  datatype ImageForm = ImageForm(platform: Option<string>, custom: bool, ratio: string, batch: seq<string>)

  const INITIAL_FORM: ImageForm := ImageForm(None, false, "1:1", [])

  /** `getCurrentRatio()`. */
  function CurrentRatio(f: ImageForm): (r: string)
    ensures f.custom ==> r == f.ratio
    ensures !f.custom && f.platform.Some? && f.platform.value in PLATFORM_RATIOS ==> r == PLATFORM_RATIOS[f.platform.value]
    ensures !f.custom && !(f.platform.Some? && f.platform.value in PLATFORM_RATIOS) ==> r == "1:1"
  {
    if f.custom then f.ratio
    else if Images.Given(f.platform) then
      if f.platform.value in PLATFORM_RATIOS then PLATFORM_RATIOS[f.platform.value] else "1:1"
    else "1:1"
  }

  /** `handlePlatformSelect(platformId)`: a second click deselects; a new
      platform also sets the ratio to its own. */
  function SelectPlatform(f: ImageForm, id: string): (r: ImageForm)
    ensures f.platform == Some(id) ==> r == f.(platform := None)
    ensures f.platform != Some(id) ==> r.platform == Some(id) && r.custom == f.custom && r.batch == f.batch
    ensures f.platform != Some(id) && id in PLATFORM_RATIOS ==> r.ratio == PLATFORM_RATIOS[id]
    ensures f.platform != Some(id) && id !in PLATFORM_RATIOS ==> r.ratio == f.ratio
  {
    if f.platform == Some(id) then f.(platform := None)
    else if id in PLATFORM_RATIOS then f.(platform := Some(id), ratio := PLATFORM_RATIOS[id])
    else f.(platform := Some(id))
  }

  /** Clicking the same platform twice leaves none selected. */
  lemma SelectTwiceDeselects(f: ImageForm, id: string)
    requires f.platform != Some(id)
    ensures SelectPlatform(SelectPlatform(f, id), id).platform.None?
  {
  }

  /** `handleCustomModeToggle(enabled)`: turning custom mode on clears the
      platform; turning it off keeps it. */
  function SetCustomMode(f: ImageForm, enabled: bool): (r: ImageForm)
    ensures r.custom == enabled && r.ratio == f.ratio && r.batch == f.batch
    ensures enabled ==> r.platform.None?
    ensures !enabled ==> r.platform == f.platform
  {
    if enabled then f.(custom := true, platform := None) else f.(custom := false)
  }

  /** Leaving custom mode after entering it shows the square default,
      whatever was picked before. */
  lemma CustomRoundTripShowsSquare(f: ImageForm)
    ensures CurrentRatio(SetCustomMode(SetCustomMode(f, true), false)) == "1:1"
  {
  }

  /** `toggleBatchPlatform(platformId)`: only the batch list changes, and
      only in whether it holds `id`. */
  function ToggleBatchPlatform(f: ImageForm, id: string): (r: ImageForm)
    ensures r.platform == f.platform && r.custom == f.custom && r.ratio == f.ratio
    ensures id in r.batch <==> id !in f.batch
    ensures forall p | p != id :: (p in r.batch <==> p in f.batch)
  {
    f.(batch := Lists.Toggle(f.batch, id))
  }

  /** A click the page can receive: platform buttons are shown outside
      custom mode, ratio buttons inside it, and both lists are fixed. */
  datatype Click =
    | PlatformButton(id: string)
    | CustomSwitch(enabled: bool)
    | RatioButton(ratio: string)
    | BatchButton(id: string)

  function Apply(f: ImageForm, c: Click): ImageForm {
    match c
    case PlatformButton(id) => if !f.custom && id in PLATFORM_RATIOS then SelectPlatform(f, id) else f
    case CustomSwitch(enabled) => SetCustomMode(f, enabled)
    case RatioButton(ratio) => if f.custom && ratio in ASPECT_RATIOS then f.(ratio := ratio) else f
    case BatchButton(id) => ToggleBatchPlatform(f, id)
  }

  /** The states the page can reach: custom mode has no platform, the ratio
      is one the page offers and a platform is one of the presets. */
  predicate Reachable(f: ImageForm) {
    && (f.custom ==> f.platform.None?)
    && f.ratio in ASPECT_RATIOS
    && (f.platform.Some? ==> f.platform.value in PLATFORM_RATIOS)
  }

  function ApplyAll(f: ImageForm, clicks: seq<Click>): (r: ImageForm)
    requires Reachable(f)
    ensures Reachable(r)
    decreases |clicks|
  {
    if |clicks| == 0 then f
    else
      ApplyKeepsReachable(f, clicks[0]);
      ApplyAll(Apply(f, clicks[0]), clicks[1..])
  }

  lemma ApplyKeepsReachable(f: ImageForm, c: Click)
    requires Reachable(f)
    ensures Reachable(Apply(f, c))
  {
    if c.PlatformButton? && c.id in PLATFORM_RATIOS {
      var id := c.id;
      assert id == "instagram" || id == "tiktok" || id == "youtube" || id == "telegram" || id == "email";
    }
  }

  /** The single-image request body's shape fields. */
  datatype ImageRequest = ImageRequest(prompt: string, style: string, useBrandStyle: bool, platform: Option<string>, aspectRatio: string)

  /** `handleGenerate`: nothing is sent for a blank prompt. */
  function SingleRequest(prompt: string, style: string, useBrandStyle: bool, hasBrandProfile: bool, f: ImageForm): (r: Option<ImageRequest>)
    ensures r.None? <==> Text.IsBlank(prompt)
    ensures r.Some? ==> r.value.aspectRatio == CurrentRatio(f) && r.value.platform == f.platform && r.value.prompt == prompt
    ensures r.Some? ==> (r.value.useBrandStyle <==> useBrandStyle && hasBrandProfile)
  {
    if Text.IsBlank(prompt) then None
    else Some(ImageRequest(prompt, style, useBrandStyle && hasBrandProfile, f.platform, CurrentRatio(f)))
  }

  datatype BatchRequest = BatchRequest(prompt: string, platforms: seq<string>, useBrandStyle: bool)

  /** `handleBatchGenerate`: nothing is sent for a blank prompt or an empty
      platform list. */
  function BatchRequestFor(prompt: string, useBrandStyle: bool, hasBrandProfile: bool, f: ImageForm): (r: Option<BatchRequest>)
    ensures r.None? <==> Text.IsBlank(prompt) || |f.batch| == 0
    ensures r.Some? ==> r.value.platforms == f.batch && |r.value.platforms| > 0
  {
    if Text.IsBlank(prompt) then None
    else if |f.batch| == 0 then None
    else Some(BatchRequest(prompt, f.batch, useBrandStyle && hasBrandProfile))
  }

  /** The page and the server agree on the picture's shape: in every state
      the page can reach, the size the server chooses for a request is the
      one the server pairs with the ratio the page shows. */
  lemma {:induction false} PageAndServerAgree(clicks: seq<Click>, prompt: string, style: string, useBrandStyle: bool, hasBrandProfile: bool)
    requires !Text.IsBlank(prompt)
    ensures var f := ApplyAll(INITIAL_FORM, clicks);
      var req := SingleRequest(prompt, style, useBrandStyle, hasBrandProfile, f).value;
      var shape := Images.SelectImageSize(req.platform, Some(req.aspectRatio), Some(Images.DEFAULT_SIZE));
      && shape.aspect == CurrentRatio(f)
      && shape.size == Images.ASPECT_RATIO_TO_SIZE[CurrentRatio(f)]
  {
    var f := ApplyAll(INITIAL_FORM, clicks);
    assert Reachable(f);
    if f.platform.Some? {
      var id := f.platform.value;
      assert id == "instagram" || id == "tiktok" || id == "youtube" || id == "telegram" || id == "email";
    } else {
      assert f.ratio == "1:1" || f.ratio == "9:16" || f.ratio == "16:9";
    }
  }
}
