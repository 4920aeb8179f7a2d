/** The text generator page of frontend/src/pages/ContentGenerator.js: the
    per-tab validation and the request body built in `handleGenerate`, the
    watermark added on copy, and the remaining-generations counter. */
module ContentRequest {
  import opened Wrappers
  import Text
  import Pricing

  /** The active tab. `Other` is whatever else the `?tab=` query parameter
      named: the page keeps it as the active tab and sends it as the
      content type. */
  datatype Tab = SocialPost | VideoIdea | ProductDescription | Other(name: string) {
    /** The `content_type` sent for the tab. */
    function Name(): string {
      match this
      case SocialPost => "social_post"
      case VideoIdea => "video_idea"
      case ProductDescription => "product_description"
      case Other(name) => name
    }
  }

  /** `searchParams.get('tab') || 'social_post'`: the initial tab. */
  function TabFromUrl(param: Option<string>): (r: Tab)
    ensures param.None? || param == Some("") ==> r == SocialPost
    ensures param.Some? && param.value != "" ==> r.Name() == param.value
    ensures r.Other? <==> param.Some? && param.value !in {"", "social_post", "video_idea", "product_description"}
  {
    match param
    case None => SocialPost
    case Some(p) =>
      if p == "" || p == "social_post" then SocialPost
      else if p == "video_idea" then VideoIdea
      else if p == "product_description" then ProductDescription
      else Other(p)
  }

  /** The form fields `handleGenerate` reads. */
  datatype ContentForm = ContentForm(
    topic: string,
    platform: string,
    tone: string,
    targetAudience: string,
    includeHashtags: bool,
    postGoal: string,
    niche: string,
    videoGoal: string,
    productName: string,
    keyBenefits: string)

  /** The request body; a field the tab does not send and a field sent as
      null are both `None`. */
  datatype GenerateRequest = GenerateRequest(
    contentType: string,
    tone: string,
    targetAudience: Option<string>,
    language: string,
    topic: Option<string>,
    platform: Option<string>,
    includeHashtags: Option<bool>,
    postGoal: Option<string>,
    niche: Option<string>,
    goal: Option<string>,
    productName: Option<string>,
    keyBenefits: Option<string>)

  /** The field each known tab insists on; an unknown tab checks nothing. */
  function RequiredField(tab: Tab, f: ContentForm): Option<string> {
    match tab
    case SocialPost => Some(f.topic)
    case VideoIdea => Some(f.niche)
    case ProductDescription => Some(f.productName)
    case Other(_) => None
  }

  /** `x || null` on a string field. */
  function NonEmpty(s: string): (r: Option<string>)
    ensures r.None? <==> s == ""
    ensures r.Some? ==> r.value == s
  {
    if s == "" then None else Some(s)
  }

  /** `handleGenerate(regenerate, modifier)`: `None` when validation stops
      it, else the body posted. */
  function BuildRequest(tab: Tab, f: ContentForm, modifier: Option<string>, outputLanguage: string): (r: Option<GenerateRequest>)
    // validation: only the tab's own required field matters
    ensures r.None? <==> RequiredField(tab, f).Some? && Text.IsBlank(RequiredField(tab, f).value)
    ensures r.Some? ==>
      var q := r.value;
      && q.contentType == tab.Name()
      && q.language == outputLanguage
      // the "selling" regeneration overrides the tone
      && q.tone == (if modifier == Some("selling") then "selling" else f.tone)
      && (q.targetAudience.None? <==> f.targetAudience == "")
      // a known tab's request carries its required field as the topic;
      // an unknown tab's carries none
      && q.topic == RequiredField(tab, f)
    ensures r.Some? && tab == SocialPost ==>
      && r.value.platform == Some(f.platform)
      && r.value.includeHashtags == Some(f.includeHashtags)
      && (r.value.postGoal.None? <==> f.postGoal == "none")
      && r.value.niche.None? && r.value.goal.None? && r.value.productName.None? && r.value.keyBenefits.None?
    ensures r.Some? && tab == VideoIdea ==>
      && r.value.niche == Some(f.niche) && r.value.goal == Some(f.videoGoal)
      && r.value.platform.None? && r.value.postGoal.None? && r.value.productName.None?
    ensures r.Some? && tab == ProductDescription ==>
      && r.value.productName == Some(f.productName)
      && (r.value.keyBenefits.None? <==> f.keyBenefits == "")
      && r.value.platform.None? && r.value.niche.None? && r.value.goal.None?
    ensures r.Some? && tab.Other? ==>
      && r.value.platform.None? && r.value.includeHashtags.None? && r.value.postGoal.None?
      && r.value.niche.None? && r.value.goal.None? && r.value.productName.None? && r.value.keyBenefits.None?
  {
    if tab == SocialPost && Text.IsBlank(f.topic) then None
    else if tab == VideoIdea && Text.IsBlank(f.niche) then None
    else if tab == ProductDescription && Text.IsBlank(f.productName) then None
    else
      var base := GenerateRequest(tab.Name(), if modifier == Some("selling") then "selling" else f.tone,
        NonEmpty(f.targetAudience), outputLanguage, None, None, None, None, None, None, None, None);
      Some(match tab
        case SocialPost =>
          base.(topic := Some(f.topic), platform := Some(f.platform), includeHashtags := Some(f.includeHashtags),
                postGoal := if f.postGoal != "none" then Some(f.postGoal) else None)
        case VideoIdea =>
          base.(topic := Some(f.niche), niche := Some(f.niche), goal := Some(f.videoGoal))
        case ProductDescription =>
          base.(topic := Some(f.productName), productName := Some(f.productName), keyBenefits := NonEmpty(f.keyBenefits))
        case Other(_) => base)
  }

  /** Fields of other tabs never block or change a request: editing them
      leaves the body the same. */
  lemma OtherTabsFieldsAreIgnored(f: ContentForm, g: ContentForm, modifier: Option<string>, lang: string)
    requires f.topic == g.topic && f.platform == g.platform && f.includeHashtags == g.includeHashtags && f.postGoal == g.postGoal
    requires f.tone == g.tone && f.targetAudience == g.targetAudience
    ensures BuildRequest(SocialPost, f, modifier, lang) == BuildRequest(SocialPost, g, modifier, lang)
  {
  }

  /** A request from one of the three known tabs carries a non-blank topic;
      one from an unknown tab carries no topic at all. */
  lemma SentTopicIsNeverBlank(tab: Tab, f: ContentForm, modifier: Option<string>, lang: string)
    requires BuildRequest(tab, f, modifier, lang).Some?
    ensures var t := BuildRequest(tab, f, modifier, lang).value.topic;
      && (!tab.Other? ==> t.Some? && !Text.IsBlank(t.value))
      && (tab.Other? ==> t.None?)
  {
  }

  /** An unknown `?tab=` value is never stopped by validation: the page
      posts it as the content type with an empty form. */
  lemma UnknownTabIsPostedUnchecked(name: string, f: ContentForm, modifier: Option<string>, lang: string)
    requires TabFromUrl(Some(name)).Other?
    ensures var r := BuildRequest(TabFromUrl(Some(name)), f, modifier, lang);
      r.Some? && r.value.contentType == name && r.value.topic.None?
  {
  }

  const WATERMARK: string := "\n\n— Created with Postify AI"

  /** `copyToClipboard()`: the text copied. */
  function CopyText(content: string, watermark: bool): (r: string)
    ensures content <= r
    ensures watermark <==> r != content
    ensures watermark ==> r[|content|..] == WATERMARK
  {
    if watermark then content + WATERMARK else content
  }

  /** The watermark can be recognised and stripped again. */
  lemma WatermarkIsRemovable(content: string)
    ensures var r := CopyText(content, true);
      r[..|r| - |WATERMARK|] == content
  {
  }

  /** `remaining = (user?.monthly_limit || 3) - (user?.current_usage || 0)`;
      it can be negative. */
  function Remaining(monthlyLimit: Option<int>, currentUsage: Option<int>): (r: int)
    ensures monthlyLimit.Some? && monthlyLimit.value != 0 && currentUsage.Some? ==>
      r + currentUsage.value == monthlyLimit.value
    ensures (monthlyLimit.None? || monthlyLimit.value == 0) && (currentUsage.None? || currentUsage.value == 0) ==> r == 3
  {
    IntOr(monthlyLimit, 3) - IntOr(currentUsage, 0)
  }

  /** The generator page's counter ignores bonus credits: it is the credit
      summary's figure exactly when there is no bonus and the counter is
      not negative. */
  lemma CounterVersusCreditSummary(u: Pricing.UserCredits)
    requires IntOr(u.bonusCredits, 0) == 0
    ensures Pricing.GetUsageStats(u).remainingCredits == Max(0, Remaining(u.monthlyLimit, u.currentUsage))
  {
  }

  /** With a bonus, the summary shows more than the counter. */
  lemma BonusWidensTheGap(u: Pricing.UserCredits)
    requires IntOr(u.bonusCredits, 0) > 0 && Remaining(u.monthlyLimit, u.currentUsage) >= 0
    ensures Pricing.GetUsageStats(u).remainingCredits > Remaining(u.monthlyLimit, u.currentUsage)
  {
  }
}
