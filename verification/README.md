# Postify AI: drip engine, request rules and page logic in Dafny

Postify AI is a content-generation service with a Python backend and a
React front end. This project models the rules that decide what the
service sends and shows. It covers three areas.

- The pricing-abandonment drip campaign (`backend/email_service.py` plus
  its triggers in `backend/server.py`):
  - a pricing view by a free user queues an eligibility check 72 hours later;
  - the periodic sweep runs due checks and starts a three-message sequence
    for eligible users;
  - the sweep then advances or cancels active sequences.
- The backend's pure request helpers:
  - the per-minute rate limiter and the monthly quota;
  - the plan feature table and the credit balance;
  - image-size selection and the brand-aware image prompt;
  - the campaign pillar split and quality score;
  - referral e-mail masking.
- The page logic of the front end:
  - recent and recommended templates;
  - the onboarding wizard;
  - the brand editor;
  - plan access, locks and the credit summary;
  - the translation lookup;
  - milestone prompts;
  - the image page's ratio picker;
  - the text generator's request body.

Documents are immutable datatypes. The MongoDB collections are one `Store`
value (`DripModel.Store`), and every endpoint is a pure function from store
to store. The clock, the e-mail gateway (`DripModel.Gateway`), generated
ids and the id timestamp are parameters. Times are whole seconds; the rate
limiter alone keeps `time.time()` as a real number.

| file | module | models |
|---|---|---|
| wrappers.dfy | Wrappers | `Option`, JavaScript's `x \|\| d` on strings and numbers |
| lists.dfy, text.dfy | Lists, Text | filter, slice, split/join, `trim()` blankness |
| drip_model.dfy | DripModel | `DRIP_CONFIG`, documents, `get_email_template`, the sorted and first-match queries |
| drip_step.dfy | DripStep | `process_drip_campaign`, `stop_drip_campaign` |
| drip_eligibility.dfy | DripEligibility | `check_and_start_drip_campaign` |
| drip_sweep.dfy | DripSweep | `track_pricing_event`, `unsubscribe_from_emails`, `process_pending_drips` |
| limits.dfy | Limits | `check_rate_limit`, `check_usage_limit` |
| plans.dfy | Plans | `PLAN_FEATURES`, `get_plan_features`, `get_credit_balance` |
| images.dfy | Images | size selection in `generate_image`, `build_brand_enhanced_prompt` |
| campaigns.dfy | Campaigns | `calculate_pillar_distribution`, `calculate_campaign_quality_score` |
| referrals.dfy | Referrals | masking of referred e-mails |
| recent_templates.dfy | RecentTemplates | PresetTemplates.js |
| onboarding.dfy | Onboarding | OnboardingWizard.js |
| brand_settings.dfy | BrandSettings | BrandSettings.js |
| pricing.dfy | Pricing | PricingContext.js |
| i18n.dfy | I18n | LanguageContext.js |
| viral_prompt.dfy | ViralPrompt | ViralPrompt.js |
| image_ui.dfy | ImageUi | ImageGenerator.js |
| content_request.dfy | ContentRequest | ContentGenerator.js |

## Model

| member | source | states |
|---|---|---|
| DripModel.GetEmailTemplate | backend/email_service.py:331-333 | Only a known template and language are rendered. An unknown template name falls back to "reminder" and a language other than en/ru to English; a known one is kept as given. |
| DripModel.StepTemplatesAreKnown | backend/email_service.py:36-44 | Every template the campaign script names exists, so the fallback never fires inside a campaign. |
| DripModel.FirstName | backend/email_service.py:380 | The greeting name is the part of the full name before the first space. It contains no space and is a prefix of the full name. |
| DripModel.Latest | backend/email_service.py:466-482 | A query sorted descending returns the greatest key among matching documents. It returns nothing exactly when no document matches. |
| DripModel.FirstActive | backend/email_service.py:384-387 | `find_one` on {user, active} selects the first active sequence of the user. It returns nothing exactly when the user has none. |
| DripModel.IndicesWhere | backend/server.py:3177-3179 | A `find` cursor yields exactly the matching documents, in increasing storage order. |
| DripStep.Advance | backend/email_service.py:392-446 | Past the end of the script the sequence completes silently. Before its time nothing changes. When due, exactly one log entry records step k+1 with the gateway's outcome, whether or not the send succeeded. The pointer then moves on and the next time is the next step's delay after now, or the sequence completes at step 3. |
| DripStep.AdvancePreservesWellFormed | backend/email_service.py:423-446 | The step pointer never passes the script's end, and an active sequence always has a step left to send. |
| DripStep.ProcessDripCampaign | backend/email_service.py:377-446 | Only the user's first active sequence can change, at most one log entry is appended, and a user with no active sequence leaves the store unchanged. |
| DripStep.NotDueIsNoOp | backend/email_service.py:402-404 | Before the next message is due, processing changes nothing at all. |
| DripStep.ThreeDueVisitsComplete | backend/email_service.py:36-44 | Three visits, each after the previous step's delay, send reminder, social_proof and soft_urgency as steps 1, 2 and 3, and the sequence ends completed at step 3. |
| DripStep.StopDripCampaign | backend/email_service.py:521-538 | Every active sequence of the user, and only those, is cancelled with the reason and time. The result is true exactly when one existed, and afterwards none does. |
| DripStep.StopIsIdempotent | backend/email_service.py:521-538 | A second stop finds nothing to cancel, returns false and changes nothing. |
| DripEligibility.VerdictOrder | backend/email_service.py:452-495 | The chain rejects with the first failing condition, in order: missing user, paid plan, unsubscribed, cooldown, no pricing view, converted since the latest view. Each verdict holds if and only if its declarative condition over all stored records holds. |
| DripEligibility.CooldownMatches | backend/email_service.py:466-475 | Comparing now with the newest creation time rejects exactly when some sequence of the user, of any status, was created less than 30 days ago. |
| DripEligibility.ConvertedMatches | backend/email_service.py:478-495 | A checkout after the latest view means every view was followed by a checkout, and conversely. |
| DripEligibility.CheckAndStartDripCampaign | backend/email_service.py:449-518 | An id is returned exactly when the user is eligible. A rejection writes nothing. A start appends exactly one active sequence at step 0, created now and due two hours later, under the returned id. |
| DripEligibility.CooldownRejects | backend/email_service.py:465-475 | A user with any sequence created inside the cooldown window is not started, even if that sequence is completed or cancelled. |
| DripEligibility.ConversionRejects | backend/email_service.py:487-495 | A completed checkout after the latest pricing view prevents a start. |
| DripEligibility.StartIsNotRepeated | backend/email_service.py:465-475 | Repeating the check right after a start is rejected by the cooldown. |
| DripEligibility.ElapsedTimeIsNotChecked | backend/email_service.py:497-501 | The 72-hour wait after a view is not enforced here: a view recorded this very moment still makes an otherwise eligible user start. |
| DripSweep.TrackPricingEvent | backend/server.py:2951-2984 | Every event is appended. A completed checkout cancels exactly the user's active sequences as "converted". A pricing view by a user whose plan is free or absent queues one pending check 72 hours later; anything else queues nothing. |
| DripSweep.PaidViewSchedulesNothing | backend/server.py:2974-2982 | A Pro or Business user's pricing view schedules no check. |
| DripSweep.UnsubscribeFromEmails | backend/server.py:2987-3009 | The user record is marked unsubscribed with time and reason, and exactly the user's active sequences are cancelled as "unsubscribed". |
| DripSweep.UnsubscribeStopsEverything | backend/server.py:2993-3005 | After unsubscribing, no active sequence of the user remains and no new one can be started. |
| DripSweep.CheckOne | backend/server.py:3181-3191 | A queue item is marked processed before its check runs. Exactly one sequence is appended when the eligibility gate passes for the item's user, and none otherwise. A new sequence belongs to a known user, is active at step 0, and has its first message due two hours later. |
| DripSweep.RunChecks | backend/server.py:3176-3193 | Exactly the listed queue items are marked processed. Users, events and logs are untouched. The sequences gain at most one fresh entry per item, all at the end. |
| DripSweep.SweepVisit | backend/server.py:3198-3207 | A missing user record leaves the store unchanged. For a Pro or Business user the visit is the cancellation as "converted"; for anyone else it is the step processor. Only the visited user's active sequences change, owners and creation times are kept, and every new log entry is addressed to that user. |
| DripSweep.VisitTransitions | backend/server.py:3202-3207 | A visit either leaves a sequence alone, cancels it as "converted", or advances it. Completed and cancelled sequences are never touched, and well-formed ones stay well formed. |
| DripSweep.RunSteps | backend/server.py:3196-3207 | Over the second phase: terminal sequences and those without a user record are untouched, the only cancellation reason is "converted", well-formedness is kept, and every sequence keeps its owner and creation time. |
| DripSweep.ProcessPendingDrips | backend/server.py:3171-3211 | Checks not yet due are untouched and the first 100 due ones are processed. Terminal sequences are never revived. The sweep cancels only for conversion. If every stored sequence is well formed, so is every sequence afterwards, including new ones. |
| DripSweep.SmallQueueFullyDrained | backend/server.py:3177-3188 | When at most 100 checks are due, every due check is processed in one sweep. |
| DripSweep.SweepCancelsPaidUsers | backend/server.py:3203-3205 | An active sequence of a Pro or Business user among the first 100 listed is cancelled as "converted" and not advanced. |
| DripSweep.RunStepsCancelsPaid | backend/server.py:3203-3205 | A listed active sequence of a Pro or Business user ends cancelled as "converted", whether its own visit or an earlier visit to the same user cancels it. |
| DripSweep.SweepStartsAndDefers | backend/server.py:3176-3193 | Due checks beyond the first 100 stay pending for the next sweep. The sweep starts a sequence for a user exactly when one of the processed checks is that user's and the eligibility gate passes for them; each such user gets one sequence. |
| DripSweep.RunChecksStarts | backend/server.py:3181-3193 | Over the first phase, a user is started if and only if one of the listed checks is theirs and the gate passes; a second check of the same user finds the first new sequence inside the cooldown window. |
| DripSweep.CheckOneSettles | backend/server.py:3191 | After one check its user is refused by the gate, only that user can have been started, and every other user's verdict is unchanged. |
| DripSweep.EligibleIgnoresOthers | backend/email_service.py:449-499 | The eligibility verdict for a user depends only on that user's record, events and sequences. |
| DripSweep.SweepAdvancesFreeUsers | backend/server.py:3198-3207 | A free user whose first active sequence is due and among the first 100 listed gets exactly one message from the sweep. That sequence moves to its next step, and exactly one log entry is written for the user: the one the step processor produces. |
| DripSweep.RunStepsAdvance | backend/server.py:3198-3207 | Visits that include the due sequence advance it once, and the user receives exactly that one message however often they are visited. |
| DripSweep.RunStepsQuiet | backend/server.py:3198-3207 | While none of a user's active sequences is due, visits leave that user's sequences alone and log nothing for them. |
| DripSweep.VisitDueFirst | backend/email_service.py:384-446 | A visit to the user advances the due first sequence and leaves the user with nothing due; a visit to anyone else leaves it waiting. |
| DripSweep.VisitQuiet | backend/email_service.py:384-405 | A visit to a user with nothing due changes none of that user's sequences and logs nothing for them. |
| Limits.CheckRateLimit | backend/server.py:435-450 | Stale times are dropped on every call. A request is refused exactly when 3 requests already lie in the last 60 seconds; an accepted one is appended. The stored list never grows beyond 3. |
| Limits.FourthRequestInAMinuteIsRejected | backend/server.py:435-450 | Three accepted requests followed by a fourth less than a minute after the first: the fourth is refused, whatever came before. |
| Limits.CheckUsageLimitFrom | backend/server.py:452-473 | Without a subscription the limit is 3 and the usage is the number of generations stored since the window's start. Otherwise the subscription's limit and usage apply. The call passes exactly when usage is below the limit. |
| Limits.FirstOfMonthAtNow | backend/server.py:461 | `replace(day=1)` keeps the time of day: the window starts between midnight on the 1st and now, and at now itself on the 1st. |
| Limits.CheckUsageLimitAsWritten | backend/server.py:452-473 | As written, a free user's generations are counted from the 1st of the month at the current time of day; subscribers are unaffected. |
| Limits.LaterStartCountsFewer | backend/server.py:459-462 | Starting the count later never counts more generations. |
| Limits.AsWrittenNeverCountsMore | backend/server.py:452-473 | The check as written counts at most what the month window counts, so it passes whenever the month window does. |
| Limits.FirstOfMonthForgetsTheMorning | backend/server.py:459-462 | On the 1st, the check as written ignores every generation made earlier that day. |
| Limits.FourthGenerationOnTheFirst | backend/server.py:459-471 | Three generations shortly after midnight on the 1st: the check as written lets a fourth through, and the month window refuses it. |
| Limits.CheckUsageLimit | backend/server.py:452-473 | With the window starting at midnight on the 1st (as at server.py:867), a free user's usage is the generations stored this month; otherwise the subscription's limit and usage apply. The call passes exactly when usage is below the limit. |
| Limits.QuotaCountdown | backend/server.py:464-471 | From a given usage, exactly `limit - usage` further generations pass. |
| Limits.FreeUserGetsThree | backend/server.py:456-471 | After further generations this month, a free user passes exactly while fewer than three fall in the month: the fourth generation of the month is refused. |
| Plans.GetPlanFeatures | backend/server.py:1252-1288 | An unknown plan gets the free row. Every answer lies between the free and business rows, and only pro and business raise the token limit above 250. |
| Plans.PlansAreOrdered | backend/server.py:1252-1280 | Each row strictly extends the one below: free < pro < business. |
| Plans.GetCreditBalance | backend/server.py:2856-2880 | An absent plan reads as free, an unknown one gets 3 credits, and an absent bonus reads as 0. Remaining is limit − usage + bonus whenever that is positive, and 0 otherwise. It is exhausted exactly at 0 and low exactly below 10. |
| Plans.ExhaustedIsAlsoLow | backend/server.py:2878-2879 | The backend's low flag also covers the exhausted case. |
| Plans.OneGenerationCostsOneCredit | backend/server.py:2877 | One more generation lowers a positive balance by exactly one and never raises any balance. |
| Images.SelectImageSize | backend/server.py:1540-1566 | The size is always a valid one. The priority is: a known platform sets size and aspect, then a known ratio sets the size, then a valid explicit size, then 1024x1024. The aspect is the request's, or "1:1", unless a platform set it. |
| Images.SizeMatchesAspect | backend/server.py:189-196 | Whenever a platform or a known ratio chose the shape, the size is the one the ratio table pairs with the aspect. |
| Images.PromptParts | backend/server.py:1799-1832 | The base prompt comes first, the brand clause comes second when a name is given, and the platform hint comes last. There are at most seven clauses; with no profile and no known platform there is only the base. |
| Images.BuildBrandEnhancedPrompt | backend/server.py:1799-1832 | The enhanced prompt starts with the base prompt, and equals it when there is nothing to add. |
| Images.OnlyFirstThreeCount | backend/server.py:1799-1832 | Only the first three colours, styles and moods reach the prompt. |
| Campaigns.RoundHalfEven | backend/server.py:3500 | Python's `round(n/d)` is the nearest integer, and an exact half goes to the even neighbour. |
| Campaigns.RoundedShares | backend/server.py:3500 | Each pillar's share before any cut is `round(total * weight / 100)`, pillar by pillar. |
| Campaigns.Distribute | backend/server.py:3495-3503 | The pillars keep their order. The last takes the rest, so the counts sum to what remained. |
| Campaigns.DistributeCounts | backend/server.py:3498-3503 | Every pillar but the last gets exactly the smaller of its rounded share and what the pillars before it left over. |
| Campaigns.CutPillarEndsTheSplit | backend/server.py:3500-3503 | Once a pillar gets less than its rounded share, the posts have run out and every later pillar gets none. |
| Campaigns.CalculatePillarDistribution | backend/server.py:3487-3505 | An unknown goal or duration is an error. Otherwise the goal's pillars are kept in order, every pillar but the last gets the smaller of its rounded share and the posts still left, and the counts sum to exactly the number of posts in the duration. |
| Campaigns.DistributeIsSplit | backend/server.py:3495-3505 | The loop's result with the rounded shares is a split of the posts: the pillars in order, each but the last given its rounded share cut to what is left, and the counts summing to the total. |
| Campaigns.CutPillarLeavesTheRestEmpty | backend/server.py:3487-3505 | In a campaign's split, a pillar cut below its rounded share is followed only by empty pillars. |
| Campaigns.GrowthMonthSplit | backend/server.py:3487-3505 | Ties round to even: 30 growth posts split 10/8/6/4/2. |
| Campaigns.SalesWeekSplit | backend/server.py:3487-3505 | When the rounded shares overshoot, the later pillars are cut: 7 sales posts split 3/2/1/1/0. |
| Campaigns.CalculateCampaignQualityScore | backend/server.py:3507-3565 | An empty campaign scores 0 with the single "generate posts" tip. Otherwise the score is the sum of four components of 0..25 each, the grade thresholds are 85/70/55, and each tip appears exactly when its component is weak. |
| Campaigns.RatioPoints | backend/server.py:3532-3534 | The ratio points are 25 exactly when the ratio reaches 25/scale, and otherwise the whole part of ratio × scale. |
| Campaigns.Components | backend/server.py:3517-3553 | Each component is full exactly when its source condition holds: five pillars; calls to action in at least five of six posts; 5·tones + 3·platforms ≥ 25; every post optimised. |
| Campaigns.PerfectScoreIff | backend/server.py:3507-3565 | The score is 100 if and only if all four components are full, stated on the post counts alone. |
| Campaigns.GradeANeedsEveryComponent | backend/server.py:3560-3564 | An A requires every component to be at least 10. |
| Campaigns.PerfectCampaign | backend/server.py:3507-3565 | Five pillars, five tones, and a CTA and platform optimisation in every post give 100, grade A, no tips. |
| Referrals.MaskEmail | backend/server.py:4530-4534 | An address without "@" is shown unchanged. Otherwise at most the first two characters of the local part are kept, followed by "***@" and the domain: the text between the first "@" and the next one (or the end), so anything after a second "@" is dropped. |
| Referrals.MaskKeepsDomain | backend/server.py:4532-4534 | An address with one "@" keeps its domain exactly, and its local part becomes at most two characters plus "***". |
| RecentTemplates.SaveRecentTemplate | frontend/src/components/PresetTemplates.js:53-68 | The used id heads its content type's list, has no second copy, and is followed by the start of the old list without it. The list is capped at 3, and other content types are untouched. |
| RecentTemplates.SavedExactlyOnceInOrder | frontend/src/components/PresetTemplates.js:59-61 | The saved id occurs once, and the retained ids keep their earlier order. |
| RecentTemplates.SaveIsIdempotent | frontend/src/components/PresetTemplates.js:59-61 | Using the same template twice in a row gives the same list as using it once. |
| RecentTemplates.MostRecentFirst | frontend/src/components/PresetTemplates.js:59-61 | After using a and then b, b is first and a second. |
| RecentTemplates.Resolve | frontend/src/components/PresetTemplates.js:88-90 | Resolved templates keep the recent-id order. An id is dropped only when no template has it. |
| RecentTemplates.RecentRow | frontend/src/components/PresetTemplates.js:86-91 | The recent row is empty when hidden. Otherwise it shows the templates of the recent ids, in order. |
| RecentTemplates.RecommendedRow | frontend/src/components/PresetTemplates.js:94-107 | Only Pro and Business users get recommendations: the first two templates that are not recent, in catalogue order, or all of them if fewer. |
| RecentTemplates.RowsAreDisjoint | frontend/src/components/PresetTemplates.js:86-107 | No template id appears both in the recent row and in the recommended row. |
| RecentTemplates.ProSeesRecommendation | frontend/src/components/PresetTemplates.js:99-104 | A Pro user who has any non-recent template sees at least one recommendation. |
| Onboarding.ToggleGoal | frontend/src/components/OnboardingWizard.js:74-88 | "everything" switches between itself alone and nothing. Any other goal flips its own membership, is appended when added, and clears "everything". |
| Onboarding.ToggleGoalKeepsExclusive | frontend/src/components/OnboardingWizard.js:74-88 | "everything" is never combined with another goal. |
| Onboarding.ToggleGoalTwice | frontend/src/components/OnboardingWizard.js:81-86 | Picking an unpicked goal and un-picking it restores the list. |
| Onboarding.TogglePlatform | frontend/src/components/OnboardingWizard.js:90-97 | Clicking a platform flips its membership only, and appends it when it was absent. |
| Onboarding.TogglePlatformTwice | frontend/src/components/OnboardingWizard.js:90-97 | Clicking an absent platform twice restores the list. |
| Onboarding.Navigate | frontend/src/components/OnboardingWizard.js:99-109 | From step 1, any run of Next and Back stays within steps 1..5 until the wizard completes. |
| Onboarding.FiveNextsComplete | frontend/src/components/OnboardingWizard.js:99-105 | Four Next presses reach step 5, and the fifth completes the wizard. |
| Onboarding.DemoRequestFor | frontend/src/components/OnboardingWizard.js:123-138 | The demo posts a social post. Its platform is the first chosen one or Instagram, its tone the chosen one or "professional", and its topic is "Post about " or "Пост о " followed by the niche, or the default topic in the interface language. |
| Onboarding.DemoTopicNamesTheNiche | frontend/src/components/OnboardingWizard.js:123-129 | The niche can be read back from the demo topic after the language's prefix, so two different niches never give the same topic. |
| BrandSettings.ToggleCapped | frontend/src/pages/BrandSettings.js:220-227 | A picked id is removed and nothing else is. An unpicked id is appended only when fewer than three are picked; with three picked the click changes nothing. |
| BrandSettings.ToggleCappedTwice | frontend/src/pages/BrandSettings.js:290-297 | Below the cap, a second click undoes the first. |
| BrandSettings.CapHoldsForEveryClickSequence | frontend/src/pages/BrandSettings.js:220-227 | Any run of clicks starting from at most three picks never shows more than three. |
| BrandSettings.UpdateColor | frontend/src/pages/BrandSettings.js:299-304 | Only the colour at the index changes, and an index outside the list changes nothing. |
| BrandSettings.UpdateColorSameIsIdentity | frontend/src/pages/BrandSettings.js:299-304 | Picking the colour a slot already holds leaves the palette as it was. |
| BrandSettings.HandleSave | frontend/src/pages/BrandSettings.js:437-442 | Save goes back to the name step exactly when the brand name is blank after trimming. |
| BrandSettings.SaveAgreesWithFirstStep | frontend/src/pages/BrandSettings.js:500 | The name guard on step 0 and the guard on save accept the same names. |
| Pricing.HasFeatureAccess | frontend/src/contexts/PricingContext.js:134-141 | Access holds exactly when the user's plan (free when absent) switches the feature on. Unknown plans and features get nothing, and a user without a plan gets only the three basic features. |
| Pricing.AccessGrowsWithPlan | frontend/src/contexts/PricingContext.js:9-98 | Pro grants everything Free grants, and Business everything Pro grants. |
| Pricing.GetFeatureLock | frontend/src/contexts/PricingContext.js:144-148 | No lock exactly when access holds. Otherwise the configured lock is used, or else a bare "pro" lock. |
| Pricing.DefaultLockCanNameWrongPlan | frontend/src/contexts/PricingContext.js:144-148 | The bare "pro" lock is given for priority processing and team access, which Pro does not grant. |
| Pricing.GetFeatureLockCorrected | frontend/src/contexts/PricingContext.js:109-115 | No lock exactly when access holds, and configured locks are kept. |
| Pricing.CorrectedLockUnlocks | frontend/src/contexts/PricingContext.js:144-148 | For any feature a paid plan grants, the corrected lock names a plan that grants it, and names Business only when Pro lacks it. |
| Pricing.CorrectedAgreesWhereProIsRight | frontend/src/contexts/PricingContext.js:144-148 | For features Pro grants, the corrected lock and the written one agree. |
| Pricing.GetUsageStats | frontend/src/contexts/PricingContext.js:151-159 | Missing or zero fields read as usage 0, limit 3 and bonus 0. Remaining is limit − usage + bonus whenever that is positive (bonus credits count past the monthly limit), and 0 otherwise. The displayed limit falls back to the plan's allowance. |
| Pricing.LowAndExhaustedExclusive | frontend/src/contexts/PricingContext.js:162-171 | The low and exhausted warnings never both show. Exhausted means nothing is left, and together they cover fewer than 10 remaining. |
| Pricing.FrontendMatchesBackendBalance | frontend/src/contexts/PricingContext.js:151-171 | With the backend's numbers in the user record, the page shows the backend's balance. The page's "low" is the backend's "low" without the exhausted case. |
| Pricing.GetYearlySavings | frontend/src/contexts/PricingContext.js:236-242 | An unknown or free plan saves 0%. Otherwise the result is the discount percentage rounded to the nearest whole, with halves rounded up. |
| Pricing.PaidPlansSaveThirtyPercent | frontend/src/contexts/PricingContext.js:236-242 | Both paid plans advertise 30%. |
| I18n.T | frontend/src/contexts/LanguageContext.js:593-615 | The lookup returns the current language's entry when every key segment resolves there, else the English one, else the key itself. This is stated against a declarative reference definition. |
| I18n.EnglishPass | frontend/src/contexts/LanguageContext.js:601-610 | The English retry returns the English entry when every segment resolves, else the key. |
| I18n.WalkMissStays | frontend/src/contexts/LanguageContext.js:597-600 | Once a prefix of the segments misses, the whole path misses. |
| I18n.DottedKeyFollowsNames | frontend/src/contexts/LanguageContext.js:593-599 | A key made of dot-free names joined by dots addresses exactly the entry those names lead to. |
| I18n.MissingEverywhereGivesKey | frontend/src/contexts/LanguageContext.js:602-607 | A key missing in both the current language and English comes back as the key. |
| I18n.ToggleLanguage | frontend/src/contexts/LanguageContext.js:617-619 | The switch gives Russian exactly from English, and English otherwise. |
| I18n.ToggleTwiceRestores | frontend/src/contexts/LanguageContext.js:617-619 | Switching twice restores the interface language. |
| ViralPrompt.DismissKeysMatchSelection | frontend/src/components/ViralPrompt.js:32-84 | The key `${type}_${milestone}` written on dismissal is exactly the key the selection looks up: share_5, invite_10 and referral_20. |
| ViralPrompt.SelectPrompt | frontend/src/components/ViralPrompt.js:19-71 | Signed-out users see nothing. 5 generations show share, 10..19 invite and 20+ referral, each unless dismissed. Other counts below 20 show nothing, and no dismissed prompt shows. |
| ViralPrompt.Dismiss | frontend/src/components/ViralPrompt.js:81-88 | The shown prompt's key is added to the dismissed set; without a prompt, nothing is added. |
| ViralPrompt.DismissSilences | frontend/src/components/ViralPrompt.js:81-88 | After a dismissal, nothing shows at the same count for the rest of the session. |
| ViralPrompt.DismissOnlySilences | frontend/src/components/ViralPrompt.js:19-71 | More dismissals never make a different prompt appear. |
| ImageUi.CurrentRatio | frontend/src/pages/ImageGenerator.js:80-89 | Custom mode shows the picked ratio, a known platform shows its own ratio, and anything else shows 1:1. |
| ImageUi.SelectPlatform | frontend/src/pages/ImageGenerator.js:92-103 | Clicking the selected platform deselects it. A new platform is selected and sets the ratio when it is known. |
| ImageUi.SelectTwiceDeselects | frontend/src/pages/ImageGenerator.js:92-103 | Two clicks on the same platform leave none selected. |
| ImageUi.SetCustomMode | frontend/src/pages/ImageGenerator.js:106-112 | Entering custom mode clears the platform, and leaving it keeps the platform. |
| ImageUi.CustomRoundTripShowsSquare | frontend/src/pages/ImageGenerator.js:80-112 | Entering and leaving custom mode shows 1:1, whatever was picked. |
| ImageUi.ToggleBatchPlatform | frontend/src/pages/ImageGenerator.js:322-328 | Only the clicked platform's membership in the batch list flips. |
| ImageUi.ApplyAll | frontend/src/pages/ImageGenerator.js:37-112 | Every click sequence from the initial state keeps the picker reachable: no platform in custom mode, an offered ratio, and a preset platform. |
| ImageUi.SingleRequest | frontend/src/pages/ImageGenerator.js:147-167 | Nothing is sent for a blank prompt. Otherwise the request carries the shown ratio and the selected platform, and asks for brand style only when a profile exists. |
| ImageUi.BatchRequestFor | frontend/src/pages/ImageGenerator.js:184-192 | Nothing is sent for a blank prompt or an empty platform list. |
| ImageUi.PageAndServerAgree | frontend/src/pages/ImageGenerator.js:147-167 | For every reachable picker state, the server's size choice (with the request's default size "1024x1024", which the page does not send) keeps the ratio the page shows and uses the size its ratio table pairs with that ratio. |
| ContentRequest.TabFromUrl | frontend/src/pages/ContentGenerator.js:39-40 | A missing or empty `tab` parameter opens the social-post tab; any other value becomes the tab whose content type is that value, and only the three known names give known tabs. |
| ContentRequest.BuildRequest | frontend/src/pages/ContentGenerator.js:303-352 | Only a known tab's own required field is validated; an unknown tab is never stopped. The body carries the tab's content type, the "selling" tone override, and the required field as topic (none for an unknown tab). Each tab sends its own fields and leaves the others' out, and empty optional fields are sent as null. |
| ContentRequest.OtherTabsFieldsAreIgnored | frontend/src/pages/ContentGenerator.js:330-337 | Editing fields of other tabs never changes the social-post request. |
| ContentRequest.SentTopicIsNeverBlank | frontend/src/pages/ContentGenerator.js:305-351 | Every request sent from a known tab carries a non-blank topic; one from an unknown tab carries no topic. |
| ContentRequest.UnknownTabIsPostedUnchecked | frontend/src/pages/ContentGenerator.js:39-40 | An unknown `?tab=` value passes validation and is posted as the content type without a topic. |
| ContentRequest.CopyText | frontend/src/pages/ContentGenerator.js:411-416 | The copied text is the content, followed by the watermark exactly when the result is watermarked. |
| ContentRequest.WatermarkIsRemovable | frontend/src/pages/ContentGenerator.js:411-416 | Cutting the watermark's length off a watermarked copy gives back the content. |
| ContentRequest.Remaining | frontend/src/pages/ContentGenerator.js:90 | The counter is limit − usage, with 3 and 0 for missing or zero fields, and can be negative. |
| ContentRequest.CounterVersusCreditSummary | frontend/src/pages/ContentGenerator.js:90 | Without bonus credits, the counter (clamped at 0) equals the credit summary's remaining credits. |
| ContentRequest.BonusWidensTheGap | frontend/src/pages/ContentGenerator.js:90 | With bonus credits, the credit summary shows more than the counter. |

## Left out

- I/O: logging, HTTP status texts and e-mail HTML/subjects are not modelled. The gateway's outcome is a parameter, and the rendered e-mail records only the template, language and name.
- Exceptions in `process_pending_drips`: an exception aborts the rest of the sweep, and this is not modelled. The model runs every step to completion.
- Concurrency: the background loop and concurrent requests are not modelled. Each endpoint is one atomic step.
- The clock: one `now` per sweep. The source reads the clock again inside each call.
- Event and sequence ids: the `uuid4` event id and the id's timestamp format are parameters.
- Floating point: the percentages `percentUsed` and `usagePercent` are left out.
- Limits.CheckRateLimit: keeps `time.time()` as an exact real number, not a double.
- Limits.CheckUsageLimit: the stored `created_at` values are ISO-format strings compared as text; the model compares them as whole seconds, which is the same order for the UTC timestamps the server writes. Sub-second parts are dropped.
- Campaigns.CalculateCampaignQualityScore: `int(ratio * 30)` and `int(ratio * 25)` are taken on the exact rational ratio, not on doubles.
- Campaigns.CalculateCampaignQualityScore: a post whose pillar, tone or platform is stored as null is read like a post without that key (as "engagement" or ""). In the source `p.get(key, default)` returns the stored null, which counts as one more distinct value, so a campaign mixing null and missing keys can get up to 5 pillar, 5 tone or 3 platform points more there than in the model.
- Pricing.GetYearlySavings: the JavaScript float division is taken exactly. The plan prices give a 30% saving with or without rounding error.
- I18n.T: a lookup step inside a string (JavaScript's character indexing, `"abc"["0"]`) is treated as a miss, and lookups never reach inherited object properties.
- I18n.EnglishPass: for an empty segment list the source returns the whole English table. `split` never yields an empty list, so the model returns the key there.
- Pricing.HasFeatureAccess: JavaScript prototype keys such as `"constructor"` are not modelled as features.
- ViralPrompt: the prompt texts, icons and the 3-second delay are left out. The generation count fetched from the server is a parameter, and a failed fetch (which shows nothing) is not modelled.
- ContentRequest.BuildRequest: a field that is absent and a field sent as null are merged into `None`.
- DripSweep.TrackPricingEvent: a `subscription_plan` stored as null is read like an absent one, that is as "free"; Python's `get` would return `None` there and schedule nothing.
- DripSweep.SweepAdvancesFreeUsers: asks that the user's other active sequences, if any, are not yet due. The 30-day cooldown normally leaves a user a single active sequence. With two due ones, a later visit in the same sweep can also send from the second, and the lemma does not describe that case.
- DripSweep.RunSteps: its contract gives the frame and safety facts. The advances and cancellations it performs are stated by DripSweep.RunStepsAdvance and DripSweep.RunStepsCancelsPaid.
- DripSweep.ProcessPendingDrips: its contract gives the frame and safety facts. What the sweep starts and defers is stated by DripSweep.SweepStartsAndDefers, and what it sends or cancels by DripSweep.SweepAdvancesFreeUsers and DripSweep.SweepCancelsPaidUsers.
- ImageUi.ApplyAll: only the buttons the page renders are clickable (platform buttons outside custom mode, the three offered ratios).
- Outside the core: authentication, payments, the AI calls themselves and persistence of local and session storage.

## Findings

| source | as written | input that shows it | evidently intended | confidence | as-written member | corrected member |
|---|---|---|---|---|---|---|
| backend/server.py:459-462 | The free window starts at `datetime.now(timezone.utc).replace(day=1)`, the 1st of the month at the current time of day | A free user who made three generations at 00:01, 00:02 and 00:03 on the 1st asks again at 01:00: none of them is counted, so a fourth passes | Count from midnight on the 1st, as the five other monthly counts in the file do (`replace(day=1, hour=0, minute=0, second=0, microsecond=0)`) | medium, not executed | Limits.FourthGenerationOnTheFirst | Limits.FreeUserGetsThree |
| frontend/src/contexts/PricingContext.js:144-148 | A feature without a configured lock gets `{ requiredPlan: 'pro' }` | A Pro user asking for `priorityProcessing`, or a Free user asking for `teamAccess`: both are told to get Pro, which grants neither | Name the cheapest paid plan that grants the feature | low, not executed; no visible caller uses the default branch | Pricing.DefaultLockCanNameWrongPlan | Pricing.CorrectedLockUnlocks |

The model also records differences between the backend and the front end
that may be deliberate:

- The backend's `is_low` includes an exhausted balance, and the page's
  `isCreditsLow` excludes it (Pricing.FrontendMatchesBackendBalance).
- The generator page's counter ignores bonus credits
  (ContentRequest.BonusWidensTheGap).
