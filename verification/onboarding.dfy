/** The first-run wizard of frontend/src/components/OnboardingWizard.js: the
    goal picker with its exclusive "everything" choice, the platform picker,
    the five-step navigation and the defaults of the demo request. */
module Onboarding {
  import opened Wrappers
  import Lists

  const EVERYTHING: string := "everything"
  const TOTAL_STEPS: nat := 5

  /** `toggleGoal(goalId)`. */
  function ToggleGoal(goals: seq<string>, goal: string): (r: seq<string>)
    // "everything" switches between itself alone and nothing
    ensures goal == EVERYTHING ==> r == (if EVERYTHING in goals then [] else [EVERYTHING])
    // any other goal flips its own membership and clears "everything"
    ensures goal != EVERYTHING ==>
      && EVERYTHING !in r
      && (goal in r <==> goal !in goals)
      && (forall g | g in goals && g != goal && g != EVERYTHING :: g in r)
      && (forall g | g in r && g != goal :: g in goals)
      && (goal !in goals ==> r[|r| - 1] == goal)
  {
    if goal == EVERYTHING then
      if EVERYTHING in goals then [] else [EVERYTHING]
    else if goal in goals then
      Lists.RemoveAll(Lists.RemoveAll(goals, goal), EVERYTHING)
    else
      Lists.RemoveAll(goals, EVERYTHING) + [goal]
  }

  /** The goal list the wizard can reach: "everything" is never combined
      with another goal. */
  predicate ExclusiveEverything(goals: seq<string>) {
    EVERYTHING in goals ==> goals == [EVERYTHING]
  }

  lemma ToggleGoalKeepsExclusive(goals: seq<string>, goal: string)
    ensures ExclusiveEverything(ToggleGoal(goals, goal))
  {
  }

  /** Picking an unpicked goal and then un-picking it restores the list,
      provided "everything" was not selected. */
  lemma {:induction false} ToggleGoalTwice(goals: seq<string>, goal: string)
    requires goal != EVERYTHING && goal !in goals && EVERYTHING !in goals
    ensures ToggleGoal(ToggleGoal(goals, goal), goal) == goals
  {
    Lists.RemoveAbsent(goals, EVERYTHING);
    var once := goals + [goal];
    assert ToggleGoal(goals, goal) == once;
    Lists.RemoveAllAppend(goals, [goal], goal);
    Lists.RemoveAbsent(goals, goal);
    assert Lists.RemoveAll([goal], goal) == [];
    assert Lists.RemoveAll(once, goal) == goals;
  }

  /** `togglePlatform(platformId)`: flip membership. */
  function TogglePlatform(platforms: seq<string>, platform: string): (r: seq<string>)
    ensures platform in r <==> platform !in platforms
    ensures forall p | p != platform :: (p in r <==> p in platforms)
    ensures platform !in platforms ==> r == platforms + [platform]
  {
    Lists.Toggle(platforms, platform)
  }

  /** Toggling an absent platform twice gives back the original list. */
  lemma {:induction false} TogglePlatformTwice(platforms: seq<string>, platform: string)
    requires platform !in platforms
    ensures TogglePlatform(TogglePlatform(platforms, platform), platform) == platforms
  {
    Lists.RemoveAllAppend(platforms, [platform], platform);
    Lists.RemoveAbsent(platforms, platform);
    assert Lists.RemoveAll([platform], platform) == [];
  }

  /** Where a navigation button leaves the wizard. */
  datatype Wizard = AtStep(step: nat) | Completed

  /** `handleNext`: the last step completes the wizard. */
  function Next(step: nat): (r: Wizard)
    ensures step < TOTAL_STEPS ==> r == AtStep(step + 1)
    ensures step >= TOTAL_STEPS ==> r == Completed
  {
    if step < TOTAL_STEPS then AtStep(step + 1) else Completed
  }

  /** `handleBack`: the first step stays put. */
  function Back(step: nat): (r: nat)
    ensures step > 1 ==> r == step - 1
    ensures step <= 1 ==> r == step
  {
    if step > 1 then step - 1 else step
  }

  predicate ValidStep(step: nat) {
    1 <= step <= TOTAL_STEPS
  }

  /** Starting from step 1, the step shown stays in 1..5 under any sequence
      of Next and Back presses until the wizard completes; `moves` is that
      sequence, `true` for Next. */
  function Navigate(step: nat, moves: seq<bool>): (r: Wizard)
    requires ValidStep(step)
    ensures r.AtStep? ==> ValidStep(r.step)
    decreases |moves|
  {
    if |moves| == 0 then AtStep(step)
    else if moves[0] then
      match Next(step)
      case Completed => Completed
      case AtStep(s) => Navigate(s, moves[1..])
    else Navigate(Back(step), moves[1..])
  }

  /** Five Next presses from the start complete the wizard; four do not. */
  lemma FiveNextsComplete()
    ensures Navigate(1, [true, true, true, true]) == AtStep(5)
    ensures Navigate(1, [true, true, true, true, true]) == Completed
  {
  }

  datatype DemoRequest = DemoRequest(
    contentType: string,
    topic: string,
    platform: string,
    tone: string,
    language: string)

  /** The request `handleDemoGenerate` sends, from the wizard's answers. */
  function DemoRequestFor(niche: string, platforms: seq<string>, preferredTone: string, language: string): (r: DemoRequest)
    ensures r.contentType == "social_post"
    ensures r.language == (if language == "ru" then "ru" else "en")
    // first chosen platform, else Instagram; chosen tone, else professional
    ensures r.platform == (if |platforms| > 0 && platforms[0] != "" then platforms[0] else "instagram")
    ensures r.tone == (if preferredTone != "" then preferredTone else "professional")
    ensures r.platform != "" && r.tone != ""
    // a given niche is named in the topic, in the interface language
    ensures niche != "" ==> |r.topic| > |niche| && r.topic[|r.topic| - |niche|..] == niche
    ensures niche != "" ==> r.topic == (if language == "ru" then DEMO_PREFIX_RU else DEMO_PREFIX_EN) + niche
    ensures niche == "" ==> r.topic == (if language == "ru" then DEMO_TOPIC_RU else DEMO_TOPIC_EN)
  {
    var topic :=
      if niche != "" then (if language == "ru" then DEMO_PREFIX_RU else DEMO_PREFIX_EN) + niche
      else if language == "ru" then DEMO_TOPIC_RU else DEMO_TOPIC_EN;
    var first := if |platforms| > 0 then Some(platforms[0]) else None;
    DemoRequest("social_post", topic, StrOr(first, "instagram"), StrOr(Some(preferredTone), "professional"),
      if language == "ru" then "ru" else "en")
  }

  /** Two different niches never give the same demo topic: the niche can be
      read back from the topic after the language's prefix. */
  lemma DemoTopicNamesTheNiche(n1: string, n2: string, platforms: seq<string>, preferredTone: string, language: string)
    requires n1 != "" && n2 != ""
    ensures var t := DemoRequestFor(n1, platforms, preferredTone, language).topic;
      var prefix := if language == "ru" then DEMO_PREFIX_RU else DEMO_PREFIX_EN;
      |prefix| < |t| && t[|prefix|..] == n1
    ensures DemoRequestFor(n1, platforms, preferredTone, language).topic == DemoRequestFor(n2, platforms, preferredTone, language).topic
      <==> n1 == n2
  {
    var prefix := if language == "ru" then DEMO_PREFIX_RU else DEMO_PREFIX_EN;
    var t1 := DemoRequestFor(n1, platforms, preferredTone, language).topic;
    var t2 := DemoRequestFor(n2, platforms, preferredTone, language).topic;
    assert t1[|prefix|..] == n1 && t2[|prefix|..] == n2;
  }

  const DEMO_PREFIX_EN: string := "Post about "
  const DEMO_PREFIX_RU: string := "Пост о "
  const DEMO_TOPIC_EN: string := "How to boost sales with content marketing"
  const DEMO_TOPIC_RU: string := "Как повысить продажи с помощью контент-маркетинга"
}
