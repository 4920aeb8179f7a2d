/** The drip-campaign document store and its static configuration
    (backend/email_service.py, backend/server.py).

    Collections are immutable values: `users` keyed by e-mail, the
    append-only `pricing_events`, `drip_queue` and `email_logs`
    collections, and the `drip_sequences` collection in insertion order
    (the order MongoDB's `find_one`/`update_one` scan it in). Timestamps
    are whole seconds. */
module DripModel {
  import opened Wrappers
  import Text

  const HOUR: int := 3600
  const DAY: int := 24 * HOUR

  /** Hours between a pricing view and the eligibility check it schedules. */
  const TRIGGER_AFTER_HOURS: int := 72
  /** Days that must pass after a sequence is created before another may start. */
  const COOLDOWN_DAYS: int := 30

  /** One message of the campaign script: its delay after the previous one
      (or after creation, for the first) and the template it sends. */
  datatype StepDefinition = StepDefinition(delayHours: nat, template: string)

  const STEPS: seq<StepDefinition> := [
    StepDefinition(2, "reminder"),
    StepDefinition(24, "social_proof"),
    StepDefinition(72, "soft_urgency")
  ]

  /** The templates the renderer knows, and the languages each comes in. */
  const TEMPLATE_NAMES: seq<string> := ["reminder", "social_proof", "soft_urgency"]
  const LANGUAGES: seq<string> := ["en", "ru"]

  const PAID_PLANS: seq<string> := ["pro", "business"]

  datatype User = User(
    email: string,
    plan: Option<string>,              // subscription_plan; absent on some records
    unsubscribed: bool,                // email_unsubscribed
    unsubscribedAt: Option<int>,
    unsubscribeReason: Option<string>,
    fullName: Option<string>,
    preferredLanguage: Option<string>)

  /** `subscription_plan in ["pro", "business"]`: an absent plan is not paid. */
  predicate IsPaidPlan(plan: Option<string>) {
    plan.Some? && plan.value in PAID_PLANS
  }

  datatype PricingEvent = PricingEvent(
    eventId: string,
    userEmail: string,
    eventType: string,   // pricing_viewed, plan_selected, checkout_started, checkout_completed
    plan: Option<string>,
    timestamp: int)

  predicate IsViewOf(e: PricingEvent, email: string) {
    e.userEmail == email && e.eventType == "pricing_viewed"
  }

  predicate IsCheckoutOf(e: PricingEvent, email: string) {
    e.userEmail == email && e.eventType == "checkout_completed"
  }

  datatype CheckStatus = Pending | Processed

  /** A deferred eligibility check in `drip_queue`. */
  datatype PendingCheck = PendingCheck(
    userEmail: string,
    checkAt: int,
    status: CheckStatus,
    createdAt: int,
    processedAt: Option<int>)

  datatype SequenceStatus = Active | Completed | Cancelled

  datatype DripSequence = DripSequence(
    sequenceId: string,
    userEmail: string,
    status: SequenceStatus,
    currentStep: nat,          // 0-based index into STEPS
    nextEmailAt: int,
    createdAt: int,
    lastEmailSent: Option<int>,
    completedAt: Option<int>,
    cancelledAt: Option<int>,
    cancelReason: Option<string>)

  predicate IsActiveOf(s: DripSequence, email: string) {
    s.userEmail == email && s.status == Active
  }

  predicate IsActive(s: DripSequence) {
    s.status == Active
  }

  /** What the delivery gateway reports for one send attempt. */
  datatype SendStatus = Success | Error
  datatype Delivery = Delivery(status: SendStatus, emailId: Option<string>, mode: string)

  /** One `email_logs` entry; `step` is 1-based. */
  datatype EmailLog = EmailLog(
    userEmail: string,
    template: string,
    step: nat,
    sequenceId: string,
    status: SendStatus,
    emailId: Option<string>,
    sentAt: int,
    mode: string)

  datatype Store = Store(
    users: map<string, User>,
    events: seq<PricingEvent>,
    queue: seq<PendingCheck>,
    sequences: seq<DripSequence>,
    logs: seq<EmailLog>)

  /** A rendered message: which template body and language were chosen and
      the name it greets. The HTML and subject text themselves are not modelled. */
  datatype RenderedEmail = RenderedEmail(template: string, language: string, userName: string)

  /** The delivery gateway: recipient and message in, outcome out. Any
      function is a possible gateway, so every outcome is covered. */
  type Gateway = (string, RenderedEmail) -> Delivery

  /** `get_email_template`: an unknown template name renders "reminder" and a
      language other than en/ru renders English. */
  function GetEmailTemplate(templateName: string, userName: string, language: string): (r: RenderedEmail)
    ensures r.template in TEMPLATE_NAMES && r.language in LANGUAGES
    ensures r.template == templateName <==> templateName in TEMPLATE_NAMES
    ensures r.language == language <==> language in LANGUAGES
    ensures templateName !in TEMPLATE_NAMES ==> r.template == "reminder"
    ensures language !in LANGUAGES ==> r.language == "en"
    ensures r.userName == userName
  {
    var lang := if language in LANGUAGES then language else "en";
    var name := if templateName in TEMPLATE_NAMES then templateName else "reminder";
    RenderedEmail(name, lang, userName)
  }

  /** Every template the campaign script sends exists, so the fallback never
      fires inside the drip campaign. */
  lemma StepTemplatesAreKnown(k: nat, userName: string, language: string)
    requires k < |STEPS|
    ensures GetEmailTemplate(STEPS[k].template, userName, language).template == STEPS[k].template
  {
  }

  /** `full_name.split(" ")[0]`, or "" when the name is absent or empty. */
  function FirstName(fullName: Option<string>): (r: string)
    ensures ' ' !in r
    ensures fullName.Some? ==> r <= fullName.value
    ensures fullName.Some? && ' ' !in fullName.value ==> r == fullName.value
  {
    if fullName.None? || fullName.value == "" then ""
    else
      var s := fullName.value;
      if ' ' in s then s[..Text.IndexOf(s, ' ')] else s
  }

  /** `sequence_id = f"drip_{email}_{stamp}"`, where `stamp` is the creation
      time formatted as YYYYmmddHHMMSS. */
  function SequenceId(email: string, stamp: string): string {
    "drip_" + email + "_" + stamp
  }

  /** The greatest `key` among the elements of `s` that satisfy `p`: the
      document a query sorted descending by that key returns first. */
  function Latest<T>(s: seq<T>, p: T -> bool, key: T -> int): (r: Option<int>)
    ensures r.None? <==> forall j | 0 <= j < |s| :: !p(s[j])
    ensures r.Some? ==> exists j | 0 <= j < |s| :: p(s[j]) && key(s[j]) == r.value
    ensures r.Some? ==> forall j | 0 <= j < |s| :: p(s[j]) ==> key(s[j]) <= r.value
  {
    if |s| == 0 then None
    else
      var rest := Latest(s[1..], p, key);
      assert forall j | 1 <= j < |s| :: s[1..][j - 1] == s[j];
      if !p(s[0]) then rest
      else if rest.Some? && rest.value >= key(s[0]) then rest
      else
        assert rest.Some? ==> forall j | 1 <= j < |s| :: p(s[j]) ==> key(s[j]) <= key(s[0]);
        Some(key(s[0]))
  }

  /** Creation time of the user's most recently created sequence, any status. */
  function LatestCreation(seqs: seq<DripSequence>, email: string): Option<int> {
    Latest(seqs, (s: DripSequence) => s.userEmail == email, (s: DripSequence) => s.createdAt)
  }

  /** Timestamp of the user's latest `pricing_viewed` event. */
  function LatestView(events: seq<PricingEvent>, email: string): Option<int> {
    Latest(events, (e: PricingEvent) => IsViewOf(e, email), (e: PricingEvent) => e.timestamp)
  }

  /** Index of the user's first active sequence: the document both
      `find_one` and `update_one` with filter {user_email, status: active}
      select. */
  function FirstActive(seqs: seq<DripSequence>, email: string): (r: Option<nat>)
    ensures r.Some? ==> r.value < |seqs| && IsActiveOf(seqs[r.value], email)
    ensures r.Some? ==> forall j | 0 <= j < r.value :: !IsActiveOf(seqs[j], email)
    ensures r.None? <==> forall j | 0 <= j < |seqs| :: !IsActiveOf(seqs[j], email)
  {
    FirstActiveFrom(seqs, email, 0)
  }

  function FirstActiveFrom(seqs: seq<DripSequence>, email: string, k: nat): (r: Option<nat>)
    requires k <= |seqs|
    requires forall j | 0 <= j < k :: !IsActiveOf(seqs[j], email)
    ensures r.Some? ==> k <= r.value < |seqs| && IsActiveOf(seqs[r.value], email)
    ensures r.Some? ==> forall j | 0 <= j < r.value :: !IsActiveOf(seqs[j], email)
    ensures r.None? <==> forall j | 0 <= j < |seqs| :: !IsActiveOf(seqs[j], email)
    decreases |seqs| - k
  {
    if k == |seqs| then None
    else if IsActiveOf(seqs[k], email) then Some(k)
    else FirstActiveFrom(seqs, email, k + 1)
  }

  /** Positions of the elements satisfying `p`, in increasing order: the
      documents a `find(filter)` cursor yields, in natural order. */
  function IndicesWhere<T>(s: seq<T>, p: T -> bool): (r: seq<nat>)
    ensures forall k | 0 <= k < |r| :: r[k] < |s| && p(s[r[k]])
    ensures forall i | 0 <= i < |s| && p(s[i]) :: i in r
    ensures forall k, l | 0 <= k < l < |r| :: r[k] < r[l]
    decreases |s|
  {
    if |s| == 0 then []
    else
      var init := IndicesWhere(s[..|s| - 1], p);
      assert forall i | 0 <= i < |s| - 1 :: s[..|s| - 1][i] == s[i];
      init + (if p(s[|s| - 1]) then [|s| - 1] else [])
  }

  /** Appending elements only appends positions. */
  lemma {:induction false} IndicesWhereAppend<T>(s: seq<T>, t: seq<T>, p: T -> bool)
    ensures IndicesWhere(s, p) <= IndicesWhere(s + t, p)
    decreases |t|
  {
    if |t| > 0 {
      var u := s + t;
      assert u[..|u| - 1] == s + t[..|t| - 1];
      IndicesWhereAppend(s, t[..|t| - 1], p);
    } else {
      assert s + t == s;
    }
  }

  /** Positions depend only on which elements satisfy `p`. */
  lemma {:induction false} IndicesWhereSameShape<T>(s: seq<T>, t: seq<T>, p: T -> bool)
    requires |s| == |t|
    requires forall i | 0 <= i < |s| :: p(s[i]) == p(t[i])
    ensures IndicesWhere(s, p) == IndicesWhere(t, p)
    decreases |s|
  {
    if |s| > 0 {
      IndicesWhereSameShape(s[..|s| - 1], t[..|t| - 1], p);
    }
  }
}
