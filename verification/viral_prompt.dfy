/** The milestone banner of frontend/src/components/ViralPrompt.js: which
    share/invite/referral prompt a user's generation count selects, and the
    per-session dismissal that silences it. */
module ViralPrompt {
  import opened Wrappers

  datatype Kind = Share | Invite | Referral {
    /** The `type` field of the prompt. */
    function Name(): string {
      match this
      case Share => "share"
      case Invite => "invite"
      case Referral => "referral"
    }
  }

  /** A selected prompt; the texts and the icon are left out. */
  datatype Prompt = Prompt(kind: Kind, milestone: nat, path: string)

  const SHARE_PROMPT: Prompt := Prompt(Share, 5, "/referrals")
  const INVITE_PROMPT: Prompt := Prompt(Invite, 10, "/referrals")
  const REFERRAL_PROMPT: Prompt := Prompt(Referral, 20, "/referrals")

  /** Decimal digits of a natural number, as a template literal prints it. */
  function DecimalString(n: nat): (r: string)
    ensures |r| >= 1
    ensures forall k | 0 <= k < |r| :: '0' <= r[k] <= '9'
  {
    var digit := [(48 + n % 10) as char];
    if n < 10 then digit else DecimalString(n / 10) + digit
  }

  /** The dismissal key `${type}_${milestone}`. */
  function DismissKey(p: Prompt): string {
    p.kind.Name() + "_" + DecimalString(p.milestone)
  }

  /** The keys are the literal ones the selection looks up. */
  lemma DismissKeysMatchSelection()
    ensures DismissKey(SHARE_PROMPT) == "share_5"
    ensures DismissKey(INVITE_PROMPT) == "invite_10"
    ensures DismissKey(REFERRAL_PROMPT) == "referral_20"
  {
    assert DecimalString(10) == DecimalString(1) + ['0'];
    assert DecimalString(20) == DecimalString(2) + ['0'];
  }

  /** The selection in `checkTrigger`: `signedIn` is the token-and-user
      test, `count` the user's total generations and `dismissed` the keys
      stored as dismissed this session. */
  function SelectPrompt(signedIn: bool, count: int, dismissed: set<string>): (r: Option<Prompt>)
    ensures !signedIn ==> r.None?
    ensures signedIn && count == 5 && "share_5" !in dismissed ==> r == Some(SHARE_PROMPT)
    ensures signedIn && 10 <= count < 20 && "invite_10" !in dismissed ==> r == Some(INVITE_PROMPT)
    ensures signedIn && count >= 20 && "referral_20" !in dismissed ==> r == Some(REFERRAL_PROMPT)
    // below 20, only the counts 5 and 10..19 can show anything
    ensures count < 5 || 5 < count < 10 ==> r.None?
    // whatever shows has not been dismissed
    ensures r.Some? ==> DismissKey(r.value) !in dismissed
  {
    DismissKeysMatchSelection();
    if !signedIn then None
    else if count == 5 && "share_5" !in dismissed then Some(SHARE_PROMPT)
    else if 10 <= count < 20 && "invite_10" !in dismissed then Some(INVITE_PROMPT)
    else if count >= 20 && "referral_20" !in dismissed then Some(REFERRAL_PROMPT)
    else None
  }

  /** `dismiss()`: the shown prompt's key is recorded; without a prompt
      nothing is. */
  function Dismiss(dismissed: set<string>, shown: Option<Prompt>): (r: set<string>)
    ensures dismissed <= r
    ensures shown.None? ==> r == dismissed
    ensures shown.Some? ==> r == dismissed + {DismissKey(shown.value)}
  {
    if shown.Some? then dismissed + {DismissKey(shown.value)} else dismissed
  }

  /** Dismissing a prompt silences it, and no other prompt takes its place
      at the same count, for the rest of the session. */
  lemma DismissSilences(count: int, dismissed: set<string>)
    ensures var shown := SelectPrompt(true, count, dismissed);
      SelectPrompt(true, count, Dismiss(dismissed, shown)).None?
  {
    DismissKeysMatchSelection();
  }

  /** Dismissing never makes a prompt appear that was not already showing. */
  lemma DismissOnlySilences(count: int, dismissed: set<string>, more: set<string>)
    requires dismissed <= more
    ensures SelectPrompt(true, count, more).Some? ==> SelectPrompt(true, count, more) == SelectPrompt(true, count, dismissed)
  {
  }
}
