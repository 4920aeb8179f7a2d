/** Privacy masking of referred users' e-mail addresses in the referral
    statistics of backend/server.py. */
module Referrals {
  import Text
  import Lists

  /** `parts = email.split("@"); parts[0][:2] + "***@" + parts[1]` when the
      address contains "@"; anything else is shown unchanged. Only the first
      two characters of the local part survive; the domain is the text
      between the first and the second "@". */
  function MaskEmail(email: string): (r: string)
    ensures '@' !in email ==> r == email
    ensures '@' in email ==>
      var i := Text.IndexOf(email, '@');
      && Lists.Take(email[..i], 2) + "***@" <= r
      && |r| <= 6 + |email| - i - 1
      && ('@' !in email[i + 1..] ==> r == Lists.Take(email[..i], 2) + "***@" + email[i + 1..])
      // a second "@" cuts the domain short: what follows it is dropped
      && ('@' in email[i + 1..] ==>
            r == Lists.Take(email[..i], 2) + "***@" + email[i + 1..][..Text.IndexOf(email[i + 1..], '@')])
  {
    if '@' !in email then email
    else
      var parts := Text.Split(email, '@');
      var i := Text.IndexOf(email, '@');
      Text.SplitHead(email, '@');
      Text.SplitHead(email[i + 1..], '@');
      Lists.Take(parts[0], 2) + "***@" + parts[1]
  }

  /** An address with exactly one "@" keeps its domain, and its local part
      is reduced to at most two characters followed by "***". */
  lemma {:induction false} MaskKeepsDomain(local: string, domain: string)
    requires '@' !in local && '@' !in domain
    ensures var r := MaskEmail(local + "@" + domain);
      Text.Split(r, '@') == [Lists.Take(local, 2) + "***", domain]
  {
    var masked := Lists.Take(local, 2) + "***";
    MaskOneAt(local, domain);
    assert '@' !in masked by {
      assert forall k | 0 <= k < |Lists.Take(local, 2)| :: Lists.Take(local, 2)[k] == local[k];
    }
    Text.SplitJoin([masked, domain], '@');
    assert Text.Join([masked, domain], ['@']) == masked + "@" + domain;
  }

  /** With a single "@" the mask is the shortened local part, "***@" and the domain. */
  lemma MaskOneAt(local: string, domain: string)
    requires '@' !in local && '@' !in domain
    ensures MaskEmail(local + "@" + domain) == Lists.Take(local, 2) + "***" + "@" + domain
  {
    var email := local + "@" + domain;
    assert email[|local|] == '@' && email[..|local|] == local;
    Text.IndexOfFirst(email, '@', |local|);
    assert email[|local| + 1..] == domain;
  }
}
