/** The eligibility gate, `check_and_start_drip_campaign` of
    backend/email_service.py: a short-circuit chain of predicates that decides
    whether a user enters a new drip sequence. */
module DripEligibility {
  import opened Wrappers
  import opened DripModel

  const COOLDOWN: int := COOLDOWN_DAYS * DAY

  /** Which predicate of the chain rejected the user, or `Eligible`. */
  datatype Verdict =
    | Eligible
    | NoUser
    | PaidPlan
    | Unsubscribed
    | CoolingDown
    | NeverViewedPricing
    | ConvertedSinceView

  /** The chain as the source evaluates it: the most recent creation time and
      the latest pricing view are found by sorted queries, then compared. */
  function Evaluate(st: Store, email: string, now: int): Verdict {
    if email !in st.users then NoUser
    else if IsPaidPlan(st.users[email].plan) then PaidPlan
    else if st.users[email].unsubscribed then Unsubscribed
    else
      var last := LatestCreation(st.sequences, email);
      if last.Some? && now - last.value < COOLDOWN then CoolingDown
      else
        var view := LatestView(st.events, email);
        if view.None? then NeverViewedPricing
        else if exists k | 0 <= k < |st.events| ::
            IsCheckoutOf(st.events[k], email) && st.events[k].timestamp > view.value
        then ConvertedSinceView
        else Eligible
  }

  // The same predicates stated declaratively, over every stored record.

  /** Some sequence of the user, of any status, was created less than the
      cooldown ago. */
  predicate InCooldown(st: Store, email: string, now: int) {
    exists j | 0 <= j < |st.sequences| ::
      st.sequences[j].userEmail == email && now - st.sequences[j].createdAt < COOLDOWN
  }

  predicate HasViewedPricing(st: Store, email: string) {
    exists j | 0 <= j < |st.events| :: IsViewOf(st.events[j], email)
  }

  /** Every pricing view of the user is followed by a completed checkout. */
  predicate ConvertedAfterEveryView(st: Store, email: string) {
    forall j | 0 <= j < |st.events| && IsViewOf(st.events[j], email) ::
      exists k | 0 <= k < |st.events| ::
        IsCheckoutOf(st.events[k], email) && st.events[k].timestamp > st.events[j].timestamp
  }

  predicate FreeAndSubscribed(st: Store, email: string) {
    email in st.users && !IsPaidPlan(st.users[email].plan) && !st.users[email].unsubscribed
  }

  /** All six predicates pass. */
  predicate EligibleSpec(st: Store, email: string, now: int) {
    && FreeAndSubscribed(st, email)
    && !InCooldown(st, email, now)
    && HasViewedPricing(st, email)
    && !ConvertedAfterEveryView(st, email)
  }

  /** The chain rejects with the FIRST predicate that fails, in the order user
      exists, not paid, subscribed, out of cooldown, has viewed pricing, not
      converted since the latest view. */
  lemma {:induction false} VerdictOrder(st: Store, email: string, now: int)
    ensures Evaluate(st, email, now) == NoUser <==> email !in st.users
    ensures Evaluate(st, email, now) == PaidPlan <==>
      email in st.users && IsPaidPlan(st.users[email].plan)
    ensures Evaluate(st, email, now) == Unsubscribed <==>
      email in st.users && !IsPaidPlan(st.users[email].plan) && st.users[email].unsubscribed
    ensures Evaluate(st, email, now) == CoolingDown <==>
      FreeAndSubscribed(st, email) && InCooldown(st, email, now)
    ensures Evaluate(st, email, now) == NeverViewedPricing <==>
      FreeAndSubscribed(st, email) && !InCooldown(st, email, now) && !HasViewedPricing(st, email)
    ensures Evaluate(st, email, now) == ConvertedSinceView <==>
      FreeAndSubscribed(st, email) && !InCooldown(st, email, now) && HasViewedPricing(st, email)
      && ConvertedAfterEveryView(st, email)
    ensures Evaluate(st, email, now) == Eligible <==> EligibleSpec(st, email, now)
  {
    CooldownMatches(st, email, now);
    if FreeAndSubscribed(st, email) && !InCooldown(st, email, now) {
      var view := LatestView(st.events, email);
      if view.Some? {
        ConvertedMatches(st, email, view.value);
      }
    }
  }

  /** The sorted query for the most recent creation rejects exactly when some
      sequence is inside the cooldown window. */
  lemma CooldownMatches(st: Store, email: string, now: int)
    ensures (var last := LatestCreation(st.sequences, email);
             last.Some? && now - last.value < COOLDOWN) <==> InCooldown(st, email, now)
  {
    var last := LatestCreation(st.sequences, email);
    if InCooldown(st, email, now) {
      var j :| 0 <= j < |st.sequences| && st.sequences[j].userEmail == email
        && now - st.sequences[j].createdAt < COOLDOWN;
    }
  }

  /** "A checkout after the latest view" is "every view has a checkout after it". */
  lemma ConvertedMatches(st: Store, email: string, latest: int)
    requires LatestView(st.events, email) == Some(latest)
    ensures (exists k | 0 <= k < |st.events| ::
               IsCheckoutOf(st.events[k], email) && st.events[k].timestamp > latest)
            <==> ConvertedAfterEveryView(st, email)
  {
    var j0 :| 0 <= j0 < |st.events| && IsViewOf(st.events[j0], email) && st.events[j0].timestamp == latest;
    if ConvertedAfterEveryView(st, email) {
      assert IsViewOf(st.events[j0], email);
    }
  }

  /** The sequence a successful check inserts. */
  function NewSequence(email: string, now: int, stamp: string): DripSequence {
    DripSequence(SequenceId(email, stamp), email, Active, 0, now + STEPS[0].delayHours * HOUR,
                 now, None, None, None, None)
  }

  /** `check_and_start_drip_campaign(db, email)`: on success exactly one new
      active sequence at step 0 is inserted and its id returned; on any
      rejection nothing is written and no id is returned. `stamp` is the
      creation time as the id formats it. */
  function CheckAndStartDripCampaign(st: Store, email: string, now: int, stamp: string): (r: (Store, Option<string>))
    ensures r.1.Some? <==> EligibleSpec(st, email, now)
    ensures r.1.None? ==> r.0 == st
    ensures r.1.Some? ==>
      && r.0.users == st.users && r.0.events == st.events && r.0.queue == st.queue && r.0.logs == st.logs
      && |r.0.sequences| == |st.sequences| + 1
      && r.0.sequences[..|st.sequences|] == st.sequences
      && var s := r.0.sequences[|st.sequences|];
         && s.sequenceId == r.1.value && s.userEmail == email
         && s.status == Active && s.currentStep == 0
         && s.createdAt == now && s.nextEmailAt == now + 2 * HOUR
  {
    VerdictOrder(st, email, now);
    if Evaluate(st, email, now) != Eligible then (st, None)
    else
      var s := NewSequence(email, now, stamp);
      assert (st.sequences + [s])[..|st.sequences|] == st.sequences;
      (st.(sequences := st.sequences + [s]), Some(s.sequenceId))
  }

  /** A user with a sequence created inside the cooldown window, whatever
      its status, is never started again. */
  lemma CooldownRejects(st: Store, email: string, now: int, stamp: string, j: nat)
    requires j < |st.sequences| && st.sequences[j].userEmail == email
    requires now - st.sequences[j].createdAt < COOLDOWN
    ensures CheckAndStartDripCampaign(st, email, now, stamp) == (st, None)
  {
    assert InCooldown(st, email, now);
  }

  /** A user whose latest pricing view is followed by a completed checkout
      is never started. */
  lemma ConversionRejects(st: Store, email: string, now: int, stamp: string, k: nat)
    requires LatestView(st.events, email).Some?
    requires k < |st.events| && IsCheckoutOf(st.events[k], email)
    requires st.events[k].timestamp > LatestView(st.events, email).value
    ensures CheckAndStartDripCampaign(st, email, now, stamp) == (st, None)
  {
    ConvertedMatches(st, email, LatestView(st.events, email).value);
  }

  /** Re-running the check at the same moment after a start rejects: the
      fresh sequence is itself inside the cooldown window. */
  lemma StartIsNotRepeated(st: Store, email: string, now: int, stamp: string, stamp': string)
    requires CheckAndStartDripCampaign(st, email, now, stamp).1.Some?
    ensures var st1 := CheckAndStartDripCampaign(st, email, now, stamp).0;
      CheckAndStartDripCampaign(st1, email, now, stamp') == (st1, None)
  {
    var st1 := CheckAndStartDripCampaign(st, email, now, stamp).0;
    CooldownRejects(st1, email, now, stamp', |st.sequences|);
  }

  /** The time since the pricing view is deliberately not checked: a view
      recorded at this very moment still makes a free, subscribed user outside
      the cooldown eligible. */
  lemma ElapsedTimeIsNotChecked(st: Store, email: string, now: int, stamp: string)
    requires FreeAndSubscribed(st, email) && !InCooldown(st, email, now)
    requires forall k | 0 <= k < |st.events| :: !IsCheckoutOf(st.events[k], email)
    ensures
      var st' := st.(events := st.events + [PricingEvent("", email, "pricing_viewed", None, now)]);
      CheckAndStartDripCampaign(st', email, now, stamp).1.Some?
  {
    var st' := st.(events := st.events + [PricingEvent("", email, "pricing_viewed", None, now)]);
    assert IsViewOf(st'.events[|st.events|], email);
    assert HasViewedPricing(st', email);
    assert !ConvertedAfterEveryView(st', email) by {
      assert IsViewOf(st'.events[|st.events|], email);
      assert forall k | 0 <= k < |st'.events| :: !IsCheckoutOf(st'.events[k], email);
    }
  }
}
