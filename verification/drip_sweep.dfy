/** The entry points of backend/server.py that drive the drip engine:
    `track_pricing_event`, `unsubscribe_from_emails` and the periodic sweep
    `process_pending_drips`. */
module DripSweep {
  import opened Wrappers
  import opened DripModel
  import opened DripStep
  import opened DripEligibility
  import Lists

  /** Each sweep query reads at most this many documents (`to_list(100)`). */
  const SWEEP_BATCH: nat := 100

  /** `track_pricing_event`: every event is logged; a completed checkout
      cancels the user's active sequences as "converted"; a pricing view by a
      user whose plan is "free" (or absent) schedules an eligibility check
      `TRIGGER_AFTER_HOURS` later. */
  function TrackPricingEvent(st: Store, user: User, eventType: string, plan: Option<string>,
                             eventId: string, now: int): (r: Store)
    ensures r.events == st.events + [PricingEvent(eventId, user.email, eventType, plan, now)]
    ensures r.users == st.users && r.logs == st.logs
    ensures eventType == "pricing_viewed" && user.plan.GetOr("free") == "free" ==>
      r.queue == st.queue + [PendingCheck(user.email, now + TRIGGER_AFTER_HOURS * HOUR, Pending, now, None)]
    ensures !(eventType == "pricing_viewed" && user.plan.GetOr("free") == "free") ==> r.queue == st.queue
    ensures |r.sequences| == |st.sequences|
    ensures forall j | 0 <= j < |st.sequences| ::
      r.sequences[j] == (if eventType == "checkout_completed" && IsActiveOf(st.sequences[j], user.email)
                         then Cancel(st.sequences[j], "converted", now) else st.sequences[j])
  {
    var st1 := st.(events := st.events + [PricingEvent(eventId, user.email, eventType, plan, now)]);
    var st2 := if eventType == "checkout_completed" then StopDripCampaign(st1, user.email, "converted", now).0 else st1;
    if eventType == "pricing_viewed" && user.plan.GetOr("free") == "free" then
      st2.(queue := st2.queue + [PendingCheck(user.email, now + TRIGGER_AFTER_HOURS * HOUR, Pending, now, None)])
    else st2
  }

  /** A paid user's pricing view schedules nothing. */
  lemma PaidViewSchedulesNothing(st: Store, user: User, plan: Option<string>, eventId: string, now: int)
    requires IsPaidPlan(user.plan)
    ensures TrackPricingEvent(st, user, "pricing_viewed", plan, eventId, now).queue == st.queue
  {
  }

  /** `unsubscribe_from_emails`: the user record is marked unsubscribed and
      every active sequence of the user is cancelled as "unsubscribed". */
  function UnsubscribeFromEmails(st: Store, email: string, reason: Option<string>, now: int): (r: Store)
    ensures email in st.users ==>
      r.users == st.users[email := st.users[email].(unsubscribed := true, unsubscribedAt := Some(now), unsubscribeReason := reason)]
    ensures email !in st.users ==> r.users == st.users
    ensures r.events == st.events && r.queue == st.queue && r.logs == st.logs
    ensures |r.sequences| == |st.sequences|
    ensures forall j | 0 <= j < |st.sequences| ::
      r.sequences[j] == (if IsActiveOf(st.sequences[j], email) then Cancel(st.sequences[j], "unsubscribed", now) else st.sequences[j])
  {
    var users := if email in st.users
      then st.users[email := st.users[email].(unsubscribed := true, unsubscribedAt := Some(now), unsubscribeReason := reason)]
      else st.users;
    StopDripCampaign(st.(users := users), email, "unsubscribed", now).0
  }

  /** After unsubscribing, the user has no active sequence left and the
      eligibility gate refuses to start a new one. */
  lemma UnsubscribeStopsEverything(st: Store, email: string, reason: Option<string>, now: int, later: int, stamp: string)
    ensures var st1 := UnsubscribeFromEmails(st, email, reason, now);
      && (forall j | 0 <= j < |st1.sequences| :: !IsActiveOf(st1.sequences[j], email))
      && CheckAndStartDripCampaign(st1, email, later, stamp) == (st1, None)
  {
  }

  predicate IsDue(c: PendingCheck, now: int) {
    c.status == Pending && c.checkAt <= now
  }

  /** The queue items `find({"status": "pending", "check_at": {"$lte": now}})` yields. */
  function DueChecks(queue: seq<PendingCheck>, now: int): seq<nat> {
    IndicesWhere(queue, (c: PendingCheck) => IsDue(c, now))
  }

  /** The sequences `find({"status": "active"})` yields. */
  function ActiveSequences(seqs: seq<DripSequence>): seq<nat> {
    IndicesWhere(seqs, IsActive)
  }

  function MarkProcessed(c: PendingCheck, now: int): PendingCheck {
    c.(status := Processed, processedAt := Some(now))
  }

  /** A sequence just started for `email` at `now`: active, at step 0, with
      the first message due two hours later. */
  predicate IsFresh(s: DripSequence, email: string, now: int) {
    && s.userEmail == email && s.status == Active && s.currentStep == 0
    && s.createdAt == now && s.nextEmailAt == now + 2 * HOUR
  }

  /** One item of the sweep's first phase: the queue item at `i` is marked
      processed, then the eligibility gate runs for its user. */
  function CheckOne(st: Store, i: nat, now: int, stamp: string): (r: Store)
    requires i < |st.queue|
    ensures r.users == st.users && r.events == st.events && r.logs == st.logs
    ensures r.queue == st.queue[i := MarkProcessed(st.queue[i], now)]
    ensures |st.sequences| <= |r.sequences| && r.sequences[..|st.sequences|] == st.sequences
    // a sequence is started for the item's user exactly when the gate passes
    ensures |r.sequences| == |st.sequences| + (if EligibleSpec(st, st.queue[i].userEmail, now) then 1 else 0)
    ensures forall j | |st.sequences| <= j < |r.sequences| :: IsFresh(r.sequences[j], st.queue[i].userEmail, now)
    ensures forall j | |st.sequences| <= j < |r.sequences| :: r.sequences[j].userEmail in st.users
  {
    var st1 := st.(queue := st.queue[i := MarkProcessed(st.queue[i], now)]);
    CheckAndStartDripCampaign(st1, st.queue[i].userEmail, now, stamp).0
  }

  /** First phase of the sweep: each listed queue item is marked processed,
      then the eligibility gate runs for its user. */
  function RunChecks(st: Store, todo: seq<nat>, now: int, stamp: string): (r: Store)
    requires forall k | 0 <= k < |todo| :: todo[k] < |st.queue|
    ensures r.users == st.users && r.events == st.events && r.logs == st.logs
    ensures |r.queue| == |st.queue|
    ensures forall i | 0 <= i < |st.queue| ::
      r.queue[i] == (if i in todo then MarkProcessed(st.queue[i], now) else st.queue[i])
    ensures |st.sequences| <= |r.sequences| && r.sequences[..|st.sequences|] == st.sequences
    ensures |r.sequences| <= |st.sequences| + |todo|
    ensures forall j | |st.sequences| <= j < |r.sequences| ::
      r.sequences[j].userEmail in st.users && IsFresh(r.sequences[j], r.sequences[j].userEmail, now)
    decreases |todo|
  {
    if |todo| == 0 then st
    else
      var st2 := CheckOne(st, todo[0], now, stamp);
      assert forall k | 1 <= k < |todo| :: todo[k] in todo[1..];
      var r := RunChecks(st2, todo[1..], now, stamp);
      assert forall i | 0 <= i < |st.queue| :: (i in todo <==> i == todo[0] || i in todo[1..]);
      assert r.sequences[..|st.sequences|] == st.sequences by {
        assert r.sequences[..|st.sequences|] == r.sequences[..|st2.sequences|][..|st.sequences|];
      }
      assert forall j | |st.sequences| <= j < |st2.sequences| :: r.sequences[j] == st2.sequences[j];
      r
  }

  /** Some sequence after position `|before|` belongs to `email`. */
  predicate Started(before: seq<DripSequence>, after: seq<DripSequence>, email: string) {
    exists j | |before| <= j < |after| :: after[j].userEmail == email
  }

  /** One of the listed queue items belongs to `email`. */
  predicate Queued(queue: seq<PendingCheck>, todo: seq<nat>, email: string) {
    exists k | 0 <= k < |todo| :: todo[k] < |queue| && queue[todo[k]].userEmail == email
  }

  /** The gate's verdict on a user depends on no other user's sequences. */
  lemma EligibleIgnoresOthers(st: Store, st': Store, email: string, now: int)
    requires st'.users == st.users && st'.events == st.events
    requires |st.sequences| <= |st'.sequences| && st'.sequences[..|st.sequences|] == st.sequences
    requires forall j | |st.sequences| <= j < |st'.sequences| :: st'.sequences[j].userEmail != email
    ensures EligibleSpec(st', email, now) == EligibleSpec(st, email, now)
  {
    assert forall j | 0 <= j < |st.sequences| :: st'.sequences[j] == st.sequences[j];
    if InCooldown(st', email, now) {
      var j :| 0 <= j < |st'.sequences| && st'.sequences[j].userEmail == email
        && now - st'.sequences[j].createdAt < COOLDOWN;
      assert j < |st.sequences|;
    }
  }

  /** The first phase starts exactly one sequence for each user with a
      listed item whom the gate lets through, and nothing for anyone else:
      a second item of the same user finds the first new sequence inside the
      cooldown window. */
  lemma {:induction false} RunChecksStarts(st: Store, todo: seq<nat>, now: int, stamp: string)
    requires forall k | 0 <= k < |todo| :: todo[k] < |st.queue|
    ensures var r := RunChecks(st, todo, now, stamp);
      && (forall email :: Started(st.sequences, r.sequences, email) <==>
            Queued(st.queue, todo, email) && EligibleSpec(st, email, now))
      && (forall j1, j2 | |st.sequences| <= j1 < j2 < |r.sequences| ::
            r.sequences[j1].userEmail != r.sequences[j2].userEmail)
    decreases |todo|
  {
    var r := RunChecks(st, todo, now, stamp);
    if |todo| == 0 {
      return;
    }
    var u0 := st.queue[todo[0]].userEmail;
    var st2 := CheckOne(st, todo[0], now, stamp);
    var rest := todo[1..];
    assert forall k | 0 <= k < |rest| :: rest[k] == todo[k + 1];
    RunChecksStarts(st2, rest, now, stamp);
    assert r == RunChecks(st2, rest, now, stamp);
    CheckOneSettles(st, todo[0], now, stamp);
    QueuedSplit(st.queue, st2.queue, todo);
    forall email
      ensures Started(st.sequences, r.sequences, email) <==> Queued(st.queue, todo, email) && EligibleSpec(st, email, now)
    {
      StartedSplit(st.sequences, st2.sequences, r.sequences, email);
    }
    forall j1, j2 | |st.sequences| <= j1 < j2 < |r.sequences|
      ensures r.sequences[j1].userEmail != r.sequences[j2].userEmail
    {
      if j1 < |st2.sequences| && |st2.sequences| <= j2 {
        assert r.sequences[j1] == st2.sequences[j1];
        assert Started(st2.sequences, r.sequences, r.sequences[j2].userEmail);
      }
    }
  }

  /** After one item, its user is out of the gate for the rest of the
      sweep, a sequence was started for that user alone if the gate passed,
      and everyone else's verdict is as before. */
  lemma CheckOneSettles(st: Store, i: nat, now: int, stamp: string)
    requires i < |st.queue|
    ensures var st2 := CheckOne(st, i, now, stamp);
      var u0 := st.queue[i].userEmail;
      && !EligibleSpec(st2, u0, now)
      && (forall email :: Started(st.sequences, st2.sequences, email) <==> email == u0 && EligibleSpec(st, u0, now))
      && (forall email | email != u0 :: EligibleSpec(st2, email, now) == EligibleSpec(st, email, now))
  {
    var st2 := CheckOne(st, i, now, stamp);
    var u0 := st.queue[i].userEmail;
    if EligibleSpec(st, u0, now) {
      assert st2.sequences[|st.sequences|].userEmail == u0;
      assert InCooldown(st2, u0, now);
    } else {
      assert st2.sequences == st.sequences[..|st.sequences|];
    }
    forall email | email != u0
      ensures EligibleSpec(st2, email, now) == EligibleSpec(st, email, now)
    {
      EligibleIgnoresOthers(st, st2, email, now);
    }
  }

  /** A listed item is either the first one or among the rest. */
  lemma QueuedSplit(queue: seq<PendingCheck>, queue': seq<PendingCheck>, todo: seq<nat>)
    requires |todo| > 0 && todo[0] < |queue|
    requires |queue'| == |queue| && forall i | 0 <= i < |queue| :: queue'[i].userEmail == queue[i].userEmail
    ensures forall email :: Queued(queue, todo, email) <==>
      email == queue[todo[0]].userEmail || Queued(queue', todo[1..], email)
  {
    forall email
      ensures Queued(queue, todo, email) <==> email == queue[todo[0]].userEmail || Queued(queue', todo[1..], email)
    {
      if Queued(queue', todo[1..], email) {
        var k :| 0 <= k < |todo[1..]| && todo[1..][k] < |queue'| && queue'[todo[1..][k]].userEmail == email;
        assert todo[k + 1] < |queue| && queue[todo[k + 1]].userEmail == email;
      }
      if Queued(queue, todo, email) && email != queue[todo[0]].userEmail {
        var k :| 0 <= k < |todo| && todo[k] < |queue| && queue[todo[k]].userEmail == email;
        assert k > 0 && todo[1..][k - 1] == todo[k];
      }
    }
  }

  /** Growth in two stretches: a user started overall was started in one of them. */
  lemma StartedSplit(before: seq<DripSequence>, mid: seq<DripSequence>, after: seq<DripSequence>, email: string)
    requires |before| <= |mid| <= |after| && after[..|mid|] == mid
    ensures Started(before, after, email) <==> Started(before, mid, email) || Started(mid, after, email)
  {
    if Started(before, mid, email) {
      var j :| |before| <= j < |mid| && mid[j].userEmail == email;
      assert after[j] == mid[j];
    }
    if Started(before, after, email) && !Started(mid, after, email) {
      var j :| |before| <= j < |after| && after[j].userEmail == email;
      assert j < |mid| && after[j] == mid[j];
    }
  }

  /** One visit of the sweep's second phase to the sequence at `i`: its user
      record decides between nothing (record missing), cancellation as
      "converted" (paid plan) and the step processor. */
  function SweepVisit(st: Store, i: nat, now: int, deliver: Gateway): (r: Store)
    requires i < |st.sequences|
    ensures r.users == st.users && r.events == st.events && r.queue == st.queue
    ensures |r.sequences| == |st.sequences| && st.logs <= r.logs
    ensures forall j | 0 <= j < |st.sequences| ::
      st.sequences[j].userEmail != st.sequences[i].userEmail ==> r.sequences[j] == st.sequences[j]
    ensures forall j | 0 <= j < |st.sequences| :: !IsActive(st.sequences[j]) ==> r.sequences[j] == st.sequences[j]
    ensures st.sequences[i].userEmail !in st.users ==> r == st
    // a paid user's sequences are cancelled as converted; a free user's
    // first active sequence goes to the step processor
    ensures st.sequences[i].userEmail in st.users && IsPaidPlan(st.users[st.sequences[i].userEmail].plan) ==>
      r == StopDripCampaign(st, st.sequences[i].userEmail, "converted", now).0
    ensures st.sequences[i].userEmail in st.users && !IsPaidPlan(st.users[st.sequences[i].userEmail].plan) ==>
      r == ProcessDripCampaign(st, st.sequences[i].userEmail, st.users[st.sequences[i].userEmail], now, deliver)
    // a sequence keeps its owner and creation time, and every entry logged
    // belongs to the visited user
    ensures forall j | 0 <= j < |st.sequences| ::
      r.sequences[j].userEmail == st.sequences[j].userEmail && r.sequences[j].createdAt == st.sequences[j].createdAt
    ensures forall n | |st.logs| <= n < |r.logs| :: r.logs[n].userEmail == st.sequences[i].userEmail
  {
    var email := st.sequences[i].userEmail;
    if email !in st.users then st
    else if IsPaidPlan(st.users[email].plan) then StopDripCampaign(st, email, "converted", now).0
    else ProcessDripCampaign(st, email, st.users[email], now, deliver)
  }

  /** What one visit does to any sequence: it is untouched, cancelled as
      "converted", or advanced by the step processor, and stays well formed. */
  lemma VisitTransitions(st: Store, i: nat, now: int, deliver: Gateway, j: nat)
    requires i < |st.sequences| && j < |st.sequences|
    ensures var s := st.sequences[j];
      var s' := SweepVisit(st, i, now, deliver).sequences[j];
      && (s'.status == Cancelled && s.status == Active ==> s'.cancelReason == Some("converted"))
      && (s.status == Active && WellFormed(s) ==> WellFormed(s'))
      && (!IsActive(s) ==> s' == s)
      // untouched, cancelled as converted, or advanced one visit
      && (|| s' == s
          || (s.status == Active && s' == Cancel(s, "converted", now))
          || (s.status == Active && s.userEmail in st.users && s' == Advance(s, st.users[s.userEmail], now, deliver).0))
  {
    var email := st.sequences[i].userEmail;
    if email in st.users && !IsPaidPlan(st.users[email].plan) {
      var f := FirstActive(st.sequences, email);
      if f.Some? && f.value == j && WellFormed(st.sequences[j]) {
        AdvancePreservesWellFormed(st.sequences[j], st.users[email], now, deliver);
      }
    }
  }

  /** Second phase of the sweep: visit each listed sequence in turn. */
  function RunSteps(st: Store, todo: seq<nat>, now: int, deliver: Gateway): (r: Store)
    requires forall k | 0 <= k < |todo| :: todo[k] < |st.sequences|
    ensures r.users == st.users && r.events == st.events && r.queue == st.queue
    ensures |r.sequences| == |st.sequences| && st.logs <= r.logs
    // completed and cancelled sequences are terminal
    ensures forall j | 0 <= j < |st.sequences| :: !IsActive(st.sequences[j]) ==> r.sequences[j] == st.sequences[j]
    // a sequence whose user record is missing is never touched
    ensures forall j | 0 <= j < |st.sequences| ::
      st.sequences[j].userEmail !in st.users ==> r.sequences[j] == st.sequences[j]
    // the sweep cancels only conversions
    ensures forall j | 0 <= j < |st.sequences| ::
      st.sequences[j].status == Active && r.sequences[j].status == Cancelled ==>
      r.sequences[j].cancelReason == Some("converted")
    ensures forall j | 0 <= j < |st.sequences| ::
      st.sequences[j].status == Active && WellFormed(st.sequences[j]) ==> WellFormed(r.sequences[j])
    // a sequence keeps its owner and creation time
    ensures forall j | 0 <= j < |st.sequences| ::
      r.sequences[j].userEmail == st.sequences[j].userEmail && r.sequences[j].createdAt == st.sequences[j].createdAt
    decreases |todo|
  {
    if |todo| == 0 then st
    else
      var st1 := SweepVisit(st, todo[0], now, deliver);
      var r := RunSteps(st1, todo[1..], now, deliver);
      assert forall j | 0 <= j < |st.sequences| ::
        st.sequences[j].status == Active && r.sequences[j].status == Cancelled ==>
        r.sequences[j].cancelReason == Some("converted") by {
        forall j | 0 <= j < |st.sequences| && st.sequences[j].status == Active && r.sequences[j].status == Cancelled
          ensures r.sequences[j].cancelReason == Some("converted")
        {
          VisitTransitions(st, todo[0], now, deliver, j);
        }
      }
      assert forall j | 0 <= j < |st.sequences| ::
        st.sequences[j].status == Active && WellFormed(st.sequences[j]) ==> WellFormed(r.sequences[j]) by {
        forall j | 0 <= j < |st.sequences| && st.sequences[j].status == Active && WellFormed(st.sequences[j])
          ensures WellFormed(r.sequences[j])
        {
          VisitTransitions(st, todo[0], now, deliver, j);
        }
      }
      r
  }

  /** `process_pending_drips`: drain the due queue items (at most
      `SWEEP_BATCH`), then visit the active sequences (at most
      `SWEEP_BATCH`, listed after the first phase). */
  function ProcessPendingDrips(st: Store, now: int, stamp: string, deliver: Gateway): (r: Store)
    ensures r.users == st.users && r.events == st.events && st.logs <= r.logs
    ensures |r.queue| == |st.queue| && |st.sequences| <= |r.sequences|
    // items not yet due stay as they are; the first SWEEP_BATCH due ones are processed
    ensures forall i | 0 <= i < |st.queue| && !IsDue(st.queue[i], now) :: r.queue[i] == st.queue[i]
    ensures forall i | i in Lists.Take(DueChecks(st.queue, now), SWEEP_BATCH) ::
      i < |st.queue| && r.queue[i] == MarkProcessed(st.queue[i], now)
    // completed and cancelled sequences are terminal
    ensures forall j | 0 <= j < |st.sequences| :: !IsActive(st.sequences[j]) ==> r.sequences[j] == st.sequences[j]
    ensures forall j | 0 <= j < |st.sequences| ::
      st.sequences[j].userEmail !in st.users ==> r.sequences[j] == st.sequences[j]
    ensures forall j | 0 <= j < |st.sequences| ::
      st.sequences[j].status == Active && r.sequences[j].status == Cancelled ==>
      r.sequences[j].cancelReason == Some("converted")
    // well-formed sequences stay well formed, and new ones are born well formed
    ensures (forall j | 0 <= j < |st.sequences| :: WellFormed(st.sequences[j])) ==>
      forall j | 0 <= j < |r.sequences| :: WellFormed(r.sequences[j])
  {
    var due := Lists.Take(DueChecks(st.queue, now), SWEEP_BATCH);
    var st1 := RunChecks(st, due, now, stamp);
    var active := Lists.Take(ActiveSequences(st1.sequences), SWEEP_BATCH);
    var r := RunSteps(st1, active, now, deliver);
    assert forall j | 0 <= j < |st.sequences| :: st1.sequences[j] == st.sequences[j] by {
      assert st1.sequences[..|st.sequences|] == st.sequences;
    }
    r
  }

  /** Due items beyond the first SWEEP_BATCH wait, still pending, for the
      next sweep; the sweep starts one sequence for each user with a
      processed item whom the eligibility gate lets through, and none for
      anyone else. */
  lemma SweepStartsAndDefers(st: Store, now: int, stamp: string, deliver: Gateway)
    ensures var r := ProcessPendingDrips(st, now, stamp, deliver);
      var due := Lists.Take(DueChecks(st.queue, now), SWEEP_BATCH);
      && (forall i | 0 <= i < |st.queue| && i !in due :: r.queue[i] == st.queue[i])
      && (forall email :: Started(st.sequences, r.sequences, email) <==>
            Queued(st.queue, due, email) && EligibleSpec(st, email, now))
      && (forall j1, j2 | |st.sequences| <= j1 < j2 < |r.sequences| ::
            r.sequences[j1].userEmail != r.sequences[j2].userEmail)
  {
    var due := Lists.Take(DueChecks(st.queue, now), SWEEP_BATCH);
    var st1 := RunChecks(st, due, now, stamp);
    var r := RunSteps(st1, Lists.Take(ActiveSequences(st1.sequences), SWEEP_BATCH), now, deliver);
    assert r == ProcessPendingDrips(st, now, stamp, deliver);
    RunChecksStarts(st, due, now, stamp);
    StartedByOwner(st.sequences, st1.sequences, r.sequences);
  }

  /** Whether a user was started depends only on the owners of the sequences. */
  lemma StartedByOwner(before: seq<DripSequence>, a: seq<DripSequence>, b: seq<DripSequence>)
    requires |a| == |b| && forall j | 0 <= j < |a| :: a[j].userEmail == b[j].userEmail
    ensures forall email :: Started(before, a, email) == Started(before, b, email)
  {
    forall email
      ensures Started(before, a, email) == Started(before, b, email)
    {
      if Started(before, b, email) {
        var j :| |before| <= j < |b| && b[j].userEmail == email;
        assert a[j].userEmail == email;
      }
    }
  }

  /** The items of a due list are processed even when they are due long
      after the batch limit is reached, as long as the queue holds no more
      than SWEEP_BATCH due items. */
  lemma SmallQueueFullyDrained(st: Store, now: int, stamp: string, deliver: Gateway, i: nat)
    requires i < |st.queue| && IsDue(st.queue[i], now)
    requires |DueChecks(st.queue, now)| <= SWEEP_BATCH
    ensures ProcessPendingDrips(st, now, stamp, deliver).queue[i] == MarkProcessed(st.queue[i], now)
  {
    assert i in DueChecks(st.queue, now);
  }

  /** A paid user's active sequence among the first SWEEP_BATCH active ones
      is cancelled as "converted" by the sweep instead of being advanced, and,
      being terminal, is never advanced by a later sweep. */
  lemma {:induction false} SweepCancelsPaidUsers(st: Store, now: int, stamp: string, deliver: Gateway, i: nat)
    requires i < |st.sequences| && IsActive(st.sequences[i])
    requires st.sequences[i].userEmail in st.users && IsPaidPlan(st.users[st.sequences[i].userEmail].plan)
    requires i in Lists.Take(ActiveSequences(st.sequences), SWEEP_BATCH)
    ensures var r := ProcessPendingDrips(st, now, stamp, deliver);
      r.sequences[i].status == Cancelled && r.sequences[i].cancelReason == Some("converted")
  {
    var due := Lists.Take(DueChecks(st.queue, now), SWEEP_BATCH);
    var st1 := RunChecks(st, due, now, stamp);
    var m := Lists.Take(ActiveSequences(st1.sequences), SWEEP_BATCH);
    StillListed(st.sequences, st1.sequences, i);
    assert st1.sequences[i] == st.sequences[i];
    RunStepsCancelsPaid(st1, m, now, deliver, i);
  }

  lemma {:induction false} RunStepsCancelsPaid(st: Store, todo: seq<nat>, now: int, deliver: Gateway, i: nat)
    requires forall k | 0 <= k < |todo| :: todo[k] < |st.sequences|
    requires i < |st.sequences| && i in todo && IsActive(st.sequences[i])
    requires st.sequences[i].userEmail in st.users && IsPaidPlan(st.users[st.sequences[i].userEmail].plan)
    ensures var r := RunSteps(st, todo, now, deliver);
      r.sequences[i].status == Cancelled && r.sequences[i].cancelReason == Some("converted")
    decreases |todo|
  {
    var st1 := SweepVisit(st, todo[0], now, deliver);
    var email := st.sequences[i].userEmail;
    if todo[0] == i {
      assert st1.sequences[i] == Cancel(st.sequences[i], "converted", now);
    } else if IsActive(st1.sequences[i]) {
      assert i in todo[1..];
      RunStepsCancelsPaid(st1, todo[1..], now, deliver, i);
    } else {
      // some other visit to the same user already cancelled it
      assert st.sequences[todo[0]].userEmail == email;
      assert st1.sequences[i] == Cancel(st.sequences[i], "converted", now);
    }
  }

  /** No active sequence of `email` is due yet (and all are well formed): a
      visit to that user sends nothing. */
  predicate Quiet(seqs: seq<DripSequence>, email: string, now: int) {
    forall j | 0 <= j < |seqs| && IsActiveOf(seqs[j], email) ::
      WellFormed(seqs[j]) && now < seqs[j].nextEmailAt
  }

  /** The user's first active sequence is `i` and due; every other active
      sequence of the user is well formed and not yet due. */
  predicate DueFirst(seqs: seq<DripSequence>, email: string, now: int, i: nat) {
    && FirstActive(seqs, email) == Some(i)
    && WellFormed(seqs[i]) && seqs[i].nextEmailAt <= now
    && forall j | 0 <= j < |seqs| && j != i && IsActiveOf(seqs[j], email) ::
         WellFormed(seqs[j]) && now < seqs[j].nextEmailAt
  }

  /** The entries of `logs` addressed to `email`. */
  function LogsFor(logs: seq<EmailLog>, email: string): seq<EmailLog> {
    Lists.Filter(logs, (l: EmailLog) => l.userEmail == email)
  }

  lemma {:induction false} LogsForNone(logs: seq<EmailLog>, email: string)
    requires forall n | 0 <= n < |logs| :: logs[n].userEmail != email
    ensures LogsFor(logs, email) == []
  {
    if |logs| > 0 {
      LogsForNone(logs[1..], email);
    }
  }

  /** The entries appended over two stretches are those of each stretch. */
  lemma LogsForSplit(a: seq<EmailLog>, b: seq<EmailLog>, c: seq<EmailLog>, email: string)
    requires a <= b && b <= c
    ensures LogsFor(c[|a|..], email) == LogsFor(b[|a|..], email) + LogsFor(c[|b|..], email)
  {
    assert c[|a|..] == b[|a|..] + c[|b|..];
    Lists.FilterAppend(b[|a|..], c[|b|..], (l: EmailLog) => l.userEmail == email);
  }

  /** The first active sequence depends only on which positions hold an
      active sequence of the user. */
  lemma FirstActiveSame(a: seq<DripSequence>, b: seq<DripSequence>, email: string)
    requires |a| == |b|
    requires forall j | 0 <= j < |a| :: IsActiveOf(a[j], email) == IsActiveOf(b[j], email)
    ensures FirstActive(a, email) == FirstActive(b, email)
  {
    var fa, fb := FirstActive(a, email), FirstActive(b, email);
    if fa.Some? && fb.Some? {
      assert !(fa.value < fb.value) && !(fb.value < fa.value);
    }
  }

  /** Appending sequences never changes which one comes first. */
  lemma FirstActiveExtended(a: seq<DripSequence>, b: seq<DripSequence>, email: string, i: nat)
    requires FirstActive(a, email) == Some(i) && |a| <= |b| && b[..|a|] == a
    ensures FirstActive(b, email) == Some(i)
  {
    assert b[i] == a[i];
    assert forall j | 0 <= j < i :: b[j] == a[j];
  }

  /** A visit while the user is quiet leaves that user's sequences and logs alone. */
  lemma VisitQuiet(st: Store, k: nat, now: int, deliver: Gateway, email: string)
    requires k < |st.sequences|
    requires email in st.users && !IsPaidPlan(st.users[email].plan)
    requires Quiet(st.sequences, email, now)
    ensures var r := SweepVisit(st, k, now, deliver);
      && (forall j | 0 <= j < |st.sequences| && st.sequences[j].userEmail == email :: r.sequences[j] == st.sequences[j])
      && Quiet(r.sequences, email, now)
      && LogsFor(r.logs[|st.logs|..], email) == []
  {
    var r := SweepVisit(st, k, now, deliver);
    if st.sequences[k].userEmail == email {
      if FirstActive(st.sequences, email).Some? {
        NotDueIsNoOp(st, email, st.users[email], now, deliver);
      }
      assert r.logs[|st.logs|..] == [];
    } else {
      LogsForNone(r.logs[|st.logs|..], email);
    }
  }

  /** A visit to the user advances the due sequence once and leaves the user
      quiet; a visit to anyone else leaves the due sequence waiting. */
  lemma VisitDueFirst(st: Store, k: nat, now: int, deliver: Gateway, email: string, i: nat)
    requires k < |st.sequences|
    requires email in st.users && !IsPaidPlan(st.users[email].plan)
    requires DueFirst(st.sequences, email, now, i)
    ensures var r := SweepVisit(st, k, now, deliver);
      var a := Advance(st.sequences[i], st.users[email], now, deliver);
      && a.1.Some?
      && (st.sequences[k].userEmail == email ==>
            && r.sequences[i] == a.0 && Quiet(r.sequences, email, now)
            && LogsFor(r.logs[|st.logs|..], email) == [a.1.value])
      && (st.sequences[k].userEmail != email ==>
            && r.sequences[i] == st.sequences[i] && DueFirst(r.sequences, email, now, i)
            && LogsFor(r.logs[|st.logs|..], email) == [])
  {
    var r := SweepVisit(st, k, now, deliver);
    var a := Advance(st.sequences[i], st.users[email], now, deliver);
    if st.sequences[k].userEmail == email {
      assert r.sequences == st.sequences[i := a.0];
      assert r.logs[|st.logs|..] == [a.1.value];
      Lists.FilterKeepsAll([a.1.value], (l: EmailLog) => l.userEmail == email);
      AdvancePreservesWellFormed(st.sequences[i], st.users[email], now, deliver);
      if a.0.status == Active {
        assert a.0.currentStep == 1 || a.0.currentStep == 2;
        assert now < a.0.nextEmailAt;
      }
    } else {
      FirstActiveSame(st.sequences, r.sequences, email);
      LogsForNone(r.logs[|st.logs|..], email);
    }
  }

  /** Visits while the user is quiet leave the user's sequences and logs alone. */
  lemma {:induction false} RunStepsQuiet(st: Store, todo: seq<nat>, now: int, deliver: Gateway, email: string)
    requires forall k | 0 <= k < |todo| :: todo[k] < |st.sequences|
    requires email in st.users && !IsPaidPlan(st.users[email].plan)
    requires Quiet(st.sequences, email, now)
    ensures var r := RunSteps(st, todo, now, deliver);
      && (forall j | 0 <= j < |st.sequences| && st.sequences[j].userEmail == email :: r.sequences[j] == st.sequences[j])
      && LogsFor(r.logs[|st.logs|..], email) == []
    decreases |todo|
  {
    var r := RunSteps(st, todo, now, deliver);
    if |todo| == 0 {
      assert r.logs[|st.logs|..] == [];
    } else {
      var st1 := SweepVisit(st, todo[0], now, deliver);
      VisitQuiet(st, todo[0], now, deliver, email);
      RunStepsQuiet(st1, todo[1..], now, deliver, email);
      LogsForSplit(st.logs, st1.logs, r.logs, email);
    }
  }

  /** Visits that include the due sequence advance it exactly once, and the
      user receives exactly that one message. */
  lemma {:induction false} RunStepsAdvance(st: Store, todo: seq<nat>, now: int, deliver: Gateway, email: string, i: nat)
    requires forall k | 0 <= k < |todo| :: todo[k] < |st.sequences|
    requires email in st.users && !IsPaidPlan(st.users[email].plan)
    requires DueFirst(st.sequences, email, now, i) && i in todo
    ensures var r := RunSteps(st, todo, now, deliver);
      var a := Advance(st.sequences[i], st.users[email], now, deliver);
      && a.1.Some?
      && r.sequences[i] == a.0
      && LogsFor(r.logs[|st.logs|..], email) == [a.1.value]
    decreases |todo|
  {
    var r := RunSteps(st, todo, now, deliver);
    var st1 := SweepVisit(st, todo[0], now, deliver);
    VisitDueFirst(st, todo[0], now, deliver, email, i);
    if st.sequences[todo[0]].userEmail == email {
      RunStepsQuiet(st1, todo[1..], now, deliver, email);
    } else {
      assert todo[0] != i && i in todo[1..];
      RunStepsAdvance(st1, todo[1..], now, deliver, email, i);
    }
    LogsForSplit(st.logs, st1.logs, r.logs, email);
  }

  /** A free user whose first active sequence is due and among the first
      SWEEP_BATCH active ones gets exactly one message from the sweep: that
      sequence moves to its next step and exactly one entry is logged for the
      user, the one the step processor writes. */
  lemma {:induction false} SweepAdvancesFreeUsers(st: Store, now: int, stamp: string, deliver: Gateway, i: nat)
    requires i < |st.sequences|
    requires st.sequences[i].userEmail in st.users && !IsPaidPlan(st.users[st.sequences[i].userEmail].plan)
    requires DueFirst(st.sequences, st.sequences[i].userEmail, now, i)
    requires i in Lists.Take(ActiveSequences(st.sequences), SWEEP_BATCH)
    ensures var r := ProcessPendingDrips(st, now, stamp, deliver);
      var email := st.sequences[i].userEmail;
      var a := Advance(st.sequences[i], st.users[email], now, deliver);
      && a.1.Some?
      && r.sequences[i] == a.0
      && r.sequences[i].currentStep == st.sequences[i].currentStep + 1
      && LogsFor(r.logs[|st.logs|..], email) == [a.1.value]
  {
    var email := st.sequences[i].userEmail;
    var due := Lists.Take(DueChecks(st.queue, now), SWEEP_BATCH);
    var st1 := RunChecks(st, due, now, stamp);
    var m := Lists.Take(ActiveSequences(st1.sequences), SWEEP_BATCH);
    StillListed(st.sequences, st1.sequences, i);
    DueFirstSurvivesChecks(st.sequences, st1.sequences, email, now, i);
    RunStepsAdvance(st1, m, now, deliver, email, i);
  }

  /** New sequences appended after the listing keep every listed position listed. */
  lemma StillListed(seqs: seq<DripSequence>, seqs': seq<DripSequence>, i: nat)
    requires |seqs| <= |seqs'| && seqs'[..|seqs|] == seqs
    requires i in Lists.Take(ActiveSequences(seqs), SWEEP_BATCH)
    ensures i in Lists.Take(ActiveSequences(seqs'), SWEEP_BATCH)
  {
    assert seqs' == seqs + seqs'[|seqs|..];
    IndicesWhereAppend(seqs, seqs'[|seqs|..], IsActive);
    Lists.TakeOfExtension(ActiveSequences(seqs), ActiveSequences(seqs'), SWEEP_BATCH, i);
  }

  /** Sequences just started by the first phase are not yet due, so a due
      first sequence stays the due first one. */
  lemma DueFirstSurvivesChecks(seqs: seq<DripSequence>, seqs': seq<DripSequence>, email: string, now: int, i: nat)
    requires |seqs| <= |seqs'| && seqs'[..|seqs|] == seqs
    requires forall j | |seqs| <= j < |seqs'| :: IsFresh(seqs'[j], seqs'[j].userEmail, now)
    requires DueFirst(seqs, email, now, i)
    ensures DueFirst(seqs', email, now, i)
  {
    FirstActiveExtended(seqs, seqs', email, i);
    assert seqs'[i] == seqs[i];
    forall j | 0 <= j < |seqs'| && j != i && IsActiveOf(seqs'[j], email)
      ensures WellFormed(seqs'[j]) && now < seqs'[j].nextEmailAt
    {
      if j < |seqs| {
        assert seqs'[j] == seqs[j];
      }
    }
  }
}
