/** The step processor (`process_drip_campaign`) and cancellation
    (`stop_drip_campaign`) of backend/email_service.py. */
module DripStep {
  import opened Wrappers
  import opened DripModel

  /** A sequence as the engine creates and keeps it: its step pointer never
      passes the end of the script, and an active one still has a step to send. */
  predicate WellFormed(s: DripSequence) {
    s.currentStep <= |STEPS| && (s.status == Active ==> s.currentStep < |STEPS|)
  }

  /** The message step `k` of the script sends to `user`. */
  function RenderStep(k: nat, user: User): RenderedEmail
    requires k < |STEPS|
  {
    GetEmailTemplate(STEPS[k].template, FirstName(user.fullName), user.preferredLanguage.GetOr("en"))
  }

  /** One visit of the step processor to an active sequence: the sequence as
      written back and the log entry appended, if any. */
  function Advance(s: DripSequence, user: User, now: int, deliver: Gateway): (r: (DripSequence, Option<EmailLog>))
    requires s.status == Active
    // identity and creation never change
    ensures r.0.sequenceId == s.sequenceId && r.0.userEmail == s.userEmail && r.0.createdAt == s.createdAt
    ensures r.0.cancelledAt == s.cancelledAt && r.0.cancelReason == s.cancelReason
    ensures r.0.status == Active || r.0.status == Completed
    // past the end of the script: completed, nothing sent
    ensures s.currentStep >= |STEPS| ==>
      r.1.None? && r.0 == s.(status := Completed, completedAt := Some(now))
    // not yet due: nothing at all happens
    ensures s.currentStep < |STEPS| && now < s.nextEmailAt ==> r == (s, None)
    // due: exactly one log entry for step currentStep, whatever the outcome
    ensures r.1.Some? <==> s.currentStep < |STEPS| && s.nextEmailAt <= now
    ensures r.1.Some? ==>
      var log := r.1.value;
      var d := deliver(s.userEmail, RenderStep(s.currentStep, user));
      && log.step == s.currentStep + 1
      && log.template == STEPS[s.currentStep].template
      && log.userEmail == s.userEmail && log.sequenceId == s.sequenceId && log.sentAt == now
      && log.status == d.status && log.emailId == d.emailId && log.mode == d.mode
    ensures r.1.Some? ==> r.0.currentStep == s.currentStep + 1
    ensures r.1.Some? && r.0.currentStep < |STEPS| ==>
      r.0.status == Active && r.0.nextEmailAt == now + STEPS[r.0.currentStep].delayHours * HOUR
      && r.0.lastEmailSent == Some(now)
    ensures r.1.Some? && r.0.currentStep == |STEPS| ==>
      r.0.status == Completed && r.0.completedAt == Some(now)
  {
    var k := s.currentStep;
    if k >= |STEPS| then
      (s.(status := Completed, completedAt := Some(now)), None)
    else if now < s.nextEmailAt then
      (s, None)
    else
      var step := STEPS[k];
      var d := deliver(s.userEmail, RenderStep(k, user));
      var log := EmailLog(s.userEmail, step.template, k + 1, s.sequenceId, d.status, d.emailId, now, d.mode);
      var next := k + 1;
      if next < |STEPS| then
        (s.(currentStep := next, nextEmailAt := now + STEPS[next].delayHours * HOUR, lastEmailSent := Some(now)), Some(log))
      else
        (s.(status := Completed, currentStep := next, completedAt := Some(now)), Some(log))
  }

  /** The step processor keeps sequences well formed, so on those its
      past-the-end branch is never taken. */
  lemma AdvancePreservesWellFormed(s: DripSequence, user: User, now: int, deliver: Gateway)
    requires s.status == Active && WellFormed(s)
    ensures WellFormed(Advance(s, user, now, deliver).0)
    ensures Advance(s, user, now, deliver).0.currentStep >= s.currentStep
  {
  }

  /** `process_drip_campaign(db, email, user)`: advance the user's first
      active sequence, if there is one. */
  function ProcessDripCampaign(st: Store, email: string, user: User, now: int, deliver: Gateway): (r: Store)
    ensures r.users == st.users && r.events == st.events && r.queue == st.queue
    ensures |r.sequences| == |st.sequences|
    ensures FirstActive(st.sequences, email).None? ==> r == st
    ensures FirstActive(st.sequences, email).Some? ==>
      var i := FirstActive(st.sequences, email).value;
      var a := Advance(st.sequences[i], user, now, deliver);
      && r.sequences == st.sequences[i := a.0]
      && r.logs == st.logs + (if a.1.Some? then [a.1.value] else [])
    // only that user's active sequence may change, and at most one log entry is written
    ensures forall j | 0 <= j < |st.sequences| :: !IsActiveOf(st.sequences[j], email) ==> r.sequences[j] == st.sequences[j]
    ensures st.logs <= r.logs && |r.logs| <= |st.logs| + 1
  {
    match FirstActive(st.sequences, email)
    case None => st
    case Some(i) =>
      var a := Advance(st.sequences[i], user, now, deliver);
      st.(sequences := st.sequences[i := a.0],
          logs := st.logs + (if a.1.Some? then [a.1.value] else []))
  }

  /** Before the next message is due, processing sends nothing, logs nothing
      and changes nothing. */
  lemma NotDueIsNoOp(st: Store, email: string, user: User, now: int, deliver: Gateway)
    requires FirstActive(st.sequences, email).Some?
    requires var s := st.sequences[FirstActive(st.sequences, email).value];
      s.currentStep < |STEPS| && now < s.nextEmailAt
    ensures ProcessDripCampaign(st, email, user, now, deliver) == st
  {
    var i := FirstActive(st.sequences, email).value;
    assert st.sequences[i := st.sequences[i]] == st.sequences;
    assert st.logs + [] == st.logs;
  }

  /** Three due visits take a fresh sequence through the whole script: it ends
      completed at step 3, and exactly three entries are logged, one per
      template in order. */
  lemma {:induction false} ThreeDueVisitsComplete(
    st: Store, email: string, user: User, t1: int, t2: int, t3: int, deliver: Gateway)
    requires FirstActive(st.sequences, email).Some?
    requires var s := st.sequences[FirstActive(st.sequences, email).value];
      s.currentStep == 0 && s.nextEmailAt <= t1
    requires t1 + STEPS[1].delayHours * HOUR <= t2
    requires t2 + STEPS[2].delayHours * HOUR <= t3
    ensures
      var i := FirstActive(st.sequences, email).value;
      var st3 := ProcessDripCampaign(
        ProcessDripCampaign(ProcessDripCampaign(st, email, user, t1, deliver), email, user, t2, deliver),
        email, user, t3, deliver);
      && st3.sequences[i].status == Completed
      && st3.sequences[i].currentStep == |STEPS|
      && |st3.logs| == |st.logs| + 3
      && st3.logs[..|st.logs|] == st.logs
      && (forall k | 0 <= k < 3 ::
            st3.logs[|st.logs| + k].template == STEPS[k].template
            && st3.logs[|st.logs| + k].step == k + 1
            && st3.logs[|st.logs| + k].sequenceId == st.sequences[i].sequenceId)
  {
    var i := FirstActive(st.sequences, email).value;
    var st1 := ProcessDripCampaign(st, email, user, t1, deliver);
    StillFirstActive(st, st1, email, i);
    assert st1.sequences[i].currentStep == 1 && st1.sequences[i].nextEmailAt == t1 + STEPS[1].delayHours * HOUR;
    var st2 := ProcessDripCampaign(st1, email, user, t2, deliver);
    StillFirstActive(st1, st2, email, i);
    assert st2.sequences[i].currentStep == 2;
    var st3 := ProcessDripCampaign(st2, email, user, t3, deliver);
    assert st3.sequences[i].status == Completed;
  }

  /** A step that leaves the first active sequence active leaves it first. */
  lemma StillFirstActive(st: Store, st': Store, email: string, i: nat)
    requires FirstActive(st.sequences, email) == Some(i)
    requires |st'.sequences| == |st.sequences|
    requires forall j | 0 <= j < |st.sequences| && j != i :: st'.sequences[j] == st.sequences[j]
    requires IsActiveOf(st'.sequences[i], email)
    ensures FirstActive(st'.sequences, email) == Some(i)
  {
  }

  /** The cancelled form of a sequence, as `stop_drip_campaign` writes it. */
  function Cancel(s: DripSequence, reason: string, now: int): DripSequence {
    s.(status := Cancelled, cancelledAt := Some(now), cancelReason := Some(reason))
  }

  /** `stop_drip_campaign(db, email, reason)`: every active sequence of the
      user becomes cancelled with `reason`; the flag says whether any did. */
  function StopDripCampaign(st: Store, email: string, reason: string, now: int): (r: (Store, bool))
    ensures r.0.users == st.users && r.0.events == st.events && r.0.queue == st.queue && r.0.logs == st.logs
    ensures |r.0.sequences| == |st.sequences|
    ensures forall j | 0 <= j < |st.sequences| ::
      r.0.sequences[j] == (if IsActiveOf(st.sequences[j], email) then Cancel(st.sequences[j], reason, now) else st.sequences[j])
    ensures r.1 <==> exists j | 0 <= j < |st.sequences| :: IsActiveOf(st.sequences[j], email)
    ensures forall j | 0 <= j < |r.0.sequences| :: !IsActiveOf(r.0.sequences[j], email)
  {
    var seqs := seq(|st.sequences|, j requires 0 <= j < |st.sequences| =>
      if IsActiveOf(st.sequences[j], email) then Cancel(st.sequences[j], reason, now) else st.sequences[j]);
    (st.(sequences := seqs), FirstActive(st.sequences, email).Some?)
  }

  /** Stopping twice: the second call finds nothing to cancel and changes nothing. */
  lemma StopIsIdempotent(st: Store, email: string, reason: string, now: int, reason': string, now': int)
    ensures var st1 := StopDripCampaign(st, email, reason, now).0;
      StopDripCampaign(st1, email, reason', now') == (st1, false)
  {
    var st1 := StopDripCampaign(st, email, reason, now).0;
    var r := StopDripCampaign(st1, email, reason', now');
    assert r.0.sequences == st1.sequences;
  }
}
