/** Taking a Survey back: what cancelling and deleting leave. */
module SurveyRecall {
  import opened SurveyModel
  import opened SurveyTransitions
  import opened SurveyInvariants
  import opened SurveyPending
  import opened SurveyRuns
  import opened SurveySteps
  import opened SurveyResults

  /** Cancelling a running Survey only leaves the wish on its job. */
  lemma CancelRunning(w: World, limits: Limits, s: SurveyId, user: UserId)
    requires Reachable(w, limits) && Visible(w, s, user) && w.surveys[s].status.Running?
    ensures var step := Cancel(w, s, user);
            && step.reply.Done? && s in w.jobOf && w.jobOf[s] in w.jobs
            && step.next.surveys == w.surveys && step.next.drafts == w.drafts && step.next.usage == w.usage
            && step.next.attempts == w.attempts && step.next.jobOf == w.jobOf
            && step.next.jobs == w.jobs[w.jobOf[s] := w.jobs[w.jobOf[s]].(cancelRequested := true)]
  {
    hide Inv, Pending, Withdraw;
    ReachableSound(w, limits);
    IsSound(w, limits, s);
  }

  /** A Survey that has not started computing is withdrawn: cancelled, its reservation back, nothing left to do. */
  ghost predicate Withdrawn(w: World, v: World, s: SurveyId)
    requires s in w.surveys
  {
    && s in v.surveys && v.surveys[s].status.Cancelled? && GivenBack(w, v, s, false)
    && v.surveys - {s} == w.surveys - {s} && s !in v.jobOf
    && (forall j :: j in v.jobs <==> j in w.jobs && w.jobs[j].survey != s)
    && (forall j :: j in v.jobs ==> v.jobs[j] == w.jobs[j])
    && !HasActiveDraft(v.drafts, s)
    && v.drafts.Keys == w.drafts.Keys
    && (forall d :: d in w.drafts && !(w.drafts[d].survey == s && IsActiveDraft(w.drafts[d])) ==>
          v.drafts[d] == w.drafts[d])
  }

  lemma CancelWaiting(w: World, limits: Limits, s: SurveyId, user: UserId)
    requires Reachable(w, limits) && Visible(w, s, user)
    requires w.surveys[s].status.Drafting? || w.surveys[s].status.Queued?
    requires Cancel(w, s, user).reply.Done?
    ensures Withdrawn(w, Cancel(w, s, user).next, s)
  {
    hide Inv, Pending, CancelledDrafts, Settled, Reservations, ChargesTo, CancelledRow;
    ReachableSound(w, limits);
    IsSound(w, limits, s);
    IndexOf(w, limits, s);
    var v := Cancel(w, s, user).next;
    OneReservationLess(w.surveys, s, v.surveys[s]);
    OneJobOnly(w, limits, s);
    RowsCancelled(w.drafts, s);
  }

  lemma RowsCancelled(drafts: map<DraftId, Draft>, s: SurveyId)
    ensures !HasActiveDraft(CancelledDrafts(drafts, s), s) && CancelledDrafts(drafts, s).Keys == drafts.Keys
    ensures forall d :: d in drafts && !(drafts[d].survey == s && IsActiveDraft(drafts[d])) ==>
              CancelledDrafts(drafts, s)[d] == drafts[d]
  {
  }

  lemma OneJobOnly(w: World, limits: Limits, s: SurveyId)
    requires Inv(w, limits)
    ensures forall j :: j in w.jobs ==> (w.jobs[j].survey == s <==> s in w.jobOf && w.jobOf[s] == j)
  {
    hide Lockstep, QuotaExact, ChargedOnce, CancelsStick, DraftChain, Approved, Leased, Targeted, Numbered, Budgeted,
      Capped, Checkpointed, Announced;
  }

  /** A cancelled, withdrawn or ended Survey is cancelled again without effect. */
  lemma CancelRepeated(w: World, s: SurveyId, user: UserId)
    requires Visible(w, s, user) && Terminal(w.surveys[s])
    ensures Cancel(w, s, user) == Step(w, Unchanged)
  {
  }

  /** Survey `s` is gone with its job, its Drafts, its attempts and its mail, and nothing else is. */
  ghost predicate Gone(w: World, v: World, s: SurveyId) {
    && v.surveys == w.surveys - {s} && v.notices == w.notices - {s} && v.jobOf == w.jobOf - {s}
    && (forall j :: j in v.jobs <==> j in w.jobs && w.jobs[j].survey != s)
    && (forall j :: j in v.jobs ==> v.jobs[j] == w.jobs[j])
    && (forall d :: d in v.drafts <==> d in w.drafts && w.drafts[d].survey != s)
    && (forall d :: d in v.drafts ==> v.drafts[d] == w.drafts[d])
    && (forall a :: a in v.attempts <==> a in w.attempts && w.attempts[a].survey != s)
    && (forall a :: a in v.attempts ==> v.attempts[a] == w.attempts[a])
  }

  lemma ErasedGone(w: World, s: SurveyId, v: World)
    requires v == Erased(w, s).(usage := v.usage)
    ensures Gone(w, v, s)
  {
  }

  /** Deleting takes the whole Survey, and what it was charged stays charged. */
  lemma DeleteTakesAll(w: World, s: SurveyId, user: UserId)
    requires Delete(w, s, user).reply.Done?
    ensures var v := Delete(w, s, user).next; Gone(w, v, s) && v.hist == w.hist && v.now == w.now
  {
    hide Settled, Erased, Gone;
    ErasedGone(w, s, Delete(w, s, user).next);
    ErasedHistory(w, s);
  }

  lemma ErasedHistory(w: World, s: SurveyId)
    ensures Erased(w, s).hist == w.hist && Erased(w, s).usage == w.usage && Erased(w, s).now == w.now
    ensures Erased(w, s).surveys == w.surveys - {s}
  {
  }

  lemma ReservationsWithout(surveys: map<SurveyId, Survey>, s: SurveyId)
    requires s in surveys
    ensures |Reservations(surveys - {s}, KeyOf(surveys[s]))|
            == |Reservations(surveys, KeyOf(surveys[s]))| - if surveys[s].quota.Reserved? then 1 else 0
  {
    var key := KeyOf(surveys[s]);
    assert Reservations(surveys, key)
        == Reservations(surveys - {s}, key) + if surveys[s].quota.Reserved? then {s} else {};
  }

  /** A deleted Survey gives back the reservation it still held, and what it was charged stays charged. */
  lemma DeleteGivesBack(w: World, limits: Limits, s: SurveyId, user: UserId)
    requires Reachable(w, limits) && Delete(w, s, user).reply.Done?
    ensures s in w.surveys
    ensures var v, key := Delete(w, s, user).next, KeyOf(w.surveys[s]);
            && |Reservations(v.surveys, key)|
               == |Reservations(w.surveys, key)|
                  - (if w.surveys[s].status.Drafting? || w.surveys[s].status.Queued? then 1 else 0)
            && ChargesTo(v.hist.charges, key) == ChargesTo(w.hist.charges, key)
            && Get(v.usage, key, Usage(0, 0)).reserved == |Reservations(v.surveys, key)|
  {
    hide Inv, Pending, Erased, Reservations, ChargesTo;
    ReachableSound(w, limits);
    IsSound(w, limits, s);
    ErasedHistory(w, s);
    ReservationsWithout(w.surveys, s);
    ReservedRow(w, limits, s);
  }

  lemma ReservedRow(w: World, limits: Limits, s: SurveyId)
    requires Inv(w, limits) && s in w.surveys
    ensures KeyOf(w.surveys[s]) in w.usage
    ensures w.usage[KeyOf(w.surveys[s])].reserved == |Reservations(w.surveys, KeyOf(w.surveys[s]))|
  {
    hide Indexed, Lockstep, ChargedOnce, CancelsStick, DraftChain, Approved, Leased, Targeted, Numbered, Budgeted,
      Capped, Checkpointed, Announced, ChargesTo, Reservations;
    assert Counts(w.usage[KeyOf(w.surveys[s])], w.surveys, w.hist, KeyOf(w.surveys[s]));
  }
}
