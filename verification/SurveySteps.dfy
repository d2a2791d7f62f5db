/** Every Survey transaction keeps the invariants. */
module SurveySteps {
  import opened Wrappers
  import opened SurveyModel
  import opened SurveyTransitions
  import opened SurveyInvariants
  import opened SurveyQuotaLemmas
  import opened SurveyDraftLemmas
  import opened SurveyAttemptLemmas
  import opened SurveyRowLemmas

  // ---------- changes to one row ----------

  /** Attempt `a` holds no lease on its own item. */
  predicate Unleased(w: World, a: AttemptId) {
    a in w.attempts ==>
      match w.attempts[a].kind
      case FullWork => w.attempts[a].target in w.jobs ==> !OwnsJob(w, w.attempts[a].target, a)
      case DraftWork =>
        w.attempts[a].target in w.drafts && w.drafts[w.attempts[a].target].lease.Some? ==>
          w.drafts[w.attempts[a].target].lease.value.owner != a
  }

  lemma LeasesGone(w: World, a: AttemptId, v: Attempt)
    requires Leased(w.jobs, w.drafts, w.attempts)
    requires a in w.attempts && Same(w.attempts[a], v) && Unleased(w, a)
    ensures Leased(w.jobs, w.drafts, w.attempts[a := v])
  {
  }

  lemma AttemptRowKeeps(w: World, limits: Limits, a: AttemptId, v: Attempt)
    requires Inv(w, limits) && a in w.attempts && Calmer(w.attempts[a], v)
    requires v.status.Running? || !w.attempts[a].status.Running? || Unleased(w, a)
    ensures Inv(w.(attempts := w.attempts[a := v]), limits)
  {
    hide Indexed, Lockstep, QuotaExact, ChargedOnce, CancelsStick, DraftChain, Approved, Leased, Targeted,
      Numbered, Budgeted, Capped, Checkpointed, Announced, Unleased;
    AttemptRow(w, limits, a, v);
    if v.status.Running? || !w.attempts[a].status.Running? {
      LeasesRow(w.jobs, w.drafts, w.attempts, a, v);
    } else {
      LeasesGone(w, a, v);
    }
  }

  lemma DraftRowLinks(w: World, d: DraftId, v: Draft)
    requires Approved(w.jobs, w.drafts) && Leased(w.jobs, w.drafts, w.attempts)
    requires Targeted(w.jobs, w.drafts, w.attempts)
    requires d in w.drafts ==> !w.drafts[d].status.Ready? && w.drafts[d].survey == v.survey
    requires v.lease.Some? ==> Holds(w.attempts, v.lease.value.owner, DraftWork, d)
    requires forall j :: j in w.jobs ==>
               ReadyOf(w.drafts[d := v], w.jobs[j].survey) == ReadyOf(w.drafts, w.jobs[j].survey)
    ensures Approved(w.jobs, w.drafts[d := v]) && Leased(w.jobs, w.drafts[d := v], w.attempts)
    ensures Targeted(w.jobs, w.drafts[d := v], w.attempts)
  {
    hide ReadyOf;
    forall a | a in w.attempts
      ensures Targets(w.jobs, w.drafts[d := v], w.attempts[a])
    {
      assert Targets(w.jobs, w.drafts, w.attempts[a]);
    }
  }

  /** A Draft row that neither was ready nor becomes ready. */
  lemma UnreadyKeeps(w: World, limits: Limits, d: DraftId, v: Draft)
    requires Inv(w, limits)
    requires d in w.drafts ==> !w.drafts[d].status.Ready? && w.drafts[d].survey == v.survey
    requires v.survey in w.surveys && !v.status.Ready? && DraftSound(v) && ActiveSound(w.surveys, w.drafts, v)
    requires IsActiveDraft(v) ==>
               forall e :: e in w.drafts && w.drafts[e].survey == v.survey && IsActiveDraft(w.drafts[e]) ==> e == d
    requires v.lease.Some? ==> Holds(w.attempts, v.lease.value.owner, DraftWork, d)
    ensures Inv(w.(drafts := w.drafts[d := v]), limits)
  {
    hide Indexed, Lockstep, QuotaExact, ChargedOnce, CancelsStick, DraftChain, Approved, Leased, Targeted,
      Numbered, Budgeted, Capped, Checkpointed, Announced, DraftSound, ActiveSound, ReadyOf;
    UnreadyRow(w.surveys, w.drafts, d, v);
    DraftRowLinks(w, d, v);
  }

  /** The only active Draft of a Survey, and what soundness says of it. */
  lemma ActiveFacts(w: World, limits: Limits, d: DraftId)
    requires Inv(w, limits) && d in w.drafts && IsActiveDraft(w.drafts[d])
    ensures w.drafts[d].survey in w.surveys && w.surveys[w.drafts[d].survey].status.Drafting?
    ensures w.drafts[d].basedOn == Top(w.drafts, w.drafts[d].survey) && DraftSound(w.drafts[d])
    ensures |ReadyOf(w.drafts, w.drafts[d].survey)| < 10
    ensures forall e :: e in w.drafts && w.drafts[e].survey == w.drafts[d].survey && IsActiveDraft(w.drafts[e]) ==>
              e == d
  {
    hide Indexed, Lockstep, QuotaExact, ChargedOnce, CancelsStick, Approved, Leased, Targeted,
      Numbered, Budgeted, Capped, Checkpointed, Announced, Chain;
    assert ActiveSound(w.surveys, w.drafts, w.drafts[d]);
  }

  /** A drafting Survey has no job, so its Drafts are nobody's approved Draft. */
  lemma DraftingHasNoJob(w: World, limits: Limits, s: SurveyId)
    requires Inv(w, limits) && s in w.surveys && w.surveys[s].status.Drafting?
    ensures s !in w.jobOf && forall j :: j in w.jobs ==> w.jobs[j].survey != s
  {
    hide QuotaExact, ChargedOnce, CancelsStick, DraftChain, Approved, Leased, Targeted,
      Numbered, Budgeted, Capped, Checkpointed, Announced;
    assert SurveySound(w.surveys[s], JobRow(w.jobOf, w.jobs, s));
  }

  lemma SetAside(w: World, limits: Limits, d: DraftId, status: DraftStatus)
    requires Inv(w, limits) && d in w.drafts && IsActiveDraft(w.drafts[d])
    requires status.Queued? || status.Failed?
    ensures Inv(w.(drafts := w.drafts[d := w.drafts[d].(status := status, lease := None)]), limits)
  {
    hide Inv;
    ActiveFacts(w, limits, d);
    UnreadyKeeps(w, limits, d, w.drafts[d].(status := status, lease := None));
  }

  /** A Survey and its job change together, without touching quota or mail. */
  lemma JobKeeps(w: World, limits: Limits, s: SurveyId, v: Survey, job: Job)
    requires Inv(w, limits) && s in w.jobOf && s in w.surveys && w.jobOf[s] in w.jobs
    requires var was := w.jobs[w.jobOf[s]];
             && job.survey == s && job.approved == was.approved
             && job.cancelRequested == was.cancelRequested && job.checkpoint == was.checkpoint
             && (job.lease.Some? ==> Holds(w.attempts, job.lease.value.owner, FullWork, w.jobOf[s]))
    requires v.birth == w.surveys[s].birth && KeyOf(v) == KeyOf(w.surveys[s]) && !v.status.Drafting?
    requires v.quota == w.surveys[s].quota && (v.status == w.surveys[s].status || s !in w.notices)
    requires SurveySound(v, Some(job))
    ensures Inv(w.(surveys := w.surveys[s := v], jobs := w.jobs[w.jobOf[s] := job]), limits)
  {
    hide Indexed, Lockstep, QuotaExact, ChargedOnce, CancelsStick, DraftChain, Approved, Leased, Targeted,
      Numbered, Budgeted, Capped, Checkpointed, Announced, SurveySound;
    PairKeeps(w, limits, s, v, job);
    QuotaUntouched(w.usage, w.surveys, w.hist, s, v);
    ChargesUntouched(w.surveys, w.hist, s, v);
    AnnouncedRow(w.surveys, w.notices, s, v);
  }

  /** Only the job row changes: a lease comes or goes, or a retry is scheduled. */
  lemma JobOnlyKeeps(w: World, limits: Limits, j: JobId, job: Job)
    requires Inv(w, limits) && j in w.jobs
    requires var was := w.jobs[j];
             && job.survey == was.survey && job.approved == was.approved && job.status == was.status
             && job.outcome == was.outcome && job.deadline == was.deadline && !was.status.Queued?
             && job.storage == was.storage && job.manifest == was.manifest
             && job.cancelRequested == was.cancelRequested && job.checkpoint == was.checkpoint
             && (job.lease.Some? ==> (was.status.Running? || was.status.Archiving?)
                                     && Holds(w.attempts, job.lease.value.owner, FullWork, j))
    ensures Inv(w.(jobs := w.jobs[j := job]), limits)
  {
    hide Inv, SurveySound, Holds;
    var s := w.jobs[j].survey;
    JobsSurvey(w, limits, j);
    StillSound(w.surveys[s], w.jobs[j], job);
    JobKeeps(w, limits, s, w.surveys[s], job);
    assert w.(surveys := w.surveys[s := w.surveys[s]], jobs := w.jobs[j := job]) == w.(jobs := w.jobs[j := job]) by {
      assert w.surveys[s := w.surveys[s]] == w.surveys;
    }
  }

  lemma StillSound(s: Survey, was: Job, job: Job)
    requires SurveySound(s, Some(was)) && !was.status.Queued?
    requires job.status == was.status && job.outcome == was.outcome && job.cancelRequested == was.cancelRequested
    requires job.deadline == was.deadline && job.storage == was.storage && job.manifest == was.manifest
    requires job.lease.Some? ==> was.status.Running? || was.status.Archiving?
    ensures SurveySound(s, Some(job))
  {
  }

  lemma JobsSurvey(w: World, limits: Limits, j: JobId)
    requires Inv(w, limits) && j in w.jobs
    ensures Attached(w, j) && JobAt(w, w.jobs[j].survey) == Some(w.jobs[j])
    ensures SurveySound(w.surveys[w.jobs[j].survey], Some(w.jobs[j]))
    ensures !w.surveys[w.jobs[j].survey].status.Drafting?
  {
    hide QuotaExact, ChargedOnce, CancelsStick, DraftChain, Approved, Leased, Targeted,
      Numbered, Budgeted, Capped, Checkpointed, Announced, Lockstep, SurveySound;
    WithJob(w, limits, w.jobs[j].survey);
  }

  lemma IndexOf(w: World, limits: Limits, s: SurveyId)
    requires Inv(w, limits)
    ensures JobAt(w, s).None? <==> s !in w.jobOf
  {
    hide Lockstep, QuotaExact, ChargedOnce, CancelsStick, DraftChain, Approved, Leased, Targeted,
      Numbered, Budgeted, Capped, Checkpointed, Announced;
  }

  lemma IsSound(w: World, limits: Limits, s: SurveyId)
    requires Inv(w, limits) && s in w.surveys
    ensures SurveySound(w.surveys[s], JobAt(w, s))
  {
    hide Indexed, QuotaExact, ChargedOnce, CancelsStick, DraftChain, Approved, Leased, Targeted,
      Numbered, Budgeted, Capped, Checkpointed, SurveySound, Announced;
  }

  /** No mail has been announced about a Survey that has not ended. */
  lemma NoNotice(w: World, limits: Limits, s: SurveyId)
    requires Inv(w, limits) && s in w.surveys && !Terminal(w.surveys[s])
    ensures s !in w.notices
  {
    hide Indexed, Lockstep, QuotaExact, ChargedOnce, CancelsStick, DraftChain, Approved, Leased, Targeted,
      Numbered, Budgeted, Capped, Checkpointed;
  }
}
