/** What a change to one Survey and its job owes the invariants, shared by most transactions. */
module SurveyRowLemmas {
  import opened Wrappers
  import opened SurveyModel
  import opened SurveyTransitions
  import opened SurveyInvariants
  import opened SurveyDraftLemmas
  import opened SurveyAttemptLemmas

  lemma LockstepRow(surveys: map<SurveyId, Survey>, jobOf: map<SurveyId, JobId>, jobs: map<JobId, Job>,
                    s: SurveyId, v: Survey, job: Job)
    requires Indexed(surveys, jobOf, jobs) && Lockstep(surveys, jobOf, jobs)
    requires s in jobOf && job.survey == s && SurveySound(v, Some(job))
    ensures Indexed(surveys[s := v], jobOf, jobs[jobOf[s] := job])
    ensures Lockstep(surveys[s := v], jobOf, jobs[jobOf[s] := job])
  {
    var jobs' := jobs[jobOf[s] := job];
    forall t | t in surveys[s := v]
      ensures SurveySound(surveys[s := v][t], JobRow(jobOf, jobs', t))
    {
      if t != s {
        assert JobRow(jobOf, jobs', t) == JobRow(jobOf, jobs, t);
      }
    }
  }

  lemma CancelsRow(surveys: map<SurveyId, Survey>, jobOf: map<SurveyId, JobId>, jobs: map<JobId, Job>, h: History,
                   s: SurveyId, v: Survey, job: Job)
    requires Indexed(surveys, jobOf, jobs) && CancelsStick(surveys, jobOf, jobs, h)
    requires s in jobOf && job.survey == s && v.birth == surveys[s].birth
    requires job.cancelRequested == jobs[jobOf[s]].cancelRequested
    ensures CancelsStick(surveys[s := v], jobOf, jobs[jobOf[s] := job], h)
  {
    var jobs' := jobs[jobOf[s] := job];
    forall t | t in surveys[s := v]
      ensures surveys[s := v][t].birth in h.cancels <==>
                JobRow(jobOf, jobs', t).Some? && JobRow(jobOf, jobs', t).value.cancelRequested
    {
      if t != s {
        assert JobRow(jobOf, jobs', t) == JobRow(jobOf, jobs, t);
      }
    }
  }

  /** Billing a Survey whose job was never asked to cancel keeps charges and cancels apart. */
  lemma CancelsBilled(surveys: map<SurveyId, Survey>, jobOf: map<SurveyId, JobId>, jobs: map<JobId, Job>,
                      h: History, s: Survey, charge: bool)
    requires CancelsStick(surveys, jobOf, jobs, h) && (charge ==> s.birth !in h.cancels)
    ensures CancelsStick(surveys, jobOf, jobs, Bill(h, s, charge))
  {
  }

  lemma CheckpointsRow(surveys: map<SurveyId, Survey>, jobOf: map<SurveyId, JobId>, jobs: map<JobId, Job>,
                       attempts: map<AttemptId, Attempt>, h: History, s: SurveyId, v: Survey, job: Job)
    requires Indexed(surveys, jobOf, jobs) && Checkpointed(surveys, jobOf, jobs, attempts, h)
    requires s in jobOf && job.survey == s && v.birth == surveys[s].birth
    requires job.checkpoint == jobs[jobOf[s]].checkpoint
    ensures Checkpointed(surveys[s := v], jobOf, jobs[jobOf[s] := job], attempts, h)
  {
    hide Positioned, AttemptsOn;
  }

  /** The same attempts stand on every item when a single row keeps its item. */
  lemma OnRow(attempts: map<AttemptId, Attempt>, a: AttemptId, v: Attempt)
    requires a in attempts && Same(attempts[a], v)
    ensures forall kind, target :: AttemptsOn(attempts[a := v], kind, target) == AttemptsOn(attempts, kind, target)
  {
  }

  /** Leases survive an attempt row that keeps running, or that held no lease. */
  lemma LeasesRow(jobs: map<JobId, Job>, drafts: map<DraftId, Draft>, attempts: map<AttemptId, Attempt>,
                  a: AttemptId, v: Attempt)
    requires Leased(jobs, drafts, attempts)
    requires a in attempts && Same(attempts[a], v)
    requires v.status.Running? || !attempts[a].status.Running?
    ensures Leased(jobs, drafts, attempts[a := v])
  {
  }

  lemma CalmRow(attempts: map<AttemptId, Attempt>, a: AttemptId, v: Attempt)
    requires Numbered(attempts) && a in attempts && Calmer(attempts[a], v)
    ensures Quieter(attempts, attempts[a := v]) && WholeItems(attempts, attempts[a := v])
  {
  }

  /** All that concerns attempts alone, after one of them calmed down. */
  lemma AttemptRow(w: World, limits: Limits, a: AttemptId, v: Attempt)
    requires Inv(w, limits) && a in w.attempts && Calmer(w.attempts[a], v)
    ensures var attempts' := w.attempts[a := v];
            && Targeted(w.jobs, w.drafts, attempts') && Numbered(attempts')
            && Budgeted(attempts', limits) && Capped(w.surveys, attempts', limits)
            && Checkpointed(w.surveys, w.jobOf, w.jobs, attempts', w.hist)
  {
    hide Indexed, Lockstep, QuotaExact, ChargedOnce, CancelsStick, DraftChain, Approved, Leased, Numbered,
      Budgeted, Capped, Announced, Quieter, WholeItems, AttemptsOn;
    var attempts' := w.attempts[a := v];
    CalmRow(w.attempts, a, v);
    NumbersQuieten(w.attempts, attempts');
    BudgetsQuieten(w.attempts, attempts', limits);
    AttemptSurveys(w, limits);
    CapsQuieten(w.surveys, w.surveys, w.attempts, attempts', limits);
    OnRow(w.attempts, a, v);
  }

  lemma AttemptSurveys(w: World, limits: Limits)
    requires Inv(w, limits)
    ensures forall a :: a in w.attempts ==> w.attempts[a].survey in w.surveys
  {
    hide Lockstep, QuotaExact, ChargedOnce, CancelsStick, Chain, ActiveSound, OneActive, Approved, Leased,
      Numbered, Budgeted, Capped, Announced, Checkpointed;
    forall a | a in w.attempts
      ensures w.attempts[a].survey in w.surveys
    {
      assert Targets(w.jobs, w.drafts, w.attempts[a]);
    }
  }

  /** A Survey that has left drafting has no active Draft. */
  lemma NoActiveDraft(surveys: map<SurveyId, Survey>, drafts: map<DraftId, Draft>, s: SurveyId)
    requires DraftChain(surveys, drafts) && s in surveys && !surveys[s].status.Drafting?
    ensures !HasActiveDraft(drafts, s)
  {
    hide Chain, OneActive;
    assert forall d :: d in drafts && drafts[d].survey == s ==> ActiveSound(surveys, drafts, drafts[d]);
  }

  lemma WithJob(w: World, limits: Limits, s: SurveyId)
    requires Inv(w, limits) && s in w.jobOf
    ensures s in w.surveys && w.jobOf[s] in w.jobs && w.jobs[w.jobOf[s]].survey == s
    ensures JobRow(w.jobOf, w.jobs, s) == Some(w.jobs[w.jobOf[s]])
    ensures SurveySound(w.surveys[s], Some(w.jobs[w.jobOf[s]])) && !w.surveys[s].status.Drafting?
  {
    hide QuotaExact, ChargedOnce, CancelsStick, DraftChain, Approved, Leased, Targeted,
      Numbered, Budgeted, Capped, Announced, Checkpointed;
    assert SurveySound(w.surveys[s], JobRow(w.jobOf, w.jobs, s));
  }

  /**
   A Survey and its job move together: same identity, same approved Draft, same checkpoint, a
   lease nobody else could own.  Everything but quota, charges and mail follows.
   */
  lemma PairKeeps(w: World, limits: Limits, s: SurveyId, v: Survey, job: Job)
    requires Inv(w, limits) && s in w.jobOf
    requires var was := w.jobs[w.jobOf[s]];
             && job.survey == s && job.approved == was.approved
             && job.cancelRequested == was.cancelRequested && job.checkpoint == was.checkpoint
             && (job.lease.Some? ==> Holds(w.attempts, job.lease.value.owner, FullWork, w.jobOf[s]))
    requires v.birth == w.surveys[s].birth && v.user == w.surveys[s].user && !v.status.Drafting?
    requires SurveySound(v, Some(job))
    ensures var surveys' := w.surveys[s := v];
            var jobs' := w.jobs[w.jobOf[s] := job];
            && Indexed(surveys', w.jobOf, jobs') && Lockstep(surveys', w.jobOf, jobs')
            && CancelsStick(surveys', w.jobOf, jobs', w.hist)
            && DraftChain(surveys', w.drafts) && Approved(jobs', w.drafts)
            && Leased(jobs', w.drafts, w.attempts) && Targeted(jobs', w.drafts, w.attempts)
            && Capped(surveys', w.attempts, limits)
            && Checkpointed(surveys', w.jobOf, jobs', w.attempts, w.hist)
  {
    hide Lockstep, QuotaExact, ChargedOnce, CancelsStick, DraftChain, Numbered, Budgeted, Capped,
      Announced, Checkpointed, Quieter, WholeItems, SurveySound, AttemptsOn;
    WithJob(w, limits, s);
    var surveys' := w.surveys[s := v];
    var jobs' := w.jobs[w.jobOf[s] := job];
    LockstepRow(w.surveys, w.jobOf, w.jobs, s, v, job);
    CancelsRow(w.surveys, w.jobOf, w.jobs, w.hist, s, v, job);
    NoActiveDraft(w.surveys, w.drafts, s);
    DraftsUnderSurvey(w.surveys, w.drafts, s, v);
    ApprovedStays(w.jobs, jobs', w.drafts, w.drafts);
    CheckpointsRow(w.surveys, w.jobOf, w.jobs, w.attempts, w.hist, s, v, job);
    AttemptSurveys(w, limits);
    Unmoved(w.attempts);
    CapsQuieten(w.surveys, surveys', w.attempts, w.attempts, limits);
    forall a | a in w.attempts
      ensures Targets(jobs', w.drafts, w.attempts[a])
    {
      assert Targets(w.jobs, w.drafts, w.attempts[a]);
    }
  }

  lemma Unmoved(attempts: map<AttemptId, Attempt>)
    requires Numbered(attempts)
    ensures Quieter(attempts, attempts) && WholeItems(attempts, attempts)
  {
  }

  /** A Survey row that keeps what mail was announced about it. */
  lemma AnnouncedRow(surveys: map<SurveyId, Survey>, notices: map<SurveyId, Notice>, s: SurveyId, v: Survey)
    requires Announced(surveys, notices) && s in surveys
    requires s !in notices || v.status == surveys[s].status
    ensures Announced(surveys[s := v], notices)
  {
  }
}
