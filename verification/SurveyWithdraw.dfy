/** Cancelling and deleting a Survey keep the invariants. */
module SurveyWithdraw {
  import opened Wrappers
  import opened SurveyModel
  import opened SurveyTransitions
  import opened SurveyInvariants
  import opened SurveyQuotaLemmas
  import opened SurveyDraftLemmas
  import opened SurveyAttemptLemmas
  import opened SurveyRowLemmas
  import opened SurveySteps

  // ---------- asking a running execution to stop ----------

  lemma CancelRecorded(surveys: map<SurveyId, Survey>, jobOf: map<SurveyId, JobId>, jobs: map<JobId, Job>,
                       h: History, s: SurveyId, job: Job)
    requires Indexed(surveys, jobOf, jobs) && CancelsStick(surveys, jobOf, jobs, h) && ChargedOnce(surveys, h)
    requires s in jobOf && s in surveys && !surveys[s].quota.Consumed? && job.survey == s && job.cancelRequested
    ensures CancelsStick(surveys, jobOf, jobs[jobOf[s] := job], h.(cancels := h.cancels + {surveys[s].birth}))
  {
    var jobs' := jobs[jobOf[s] := job];
    forall t | t in surveys && t != s
      ensures JobRow(jobOf, jobs', t) == JobRow(jobOf, jobs, t) && surveys[t].birth != surveys[s].birth
    {
    }
    forall i | 0 <= i < |h.charges|
      ensures h.charges[i].birth != surveys[s].birth
    {
      if h.charges[i].birth == surveys[s].birth {
        assert Charged(h.charges, surveys[s].birth);
      }
    }
  }

  lemma RequestKeeps(w: World, limits: Limits, s: SurveyId)
    requires Inv(w, limits) && s in w.surveys && w.surveys[s].status.Running? && s in w.jobOf && w.jobOf[s] in w.jobs
    ensures Inv(w.(jobs := w.jobs[w.jobOf[s] := w.jobs[w.jobOf[s]].(cancelRequested := true)],
                   hist := w.hist.(cancels := w.hist.cancels + {w.surveys[s].birth})), limits)
  {
    hide Indexed, Lockstep, QuotaExact, ChargedOnce, CancelsStick, DraftChain, Approved, Leased, Targeted,
      Numbered, Budgeted, Capped, Checkpointed, Announced, AttemptsOn;
    var j := w.jobOf[s];
    var job := w.jobs[j].(cancelRequested := true);
    var h' := w.hist.(cancels := w.hist.cancels + {w.surveys[s].birth});
    WithJob(w, limits, s);
    assert SurveySound(w.surveys[s], Some(job));
    hide SurveySound;
    LockstepRow(w.surveys, w.jobOf, w.jobs, s, w.surveys[s], job);
    assert w.surveys[s := w.surveys[s]] == w.surveys;
    CancelRecorded(w.surveys, w.jobOf, w.jobs, w.hist, s, job);
    CheckpointsRow(w.surveys, w.jobOf, w.jobs, w.attempts, w.hist, s, w.surveys[s], job);
    HistoryAside(w.usage, w.surveys, w.jobOf, w.jobs[j := job], w.attempts, w.hist, h');
    ApprovedStays(w.jobs, w.jobs[j := job], w.drafts, w.drafts);
    SameLeases(w.jobs, w.drafts, w.attempts, j, job);
  }

  /** Accepting a cancellation leaves the quota, the charges and the checkpoints alone. */
  lemma HistoryAside(usage: map<Key, Usage>, surveys: map<SurveyId, Survey>, jobOf: map<SurveyId, JobId>,
                     jobs: map<JobId, Job>, attempts: map<AttemptId, Attempt>, h: History, h': History)
    requires QuotaExact(usage, surveys, h) && ChargedOnce(surveys, h)
    requires Checkpointed(surveys, jobOf, jobs, attempts, h)
    requires h' == h.(cancels := h'.cancels)
    ensures QuotaExact(usage, surveys, h') && ChargedOnce(surveys, h')
    ensures Checkpointed(surveys, jobOf, jobs, attempts, h')
  {
    hide Positioned, AttemptsOn;
    hide Reservations, ChargesTo;
    forall k | k in usage
      ensures Counts(usage[k], surveys, h', k)
    {
      assert Counts(usage[k], surveys, h, k);
    }
  }

  lemma SameLeases(jobs: map<JobId, Job>, drafts: map<DraftId, Draft>, attempts: map<AttemptId, Attempt>,
                   j: JobId, job: Job)
    requires Leased(jobs, drafts, attempts) && Targeted(jobs, drafts, attempts)
    requires j in jobs && job.survey == jobs[j].survey && job.lease == jobs[j].lease
    ensures Leased(jobs[j := job], drafts, attempts) && Targeted(jobs[j := job], drafts, attempts)
  {
    forall a | a in attempts
      ensures Targets(jobs[j := job], drafts, attempts[a])
    {
      assert Targets(jobs, drafts, attempts[a]);
    }
  }

  // ---------- losing the job and its attempts ----------

  /** The attempts of one job, and nothing else, are gone. */
  ghost predicate JobAttemptsGone(attempts: map<AttemptId, Attempt>, attempts': map<AttemptId, Attempt>, j: JobId) {
    && (forall a :: a in attempts' <==> a in attempts && !(attempts[a].kind.FullWork? && attempts[a].target == j))
    && (forall a :: a in attempts' ==> attempts'[a] == attempts[a])
  }

  lemma GoneIsQuieter(attempts: map<AttemptId, Attempt>, attempts': map<AttemptId, Attempt>, j: JobId)
    requires Numbered(attempts) && JobAttemptsGone(attempts, attempts', j)
    ensures Quieter(attempts, attempts') && WholeItems(attempts, attempts')
    ensures forall k :: k != j ==> AttemptsOn(attempts', FullWork, k) == AttemptsOn(attempts, FullWork, k)
  {
  }

  lemma IndexLost(surveys: map<SurveyId, Survey>, jobOf: map<SurveyId, JobId>, jobs: map<JobId, Job>,
                  h: History, s: SurveyId, v: Survey)
    requires Indexed(surveys, jobOf, jobs) && Lockstep(surveys, jobOf, jobs) && CancelsStick(surveys, jobOf, jobs, h)
    requires s in jobOf && !jobs[jobOf[s]].cancelRequested
    requires v.birth == surveys[s].birth && SurveySound(v, None)
    ensures Indexed(surveys[s := v], jobOf - {s}, jobs - {jobOf[s]})
    ensures Lockstep(surveys[s := v], jobOf - {s}, jobs - {jobOf[s]})
    ensures CancelsStick(surveys[s := v], jobOf - {s}, jobs - {jobOf[s]}, h)
  {
    hide SurveySound;
    var jobOf', jobs' := jobOf - {s}, jobs - {jobOf[s]};
    assert JobRow(jobOf, jobs, s) == Some(jobs[jobOf[s]]);
    forall t | t in surveys && t != s
      ensures JobRow(jobOf', jobs', t) == JobRow(jobOf, jobs, t)
    {
    }
    assert JobRow(jobOf', jobs', s) == None;
  }

  lemma CheckpointsLost(surveys: map<SurveyId, Survey>, jobOf: map<SurveyId, JobId>, jobs: map<JobId, Job>,
                        attempts: map<AttemptId, Attempt>, attempts': map<AttemptId, Attempt>, h: History,
                        s: SurveyId, v: Survey)
    requires Indexed(surveys, jobOf, jobs) && Checkpointed(surveys, jobOf, jobs, attempts, h)
    requires s in jobOf && jobs[jobOf[s]].checkpoint.None? && v.birth == surveys[s].birth
    requires forall k :: k != jobOf[s] ==> AttemptsOn(attempts', FullWork, k) == AttemptsOn(attempts, FullWork, k)
    ensures Checkpointed(surveys[s := v], jobOf - {s}, jobs - {jobOf[s]}, attempts', h)
  {
    hide Linear, AttemptsOn;
  }

  lemma JobLinksLost(jobs: map<JobId, Job>, drafts: map<DraftId, Draft>, attempts: map<AttemptId, Attempt>,
                     attempts': map<AttemptId, Attempt>, j: JobId)
    requires Leased(jobs, drafts, attempts) && Targeted(jobs, drafts, attempts) && Approved(jobs, drafts)
    requires JobAttemptsGone(attempts, attempts', j)
    ensures Leased(jobs - {j}, drafts, attempts') && Targeted(jobs - {j}, drafts, attempts')
    ensures Approved(jobs - {j}, drafts)
  {
    hide ReadyOf;
    forall a | a in attempts'
      ensures Targets(jobs - {j}, drafts, attempts'[a])
    {
      assert Targets(jobs, drafts, attempts[a]);
    }
  }

  lemma DraftLinksCancelled(jobs: map<JobId, Job>, drafts: map<DraftId, Draft>, drafts': map<DraftId, Draft>,
                            attempts: map<AttemptId, Attempt>, s: SurveyId)
    requires Leased(jobs, drafts, attempts) && Targeted(jobs, drafts, attempts) && Approved(jobs, drafts)
    requires drafts'.Keys == drafts.Keys && forall d :: d in drafts ==> drafts'[d] == CancelledRow(drafts[d], s)
    requires forall t :: ReadyOf(drafts', t) == ReadyOf(drafts, t)
    ensures Leased(jobs, drafts', attempts) && Targeted(jobs, drafts', attempts) && Approved(jobs, drafts')
  {
    hide ReadyOf;
    forall a | a in attempts
      ensures Targets(jobs, drafts', attempts[a])
    {
      assert Targets(jobs, drafts, attempts[a]);
    }
    forall j | j in jobs
      ensures drafts'[jobs[j].approved] == drafts[jobs[j].approved]
    {
      assert IsReady(drafts, jobs[j].survey, jobs[j].approved);
    }
  }

  /** The tables of a withdrawn Survey: no job, no active Draft, the reservation given back. */
  lemma WithdrawnKeeps(w: World, limits: Limits, s: SurveyId, usage: map<Key, Usage>, v: Survey, v': World)
    requires Inv(w, limits) && s in w.surveys && (w.surveys[s].status.Drafting? || w.surveys[s].status.Queued?)
    requires v == w.surveys[s].(status := SurveyStatus.Cancelled, quota := QuotaState.Released)
    requires Settled(w.usage, KeyOf(w.surveys[s]), false) == Some(usage)
    requires var u := if w.surveys[s].status.Queued? then WithoutJob(w, s) else w;
             v' == u.(usage := usage, drafts := CancelledDrafts(u.drafts, s), surveys := u.surveys[s := v])
    ensures Inv(v', limits)
  {
    hide Indexed, Lockstep, QuotaExact, ChargedOnce, CancelsStick, DraftChain, Approved, Leased, Targeted,
      Numbered, Budgeted, Capped, Checkpointed, Announced, AttemptsOn, ReadyOf, Quieter, WholeItems,
      CancelledRow, Settled;
    IsSound(w, limits, s);
    IndexOf(w, limits, s);
    QuotaSettled(w.usage, w.surveys, w.hist, s, v, false);
    ChargesUntouched(w.surveys, w.hist, s, v);
    NoNotice(w, limits, s);
    AnnouncedRow(w.surveys, w.notices, s, v);
    AttemptSurveys(w, limits);
    DraftsCancelled(w.surveys, w.drafts, CancelledDrafts(w.drafts, s), s, v);
    DraftLinksCancelled(w.jobs, w.drafts, CancelledDrafts(w.drafts, s), w.attempts, s);
    var drafts' := CancelledDrafts(w.drafts, s);
    if w.surveys[s].status.Queued? {
      var j := w.jobOf[s];
      assert SurveySound(v, None);
      hide SurveySound;
      assert JobAttemptsGone(w.attempts, v'.attempts, j);
      hide JobAttemptsGone;
      GoneIsQuieter(w.attempts, v'.attempts, j);
      NumbersQuieten(w.attempts, v'.attempts);
      BudgetsQuieten(w.attempts, v'.attempts, limits);
      GoneRows(w.attempts, v'.attempts, j);
      CapsQuieten(w.surveys, v'.surveys, w.attempts, v'.attempts, limits);
      IndexLost(w.surveys, w.jobOf, w.jobs, w.hist, s, v);
      CheckpointsLost(w.surveys, w.jobOf, w.jobs, w.attempts, v'.attempts, w.hist, s, v);
      JobLinksLost(w.jobs, drafts', w.attempts, v'.attempts, j);
    } else {
      DraftingHasNoJob(w, limits, s);
      assert SurveySound(v, None);
      hide SurveySound;
      Unmoved(w.attempts);
      CapsQuieten(w.surveys, v'.surveys, w.attempts, w.attempts, limits);
      JoblessRow(w.surveys, w.jobOf, w.jobs, w.attempts, w.hist, s, v);
    }
  }

  lemma GoneRows(attempts: map<AttemptId, Attempt>, attempts': map<AttemptId, Attempt>, j: JobId)
    requires JobAttemptsGone(attempts, attempts', j)
    ensures forall a :: a in attempts' ==> a in attempts && attempts'[a] == attempts[a]
  {
  }

  lemma JoblessRow(surveys: map<SurveyId, Survey>, jobOf: map<SurveyId, JobId>, jobs: map<JobId, Job>,
                   attempts: map<AttemptId, Attempt>, h: History, s: SurveyId, v: Survey)
    requires Indexed(surveys, jobOf, jobs) && Lockstep(surveys, jobOf, jobs) && CancelsStick(surveys, jobOf, jobs, h)
    requires Checkpointed(surveys, jobOf, jobs, attempts, h)
    requires s in surveys && s !in jobOf && v.birth == surveys[s].birth && SurveySound(v, None)
    ensures Indexed(surveys[s := v], jobOf, jobs) && Lockstep(surveys[s := v], jobOf, jobs)
    ensures CancelsStick(surveys[s := v], jobOf, jobs, h)
    ensures Checkpointed(surveys[s := v], jobOf, jobs, attempts, h)
  {
    hide SurveySound, Positioned, AttemptsOn;
    assert JobRow(jobOf, jobs, s) == None;
  }

  lemma CancelKeeps(w: World, limits: Limits, s: SurveyId, user: UserId)
    requires Inv(w, limits)
    ensures Inv(Cancel(w, s, user).next, limits)
  {
    hide Inv, Settled, CancelledDrafts;
    var step := Cancel(w, s, user);
    if step.reply.Done? {
      IndexOf(w, limits, s);
      if w.surveys[s].status.Running? {
        RequestKeeps(w, limits, s);
      } else {
        var v := w.surveys[s].(status := SurveyStatus.Cancelled, quota := QuotaState.Released);
        WithdrawnKeeps(w, limits, s, step.next.usage, v, step.next);
      }
    }
  }

  // ---------- deletion ----------

  /** The attempts of one Survey, and nothing else, are gone. */
  ghost predicate SurveyAttemptsGone(attempts: map<AttemptId, Attempt>, attempts': map<AttemptId, Attempt>,
                                     s: SurveyId)
  {
    && (forall a :: a in attempts' <==> a in attempts && attempts[a].survey != s)
    && (forall a :: a in attempts' ==> attempts'[a] == attempts[a])
  }

  lemma SurveyGoneIsQuieter(jobs: map<JobId, Job>, drafts: map<DraftId, Draft>, attempts: map<AttemptId, Attempt>,
                            attempts': map<AttemptId, Attempt>, s: SurveyId)
    requires Numbered(attempts) && Targeted(jobs, drafts, attempts) && SurveyAttemptsGone(attempts, attempts', s)
    ensures Quieter(attempts, attempts') && WholeItems(attempts, attempts')
  {
    hide AttemptsOn;
    forall a | a in attempts
      ensures Targets(jobs, drafts, attempts[a])
    {
    }
  }

  lemma SurveyGoneElsewhere(jobs: map<JobId, Job>, drafts: map<DraftId, Draft>, attempts: map<AttemptId, Attempt>,
                            attempts': map<AttemptId, Attempt>, s: SurveyId, k: JobId)
    requires Targeted(jobs, drafts, attempts) && SurveyAttemptsGone(attempts, attempts', s)
    requires k in jobs && jobs[k].survey != s
    ensures AttemptsOn(attempts', FullWork, k) == AttemptsOn(attempts, FullWork, k)
  {
    forall a | a in AttemptsOn(attempts, FullWork, k)
      ensures a in attempts'
    {
      assert Targets(jobs, drafts, attempts[a]);
    }
  }

  lemma LinksErased(jobs: map<JobId, Job>, jobs': map<JobId, Job>, drafts: map<DraftId, Draft>,
                    drafts': map<DraftId, Draft>, attempts: map<AttemptId, Attempt>,
                    attempts': map<AttemptId, Attempt>, s: SurveyId)
    requires Leased(jobs, drafts, attempts) && Targeted(jobs, drafts, attempts) && Approved(jobs, drafts)
    requires SurveyAttemptsGone(attempts, attempts', s)
    requires forall d :: d in drafts' <==> d in drafts && drafts[d].survey != s
    requires forall d :: d in drafts' ==> drafts'[d] == drafts[d]
    requires forall j :: j in jobs' <==> j in jobs && jobs[j].survey != s
    requires forall j :: j in jobs' ==> jobs'[j] == jobs[j]
    requires forall t :: t != s ==> ReadyOf(drafts', t) == ReadyOf(drafts, t)
    ensures Leased(jobs', drafts', attempts') && Targeted(jobs', drafts', attempts') && Approved(jobs', drafts')
  {
    hide ReadyOf;
    forall a | a in attempts
      ensures Targets(jobs, drafts, attempts[a])
    {
    }
  }

  lemma IndexErased(surveys: map<SurveyId, Survey>, jobOf: map<SurveyId, JobId>,
                    jobs: map<JobId, Job>, jobs': map<JobId, Job>, s: SurveyId)
    requires Indexed(surveys, jobOf, jobs)
    requires forall j :: j in jobs' <==> j in jobs && jobs[j].survey != s
    requires forall j :: j in jobs' ==> jobs'[j] == jobs[j]
    ensures Indexed(surveys - {s}, jobOf - {s}, jobs')
    ensures forall t :: t != s ==> JobRow(jobOf - {s}, jobs', t) == JobRow(jobOf, jobs, t)
  {
  }

  lemma RowsErased(surveys: map<SurveyId, Survey>, jobOf: map<SurveyId, JobId>, jobOf': map<SurveyId, JobId>,
                   jobs: map<JobId, Job>, jobs': map<JobId, Job>, h: History, s: SurveyId)
    requires Lockstep(surveys, jobOf, jobs) && CancelsStick(surveys, jobOf, jobs, h) && ChargedOnce(surveys, h)
    requires forall t :: t != s ==> JobRow(jobOf', jobs', t) == JobRow(jobOf, jobs, t)
    ensures Lockstep(surveys - {s}, jobOf', jobs')
    ensures CancelsStick(surveys - {s}, jobOf', jobs', h) && ChargedOnce(surveys - {s}, h)
  {
    hide SurveySound, JobRow, Charged;
  }

  lemma CheckpointsErased(surveys: map<SurveyId, Survey>, jobOf: map<SurveyId, JobId>, jobs: map<JobId, Job>,
                          jobs': map<JobId, Job>, attempts: map<AttemptId, Attempt>,
                          attempts': map<AttemptId, Attempt>, h: History, s: SurveyId)
    requires Indexed(surveys, jobOf, jobs) && Checkpointed(surveys, jobOf, jobs, attempts, h)
    requires forall j :: j in jobs' <==> j in jobs && jobs[j].survey != s
    requires forall j :: j in jobs' ==> jobs'[j] == jobs[j]
    requires forall k :: k in jobs && jobs[k].survey != s ==>
               AttemptsOn(attempts', FullWork, k) == AttemptsOn(attempts, FullWork, k)
    ensures Checkpointed(surveys - {s}, jobOf - {s}, jobs', attempts', h)
  {
    hide Positioned, AttemptsOn;
  }

  lemma ErasedKeeps(w: World, limits: Limits, s: SurveyId, usage: map<Key, Usage>)
    requires Inv(w, limits) && s in w.surveys
    requires if w.surveys[s].quota.Reserved? then Settled(w.usage, KeyOf(w.surveys[s]), false) == Some(usage)
             else usage == w.usage
    ensures Inv(Erased(w, s).(usage := usage), limits)
  {
    hide Indexed, Lockstep, QuotaExact, ChargedOnce, CancelsStick, DraftChain, Approved, Leased, Targeted,
      Numbered, Budgeted, Capped, Checkpointed, AttemptsOn, ReadyOf, Quieter, WholeItems,
      Settled;
    var v := Erased(w, s);
    assert SurveyAttemptsGone(w.attempts, v.attempts, s);
    hide SurveyAttemptsGone;
    if w.surveys[s].quota.Reserved? {
      QuotaErasedReserved(w.usage, w.surveys, w.hist, s);
    } else {
      QuotaErased(w.usage, w.surveys, w.hist, s);
    }
    DraftsErased(w.surveys, w.drafts, v.drafts, s);
    SurveyGoneIsQuieter(w.jobs, w.drafts, w.attempts, v.attempts, s);
    forall k | k in w.jobs && w.jobs[k].survey != s
      ensures AttemptsOn(v.attempts, FullWork, k) == AttemptsOn(w.attempts, FullWork, k)
    {
      SurveyGoneElsewhere(w.jobs, w.drafts, w.attempts, v.attempts, s, k);
    }
    NumbersQuieten(w.attempts, v.attempts);
    BudgetsQuieten(w.attempts, v.attempts, limits);
    AttemptSurveys(w, limits);
    SurveyGoneRows(w.attempts, v.attempts, s);
    CapsQuieten(w.surveys, v.surveys, w.attempts, v.attempts, limits);
    LinksErased(w.jobs, v.jobs, w.drafts, v.drafts, w.attempts, v.attempts, s);
    IndexErased(w.surveys, w.jobOf, w.jobs, v.jobs, s);
    RowsErased(w.surveys, w.jobOf, v.jobOf, w.jobs, v.jobs, w.hist, s);
    CheckpointsErased(w.surveys, w.jobOf, w.jobs, v.jobs, w.attempts, v.attempts, w.hist, s);
  }

  lemma SurveyGoneRows(attempts: map<AttemptId, Attempt>, attempts': map<AttemptId, Attempt>, s: SurveyId)
    requires SurveyAttemptsGone(attempts, attempts', s)
    ensures forall a :: a in attempts' ==> a in attempts && attempts'[a] == attempts[a]
  {
  }

  lemma DeleteKeeps(w: World, limits: Limits, s: SurveyId, user: UserId)
    requires Inv(w, limits)
    ensures Inv(Delete(w, s, user).next, limits)
  {
    hide Inv, Settled, SurveySound;
    var step := Delete(w, s, user);
    if step.reply.Done? {
      IsSound(w, limits, s);
      ReservedInProgress(w.surveys[s], JobAt(w, s));
      ErasedKeeps(w, limits, s, step.next.usage);
    }
  }

  lemma ReservedInProgress(s: Survey, job: Option<Job>)
    requires SurveySound(s, job)
    ensures s.quota.Reserved? <==> InProgress(s.status)
  {
  }
}
