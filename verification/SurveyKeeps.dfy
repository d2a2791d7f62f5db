/** Creating, starting, withdrawing and deleting a Survey keep the invariants. */
module SurveyKeeps {
  import opened Wrappers
  import opened SurveyModel
  import opened SurveyTransitions
  import opened SurveyInvariants
  import opened SurveyQuotaLemmas
  import opened SurveyDraftLemmas
  import opened SurveyAttemptLemmas
  import opened SurveyRowLemmas
  import opened SurveySteps

  lemma EmptyKeeps(limits: Limits)
    ensures Inv(EMPTY, limits)
  {
    hide Chain;
    forall kind, target
      ensures SpentOn(EMPTY.attempts, kind, target) == {}
      ensures ActiveOfKind(EMPTY.attempts, kind) == {}
    {
    }
    forall kind, user
      ensures ActiveOfUser(EMPTY.surveys, EMPTY.attempts, kind, user) == {}
    {
    }
  }

  // ---------- create ----------

  /** The Survey row of a create call, before its first Draft. */
  function Inserted(w: World, s: SurveyId, v: Survey, limit: int): World {
    var row := Get(w.usage, KeyOf(v), Usage(0, 0));
    w.(usage := w.usage[KeyOf(v) := row.(reserved := row.reserved + 1)], surveys := w.surveys[s := v],
       hist := w.hist.(births := w.hist.births + 1,
                       ceilings := w.hist.ceilings[KeyOf(v) := Max(Get(w.hist.ceilings, KeyOf(v), 0), limit)]))
  }

  lemma BirthIsNew(surveys: map<SurveyId, Survey>, h: History, h': History, s: SurveyId, v: Survey)
    requires ChargedOnce(surveys, h) && s !in surveys
    requires v.birth == h.births && !v.quota.Consumed? && h'.births == h.births + 1 && h'.charges == h.charges
    ensures ChargedOnce(surveys[s := v], h')
  {
  }

  lemma NoJobYet(surveys: map<SurveyId, Survey>, jobOf: map<SurveyId, JobId>, jobs: map<JobId, Job>,
                 h: History, h': History, s: SurveyId, v: Survey)
    requires Indexed(surveys, jobOf, jobs) && Lockstep(surveys, jobOf, jobs) && s !in surveys
    requires CancelsStick(surveys, jobOf, jobs, h)
    requires v.birth == h.births && v.status.Drafting? && v.quota.Reserved? && v.error.None?
    requires h'.births == h.births + 1 && h'.charges == h.charges && h'.cancels == h.cancels
    ensures Indexed(surveys[s := v], jobOf, jobs) && Lockstep(surveys[s := v], jobOf, jobs)
    ensures CancelsStick(surveys[s := v], jobOf, jobs, h')
  {
    assert SurveySound(v, JobRow(jobOf, jobs, s));
    hide SurveySound;
  }

  lemma NoCheckpointYet(surveys: map<SurveyId, Survey>, jobOf: map<SurveyId, JobId>, jobs: map<JobId, Job>,
                        attempts: map<AttemptId, Attempt>, h: History, h': History, s: SurveyId, v: Survey)
    requires Indexed(surveys, jobOf, jobs) && Checkpointed(surveys, jobOf, jobs, attempts, h)
    requires s !in surveys && v.birth == h.births
    requires h'.births == h.births + 1 && h'.commits == h.commits
    ensures Checkpointed(surveys[s := v], jobOf, jobs, attempts, h')
  {
    hide Positioned, AttemptsOn;
  }

  lemma InsertedKeeps(w: World, limits: Limits, s: SurveyId, v: Survey, limit: int)
    requires Inv(w, limits) && s !in w.surveys
    requires v.birth == w.hist.births && v.status.Drafting? && v.quota.Reserved? && v.error.None?
    requires Get(w.usage, KeyOf(v), Usage(0, 0)).reserved + Get(w.usage, KeyOf(v), Usage(0, 0)).succeeded < limit
    ensures Inv(Inserted(w, s, v, limit), limits) && ReadyOf(w.drafts, s) == {} && !HasActiveDraft(w.drafts, s)
  {
    hide Indexed, Lockstep, QuotaExact, ChargedOnce, CancelsStick, DraftChain, Approved, Leased, Targeted,
      Numbered, Budgeted, Capped, Checkpointed, Quieter, WholeItems;
    var w' := Inserted(w, s, v, limit);
    QuotaReserved(w.usage, w.surveys, w.hist, s, v, limit);
    BirthIsNew(w.surveys, w.hist, w'.hist, s, v);
    NoJobYet(w.surveys, w.jobOf, w.jobs, w.hist, w'.hist, s, v);
    NoCheckpointYet(w.surveys, w.jobOf, w.jobs, w.attempts, w.hist, w'.hist, s, v);
    NoDrafts(w.surveys, w.drafts, s, v);
    NoActiveWithoutRow(w.surveys, w.drafts, s);
    AttemptSurveys(w, limits);
    Unmoved(w.attempts);
    CapsQuieten(w.surveys, w'.surveys, w.attempts, w.attempts, limits);
  }

  lemma NoActiveWithoutRow(surveys: map<SurveyId, Survey>, drafts: map<DraftId, Draft>, s: SurveyId)
    requires DraftChain(surveys, drafts) && s !in surveys
    ensures !HasActiveDraft(drafts, s)
  {
    hide Chain, ActiveSound, OneActive, DraftSound;
  }

  /** What a create call leaves: the opened usage row, or the row with the Survey and its Draft, or nothing. */
  lemma CreateShape(w: World, s: SurveyId, d: DraftId, user: UserId, request: RequestId,
                    hash: Hash, day: Day, override: Option<int>, dailyLimit: int)
    ensures var step := Create(w, s, d, user, request, hash, day, override, dailyLimit);
            var key := Key(user, day);
            var v := Survey(user, request, hash, SurveyStatus.Drafting, day, QuotaState.Reserved, None, false,
                            w.hist.births);
            var w' := Inserted(w, s, v, EffectiveLimit(override, dailyLimit));
            && (step.reply.Done? ==>
                  && s !in w.surveys && d !in w.drafts
                  && Get(w.usage, key, Usage(0, 0)).reserved + Get(w.usage, key, Usage(0, 0)).succeeded
                     < EffectiveLimit(override, dailyLimit)
                  && step.next == w'.(drafts := w'.drafts[d := NewDraft(w, s, request, hash, None)]))
            && (!step.reply.Done? ==>
                  step.next == w || step.next == w.(usage := w.usage[key := Get(w.usage, key, Usage(0, 0))]))
  {
    hide RequestedSurveys;
  }

  lemma CreateKeeps(w: World, limits: Limits, s: SurveyId, d: DraftId, user: UserId, request: RequestId,
                    hash: Hash, day: Day, override: Option<int>, dailyLimit: int)
    requires Inv(w, limits)
    ensures Inv(Create(w, s, d, user, request, hash, day, override, dailyLimit).next, limits)
  {
    hide Indexed, Lockstep, QuotaExact, ChargedOnce, CancelsStick, DraftChain, Approved, Leased, Targeted,
      Numbered, Budgeted, Capped, Checkpointed, Announced, ReadyOf, RequestedSurveys, Create;
    var step := Create(w, s, d, user, request, hash, day, override, dailyLimit);
    var key := Key(user, day);
    CreateShape(w, s, d, user, request, hash, day, override, dailyLimit);
    QuotaRowOpened(w.usage, w.surveys, w.hist, key);
    if step.reply.Done? {
      var v := Survey(user, request, hash, SurveyStatus.Drafting, day, QuotaState.Reserved, None, false, w.hist.births);
      var limit := EffectiveLimit(override, dailyLimit);
      InsertedKeeps(w, limits, s, v, limit);
      UnreadyKeeps(Inserted(w, s, v, limit), limits, d, NewDraft(w, s, request, hash, None));
    }
  }

  // ---------- start ----------

  lemma LatestTops(drafts: map<DraftId, Draft>, s: SurveyId, d: DraftId)
    requires Chain(drafts, s) && IsLatest(drafts, s, d)
    ensures drafts[d].revision.value == |ReadyOf(drafts, s)|
  {
    var ready := ReadyOf(drafts, s);
    assert d in ready;
    assert Link(drafts[d], |ready|);
    var e :| e in ready && e in drafts && drafts[e].revision == Some(|ready|);
    assert IsReady(drafts, s, e);
  }

  lemma JobInserted(surveys: map<SurveyId, Survey>, jobOf: map<SurveyId, JobId>, jobs: map<JobId, Job>,
                    attempts: map<AttemptId, Attempt>, h: History, s: SurveyId, v: Survey, j: JobId, job: Job)
    requires Indexed(surveys, jobOf, jobs) && Lockstep(surveys, jobOf, jobs)
    requires CancelsStick(surveys, jobOf, jobs, h) && Checkpointed(surveys, jobOf, jobs, attempts, h)
    requires s in surveys && s !in jobOf && j !in jobs && job.survey == s && v.birth == surveys[s].birth
    requires SurveySound(v, Some(job)) && !job.cancelRequested && job.checkpoint.None?
    ensures Indexed(surveys[s := v], jobOf[s := j], jobs[j := job])
    ensures Lockstep(surveys[s := v], jobOf[s := j], jobs[j := job])
    ensures CancelsStick(surveys[s := v], jobOf[s := j], jobs[j := job], h)
    ensures Checkpointed(surveys[s := v], jobOf[s := j], jobs[j := job], attempts, h)
  {
    hide SurveySound, Positioned, AttemptsOn;
    assert JobRow(jobOf, jobs, s).None?;
    StartOfLine(|AttemptsOn(attempts, FullWork, j)|);
    forall t | t in surveys && t != s
      ensures JobRow(jobOf[s := j], jobs[j := job], t) == JobRow(jobOf, jobs, t)
    {
    }
  }

  lemma StartOfLine(newest: nat)
    ensures Positioned(None, [], newest)
  {
  }

  function Enqueued(w: World, s: SurveyId, v: Survey, j: JobId, job: Job): World {
    w.(jobOf := w.jobOf[s := j], jobs := w.jobs[j := job], surveys := w.surveys[s := v])
  }

  lemma EnqueuedKeeps(w: World, limits: Limits, s: SurveyId, v: Survey, j: JobId, job: Job)
    requires Inv(w, limits) && s in w.surveys && s !in w.jobOf && j !in w.jobs && job.survey == s
    requires w.surveys[s].status.Drafting? && !HasActiveDraft(w.drafts, s)
    requires v.birth == w.surveys[s].birth && KeyOf(v) == KeyOf(w.surveys[s]) && v.quota == w.surveys[s].quota
    requires SurveySound(v, Some(job)) && !job.cancelRequested && job.checkpoint.None? && job.lease.None?
    requires IsLatest(w.drafts, s, job.approved)
    ensures Inv(Enqueued(w, s, v, j, job), limits)
  {
    hide Indexed, Lockstep, QuotaExact, ChargedOnce, CancelsStick, Leased, Targeted,
      Numbered, Budgeted, Capped, Checkpointed, Announced, ReadyOf, Chain, ActiveSound, OneActive, IsLatest,
      Quieter, WholeItems, SurveySound, HasActiveDraft;
    assert Chain(w.drafts, s);
    hide DraftChain;
    LatestTops(w.drafts, s, job.approved);
    LatestIsReady(w.drafts, s, job.approved);
    JobInserted(w.surveys, w.jobOf, w.jobs, w.attempts, w.hist, s, v, j, job);
    QuotaUntouched(w.usage, w.surveys, w.hist, s, v);
    ChargesUntouched(w.surveys, w.hist, s, v);
    DraftsUnderSurvey(w.surveys, w.drafts, s, v);
    NoNotice(w, limits, s);
    AnnouncedRow(w.surveys, w.notices, s, v);
    AttemptSurveys(w, limits);
    Unmoved(w.attempts);
    CapsQuieten(w.surveys, w.surveys[s := v], w.attempts, w.attempts, limits);
    IdleJobAdded(w.jobs, w.drafts, w.attempts, j, job);
  }

  lemma StartKeeps(w: World, limits: Limits, s: SurveyId, user: UserId, j: JobId, request: RequestId,
                   hash: Hash, notify: bool)
    requires Inv(w, limits)
    ensures Inv(Start(w, s, user, j, request, hash, notify).next, limits)
  {
    hide Inv, IsLatest, HasActiveDraft;
    var step := Start(w, s, user, j, request, hash, notify);
    if step.reply.Done? {
      IsSound(w, limits, s);
      IndexOf(w, limits, s);
      EnqueuedKeeps(w, limits, s, step.next.surveys[s], j, step.next.jobs[j]);
    }
  }

  lemma LatestIsReady(drafts: map<DraftId, Draft>, s: SurveyId, d: DraftId)
    requires IsLatest(drafts, s, d)
    ensures IsReady(drafts, s, d)
  {
  }

  lemma IdleJobAdded(jobs: map<JobId, Job>, drafts: map<DraftId, Draft>, attempts: map<AttemptId, Attempt>,
                     j: JobId, job: Job)
    requires Leased(jobs, drafts, attempts) && Targeted(jobs, drafts, attempts)
    requires j !in jobs && job.lease.None?
    ensures Leased(jobs[j := job], drafts, attempts) && Targeted(jobs[j := job], drafts, attempts)
  {
    forall a | a in attempts
      ensures Targets(jobs[j := job], drafts, attempts[a])
    {
      assert Targets(jobs, drafts, attempts[a]);
    }
  }
}
