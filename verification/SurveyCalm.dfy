/**
 What other transactions can do to the items on a fetched work list.  While the capacity lock keeps
 out reservations of the same kind, attempts of that kind only calm down, and a job that nobody holds
 and nobody is about to claim keeps its row, unless it is withdrawn with its Survey.
 */
module SurveyCalm {
  import opened Wrappers
  import opened SurveyModel
  import opened SurveyTransitions
  import opened SurveyInvariants
  import opened SurveyOps
  import opened SurveySteps

  predicate HasItem(jobs: map<JobId, Job>, drafts: map<DraftId, Draft>, kind: WorkKind, t: nat) {
    if kind.DraftWork? then t in drafts else t in jobs
  }

  predicate Meek(x: Attempt, y: Attempt) {
    Same(x, y) && y.survey == x.survey && (Active(y) ==> Active(x)) && (y.started ==> x.started || Active(x))
  }

  /** No attempt of the kind appears, and none disappears unless its item does. */
  ghost predicate AttemptsCalm(attempts: map<AttemptId, Attempt>, attempts': map<AttemptId, Attempt>,
                               jobs': map<JobId, Job>, drafts': map<DraftId, Draft>, kind: WorkKind) {
    && (forall a :: a in attempts' && attempts'[a].kind == kind ==> a in attempts && Meek(attempts[a], attempts'[a]))
    && (forall a | a in attempts && attempts[a].kind == kind && HasItem(jobs', drafts', kind, attempts[a].target)
          :: a in attempts' && attempts'[a].kind == kind)
  }

  /** Nobody holds the unfinished job. */
  predicate Resting(job: Job) {
    job.lease.None? && !job.status.Finished?
  }

  predicate Kept(x: Job, y: Job) {
    y == x || y == x.(cancelRequested := y.cancelRequested)
  }

  /** A resting job without an active attempt stays as it is, and goes only while it is queued. */
  ghost predicate JobsCalm(jobs: map<JobId, Job>, attempts: map<AttemptId, Attempt>, jobs': map<JobId, Job>) {
    forall j :: j in jobs && Resting(jobs[j]) && ActiveOn(attempts, FullWork, j) == {} ==>
      if j in jobs' then Kept(jobs[j], jobs'[j]) else jobs[j].status.Queued?
  }

  /** Only a drafting Survey gets a job. */
  ghost predicate IndexCalm(surveys: map<SurveyId, Survey>, jobOf: map<SurveyId, JobId>, jobOf': map<SurveyId, JobId>) {
    forall s :: s in jobOf' ==>
      || (s in jobOf && jobOf[s] == jobOf'[s])
      || (s in surveys && surveys[s].status.Drafting?)
  }

  /** Drafts stay while their Survey does. */
  ghost predicate DraftsCalm(drafts: map<DraftId, Draft>, surveys': map<SurveyId, Survey>,
                             drafts': map<DraftId, Draft>) {
    forall d :: d in drafts && drafts[d].survey in surveys' ==> d in drafts' && drafts'[d].survey == drafts[d].survey
  }

  predicate Grows(x: Survey, y: Survey) {
    y.birth == x.birth && y.user == x.user && (y.status.Drafting? ==> x.status.Drafting?)
  }

  ghost predicate SurveysCalm(surveys: map<SurveyId, Survey>, surveys': map<SurveyId, Survey>, births: nat,
                              births': nat) {
    && births <= births'
    && forall s :: s in surveys' ==>
         if s in surveys then Grows(surveys[s], surveys'[s]) else surveys'[s].birth >= births
  }

  ghost predicate Calms(w: World, v: World, kind: WorkKind) {
    && AttemptsCalm(w.attempts, v.attempts, v.jobs, v.drafts, kind)
    && JobsCalm(w.jobs, w.attempts, v.jobs)
    && IndexCalm(w.surveys, w.jobOf, v.jobOf)
    && DraftsCalm(w.drafts, v.surveys, v.drafts)
    && SurveysCalm(w.surveys, v.surveys, w.hist.births, v.hist.births)
  }

  // ---------- table by table ----------

  /** Tables that stay as they are, whatever the others do. */
  lemma Stills(w: World, v: World, kind: WorkKind)
    ensures AttemptsCalm(w.attempts, w.attempts, v.jobs, v.drafts, kind)
    ensures JobsCalm(w.jobs, w.attempts, w.jobs)
    ensures IndexCalm(w.surveys, w.jobOf, w.jobOf)
    ensures DraftsCalm(w.drafts, v.surveys, w.drafts)
    ensures SurveysCalm(w.surveys, w.surveys, w.hist.births, w.hist.births)
  {
    hide ActiveOn;
  }

  lemma AttemptRowCalm(attempts: map<AttemptId, Attempt>, a: AttemptId, x: Attempt, jobs: map<JobId, Job>,
                       drafts: map<DraftId, Draft>, kind: WorkKind)
    requires x.kind == kind ==> a in attempts && Meek(attempts[a], x)
    requires a in attempts ==> Same(attempts[a], x)
    ensures AttemptsCalm(attempts, attempts[a := x], jobs, drafts, kind)
  {
    hide Active;
  }

  lemma JobRowCalm(jobs: map<JobId, Job>, attempts: map<AttemptId, Attempt>, j: JobId, x: Job)
    requires j in jobs ==> !Resting(jobs[j]) || ActiveOn(attempts, FullWork, j) != {} || Kept(jobs[j], x)
    ensures JobsCalm(jobs, attempts, jobs[j := x])
  {
    hide ActiveOn, Resting;
  }

  lemma DraftRowCalm(drafts: map<DraftId, Draft>, surveys: map<SurveyId, Survey>, d: DraftId, x: Draft)
    requires d in drafts ==> x.survey == drafts[d].survey
    ensures DraftsCalm(drafts, surveys, drafts[d := x])
  {
  }

  lemma SurveyRowCalm(surveys: map<SurveyId, Survey>, s: SurveyId, x: Survey, births: nat, births': nat)
    requires births <= births' && if s in surveys then Grows(surveys[s], x) else x.birth >= births
    ensures SurveysCalm(surveys, surveys[s := x], births, births')
  {
  }

  // ---------- transaction by transaction ----------

  lemma CreateCalm(w: World, s: SurveyId, d: DraftId, user: UserId, request: RequestId,
                   hash: Hash, day: Day, override: Option<int>, dailyLimit: int, kind: WorkKind)
    ensures Calms(w, Create(w, s, d, user, request, hash, day, override, dailyLimit).next, kind)
  {
    hide RequestedSurveys, AttemptsCalm, JobsCalm, IndexCalm, DraftsCalm, SurveysCalm;
    var step := Create(w, s, d, user, request, hash, day, override, dailyLimit);
    Stills(w, step.next, kind);
    if step.reply.Done? {
      SurveyRowCalm(w.surveys, s, step.next.surveys[s], w.hist.births, step.next.hist.births);
      DraftRowCalm(w.drafts, step.next.surveys, d, step.next.drafts[d]);
    }
  }

  lemma RequestCalm(w: World, s: SurveyId, user: UserId, d: DraftId, request: RequestId, hash: Hash, kind: WorkKind)
    ensures Calms(w, RequestDraft(w, s, user, d, request, hash).next, kind)
  {
    hide RequestedDrafts, LatestRevision, HasActiveDraft, AttemptsCalm, JobsCalm, IndexCalm, DraftsCalm, SurveysCalm;
    var step := RequestDraft(w, s, user, d, request, hash);
    Stills(w, step.next, kind);
    if step.reply.Done? {
      DraftRowCalm(w.drafts, w.surveys, d, step.next.drafts[d]);
    }
  }

  lemma ManualCalm(w: World, s: SurveyId, user: UserId, d: DraftId, request: RequestId, hash: Hash, markdown: string,
                   kind: WorkKind)
    ensures Calms(w, ManualDraft(w, s, user, d, request, hash, markdown).next, kind)
  {
    hide RequestedDrafts, LatestRevision, HasActiveDraft, AttemptsCalm, JobsCalm, IndexCalm, DraftsCalm, SurveysCalm;
    var step := ManualDraft(w, s, user, d, request, hash, markdown);
    Stills(w, step.next, kind);
    if step.reply.Done? {
      DraftRowCalm(w.drafts, w.surveys, d, step.next.drafts[d]);
    }
  }

  lemma CompleteCalm(w: World, d: DraftId, worker: AttemptId, markdown: string, kind: WorkKind)
    ensures Calms(w, CompleteDraft(w, d, worker, markdown).next, kind)
  {
    hide LatestRevision, AttemptsCalm, JobsCalm, IndexCalm, DraftsCalm, SurveysCalm;
    var step := CompleteDraft(w, d, worker, markdown);
    Stills(w, step.next, kind);
    if step.reply.Done? {
      DraftRowCalm(w.drafts, w.surveys, d, step.next.drafts[d]);
    }
  }

  lemma FailDraftCalm(w: World, d: DraftId, worker: AttemptId, kind: WorkKind)
    ensures Calms(w, FailDraft(w, d, worker).next, kind)
  {
    hide AttemptsCalm, JobsCalm, IndexCalm, DraftsCalm, SurveysCalm;
    var step := FailDraft(w, d, worker);
    Stills(w, step.next, kind);
    if step.reply.Done? {
      DraftRowCalm(w.drafts, w.surveys, d, step.next.drafts[d]);
    }
  }

  lemma RecoverDraftCalm(w: World, d: DraftId, kind: WorkKind)
    ensures Calms(w, RecoverDraft(w, d).next, kind)
  {
    hide AttemptsCalm, JobsCalm, IndexCalm, DraftsCalm, SurveysCalm;
    var step := RecoverDraft(w, d);
    Stills(w, step.next, kind);
    if step.reply.Done? {
      DraftRowCalm(w.drafts, w.surveys, d, step.next.drafts[d]);
    }
  }

  lemma NewIndexCalm(surveys: map<SurveyId, Survey>, jobOf: map<SurveyId, JobId>, s: SurveyId, j: JobId)
    requires s in surveys && surveys[s].status.Drafting?
    ensures IndexCalm(surveys, jobOf, jobOf[s := j])
  {
  }

  lemma StartCalm(w: World, s: SurveyId, user: UserId, j: JobId, request: RequestId, hash: Hash, notify: bool,
                  kind: WorkKind)
    ensures Calms(w, Start(w, s, user, j, request, hash, notify).next, kind)
  {
    hide HasActiveDraft, IsLatest, AttemptsCalm, JobsCalm, IndexCalm, DraftsCalm, SurveysCalm;
    var step := Start(w, s, user, j, request, hash, notify);
    Stills(w, step.next, kind);
    if step.reply.Done? {
      NewIndexCalm(w.surveys, w.jobOf, s, j);
      JobRowCalm(w.jobs, w.attempts, j, step.next.jobs[j]);
      SurveyRowCalm(w.surveys, s, step.next.surveys[s], w.hist.births, w.hist.births);
    }
  }

  /** A queued job goes, with its attempts. */
  lemma WithoutJobCalm(w: World, s: SurveyId, kind: WorkKind)
    requires s in w.jobOf ==> w.jobOf[s] in w.jobs ==> w.jobs[w.jobOf[s]].status.Queued?
    ensures var v := WithoutJob(w, s);
            && AttemptsCalm(w.attempts, v.attempts, v.jobs, w.drafts, kind)
            && JobsCalm(w.jobs, w.attempts, v.jobs) && IndexCalm(w.surveys, w.jobOf, v.jobOf)
            && v.drafts == w.drafts && v.surveys == w.surveys && v.hist == w.hist
  {
    hide ActiveOn, Active;
  }

  lemma CancelledCalm(drafts: map<DraftId, Draft>, surveys: map<SurveyId, Survey>, s: SurveyId)
    ensures DraftsCalm(drafts, surveys, CancelledDrafts(drafts, s))
    ensures CancelledDrafts(drafts, s).Keys == drafts.Keys
  {
  }

  lemma OtherItems(attempts: map<AttemptId, Attempt>, attempts': map<AttemptId, Attempt>, jobs: map<JobId, Job>,
                   drafts: map<DraftId, Draft>, drafts': map<DraftId, Draft>, kind: WorkKind)
    requires AttemptsCalm(attempts, attempts', jobs, drafts, kind) && drafts'.Keys == drafts.Keys
    ensures AttemptsCalm(attempts, attempts', jobs, drafts', kind)
  {
    hide Active;
    assert forall t :: HasItem(jobs, drafts', kind, t) == HasItem(jobs, drafts, kind, t);
  }

  lemma WithdrawCalm(w: World, s: SurveyId, kind: WorkKind)
    requires s in w.surveys && !w.surveys[s].status.Running?
    requires w.surveys[s].status.Queued? ==> s in w.jobOf ==> w.jobOf[s] in w.jobs ==> w.jobs[w.jobOf[s]].status.Queued?
    ensures Calms(w, Withdraw(w, s).next, kind)
  {
    hide Settled, CancelledDrafts, WithoutJob, AttemptsCalm, JobsCalm, IndexCalm, DraftsCalm, SurveysCalm;
    var step := Withdraw(w, s);
    Stills(w, step.next, kind);
    if w.surveys[s].status.Queued? {
      WithoutJobCalm(w, s, kind);
    }
    var u := if w.surveys[s].status.Queued? then WithoutJob(w, s) else w;
    Stills(w, w, kind);
    CancelledCalm(w.drafts, step.next.surveys, s);
    if step.reply.Done? {
      assert u.drafts == w.drafts;
      OtherItems(w.attempts, u.attempts, u.jobs, w.drafts, step.next.drafts, kind);
      SurveyRowCalm(w.surveys, s, step.next.surveys[s], w.hist.births, w.hist.births);
    }
  }

  lemma CancelCalm(w: World, limits: Limits, s: SurveyId, user: UserId, kind: WorkKind)
    requires Inv(w, limits)
    ensures Calms(w, Cancel(w, s, user).next, kind)
  {
    hide Inv, Withdraw, AttemptsCalm, JobsCalm, IndexCalm, DraftsCalm, SurveysCalm, ActiveOn;
    Stills(w, Cancel(w, s, user).next, kind);
    if Visible(w, s, user) {
      IsSound(w, limits, s);
      IndexOf(w, limits, s);
      if w.surveys[s].status.Running? {
        if Cancel(w, s, user).reply.Done? {
          JobRowCalm(w.jobs, w.attempts, w.jobOf[s], Cancel(w, s, user).next.jobs[w.jobOf[s]]);
        }
      } else {
        WithdrawCalm(w, s, kind);
      }
    }
  }

  lemma ErasedCalm(w: World, limits: Limits, s: SurveyId, v: World, kind: WorkKind)
    requires Inv(w, limits) && v == Erased(w, s).(usage := v.usage)
    requires forall j :: j in w.jobs && w.jobs[j].survey == s ==> w.jobs[j].status.Queued? || w.jobs[j].status.Finished?
    ensures Calms(w, v, kind)
  {
    hide Indexed, Lockstep, QuotaExact, ChargedOnce, CancelsStick, DraftChain, Approved, Leased,
      Numbered, Budgeted, Capped, Checkpointed, Announced, Active, ActiveOn;
    forall a | a in w.attempts && HasItem(v.jobs, v.drafts, w.attempts[a].kind, w.attempts[a].target)
      ensures a in v.attempts
    {
      assert Targets(w.jobs, w.drafts, w.attempts[a]);
    }
  }

  lemma DeleteCalm(w: World, limits: Limits, s: SurveyId, user: UserId, kind: WorkKind)
    requires Inv(w, limits)
    ensures Calms(w, Delete(w, s, user).next, kind)
  {
    hide Inv, Settled, Erased, AttemptsCalm, JobsCalm, IndexCalm, DraftsCalm, SurveysCalm;
    Stills(w, w, kind);
    if Delete(w, s, user).reply.Done? {
      forall j | j in w.jobs && w.jobs[j].survey == s
        ensures w.jobs[j].status.Queued? || w.jobs[j].status.Finished?
      {
        JobsSurvey(w, limits, j);
      }
      ErasedCalm(w, limits, s, Delete(w, s, user).next, kind);
    }
  }

  lemma SettleCalm(w: World, j: JobId, worker: AttemptId, outcome: Outcome, error: Option<ErrorCode>, chargeable: bool,
                   kind: WorkKind)
    ensures Calms(w, Settle(w, j, worker, outcome, error, chargeable).next, kind)
  {
    hide Settled, AttemptsCalm, JobsCalm, IndexCalm, DraftsCalm, SurveysCalm, ActiveOn;
    var step := Settle(w, j, worker, outcome, error, chargeable);
    Stills(w, step.next, kind);
    if step.reply.Done? {
      var s := w.jobs[j].survey;
      JobRowCalm(w.jobs, w.attempts, j, step.next.jobs[j]);
      SurveyRowCalm(w.surveys, s, step.next.surveys[s], w.hist.births, w.hist.births);
      DraftsAside(w.drafts, step.next.surveys);
    }
  }

  lemma DraftsAside(drafts: map<DraftId, Draft>, surveys: map<SurveyId, Survey>)
    ensures DraftsCalm(drafts, surveys, drafts)
  {
  }

  lemma SweepCalm(w: World, j: JobId, kind: WorkKind)
    ensures Calms(w, RecoverJob(w, j).next, kind)
  {
    hide Settled, AttemptsCalm, JobsCalm, IndexCalm, DraftsCalm, SurveysCalm, ActiveOn;
    var step := RecoverJob(w, j);
    Stills(w, step.next, kind);
    if step.reply.Done? {
      var s := w.jobs[j].survey;
      JobRowCalm(w.jobs, w.attempts, j, step.next.jobs[j]);
      SurveyRowCalm(w.surveys, s, step.next.surveys[s], w.hist.births, w.hist.births);
    }
  }

  lemma FinishCalm(w: World, j: JobId, worker: AttemptId, storage: (UserId, JobId), manifest: Manifest, kind: WorkKind)
    ensures Calms(w, FinishArchive(w, j, worker, storage, manifest).next, kind)
  {
    hide Notified, AttemptsCalm, JobsCalm, IndexCalm, DraftsCalm, SurveysCalm, ActiveOn;
    var step := FinishArchive(w, j, worker, storage, manifest);
    Stills(w, step.next, kind);
    if step.reply.Done? {
      var s := w.jobs[j].survey;
      JobRowCalm(w.jobs, w.attempts, j, step.next.jobs[j]);
      SurveyRowCalm(w.surveys, s, step.next.surveys[s], w.hist.births, w.hist.births);
    }
  }

  lemma DeferCalm(w: World, j: JobId, worker: AttemptId, retryAfter: int, code: ErrorCode, kind: WorkKind)
    ensures Calms(w, DeferArchive(w, j, worker, retryAfter, code).next, kind)
  {
    hide AttemptsCalm, JobsCalm, IndexCalm, DraftsCalm, SurveysCalm, ActiveOn;
    var step := DeferArchive(w, j, worker, retryAfter, code);
    Stills(w, step.next, kind);
    if step.reply.Done? {
      JobRowCalm(w.jobs, w.attempts, j, step.next.jobs[j]);
    }
  }

  lemma MissingCalm(w: World, j: JobId, worker: AttemptId, kind: WorkKind)
    ensures Calms(w, MarkWorkspaceMissing(w, j, worker).next, kind)
  {
    hide AttemptsCalm, JobsCalm, IndexCalm, DraftsCalm, SurveysCalm, ActiveOn;
    var step := MarkWorkspaceMissing(w, j, worker);
    Stills(w, step.next, kind);
    if step.reply.Done? {
      var s := w.jobs[j].survey;
      JobRowCalm(w.jobs, w.attempts, j, step.next.jobs[j]);
      SurveyRowCalm(w.surveys, s, step.next.surveys[s], w.hist.births, w.hist.births);
    }
  }

  lemma RecoveryCalm(w: World, j: JobId, expected: Manifest, code: ErrorCode, replacement: Option<Manifest>,
                     kind: WorkKind)
    ensures Calms(w, RecoverArchived(w, j, expected, code, replacement).next, kind)
  {
    hide OwnStorage, OwnOverlay, AttemptsCalm, JobsCalm, IndexCalm, DraftsCalm, SurveysCalm, ActiveOn;
    var step := RecoverArchived(w, j, expected, code, replacement);
    Stills(w, step.next, kind);
    if step.reply.Done? {
      var s := w.jobs[j].survey;
      JobRowCalm(w.jobs, w.attempts, j, step.next.jobs[j]);
      SurveyRowCalm(w.surveys, s, step.next.surveys[s], w.hist.births, w.hist.births);
    }
  }

  lemma RepairCalm(w: World, j: JobId, expected: Manifest, overlay: Manifest, kind: WorkKind)
    ensures Calms(w, RepairEvidence(w, j, expected, overlay).next, kind)
  {
    hide OwnStorage, OwnOverlay, AttemptsCalm, JobsCalm, IndexCalm, DraftsCalm, SurveysCalm, ActiveOn;
    var step := RepairEvidence(w, j, expected, overlay);
    Stills(w, step.next, kind);
    if step.reply.Done? {
      var s := w.jobs[j].survey;
      JobRowCalm(w.jobs, w.attempts, j, step.next.jobs[j]);
      SurveyRowCalm(w.surveys, s, step.next.surveys[s], w.hist.births, w.hist.births);
    }
  }

  lemma ReserveCalm(w: World, limits: Limits, other: WorkKind, target: nat, a: AttemptId, kind: WorkKind)
    requires other != kind || kind in w.passes
    ensures Calms(w, Reserve(w, limits, other, target, a).next, kind)
  {
    hide Leads, ActiveOfKind, AttemptsCalm, JobsCalm, IndexCalm, DraftsCalm, SurveysCalm;
    var step := Reserve(w, limits, other, target, a);
    Stills(w, step.next, kind);
    if step.reply.Done? {
      AttemptRowCalm(w.attempts, a, step.next.attempts[a], w.jobs, w.drafts, kind);
    }
  }

  lemma LaunchingCalm(w: World, a: AttemptId, kind: WorkKind)
    ensures Calms(w, MarkLaunching(w, a).next, kind)
  {
    hide AttemptsCalm, JobsCalm, IndexCalm, DraftsCalm, SurveysCalm;
    var step := MarkLaunching(w, a);
    Stills(w, step.next, kind);
    if step.reply.Done? {
      AttemptRowCalm(w.attempts, a, step.next.attempts[a], w.jobs, w.drafts, kind);
    }
  }

  lemma LaunchFailedCalm(w: World, a: AttemptId, kind: WorkKind)
    ensures Calms(w, LaunchFailed(w, a).next, kind)
  {
    hide AttemptsCalm, JobsCalm, IndexCalm, DraftsCalm, SurveysCalm;
    var step := LaunchFailed(w, a);
    Stills(w, step.next, kind);
    if step.reply.Done? {
      AttemptRowCalm(w.attempts, a, step.next.attempts[a], w.jobs, w.drafts, kind);
    }
  }

  lemma LaunchedCalm(w: World, a: AttemptId, arn: nat, kind: WorkKind)
    ensures Calms(w, MarkLaunched(w, a, arn).next, kind)
  {
    hide AttemptsCalm, JobsCalm, IndexCalm, DraftsCalm, SurveysCalm;
    var step := MarkLaunched(w, a, arn);
    Stills(w, step.next, kind);
    if step.reply.Done? {
      AttemptRowCalm(w.attempts, a, step.next.attempts[a], w.jobs, w.drafts, kind);
    }
  }

  lemma ClaimDraftCalm(w: World, d: DraftId, a: AttemptId, lease: int, kind: WorkKind)
    ensures Calms(w, ClaimDraft(w, d, a, lease).next, kind)
  {
    hide AttemptsCalm, JobsCalm, IndexCalm, DraftsCalm, SurveysCalm;
    var step := ClaimDraft(w, d, a, lease);
    Stills(w, step.next, kind);
    if step.reply.Done? {
      AttemptRowCalm(w.attempts, a, step.next.attempts[a], step.next.jobs, step.next.drafts, kind);
      DraftRowCalm(w.drafts, w.surveys, d, step.next.drafts[d]);
    }
  }

  lemma ClaimJobCalm(w: World, j: JobId, a: AttemptId, lease: int, timeout: int, kind: WorkKind)
    ensures Calms(w, ClaimJob(w, j, a, lease, timeout).next, kind)
  {
    hide Sequence, AttemptsCalm, JobsCalm, IndexCalm, DraftsCalm, SurveysCalm;
    var step := ClaimJob(w, j, a, lease, timeout);
    Stills(w, step.next, kind);
    if step.reply.Done? {
      var s := w.attempts[a].survey;
      assert a in ActiveOn(w.attempts, FullWork, j);
      AttemptRowCalm(w.attempts, a, step.next.attempts[a], step.next.jobs, step.next.drafts, kind);
      JobRowCalm(w.jobs, w.attempts, j, step.next.jobs[j]);
      if w.jobs[j].status.Queued? {
        SurveyRowCalm(w.surveys, s, step.next.surveys[s], w.hist.births, w.hist.births);
      }
    }
  }

  lemma CommitCalm(w: World, j: JobId, a: AttemptId, position: nat, stage: nat, pointer: nat, kind: WorkKind)
    ensures Calms(w, CommitCheckpoint(w, j, a, position, stage, pointer).next, kind)
  {
    hide CommitsOf, AttemptsCalm, JobsCalm, IndexCalm, DraftsCalm, SurveysCalm, ActiveOn;
    var step := CommitCheckpoint(w, j, a, position, stage, pointer);
    Stills(w, step.next, kind);
    if step.reply.Done? {
      AttemptRowCalm(w.attempts, a, step.next.attempts[a], step.next.jobs, step.next.drafts, kind);
      JobRowCalm(w.jobs, w.attempts, j, step.next.jobs[j]);
    }
  }

  lemma HeartbeatCalm(w: World, a: AttemptId, lease: int, kind: WorkKind)
    ensures Calms(w, Heartbeat(w, a, lease).next, kind)
  {
    hide AttemptsCalm, JobsCalm, IndexCalm, DraftsCalm, SurveysCalm, ActiveOn;
    var step := Heartbeat(w, a, lease);
    Stills(w, step.next, kind);
    if step.reply.Done? {
      var t := w.attempts[a].target;
      if w.attempts[a].kind.FullWork? {
        JobRowCalm(w.jobs, w.attempts, t, step.next.jobs[t]);
      } else {
        DraftRowCalm(w.drafts, w.surveys, t, step.next.drafts[t]);
      }
    }
  }

  /** The rest of the tables lets go of what the attempt holds. */
  ghost predicate LetsGo(w: World, u: World) {
    && u == w.(jobs := u.jobs, drafts := u.drafts)
    && JobsCalm(w.jobs, w.attempts, u.jobs) && DraftsCalm(w.drafts, w.surveys, u.drafts)
  }

  lemma ReturnedLetsGo(w: World, a: AttemptId)
    requires a in w.attempts
    ensures LetsGo(w, Returned(w, a))
  {
    hide JobsCalm, DraftsCalm, ActiveOn;
    var t := w.attempts[a].target;
    Stills(w, w, DraftWork);
    if w.attempts[a].kind.FullWork? {
      if OwnsJob(w, t, a) {
        JobRowCalm(w.jobs, w.attempts, t, w.jobs[t].(lease := None));
      }
    } else if t in w.drafts {
      DraftRowCalm(w.drafts, w.surveys, t, w.drafts[t].(status := DraftStatus.Queued, lease := None));
    }
  }

  lemma DroppedLetsGo(w: World, a: AttemptId, retryable: bool)
    requires a in w.attempts
    ensures LetsGo(w, Dropped(w, a, retryable))
  {
    hide JobsCalm, DraftsCalm, ActiveOn;
    var t := w.attempts[a].target;
    Stills(w, w, DraftWork);
    if w.attempts[a].kind.FullWork? {
      if OwnsJob(w, t, a) {
        JobRowCalm(w.jobs, w.attempts, t, w.jobs[t].(lease := None));
      }
    } else if t in w.drafts {
      var status := if retryable then DraftStatus.Queued else DraftStatus.Failed;
      DraftRowCalm(w.drafts, w.surveys, t, w.drafts[t].(status := status, lease := None));
    }
  }

  /** A stop event changes its own attempt's row, and the item's row at most. */
  ghost predicate Stops(w: World, step: Step, u: World, a: AttemptId) {
    && (!step.reply.Done? ==> step.next == w)
    && (step.reply.Done? ==>
          && a in w.attempts && a in step.next.attempts
          && (step.next == u.(attempts := step.next.attempts) || step.next == w.(attempts := step.next.attempts))
          && step.next.attempts == w.attempts[a := step.next.attempts[a]]
          && Meek(w.attempts[a], step.next.attempts[a])
          && step.next.attempts[a].started == w.attempts[a].started && !step.next.attempts[a].status.Running?)
  }

  lemma StopsCalm(w: World, step: Step, u: World, a: AttemptId, kind: WorkKind)
    requires Stops(w, step, u, a) && LetsGo(w, u)
    ensures Calms(w, step.next, kind)
  {
    hide AttemptsCalm, JobsCalm, IndexCalm, DraftsCalm, SurveysCalm, Active;
    Stills(w, step.next, kind);
    if step.reply.Done? {
      AttemptRowCalm(w.attempts, a, step.next.attempts[a], step.next.jobs, step.next.drafts, kind);
    }
  }

  lemma SucceededStops(w: World, a: AttemptId, version: int)
    requires a in w.attempts
    ensures Stops(w, AttemptSucceeded(w, a, version), Returned(w, a), a)
  {
    hide TargetSettled, Returned;
  }

  lemma StoppedStops(w: World, a: AttemptId, version: int, retryable: bool)
    requires a in w.attempts
    ensures Stops(w, AttemptStopped(w, a, version, retryable), Dropped(w, a, retryable), a)
  {
    hide Dropped;
  }

  lemma SucceededCalm(w: World, a: AttemptId, version: int, kind: WorkKind)
    ensures Calms(w, AttemptSucceeded(w, a, version).next, kind)
  {
    hide Calms, LetsGo, Stops, TargetSettled, Returned;
    if a in w.attempts {
      ReturnedLetsGo(w, a);
      SucceededStops(w, a, version);
      StopsCalm(w, AttemptSucceeded(w, a, version), Returned(w, a), a, kind);
    } else {
      UntouchedCalm(w, w, kind);
    }
  }

  lemma StoppedCalm(w: World, a: AttemptId, version: int, retryable: bool, kind: WorkKind)
    ensures Calms(w, AttemptStopped(w, a, version, retryable).next, kind)
  {
    hide Calms, LetsGo, Stops, Dropped;
    if a in w.attempts {
      DroppedLetsGo(w, a, retryable);
      StoppedStops(w, a, version, retryable);
      StopsCalm(w, AttemptStopped(w, a, version, retryable), Dropped(w, a, retryable), a, kind);
    } else {
      UntouchedCalm(w, w, kind);
    }
  }

  /** A step of a reserving transaction changes its list, and adds one attempt of its kind at most. */
  lemma TryShape(w: World, limits: Limits, kind: WorkKind, a: AttemptId)
    ensures var step := TryNext(w, limits, kind, a);
            if step.reply.Done? then
              && kind in w.passes && w.passes[kind] != [] && a !in w.attempts
              && step.next == w.(attempts := w.attempts[a := LateAttempt(w, kind, w.passes[kind][0])],
                                 passes := w.passes - {kind})
            else step.next == w || step.next == w.(passes := step.next.passes)
  {
    hide LateReserve, Shortened, LateAttempt;
    if kind in w.passes && w.passes[kind] != [] {
      LateShape(w, limits, kind, w.passes[kind][0], a);
    }
  }

  lemma TryCalm(w: World, limits: Limits, other: WorkKind, a: AttemptId, kind: WorkKind)
    requires other != kind
    ensures Calms(w, TryNext(w, limits, other, a).next, kind)
  {
    hide TryNext, AttemptsCalm, JobsCalm, IndexCalm, DraftsCalm, SurveysCalm;
    var step := TryNext(w, limits, other, a);
    TryShape(w, limits, other, a);
    Stills(w, step.next, kind);
    if step.reply.Done? {
      AttemptRowCalm(w.attempts, a, step.next.attempts[a], w.jobs, w.drafts, kind);
    }
  }

  /** A late reservation adds one attempt of its kind, or nothing. */
  lemma LateShape(w: World, limits: Limits, kind: WorkKind, c: Candidate, a: AttemptId)
    ensures var step := LateReserve(w, limits, kind, c, a);
            && (step.reply.Done? ==> a !in w.attempts
                                     && step.next == w.(attempts := w.attempts[a := LateAttempt(w, kind, c)]))
            && (!step.reply.Done? ==> step.next == w)
  {
    hide Current, ActiveOfUser, ActiveOn, NumberTaken;
  }

  lemma OwnerCalm(w: World, limits: Limits, op: Op, kind: WorkKind)
    requires Inv(w, limits) && OfOwner(op)
    ensures Calms(w, Apply(w, limits, op).next, kind)
  {
    hide Inv, Calms, Create, RequestDraft, ManualDraft, CompleteDraft, FailDraft, RecoverDraft, Start, Cancel, Delete,
      Settle, FinishArchive, DeferArchive, MarkWorkspaceMissing, RecoverJob, RecoverArchived, RepairEvidence,
      SetSending, Reserve, Fetch, TryNext, MarkLaunching, LaunchFailed, MarkLaunched, ClaimDraft, ClaimJob,
      CommitCheckpoint, Heartbeat, AttemptSucceeded, AttemptStopped, Tick;
    match op {
      case CompleteSurveyDraft(d, worker, markdown) => CompleteCalm(w, d, worker, markdown, kind);
      case FailSurveyDraft(d, worker) => FailDraftCalm(w, d, worker, kind);
      case RecoverExpiredDraft(d) => RecoverDraftCalm(w, d, kind);
      case StartSurvey(s, user, j, request, hash, notify) => StartCalm(w, s, user, j, request, hash, notify, kind);
      case CancelSurvey(s, user) => CancelCalm(w, limits, s, user, kind);
      case DeleteSurvey(s, user) => DeleteCalm(w, limits, s, user, kind);
      case CreateSurvey(s, d, user, request, hash, day, override, dailyLimit) =>
        CreateCalm(w, s, d, user, request, hash, day, override, dailyLimit, kind);
      case RequestGeneratedDraft(s, user, d, request, hash) => RequestCalm(w, s, user, d, request, hash, kind);
      case CreateManualDraft(s, user, d, request, hash, markdown) =>
        ManualCalm(w, s, user, d, request, hash, markdown, kind);
    }
  }

  lemma SendingCalm(w: World, s: SurveyId, sending: bool, kind: WorkKind)
    ensures Calms(w, SetSending(w, s, sending).next, kind)
  {
    hide Calms;
    UntouchedCalm(w, SetSending(w, s, sending).next, kind);
  }

  lemma ExecutionCalm(w: World, limits: Limits, op: Op, kind: WorkKind)
    requires OfExecution(op)
    ensures Calms(w, Apply(w, limits, op).next, kind)
  {
    hide Calms, Create, RequestDraft, ManualDraft, CompleteDraft, FailDraft, RecoverDraft, Start, Cancel, Delete,
      Settle, FinishArchive, DeferArchive, MarkWorkspaceMissing, RecoverJob, RecoverArchived, RepairEvidence,
      SetSending, Reserve, JoinLine, Fetch, TryNext, EndPass, MarkLaunching, LaunchFailed, MarkLaunched, ClaimDraft,
      ClaimJob, CommitCheckpoint, Heartbeat, AttemptSucceeded, AttemptStopped, Tick;
    match op {
      case SettleExecution(j, worker, outcome, error, chargeable) =>
        SettleCalm(w, j, worker, outcome, error, chargeable, kind);
      case FinishSurveyArchive(j, worker, storage, manifest) => FinishCalm(w, j, worker, storage, manifest, kind);
      case DeferSurveyArchive(j, worker, retryAfter, code) => DeferCalm(w, j, worker, retryAfter, code, kind);
      case MarkArchiveWorkspaceMissing(j, worker) => MissingCalm(w, j, worker, kind);
      case RecoverExpiredJob(j) => SweepCalm(w, j, kind);
      case RecoverArchivedFailure(j, expected, code, replacement) =>
        RecoveryCalm(w, j, expected, code, replacement, kind);
      case RepairDegradedEvidence(j, expected, overlay) => RepairCalm(w, j, expected, overlay, kind);
      case SetMailSending(s, sending) => SendingCalm(w, s, sending, kind);
    }
  }

  lemma UntouchedCalm(w: World, v: World, kind: WorkKind)
    requires v.attempts == w.attempts && v.jobs == w.jobs && v.jobOf == w.jobOf && v.drafts == w.drafts
    requires v.surveys == w.surveys && v.hist == w.hist
    ensures Calms(w, v, kind)
  {
    hide AttemptsCalm, JobsCalm, IndexCalm, DraftsCalm, SurveysCalm;
    Stills(w, v, kind);
  }

  /** Reservations of the kind itself are the exception, unless the capacity lock keeps them out. */
  lemma ComputeCalm(w: World, limits: Limits, op: Op, kind: WorkKind)
    requires !OfOwner(op) && !OfExecution(op)
    requires op.ReserveAttempt? && op.kind == kind ==> kind in w.passes
    requires op.TryCandidate? ==> op.kind != kind
    ensures Calms(w, Apply(w, limits, op).next, kind)
  {
    hide Calms, Create, RequestDraft, ManualDraft, CompleteDraft, FailDraft, RecoverDraft, Start, Cancel,
      Delete, Settle, FinishArchive, DeferArchive, MarkWorkspaceMissing, RecoverJob, RecoverArchived, RepairEvidence,
      SetSending, Reserve, Fetch, TryNext, MarkLaunching, LaunchFailed, MarkLaunched, ClaimDraft, ClaimJob,
      CommitCheckpoint, Heartbeat, AttemptSucceeded, AttemptStopped;
    match op {
      case ReserveAttempt(other, target, a) => ReserveCalm(w, limits, other, target, a, kind);
      case BeginPass(_) => UntouchedCalm(w, Apply(w, limits, op).next, kind);
      case FetchWork(other, began, list) => FetchCalm(w, limits, other, began, list, kind);
      case TryCandidate(other, a) => TryCalm(w, limits, other, a, kind);
      case AbandonPass(_) => UntouchedCalm(w, Apply(w, limits, op).next, kind);
      case MarkAttemptLaunching(a) => LaunchingCalm(w, a, kind);
      case RecordLaunchFailure(a) => LaunchFailedCalm(w, a, kind);
      case MarkAttemptLaunched(a, arn) => LaunchedCalm(w, a, arn, kind);
      case ClaimExactDraft(d, a, lease) => ClaimDraftCalm(w, d, a, lease, kind);
      case ClaimExactJob(j, a, lease, timeout) => ClaimJobCalm(w, j, a, lease, timeout, kind);
      case CommitJobCheckpoint(j, a, position, stage, pointer) => CommitCalm(w, j, a, position, stage, pointer, kind);
      case HeartbeatAttempt(a, lease) => HeartbeatCalm(w, a, lease, kind);
      case RecordSucceeded(a, version) => SucceededCalm(w, a, version, kind);
      case RecordStopped(a, version, retryable) => StoppedCalm(w, a, version, retryable, kind);
      case PassTime(_) => UntouchedCalm(w, Apply(w, limits, op).next, kind);
    }
  }

  lemma FetchOnlyPasses(w: World, limits: Limits, kind: WorkKind, began: Time, list: seq<nat>)
    ensures var v := Fetch(w, limits, kind, began, list).next;
            v == w || v == w.(line := v.line, passes := v.passes)
  {
    hide WorkList, ActiveOfKind, CandidatesOf;
  }

  lemma FetchCalm(w: World, limits: Limits, other: WorkKind, began: Time, list: seq<nat>, kind: WorkKind)
    ensures Calms(w, Fetch(w, limits, other, began, list).next, kind)
  {
    hide Calms, Fetch;
    FetchOnlyPasses(w, limits, other, began, list);
    UntouchedCalm(w, Fetch(w, limits, other, began, list).next, kind);
  }
}
