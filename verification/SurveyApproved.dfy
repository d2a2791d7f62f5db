/** Ready Drafts never change, and a job keeps the Draft it was started with. */
module SurveyApproved {
  import opened Wrappers
  import opened SurveyModel
  import opened SurveyTransitions
  import opened SurveyInvariants
  import opened SurveyOps
  import opened SurveyPending
  import opened SurveyRuns
  import opened SurveyHistory
  import opened SurveyEvolution

  /** A ready Draft goes only when its Survey goes. */
  ghost predicate DraftsStay(drafts: map<DraftId, Draft>, v: World) {
    forall d :: d in drafts && drafts[d].status.Ready? && drafts[d].survey in v.surveys ==>
      d in v.drafts && v.drafts[d] == drafts[d]
  }

  /** What a job keeps for life: what it was started with, its place in line, and its deadline once it has one. */
  predicate SameWork(x: Job, y: Job) {
    && y.survey == x.survey && y.approved == x.approved && y.request == x.request && y.hash == x.hash
    && y.queuedAt == x.queuedAt && (x.deadline.Some? ==> y.deadline == x.deadline)
  }

  /** A job goes only when its Survey goes or is cancelled. */
  ghost predicate JobsStay(jobs: map<JobId, Job>, v: World) {
    forall j :: j in jobs && jobs[j].survey in v.surveys && !v.surveys[jobs[j].survey].status.Cancelled? ==>
      j in v.jobs && SameWork(jobs[j], v.jobs[j])
  }

  ghost predicate Steady(w: World, v: World) {
    DraftsStay(w.drafts, v) && JobsStay(w.jobs, v)
  }

  lemma SameSteady(w: World, v: World)
    requires v.jobs == w.jobs && v.drafts == w.drafts
    ensures Steady(w, v)
  {
  }

  lemma JobSteady(w: World, v: World, j: JobId)
    requires v.drafts == w.drafts && j in v.jobs && v.jobs == w.jobs[j := v.jobs[j]]
    requires j in w.jobs ==> SameWork(w.jobs[j], v.jobs[j])
    ensures Steady(w, v)
  {
  }

  lemma DraftSteady(w: World, v: World, d: DraftId)
    requires v.jobs == w.jobs && d in v.drafts && v.drafts == w.drafts[d := v.drafts[d]]
    requires d in w.drafts ==> !w.drafts[d].status.Ready?
    ensures Steady(w, v)
  {
  }

  lemma CreateSteady(w: World, s: SurveyId, d: DraftId, user: UserId, request: RequestId,
                     hash: Hash, day: Day, override: Option<int>, dailyLimit: int)
    ensures Steady(w, Create(w, s, d, user, request, hash, day, override, dailyLimit).next)
  {
    hide RequestedSurveys, Steady;
    var step := Create(w, s, d, user, request, hash, day, override, dailyLimit);
    if step.reply.Done? {
      DraftSteady(w, step.next, d);
    } else {
      SameSteady(w, step.next);
    }
  }

  lemma RequestSteady(w: World, s: SurveyId, user: UserId, d: DraftId, request: RequestId, hash: Hash, markdown: string)
    ensures Steady(w, RequestDraft(w, s, user, d, request, hash).next)
    ensures Steady(w, ManualDraft(w, s, user, d, request, hash, markdown).next)
  {
    hide RequestedDrafts, LatestRevision, HasActiveDraft, Steady;
    SameSteady(w, w);
    if RequestDraft(w, s, user, d, request, hash).reply.Done? {
      DraftSteady(w, RequestDraft(w, s, user, d, request, hash).next, d);
    }
    if ManualDraft(w, s, user, d, request, hash, markdown).reply.Done? {
      DraftSteady(w, ManualDraft(w, s, user, d, request, hash, markdown).next, d);
    }
  }

  lemma DraftEndSteady(w: World, d: DraftId, worker: AttemptId, markdown: string)
    ensures Steady(w, CompleteDraft(w, d, worker, markdown).next)
    ensures Steady(w, FailDraft(w, d, worker).next)
    ensures Steady(w, RecoverDraft(w, d).next)
  {
    hide LatestRevision, Steady;
    SameSteady(w, w);
    if CompleteDraft(w, d, worker, markdown).reply.Done? {
      DraftSteady(w, CompleteDraft(w, d, worker, markdown).next, d);
    }
    if FailDraft(w, d, worker).reply.Done? {
      DraftSteady(w, FailDraft(w, d, worker).next, d);
    }
    if RecoverDraft(w, d).reply.Done? {
      DraftSteady(w, RecoverDraft(w, d).next, d);
    }
  }

  lemma StartSteady(w: World, s: SurveyId, user: UserId, j: JobId, request: RequestId, hash: Hash, notify: bool)
    ensures Steady(w, Start(w, s, user, j, request, hash, notify).next)
  {
    hide HasActiveDraft, IsLatest, Steady;
    SameSteady(w, w);
    var step := Start(w, s, user, j, request, hash, notify);
    if step.reply.Done? {
      JobSteady(w, step.next, j);
    }
  }

  lemma WithdrawSteady(w: World, s: SurveyId)
    requires Indexed(w.surveys, w.jobOf, w.jobs) && s in w.surveys
    ensures Steady(w, Withdraw(w, s).next)
  {
    hide Settled;
    var v := Withdraw(w, s).next;
    assert v == w || v.surveys[s].status.Cancelled?;
  }

  lemma CancelSteady(w: World, limits: Limits, s: SurveyId, user: UserId)
    requires Inv(w, limits)
    ensures Steady(w, Cancel(w, s, user).next)
  {
    hide Inv, Steady, Withdraw;
    var step := Cancel(w, s, user);
    SameSteady(w, w);
    if Visible(w, s, user) {
      if w.surveys[s].status.Running? && step.reply.Done? {
        JobSteady(w, step.next, w.jobOf[s]);
      }
      IndexOfAll(w, limits);
      WithdrawSteady(w, s);
    }
  }

  lemma IndexOfAll(w: World, limits: Limits)
    requires Inv(w, limits)
    ensures Indexed(w.surveys, w.jobOf, w.jobs)
  {
    hide Indexed, Lockstep, QuotaExact, ChargedOnce, CancelsStick, DraftChain, Approved, Leased, Targeted, Numbered,
      Budgeted, Capped, Checkpointed, Announced;
  }

  lemma ErasedSteady(w: World, s: SurveyId, v: World)
    requires v == Erased(w, s).(usage := v.usage)
    ensures Steady(w, v)
  {
  }

  lemma DeleteSteady(w: World, s: SurveyId, user: UserId)
    ensures Steady(w, Delete(w, s, user).next)
  {
    hide Settled, Steady, Erased;
    SameSteady(w, w);
    var step := Delete(w, s, user);
    if step.reply.Done? {
      ErasedSteady(w, s, step.next);
    }
  }

  lemma FinishSteady(w: World, j: JobId, worker: AttemptId, storage: (UserId, JobId), manifest: Manifest)
    ensures Steady(w, FinishArchive(w, j, worker, storage, manifest).next)
  {
    hide Notified, Steady;
    SameSteady(w, w);
    if FinishArchive(w, j, worker, storage, manifest).reply.Done? {
      JobSteady(w, FinishArchive(w, j, worker, storage, manifest).next, j);
    }
  }

  lemma DeferSteady(w: World, j: JobId, worker: AttemptId, retryAfter: int, code: ErrorCode)
    ensures Steady(w, DeferArchive(w, j, worker, retryAfter, code).next)
    ensures Steady(w, MarkWorkspaceMissing(w, j, worker).next)
  {
    hide Steady;
    SameSteady(w, w);
    if DeferArchive(w, j, worker, retryAfter, code).reply.Done? {
      JobSteady(w, DeferArchive(w, j, worker, retryAfter, code).next, j);
    }
    if MarkWorkspaceMissing(w, j, worker).reply.Done? {
      JobSteady(w, MarkWorkspaceMissing(w, j, worker).next, j);
    }
  }

  lemma EndSteady(w: World, j: JobId, worker: AttemptId, outcome: Outcome, error: Option<ErrorCode>, chargeable: bool)
    ensures Steady(w, Settle(w, j, worker, outcome, error, chargeable).next)
    ensures Steady(w, RecoverJob(w, j).next)
  {
    hide Settled, Steady;
    SameSteady(w, w);
    if Settle(w, j, worker, outcome, error, chargeable).reply.Done? {
      JobSteady(w, Settle(w, j, worker, outcome, error, chargeable).next, j);
    }
    if RecoverJob(w, j).reply.Done? {
      JobSteady(w, RecoverJob(w, j).next, j);
    }
  }

  lemma ArchiveRecoverySteady(w: World, j: JobId, expected: Manifest, code: ErrorCode, replacement: Option<Manifest>)
    ensures Steady(w, RecoverArchived(w, j, expected, code, replacement).next)
  {
    hide OwnStorage, OwnOverlay, Ended, Steady;
    SameSteady(w, w);
    if RecoverArchived(w, j, expected, code, replacement).reply.Done? {
      JobSteady(w, RecoverArchived(w, j, expected, code, replacement).next, j);
    }
  }

  lemma RepairSteady(w: World, j: JobId, expected: Manifest, overlay: Manifest)
    ensures Steady(w, RepairEvidence(w, j, expected, overlay).next)
  {
    hide OwnStorage, OwnOverlay, Ended, Steady;
    SameSteady(w, w);
    if RepairEvidence(w, j, expected, overlay).reply.Done? {
      JobSteady(w, RepairEvidence(w, j, expected, overlay).next, j);
    }
  }

  lemma ClaimSteady(w: World, target: nat, a: AttemptId, lease: int, timeout: int)
    ensures Steady(w, ClaimDraft(w, target, a, lease).next)
    ensures Steady(w, ClaimJob(w, target, a, lease, timeout).next)
  {
    hide Claimable, Steady;
    SameSteady(w, w);
    if ClaimDraft(w, target, a, lease).reply.Done? {
      DraftSteady(w, ClaimDraft(w, target, a, lease).next, target);
    }
    if ClaimJob(w, target, a, lease, timeout).reply.Done? {
      JobSteady(w, ClaimJob(w, target, a, lease, timeout).next, target);
    }
  }

  lemma CheckpointSteady(w: World, j: JobId, a: AttemptId, position: nat, stage: nat, pointer: nat)
    ensures Steady(w, CommitCheckpoint(w, j, a, position, stage, pointer).next)
  {
    hide CommitsOf, Steady;
    SameSteady(w, w);
    if CommitCheckpoint(w, j, a, position, stage, pointer).reply.Done? {
      JobSteady(w, CommitCheckpoint(w, j, a, position, stage, pointer).next, j);
    }
  }

  lemma HeartbeatSteady(w: World, a: AttemptId, lease: int)
    ensures Steady(w, Heartbeat(w, a, lease).next)
  {
    hide Steady;
    SameSteady(w, w);
    if Heartbeat(w, a, lease).reply.Done? {
      if w.attempts[a].kind.DraftWork? {
        DraftSteady(w, Heartbeat(w, a, lease).next, w.attempts[a].target);
      } else {
        JobSteady(w, Heartbeat(w, a, lease).next, w.attempts[a].target);
      }
    }
  }

  /** What a stop event frees: the lease of the attempt's own item, at most. */
  lemma ReturnedSteady(w: World, limits: Limits, a: AttemptId)
    requires Inv(w, limits) && a in w.attempts
    ensures Steady(w, Returned(w, a))
  {
    hide Inv, Steady;
    var v, target := Returned(w, a), w.attempts[a].target;
    if v == w {
      SameSteady(w, v);
    } else if w.attempts[a].kind.DraftWork? {
      LeasedRuns(w, limits, target);
      DraftSteady(w, v, target);
    } else {
      JobSteady(w, v, target);
    }
  }

  lemma DroppedSteady(w: World, a: AttemptId, retryable: bool)
    requires a in w.attempts
    ensures Steady(w, Dropped(w, a, retryable))
  {
    hide Steady;
    var v, target := Dropped(w, a, retryable), w.attempts[a].target;
    if v == w {
      SameSteady(w, v);
    } else if w.attempts[a].kind.DraftWork? {
      DraftSteady(w, v, target);
    } else {
      JobSteady(w, v, target);
    }
  }

  lemma AttemptsAside(w: World, v: World, attempts: map<AttemptId, Attempt>)
    requires Steady(w, v)
    ensures Steady(w, v.(attempts := attempts))
  {
  }

  lemma StopSteady(w: World, limits: Limits, a: AttemptId, version: int, retryable: bool)
    requires Inv(w, limits)
    ensures Steady(w, AttemptSucceeded(w, a, version).next)
    ensures Steady(w, AttemptStopped(w, a, version, retryable).next)
  {
    hide Inv, TargetSettled, Steady, Returned, Dropped;
    SameSteady(w, w);
    if a in w.attempts {
      var v := AttemptSucceeded(w, a, version).next;
      var u := AttemptStopped(w, a, version, retryable).next;
      AttemptsAside(w, w, v.attempts);
      AttemptsAside(w, w, u.attempts);
      ReturnedSteady(w, limits, a);
      DroppedSteady(w, a, retryable);
      AttemptsAside(w, Returned(w, a), v.attempts);
      AttemptsAside(w, Dropped(w, a, retryable), u.attempts);
    }
  }

  lemma LeasedRuns(w: World, limits: Limits, d: DraftId)
    requires Inv(w, limits) && d in w.drafts
    ensures w.drafts[d].lease.Some? <==> w.drafts[d].status.Running?
  {
    hide Indexed, Lockstep, QuotaExact, ChargedOnce, CancelsStick, Approved, Leased, Targeted, Numbered, Budgeted,
      Capped, Checkpointed, Announced, Chain, ActiveSound, OneActive;
  }

  lemma LaunchLeaves(w: World, limits: Limits, op: Op)
    requires OfLaunch(op) || op.SetMailSending?
    ensures var v := Apply(w, limits, op).next;
            v.drafts == w.drafts && v.jobs == w.jobs && v.jobOf == w.jobOf && v.surveys == w.surveys
  {
    hide Apply;
    LaunchAside(w, limits, op);
  }

  lemma OwnerSteady(w: World, limits: Limits, op: Op)
    requires Inv(w, limits) && OfOwner(op)
    ensures Steady(w, Apply(w, limits, op).next)
  {
    hide Inv, Steady, Create, RequestDraft, ManualDraft, CompleteDraft, FailDraft, RecoverDraft, Start, Cancel,
      Delete, Settle, FinishArchive, DeferArchive, MarkWorkspaceMissing, RecoverJob, RecoverArchived, RepairEvidence,
      SetSending, Reserve, Fetch, TryNext, MarkLaunching, LaunchFailed, MarkLaunched, ClaimDraft, ClaimJob,
      CommitCheckpoint, Heartbeat, AttemptSucceeded, AttemptStopped, Tick;
    match op {
      case CreateSurvey(s, d, user, request, hash, day, override, dailyLimit) =>
        CreateSteady(w, s, d, user, request, hash, day, override, dailyLimit);
      case RequestGeneratedDraft(s, user, d, request, hash) => RequestSteady(w, s, user, d, request, hash, "");
      case CreateManualDraft(s, user, d, request, hash, markdown) =>
        RequestSteady(w, s, user, d, request, hash, markdown);
      case CompleteSurveyDraft(d, worker, markdown) => DraftEndSteady(w, d, worker, markdown);
      case FailSurveyDraft(d, worker) => DraftEndSteady(w, d, worker, "");
      case RecoverExpiredDraft(d) => DraftEndSteady(w, d, 0, "");
      case StartSurvey(s, user, j, request, hash, notify) => StartSteady(w, s, user, j, request, hash, notify);
      case CancelSurvey(s, user) => CancelSteady(w, limits, s, user);
      case DeleteSurvey(s, user) => DeleteSteady(w, s, user);
    }
  }

  lemma ExecutionSteady(w: World, limits: Limits, op: Op)
    requires OfExecution(op)
    ensures Steady(w, Apply(w, limits, op).next)
  {
    hide Steady, Create, RequestDraft, ManualDraft, CompleteDraft, FailDraft, RecoverDraft, Start, Cancel, Delete,
      Settle, FinishArchive, DeferArchive, MarkWorkspaceMissing, RecoverJob, RecoverArchived, RepairEvidence,
      SetSending, Reserve, Fetch, TryNext, MarkLaunching, LaunchFailed, MarkLaunched, ClaimDraft, ClaimJob,
      CommitCheckpoint, Heartbeat, AttemptSucceeded, AttemptStopped, Tick;
    match op {
      case SettleExecution(j, worker, outcome, error, chargeable) =>
        EndSteady(w, j, worker, outcome, error, chargeable);
      case FinishSurveyArchive(j, worker, storage, manifest) => FinishSteady(w, j, worker, storage, manifest);
      case DeferSurveyArchive(j, worker, retryAfter, code) => DeferSteady(w, j, worker, retryAfter, code);
      case MarkArchiveWorkspaceMissing(j, worker) => DeferSteady(w, j, worker, 0, WorkspaceMissing);
      case RecoverExpiredJob(j) => EndSteady(w, j, 0, Outcome.Failed, None, false);
      case RecoverArchivedFailure(j, expected, code, replacement) =>
        ArchiveRecoverySteady(w, j, expected, code, replacement);
      case RepairDegradedEvidence(j, expected, overlay) => RepairSteady(w, j, expected, overlay);
      case SetMailSending(_, _) =>
        LaunchLeaves(w, limits, op);
        SameSteady(w, Apply(w, limits, op).next);
    }
  }

  lemma ComputeSteady(w: World, limits: Limits, op: Op)
    requires Inv(w, limits) && !OfOwner(op) && !OfExecution(op) && !OfPass(op)
    ensures Steady(w, Apply(w, limits, op).next)
  {
    hide Inv, Steady, Create, RequestDraft, ManualDraft, CompleteDraft, FailDraft, RecoverDraft, Start, Cancel,
      Delete, Settle, FinishArchive, DeferArchive, MarkWorkspaceMissing, RecoverJob, RecoverArchived, RepairEvidence,
      SetSending, Reserve, Fetch, TryNext, MarkLaunching, LaunchFailed, MarkLaunched, ClaimDraft, ClaimJob,
      CommitCheckpoint, Heartbeat, AttemptSucceeded, AttemptStopped, Tick;
    match op {
      case ClaimExactDraft(d, a, lease) => ClaimSteady(w, d, a, lease, 0);
      case ClaimExactJob(j, a, lease, timeout) => ClaimSteady(w, j, a, lease, timeout);
      case CommitJobCheckpoint(j, a, position, stage, pointer) => CheckpointSteady(w, j, a, position, stage, pointer);
      case HeartbeatAttempt(a, lease) => HeartbeatSteady(w, a, lease);
      case RecordSucceeded(a, version) => StopSteady(w, limits, a, version, false);
      case RecordStopped(a, version, retryable) => StopSteady(w, limits, a, version, retryable);
      case _ =>
        LaunchLeaves(w, limits, op);
        SameSteady(w, Apply(w, limits, op).next);
    }
  }

  lemma StepSteady(w: World, limits: Limits, op: Op)
    requires Inv(w, limits)
    ensures Steady(w, Apply(w, limits, op).next)
  {
    hide Inv, Steady, Apply;
    if OfOwner(op) {
      OwnerSteady(w, limits, op);
    } else if OfExecution(op) {
      ExecutionSteady(w, limits, op);
    } else if OfPass(op) {
      PassShape(w, limits, op);
      SameSteady(w, Apply(w, limits, op).next);
    } else {
      ComputeSteady(w, limits, op);
    }
  }

  // ---------- whole runs ----------

  /** The Survey `s` of `w` still exists in `v`. */
  predicate StillThere(w: World, v: World, s: SurveyId) {
    s in v.surveys && v.surveys[s].birth < w.hist.births
  }

  ghost predicate Unchanging(w: World, v: World) {
    && (forall d :: d in w.drafts && w.drafts[d].status.Ready? && StillThere(w, v, w.drafts[d].survey) ==>
          d in v.drafts && v.drafts[d] == w.drafts[d])
    && (forall j :: j in w.jobs && StillThere(w, v, w.jobs[j].survey)
                    && !v.surveys[w.jobs[j].survey].status.Cancelled? ==>
          j in v.jobs && SameWork(w.jobs[j], v.jobs[j]))
  }

  lemma UnchangingSelf(w: World)
    ensures Unchanging(w, w)
  {
  }

  lemma UnchangingFurther(w: World, u: World, v: World)
    requires Steady(w, u) && Unchanging(u, v) && Outlive(u, v) && w.hist.births <= u.hist.births
    ensures Unchanging(w, v)
  {
    forall s | StillThere(w, v, s)
      ensures s in u.surveys && StillThere(u, v, s)
      ensures u.surveys[s].status.Cancelled? ==> v.surveys[s].status.Cancelled?
    {
      assert Continues(u.surveys[s], v.surveys[s]);
    }
    forall j | j in w.jobs && StillThere(w, v, w.jobs[j].survey) && !v.surveys[w.jobs[j].survey].status.Cancelled?
      ensures j in v.jobs && SameWork(w.jobs[j], v.jobs[j])
    {
      assert j in u.jobs && SameWork(w.jobs[j], u.jobs[j]);
      assert j in v.jobs && SameWork(u.jobs[j], v.jobs[j]);
    }
  }

  /** Whatever runs, a ready Draft and a job's approved Draft stay as they are while their Survey lives. */
  lemma {:induction false} RunUnchanging(w: World, limits: Limits, ops: seq<Op>)
    requires Sound(w, limits)
    ensures Unchanging(w, Run(w, limits, ops))
    decreases |ops|
  {
    hide Apply, Inv, Pending, Steady, Outlive, Unchanging, HistoryGrows;
    if ops == [] {
      UnchangingSelf(w);
    } else {
      var u := Apply(w, limits, ops[0]).next;
      ApplyKeeps(w, limits, ops[0]);
      StepSteady(w, limits, ops[0]);
      StepGrows(w, limits, ops[0]);
      BirthsGrow(w.hist, u.hist);
      RunUnchanging(u, limits, ops[1..]);
      RunOutlives(u, limits, ops[1..]);
      UnchangingFurther(w, u, Run(u, limits, ops[1..]));
    }
  }

  lemma BirthsGrow(h: History, h': History)
    requires HistoryGrows(h, h')
    ensures h.births <= h'.births
  {
    hide CommitsOf;
  }

  /** A ready Draft of a reachable state is the same Draft after any run, unless its Survey was deleted. */
  lemma ReadyForever(w: World, limits: Limits, d: DraftId, ops: seq<Op>)
    requires Reachable(w, limits) && d in w.drafts && w.drafts[d].status.Ready?
    ensures var v := Run(w, limits, ops);
            StillThere(w, v, w.drafts[d].survey) ==> d in v.drafts && v.drafts[d] == w.drafts[d]
  {
    hide Inv, Pending, Run;
    ReachableSound(w, limits);
    RunUnchanging(w, limits, ops);
  }

  lemma ApprovedFacts(w: World, limits: Limits, j: JobId)
    requires Inv(w, limits) && j in w.jobs
    ensures IsReady(w.drafts, w.jobs[j].survey, w.jobs[j].approved)
    ensures w.drafts[w.jobs[j].approved].revision == Some(|ReadyOf(w.drafts, w.jobs[j].survey)|)
  {
    hide Indexed, Lockstep, QuotaExact, ChargedOnce, CancelsStick, DraftChain, Leased, Targeted, Numbered, Budgeted,
      Capped, Checkpointed, Announced, ReadyOf;
  }

  /**
   The Draft a job was started with is still its approved Draft after any run, unchanged, and it is
   still the highest revision, unless the Survey was deleted or withdrawn while queued.
   */
  lemma ApprovedForever(w: World, limits: Limits, j: JobId, ops: seq<Op>)
    requires Reachable(w, limits) && j in w.jobs
    ensures var v := Run(w, limits, ops);
            var s := w.jobs[j].survey;
            StillThere(w, v, s) && !v.surveys[s].status.Cancelled? ==>
              && j in v.jobs && v.jobs[j].survey == s && v.jobs[j].approved == w.jobs[j].approved
              && w.jobs[j].approved in v.drafts && w.jobs[j].approved in w.drafts
              && v.drafts[w.jobs[j].approved] == w.drafts[w.jobs[j].approved]
              && v.drafts[w.jobs[j].approved].revision == Some(|ReadyOf(v.drafts, s)|)
              && |ReadyOf(v.drafts, s)| == |ReadyOf(w.drafts, s)|
  {
    hide Inv, Pending, Run, ReadyOf;
    ReachableSound(w, limits);
    var v := Run(w, limits, ops);
    RunKeeps(w, limits, ops);
    RunUnchanging(w, limits, ops);
    ApprovedFacts(w, limits, j);
    if StillThere(w, v, w.jobs[j].survey) && !v.surveys[w.jobs[j].survey].status.Cancelled? {
      assert SameWork(w.jobs[j], v.jobs[j]);
      ApprovedFacts(v, limits, j);
    }
  }

  /** However often a job is resumed, its deadline stays the one of its first start, and its place in line. */
  lemma DeadlineStands(w: World, limits: Limits, j: JobId, ops: seq<Op>)
    requires Reachable(w, limits) && j in w.jobs
    ensures var v := Run(w, limits, ops);
            var s := w.jobs[j].survey;
            StillThere(w, v, s) && !v.surveys[s].status.Cancelled? ==>
              && j in v.jobs && v.jobs[j].queuedAt == w.jobs[j].queuedAt
              && (w.jobs[j].deadline.Some? ==> v.jobs[j].deadline == w.jobs[j].deadline)
  {
    hide Inv, Pending, Run;
    ReachableSound(w, limits);
    RunUnchanging(w, limits, ops);
  }
}
