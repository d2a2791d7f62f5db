/** Whoever computes a running execution holds its lease, in every reachable state. */
module SurveyServing {
  import opened Wrappers
  import opened SurveyModel
  import opened SurveyTransitions
  import opened SurveyInvariants
  import opened SurveyOps
  import opened SurveyPending
  import opened SurveyRuns

  predicate Computing(at: Attempt) {
    at.kind.FullWork? && at.status.Running?
  }

  function Owner(job: Job): Option<AttemptId> {
    if job.lease.Some? then Some(job.lease.value.owner) else None
  }

  predicate Served(jobs: map<JobId, Job>, j: JobId, a: AttemptId) {
    j in jobs && jobs[j].status.Running? ==> Owner(jobs[j]) == Some(a)
  }

  /** Whoever computes a running job is the owner of its lease. */
  ghost predicate Serves(w: World) {
    forall a :: a in w.attempts && Computing(w.attempts[a]) ==> Served(w.jobs, w.attempts[a].target, a)
  }

  predicate TameAttempt(x: Attempt, y: Attempt) {
    Computing(y) ==> Computing(x) && x.target == y.target
  }

  predicate TameJob(x: Job, y: Job) {
    y.status.Running? ==> x.status.Running? && Owner(x) == Owner(y)
  }

  /** No attempt starts computing, and a job that still runs keeps its owner. */
  ghost predicate Tame(w: World, v: World) {
    && (forall a :: a in v.attempts && Computing(v.attempts[a]) ==>
          a in w.attempts && TameAttempt(w.attempts[a], v.attempts[a]))
    && (forall j :: j in v.jobs && v.jobs[j].status.Running? ==> j in w.jobs && TameJob(w.jobs[j], v.jobs[j]))
  }

  lemma TameServes(w: World, v: World)
    requires Serves(w) && Tame(w, v)
    ensures Serves(v)
  {
  }

  lemma SameWork(w: World, v: World)
    requires v.jobs == w.jobs && v.attempts == w.attempts
    ensures Tame(w, v)
  {
  }

  lemma OneJob(w: World, v: World, j: JobId)
    requires j in v.jobs && v.attempts == w.attempts && v.jobs == w.jobs[j := v.jobs[j]]
    requires v.jobs[j].status.Running? ==> j in w.jobs && TameJob(w.jobs[j], v.jobs[j])
    ensures Tame(w, v)
  {
  }

  lemma OneRow(w: World, v: World, a: AttemptId)
    requires a in v.attempts && v.jobs == w.jobs && v.attempts == w.attempts[a := v.attempts[a]]
    requires Computing(v.attempts[a]) ==> a in w.attempts && TameAttempt(w.attempts[a], v.attempts[a])
    ensures Tame(w, v)
  {
  }

  lemma CreateTame(w: World, s: SurveyId, d: DraftId, user: UserId, request: RequestId,
                   hash: Hash, day: Day, override: Option<int>, dailyLimit: int)
    ensures Tame(w, Create(w, s, d, user, request, hash, day, override, dailyLimit).next)
  {
    hide Tame, RequestedSurveys;
    SameWork(w, Create(w, s, d, user, request, hash, day, override, dailyLimit).next);
  }

  lemma RequestTame(w: World, s: SurveyId, user: UserId, d: DraftId, request: RequestId, hash: Hash)
    ensures Tame(w, RequestDraft(w, s, user, d, request, hash).next)
  {
    hide Tame, RequestedDrafts, LatestRevision, HasActiveDraft;
    SameWork(w, RequestDraft(w, s, user, d, request, hash).next);
  }

  lemma ManualTame(w: World, s: SurveyId, user: UserId, d: DraftId, request: RequestId, hash: Hash, markdown: string)
    ensures Tame(w, ManualDraft(w, s, user, d, request, hash, markdown).next)
  {
    hide Tame, RequestedDrafts, LatestRevision, HasActiveDraft;
    SameWork(w, ManualDraft(w, s, user, d, request, hash, markdown).next);
  }

  lemma CompleteTame(w: World, d: DraftId, worker: AttemptId, markdown: string)
    ensures Tame(w, CompleteDraft(w, d, worker, markdown).next)
  {
    hide Tame, LatestRevision;
    SameWork(w, CompleteDraft(w, d, worker, markdown).next);
  }

  lemma FailTame(w: World, d: DraftId, worker: AttemptId)
    ensures Tame(w, FailDraft(w, d, worker).next)
    ensures Tame(w, RecoverDraft(w, d).next)
  {
    hide Tame;
    SameWork(w, FailDraft(w, d, worker).next);
    SameWork(w, RecoverDraft(w, d).next);
  }

  lemma StartTame(w: World, s: SurveyId, user: UserId, j: JobId, request: RequestId, hash: Hash, notify: bool)
    ensures Tame(w, Start(w, s, user, j, request, hash, notify).next)
  {
    hide Tame, HasActiveDraft, IsLatest;
    var v := Start(w, s, user, j, request, hash, notify).next;
    if Start(w, s, user, j, request, hash, notify).reply.Done? {
      OneJob(w, v, j);
    } else {
      SameWork(w, v);
    }
  }

  lemma WithdrawTame(w: World, s: SurveyId)
    requires s in w.surveys
    ensures Tame(w, Withdraw(w, s).next)
  {
    hide Settled, CancelledDrafts;
  }

  lemma CancelTame(w: World, s: SurveyId, user: UserId)
    ensures Tame(w, Cancel(w, s, user).next)
  {
    hide Tame, Withdraw;
    SameWork(w, w);
    if Visible(w, s, user) {
      if w.surveys[s].status.Running? {
        if Cancel(w, s, user).reply.Done? {
          OneJob(w, Cancel(w, s, user).next, w.jobOf[s]);
        }
      } else {
        WithdrawTame(w, s);
      }
    }
  }

  lemma ErasedTame(w: World, s: SurveyId, v: World)
    requires v == Erased(w, s).(usage := v.usage)
    ensures Tame(w, v)
  {
  }

  lemma DeleteTame(w: World, s: SurveyId, user: UserId)
    ensures Tame(w, Delete(w, s, user).next)
  {
    hide Settled, Erased, Tame;
    SameWork(w, w);
    if Delete(w, s, user).reply.Done? {
      ErasedTame(w, s, Delete(w, s, user).next);
    }
  }

  lemma SettleTame(w: World, j: JobId, worker: AttemptId, outcome: Outcome, error: Option<ErrorCode>, chargeable: bool)
    ensures Tame(w, Settle(w, j, worker, outcome, error, chargeable).next)
  {
    hide Tame, Settled;
    SameWork(w, w);
    if Settle(w, j, worker, outcome, error, chargeable).reply.Done? {
      OneJob(w, Settle(w, j, worker, outcome, error, chargeable).next, j);
    }
  }

  lemma SweepTame(w: World, j: JobId)
    ensures Tame(w, RecoverJob(w, j).next)
  {
    hide Tame, Settled;
    SameWork(w, w);
    if RecoverJob(w, j).reply.Done? {
      OneJob(w, RecoverJob(w, j).next, j);
    }
  }

  lemma FinishTame(w: World, j: JobId, worker: AttemptId, storage: (UserId, JobId), manifest: Manifest)
    ensures Tame(w, FinishArchive(w, j, worker, storage, manifest).next)
  {
    hide Tame, Notified;
    var step := FinishArchive(w, j, worker, storage, manifest);
    if step.reply.Done? {
      OneJob(w, step.next, j);
    } else {
      SameWork(w, step.next);
    }
  }

  lemma ArchiveTame(w: World, j: JobId, worker: AttemptId, retryAfter: int, code: ErrorCode)
    ensures Tame(w, DeferArchive(w, j, worker, retryAfter, code).next)
    ensures Tame(w, MarkWorkspaceMissing(w, j, worker).next)
  {
    hide Tame;
    if DeferArchive(w, j, worker, retryAfter, code).reply.Done? {
      OneJob(w, DeferArchive(w, j, worker, retryAfter, code).next, j);
      OneJob(w, MarkWorkspaceMissing(w, j, worker).next, j);
    } else {
      SameWork(w, w);
    }
  }

  lemma RecoverTame(w: World, j: JobId, expected: Manifest, code: ErrorCode, replacement: Option<Manifest>)
    ensures Tame(w, RecoverArchived(w, j, expected, code, replacement).next)
  {
    hide Tame, OwnStorage, OwnOverlay;
    var step := RecoverArchived(w, j, expected, code, replacement);
    if step.reply.Done? {
      OneJob(w, step.next, j);
    } else {
      SameWork(w, step.next);
    }
  }

  lemma RepairTame(w: World, j: JobId, expected: Manifest, overlay: Manifest)
    ensures Tame(w, RepairEvidence(w, j, expected, overlay).next)
  {
    hide Tame, OwnStorage, OwnOverlay;
    var step := RepairEvidence(w, j, expected, overlay);
    if step.reply.Done? {
      OneJob(w, step.next, j);
    } else {
      SameWork(w, step.next);
    }
  }

  lemma ReserveTame(w: World, limits: Limits, kind: WorkKind, target: nat, a: AttemptId)
    ensures Tame(w, Reserve(w, limits, kind, target, a).next)
  {
    hide Tame, Leads, ActiveOfKind;
    SameWork(w, w);
    if Reserve(w, limits, kind, target, a).reply.Done? {
      OneRow(w, Reserve(w, limits, kind, target, a).next, a);
    }
  }

  lemma LaunchingTame(w: World, a: AttemptId)
    ensures Tame(w, MarkLaunching(w, a).next)
  {
    hide Tame;
    SameWork(w, w);
    if MarkLaunching(w, a).reply.Done? {
      OneRow(w, MarkLaunching(w, a).next, a);
    }
  }

  lemma LaunchFailedTame(w: World, a: AttemptId)
    ensures Tame(w, LaunchFailed(w, a).next)
  {
    hide Tame;
    SameWork(w, w);
    if LaunchFailed(w, a).reply.Done? {
      OneRow(w, LaunchFailed(w, a).next, a);
    }
  }

  lemma LaunchedTame(w: World, a: AttemptId, arn: nat)
    ensures Tame(w, MarkLaunched(w, a, arn).next)
  {
    hide Tame;
    SameWork(w, w);
    if MarkLaunched(w, a, arn).reply.Done? {
      OneRow(w, MarkLaunched(w, a, arn).next, a);
    }
  }

  lemma ClaimDraftTame(w: World, d: DraftId, a: AttemptId, lease: int)
    ensures Tame(w, ClaimDraft(w, d, a, lease).next)
  {
    hide Tame;
    SameWork(w, w);
    if ClaimDraft(w, d, a, lease).reply.Done? {
      OneRow(w, ClaimDraft(w, d, a, lease).next, a);
    }
  }

  lemma JobAndRow(w: World, v: World, j: JobId, a: AttemptId)
    requires j in v.jobs && v.jobs == w.jobs[j := v.jobs[j]]
    requires v.jobs[j].status.Running? ==> j in w.jobs && TameJob(w.jobs[j], v.jobs[j])
    requires a in v.attempts && v.attempts == w.attempts[a := v.attempts[a]]
    requires Computing(v.attempts[a]) ==> a in w.attempts && TameAttempt(w.attempts[a], v.attempts[a])
    ensures Tame(w, v)
  {
  }

  lemma CommitTame(w: World, j: JobId, a: AttemptId, position: nat, stage: nat, pointer: nat)
    ensures Tame(w, CommitCheckpoint(w, j, a, position, stage, pointer).next)
  {
    hide CommitsOf, Tame;
    var step := CommitCheckpoint(w, j, a, position, stage, pointer);
    if step.reply.Done? {
      JobAndRow(w, step.next, j, a);
    } else {
      SameWork(w, step.next);
    }
  }

  lemma HeartbeatTame(w: World, a: AttemptId, lease: int)
    ensures Tame(w, Heartbeat(w, a, lease).next)
  {
    hide Tame;
    SameWork(w, w);
    if Heartbeat(w, a, lease).reply.Done? {
      if w.attempts[a].kind.FullWork? {
        OneJob(w, Heartbeat(w, a, lease).next, w.attempts[a].target);
      } else {
        SameWork(w, Heartbeat(w, a, lease).next);
      }
    }
  }

  /** A claim finds no other attempt active on the job, so the new owner is the only one computing it. */
  lemma ClaimServes(w: World, limits: Limits, j: JobId, a: AttemptId, lease: int, timeout: int)
    requires Inv(w, limits) && Serves(w)
    ensures Serves(ClaimJob(w, j, a, lease, timeout).next)
  {
    hide Inv, ActiveOn;
    if ClaimJob(w, j, a, lease, timeout).reply.Done? {
      var v := ClaimJob(w, j, a, lease, timeout).next;
      forall b | b in v.attempts && Computing(v.attempts[b]) && v.attempts[b].target in v.jobs
        ensures v.attempts[b].target == j ==> b == a
      {
        if v.attempts[b].target == j && b != a {
          Alone(w, limits, a, b);
        }
      }
    }
  }

  lemma Alone(w: World, limits: Limits, a: AttemptId, b: AttemptId)
    requires Inv(w, limits) && a in w.attempts && b in w.attempts && Same(w.attempts[a], w.attempts[b])
    requires Active(w.attempts[a]) && Active(w.attempts[b])
    ensures a == b
  {
    hide Indexed, Lockstep, QuotaExact, ChargedOnce, CancelsStick, DraftChain, Approved, Leased, Targeted, Budgeted,
      Capped, Checkpointed, Announced, AttemptsOn;
  }

  /** An attempt that stops computing may let go of what it owns. */
  ghost predicate LetsGo(w: World, jobs: map<JobId, Job>, a: AttemptId) {
    && jobs.Keys == w.jobs.Keys
    && (forall j :: j in jobs ==> jobs[j].status == w.jobs[j].status
                                  && (Owner(jobs[j]) == Owner(w.jobs[j]) || Owner(w.jobs[j]) == Some(a)))
  }

  lemma StoppingServes(w: World, v: World, a: AttemptId)
    requires Serves(w) && a in v.attempts && v.attempts == w.attempts[a := v.attempts[a]]
    requires !Computing(v.attempts[a]) && LetsGo(w, v.jobs, a)
    ensures Serves(v)
  {
    forall b | b in v.attempts && Computing(v.attempts[b])
      ensures Served(v.jobs, v.attempts[b].target, b)
    {
      assert Served(w.jobs, w.attempts[b].target, b);
    }
  }

  lemma FreedLetsGo(w: World, j: JobId, a: AttemptId)
    ensures LetsGo(w, w.jobs, a)
    ensures OwnsJob(w, j, a) ==> LetsGo(w, w.jobs[j := w.jobs[j].(lease := None)], a)
  {
  }

  lemma ReturnedLetsGo(w: World, a: AttemptId)
    requires a in w.attempts
    ensures LetsGo(w, Returned(w, a).jobs, a)
  {
    hide LetsGo;
    FreedLetsGo(w, w.attempts[a].target, a);
  }

  lemma DroppedLetsGo(w: World, a: AttemptId, retryable: bool)
    requires a in w.attempts
    ensures LetsGo(w, Dropped(w, a, retryable).jobs, a)
  {
    hide LetsGo;
    FreedLetsGo(w, w.attempts[a].target, a);
  }

  lemma SucceededServes(w: World, a: AttemptId, version: int)
    requires Serves(w)
    ensures Serves(AttemptSucceeded(w, a, version).next)
  {
    hide TargetSettled, LetsGo, Serves, Returned;
    var step := AttemptSucceeded(w, a, version);
    if step.reply.Done? {
      FreedLetsGo(w, 0, a);
      ReturnedLetsGo(w, a);
      StoppingServes(w, step.next, a);
    }
  }

  lemma StoppedServes(w: World, a: AttemptId, version: int, retryable: bool)
    requires Serves(w)
    ensures Serves(AttemptStopped(w, a, version, retryable).next)
  {
    hide LetsGo, Serves, Dropped;
    var step := AttemptStopped(w, a, version, retryable);
    if step.reply.Done? {
      FreedLetsGo(w, 0, a);
      DroppedLetsGo(w, a, retryable);
      StoppingServes(w, step.next, a);
    }
  }

  lemma OwnerServes(w: World, limits: Limits, op: Op)
    requires Serves(w) && OfOwner(op)
    ensures Serves(Apply(w, limits, op).next)
  {
    hide Serves, Tame, Create, RequestDraft, ManualDraft, CompleteDraft, FailDraft, RecoverDraft, Start, Cancel,
      Delete, Settle, FinishArchive, DeferArchive, MarkWorkspaceMissing, RecoverJob, RecoverArchived, RepairEvidence,
      SetSending, Reserve, Fetch, TryNext, MarkLaunching, LaunchFailed, MarkLaunched, ClaimDraft, ClaimJob,
      CommitCheckpoint, Heartbeat, AttemptSucceeded, AttemptStopped, Tick;
    match op {
      case CreateSurvey(s, d, user, request, hash, day, override, dailyLimit) =>
        CreateTame(w, s, d, user, request, hash, day, override, dailyLimit);
      case RequestGeneratedDraft(s, user, d, request, hash) => RequestTame(w, s, user, d, request, hash);
      case CreateManualDraft(s, user, d, request, hash, markdown) =>
        ManualTame(w, s, user, d, request, hash, markdown);
      case CompleteSurveyDraft(d, worker, markdown) => CompleteTame(w, d, worker, markdown);
      case FailSurveyDraft(d, worker) => FailTame(w, d, worker);
      case RecoverExpiredDraft(d) => FailTame(w, d, 0);
      case StartSurvey(s, user, j, request, hash, notify) => StartTame(w, s, user, j, request, hash, notify);
      case CancelSurvey(s, user) => CancelTame(w, s, user);
      case DeleteSurvey(s, user) => DeleteTame(w, s, user);
    }
    TameServes(w, Apply(w, limits, op).next);
  }

  lemma ExecutionServes(w: World, limits: Limits, op: Op)
    requires Serves(w) && OfExecution(op)
    ensures Serves(Apply(w, limits, op).next)
  {
    hide Serves, Tame, Create, RequestDraft, ManualDraft, CompleteDraft, FailDraft, RecoverDraft, Start, Cancel,
      Delete, Settle, FinishArchive, DeferArchive, MarkWorkspaceMissing, RecoverJob, RecoverArchived, RepairEvidence,
      Reserve, Fetch, TryNext, MarkLaunching, LaunchFailed, MarkLaunched, ClaimDraft, ClaimJob, CommitCheckpoint,
      Heartbeat, AttemptSucceeded, AttemptStopped, Tick;
    match op {
      case SettleExecution(j, worker, outcome, error, chargeable) =>
        SettleTame(w, j, worker, outcome, error, chargeable);
      case FinishSurveyArchive(j, worker, storage, manifest) =>
        FinishTame(w, j, worker, storage, manifest);
      case DeferSurveyArchive(j, worker, retryAfter, code) => ArchiveTame(w, j, worker, retryAfter, code);
      case MarkArchiveWorkspaceMissing(j, worker) => ArchiveTame(w, j, worker, 0, ArchivePending);
      case RecoverExpiredJob(j) => SweepTame(w, j);
      case RecoverArchivedFailure(j, expected, code, replacement) => RecoverTame(w, j, expected, code, replacement);
      case RepairDegradedEvidence(j, expected, overlay) => RepairTame(w, j, expected, overlay);
      case SetMailSending(_, _) => SameWork(w, Apply(w, limits, op).next);
    }
    TameServes(w, Apply(w, limits, op).next);
  }

  lemma ComputeServes(w: World, limits: Limits, op: Op)
    requires Inv(w, limits) && Serves(w) && !OfOwner(op) && !OfExecution(op) && !OfPass(op)
    ensures Serves(Apply(w, limits, op).next)
  {
    hide Inv, Serves, Tame, Create, RequestDraft, ManualDraft, CompleteDraft, FailDraft, RecoverDraft, Start, Cancel,
      Delete, Settle, FinishArchive, DeferArchive, MarkWorkspaceMissing, RecoverJob, RecoverArchived, RepairEvidence,
      SetSending, Reserve, Fetch, TryNext, MarkLaunching, LaunchFailed, MarkLaunched, ClaimDraft, ClaimJob,
      CommitCheckpoint, Heartbeat, AttemptSucceeded, AttemptStopped;
    match op {
      case ClaimExactJob(j, a, lease, timeout) =>
        ClaimServes(w, limits, j, a, lease, timeout);
        return;
      case RecordSucceeded(a, version) =>
        SucceededServes(w, a, version);
        return;
      case RecordStopped(a, version, retryable) =>
        StoppedServes(w, a, version, retryable);
        return;
      case ReserveAttempt(kind, target, a) => ReserveTame(w, limits, kind, target, a);
      case MarkAttemptLaunching(a) => LaunchingTame(w, a);
      case RecordLaunchFailure(a) => LaunchFailedTame(w, a);
      case MarkAttemptLaunched(a, arn) => LaunchedTame(w, a, arn);
      case ClaimExactDraft(d, a, lease) => ClaimDraftTame(w, d, a, lease);
      case CommitJobCheckpoint(j, a, position, stage, pointer) => CommitTame(w, j, a, position, stage, pointer);
      case HeartbeatAttempt(a, lease) => HeartbeatTame(w, a, lease);
      case PassTime(_) => SameWork(w, Apply(w, limits, op).next);
    }
    TameServes(w, Apply(w, limits, op).next);
  }

  /** A reserving transaction adds an attempt that computes nothing yet. */
  lemma PassServes(w: World, limits: Limits, op: Op)
    requires Serves(w) && OfPass(op)
    ensures Serves(Apply(w, limits, op).next)
  {
    hide Serves, Tame, Apply;
    var v := Apply(w, limits, op).next;
    PassShape(w, limits, op);
    if v.attempts == w.attempts {
      SameWork(w, v);
    } else {
      OneRow(w, v, op.a);
    }
    TameServes(w, v);
  }

  lemma {:induction false} RunServes(w: World, limits: Limits, ops: seq<Op>)
    requires Sound(w, limits) && Serves(w)
    ensures Serves(Run(w, limits, ops))
    decreases |ops|
  {
    hide Inv, Pending, Apply, Serves;
    if ops != [] {
      if OfOwner(ops[0]) {
        OwnerServes(w, limits, ops[0]);
      } else if OfExecution(ops[0]) {
        ExecutionServes(w, limits, ops[0]);
      } else if OfPass(ops[0]) {
        PassServes(w, limits, ops[0]);
      } else {
        ComputeServes(w, limits, ops[0]);
      }
      ApplyKeeps(w, limits, ops[0]);
      RunServes(Apply(w, limits, ops[0]).next, limits, ops[1..]);
    }
  }

  /** In every reachable state an attempt that computes a running job owns its lease. */
  lemma ComputingIsLeased(w: World, limits: Limits, a: AttemptId, j: JobId)
    requires Reachable(w, limits) && a in w.attempts && w.attempts[a].kind.FullWork? && w.attempts[a].target == j
    requires w.attempts[a].status.Running? && j in w.jobs && w.jobs[j].status.Running?
    ensures w.jobs[j].lease.Some? && w.jobs[j].lease.value.owner == a
  {
    hide Inv, Pending, Run;
    var ops :| w == Run(EMPTY, limits, ops);
    EmptySound(limits);
    RunServes(EMPTY, limits, ops);
    assert Served(w.jobs, j, a);
  }
}
