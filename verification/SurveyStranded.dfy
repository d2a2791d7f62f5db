/**
 When a running execution can no longer end.  The sweep only looks at jobs that hold a lease, and
 the work list drops a job past its deadline or out of compute starts; a job that lost its lease to
 a stop event and then falls to either is seen by neither, and keeps its user's reservation.  Only a
 reserving transaction that began in time can still save it, if its list leads to the job.
 */
module SurveyStranded {
  import opened Sets
  import opened Wrappers
  import opened SurveyModel
  import opened SurveyTransitions
  import opened SurveyInvariants
  import opened SurveyOps
  import opened SurveyCalm
  import opened SurveyPending
  import opened SurveyRescue
  import opened SurveyRuns
  import opened SurveySteps
  import opened SurveyCompute
  import opened SurveyGuarantees

  predicate On(at: Attempt, j: JobId) {
    at.kind.FullWork? && at.target == j
  }

  /** Nobody holds the running job and nobody is about to. */
  predicate Waiting(w: World, j: JobId) {
    j in w.jobs && w.jobs[j].status.Running? && w.jobs[j].lease.None? && ActiveOn(w.attempts, FullWork, j) == {}
  }

  /** A work list fetched by a transaction whose clock shows `t` would offer the waiting job. */
  predicate Listable(w: World, limits: Limits, j: JobId, t: Time)
    requires j in w.jobs
  {
    (w.jobs[j].deadline.None? || w.jobs[j].deadline.value > t)
    && |StartedOn(w.attempts, FullWork, j)| < limits.maxCompute
  }

  /** A reserving transaction that begins now, or began before and waits for the capacity lock, may list the job. */
  ghost predicate Offered(w: World, limits: Limits, j: JobId)
    requires j in w.jobs
  {
    Listable(w, limits, j, w.now) || exists t :: Ticket(FullWork, t) in w.line && Listable(w, limits, j, t)
  }

  /** The reserving transaction that holds the capacity lock has the job on its list and may get to it. */
  predicate Rescued(w: World, limits: Limits, j: JobId) {
    FullWork in w.passes && Rescues(w, limits, w.passes[FullWork], j)
  }

  /** Nobody works on the job, no work list will offer it, and none that was fetched leads to it. */
  ghost predicate Stranded(w: World, limits: Limits, j: JobId) {
    Waiting(w, j) && !Offered(w, limits, j) && !Rescued(w, limits, j)
  }

  predicate Quiet(x: Attempt, y: Attempt) {
    Same(x, y) && (Active(y) ==> Active(x)) && (x.started ==> y.started)
  }

  predicate RowSleeps(w: World, v: World, j: JobId)
    requires j in w.jobs
  {
    j in v.jobs && Kept(w.jobs[j], v.jobs[j]) && w.now <= v.now
  }

  /** The job is as before, apart from a cancel request, and its attempts are no livelier. */
  ghost predicate Sleeps(w: World, v: World, j: JobId)
    requires j in w.jobs
  {
    && RowSleeps(w, v, j)
    && (forall a :: a in w.attempts && On(w.attempts[a], j) ==> a in v.attempts && Quiet(w.attempts[a], v.attempts[a]))
    && (forall a :: a in v.attempts && On(v.attempts[a], j) && Active(v.attempts[a]) ==>
          a in w.attempts && On(w.attempts[a], j))
  }

  lemma SameAttempts(w: World, v: World, j: JobId)
    requires j in w.jobs && RowSleeps(w, v, j) && v.attempts == w.attempts
    ensures Sleeps(w, v, j)
  {
  }

  lemma OneAttempt(w: World, v: World, j: JobId, a: AttemptId)
    requires j in w.jobs && RowSleeps(w, v, j)
    requires a in w.attempts && a in v.attempts && v.attempts == w.attempts[a := v.attempts[a]]
    requires Quiet(w.attempts[a], v.attempts[a])
    ensures Sleeps(w, v, j)
  {
  }

  lemma StillWaiting(w: World, v: World, j: JobId)
    requires Waiting(w, j) && Sleeps(w, v, j)
    ensures Waiting(v, j)
  {
    forall a | a in ActiveOn(v.attempts, FullWork, j)
      ensures a in ActiveOn(w.attempts, FullWork, j)
    {
    }
  }

  lemma ListableBefore(w: World, v: World, limits: Limits, j: JobId, t: Time)
    requires j in w.jobs && Sleeps(w, v, j) && Listable(v, limits, j, t)
    ensures Listable(w, limits, j, t)
  {
    forall a | a in StartedOn(w.attempts, FullWork, j)
      ensures a in StartedOn(v.attempts, FullWork, j)
    {
      assert On(w.attempts[a], j);
    }
    SubsetSize(StartedOn(w.attempts, FullWork, j), StartedOn(v.attempts, FullWork, j));
  }

  /** Only a transaction that begins now joins those that wait for a capacity lock. */
  ghost predicate LineStays(w: World, v: World) {
    forall k, t :: Ticket(k, t) in v.line ==> Ticket(k, t) in w.line || t == w.now
  }

  lemma StillUnoffered(w: World, v: World, limits: Limits, j: JobId)
    requires j in w.jobs && Sleeps(w, v, j) && LineStays(w, v) && !Offered(w, limits, j)
    ensures !Offered(v, limits, j)
  {
    hide Sleeps, Listable;
    NowOrLater(w, v, limits, j);
    forall t | Ticket(FullWork, t) in v.line
      ensures !Listable(v, limits, j, t)
    {
      if Listable(v, limits, j, t) {
        ListableBefore(w, v, limits, j, t);
      }
    }
  }

  lemma NowOrLater(w: World, v: World, limits: Limits, j: JobId)
    requires j in w.jobs && Sleeps(w, v, j)
    ensures j in v.jobs && (Listable(v, limits, j, v.now) ==> Listable(w, limits, j, w.now))
  {
    if Listable(v, limits, j, v.now) {
      ListableBefore(w, v, limits, j, v.now);
    }
  }

  lemma CreateSleeps(w: World, s: SurveyId, d: DraftId, user: UserId, request: RequestId,
                     hash: Hash, day: Day, override: Option<int>, dailyLimit: int, j: JobId)
    requires j in w.jobs
    ensures Sleeps(w, Create(w, s, d, user, request, hash, day, override, dailyLimit).next, j)
  {
    hide Sleeps, RequestedSurveys;
    SameAttempts(w, Create(w, s, d, user, request, hash, day, override, dailyLimit).next, j);
  }

  lemma RequestSleeps(w: World, s: SurveyId, user: UserId, d: DraftId, request: RequestId, hash: Hash, j: JobId)
    requires j in w.jobs
    ensures Sleeps(w, RequestDraft(w, s, user, d, request, hash).next, j)
  {
    hide Sleeps, RequestedDrafts, LatestRevision, HasActiveDraft;
    SameAttempts(w, RequestDraft(w, s, user, d, request, hash).next, j);
  }

  lemma ManualSleeps(w: World, s: SurveyId, user: UserId, d: DraftId, request: RequestId, hash: Hash, markdown: string,
                     j: JobId)
    requires j in w.jobs
    ensures Sleeps(w, ManualDraft(w, s, user, d, request, hash, markdown).next, j)
  {
    hide Sleeps, RequestedDrafts, LatestRevision, HasActiveDraft;
    SameAttempts(w, ManualDraft(w, s, user, d, request, hash, markdown).next, j);
  }

  lemma CompleteSleeps(w: World, d: DraftId, worker: AttemptId, markdown: string, j: JobId)
    requires j in w.jobs
    ensures Sleeps(w, CompleteDraft(w, d, worker, markdown).next, j)
  {
    hide Sleeps, LatestRevision;
    SameAttempts(w, CompleteDraft(w, d, worker, markdown).next, j);
  }

  lemma FailSleeps(w: World, d: DraftId, worker: AttemptId, j: JobId)
    requires j in w.jobs
    ensures Sleeps(w, FailDraft(w, d, worker).next, j)
    ensures Sleeps(w, RecoverDraft(w, d).next, j)
  {
    hide Sleeps;
    SameAttempts(w, FailDraft(w, d, worker).next, j);
    SameAttempts(w, RecoverDraft(w, d).next, j);
  }

  lemma StartSleeps(w: World, s: SurveyId, user: UserId, k: JobId, request: RequestId, hash: Hash, notify: bool,
                    j: JobId)
    requires j in w.jobs
    ensures Sleeps(w, Start(w, s, user, k, request, hash, notify).next, j)
  {
    hide Sleeps, HasActiveDraft, IsLatest;
    SameAttempts(w, Start(w, s, user, k, request, hash, notify).next, j);
  }

  lemma WithdrawSleeps(w: World, s: SurveyId, j: JobId)
    requires j in w.jobs && s in w.surveys && (s in w.jobOf ==> w.jobOf[s] != j)
    ensures Sleeps(w, Withdraw(w, s).next, j)
  {
    hide Settled, CancelledDrafts;
  }

  lemma CancelSleeps(w: World, limits: Limits, s: SurveyId, user: UserId, j: JobId)
    requires Inv(w, limits) && Waiting(w, j)
    ensures Sleeps(w, Cancel(w, s, user).next, j)
  {
    hide Inv, Sleeps, Withdraw;
    JobsSurvey(w, limits, j);
    SameAttempts(w, w, j);
    if Visible(w, s, user) {
      IsSound(w, limits, s);
      IndexOf(w, limits, s);
      if w.surveys[s].status.Running? && Cancel(w, s, user).reply.Done? {
        SameAttempts(w, Cancel(w, s, user).next, j);
      } else {
        WithdrawSleeps(w, s, j);
      }
    }
  }

  lemma ErasedSleeps(w: World, limits: Limits, s: SurveyId, v: World, j: JobId)
    requires Inv(w, limits) && j in w.jobs && w.jobs[j].survey != s && v == Erased(w, s).(usage := v.usage)
    ensures Sleeps(w, v, j)
  {
    hide Indexed, Lockstep, QuotaExact, ChargedOnce, CancelsStick, DraftChain, Approved, Leased, Numbered, Budgeted,
      Capped, Checkpointed, Announced;
    forall a | a in w.attempts && On(w.attempts[a], j)
      ensures a in v.attempts && Quiet(w.attempts[a], v.attempts[a])
    {
      assert Targets(w.jobs, w.drafts, w.attempts[a]);
    }
  }

  lemma DeleteSleeps(w: World, limits: Limits, s: SurveyId, user: UserId, j: JobId)
    requires Inv(w, limits) && Waiting(w, j)
    ensures Sleeps(w, Delete(w, s, user).next, j)
  {
    hide Inv, Sleeps, Settled, Erased;
    JobsSurvey(w, limits, j);
    SameAttempts(w, w, j);
    if Delete(w, s, user).reply.Done? {
      ErasedSleeps(w, limits, s, Delete(w, s, user).next, j);
    }
  }

  /** Settling, archiving and repair need a lease, a finished job or an expired lease: this job has none. */
  lemma EndingSleeps(w: World, limits: Limits, op: Op, j: JobId)
    requires Waiting(w, j)
    requires op.SettleExecution? || op.RecoverExpiredJob?
    ensures Sleeps(w, Apply(w, limits, op).next, j)
  {
    hide Create, RequestDraft, ManualDraft, CompleteDraft, FailDraft, RecoverDraft, Start, Cancel, Delete, Reserve,
      Fetch, TryNext, MarkLaunching, LaunchFailed, MarkLaunched, ClaimDraft, ClaimJob, CommitCheckpoint, Heartbeat,
      AttemptSucceeded, AttemptStopped, Tick, Sleeps, ActiveOn, Settled, FinishArchive, DeferArchive,
      MarkWorkspaceMissing, RecoverArchived, RepairEvidence, SetSending;
    SameAttempts(w, Apply(w, limits, op).next, j);
  }

  lemma ArchivingSleeps(w: World, limits: Limits, op: Op, j: JobId)
    requires Waiting(w, j)
    requires op.FinishSurveyArchive? || op.DeferSurveyArchive? || op.MarkArchiveWorkspaceMissing? || op.SetMailSending?
    ensures Sleeps(w, Apply(w, limits, op).next, j)
  {
    hide Create, RequestDraft, ManualDraft, CompleteDraft, FailDraft, RecoverDraft, Start, Cancel, Delete, Reserve,
      Fetch, TryNext, MarkLaunching, LaunchFailed, MarkLaunched, ClaimDraft, ClaimJob, CommitCheckpoint, Heartbeat,
      AttemptSucceeded, AttemptStopped, Tick, Sleeps, ActiveOn, Settle, RecoverJob, RecoverArchived, RepairEvidence,
      Notified;
    SameAttempts(w, Apply(w, limits, op).next, j);
  }

  lemma ArchiveRecoverySleeps(w: World, k: JobId, expected: Manifest, code: ErrorCode, replacement: Option<Manifest>,
                              j: JobId)
    requires Waiting(w, j)
    ensures Sleeps(w, RecoverArchived(w, k, expected, code, replacement).next, j)
  {
    hide Sleeps, OwnStorage, OwnOverlay, ActiveOn;
    SameAttempts(w, RecoverArchived(w, k, expected, code, replacement).next, j);
  }

  lemma RepairSleeps(w: World, k: JobId, expected: Manifest, overlay: Manifest, j: JobId)
    requires Waiting(w, j)
    ensures Sleeps(w, RepairEvidence(w, k, expected, overlay).next, j)
  {
    hide Sleeps, OwnStorage, OwnOverlay, ActiveOn;
    SameAttempts(w, RepairEvidence(w, k, expected, overlay).next, j);
  }

  lemma ExecutionSleeps(w: World, limits: Limits, op: Op, j: JobId)
    requires OfExecution(op) && Waiting(w, j)
    ensures Sleeps(w, Apply(w, limits, op).next, j)
  {
    hide Create, RequestDraft, ManualDraft, CompleteDraft, FailDraft, RecoverDraft, Start, Cancel, Delete, Settle,
      FinishArchive, DeferArchive, MarkWorkspaceMissing, RecoverJob, RecoverArchived, RepairEvidence, SetSending,
      Reserve, Fetch, TryNext, MarkLaunching, LaunchFailed, MarkLaunched, ClaimDraft, ClaimJob, CommitCheckpoint,
      Heartbeat, AttemptSucceeded, AttemptStopped, Tick, Sleeps, Waiting;
    match op {
      case RecoverArchivedFailure(k, expected, code, replacement) =>
        ArchiveRecoverySleeps(w, k, expected, code, replacement, j);
      case RepairDegradedEvidence(k, expected, overlay) => RepairSleeps(w, k, expected, overlay, j);
      case SettleExecution(_, _, _, _, _) => EndingSleeps(w, limits, op, j);
      case RecoverExpiredJob(_) => EndingSleeps(w, limits, op, j);
      case _ => ArchivingSleeps(w, limits, op, j);
    }
  }

  lemma NewAttempt(w: World, v: World, j: JobId, a: AttemptId)
    requires j in w.jobs && RowSleeps(w, v, j)
    requires a !in w.attempts && a in v.attempts && v.attempts == w.attempts[a := v.attempts[a]]
    requires !On(v.attempts[a], j)
    ensures Sleeps(w, v, j)
  {
  }

  lemma NotListed(w: World, limits: Limits, j: JobId, t: Time)
    requires Waiting(w, j) && !Listable(w, limits, j, t)
    ensures !Reservable(w.(now := t), limits, FullWork, j)
  {
    hide ActiveOn, StartedOn, ActiveOfUser;
  }

  lemma ReserveSleeps(w: World, limits: Limits, kind: WorkKind, target: nat, a: AttemptId, j: JobId)
    requires Waiting(w, j) && (kind.FullWork? ==> target != j || !Listable(w, limits, j, w.now))
    ensures Sleeps(w, Reserve(w, limits, kind, target, a).next, j)
  {
    hide Sleeps, ServedFirst, Reservable, Listed, ActiveOn, ActiveOfKind, AttemptsOn, Listable, Waiting;
    IsThere(w, j);
    Unmoved(w, j);
    if !Listable(w, limits, j, w.now) {
      NotListed(w, limits, j, w.now);
      assert w.(now := w.now) == w;
    }
    if Reserve(w, limits, kind, target, a).reply.Done? {
      ReservableListed(w, limits, kind, target);
      NewAttempt(w, Reserve(w, limits, kind, target, a).next, j, a);
    }
  }

  /** A transaction under way that cannot get to the job reserves another item, or nothing. */
  lemma TrySleeps(w: World, limits: Limits, kind: WorkKind, a: AttemptId, j: JobId)
    requires Waiting(w, j) && !Rescued(w, limits, j)
    ensures Sleeps(w, TryNext(w, limits, kind, a).next, j)
  {
    hide Sleeps, Waiting, TryNext, Rescues, Current;
    var step := TryNext(w, limits, kind, a);
    TryShape(w, limits, kind, a);
    IsThere(w, j);
    if step.reply.Done? {
      TriedIsCurrent(w, limits, kind, a);
      HeadNot(w, limits, j);
      NewAttempt(w, step.next, j, a);
    } else {
      SameAttempts(w, step.next, j);
    }
  }

  lemma IsThere(w: World, j: JobId)
    requires Waiting(w, j)
    ensures j in w.jobs
  {
  }

  lemma TriedIsCurrent(w: World, limits: Limits, kind: WorkKind, a: AttemptId)
    requires kind in w.passes && w.passes[kind] != []
    ensures TryNext(w, limits, kind, a).reply.Done? ==> Current(w, kind, w.passes[kind][0])
    ensures kind.FullWork? && TryNext(w, limits, kind, a).reply.Unchanged? ==> Skippable(w, limits, w.passes[kind][0])
  {
    hide Current, ActiveOfUser, ActiveOn, NumberTaken, Shortened;
  }

  lemma HeadNot(w: World, limits: Limits, j: JobId)
    requires !Rescued(w, limits, j)
    ensures FullWork in w.passes && w.passes[FullWork] != [] && Current(w, FullWork, w.passes[FullWork][0]) ==>
              w.passes[FullWork][0].target != j
  {
    hide Current;
  }

  lemma PassSleeps(w: World, limits: Limits, op: Op, j: JobId)
    requires OfPass(op) && Waiting(w, j) && !Rescued(w, limits, j)
    ensures Sleeps(w, Apply(w, limits, op).next, j)
  {
    hide Sleeps, Waiting, Apply, TryNext, Rescued;
    IsThere(w, j);
    PassShape(w, limits, op);
    if op.TryCandidate? {
      TryApplies(w, limits, op.kind, op.a);
      TrySleeps(w, limits, op.kind, op.a, j);
    } else {
      SameAttempts(w, Apply(w, limits, op).next, j);
    }
  }

  lemma TryApplies(w: World, limits: Limits, kind: WorkKind, a: AttemptId)
    ensures Apply(w, limits, TryCandidate(kind, a)) == TryNext(w, limits, kind, a)
  {
    hide Create, RequestDraft, ManualDraft, CompleteDraft, FailDraft, RecoverDraft, Start, Cancel, Delete, Settle,
      FinishArchive, DeferArchive, MarkWorkspaceMissing, RecoverJob, RecoverArchived, RepairEvidence, SetSending,
      Reserve, JoinLine, Fetch, TryNext, EndPass, MarkLaunching, LaunchFailed, MarkLaunched, ClaimDraft, ClaimJob,
      CommitCheckpoint, Heartbeat, AttemptSucceeded, AttemptStopped, Tick;
  }

  lemma LaunchSleeps(w: World, limits: Limits, op: Op, j: JobId)
    requires Waiting(w, j) && (op.MarkAttemptLaunching? || op.RecordLaunchFailure? || op.MarkAttemptLaunched?)
    ensures Sleeps(w, Apply(w, limits, op).next, j)
  {
    hide Create, RequestDraft, ManualDraft, CompleteDraft, FailDraft, RecoverDraft, Start, Cancel, Delete, Settle,
      FinishArchive, DeferArchive, MarkWorkspaceMissing, RecoverJob, RecoverArchived, RepairEvidence, SetSending,
      Reserve, Fetch, TryNext, ClaimDraft, ClaimJob, CommitCheckpoint, Heartbeat, AttemptSucceeded, AttemptStopped,
      Tick, Sleeps;
    SameAttempts(w, w, j);
    if Apply(w, limits, op).reply.Done? {
      OneAttempt(w, Apply(w, limits, op).next, j, op.a);
    }
  }

  lemma ClaimSleeps(w: World, target: nat, a: AttemptId, lease: int, timeout: int, j: JobId)
    requires Waiting(w, j)
    ensures Sleeps(w, ClaimDraft(w, target, a, lease).next, j)
    ensures Sleeps(w, ClaimJob(w, target, a, lease, timeout).next, j)
  {
    hide Sleeps;
    SameAttempts(w, w, j);
    if ClaimDraft(w, target, a, lease).reply.Done? {
      OneAttempt(w, ClaimDraft(w, target, a, lease).next, j, a);
    }
    if ClaimJob(w, target, a, lease, timeout).reply.Done? {
      assert target == j ==> a in ActiveOn(w.attempts, FullWork, j);
      OneAttempt(w, ClaimJob(w, target, a, lease, timeout).next, j, a);
    }
  }

  lemma CommitSleeps(w: World, k: JobId, a: AttemptId, position: nat, stage: nat, pointer: nat, lease: int, j: JobId)
    requires Waiting(w, j)
    ensures Sleeps(w, CommitCheckpoint(w, k, a, position, stage, pointer).next, j)
    ensures Sleeps(w, Heartbeat(w, a, lease).next, j)
  {
    hide Sleeps, CommitsOf, CommitCheckpoint, Heartbeat, ActiveOn;
    SameAttempts(w, w, j);
    CommitSpares(w, k, a, position, stage, pointer, j);
    if CommitCheckpoint(w, k, a, position, stage, pointer).reply.Done? {
      OneAttempt(w, CommitCheckpoint(w, k, a, position, stage, pointer).next, j, a);
    }
    HeartbeatSpares(w, a, lease, j);
    SameAttempts(w, Heartbeat(w, a, lease).next, j);
  }

  lemma CommitSpares(w: World, k: JobId, a: AttemptId, position: nat, stage: nat, pointer: nat, j: JobId)
    requires Waiting(w, j)
    ensures var step := CommitCheckpoint(w, k, a, position, stage, pointer);
            && (!step.reply.Done? ==> step.next == w)
            && (step.reply.Done? ==>
                  && RowSleeps(w, step.next, j) && a in w.attempts && a in step.next.attempts
                  && step.next.attempts == w.attempts[a := step.next.attempts[a]]
                  && Quiet(w.attempts[a], step.next.attempts[a]))
  {
    hide CommitsOf, ActiveOn;
  }

  lemma HeartbeatSpares(w: World, a: AttemptId, lease: int, j: JobId)
    requires Waiting(w, j)
    ensures RowSleeps(w, Heartbeat(w, a, lease).next, j) && Heartbeat(w, a, lease).next.attempts == w.attempts
  {
    hide ActiveOn;
  }

  /** A stop event frees only what its own attempt holds. */
  lemma ReturnedSpares(w: World, a: AttemptId, j: JobId)
    requires Waiting(w, j) && a in w.attempts
    ensures RowSleeps(w, Returned(w, a), j)
  {
    hide ActiveOn;
  }

  lemma DroppedSpares(w: World, a: AttemptId, retryable: bool, j: JobId)
    requires Waiting(w, j) && a in w.attempts
    ensures RowSleeps(w, Dropped(w, a, retryable), j)
  {
    hide ActiveOn;
  }

  lemma StopsSleep(w: World, step: Step, u: World, a: AttemptId, j: JobId)
    requires j in w.jobs && Stops(w, step, u, a) && RowSleeps(w, u, j)
    ensures Sleeps(w, step.next, j)
  {
    hide Sleeps, Active;
    SameAttempts(w, w, j);
    if step.reply.Done? {
      OneAttempt(w, step.next, j, a);
    }
  }

  lemma SucceededSleeps(w: World, a: AttemptId, version: int, j: JobId)
    requires Waiting(w, j)
    ensures Sleeps(w, AttemptSucceeded(w, a, version).next, j)
  {
    hide Sleeps, Stops, Returned, Waiting, RowSleeps;
    IsThere(w, j);
    if a in w.attempts {
      ReturnedSpares(w, a, j);
      SucceededStops(w, a, version);
      StopsSleep(w, AttemptSucceeded(w, a, version), Returned(w, a), a, j);
    } else {
      Unmoved(w, j);
    }
  }

  lemma Unmoved(w: World, j: JobId)
    requires j in w.jobs
    ensures Sleeps(w, w, j)
  {
    SameAttempts(w, w, j);
  }

  lemma StoppedSleeps(w: World, a: AttemptId, version: int, retryable: bool, j: JobId)
    requires Waiting(w, j)
    ensures Sleeps(w, AttemptStopped(w, a, version, retryable).next, j)
  {
    hide Sleeps, Stops, Dropped, Waiting, RowSleeps;
    IsThere(w, j);
    if a in w.attempts {
      DroppedSpares(w, a, retryable, j);
      StoppedStops(w, a, version, retryable);
      StopsSleep(w, AttemptStopped(w, a, version, retryable), Dropped(w, a, retryable), a, j);
    } else {
      Unmoved(w, j);
    }
  }

  lemma OwnerSleeps(w: World, limits: Limits, op: Op, j: JobId)
    requires Inv(w, limits) && Waiting(w, j) && OfOwner(op)
    ensures Sleeps(w, Apply(w, limits, op).next, j)
  {
    hide Inv, Sleeps, Create, RequestDraft, ManualDraft, CompleteDraft, FailDraft, RecoverDraft, Start, Cancel,
      Delete, Settle, FinishArchive, DeferArchive, MarkWorkspaceMissing, RecoverJob, RecoverArchived, RepairEvidence,
      SetSending, Reserve, Fetch, TryNext, MarkLaunching, LaunchFailed, MarkLaunched, ClaimDraft, ClaimJob,
      CommitCheckpoint, Heartbeat, AttemptSucceeded, AttemptStopped, ActiveOn;
    match op {
      case StartSurvey(s, user, k, request, hash, notify) => StartSleeps(w, s, user, k, request, hash, notify, j);
      case CancelSurvey(s, user) => CancelSleeps(w, limits, s, user, j);
      case DeleteSurvey(s, user) => DeleteSleeps(w, limits, s, user, j);
      case CreateSurvey(s, d, user, request, hash, day, override, dailyLimit) =>
        CreateSleeps(w, s, d, user, request, hash, day, override, dailyLimit, j);
      case RequestGeneratedDraft(s, user, d, request, hash) => RequestSleeps(w, s, user, d, request, hash, j);
      case CreateManualDraft(s, user, d, request, hash, markdown) =>
        ManualSleeps(w, s, user, d, request, hash, markdown, j);
      case CompleteSurveyDraft(d, worker, markdown) => CompleteSleeps(w, d, worker, markdown, j);
      case FailSurveyDraft(d, worker) => FailSleeps(w, d, worker, j);
      case RecoverExpiredDraft(d) => FailSleeps(w, d, 0, j);
    }
  }

  lemma ComputeSleeps(w: World, limits: Limits, op: Op, j: JobId)
    requires Inv(w, limits) && Waiting(w, j) && !Listable(w, limits, j, w.now)
    requires !OfOwner(op) && !OfExecution(op) && !OfPass(op)
    ensures Sleeps(w, Apply(w, limits, op).next, j)
  {
    hide Inv, Sleeps, Listable, Create, RequestDraft, ManualDraft, CompleteDraft, FailDraft, RecoverDraft, Start,
      Cancel, Delete, Settle, FinishArchive, DeferArchive, MarkWorkspaceMissing, RecoverJob, RecoverArchived,
      RepairEvidence, SetSending, Reserve, Fetch, TryNext, MarkLaunching, LaunchFailed, MarkLaunched, ClaimDraft,
      ClaimJob, CommitCheckpoint, Heartbeat, AttemptSucceeded, AttemptStopped, ActiveOn;
    match op {
      case ReserveAttempt(kind, target, a) => ReserveSleeps(w, limits, kind, target, a, j);
      case ClaimExactDraft(d, a, lease) => ClaimSleeps(w, d, a, lease, 0, j);
      case ClaimExactJob(k, a, lease, timeout) => ClaimSleeps(w, k, a, lease, timeout, j);
      case CommitJobCheckpoint(k, a, position, stage, pointer) =>
        CommitSleeps(w, k, a, position, stage, pointer, 0, j);
      case HeartbeatAttempt(a, lease) => CommitSleeps(w, 0, a, 0, 0, 0, lease, j);
      case RecordSucceeded(a, version) => SucceededSleeps(w, a, version, j);
      case RecordStopped(a, version, retryable) => StoppedSleeps(w, a, version, retryable, j);
      case PassTime(_) => SameAttempts(w, Apply(w, limits, op).next, j);
      case _ => LaunchSleeps(w, limits, op, j);
    }
  }

  lemma StepSleeps(w: World, limits: Limits, op: Op, j: JobId)
    requires Inv(w, limits) && Stranded(w, limits, j)
    ensures Sleeps(w, Apply(w, limits, op).next, j)
  {
    hide Inv, Sleeps, Listable, Apply, ActiveOn, Rescued;
    if OfOwner(op) {
      OwnerSleeps(w, limits, op, j);
    } else if OfExecution(op) {
      ExecutionSleeps(w, limits, op, j);
    } else if OfPass(op) {
      PassSleeps(w, limits, op, j);
    } else {
      ComputeSleeps(w, limits, op, j);
    }
  }

  // ---------- lists and queues ----------

  lemma StepLine(w: World, limits: Limits, op: Op)
    ensures LineStays(w, Apply(w, limits, op).next)
  {
    hide Apply;
    if OfPass(op) {
      PassLine(w, limits, op);
    } else {
      PassesStay(w, limits, op);
    }
  }

  lemma PassLine(w: World, limits: Limits, op: Op)
    requires OfPass(op)
    ensures LineStays(w, Apply(w, limits, op).next)
  {
    hide TryNext, ActiveOfKind, WorkList, CandidatesOf;
    if op.TryCandidate? {
      TryShape(w, limits, op.kind, op.a);
    }
  }

  /** A list that is fetched does not offer the job. */
  lemma FetchNoRescue(w: World, limits: Limits, kind: WorkKind, began: Time, list: seq<nat>, j: JobId)
    requires Waiting(w, j) && !Offered(w, limits, j) && !Rescued(w, limits, j)
    ensures !Rescued(Fetch(w, limits, kind, began, list).next, limits, j)
  {
    hide Listable, ActiveOfKind, Rescues, Waiting, Reservable, Listed, InOrder, ComesAfter;
    var step := Fetch(w, limits, kind, began, list);
    FetchOnlyPasses(w, limits, kind, began, list);
    IsThere(w, j);
    if kind.FullWork? && step.reply.Done? {
      var candidates := step.next.passes[FullWork];
      forall i | 0 <= i < |candidates|
        ensures candidates[i].target != j
      {
        assert Reservable(w.(now := began), limits, FullWork, list[i]);
        ReservableListed(w.(now := began), limits, FullWork, list[i]);
        NotListed(w, limits, j, began);
      }
      OffList(step.next, limits, candidates, j);
    } else if FullWork in w.passes {
      RescuesAside(w, step.next, limits, w.passes[FullWork], j);
    }
  }

  lemma TryNoRescue(w: World, limits: Limits, a: AttemptId, j: JobId)
    requires !Rescued(w, limits, j)
    ensures !Rescued(TryNext(w, limits, FullWork, a).next, limits, j)
  {
    hide TryNext, Current, Skippable;
    var v := TryNext(w, limits, FullWork, a).next;
    TryPasses(w, limits, FullWork, a);
    if FullWork in v.passes {
      TriedIsCurrent(w, limits, FullWork, a);
      RescuesAside(w, v, limits, v.passes[FullWork], j);
    }
  }

  lemma OtherNoRescue(w: World, limits: Limits, op: Op, j: JobId)
    requires Sound(w, limits) && Sound(Apply(w, limits, op).next, limits) && !Rescued(w, limits, j)
    requires !op.FetchWork? && (op.TryCandidate? ==> op.kind.DraftWork?)
    requires FullWork in Apply(w, limits, op).next.passes ==>
               FullWork in w.passes && Apply(w, limits, op).next.passes[FullWork] == w.passes[FullWork]
    ensures !Rescued(Apply(w, limits, op).next, limits, j)
  {
    hide Inv, Apply, Fits, Calms, Rescues;
    var v := Apply(w, limits, op).next;
    assert Underway(w, limits, FullWork);
    if Rescued(v, limits, j) {
      OpCalm(w, limits, op, FullWork);
      StillNoWay(w, v, limits, w.passes[FullWork], j);
    }
  }

  lemma StepNoRescue(w: World, limits: Limits, op: Op, j: JobId)
    requires Sound(w, limits) && Sound(Apply(w, limits, op).next, limits) && Stranded(w, limits, j)
    ensures !Rescued(Apply(w, limits, op).next, limits, j)
  {
    hide Sound, Rescued, Waiting, Listable, Fetch, TryNext;
    if op.FetchWork? {
      FetchNoRescue(w, limits, op.kind, op.began, op.list, j);
    } else if op.TryCandidate? && op.kind.FullWork? {
      TryNoRescue(w, limits, op.a, j);
    } else {
      SameList(w, limits, op);
      OtherNoRescue(w, limits, op, j);
    }
  }

  lemma SameList(w: World, limits: Limits, op: Op)
    requires !op.FetchWork? && (op.TryCandidate? ==> op.kind.DraftWork?)
    ensures var v := Apply(w, limits, op).next;
            FullWork in v.passes ==> FullWork in w.passes && v.passes[FullWork] == w.passes[FullWork]
  {
    hide Fetch, TryNext;
    if op.TryCandidate? {
      TryPasses(w, limits, op.kind, op.a);
    } else if op.AbandonPass? || op.BeginPass? {
      AbandonIs(w, limits, op);
    } else {
      PassesStay(w, limits, op);
    }
  }

  // ---------- whole runs ----------

  lemma StepStranded(w: World, limits: Limits, op: Op, j: JobId)
    requires Sound(w, limits) && Sound(Apply(w, limits, op).next, limits) && Stranded(w, limits, j)
    ensures Stranded(Apply(w, limits, op).next, limits, j)
  {
    hide Inv, Pending, Apply, Sleeps, Waiting, Offered, Rescued, LineStays;
    var v := Apply(w, limits, op).next;
    IsThere(w, j);
    StepSleeps(w, limits, op, j);
    StillWaiting(w, v, j);
    StepLine(w, limits, op);
    StillUnoffered(w, v, limits, j);
    StepNoRescue(w, limits, op, j);
  }

  lemma {:induction false} StaysStranded(w: World, limits: Limits, j: JobId, ops: seq<Op>)
    requires Sound(w, limits) && Stranded(w, limits, j)
    ensures var v := Run(w, limits, ops);
            && Stranded(v, limits, j) && v.jobs[j].survey in v.surveys
            && v.surveys[v.jobs[j].survey].status.Running? && v.surveys[v.jobs[j].survey].quota.Reserved?
    decreases |ops|
  {
    hide Inv, Pending, Apply, Offered, Rescued, ActiveOn;
    if ops == [] {
      JobsSurvey(w, limits, j);
    } else {
      ApplyKeeps(w, limits, ops[0]);
      StepStranded(w, limits, ops[0], j);
      StaysStranded(Apply(w, limits, ops[0]).next, limits, j, ops[1..]);
    }
  }

  /** A stranded job is still running after any run whatsoever, and its Survey still holds its reservation. */
  lemma StrandedForever(w: World, limits: Limits, j: JobId, v: World)
    requires Reachable(w, limits) && Stranded(w, limits, j) && Follows(w, limits, v)
    ensures Stranded(v, limits, j) && v.jobs[j].survey in v.surveys
    ensures v.surveys[v.jobs[j].survey].status.Running? && v.surveys[v.jobs[j].survey].quota.Reserved?
  {
    hide Sound, Run, Stranded;
    ReachableSound(w, limits);
    var ops :| v == Run(w, limits, ops);
    StaysStranded(w, limits, j, ops);
  }

  /** With room for its user, the work list offers a waiting job exactly while it is in time and has starts left. */
  lemma OfferedExactly(w: World, limits: Limits, j: JobId)
    requires Reachable(w, limits) && Waiting(w, j)
    requires j in w.jobs && w.jobs[j].survey in w.surveys
             && |ActiveOfUser(w.surveys, w.attempts, FullWork, w.surveys[w.jobs[j].survey].user)| < limits.fullUser
    ensures Reservable(w, limits, FullWork, j)
            <==> (w.jobs[j].deadline.None? || w.jobs[j].deadline.value > w.now)
                 && |StartedOn(w.attempts, FullWork, j)| < limits.maxCompute
  {
    hide Inv, Pending, ActiveOfUser, StartedOn;
    ReachableSound(w, limits);
    JobsSurvey(w, limits, j);
  }

  lemma RunTwo(w: World, limits: Limits, x: Op, y: Op)
    ensures Run(w, limits, [x, y]) == Apply(Apply(w, limits, x).next, limits, y).next
  {
    hide Apply;
    var u := Apply(w, limits, x).next;
    assert [x, y][1..] == [y] && [y][1..] == [];
    assert Run(u, limits, [y]) == Run(Apply(u, limits, y).next, limits, []);
  }

  lemma Swept(w: World, j: JobId)
    ensures var step := RecoverJob(w, j);
            step.reply.Done? ==> j in step.next.jobs && step.next.jobs[j].status.Archiving?
  {
    hide Settled;
  }

  lemma Sweeping(u: World, limits: Limits, j: JobId, elapsed: nat)
    ensures Apply(u, limits, PassTime(elapsed)).next == Tick(u, elapsed).next
    ensures Apply(u, limits, RecoverExpiredJob(j)).next == RecoverJob(u, j).next
  {
    hide RecoverJob;
  }

  /** A job that holds a lease ends once the lease has run out and the sweep comes by. */
  lemma LeasedJobEnds(w: World, limits: Limits, j: JobId, elapsed: nat)
    requires Reachable(w, limits) && j in w.jobs && w.jobs[j].status.Running? && w.jobs[j].lease.Some?
    requires w.now + elapsed >= w.jobs[j].lease.value.expires
    ensures var v := Run(w, limits, [PassTime(elapsed), RecoverExpiredJob(j)]);
            j in v.jobs && v.jobs[j].status.Archiving?
  {
    hide Inv, Pending, RecoverJob, Run, Apply;
    ReachableSound(w, limits);
    var u := Tick(w, elapsed).next;
    TickKeeps(w, limits, elapsed);
    RecoveryReply(u, limits, j);
    Swept(u, j);
    RunTwo(w, limits, PassTime(elapsed), RecoverExpiredJob(j));
    Sweeping(w, limits, j, elapsed);
    Sweeping(u, limits, j, elapsed);
  }

  lemma Freed(w: World, limits: Limits, j: JobId, version: int)
    requires Inv(w, limits) && j in w.jobs && w.jobs[j].status.Running? && w.jobs[j].lease.Some?
    requires w.jobs[j].lease.value.owner in w.attempts && !Stale(w.attempts[w.jobs[j].lease.value.owner], version)
    ensures var u := AttemptStopped(w, w.jobs[j].lease.value.owner, version, true).next;
            Waiting(u, j) && u.jobs[j].deadline == w.jobs[j].deadline && u.now == w.now
  {
    hide Inv, ActiveOn;
    var a := w.jobs[j].lease.value.owner;
    var u := AttemptStopped(w, a, version, true).next;
    OwnerRuns(w, limits, j, 0);
    OwnerOf(w, limits, j);
    NoneActiveLeft(w.attempts, u.attempts, j, a);
  }

  lemma OwnerOf(w: World, limits: Limits, j: JobId)
    requires Inv(w, limits) && j in w.jobs && w.jobs[j].lease.Some?
    ensures Holds(w.attempts, w.jobs[j].lease.value.owner, FullWork, j)
  {
    hide Indexed, Lockstep, QuotaExact, ChargedOnce, CancelsStick, DraftChain, Approved, Targeted, Numbered, Budgeted,
      Capped, Checkpointed, Announced;
  }

  lemma NoneActiveLeft(attempts: map<AttemptId, Attempt>, attempts': map<AttemptId, Attempt>, j: JobId, a: AttemptId)
    requires ActiveOn(attempts, FullWork, j) == {a} && a in attempts'
    requires attempts' == attempts[a := attempts'[a]] && !Active(attempts'[a])
    ensures ActiveOn(attempts', FullWork, j) == {}
  {
    forall b | b in attempts' && b != a
      ensures b !in ActiveOn(attempts', FullWork, j)
    {
      assert b !in ActiveOn(attempts, FullWork, j);
    }
  }

  // ---------- any job can strand ----------

  /** No reserving transaction of the full queue is under way, and none waits. */
  ghost predicate NoPasses(w: World) {
    FullWork !in w.passes && forall t :: Ticket(FullWork, t) !in w.line
  }

  lemma {:induction false} LineEmpties(w: World, limits: Limits) returns (v: World)
    requires FullWork !in w.passes
    ensures Follows(w, limits, v) && v == w.(line := v.line) && NoPasses(v)
    decreases |w.line|
  {
    hide Follows;
    if t :| Ticket(FullWork, t) in w.line {
      var u := w.(line := w.line - multiset{Ticket(FullWork, t)});
      NothingFound(w, limits, t);
      FollowsOne(w, limits, FetchWork(FullWork, t, []));
      v := LineEmpties(u, limits);
      FollowsThen(w, limits, u, v);
    } else {
      v := w;
      FollowsSelf(w, limits);
    }
  }

  /** A transaction gets the lock and finds nothing to reserve. */
  lemma NothingFound(w: World, limits: Limits, t: Time)
    requires FullWork !in w.passes && Ticket(FullWork, t) in w.line
    ensures Apply(w, limits, FetchWork(FullWork, t, [])).next == w.(line := w.line - multiset{Ticket(FullWork, t)})
  {
    hide ActiveOfKind;
  }

  lemma Abandoned(w: World, limits: Limits)
    ensures Apply(w, limits, AbandonPass(FullWork)).next == w.(passes := w.passes - {FullWork})
  {
  }

  /** The transactions under way come to nothing. */
  lemma PassesEnd(w: World, limits: Limits) returns (v: World)
    ensures Follows(w, limits, v) && v == w.(line := v.line, passes := v.passes) && NoPasses(v)
  {
    hide Follows, NoPasses, Apply;
    var u := w.(passes := w.passes - {FullWork});
    Abandoned(w, limits);
    FollowsOne(w, limits, AbandonPass(FullWork));
    v := LineEmpties(u, limits);
    FollowsThen(w, limits, u, v);
  }

  function Later(at: Attempt): int {
    if at.eventVersion.Some? then at.eventVersion.value + 1 else 0
  }

  /** The stop event of a job's attempt arrives, and then its deadline passes. */
  lemma StopThenWait(w: World, limits: Limits, j: JobId) returns (v: World)
    requires Inv(w, limits) && NoPasses(w) && j in w.jobs && w.jobs[j].status.Running? && w.jobs[j].lease.Some?
    ensures Follows(w, limits, v) && Stranded(v, limits, j)
  {
    hide Inv, Follows, Apply, AttemptStopped, ActiveOn, StartedOn, SurveySound;
    var a := w.jobs[j].lease.value.owner;
    OwnerOf(w, limits, j);
    var stop := RecordStopped(a, Later(w.attempts[a]), true);
    var u := AttemptStopped(w, a, Later(w.attempts[a]), true).next;
    RunningHasDeadline(w, limits, j);
    Freed(w, limits, j, Later(w.attempts[a]));
    StoppedAside(w, a, Later(w.attempts[a]), true);
    var deadline := w.jobs[j].deadline.value;
    var elapsed: nat := if deadline > u.now then deadline - u.now else 0;
    v := Tick(u, elapsed).next;
    Applied(w, limits, a, Later(w.attempts[a]), elapsed);
    FollowsOne(w, limits, stop);
    FollowsOne(u, limits, PassTime(elapsed));
    FollowsThen(w, limits, u, v);
  }

  /**
   Any running job that is leased can strand: the reserving transactions under way come to nothing, the stop
   event of its attempt arrives, and its deadline passes before the next one.
   */
  lemma AnyJobCanStrand(w: World, limits: Limits, j: JobId)
    requires Reachable(w, limits) && j in w.jobs && w.jobs[j].status.Running? && w.jobs[j].lease.Some?
    ensures exists v :: Follows(w, limits, v) && Stranded(v, limits, j)
  {
    hide Inv, Pending, Follows, Stranded, Reachable, NoPasses;
    ReachableSound(w, limits);
    var u := PassesEnd(w, limits);
    InvAside(w, u, limits);
    var v := StopThenWait(u, limits, j);
    FollowsThen(w, limits, u, v);
  }

  lemma Applied(w: World, limits: Limits, a: AttemptId, version: int, elapsed: nat)
    ensures Apply(w, limits, RecordStopped(a, version, true)).next == AttemptStopped(w, a, version, true).next
    ensures forall u :: Apply(u, limits, PassTime(elapsed)).next == Tick(u, elapsed).next
  {
    hide AttemptStopped;
  }

  lemma RunningHasDeadline(w: World, limits: Limits, j: JobId)
    requires Inv(w, limits) && j in w.jobs && w.jobs[j].status.Running?
    ensures w.jobs[j].deadline.Some?
  {
    hide Inv;
    JobsSurvey(w, limits, j);
  }
}
