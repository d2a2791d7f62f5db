/** The completion mail: queued exactly if it was asked for at the start and the execution has a result to tell. */
module SurveyMail {
  import opened Wrappers
  import opened SurveyModel
  import opened SurveyTransitions
  import opened SurveyInvariants
  import opened SurveyOps
  import opened SurveyPending
  import opened SurveyRuns
  import opened SurveyHistory
  import opened SurveyEvolution
  import opened SurveySteps
  import opened SurveyAdmission

  predicate HasResult(s: Survey) {
    s.status.Succeeded? || s.status.Failed?
  }

  /** A Survey has a mail exactly if one was asked for and there is a result. */
  ghost predicate Mailed(surveys: map<SurveyId, Survey>, notices: map<SurveyId, Notice>) {
    forall s :: s in surveys ==> (s in notices <==> surveys[s].notify && HasResult(surveys[s]))
  }

  /** The wish for a mail is fixed once the Survey has left drafting. */
  ghost predicate WishStands(surveys: map<SurveyId, Survey>, surveys': map<SurveyId, Survey>) {
    forall s :: s in surveys && s in surveys' && !surveys[s].status.Drafting? ==>
      surveys'[s].notify == surveys[s].notify
  }

  ghost predicate Posts(w: World, v: World) {
    Mailed(v.surveys, v.notices) && WishStands(w.surveys, v.surveys)
  }

  lemma SamePosts(w: World, v: World)
    requires Mailed(w.surveys, w.notices) && v.surveys == w.surveys && v.notices.Keys == w.notices.Keys
    ensures Posts(w, v)
  {
  }

  lemma RowPosts(w: World, v: World, s: SurveyId)
    requires Mailed(w.surveys, w.notices) && s in v.surveys && v.surveys == w.surveys[s := v.surveys[s]]
    requires v.notices.Keys - {s} == w.notices.Keys - {s}
    requires s in v.notices <==> v.surveys[s].notify && HasResult(v.surveys[s])
    requires s in w.surveys && !w.surveys[s].status.Drafting? ==> v.surveys[s].notify == w.surveys[s].notify
    ensures Posts(w, v)
  {
    forall t | t in v.surveys
      ensures t in v.notices <==> v.surveys[t].notify && HasResult(v.surveys[t])
    {
      assert t != s ==> (t in v.notices.Keys - {s} <==> t in w.notices.Keys - {s});
    }
  }

  /** A Survey row moves among the states without a result. */
  lemma QuietPosts(w: World, v: World, s: SurveyId)
    requires Mailed(w.surveys, w.notices) && s in w.surveys && s in v.surveys && v.notices == w.notices
    requires v.surveys == w.surveys[s := v.surveys[s]]
    requires HasResult(v.surveys[s]) <==> HasResult(w.surveys[s])
    requires v.surveys[s].notify == w.surveys[s].notify
    ensures Posts(w, v)
  {
    RowPosts(w, v, s);
  }

  lemma NoticesHaveSurveys(w: World, limits: Limits)
    requires Inv(w, limits)
    ensures forall s :: s in w.notices ==> s in w.surveys
  {
    hide Indexed, Lockstep, QuotaExact, ChargedOnce, CancelsStick, DraftChain, Approved, Leased, Targeted, Numbered,
      Budgeted, Capped, Checkpointed;
  }

  lemma CreatePosts(w: World, limits: Limits, s: SurveyId, d: DraftId, user: UserId, request: RequestId, hash: Hash,
                    day: Day, override: Option<int>, dailyLimit: int)
    requires Inv(w, limits) && Mailed(w.surveys, w.notices)
    ensures Posts(w, Create(w, s, d, user, request, hash, day, override, dailyLimit).next)
  {
    hide Inv, Posts, RequestedSurveys, Mailed;
    NoticesHaveSurveys(w, limits);
    var step := Create(w, s, d, user, request, hash, day, override, dailyLimit);
    if step.reply.Done? {
      RowPosts(w, step.next, s);
    } else {
      SamePosts(w, step.next);
    }
  }

  lemma StartPosts(w: World, s: SurveyId, user: UserId, j: JobId, request: RequestId, hash: Hash, notify: bool)
    requires Mailed(w.surveys, w.notices)
    ensures Posts(w, Start(w, s, user, j, request, hash, notify).next)
  {
    hide Posts, HasActiveDraft, IsLatest;
    var step := Start(w, s, user, j, request, hash, notify);
    if step.reply.Done? {
      RowPosts(w, step.next, s);
    } else {
      SamePosts(w, step.next);
    }
  }

  lemma CancelPosts(w: World, s: SurveyId, user: UserId)
    requires Mailed(w.surveys, w.notices)
    ensures Posts(w, Cancel(w, s, user).next)
  {
    hide Posts, CancelledDrafts, Settled, Mailed;
    var step := Cancel(w, s, user);
    if step.reply.Done? && !w.surveys[s].status.Running? {
      QuietPosts(w, step.next, s);
    } else {
      SamePosts(w, step.next);
    }
  }

  lemma DeletePosts(w: World, s: SurveyId, user: UserId)
    requires Mailed(w.surveys, w.notices)
    ensures Posts(w, Delete(w, s, user).next)
  {
    hide Settled;
  }

  lemma SettlePosts(w: World, limits: Limits, j: JobId, worker: AttemptId, outcome: Outcome, error: Option<ErrorCode>,
                    chargeable: bool)
    requires Mailed(w.surveys, w.notices)
    ensures Posts(w, Settle(w, j, worker, outcome, error, chargeable).next)
  {
    hide Posts, Settled, Mailed;
    var step := Settle(w, j, worker, outcome, error, chargeable);
    if step.reply.Done? {
      QuietPosts(w, step.next, w.jobs[j].survey);
    } else {
      SamePosts(w, step.next);
    }
  }

  lemma RecoverPosts(w: World, limits: Limits, j: JobId)
    requires Inv(w, limits) && Mailed(w.surveys, w.notices)
    ensures Posts(w, RecoverJob(w, j).next)
  {
    hide Inv, Posts, Settled, Mailed;
    var step := RecoverJob(w, j);
    if step.reply.Done? {
      JobsSurvey(w, limits, j);
      QuietPosts(w, step.next, w.jobs[j].survey);
    } else {
      SamePosts(w, step.next);
    }
  }

  lemma FinishPosts(w: World, limits: Limits, j: JobId, worker: AttemptId, storage: (UserId, JobId), manifest: Manifest)
    requires Inv(w, limits) && Mailed(w.surveys, w.notices)
    ensures Posts(w, FinishArchive(w, j, worker, storage, manifest).next)
  {
    hide Inv, Posts;
    var step := FinishArchive(w, j, worker, storage, manifest);
    if step.reply.Done? {
      JobsSurvey(w, limits, j);
      RowPosts(w, step.next, w.jobs[j].survey);
    } else {
      SamePosts(w, step.next);
    }
  }

  lemma ArchivedPosts(w: World, j: JobId, worker: AttemptId, expected: Manifest, overlay: Manifest)
    requires Mailed(w.surveys, w.notices)
    ensures Posts(w, MarkWorkspaceMissing(w, j, worker).next)
    ensures Posts(w, RepairEvidence(w, j, expected, overlay).next)
  {
    hide Posts, OwnStorage, OwnOverlay, Ended, Mailed;
    var u, v := MarkWorkspaceMissing(w, j, worker), RepairEvidence(w, j, expected, overlay);
    if u.reply.Done? {
      QuietPosts(w, u.next, w.jobs[j].survey);
    } else {
      SamePosts(w, u.next);
    }
    if v.reply.Done? {
      QuietPosts(w, v.next, w.jobs[j].survey);
    } else {
      SamePosts(w, v.next);
    }
  }

  lemma RecoverArchivedPosts(w: World, j: JobId, expected: Manifest, code: ErrorCode, replacement: Option<Manifest>)
    requires Mailed(w.surveys, w.notices)
    ensures Posts(w, RecoverArchived(w, j, expected, code, replacement).next)
  {
    hide Posts, OwnStorage, OwnOverlay;
    var step := RecoverArchived(w, j, expected, code, replacement);
    if step.reply.Done? {
      RowPosts(w, step.next, w.jobs[j].survey);
    } else {
      SamePosts(w, step.next);
    }
  }

  lemma ClaimPosts(w: World, limits: Limits, j: JobId, a: AttemptId, lease: int, timeout: int)
    requires Inv(w, limits) && Mailed(w.surveys, w.notices)
    ensures Posts(w, ClaimJob(w, j, a, lease, timeout).next)
  {
    hide Inv, Posts, Mailed, Sequence;
    var v := ClaimJob(w, j, a, lease, timeout).next;
    if v.surveys == w.surveys {
      SamePosts(w, v);
    } else {
      JobsSurvey(w, limits, j);
      QuietPosts(w, v, w.attempts[a].survey);
    }
  }

  lemma OwnerPosts(w: World, limits: Limits, op: Op)
    requires Inv(w, limits) && OfOwner(op) && Mailed(w.surveys, w.notices)
    ensures Posts(w, Apply(w, limits, op).next)
  {
    hide Inv, Posts, Mailed, Apply;
    match op {
      case CreateSurvey(s, d, user, request, hash, day, override, dailyLimit) =>
        CreateApplies(w, limits, op);
        CreatePosts(w, limits, s, d, user, request, hash, day, override, dailyLimit);
      case StartSurvey(s, user, j, request, hash, notify) =>
        StartApplies(w, limits, op);
        StartPosts(w, s, user, j, request, hash, notify);
      case CancelSurvey(s, user) =>
        WithdrawApplies(w, limits, op);
        CancelPosts(w, s, user);
      case DeleteSurvey(s, user) =>
        WithdrawApplies(w, limits, op);
        DeletePosts(w, s, user);
      case _ =>
        OwnerLeavesSurveys(w, limits, op);
        OwnerLeavesNotices(w, limits, op);
        SamePosts(w, Apply(w, limits, op).next);
    }
  }

  lemma StartApplies(w: World, limits: Limits, op: Op)
    requires op.StartSurvey?
    ensures Apply(w, limits, op) == Start(w, op.s, op.user, op.j, op.request, op.hash, op.notify)
  {
    hide Start;
  }

  lemma WithdrawApplies(w: World, limits: Limits, op: Op)
    requires op.CancelSurvey? || op.DeleteSurvey?
    ensures Apply(w, limits, op) == if op.CancelSurvey? then Cancel(w, op.s, op.user) else Delete(w, op.s, op.user)
  {
    hide Cancel, Delete;
  }

  lemma OwnerLeavesNotices(w: World, limits: Limits, op: Op)
    requires OfOwner(op) && !op.CreateSurvey? && !op.StartSurvey? && !op.CancelSurvey? && !op.DeleteSurvey?
    ensures Apply(w, limits, op).next.notices == w.notices
  {
    hide RequestedDrafts, LatestRevision, HasActiveDraft, Create, Start, Cancel, Delete, Settle, FinishArchive,
      DeferArchive, MarkWorkspaceMissing, RecoverJob, RecoverArchived, RepairEvidence, SetSending, Reserve,
      JoinLine, Fetch, TryNext, EndPass, MarkLaunching, LaunchFailed, MarkLaunched, ClaimDraft, ClaimJob,
      CommitCheckpoint, Heartbeat, AttemptSucceeded, AttemptStopped, Tick;
  }

  lemma DeferPosts(w: World, j: JobId, worker: AttemptId, retryAfter: int, code: ErrorCode)
    requires Mailed(w.surveys, w.notices)
    ensures Posts(w, DeferArchive(w, j, worker, retryAfter, code).next)
  {
    hide Posts, Mailed;
    SamePosts(w, DeferArchive(w, j, worker, retryAfter, code).next);
  }

  lemma SendingPosts(w: World, s: SurveyId, sending: bool)
    requires Mailed(w.surveys, w.notices)
    ensures Posts(w, SetSending(w, s, sending).next)
  {
    hide Posts, Mailed;
    SamePosts(w, SetSending(w, s, sending).next);
  }

  lemma ExecutionPosts(w: World, limits: Limits, op: Op)
    requires Inv(w, limits) && OfExecution(op) && Mailed(w.surveys, w.notices)
    ensures Posts(w, Apply(w, limits, op).next)
  {
    hide Inv, Posts, Mailed, Create, RequestDraft, ManualDraft, CompleteDraft, FailDraft, RecoverDraft, Start, Cancel,
      Delete, Settle, FinishArchive, DeferArchive, MarkWorkspaceMissing, RecoverJob, RecoverArchived, RepairEvidence,
      SetSending, Reserve, JoinLine, Fetch, TryNext, EndPass, MarkLaunching, LaunchFailed, MarkLaunched, ClaimDraft,
      ClaimJob, CommitCheckpoint, Heartbeat, AttemptSucceeded, AttemptStopped, Tick;
    match op
    case SettleExecution(j, worker, outcome, error, chargeable) =>
      SettlePosts(w, limits, j, worker, outcome, error, chargeable);
    case FinishSurveyArchive(j, worker, storage, manifest) => FinishPosts(w, limits, j, worker, storage, manifest);
    case MarkArchiveWorkspaceMissing(j, worker) => ArchivedPosts(w, j, worker, Foreign(0), Foreign(0));
    case RecoverExpiredJob(j) => RecoverPosts(w, limits, j);
    case RecoverArchivedFailure(j, expected, code, replacement) =>
      RecoverArchivedPosts(w, j, expected, code, replacement);
    case RepairDegradedEvidence(j, expected, overlay) => ArchivedPosts(w, j, 0, expected, overlay);
    case DeferSurveyArchive(j, worker, retryAfter, code) => DeferPosts(w, j, worker, retryAfter, code);
    case SetMailSending(s, sending) => SendingPosts(w, s, sending);
  }

  lemma ClaimLeavesNotices(w: World, t: nat, a: AttemptId, lease: int, timeout: int)
    ensures ClaimDraft(w, t, a, lease).next.notices == w.notices
    ensures ClaimJob(w, t, a, lease, timeout).next.notices == w.notices
  {
    hide Claimable, Sequence;
  }

  lemma EventsLeaveNotices(w: World, a: AttemptId, version: int, retryable: bool)
    ensures AttemptSucceeded(w, a, version).next.notices == w.notices
    ensures AttemptStopped(w, a, version, retryable).next.notices == w.notices
  {
    hide TargetSettled, Returned, Dropped;
    if a in w.attempts {
      ReturnLeavesNotices(w, a);
      DropLeavesNotices(w, a, retryable);
    }
  }

  lemma ReturnLeavesNotices(w: World, a: AttemptId)
    requires a in w.attempts
    ensures Returned(w, a).notices == w.notices
  {
    hide OwnsJob;
  }

  lemma DropLeavesNotices(w: World, a: AttemptId, retryable: bool)
    requires a in w.attempts
    ensures Dropped(w, a, retryable).notices == w.notices
  {
    hide OwnsJob, OwnsDraft;
    assert OwnsJob(w, w.attempts[a].target, a) ==> w.attempts[a].target in w.jobs by {
      OwnedIsThere(w, w.attempts[a].target, a);
    }
    assert OwnsDraft(w, w.attempts[a].target, a) ==> w.attempts[a].target in w.drafts by {
      OwnedIsThere(w, w.attempts[a].target, a);
    }
  }

  lemma OwnedIsThere(w: World, t: nat, a: AttemptId)
    ensures OwnsJob(w, t, a) ==> t in w.jobs
    ensures OwnsDraft(w, t, a) ==> t in w.drafts
  {
  }

  lemma LaunchLeavesNotices(w: World, limits: Limits, op: Op)
    requires OfLaunch(op)
    ensures Apply(w, limits, op).next.notices == w.notices
  {
    hide Create, RequestDraft, ManualDraft, CompleteDraft, FailDraft, RecoverDraft, Start, Cancel, Delete, Settle,
      FinishArchive, DeferArchive, MarkWorkspaceMissing, RecoverJob, RecoverArchived, RepairEvidence, SetSending,
      Fetch, TryNext, ClaimDraft, ClaimJob, CommitCheckpoint, Heartbeat, AttemptSucceeded, AttemptStopped,
      Leads, ActiveOfKind, NextAttempt;
  }

  lemma PassLeavesNotices(w: World, limits: Limits, kind: WorkKind, began: Time, list: seq<nat>, a: AttemptId)
    ensures Fetch(w, limits, kind, began, list).next.notices == w.notices
    ensures TryNext(w, limits, kind, a).next.notices == w.notices
  {
    hide ActiveOfKind, WorkList, CandidatesOf, LateReserve, Shortened;
    if kind in w.passes && w.passes[kind] != [] {
      LateLeavesNotices(w, limits, kind, w.passes[kind][0], a);
    }
  }

  lemma LateLeavesNotices(w: World, limits: Limits, kind: WorkKind, c: Candidate, a: AttemptId)
    ensures LateReserve(w, limits, kind, c, a).next.notices == w.notices
  {
    hide LateAttempt, Current, NumberTaken, ActiveOfUser, ActiveOn;
  }

  lemma HeartbeatLeavesNotices(w: World, j: JobId, a: AttemptId, lease: int, position: nat, stage: nat, pointer: nat)
    ensures Heartbeat(w, a, lease).next.notices == w.notices
    ensures CommitCheckpoint(w, j, a, position, stage, pointer).next.notices == w.notices
  {
    hide CommitsOf;
  }

  /** Computing leaves the mail alone. */
  lemma ComputeLeavesNotices(w: World, limits: Limits, op: Op)
    requires !OfOwner(op) && !OfExecution(op)
    ensures Apply(w, limits, op).next.notices == w.notices
  {
    hide Create, RequestDraft, ManualDraft, CompleteDraft, FailDraft, RecoverDraft, Start, Cancel, Delete, Settle,
      FinishArchive, DeferArchive, MarkWorkspaceMissing, RecoverJob, RecoverArchived, RepairEvidence, SetSending,
      Reserve, Fetch, TryNext, MarkLaunching, LaunchFailed, MarkLaunched, ClaimDraft, ClaimJob, CommitCheckpoint,
      Heartbeat, AttemptSucceeded, AttemptStopped;
    match op {
      case BeginPass(_) =>
      case FetchWork(kind, began, list) => PassLeavesNotices(w, limits, kind, began, list, 0);
      case TryCandidate(kind, a) => PassLeavesNotices(w, limits, kind, 0, [], a);
      case AbandonPass(_) =>
      case ClaimExactDraft(d, a, lease) => ClaimLeavesNotices(w, d, a, lease, 0);
      case ClaimExactJob(j, a, lease, timeout) => ClaimLeavesNotices(w, j, a, lease, timeout);
      case CommitJobCheckpoint(j, a, position, stage, pointer) =>
        HeartbeatLeavesNotices(w, j, a, 0, position, stage, pointer);
      case HeartbeatAttempt(a, lease) => HeartbeatLeavesNotices(w, 0, a, lease, 0, 0, 0);
      case RecordSucceeded(a, version) => EventsLeaveNotices(w, a, version, false);
      case RecordStopped(a, version, retryable) => EventsLeaveNotices(w, a, version, retryable);
      case _ => LaunchLeavesNotices(w, limits, op);
    }
  }

  lemma ComputePosts(w: World, limits: Limits, op: Op)
    requires Inv(w, limits) && !OfOwner(op) && !OfExecution(op) && Mailed(w.surveys, w.notices)
    ensures Posts(w, Apply(w, limits, op).next)
  {
    hide Inv, Posts, Mailed, Apply;
    ComputeLeavesNotices(w, limits, op);
    if op.ClaimExactJob? {
      ClaimApplies(w, limits, op);
      ClaimPosts(w, limits, op.j, op.a, op.lease, op.timeout);
    } else {
      if OfPass(op) {
        PassShape(w, limits, op);
      } else if OfLaunch(op) {
        LaunchAside(w, limits, op);
      } else {
        WorkAside(w, limits, op);
      }
      SamePosts(w, Apply(w, limits, op).next);
    }
  }

  lemma StepPosts(w: World, limits: Limits, op: Op)
    requires Inv(w, limits) && Mailed(w.surveys, w.notices)
    ensures Posts(w, Apply(w, limits, op).next)
  {
    hide Inv, Apply, Posts, Mailed;
    if OfOwner(op) {
      OwnerPosts(w, limits, op);
    } else if OfExecution(op) {
      ExecutionPosts(w, limits, op);
    } else {
      ComputePosts(w, limits, op);
    }
  }

  // ---------- over runs ----------

  lemma {:induction false} RunPosts(w: World, limits: Limits, ops: seq<Op>, s: SurveyId)
    requires Sound(w, limits) && Mailed(w.surveys, w.notices)
    ensures Mailed(Run(w, limits, ops).surveys, Run(w, limits, ops).notices)
    ensures var v := Run(w, limits, ops);
            s in w.surveys && !w.surveys[s].status.Drafting? && s in v.surveys
            && v.surveys[s].birth == w.surveys[s].birth ==>
              v.surveys[s].notify == w.surveys[s].notify
    decreases |ops|
  {
    hide Inv, Pending, Apply, Outlive, Mailed, Charged, Survive;
    if ops != [] {
      var u := Apply(w, limits, ops[0]).next;
      var v := Run(u, limits, ops[1..]);
      ApplyKeeps(w, limits, ops[0]);
      StepPosts(w, limits, ops[0]);
      StepGrows(w, limits, ops[0]);
      RunPosts(u, limits, ops[1..], s);
      RunOutlives(u, limits, ops[1..]);
      BirthsOf(w, limits);
      if s in w.surveys && !w.surveys[s].status.Drafting? && s in v.surveys
         && v.surveys[s].birth == w.surveys[s].birth {
        StillThere(u, v, s);
        StepSurvives(w, limits, ops[0]);
        OneFurtherOn(w, u, s);
      }
    }
  }

  lemma StillThere(u: World, v: World, s: SurveyId)
    requires Outlive(u, v) && s in v.surveys && v.surveys[s].birth < u.hist.births
    ensures s in u.surveys && v.surveys[s].birth == u.surveys[s].birth
  {
  }

  lemma OneFurtherOn(w: World, u: World, s: SurveyId)
    requires Survive(w.surveys, u.surveys, w.hist.births) && s in w.surveys && s in u.surveys
    requires !w.surveys[s].status.Drafting?
    ensures !u.surveys[s].status.Drafting?
  {
  }

  /** In every reachable state a Survey has a mail exactly if one was asked for and there is a result to tell. */
  lemma MailQueued(w: World, limits: Limits, s: SurveyId)
    requires Reachable(w, limits) && s in w.surveys
    ensures s in w.notices <==> w.surveys[s].notify && (w.surveys[s].status.Succeeded? || w.surveys[s].status.Failed?)
    ensures s in w.notices ==> w.notices[s].outcome
                               == if w.surveys[s].status.Succeeded? then Outcome.Succeeded else Outcome.Failed
  {
    hide Inv, Pending, Run;
    var ops :| w == Run(EMPTY, limits, ops);
    EmptySound(limits);
    RunPosts(EMPTY, limits, ops, s);
    RunKeeps(EMPTY, limits, ops);
    if s in w.notices {
      OutcomeTold(w, limits, s);
    }
  }

  lemma OutcomeTold(w: World, limits: Limits, s: SurveyId)
    requires Inv(w, limits) && s in w.notices
    ensures s in w.surveys
    ensures w.notices[s].outcome == if w.surveys[s].status.Succeeded? then Outcome.Succeeded else Outcome.Failed
  {
    hide Indexed, Lockstep, QuotaExact, ChargedOnce, CancelsStick, DraftChain, Approved, Leased, Targeted, Numbered,
      Budgeted, Capped, Checkpointed;
  }

  /** The mail a user asks for when starting is queued exactly when there is a result, whatever comes between. */
  lemma MailAsAsked(w: World, limits: Limits, op: Op, more: seq<Op>)
    requires Reachable(w, limits) && op.StartSurvey? && Apply(w, limits, op).reply.Done?
    ensures op.s in w.surveys
    ensures var v := Run(Apply(w, limits, op).next, limits, more);
            op.s in v.surveys && v.surveys[op.s].birth == w.surveys[op.s].birth ==>
              (op.s in v.notices
               <==> op.notify && (v.surveys[op.s].status.Succeeded? || v.surveys[op.s].status.Failed?))
  {
    hide Inv, Pending, Run, Apply, Reachable, Mailed;
    var u := Apply(w, limits, op).next;
    var v := Run(u, limits, more);
    StartApplies(w, limits, op);
    StartedRow(w, op.s, op.user, op.j, op.request, op.hash, op.notify);
    OneFurther(w, limits, op);
    ReachableSound(u, limits);
    AllMailed(u, limits);
    RunPosts(u, limits, more, op.s);
    if op.s in v.surveys && v.surveys[op.s].birth == w.surveys[op.s].birth {
      assert Follows(u, limits, v);
      ReachedThen(u, limits, v);
      MailQueued(v, limits, op.s);
    }
  }

  lemma AllMailed(w: World, limits: Limits)
    requires Reachable(w, limits)
    ensures Mailed(w.surveys, w.notices)
  {
    hide Reachable;
    forall s | s in w.surveys
      ensures s in w.notices <==> w.surveys[s].notify && HasResult(w.surveys[s])
    {
      MailQueued(w, limits, s);
    }
  }

  lemma StartedRow(w: World, s: SurveyId, user: UserId, j: JobId, request: RequestId, hash: Hash, notify: bool)
    requires Start(w, s, user, j, request, hash, notify).reply.Done?
    ensures s in w.surveys
    ensures var u := Start(w, s, user, j, request, hash, notify).next;
            s in u.surveys && u.surveys[s].birth == w.surveys[s].birth && u.surveys[s].notify == notify
            && !u.surveys[s].status.Drafting?
  {
    hide HasActiveDraft, IsLatest;
  }
}
