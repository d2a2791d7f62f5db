/** What a Survey keeps for life: who it belongs to, the direction of its status, its ready Drafts. */
module SurveyEvolution {
  import opened Wrappers
  import opened SurveyModel
  import opened SurveyTransitions
  import opened SurveyInvariants
  import opened SurveyOps
  import opened SurveyPending
  import opened SurveyRuns
  import opened SurveyHistory
  import opened SurveySteps

  function Rank(status: SurveyStatus): nat {
    match status
    case Drafting => 0
    case Queued => 1
    case Running => 2
    case Archiving => 3
    case Failed => 4
    case Succeeded => 5
    case Cancelled => 6
  }

  /** Status only moves forward; of the final ones, only `failed` can still become `succeeded`. */
  predicate Forward(x: SurveyStatus, y: SurveyStatus) {
    Rank(x) <= Rank(y) && (Rank(x) >= 4 ==> y == x || (x.Failed? && y.Succeeded?))
  }

  /** A reservation is never taken back up and a charge never undone. */
  predicate Continues(x: Survey, y: Survey) {
    && y.birth == x.birth && KeyOf(y) == KeyOf(x) && y.request == x.request && y.hash == x.hash
    && Forward(x.status, y.status)
    && (y.quota.Reserved? ==> x.quota.Reserved?)
    && (x.quota.Consumed? ==> y.quota.Consumed?)
  }

  ghost predicate Survive(surveys: map<SurveyId, Survey>, surveys': map<SurveyId, Survey>, births: nat) {
    forall s :: s in surveys' ==>
      (if s in surveys then Continues(surveys[s], surveys'[s]) else surveys'[s].birth >= births)
  }

  lemma RowSurvives(surveys: map<SurveyId, Survey>, s: SurveyId, v: Survey, births: nat)
    requires if s in surveys then Continues(surveys[s], v) else v.birth >= births
    ensures Survive(surveys, surveys[s := v], births)
  {
    hide Continues;
    assert forall t :: t in surveys ==> Continues(surveys[t], surveys[t]) by {
      forall t | t in surveys
        ensures Continues(surveys[t], surveys[t])
      {
        Unmoving(surveys[t]);
      }
    }
  }

  lemma Unmoving(x: Survey)
    ensures Continues(x, x)
  {
  }

  lemma SameSurvive(surveys: map<SurveyId, Survey>, births: nat)
    ensures Survive(surveys, surveys, births)
  {
  }

  lemma FewerSurvive(surveys: map<SurveyId, Survey>, s: SurveyId, births: nat)
    ensures Survive(surveys, surveys - {s}, births)
  {
  }

  lemma CreateSurvives(w: World, s: SurveyId, d: DraftId, user: UserId, request: RequestId,
                       hash: Hash, day: Day, override: Option<int>, dailyLimit: int)
    ensures Survive(w.surveys, Create(w, s, d, user, request, hash, day, override, dailyLimit).next.surveys,
                    w.hist.births)
  {
    hide Survive, RequestedSurveys;
    SameSurvive(w.surveys, w.hist.births);
    var step := Create(w, s, d, user, request, hash, day, override, dailyLimit);
    if step.reply.Done? {
      RowSurvives(w.surveys, s, step.next.surveys[s], w.hist.births);
    }
  }

  lemma StartSurvives(w: World, s: SurveyId, user: UserId, j: JobId, request: RequestId, hash: Hash, notify: bool)
    ensures Survive(w.surveys, Start(w, s, user, j, request, hash, notify).next.surveys, w.hist.births)
  {
    hide Survive, HasActiveDraft, IsLatest;
    SameSurvive(w.surveys, w.hist.births);
    var step := Start(w, s, user, j, request, hash, notify);
    if step.reply.Done? {
      RowSurvives(w.surveys, s, step.next.surveys[s], w.hist.births);
    }
  }

  lemma CancelSurvives(w: World, limits: Limits, s: SurveyId, user: UserId)
    requires Inv(w, limits)
    ensures Survive(w.surveys, Cancel(w, s, user).next.surveys, w.hist.births)
  {
    hide Inv, Survive, CancelledDrafts, Settled;
    SameSurvive(w.surveys, w.hist.births);
    var step := Cancel(w, s, user);
    if step.reply.Done? {
      IsSound(w, limits, s);
      if !w.surveys[s].status.Running? {
        RowSurvives(w.surveys, s, step.next.surveys[s], w.hist.births);
      }
    }
  }

  lemma DeleteSurvives(w: World, s: SurveyId, user: UserId)
    ensures Survive(w.surveys, Delete(w, s, user).next.surveys, w.hist.births)
  {
    hide Survive, Settled;
    SameSurvive(w.surveys, w.hist.births);
    FewerSurvive(w.surveys, s, w.hist.births);
  }

  lemma SettleSurvives(w: World, j: JobId, worker: AttemptId, outcome: Outcome, error: Option<ErrorCode>,
                       chargeable: bool)
    ensures Survive(w.surveys, Settle(w, j, worker, outcome, error, chargeable).next.surveys, w.hist.births)
  {
    hide Survive, Settled;
    SameSurvive(w.surveys, w.hist.births);
    var step := Settle(w, j, worker, outcome, error, chargeable);
    if step.reply.Done? {
      RowSurvives(w.surveys, w.jobs[j].survey, step.next.surveys[w.jobs[j].survey], w.hist.births);
    }
  }

  lemma FinishSurvives(w: World, j: JobId, worker: AttemptId, storage: (UserId, JobId), manifest: Manifest)
    ensures Survive(w.surveys, FinishArchive(w, j, worker, storage, manifest).next.surveys, w.hist.births)
  {
    hide Survive, Notified;
    SameSurvive(w.surveys, w.hist.births);
    var step := FinishArchive(w, j, worker, storage, manifest);
    if step.reply.Done? {
      RowSurvives(w.surveys, w.jobs[j].survey, step.next.surveys[w.jobs[j].survey], w.hist.births);
    }
  }

  lemma WorkspaceMissingSurvives(w: World, j: JobId, worker: AttemptId)
    ensures Survive(w.surveys, MarkWorkspaceMissing(w, j, worker).next.surveys, w.hist.births)
  {
    hide Survive;
    SameSurvive(w.surveys, w.hist.births);
    var step := MarkWorkspaceMissing(w, j, worker);
    if step.reply.Done? {
      RowSurvives(w.surveys, w.jobs[j].survey, step.next.surveys[w.jobs[j].survey], w.hist.births);
    }
  }

  lemma RecoverySurvives(w: World, limits: Limits, j: JobId)
    requires Inv(w, limits)
    ensures Survive(w.surveys, RecoverJob(w, j).next.surveys, w.hist.births)
  {
    hide Inv, Survive, Settled;
    SameSurvive(w.surveys, w.hist.births);
    var step := RecoverJob(w, j);
    if step.reply.Done? {
      JobsSurvey(w, limits, j);
      RowSurvives(w.surveys, w.jobs[j].survey, step.next.surveys[w.jobs[j].survey], w.hist.births);
    }
  }

  lemma ArchiveRecoverySurvives(w: World, j: JobId, expected: Manifest, code: ErrorCode, replacement: Option<Manifest>)
    ensures Survive(w.surveys, RecoverArchived(w, j, expected, code, replacement).next.surveys, w.hist.births)
  {
    hide Survive;
    SameSurvive(w.surveys, w.hist.births);
    var step := RecoverArchived(w, j, expected, code, replacement);
    if step.reply.Done? {
      RowSurvives(w.surveys, w.jobs[j].survey, step.next.surveys[w.jobs[j].survey], w.hist.births);
    }
  }

  lemma RepairSurvives(w: World, j: JobId, expected: Manifest, overlay: Manifest)
    ensures Survive(w.surveys, RepairEvidence(w, j, expected, overlay).next.surveys, w.hist.births)
  {
    hide Survive;
    SameSurvive(w.surveys, w.hist.births);
    var step := RepairEvidence(w, j, expected, overlay);
    if step.reply.Done? {
      RowSurvives(w.surveys, w.jobs[j].survey, step.next.surveys[w.jobs[j].survey], w.hist.births);
    }
  }

  lemma ClaimSurvives(w: World, j: JobId, a: AttemptId, lease: int, timeout: int)
    ensures Survive(w.surveys, ClaimJob(w, j, a, lease, timeout).next.surveys, w.hist.births)
  {
    hide Survive;
    SameSurvive(w.surveys, w.hist.births);
    var step := ClaimJob(w, j, a, lease, timeout);
    if step.reply.Done? {
      var s := w.attempts[a].survey;
      if w.jobs[j].status.Queued? {
        RowSurvives(w.surveys, s, step.next.surveys[s], w.hist.births);
      }
    }
  }

  /** The remaining transactions do not touch a Survey row. */
  lemma OwnerLeavesSurveys(w: World, limits: Limits, op: Op)
    requires OfOwner(op) && !op.CreateSurvey? && !op.StartSurvey? && !op.CancelSurvey? && !op.DeleteSurvey?
    ensures Apply(w, limits, op).next.surveys == w.surveys
  {
    hide RequestedDrafts, LatestRevision, HasActiveDraft, Create, Start, Cancel, Delete, Settle, FinishArchive,
      DeferArchive, MarkWorkspaceMissing, RecoverJob, RecoverArchived, RepairEvidence, SetSending, Reserve,
      JoinLine, Fetch, TryNext, EndPass, MarkLaunching, LaunchFailed, MarkLaunched, ClaimDraft, ClaimJob,
      CommitCheckpoint, Heartbeat, AttemptSucceeded, AttemptStopped, Tick;
  }

  lemma DeferLeavesSurveys(w: World, j: JobId, worker: AttemptId, retryAfter: int, code: ErrorCode)
    ensures DeferArchive(w, j, worker, retryAfter, code).next.surveys == w.surveys
  {
  }

  lemma OwnerSurvives(w: World, limits: Limits, op: Op)
    requires Inv(w, limits) && OfOwner(op)
    ensures Survive(w.surveys, Apply(w, limits, op).next.surveys, w.hist.births)
  {
    hide Inv, Survive, Create, RequestDraft, ManualDraft, CompleteDraft, FailDraft, RecoverDraft, Start, Cancel,
      Delete, Settle, FinishArchive, DeferArchive, MarkWorkspaceMissing, RecoverJob, RecoverArchived, RepairEvidence,
      SetSending, Reserve, Fetch, TryNext, MarkLaunching, LaunchFailed, MarkLaunched, ClaimDraft, ClaimJob,
      CommitCheckpoint, Heartbeat, AttemptSucceeded, AttemptStopped, Tick;
    SameSurvive(w.surveys, w.hist.births);
    match op {
      case CreateSurvey(s, d, user, request, hash, day, override, dailyLimit) =>
        CreateSurvives(w, s, d, user, request, hash, day, override, dailyLimit);
      case StartSurvey(s, user, j, request, hash, notify) => StartSurvives(w, s, user, j, request, hash, notify);
      case CancelSurvey(s, user) => CancelSurvives(w, limits, s, user);
      case DeleteSurvey(s, user) => DeleteSurvives(w, s, user);
      case _ => OwnerLeavesSurveys(w, limits, op);
    }
  }

  lemma ExecutionSurvives(w: World, limits: Limits, op: Op)
    requires Inv(w, limits) && OfExecution(op)
    ensures Survive(w.surveys, Apply(w, limits, op).next.surveys, w.hist.births)
  {
    hide Inv, Survive, Create, RequestDraft, ManualDraft, CompleteDraft, FailDraft, RecoverDraft, Start, Cancel,
      Delete, Settle, FinishArchive, DeferArchive, MarkWorkspaceMissing, RecoverJob, RecoverArchived,
      RepairEvidence, SetSending, Reserve, JoinLine, Fetch, TryNext, EndPass, MarkLaunching, LaunchFailed,
      MarkLaunched, ClaimDraft, ClaimJob, CommitCheckpoint, Heartbeat, AttemptSucceeded, AttemptStopped, Tick;
    SameSurvive(w.surveys, w.hist.births);
    match op {
      case SettleExecution(j, worker, outcome, error, chargeable) =>
        SettleSurvives(w, j, worker, outcome, error, chargeable);
      case FinishSurveyArchive(j, worker, storage, manifest) => FinishSurvives(w, j, worker, storage, manifest);
      case MarkArchiveWorkspaceMissing(j, worker) => WorkspaceMissingSurvives(w, j, worker);
      case RecoverExpiredJob(j) => RecoverySurvives(w, limits, j);
      case RecoverArchivedFailure(j, expected, code, replacement) =>
        ArchiveRecoverySurvives(w, j, expected, code, replacement);
      case RepairDegradedEvidence(j, expected, overlay) => RepairSurvives(w, j, expected, overlay);
      case DeferSurveyArchive(j, worker, retryAfter, code) => DeferLeavesSurveys(w, j, worker, retryAfter, code);
      case SetMailSending(_, _) => LaunchAside(w, limits, op);
    }
  }

  lemma ComputeSurvives(w: World, limits: Limits, op: Op)
    requires !OfOwner(op) && !OfExecution(op) && !OfPass(op)
    ensures Survive(w.surveys, Apply(w, limits, op).next.surveys, w.hist.births)
  {
    hide Survive, Apply;
    SameSurvive(w.surveys, w.hist.births);
    if op.ClaimExactJob? {
      ClaimApplies(w, limits, op);
      ClaimSurvives(w, op.j, op.a, op.lease, op.timeout);
    } else if OfLaunch(op) {
      LaunchAside(w, limits, op);
    } else {
      WorkAside(w, limits, op);
    }
  }

  lemma ClaimApplies(w: World, limits: Limits, op: Op)
    requires op.ClaimExactJob?
    ensures Apply(w, limits, op) == ClaimJob(w, op.j, op.a, op.lease, op.timeout)
  {
    hide ClaimJob;
  }

  lemma StepSurvives(w: World, limits: Limits, op: Op)
    requires Inv(w, limits)
    ensures Survive(w.surveys, Apply(w, limits, op).next.surveys, w.hist.births)
  {
    hide Inv, Apply, Survive;
    if OfOwner(op) {
      OwnerSurvives(w, limits, op);
    } else if OfExecution(op) {
      ExecutionSurvives(w, limits, op);
    } else if OfPass(op) {
      PassShape(w, limits, op);
      SameSurvive(w.surveys, w.hist.births);
    } else {
      ComputeSurvives(w, limits, op);
    }
  }

  /** Every Survey of `v` that existed in `w` is the same Survey, further along. */
  ghost predicate Outlive(w: World, v: World) {
    forall s :: s in v.surveys && v.surveys[s].birth < w.hist.births ==>
      s in w.surveys && Continues(w.surveys[s], v.surveys[s])
  }

  lemma Onward(x: Survey, y: Survey, z: Survey)
    requires Continues(x, y) && Continues(y, z)
    ensures Continues(x, z)
  {
  }

  lemma OutliveFurther(w: World, u: World, v: World)
    requires Survive(w.surveys, u.surveys, w.hist.births) && Outlive(u, v) && w.hist.births <= u.hist.births
    ensures Outlive(w, v)
  {
    hide Continues;
    forall s | s in v.surveys && v.surveys[s].birth < w.hist.births
      ensures s in w.surveys && Continues(w.surveys[s], v.surveys[s])
    {
      assert Continues(u.surveys[s], v.surveys[s]);
      assert u.surveys[s].birth == v.surveys[s].birth by {
        SameBirth(u.surveys[s], v.surveys[s]);
      }
      Onward(w.surveys[s], u.surveys[s], v.surveys[s]);
    }
  }

  lemma SameBirth(x: Survey, y: Survey)
    requires Continues(x, y)
    ensures x.birth == y.birth && KeyOf(x) == KeyOf(y)
  {
  }

  lemma OutliveSelf(w: World)
    requires ChargedOnce(w.surveys, w.hist)
    ensures Outlive(w, w)
  {
    hide Charged;
  }

  /** Over any run, a Survey keeps its owner and day and never moves backward; ids are never brought back to life. */
  lemma {:induction false} RunOutlives(w: World, limits: Limits, ops: seq<Op>)
    requires Sound(w, limits)
    ensures Outlive(w, Run(w, limits, ops))
    decreases |ops|
  {
    hide Apply, Inv, Pending, Outlive, Survive;
    if ops == [] {
      BirthsOf(w, limits);
      OutliveSelf(w);
    } else {
      var u := Apply(w, limits, ops[0]).next;
      ApplyKeeps(w, limits, ops[0]);
      StepSurvives(w, limits, ops[0]);
      StepGrows(w, limits, ops[0]);
      RunOutlives(u, limits, ops[1..]);
      OutliveFurther(w, u, Run(u, limits, ops[1..]));
    }
  }

  lemma BirthsOf(w: World, limits: Limits)
    requires Inv(w, limits)
    ensures ChargedOnce(w.surveys, w.hist)
  {
    hide Indexed, Lockstep, QuotaExact, ChargedOnce, CancelsStick, DraftChain, Approved, Leased, Targeted, Numbered,
      Budgeted, Capped, Checkpointed, Announced;
  }

  lemma CancelFacts(w: World, limits: Limits)
    requires Inv(w, limits)
    ensures CancelsStick(w.surveys, w.jobOf, w.jobs, w.hist)
  {
    hide Indexed, Lockstep, QuotaExact, ChargedOnce, CancelsStick, DraftChain, Approved, Leased, Targeted, Numbered,
      Budgeted, Capped, Checkpointed, Announced;
  }

  /** A cancelled birth is never charged; its Survey, while it exists, can only end cancelled or without a workspace. */
  lemma CancelledFate(w: World, limits: Limits, b: nat)
    requires Inv(w, limits) && b in w.hist.cancels
    ensures !Charged(w.hist.charges, b)
    ensures forall s :: s in w.surveys && w.surveys[s].birth == b ==>
              && !w.surveys[s].quota.Consumed? && !w.surveys[s].status.Succeeded?
              && (w.surveys[s].status.Failed? ==> w.surveys[s].error == Some(WorkspaceMissing))
  {
    hide Inv;
    BirthsOf(w, limits);
    CancelFacts(w, limits);
    forall s | s in w.surveys && w.surveys[s].birth == b
      ensures !w.surveys[s].quota.Consumed? && !w.surveys[s].status.Succeeded?
              && (w.surveys[s].status.Failed? ==> w.surveys[s].error == Some(WorkspaceMissing))
    {
      IsSound(w, limits, s);
    }
  }

  lemma CancelSound(w: World, limits: Limits, s: SurveyId, user: UserId)
    requires Sound(w, limits)
    ensures Sound(Cancel(w, s, user).next, limits)
  {
    hide Inv, Pending, Cancel;
    ApplyKeeps(w, limits, CancelSurvey(s, user));
  }

  /** Once a cancel of a running Survey is accepted, nothing that follows charges it or makes it succeed. */
  lemma CancelIsFinal(w: World, limits: Limits, s: SurveyId, user: UserId, more: seq<Op>)
    requires Reachable(w, limits) && Visible(w, s, user) && w.surveys[s].status.Running?
    ensures var v := Run(Cancel(w, s, user).next, limits, more);
            var b := w.surveys[s].birth;
            && Cancel(w, s, user).reply.Done?
            && !Charged(v.hist.charges, b)
            && (forall t :: t in v.surveys && v.surveys[t].birth == b ==>
                  && t == s && !v.surveys[t].quota.Consumed? && !v.surveys[t].status.Succeeded?
                  && (v.surveys[t].status.Failed? ==> v.surveys[t].error == Some(WorkspaceMissing)))
  {
    hide Inv, Pending, Run, Outlive, HistoryGrows;
    ReachableSound(w, limits);
    var u := Cancel(w, s, user).next;
    var v := Run(u, limits, more);
    IsSound(w, limits, s);
    CancelSound(w, limits, s, user);
    RunKeeps(u, limits, more);
    RunGrows(u, limits, more);
    CancelsKept(u.hist, v.hist);
    CancelledFate(v, limits, w.surveys[s].birth);
    RunOutlives(u, limits, more);
    BirthsOf(u, limits);
    forall t | t in v.surveys && v.surveys[t].birth == w.surveys[s].birth
      ensures t == s
    {
      OutlivedBy(u, v, t, s);
    }
  }

  lemma CancelsKept(h: History, h': History)
    requires HistoryGrows(h, h')
    ensures h.cancels <= h'.cancels
  {
    hide CommitsOf;
  }

  lemma OutlivedBy(w: World, v: World, t: SurveyId, s: SurveyId)
    requires Outlive(w, v) && ChargedOnce(w.surveys, w.hist)
    requires t in v.surveys && s in w.surveys && w.surveys[s].birth == v.surveys[t].birth
    ensures t == s
  {
    hide Charged;
  }
}
