/** An attempt can only touch the item it holds: stale workers and late events are harmless. */
module SurveyFencing {
  import opened Wrappers
  import opened SurveyModel
  import opened SurveyTransitions
  import opened SurveyInvariants
  import opened SurveyOps
  import opened SurveyPending
  import opened SurveyRuns
  import opened SurveyApproved

  /** The attempt on whose behalf a transaction runs, for those that run on behalf of one. */
  function Actor(op: Op): Option<AttemptId> {
    match op
    case CompleteSurveyDraft(_, worker, _) => Some(worker)
    case FailSurveyDraft(_, worker) => Some(worker)
    case SettleExecution(_, worker, _, _, _) => Some(worker)
    case FinishSurveyArchive(_, worker, _, _) => Some(worker)
    case DeferSurveyArchive(_, worker, _, _) => Some(worker)
    case MarkArchiveWorkspaceMissing(_, worker) => Some(worker)
    case MarkAttemptLaunching(a) => Some(a)
    case RecordLaunchFailure(a) => Some(a)
    case MarkAttemptLaunched(a, _) => Some(a)
    case ClaimExactDraft(_, a, _) => Some(a)
    case ClaimExactJob(_, a, _, _) => Some(a)
    case CommitJobCheckpoint(_, a, _, _, _) => Some(a)
    case HeartbeatAttempt(a, _) => Some(a)
    case RecordSucceeded(a, _) => Some(a)
    case RecordStopped(a, _, _) => Some(a)
    case _ => None
  }

  /** Job `j` and its Survey are as they were. */
  ghost predicate JobUntouched(w: World, v: World, j: JobId)
    requires j in w.jobs
  {
    var s := w.jobs[j].survey;
    j in v.jobs && v.jobs[j] == w.jobs[j] && s in w.surveys && s in v.surveys && v.surveys[s] == w.surveys[s]
  }

  ghost predicate DraftUntouched(w: World, v: World, d: DraftId)
    requires d in w.drafts
  {
    d in v.drafts && v.drafts[d] == w.drafts[d]
  }

  /** Every job leased to an attempt other than `a`, and every such Draft, is as it was. */
  ghost predicate FencedOff(w: World, v: World, a: AttemptId) {
    && (forall j :: j in w.jobs && w.jobs[j].lease.Some? && w.jobs[j].lease.value.owner != a ==> JobUntouched(w, v, j))
    && (forall d :: d in w.drafts && w.drafts[d].lease.Some? && w.drafts[d].lease.value.owner != a ==>
          DraftUntouched(w, v, d))
  }

  lemma SameRows(w: World, v: World, a: AttemptId)
    requires v.jobs == w.jobs && v.surveys == w.surveys && v.drafts == w.drafts
    requires Indexed(w.surveys, w.jobOf, w.jobs)
    ensures FencedOff(w, v, a)
  {
  }

  lemma OneJobRow(w: World, v: World, a: AttemptId, k: JobId)
    requires Indexed(w.surveys, w.jobOf, w.jobs) && k in w.jobs && k in v.jobs
    requires w.jobs[k].lease.None? || w.jobs[k].lease.value.owner == a
    requires v.drafts == w.drafts && v.jobs == w.jobs[k := v.jobs[k]]
    requires v.surveys == w.surveys
             || var s := w.jobs[k].survey; s in v.surveys && v.surveys == w.surveys[s := v.surveys[s]]
    ensures FencedOff(w, v, a)
  {
  }

  lemma OneDraftRow(w: World, v: World, a: AttemptId, e: DraftId)
    requires Indexed(w.surveys, w.jobOf, w.jobs) && e in w.drafts && e in v.drafts
    requires w.drafts[e].lease.None? || w.drafts[e].lease.value.owner == a
    requires v.jobs == w.jobs && v.surveys == w.surveys && v.drafts == w.drafts[e := v.drafts[e]]
    ensures FencedOff(w, v, a)
  {
  }

  /** An attempt that could still claim its item finds the item unleased. */
  lemma ClaimableIsFree(w: World, limits: Limits, a: AttemptId, kind: WorkKind, target: nat)
    requires Inv(w, limits) && Claimable(w, a, kind, target)
    ensures kind.FullWork? ==> target in w.jobs && w.jobs[target].survey == w.attempts[a].survey
                               && w.jobs[target].lease.None?
    ensures kind.DraftWork? ==> target in w.drafts && w.drafts[target].survey == w.attempts[a].survey
                                && w.drafts[target].lease.None?
  {
    hide Indexed, Lockstep, QuotaExact, ChargedOnce, CancelsStick, DraftChain, Approved, Budgeted, Capped,
      Checkpointed, Announced, AttemptsOn;
    assert Targets(w.jobs, w.drafts, w.attempts[a]);
    NobodyElse(w.attempts, a);
  }

  /** The attempt that is active on an item is alone in that. */
  lemma NobodyElse(attempts: map<AttemptId, Attempt>, a: AttemptId)
    requires Numbered(attempts) && a in attempts && Active(attempts[a])
    ensures forall b :: b in attempts && Same(attempts[a], attempts[b]) && Active(attempts[b]) ==> b == a
  {
    hide AttemptsOn;
    forall b | b in attempts && Same(attempts[a], attempts[b]) && Active(attempts[b])
      ensures b == a
    {
      assert attempts[b].number == attempts[a].number;
    }
  }

  lemma DraftEndsFenced(w: World, limits: Limits, d: DraftId, a: AttemptId, markdown: string)
    requires Inv(w, limits)
    ensures FencedOff(w, CompleteDraft(w, d, a, markdown).next, a) && FencedOff(w, FailDraft(w, d, a).next, a)
  {
    hide Inv, FencedOff, Indexed, LatestRevision;
    IndexOfAll(w, limits);
    SameRows(w, w, a);
    if CompleteDraft(w, d, a, markdown).reply.Done? {
      OneDraftRow(w, CompleteDraft(w, d, a, markdown).next, a, d);
    }
    if FailDraft(w, d, a).reply.Done? {
      OneDraftRow(w, FailDraft(w, d, a).next, a, d);
    }
  }

  lemma SettleFenced(w: World, limits: Limits, j: JobId, a: AttemptId, outcome: Outcome, error: Option<ErrorCode>,
                     chargeable: bool)
    requires Inv(w, limits)
    ensures FencedOff(w, Settle(w, j, a, outcome, error, chargeable).next, a)
  {
    hide Inv, FencedOff, Indexed, Settled;
    IndexOfAll(w, limits);
    SameRows(w, w, a);
    if Settle(w, j, a, outcome, error, chargeable).reply.Done? {
      OneJobRow(w, Settle(w, j, a, outcome, error, chargeable).next, a, j);
    }
  }

  lemma FinishFenced(w: World, limits: Limits, j: JobId, a: AttemptId, storage: (UserId, JobId), manifest: Manifest)
    requires Inv(w, limits)
    ensures FencedOff(w, FinishArchive(w, j, a, storage, manifest).next, a)
  {
    hide Inv, FencedOff, Indexed, Notified;
    IndexOfAll(w, limits);
    SameRows(w, w, a);
    if FinishArchive(w, j, a, storage, manifest).reply.Done? {
      OneJobRow(w, FinishArchive(w, j, a, storage, manifest).next, a, j);
    }
  }

  lemma ArchiveFenced(w: World, limits: Limits, j: JobId, a: AttemptId, retryAfter: int, code: ErrorCode)
    requires Inv(w, limits)
    ensures FencedOff(w, DeferArchive(w, j, a, retryAfter, code).next, a)
    ensures FencedOff(w, MarkWorkspaceMissing(w, j, a).next, a)
  {
    hide Inv, FencedOff, Indexed;
    IndexOfAll(w, limits);
    SameRows(w, w, a);
    if DeferArchive(w, j, a, retryAfter, code).reply.Done? {
      OneJobRow(w, DeferArchive(w, j, a, retryAfter, code).next, a, j);
    }
    if MarkWorkspaceMissing(w, j, a).reply.Done? {
      OneJobRow(w, MarkWorkspaceMissing(w, j, a).next, a, j);
    }
  }

  lemma ClaimFenced(w: World, limits: Limits, target: nat, a: AttemptId, lease: int, timeout: int)
    requires Inv(w, limits)
    ensures FencedOff(w, ClaimDraft(w, target, a, lease).next, a)
    ensures FencedOff(w, ClaimJob(w, target, a, lease, timeout).next, a)
  {
    hide Inv, FencedOff, Indexed, Claimable;
    IndexOfAll(w, limits);
    SameRows(w, w, a);
    if ClaimDraft(w, target, a, lease).reply.Done? {
      ClaimableIsFree(w, limits, a, DraftWork, target);
      OneDraftRow(w, ClaimDraft(w, target, a, lease).next, a, target);
    }
    if ClaimJob(w, target, a, lease, timeout).reply.Done? {
      ClaimableIsFree(w, limits, a, FullWork, target);
      OneJobRow(w, ClaimJob(w, target, a, lease, timeout).next, a, target);
    }
  }

  lemma CommitFenced(w: World, limits: Limits, j: JobId, a: AttemptId, position: nat, stage: nat, pointer: nat)
    requires Inv(w, limits)
    ensures FencedOff(w, CommitCheckpoint(w, j, a, position, stage, pointer).next, a)
  {
    hide Inv, FencedOff, Indexed, CommitsOf;
    IndexOfAll(w, limits);
    SameRows(w, w, a);
    if CommitCheckpoint(w, j, a, position, stage, pointer).reply.Done? {
      OneJobRow(w, CommitCheckpoint(w, j, a, position, stage, pointer).next, a, j);
    }
  }

  lemma HeartbeatFenced(w: World, limits: Limits, a: AttemptId, lease: int)
    requires Inv(w, limits)
    ensures FencedOff(w, Heartbeat(w, a, lease).next, a)
  {
    hide Inv, FencedOff, Indexed;
    IndexOfAll(w, limits);
    SameRows(w, w, a);
    if Heartbeat(w, a, lease).reply.Done? {
      if w.attempts[a].kind.DraftWork? {
        OneDraftRow(w, Heartbeat(w, a, lease).next, a, w.attempts[a].target);
      } else {
        OneJobRow(w, Heartbeat(w, a, lease).next, a, w.attempts[a].target);
      }
    }
  }

  lemma ReturnedFenced(w: World, limits: Limits, a: AttemptId)
    requires Inv(w, limits) && a in w.attempts
    ensures FencedOff(w, Returned(w, a), a)
  {
    hide Inv, FencedOff, Indexed;
    IndexOfAll(w, limits);
    if Returned(w, a) == w {
      SameRows(w, w, a);
    } else if w.attempts[a].kind.DraftWork? {
      OneDraftRow(w, Returned(w, a), a, w.attempts[a].target);
    } else {
      OneJobRow(w, Returned(w, a), a, w.attempts[a].target);
    }
  }

  lemma DroppedFenced(w: World, limits: Limits, a: AttemptId, retryable: bool)
    requires Inv(w, limits) && a in w.attempts
    ensures FencedOff(w, Dropped(w, a, retryable), a)
  {
    hide Inv, FencedOff, Indexed;
    IndexOfAll(w, limits);
    if Dropped(w, a, retryable) == w {
      SameRows(w, w, a);
    } else if w.attempts[a].kind.DraftWork? {
      OneDraftRow(w, Dropped(w, a, retryable), a, w.attempts[a].target);
    } else {
      OneJobRow(w, Dropped(w, a, retryable), a, w.attempts[a].target);
    }
  }

  lemma OtherTables(w: World, v: World, u: World, a: AttemptId)
    requires FencedOff(w, v, a) && u.jobs == v.jobs && u.surveys == v.surveys && u.drafts == v.drafts
    ensures FencedOff(w, u, a)
  {
  }

  lemma StopFenced(w: World, limits: Limits, a: AttemptId, version: int, retryable: bool)
    requires Inv(w, limits)
    ensures FencedOff(w, AttemptSucceeded(w, a, version).next, a)
    ensures FencedOff(w, AttemptStopped(w, a, version, retryable).next, a)
  {
    hide Inv, FencedOff, TargetSettled, Returned, Dropped;
    SameRows(w, w, a) by {
      IndexOfAll(w, limits);
    }
    if a in w.attempts {
      var v, u := AttemptSucceeded(w, a, version).next, AttemptStopped(w, a, version, retryable).next;
      ReturnedFenced(w, limits, a);
      DroppedFenced(w, limits, a, retryable);
      OtherTables(w, w, w.(attempts := v.attempts), a);
      OtherTables(w, w, w.(attempts := u.attempts), a);
      OtherTables(w, Returned(w, a), Returned(w, a).(attempts := v.attempts), a);
      OtherTables(w, Dropped(w, a, retryable), Dropped(w, a, retryable).(attempts := u.attempts), a);
    }
  }

  /**
   Settling, archiving, heartbeats, checkpoints, claims, late successes and stop events of one attempt
   never change a job or a Draft leased to another.
   */
  lemma Fenced(w: World, limits: Limits, op: Op)
    requires Reachable(w, limits) && Actor(op).Some?
    ensures FencedOff(w, Apply(w, limits, op).next, Actor(op).value)
  {
    hide Inv, Pending, FencedOff, Create, RequestDraft, ManualDraft, CompleteDraft, FailDraft, RecoverDraft, Start,
      Cancel, Delete, Settle, FinishArchive, DeferArchive, MarkWorkspaceMissing, RecoverJob, RecoverArchived,
      RepairEvidence, SetSending, Reserve, Fetch, TryNext, MarkLaunching, LaunchFailed, MarkLaunched, ClaimDraft,
      ClaimJob, CommitCheckpoint, Heartbeat, AttemptSucceeded, AttemptStopped, Tick;
    ReachableSound(w, limits);
    match op {
      case CompleteSurveyDraft(d, worker, markdown) => DraftEndsFenced(w, limits, d, worker, markdown);
      case FailSurveyDraft(d, worker) => DraftEndsFenced(w, limits, d, worker, "");
      case SettleExecution(j, worker, outcome, error, chargeable) =>
        SettleFenced(w, limits, j, worker, outcome, error, chargeable);
      case FinishSurveyArchive(j, worker, storage, manifest) => FinishFenced(w, limits, j, worker, storage, manifest);
      case DeferSurveyArchive(j, worker, retryAfter, code) => ArchiveFenced(w, limits, j, worker, retryAfter, code);
      case MarkArchiveWorkspaceMissing(j, worker) => ArchiveFenced(w, limits, j, worker, 0, WorkspaceMissing);
      case ClaimExactDraft(d, a, lease) => ClaimFenced(w, limits, d, a, lease, 0);
      case ClaimExactJob(j, a, lease, timeout) => ClaimFenced(w, limits, j, a, lease, timeout);
      case CommitJobCheckpoint(j, a, position, stage, pointer) =>
        CommitFenced(w, limits, j, a, position, stage, pointer);
      case HeartbeatAttempt(a, lease) => HeartbeatFenced(w, limits, a, lease);
      case RecordSucceeded(a, version) => StopFenced(w, limits, a, version, false);
      case RecordStopped(a, version, retryable) => StopFenced(w, limits, a, version, retryable);
      case _ => LaunchFenced(w, limits, op);
    }
  }

  lemma LaunchFenced(w: World, limits: Limits, op: Op)
    requires Inv(w, limits) && (op.MarkAttemptLaunching? || op.RecordLaunchFailure? || op.MarkAttemptLaunched?)
    ensures FencedOff(w, Apply(w, limits, op).next, op.a)
  {
    hide Inv, FencedOff, Apply;
    LaunchLeaves(w, limits, op);
    IndexOfAll(w, limits);
    SameRows(w, Apply(w, limits, op).next, op.a);
  }
}
