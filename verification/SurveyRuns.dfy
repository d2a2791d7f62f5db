/** Runs of Survey transactions in any order, by any callers, with time passing in between. */
module SurveyRuns {
  import opened SurveyModel
  import opened SurveyTransitions
  import opened SurveyInvariants
  import opened SurveyKeeps
  import opened SurveyWithdraw
  import opened SurveyArchive
  import opened SurveyCompute
  import opened SurveyOps
  import opened SurveyPending

  lemma ApplyOwnerKeeps(w: World, limits: Limits, op: Op)
    requires Inv(w, limits) && OfOwner(op)
    ensures Inv(Apply(w, limits, op).next, limits)
  {
    hide Inv, Create, RequestDraft, ManualDraft, CompleteDraft, FailDraft, RecoverDraft, Start, Cancel, Delete,
      Settle, FinishArchive, DeferArchive, MarkWorkspaceMissing, RecoverJob, RecoverArchived, RepairEvidence,
      SetSending, Reserve, MarkLaunching, LaunchFailed, MarkLaunched, ClaimDraft, ClaimJob, CommitCheckpoint,
      Heartbeat, AttemptSucceeded, AttemptStopped, Tick;
    match op
    case CreateSurvey(s, d, user, request, hash, day, override, dailyLimit) =>
      CreateKeeps(w, limits, s, d, user, request, hash, day, override, dailyLimit);
    case RequestGeneratedDraft(s, user, d, request, hash) => RequestDraftKeeps(w, limits, s, user, d, request, hash);
    case CreateManualDraft(s, user, d, request, hash, markdown) =>
      ManualDraftKeeps(w, limits, s, user, d, request, hash, markdown);
    case CompleteSurveyDraft(d, worker, markdown) => CompleteDraftKeeps(w, limits, d, worker, markdown);
    case FailSurveyDraft(d, worker) => FailDraftKeeps(w, limits, d, worker);
    case RecoverExpiredDraft(d) => RecoverDraftKeeps(w, limits, d);
    case StartSurvey(s, user, j, request, hash, notify) => StartKeeps(w, limits, s, user, j, request, hash, notify);
    case CancelSurvey(s, user) => CancelKeeps(w, limits, s, user);
    case DeleteSurvey(s, user) => DeleteKeeps(w, limits, s, user);
  }

  lemma ApplyExecutionKeeps(w: World, limits: Limits, op: Op)
    requires Inv(w, limits) && OfExecution(op)
    ensures Inv(Apply(w, limits, op).next, limits)
  {
    hide Inv, Create, RequestDraft, ManualDraft, CompleteDraft, FailDraft, RecoverDraft, Start, Cancel, Delete,
      Settle, FinishArchive, DeferArchive, MarkWorkspaceMissing, RecoverJob, RecoverArchived, RepairEvidence,
      SetSending, Reserve, MarkLaunching, LaunchFailed, MarkLaunched, ClaimDraft, ClaimJob, CommitCheckpoint,
      Heartbeat, AttemptSucceeded, AttemptStopped, Tick;
    match op
    case SettleExecution(j, worker, outcome, error, chargeable) =>
      SettleKeeps(w, limits, j, worker, outcome, error, chargeable);
    case FinishSurveyArchive(j, worker, storage, manifest) => FinishKeeps(w, limits, j, worker, storage, manifest);
    case DeferSurveyArchive(j, worker, retryAfter, code) => DeferKeeps(w, limits, j, worker, retryAfter, code);
    case MarkArchiveWorkspaceMissing(j, worker) => WorkspaceMissingKeeps(w, limits, j, worker);
    case RecoverExpiredJob(j) => RecoverJobKeeps(w, limits, j);
    case RecoverArchivedFailure(j, expected, code, replacement) =>
      RecoverArchivedKeeps(w, limits, j, expected, code, replacement);
    case RepairDegradedEvidence(j, expected, overlay) => RepairKeeps(w, limits, j, expected, overlay);
    case SetMailSending(s, sending) => SetSendingKeeps(w, limits, s, sending);
  }

  lemma ApplyComputeKeeps(w: World, limits: Limits, op: Op)
    requires Sound(w, limits) && !OfOwner(op) && !OfExecution(op)
    ensures Inv(Apply(w, limits, op).next, limits)
  {
    hide Inv, Underway, Fetch, TryNext, Create, RequestDraft, ManualDraft, CompleteDraft, FailDraft, RecoverDraft,
      Start, Cancel, Delete, Settle, FinishArchive, DeferArchive, MarkWorkspaceMissing, RecoverJob, RecoverArchived,
      RepairEvidence, SetSending, Reserve, MarkLaunching, LaunchFailed, MarkLaunched, ClaimDraft, ClaimJob,
      CommitCheckpoint, Heartbeat, AttemptSucceeded, AttemptStopped, Tick;
    match op
    case ReserveAttempt(kind, target, a) => ReserveKeeps(w, limits, kind, target, a);
    case BeginPass(kind) => InvAside(w, Apply(w, limits, op).next, limits);
    case FetchWork(kind, began, list) => FetchKeeps(w, limits, kind, began, list);
    case TryCandidate(kind, a) =>
      assert Underway(w, limits, kind);
      TryKeeps(w, limits, kind, a);
    case AbandonPass(kind) => InvAside(w, Apply(w, limits, op).next, limits);
    case MarkAttemptLaunching(a) => LaunchingKeeps(w, limits, a);
    case RecordLaunchFailure(a) => LaunchFailedKeeps(w, limits, a);
    case MarkAttemptLaunched(a, arn) => LaunchedKeeps(w, limits, a, arn);
    case ClaimExactDraft(d, a, lease) => ClaimDraftKeeps(w, limits, d, a, lease);
    case ClaimExactJob(j, a, lease, timeout) => ClaimJobKeeps(w, limits, j, a, lease, timeout);
    case CommitJobCheckpoint(j, a, position, stage, pointer) =>
      CheckpointKeeps(w, limits, j, a, position, stage, pointer);
    case HeartbeatAttempt(a, lease) => HeartbeatKeeps(w, limits, a, lease);
    case RecordSucceeded(a, version) => SucceededKeeps(w, limits, a, version);
    case RecordStopped(a, version, retryable) => StoppedKeeps(w, limits, a, version, retryable);
    case PassTime(elapsed) => TickKeeps(w, limits, elapsed);
  }

  lemma ApplyKeeps(w: World, limits: Limits, op: Op)
    requires Sound(w, limits)
    ensures Sound(Apply(w, limits, op).next, limits)
  {
    hide Inv, Apply, Pending;
    if OfOwner(op) {
      ApplyOwnerKeeps(w, limits, op);
    } else if OfExecution(op) {
      ApplyExecutionKeeps(w, limits, op);
    } else {
      ApplyComputeKeeps(w, limits, op);
    }
    StepPending(w, limits, op);
  }

  /** Every transaction leaves every invariant in place, however the transactions interleave. */
  lemma {:induction false} RunKeeps(w: World, limits: Limits, ops: seq<Op>)
    requires Sound(w, limits)
    ensures Sound(Run(w, limits, ops), limits)
    decreases |ops|
  {
    hide Sound, Apply;
    if ops != [] {
      ApplyKeeps(w, limits, ops[0]);
      RunKeeps(Apply(w, limits, ops[0]).next, limits, ops[1..]);
    }
  }

  lemma {:induction false} RunAppend(w: World, limits: Limits, ops: seq<Op>, more: seq<Op>)
    ensures Run(w, limits, ops + more) == Run(Run(w, limits, ops), limits, more)
    decreases |ops|
  {
    hide Apply;
    if ops == [] {
      assert ops + more == more;
    } else {
      assert (ops + more)[0] == ops[0] && (ops + more)[1..] == ops[1..] + more;
      RunAppend(Apply(w, limits, ops[0]).next, limits, ops[1..], more);
    }
  }

  /** Some run leads from `w` to `v`. */
  ghost predicate Follows(w: World, limits: Limits, v: World) {
    exists ops :: v == Run(w, limits, ops)
  }

  lemma FollowsSelf(w: World, limits: Limits)
    ensures Follows(w, limits, w)
  {
    assert w == Run(w, limits, []);
  }

  lemma FollowsOne(w: World, limits: Limits, op: Op)
    ensures Follows(w, limits, Apply(w, limits, op).next)
  {
    hide Apply;
    assert [op][1..] == [];
    assert Run(w, limits, [op]) == Apply(w, limits, op).next;
  }

  lemma FollowsThen(w: World, limits: Limits, u: World, v: World)
    requires Follows(w, limits, u) && Follows(u, limits, v)
    ensures Follows(w, limits, v)
  {
    hide Run;
    var ops :| u == Run(w, limits, ops);
    var more :| v == Run(u, limits, more);
    RunAppend(w, limits, ops, more);
    assert v == Run(w, limits, ops + more);
  }

  /** Some run leads to `w` from the empty tables. */
  ghost predicate Reachable(w: World, limits: Limits) {
    exists ops :: w == Run(EMPTY, limits, ops)
  }

  lemma EmptySound(limits: Limits)
    ensures Sound(EMPTY, limits)
  {
    hide Inv, ActiveOfKind, Fits;
    EmptyKeeps(limits);
  }

  /** Every reachable state satisfies the invariants. */
  lemma ReachableSound(w: World, limits: Limits)
    requires Reachable(w, limits)
    ensures Sound(w, limits)
  {
    hide Inv, Run;
    var ops :| w == Run(EMPTY, limits, ops);
    EmptySound(limits);
    RunKeeps(EMPTY, limits, ops);
  }
}
