/** Survey transactions as operations, and runs of them. */
module SurveyOps {
  import opened Wrappers
  import opened SurveyModel
  import opened SurveyTransitions

  datatype Op =
    | CreateSurvey(s: SurveyId, d: DraftId, user: UserId, request: RequestId, hash: Hash, day: Day,
                   override: Option<int>, dailyLimit: int)
    | RequestGeneratedDraft(s: SurveyId, user: UserId, d: DraftId, request: RequestId, hash: Hash)
    | CreateManualDraft(s: SurveyId, user: UserId, d: DraftId, request: RequestId, hash: Hash, markdown: string)
    | CompleteSurveyDraft(d: DraftId, worker: AttemptId, markdown: string)
    | FailSurveyDraft(d: DraftId, worker: AttemptId)
    | RecoverExpiredDraft(d: DraftId)
    | StartSurvey(s: SurveyId, user: UserId, j: JobId, request: RequestId, hash: Hash, notify: bool)
    | CancelSurvey(s: SurveyId, user: UserId)
    | DeleteSurvey(s: SurveyId, user: UserId)
    | SettleExecution(j: JobId, worker: AttemptId, outcome: Outcome, error: Option<ErrorCode>, chargeable: bool)
    | FinishSurveyArchive(j: JobId, worker: AttemptId, storage: (UserId, JobId), manifest: Manifest)
    | DeferSurveyArchive(j: JobId, worker: AttemptId, retryAfter: int, code: ErrorCode)
    | MarkArchiveWorkspaceMissing(j: JobId, worker: AttemptId)
    | RecoverExpiredJob(j: JobId)
    | RecoverArchivedFailure(j: JobId, expected: Manifest, code: ErrorCode, replacement: Option<Manifest>)
    | RepairDegradedEvidence(j: JobId, expected: Manifest, overlay: Manifest)
    | SetMailSending(s: SurveyId, sending: bool)
    | ReserveAttempt(kind: WorkKind, target: nat, a: AttemptId)
    | BeginPass(kind: WorkKind)
    | FetchWork(kind: WorkKind, began: Time, list: seq<nat>)
    | TryCandidate(kind: WorkKind, a: AttemptId)
    | AbandonPass(kind: WorkKind)
    | MarkAttemptLaunching(a: AttemptId)
    | RecordLaunchFailure(a: AttemptId)
    | MarkAttemptLaunched(a: AttemptId, arn: nat)
    | ClaimExactDraft(d: DraftId, a: AttemptId, lease: int)
    | ClaimExactJob(j: JobId, a: AttemptId, lease: int, timeout: int)
    | CommitJobCheckpoint(j: JobId, a: AttemptId, position: nat, stage: nat, pointer: nat)
    | HeartbeatAttempt(a: AttemptId, lease: int)
    | RecordSucceeded(a: AttemptId, version: int)
    | RecordStopped(a: AttemptId, version: int, retryable: bool)
    | PassTime(elapsed: nat)

  ghost function Apply(w: World, limits: Limits, op: Op): Step {
    match op
    case CreateSurvey(s, d, user, request, hash, day, override, dailyLimit) =>
      Create(w, s, d, user, request, hash, day, override, dailyLimit)
    case RequestGeneratedDraft(s, user, d, request, hash) => RequestDraft(w, s, user, d, request, hash)
    case CreateManualDraft(s, user, d, request, hash, markdown) =>
      ManualDraft(w, s, user, d, request, hash, markdown)
    case CompleteSurveyDraft(d, worker, markdown) => CompleteDraft(w, d, worker, markdown)
    case FailSurveyDraft(d, worker) => FailDraft(w, d, worker)
    case RecoverExpiredDraft(d) => RecoverDraft(w, d)
    case StartSurvey(s, user, j, request, hash, notify) => Start(w, s, user, j, request, hash, notify)
    case CancelSurvey(s, user) => Cancel(w, s, user)
    case DeleteSurvey(s, user) => Delete(w, s, user)
    case SettleExecution(j, worker, outcome, error, chargeable) => Settle(w, j, worker, outcome, error, chargeable)
    case FinishSurveyArchive(j, worker, storage, manifest) => FinishArchive(w, j, worker, storage, manifest)
    case DeferSurveyArchive(j, worker, retryAfter, code) => DeferArchive(w, j, worker, retryAfter, code)
    case MarkArchiveWorkspaceMissing(j, worker) => MarkWorkspaceMissing(w, j, worker)
    case RecoverExpiredJob(j) => RecoverJob(w, j)
    case RecoverArchivedFailure(j, expected, code, replacement) => RecoverArchived(w, j, expected, code, replacement)
    case RepairDegradedEvidence(j, expected, overlay) => RepairEvidence(w, j, expected, overlay)
    case SetMailSending(s, sending) => SetSending(w, s, sending)
    case ReserveAttempt(kind, target, a) => Reserve(w, limits, kind, target, a)
    case BeginPass(kind) => JoinLine(w, kind)
    case FetchWork(kind, began, list) => Fetch(w, limits, kind, began, list)
    case TryCandidate(kind, a) => TryNext(w, limits, kind, a)
    case AbandonPass(kind) => EndPass(w, kind)
    case MarkAttemptLaunching(a) => MarkLaunching(w, a)
    case RecordLaunchFailure(a) => LaunchFailed(w, a)
    case MarkAttemptLaunched(a, arn) => MarkLaunched(w, a, arn)
    case ClaimExactDraft(d, a, lease) => ClaimDraft(w, d, a, lease)
    case ClaimExactJob(j, a, lease, timeout) => ClaimJob(w, j, a, lease, timeout)
    case CommitJobCheckpoint(j, a, position, stage, pointer) => CommitCheckpoint(w, j, a, position, stage, pointer)
    case HeartbeatAttempt(a, lease) => Heartbeat(w, a, lease)
    case RecordSucceeded(a, version) => AttemptSucceeded(w, a, version)
    case RecordStopped(a, version, retryable) => AttemptStopped(w, a, version, retryable)
    case PassTime(elapsed) => Tick(w, elapsed)
  }

  ghost function Run(w: World, limits: Limits, ops: seq<Op>): World
    decreases |ops|
  {
    if ops == [] then w else Run(Apply(w, limits, ops[0]).next, limits, ops[1..])
  }

  /** What users ask for and what happens to Drafts. */
  predicate OfOwner(op: Op) {
    op.CreateSurvey? || op.RequestGeneratedDraft? || op.CreateManualDraft? || op.CompleteSurveyDraft?
    || op.FailSurveyDraft? || op.RecoverExpiredDraft? || op.StartSurvey? || op.CancelSurvey?
    || op.DeleteSurvey?
  }

  /** What ends, archives or repairs an execution. */
  predicate OfExecution(op: Op) {
    op.SettleExecution? || op.FinishSurveyArchive? || op.DeferSurveyArchive?
    || op.MarkArchiveWorkspaceMissing? || op.RecoverExpiredJob? || op.RecoverArchivedFailure?
    || op.RepairDegradedEvidence? || op.SetMailSending?
  }

  /** What brings attempts on their way without touching an item, and the passing of time. */
  predicate OfLaunch(op: Op) {
    op.ReserveAttempt? || op.MarkAttemptLaunching? || op.RecordLaunchFailure? || op.MarkAttemptLaunched?
    || op.PassTime?
  }

  /** A reserving transaction in steps. */
  predicate OfPass(op: Op) {
    op.BeginPass? || op.FetchWork? || op.TryCandidate? || op.AbandonPass?
  }
}
