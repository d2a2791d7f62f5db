/**
 The Survey tables as one value: daily usage, Surveys, jobs, Drafts, compute attempts and
 notifications, plus the history that no table stores (charges made, cancels accepted,
 checkpoints committed).  Worker identity is event mode's: a lease owner is an attempt id.
 */
module SurveyModel {
  import opened Wrappers

  type UserId = nat
  type SurveyId = nat
  type JobId = nat
  type DraftId = nat
  type AttemptId = nat
  type RequestId = nat
  type Hash = nat
  type Day = int
  type Time = int

  datatype Key = Key(user: UserId, day: Day)
  datatype Usage = Usage(reserved: int, succeeded: int)

  datatype SurveyStatus = Drafting | Queued | Running | Archiving | Succeeded | Failed | Cancelled
  datatype QuotaState = Reserved | Consumed | Released
  datatype JobStatus = Queued | Running | Archiving | Finished
  datatype Outcome = Succeeded | Failed | Cancelled
  datatype DraftStatus = Queued | Running | Ready | Failed | Cancelled
  datatype AttemptStatus =
    Reserved | Launching | Launched | Running | Succeeded | Retryable | Failed | Cancelled
  datatype WorkKind = DraftWork | FullWork

  datatype ErrorCode =
    | ContractViolation | ReportMissing | FullTextEvidenceInvalid | OutlineMetadataInvalid
    | SectionContractInvalid | ReferenceContractInvalid | FinalizationOutputInvalid
    | WorkspaceMissing | WorkerLost | ArchivePending | QualityDegraded | Other(code: nat)
  {
    /** The finalization failures an operator may recover from a verified archive. */
    predicate Recoverable() {
      ContractViolation? || ReportMissing? || FullTextEvidenceInvalid? || OutlineMetadataInvalid?
      || SectionContractInvalid? || ReferenceContractInvalid? || FinalizationOutputInvalid?
    }
  }

  /** A manifest key, by the ownership its path spells out. */
  datatype Manifest =
    | Primary(user: UserId, job: JobId)
    | Overlay(user: UserId, job: JobId, digest: nat)
    | Foreign(path: nat)

  datatype Lease = Lease(owner: AttemptId, expires: Time)
  datatype Checkpoint = Checkpoint(sequence: nat, stage: nat, manifest: nat)

  /** `birth` numbers the create call that inserted the row; a deleted id may be inserted again. */
  datatype Survey = Survey(
    user: UserId, request: RequestId, hash: Hash, status: SurveyStatus, day: Day,
    quota: QuotaState, error: Option<ErrorCode>, notify: bool, birth: nat)

  datatype Job = Job(
    survey: SurveyId, approved: DraftId, request: RequestId, hash: Hash, status: JobStatus,
    outcome: Option<Outcome>, error: Option<ErrorCode>, lease: Option<Lease>,
    cancelRequested: bool, archiveAttempts: nat, nextArchive: Option<Time>, queuedAt: Time,
    deadline: Option<Time>, checkpoint: Option<Checkpoint>, resumes: nat,
    storage: Option<(UserId, JobId)>, manifest: Option<Manifest>)

  datatype Draft = Draft(
    survey: SurveyId, request: RequestId, hash: Hash, revision: Option<nat>,
    basedOn: Option<nat>, markdown: Option<string>, status: DraftStatus,
    lease: Option<Lease>, queuedAt: Time)

  datatype Attempt = Attempt(
    kind: WorkKind, survey: SurveyId, target: nat, number: nat, status: AttemptStatus,
    started: bool, arn: Option<nat>, launchFailures: nat, nextLaunch: Time,
    eventVersion: Option<int>, checkpoint: Option<nat>)

  datatype Notice = Notice(outcome: Outcome, sending: bool)

  datatype Charge = Charge(birth: nat, key: Key)
  datatype Commit = Commit(sequence: nat, attempt: AttemptId, number: nat, stage: nat, manifest: nat)

  /** What has happened, as opposed to what the tables hold now. */
  datatype History = History(
    births: nat,                     // create calls that inserted a Survey
    charges: seq<Charge>,            // increments of succeeded_count, in order
    ceilings: map<Key, int>,         // largest limit any create of that key was admitted under
    recoveries: map<Key, nat>,       // charges made by archive recovery, per key
    cancels: set<nat>,               // births whose running execution was asked to cancel
    commits: map<nat, seq<Commit>>)  // checkpoints of the Survey's execution, by birth

  /**
   A row of the work list as it was fetched.  `birth` tells the Survey from a later one under a number
   that was used before; identifiers are random, so the code never confuses the two.
   */
  datatype Candidate = Candidate(
    survey: SurveyId, birth: nat, target: nat, user: UserId, attempts: nat, archiving: bool)

  /** A reserving transaction that waits for its capacity lock.  Its clock stands where it began. */
  datatype Ticket = Ticket(kind: WorkKind, began: Time)

  datatype World = World(
    now: Time, usage: map<Key, Usage>, surveys: map<SurveyId, Survey>,
    jobOf: map<SurveyId, JobId>,     // the unique index on survey_jobs.survey_id
    jobs: map<JobId, Job>, drafts: map<DraftId, Draft>,
    attempts: map<AttemptId, Attempt>, notices: map<SurveyId, Notice>,
    line: multiset<Ticket>,          // reserving transactions that wait for a capacity lock
    passes: map<WorkKind, seq<Candidate>>,  // those that hold one, with what is left of their work lists
    hist: History)

  const EMPTY_HISTORY := History(0, [], map[], map[], {}, map[])
  const EMPTY := World(0, map[], map[], map[], map[], map[], map[], map[], multiset{}, map[], EMPTY_HISTORY)

  /** The configured capacity; limits below one are refused. */
  datatype Limits = Limits(
    draftGlobal: nat, draftUser: nat, fullGlobal: nat, fullUser: nat, maxCompute: nat)
  {
    predicate Valid() {
      draftGlobal >= 1 && draftUser >= 1 && fullGlobal >= 1 && fullUser >= 1 && maxCompute >= 1
    }

    function Global(kind: WorkKind): nat {
      if kind.DraftWork? then draftGlobal else fullGlobal
    }

    function PerUser(kind: WorkKind): nat {
      if kind.DraftWork? then draftUser else fullUser
    }
  }

  datatype Refusal =
    | NotFound | IdempotencyConflict | QuotaExceeded | AlreadyStarted | DraftInProgress
    | NoReadyDraft | DraftLimit | NotCancellable | DeleteInProgress | ReservationGone
    | WorkerLost | LeaseLost | Superseded | RecoveryIneligible | ManifestChanged
    | NotificationRunning | NotLaunchable | FenceFailed | DatabaseError

  datatype Reply =
    | Done                    // the transition happened
    | Unchanged               // an idempotent repeat, or nothing matched
    | Refused(why: Refusal)   // an exception: the transaction rolled back

  datatype Step = Step(next: World, reply: Reply)

  function Refuse(w: World, why: Refusal): Step {
    Step(w, Refused(why))
  }

  // ---------- reading the tables ----------

  function KeyOf(s: Survey): Key {
    Key(s.user, s.day)
  }

  function Get<K, V>(m: map<K, V>, k: K, default: V): V {
    if k in m then m[k] else default
  }

  predicate Active(a: Attempt) {
    a.status.Reserved? || a.status.Launching? || a.status.Launched? || a.status.Running?
  }

  predicate Terminal(s: Survey) {
    s.status.Succeeded? || s.status.Failed? || s.status.Cancelled?
  }

  function JobRow(jobOf: map<SurveyId, JobId>, jobs: map<JobId, Job>, s: SurveyId): Option<Job> {
    if s in jobOf && jobOf[s] in jobs then Some(jobs[jobOf[s]]) else None
  }

  function JobAt(w: World, s: SurveyId): Option<Job> {
    JobRow(w.jobOf, w.jobs, s)
  }

  function DraftsOf(drafts: map<DraftId, Draft>, s: SurveyId): set<DraftId> {
    set d | d in drafts && drafts[d].survey == s
  }

  predicate IsActiveDraft(d: Draft) {
    d.status.Queued? || d.status.Running?
  }

  predicate HasActiveDraft(drafts: map<DraftId, Draft>, s: SurveyId) {
    exists d :: d in drafts && drafts[d].survey == s && IsActiveDraft(drafts[d])
  }

  predicate IsReady(drafts: map<DraftId, Draft>, s: SurveyId, d: DraftId) {
    d in drafts && drafts[d].survey == s && drafts[d].status.Ready? && drafts[d].revision.Some?
  }

  function ReadyOf(drafts: map<DraftId, Draft>, s: SurveyId): set<DraftId> {
    set d | d in drafts && IsReady(drafts, s, d)
  }

  /** `d` is the ready Draft of `s` with the highest revision. */
  ghost predicate IsLatest(drafts: map<DraftId, Draft>, s: SurveyId, d: DraftId) {
    IsReady(drafts, s, d) &&
    forall e :: IsReady(drafts, s, e) ==> drafts[e].revision.value <= drafts[d].revision.value
  }

  /** The highest ready revision of `s`, or None when no Draft of it is ready. */
  ghost function LatestRevision(drafts: map<DraftId, Draft>, s: SurveyId): Option<nat> {
    if d :| IsLatest(drafts, s, d) then drafts[d].revision else None
  }

  function AttemptsOn(attempts: map<AttemptId, Attempt>, kind: WorkKind, target: nat): set<AttemptId> {
    set a | a in attempts && attempts[a].kind == kind && attempts[a].target == target
  }

  function StartedOn(attempts: map<AttemptId, Attempt>, kind: WorkKind, target: nat): set<AttemptId> {
    set a | a in AttemptsOn(attempts, kind, target) && attempts[a].started
  }

  function ActiveOn(attempts: map<AttemptId, Attempt>, kind: WorkKind, target: nat): set<AttemptId> {
    set a | a in AttemptsOn(attempts, kind, target) && Active(attempts[a])
  }

  /** The attempts that have started computing on the target, or still may. */
  function SpentOn(attempts: map<AttemptId, Attempt>, kind: WorkKind, target: nat): set<AttemptId> {
    set a | a in AttemptsOn(attempts, kind, target) && (attempts[a].started || Active(attempts[a]))
  }

  function ActiveOfKind(attempts: map<AttemptId, Attempt>, kind: WorkKind): set<AttemptId> {
    set a | a in attempts && attempts[a].kind == kind && Active(attempts[a])
  }

  function ActiveOfUser(surveys: map<SurveyId, Survey>, attempts: map<AttemptId, Attempt>,
                        kind: WorkKind, user: UserId): set<AttemptId> {
    set a | a in ActiveOfKind(attempts, kind) && attempts[a].survey in surveys
            && surveys[attempts[a].survey].user == user
  }

  /** The Surveys that hold one reservation of `key`. */
  function Reservations(surveys: map<SurveyId, Survey>, key: Key): set<SurveyId> {
    set s | s in surveys && KeyOf(surveys[s]) == key && surveys[s].quota.Reserved?
  }

  function ChargesTo(charges: seq<Charge>, key: Key): nat {
    if charges == [] then 0
    else ChargesTo(charges[..|charges| - 1], key)
         + (if charges[|charges| - 1].key == key then 1 else 0)
  }

  predicate Charged(charges: seq<Charge>, birth: nat) {
    exists i :: 0 <= i < |charges| && charges[i].birth == birth
  }
}
