/**
 One function per Survey transaction: the tables it leaves and what it answers.  A refusal
 leaves the tables alone, as the rolled-back transaction does.  SurveyStore carries the
 transactions out row by row and is proved to agree with these.
 */
module SurveyTransitions {
  import opened Wrappers
  import opened SurveyModel
  import opened FairQueue

  // ---------- quota ----------

  /** Give one reservation of `key` back, turning it into a success when `charge` holds. */
  function Settled(usage: map<Key, Usage>, key: Key, charge: bool): Option<map<Key, Usage>> {
    if key in usage && usage[key].reserved > 0 then
      Some(usage[key := Usage(usage[key].reserved - 1, usage[key].succeeded + if charge then 1 else 0)])
    else None
  }

  function Bill(h: History, s: Survey, charge: bool): History {
    if charge then h.(charges := h.charges + [Charge(s.birth, KeyOf(s))]) else h
  }

  /** A user's override row wins over the configured daily limit. */
  function EffectiveLimit(override: Option<int>, dailyLimit: int): int {
    match override
    case Some(limit) => limit
    case None => dailyLimit
  }

  predicate Visible(w: World, s: SurveyId, user: UserId) {
    s in w.surveys && w.surveys[s].user == user
  }

  function RequestedSurveys(surveys: map<SurveyId, Survey>, user: UserId, request: RequestId): set<SurveyId> {
    set s | s in surveys && surveys[s].user == user && surveys[s].request == request
  }

  function RequestedDrafts(drafts: map<DraftId, Draft>, s: SurveyId, request: RequestId): set<DraftId> {
    set d | d in DraftsOf(drafts, s) && drafts[d].request == request
  }

  /** A repeated request must repeat its content. */
  predicate SameSurveyHash(surveys: map<SurveyId, Survey>, hits: set<SurveyId>, hash: Hash) {
    forall e :: e in hits && e in surveys ==> surveys[e].hash == hash
  }

  predicate SameDraftHash(drafts: map<DraftId, Draft>, hits: set<DraftId>, hash: Hash) {
    forall e :: e in hits && e in drafts ==> drafts[e].hash == hash
  }

  function NewDraft(w: World, s: SurveyId, request: RequestId, hash: Hash, base: Option<nat>): Draft {
    Draft(s, request, hash, None, base, None, DraftStatus.Queued, None, w.now)
  }

  ghost function Create(w: World, s: SurveyId, d: DraftId, user: UserId, request: RequestId,
                        hash: Hash, day: Day, override: Option<int>, dailyLimit: int): Step {
    var key := Key(user, day);
    var row := Get(w.usage, key, Usage(0, 0));
    var limit := EffectiveLimit(override, dailyLimit);
    var hits := RequestedSurveys(w.surveys, user, request);
    if hits != {} then
      if SameSurveyHash(w.surveys, hits, hash)
      then Step(w.(usage := w.usage[key := row]), Unchanged)
      else Refuse(w, IdempotencyConflict)
    else if row.reserved + row.succeeded >= limit then Refuse(w, QuotaExceeded)
    else if s in w.surveys || d in w.drafts then Refuse(w, DatabaseError)
    else
      Step(w.(usage := w.usage[key := row.(reserved := row.reserved + 1)],
              surveys := w.surveys[s := Survey(user, request, hash, SurveyStatus.Drafting, day,
                                               QuotaState.Reserved, None, false, w.hist.births)],
              drafts := w.drafts[d := NewDraft(w, s, request, hash, None)],
              hist := w.hist.(births := w.hist.births + 1,
                              ceilings := w.hist.ceilings[key := Max(Get(w.hist.ceilings, key, 0), limit)])),
           Done)
  }

  function Max(a: int, b: int): int {
    if a >= b then a else b
  }

  // ---------- Drafts ----------

  /** Why a new Draft of `s` cannot be requested, if it cannot. */
  ghost function DraftRefusal(w: World, s: SurveyId): Option<Refusal>
    requires s in w.surveys
  {
    if !w.surveys[s].status.Drafting? then Some(AlreadyStarted)
    else if HasActiveDraft(w.drafts, s) then Some(DraftInProgress)
    else match LatestRevision(w.drafts, s)
      case Some(n) => if n >= 10 then Some(DraftLimit) else None
      case None => None
  }

  /** Answer a repeated Draft request: None when the request is new. */
  ghost function Repeated(w: World, s: SurveyId, request: RequestId, hash: Hash): Option<Step> {
    var hits := RequestedDrafts(w.drafts, s, request);
    if hits == {} then None
    else if SameDraftHash(w.drafts, hits, hash) then Some(Step(w, Unchanged))
    else Some(Refuse(w, IdempotencyConflict))
  }

  function Next(latest: Option<nat>): nat {
    if latest.Some? then latest.value + 1 else 1
  }

  ghost function RequestDraft(w: World, s: SurveyId, user: UserId, d: DraftId,
                              request: RequestId, hash: Hash): Step {
    if !Visible(w, s, user) then Refuse(w, NotFound)
    else match Repeated(w, s, request, hash)
      case Some(step) => step
      case None =>
        match DraftRefusal(w, s)
        case Some(why) => Refuse(w, why)
        case None =>
          if d in w.drafts then Refuse(w, DatabaseError)
          else
            Step(w.(drafts := w.drafts[d := NewDraft(w, s, request, hash, LatestRevision(w.drafts, s))]), Done)
  }

  ghost function ManualDraft(w: World, s: SurveyId, user: UserId, d: DraftId,
                             request: RequestId, hash: Hash, markdown: string): Step {
    if !Visible(w, s, user) then Refuse(w, NotFound)
    else match Repeated(w, s, request, hash)
      case Some(step) => step
      case None =>
        match DraftRefusal(w, s)
        case Some(why) => Refuse(w, why)
        case None =>
          if d in w.drafts then Refuse(w, DatabaseError)
          else
            var latest := LatestRevision(w.drafts, s);
            Step(w.(drafts := w.drafts[d := Draft(s, request, hash, Some(Next(latest)), latest,
                                                  Some(markdown), DraftStatus.Ready, None, w.now)]), Done)
  }

  ghost function CompleteDraft(w: World, d: DraftId, worker: AttemptId, markdown: string): Step {
    if !OwnsDraft(w, d, worker) then Refuse(w, LeaseLost)
    else
      var draft := w.drafts[d];
      var latest := LatestRevision(w.drafts, draft.survey);
      if draft.survey !in w.surveys || !w.surveys[draft.survey].status.Drafting? then Refuse(w, LeaseLost)
      else if draft.basedOn != latest then Refuse(w, Superseded)
      else if Next(latest) > 10 then Refuse(w, DraftLimit)
      else
        Step(w.(drafts := w.drafts[d := draft.(status := DraftStatus.Ready, lease := None,
                                               revision := Some(Next(latest)),
                                               markdown := Some(markdown))]), Done)
  }

  predicate OwnsDraft(w: World, d: DraftId, worker: AttemptId) {
    d in w.drafts && w.drafts[d].status.Running? && w.drafts[d].lease.Some?
    && w.drafts[d].lease.value.owner == worker
  }

  function FailDraft(w: World, d: DraftId, worker: AttemptId): Step {
    if !OwnsDraft(w, d, worker) || w.drafts[d].survey !in w.surveys then Refuse(w, LeaseLost)
    else Step(w.(drafts := w.drafts[d := w.drafts[d].(status := DraftStatus.Failed, lease := None)]), Done)
  }

  /** One row of the expired-Draft sweep. */
  function RecoverDraft(w: World, d: DraftId): Step {
    if d in w.drafts && w.drafts[d].status.Running? && w.drafts[d].lease.Some?
       && w.drafts[d].lease.value.expires <= w.now && w.drafts[d].survey in w.surveys
    then Step(w.(drafts := w.drafts[d := w.drafts[d].(status := DraftStatus.Failed, lease := None)]), Done)
    else Step(w, Unchanged)
  }

  // ---------- the Survey and its one job ----------

  ghost function Start(w: World, s: SurveyId, user: UserId, j: JobId, request: RequestId,
                       hash: Hash, notify: bool): Step {
    if !Visible(w, s, user) then Refuse(w, NotFound)
    else match JobAt(w, s)
      case Some(job) =>
        if job.request != request then Refuse(w, AlreadyStarted)
        else if job.hash != hash then Refuse(w, IdempotencyConflict)
        else Step(w, Unchanged)
      case None =>
        var survey := w.surveys[s];
        if !survey.status.Drafting? || !survey.quota.Reserved? then Refuse(w, AlreadyStarted)
        else if HasActiveDraft(w.drafts, s) then Refuse(w, DraftInProgress)
        else if d :| IsLatest(w.drafts, s, d) then
          if j in w.jobs then Refuse(w, DatabaseError)
          else
            Step(w.(jobOf := w.jobOf[s := j],
                    jobs := w.jobs[j := Job(s, d, request, hash, JobStatus.Queued, None, None, None,
                                            false, 0, None, w.now, None, None, 0, None, None)],
                    surveys := w.surveys[s := survey.(status := SurveyStatus.Queued, notify := notify)]),
                 Done)
        else Refuse(w, NoReadyDraft)
  }

  /** Deleting a job takes its attempts along. */
  function WithoutJob(w: World, s: SurveyId): World {
    if s in w.jobOf then
      var j := w.jobOf[s];
      w.(jobOf := w.jobOf - {s}, jobs := w.jobs - {j},
         attempts := map a | a in w.attempts
                             && !(w.attempts[a].kind.FullWork? && w.attempts[a].target == j)
                         :: w.attempts[a])
    else w
  }

  function CancelledDrafts(drafts: map<DraftId, Draft>, s: SurveyId): map<DraftId, Draft> {
    map d | d in drafts :: CancelledRow(drafts[d], s)
  }

  function CancelledRow(d: Draft, s: SurveyId): Draft {
    if d.survey == s && IsActiveDraft(d) then d.(status := DraftStatus.Cancelled, lease := None) else d
  }

  function Cancel(w: World, s: SurveyId, user: UserId): Step {
    if !Visible(w, s, user) then Refuse(w, NotFound)
    else
      var survey := w.surveys[s];
      var job := JobAt(w, s);
      match survey.status
      case Succeeded => Step(w, Unchanged)
      case Failed => Step(w, Unchanged)
      case Cancelled => Step(w, Unchanged)
      case Archiving => Refuse(w, NotCancellable)
      case Running =>
        if job.None? || !job.value.status.Running? then Refuse(w, NotCancellable)
        else
          Step(w.(jobs := w.jobs[w.jobOf[s] := job.value.(cancelRequested := true)],
                  hist := w.hist.(cancels := w.hist.cancels + {survey.birth})), Done)
      case Drafting => Withdraw(w, s)
      case Queued =>
        if job.None? || !job.value.status.Queued? then Refuse(w, NotCancellable)
        else Withdraw(w, s)
  }

  function Withdraw(w: World, s: SurveyId): Step
    requires s in w.surveys
  {
    var survey := w.surveys[s];
    var v := if survey.status.Queued? then WithoutJob(w, s) else w;
    match Settled(w.usage, KeyOf(survey), false)
    case None => Refuse(w, ReservationGone)
    case Some(usage) =>
      Step(v.(usage := usage, drafts := CancelledDrafts(v.drafts, s),
              surveys := v.surveys[s := survey.(status := SurveyStatus.Cancelled,
                                                quota := QuotaState.Released)]), Done)
  }

  /** Deleting Survey `s` cascades to its job, Drafts, attempts and mail. */
  function Erased(w: World, s: SurveyId): World {
    w.(surveys := w.surveys - {s}, notices := w.notices - {s}, jobOf := w.jobOf - {s},
       jobs := map j | j in w.jobs && w.jobs[j].survey != s :: w.jobs[j],
       drafts := map d | d in w.drafts && w.drafts[d].survey != s :: w.drafts[d],
       attempts := map a | a in w.attempts && w.attempts[a].survey != s :: w.attempts[a])
  }

  function Delete(w: World, s: SurveyId, user: UserId): Step {
    if !Visible(w, s, user) then Refuse(w, NotFound)
    else
      var survey := w.surveys[s];
      var job := JobAt(w, s);
      if survey.status.Running? || survey.status.Archiving? then Refuse(w, DeleteInProgress)
      else if !survey.status.Drafting? && !survey.status.Queued? then Step(Erased(w, s), Done)
      else if job.Some? && !job.value.status.Queued? then Refuse(w, DeleteInProgress)
      else if !survey.quota.Reserved? then Step(Erased(w, s), Done)
      else match Settled(w.usage, KeyOf(survey), false)
        case None => Refuse(w, ReservationGone)
        case Some(usage) => Step(Erased(w, s).(usage := usage), Done)
  }

  predicate OwnsJob(w: World, j: JobId, worker: AttemptId) {
    j in w.jobs && w.jobs[j].lease.Some? && w.jobs[j].lease.value.owner == worker
  }

  predicate Attached(w: World, j: JobId) {
    j in w.jobs && w.jobs[j].survey in w.surveys
    && w.jobs[j].survey in w.jobOf && w.jobOf[w.jobs[j].survey] == j
  }

  function Settle(w: World, j: JobId, worker: AttemptId, outcome: Outcome,
                  error: Option<ErrorCode>, chargeable: bool): Step {
    if !Attached(w, j) then Refuse(w, Refusal.WorkerLost)
    else
      var job := w.jobs[j];
      var survey := w.surveys[job.survey];
      var effective := if job.cancelRequested then Outcome.Cancelled else outcome;
      if job.status.Archiving? && job.outcome == Some(effective) then Step(w, Unchanged)
      else if !job.status.Running? || !OwnsJob(w, j, worker) then Refuse(w, LeaseLost)
      else if !survey.status.Running? || !survey.quota.Reserved? then Refuse(w, LeaseLost)
      else
        var charge := effective.Succeeded? && chargeable;
        var reported := if effective.Cancelled? then None else error;
        match Settled(w.usage, KeyOf(survey), charge)
        case None => Refuse(w, ReservationGone)
        case Some(usage) =>
          Step(w.(usage := usage,
                  surveys := w.surveys[job.survey := survey.(
                               status := SurveyStatus.Archiving, error := reported,
                               quota := if charge then QuotaState.Consumed else QuotaState.Released)],
                  jobs := w.jobs[j := job.(status := JobStatus.Archiving, outcome := Some(effective),
                                           error := reported, nextArchive := Some(w.now))],
                  hist := Bill(w.hist, survey, charge)), Done)
  }

  function StatusOf(o: Outcome): SurveyStatus {
    match o
    case Succeeded => SurveyStatus.Succeeded
    case Failed => SurveyStatus.Failed
    case Cancelled => SurveyStatus.Cancelled
  }

  function FinishArchive(w: World, j: JobId, worker: AttemptId, storage: (UserId, JobId),
                         manifest: Manifest): Step {
    if !Attached(w, j) || !OwnsJob(w, j, worker) || !w.jobs[j].status.Archiving?
       || w.jobs[j].outcome.None?
    then Refuse(w, LeaseLost)
    else
      var job := w.jobs[j];
      var survey := w.surveys[job.survey];
      var ended := if survey.status.Archiving? then survey.(status := StatusOf(job.outcome.value)) else survey;
      Step(w.(jobs := w.jobs[j := job.(status := JobStatus.Finished, storage := Some(storage),
                                       manifest := Some(manifest), lease := None, nextArchive := None)],
              surveys := w.surveys[job.survey := ended],
              notices := Notified(w.notices, job.survey, ended, job.outcome.value)), Done)
  }

  /** The completion mail of `s`, queued at most once and never for a cancellation. */
  function Notified(notices: map<SurveyId, Notice>, s: SurveyId, survey: Survey, o: Outcome):
    map<SurveyId, Notice>
  {
    if survey.notify && !o.Cancelled? && s !in notices then notices[s := Notice(o, false)] else notices
  }

  function DeferArchive(w: World, j: JobId, worker: AttemptId, retryAfter: int, error: ErrorCode): Step {
    if !Attached(w, j) || !OwnsJob(w, j, worker) || !w.jobs[j].status.Archiving? then Refuse(w, LeaseLost)
    else
      var job := w.jobs[j];
      Step(w.(jobs := w.jobs[j := job.(archiveAttempts := job.archiveAttempts + 1, lease := None,
                                       nextArchive := Some(w.now + retryAfter), error := Some(error))]), Done)
  }

  function MarkWorkspaceMissing(w: World, j: JobId, worker: AttemptId): Step {
    if !Attached(w, j) || !OwnsJob(w, j, worker) || !w.jobs[j].status.Archiving? then Refuse(w, LeaseLost)
    else
      var job := w.jobs[j];
      Step(w.(jobs := w.jobs[j := job.(outcome := Some(Outcome.Failed), error := Some(WorkspaceMissing))],
              surveys := w.surveys[job.survey := w.surveys[job.survey].(error := Some(WorkspaceMissing))]), Done)
  }

  /** One row of the expired-job sweep. */
  function RecoverJob(w: World, j: JobId): Step {
    if !Attached(w, j) || !w.jobs[j].status.Running? || w.jobs[j].lease.None?
       || w.jobs[j].lease.value.expires > w.now
    then Step(w, Unchanged)
    else
      var job := w.jobs[j];
      var survey := w.surveys[job.survey];
      var reported := if job.cancelRequested then None else Some(ErrorCode.WorkerLost);
      match Settled(w.usage, KeyOf(survey), false)
      case None => Refuse(w, DatabaseError)
      case Some(usage) =>
        Step(w.(usage := usage,
                jobs := w.jobs[j := job.(
                          status := JobStatus.Archiving, error := reported, lease := None,
                          outcome := Some(if job.cancelRequested then Outcome.Cancelled else Outcome.Failed),
                          nextArchive := Some(w.now))],
                surveys := w.surveys[job.survey := survey.(
                             status := SurveyStatus.Archiving, quota := QuotaState.Released,
                             error := reported)]), Done)
  }

  // ---------- repairing an archived result ----------

  predicate OwnStorage(survey: Survey, j: JobId, job: Job, expected: Manifest) {
    job.storage == Some((survey.user, j)) && expected == Primary(survey.user, j)
  }

  predicate OwnOverlay(survey: Survey, j: JobId, m: Manifest) {
    m.Overlay? && m.user == survey.user && m.job == j
  }

  predicate Ended(survey: Survey, job: Job, status: SurveyStatus, quota: QuotaState, outcome: Outcome) {
    survey.status == status && survey.quota == quota && job.status.Finished? && job.outcome == Some(outcome)
  }

  function RecoverArchived(w: World, j: JobId, expected: Manifest, error: ErrorCode,
                           replacement: Option<Manifest>): Step {
    if !error.Recoverable() then Refuse(w, RecoveryIneligible)
    else if !Attached(w, j) then Refuse(w, NotFound)
    else
      var job := w.jobs[j];
      var s := job.survey;
      var survey := w.surveys[s];
      var active := if replacement.Some? then replacement.value else expected;
      if Ended(survey, job, SurveyStatus.Succeeded, QuotaState.Consumed, Outcome.Succeeded) then
        if job.manifest != Some(active) then Refuse(w, ManifestChanged) else Step(w, Unchanged)
      else if job.manifest != Some(expected) then Refuse(w, ManifestChanged)
      else if !OwnStorage(survey, j, job, expected) then Refuse(w, ManifestChanged)
      else if replacement.Some? && !OwnOverlay(survey, j, replacement.value) then Refuse(w, ManifestChanged)
      else if !(Ended(survey, job, SurveyStatus.Failed, QuotaState.Released, Outcome.Failed)
                && survey.error == Some(error) && job.error == Some(error))
      then Refuse(w, RecoveryIneligible)
      else if s in w.notices && w.notices[s].sending then Refuse(w, NotificationRunning)
      else if KeyOf(survey) !in w.usage then Refuse(w, ReservationGone)
      else
        var key := KeyOf(survey);
        var row := w.usage[key];
        var h := Bill(w.hist, survey, true);
        Step(w.(usage := w.usage[key := row.(succeeded := row.succeeded + 1)],
                surveys := w.surveys[s := survey.(status := SurveyStatus.Succeeded,
                                                  quota := QuotaState.Consumed, error := None)],
                jobs := w.jobs[j := job.(outcome := Some(Outcome.Succeeded), error := None,
                                         manifest := Some(active))],
                notices := if s in w.notices then w.notices[s := Notice(Outcome.Succeeded, false)]
                           else if survey.notify then w.notices[s := Notice(Outcome.Succeeded, false)]
                           else w.notices,
                hist := h.(recoveries := h.recoveries[key := Get(h.recoveries, key, 0) + 1])), Done)
  }

  function RepairEvidence(w: World, j: JobId, expected: Manifest, replacement: Manifest): Step {
    if !Attached(w, j) then Refuse(w, NotFound)
    else
      var job := w.jobs[j];
      var survey := w.surveys[job.survey];
      if !OwnStorage(survey, j, job, expected) || !OwnOverlay(survey, j, replacement)
      then Refuse(w, ManifestChanged)
      else if Ended(survey, job, SurveyStatus.Succeeded, QuotaState.Released, Outcome.Succeeded)
              && survey.error == None && job.error == None then
        if job.manifest != Some(replacement) then Refuse(w, ManifestChanged) else Step(w, Unchanged)
      else if job.manifest != Some(expected) then Refuse(w, ManifestChanged)
      else if !(Ended(survey, job, SurveyStatus.Succeeded, QuotaState.Released, Outcome.Succeeded)
                && survey.error == Some(QualityDegraded) && job.error == Some(QualityDegraded))
      then Refuse(w, RecoveryIneligible)
      else
        Step(w.(surveys := w.surveys[job.survey := survey.(error := None)],
                jobs := w.jobs[j := job.(error := None, manifest := Some(replacement))]), Done)
  }

  /** The mailer takes up or puts down a queued completion mail. */
  function SetSending(w: World, s: SurveyId, sending: bool): Step {
    if s in w.notices then Step(w.(notices := w.notices[s := w.notices[s].(sending := sending)]), Done)
    else Step(w, Unchanged)
  }

  // ---------- compute attempts ----------

  /** A row of the eligible work list, before the retry budget and the user cap are applied. */
  predicate Listed(w: World, kind: WorkKind, target: nat) {
    match kind
    case DraftWork =>
      target in w.drafts && w.drafts[target].status.Queued? && w.drafts[target].survey in w.surveys
      && w.surveys[w.drafts[target].survey].status.Drafting?
      && ActiveOn(w.attempts, kind, target) == {}
    case FullWork =>
      target in w.jobs && w.jobs[target].survey in w.surveys && !w.jobs[target].status.Finished?
      && (w.jobs[target].status.Archiving?
          || (w.jobs[target].outcome.None?
              && (w.jobs[target].deadline.None? || w.jobs[target].deadline.value > w.now)))
      && (w.jobs[target].lease.None? || w.jobs[target].lease.value.expires <= w.now)
      && ActiveOn(w.attempts, kind, target) == {}
  }

  function SurveyOf(w: World, kind: WorkKind, target: nat): SurveyId
    requires Listed(w, kind, target)
  {
    if kind.DraftWork? then w.drafts[target].survey else w.jobs[target].survey
  }

  /** The retry budget: started attempts for execution, all attempts for archiving. */
  predicate WithinBudget(w: World, limits: Limits, kind: WorkKind, target: nat)
    requires Listed(w, kind, target)
  {
    if kind.FullWork? && w.jobs[target].status.Archiving?
    then |AttemptsOn(w.attempts, kind, target)| < limits.maxCompute + 8
    else |StartedOn(w.attempts, kind, target)| < limits.maxCompute
  }

  predicate Reservable(w: World, limits: Limits, kind: WorkKind, target: nat) {
    && Listed(w, kind, target)
    && WithinBudget(w, limits, kind, target)
    && |ActiveOfUser(w.surveys, w.attempts, kind, w.surveys[SurveyOf(w, kind, target)].user)|
       < limits.PerUser(kind)
  }

  // ---------- work lists ----------

  function Items(w: World, kind: WorkKind): set<nat> {
    if kind.DraftWork? then w.drafts.Keys else w.jobs.Keys
  }

  /** Only jobs being archived jump their user's other work. */
  function RowOf(w: World, kind: WorkKind, target: nat): Row
    requires Listed(w, kind, target)
  {
    var user := w.surveys[SurveyOf(w, kind, target)].user;
    match kind
    case DraftWork => Row(user, 1, w.drafts[target].queuedAt, target)
    case FullWork => Row(user, if w.jobs[target].status.Archiving? then 0 else 1, w.jobs[target].queuedAt, target)
  }

  /** The numbered rows of the candidate query: numbered before caps and budgets are applied. */
  function OpenRows(w: World, kind: WorkKind): set<Row> {
    set target | target in Items(w, kind) && Listed(w, kind, target) :: RowOf(w, kind, target)
  }

  /** Of two reservable items, `t` is served first. */
  ghost predicate ServedFirst(w: World, limits: Limits, kind: WorkKind, t: nat, u: nat) {
    Reservable(w, limits, kind, t) && Reservable(w, limits, kind, u)
    && Sooner(OpenRows(w, kind), RowOf(w, kind, t), RowOf(w, kind, u))
  }

  /** `t` is reservable and served before all other reservable items. */
  ghost predicate Leads(w: World, limits: Limits, kind: WorkKind, t: nat) {
    Reservable(w, limits, kind, t)
    && forall u :: Reservable(w, limits, kind, u) && u != t ==> ServedFirst(w, limits, kind, t, u)
  }

  ghost predicate InOrder(w: World, limits: Limits, kind: WorkKind, list: seq<nat>) {
    forall i, k :: 0 <= i < k < |list| ==> ServedFirst(w, limits, kind, list[i], list[k])
  }

  /** Whatever reservable item is not listed is served after all listed ones. */
  ghost predicate ComesAfter(w: World, limits: Limits, kind: WorkKind, list: seq<nat>) {
    forall i, t :: 0 <= i < |list| && Reservable(w, limits, kind, t) && t !in list ==>
      ServedFirst(w, limits, kind, list[i], t)
  }

  const WINDOW := 32

  /** The first 32 reservable items in serving order, or all of them if there are fewer. */
  ghost predicate WorkList(w: World, limits: Limits, kind: WorkKind, list: seq<nat>) {
    && |list| <= WINDOW && (forall i :: 0 <= i < |list| ==> Reservable(w, limits, kind, list[i]))
    && InOrder(w, limits, kind, list) && ComesAfter(w, limits, kind, list)
    && forall t :: Reservable(w, limits, kind, t) && t !in list ==> |list| == WINDOW
  }

  function NextAttempt(w: World, kind: WorkKind, target: nat): Attempt
    requires Listed(w, kind, target)
  {
    Attempt(kind, SurveyOf(w, kind, target), target, |AttemptsOn(w.attempts, kind, target)| + 1,
            AttemptStatus.Reserved, false, None, 0, w.now, None, None)
  }

  /**
   Reserve the item that is served first, as attempt `a`, with nothing coming between.  The capacity lock of
   the queue is held by one reserving transaction at a time.
   */
  ghost function Reserve(w: World, limits: Limits, kind: WorkKind, target: nat, a: AttemptId): Step {
    if kind in w.passes then Step(w, Unchanged)
    else if |ActiveOfKind(w.attempts, kind)| >= limits.Global(kind) then Step(w, Unchanged)
    else if !Leads(w, limits, kind, target) then Step(w, Unchanged)
    else if a in w.attempts then Refuse(w, DatabaseError)
    else Step(w.(attempts := w.attempts[a := NextAttempt(w, kind, target)]), Done)
  }

  // ---------- a reserving transaction in steps ----------

  function CandidateOf(w: World, kind: WorkKind, target: nat): Candidate
    requires Listed(w, kind, target)
  {
    var s := SurveyOf(w, kind, target);
    Candidate(s, w.surveys[s].birth, target, w.surveys[s].user, |AttemptsOn(w.attempts, kind, target)|,
              kind.FullWork? && w.jobs[target].status.Archiving?)
  }

  function CandidatesOf(w: World, kind: WorkKind, targets: seq<nat>): seq<Candidate>
    requires forall i :: 0 <= i < |targets| ==> Listed(w, kind, targets[i])
  {
    seq(|targets|, i requires 0 <= i < |targets| => CandidateOf(w, kind, targets[i]))
  }

  /** A reserving transaction begins, and lines up for the capacity lock. */
  function JoinLine(w: World, kind: WorkKind): Step {
    Step(w.(line := w.line + multiset{Ticket(kind, w.now)}), Done)
  }

  /**
   Get the capacity lock and fetch the work list, by the transaction's own clock.  With no room or nothing to
   reserve it is over, and likewise if it dies.
   */
  ghost function Fetch(w: World, limits: Limits, kind: WorkKind, began: Time, list: seq<nat>): Step {
    if kind in w.passes || Ticket(kind, began) !in w.line then Step(w, Unchanged)
    else
      var u := w.(line := w.line - multiset{Ticket(kind, began)});
      if |ActiveOfKind(w.attempts, kind)| >= limits.Global(kind) then Step(u, Unchanged)
      else if list == [] || !WorkList(w.(now := began), limits, kind, list) then Step(u, Unchanged)
      else Step(u.(passes := w.passes[kind := CandidatesOf(w.(now := began), kind, list)]), Done)
  }

  predicate Identified(w: World, c: Candidate) {
    c.survey in w.surveys && w.surveys[c.survey].birth == c.birth
  }

  /** What is checked again once the Survey is locked: not the deadline, not the budget, not the attempts. */
  predicate Current(w: World, kind: WorkKind, c: Candidate) {
    Identified(w, c) &&
    match kind
    case DraftWork =>
      w.surveys[c.survey].status.Drafting?
      && c.target in w.drafts && w.drafts[c.target].survey == c.survey && w.drafts[c.target].status.Queued?
    case FullWork =>
      c.survey in w.jobOf && w.jobOf[c.survey] == c.target && c.target in w.jobs
      && !w.jobs[c.target].status.Finished?
      && (w.jobs[c.target].status.Archiving? || w.jobs[c.target].outcome.None?)
      && (w.jobs[c.target].lease.None? || w.jobs[c.target].lease.value.expires <= w.now)
  }

  predicate NumberTaken(attempts: map<AttemptId, Attempt>, kind: WorkKind, target: nat, number: nat) {
    exists b :: b in AttemptsOn(attempts, kind, target) && attempts[b].number == number
  }

  function LateAttempt(w: World, kind: WorkKind, c: Candidate): Attempt {
    Attempt(kind, c.survey, c.target, c.attempts + 1, AttemptStatus.Reserved, false, None, 0, w.now, None, None)
  }

  /** Lock a candidate's Survey and reserve; the unique indexes of the attempts would end it with an error. */
  function LateReserve(w: World, limits: Limits, kind: WorkKind, c: Candidate, a: AttemptId): Step {
    if !Current(w, kind, c) || |ActiveOfUser(w.surveys, w.attempts, kind, c.user)| >= limits.PerUser(kind)
    then Step(w, Unchanged)
    else if a in w.attempts || ActiveOn(w.attempts, kind, c.target) != {}
            || NumberTaken(w.attempts, kind, c.target, c.attempts + 1)
    then Refuse(w, DatabaseError)
    else Step(w.(attempts := w.attempts[a := LateAttempt(w, kind, c)]), Done)
  }

  function Shortened(passes: map<WorkKind, seq<Candidate>>, kind: WorkKind): map<WorkKind, seq<Candidate>> {
    if kind in passes && |passes[kind]| > 1 then passes[kind := passes[kind][1..]] else passes - {kind}
  }

  /** The next candidate of the list: reserved or in error the transaction is over, else the one after it is next. */
  function TryNext(w: World, limits: Limits, kind: WorkKind, a: AttemptId): Step {
    if kind !in w.passes then Step(w, Unchanged)
    else if w.passes[kind] == [] then Step(w.(passes := w.passes - {kind}), Unchanged)
    else
      var step := LateReserve(w, limits, kind, w.passes[kind][0], a);
      match step.reply
      case Unchanged => Step(w.(passes := Shortened(w.passes, kind)), Unchanged)
      case _ => Step(step.next.(passes := w.passes - {kind}), step.reply)
  }

  /** The transaction dies; it had written nothing. */
  function EndPass(w: World, kind: WorkKind): Step {
    Step(w.(passes := w.passes - {kind}), Done)
  }

  predicate Unlaunched(a: Attempt) {
    a.status.Reserved? || a.status.Launching?
  }

  function MarkLaunching(w: World, a: AttemptId): Step {
    if a in w.attempts && Unlaunched(w.attempts[a]) && w.attempts[a].nextLaunch <= w.now
    then Step(w.(attempts := w.attempts[a := w.attempts[a].(status := AttemptStatus.Launching)]), Done)
    else Step(w, Unchanged)
  }

  const BACKOFF: seq<int> := [15, 30, 60, 120, 300]

  function LaunchFailed(w: World, a: AttemptId): Step {
    if a !in w.attempts || !Unlaunched(w.attempts[a]) then Refuse(w, NotLaunchable)
    else
      var at := w.attempts[a];
      var delay := BACKOFF[if at.launchFailures < 5 then at.launchFailures else 4];
      Step(w.(attempts := w.attempts[a := at.(status := AttemptStatus.Reserved,
                                              launchFailures := at.launchFailures + 1,
                                              nextLaunch := w.now + delay)]), Done)
  }

  function MarkLaunched(w: World, a: AttemptId, arn: nat): Step {
    if a in w.attempts && (Unlaunched(w.attempts[a]) || w.attempts[a].status.Launched?)
       && (w.attempts[a].arn.None? || w.attempts[a].arn == Some(arn))
    then Step(w.(attempts := w.attempts[a := w.attempts[a].(status := AttemptStatus.Launched, arn := Some(arn))]), Done)
    else Refuse(w, NotLaunchable)
  }

  predicate Claimable(w: World, a: AttemptId, kind: WorkKind, target: nat) {
    a in w.attempts && w.attempts[a].kind == kind && w.attempts[a].target == target
    && (Unlaunched(w.attempts[a]) || w.attempts[a].status.Launched?)
  }

  function ClaimDraft(w: World, d: DraftId, a: AttemptId, lease: int): Step {
    if !Claimable(w, a, DraftWork, d) then Step(w, Unchanged)
    else
      var s := w.attempts[a].survey;
      if s !in w.surveys || !w.surveys[s].status.Drafting? then Step(w, Unchanged)
      else if d !in w.drafts || w.drafts[d].survey != s || !w.drafts[d].status.Queued? then Step(w, Unchanged)
      else
        Step(w.(drafts := w.drafts[d := w.drafts[d].(status := DraftStatus.Running,
                                                     lease := Some(Lease(a, w.now + lease)))],
                attempts := w.attempts[a := w.attempts[a].(status := AttemptStatus.Running, started := true)]), Done)
  }

  function Sequence(c: Option<Checkpoint>): Option<nat> {
    if c.Some? then Some(c.value.sequence) else None
  }

  function ClaimJob(w: World, j: JobId, a: AttemptId, lease: int, timeout: int): Step {
    if !Claimable(w, a, FullWork, j) then Step(w, Unchanged)
    else
      var s := w.attempts[a].survey;
      if s !in w.surveys || s !in w.jobOf || w.jobOf[s] != j || j !in w.jobs then Step(w, Unchanged)
      else
        var job := w.jobs[j];
        if job.status.Finished? || (job.outcome.Some? && !job.status.Archiving?) then Step(w, Unchanged)
        else if job.lease.Some? && job.lease.value.expires > w.now then Step(w, Unchanged)
        else if job.status.Queued? && !w.surveys[s].status.Queued? then Step(w, Unchanged)
        else
          Step(w.(surveys := if job.status.Queued?
                             then w.surveys[s := w.surveys[s].(status := SurveyStatus.Running)] else w.surveys,
                  jobs := w.jobs[j := job.(
                            status := if job.status.Queued? then JobStatus.Running else job.status,
                            lease := Some(Lease(a, w.now + lease)),
                            deadline := if job.deadline.Some? then job.deadline else Some(w.now + timeout),
                            resumes := job.resumes + if job.checkpoint.Some? then 1 else 0)],
                  attempts := w.attempts[a := w.attempts[a].(
                                status := AttemptStatus.Running, started := true,
                                checkpoint := Sequence(job.checkpoint))]), Done)
  }

  function CommitsOf(h: History, birth: nat): seq<Commit> {
    Get(h.commits, birth, [])
  }

  function Position(c: Option<Checkpoint>): nat {
    if c.Some? then c.value.sequence else 0
  }

  /** Compare and set the checkpoint pointer, fenced by the job lease and by the attempt row. */
  function CommitCheckpoint(w: World, j: JobId, a: AttemptId, expected: nat, stage: nat, manifest: nat): Step {
    if !OwnsJob(w, j, a) || !(w.jobs[j].status.Running? || w.jobs[j].status.Archiving?)
       || Position(w.jobs[j].checkpoint) != expected
    then Step(w, Unchanged)
    else if a !in w.attempts || !w.attempts[a].status.Running? then Refuse(w, FenceFailed)
    else
      var job := w.jobs[j];
      var next := expected + 1;
      var birth := if job.survey in w.surveys then w.surveys[job.survey].birth else 0;
      Step(w.(jobs := w.jobs[j := job.(checkpoint := Some(Checkpoint(next, stage, manifest)))],
              attempts := w.attempts[a := w.attempts[a].(checkpoint := Some(next))],
              hist := w.hist.(commits := w.hist.commits[birth :=
                CommitsOf(w.hist, birth) + [Commit(next, a, w.attempts[a].number, stage, manifest)]])), Done)
  }

  /** Renew the attempt's lease on its own item; lost when the item is leased elsewhere. */
  function Heartbeat(w: World, a: AttemptId, lease: int): Step {
    if a !in w.attempts || !w.attempts[a].status.Running? then Step(w, Unchanged)
    else
      var at := w.attempts[a];
      match at.kind
      case DraftWork =>
        if !OwnsDraft(w, at.target, a) then Step(w, Unchanged)
        else
          var draft := w.drafts[at.target];
          Step(w.(drafts := w.drafts[at.target := draft.(lease := Some(Lease(a, w.now + lease)))]), Done)
      case FullWork =>
        if !OwnsJob(w, at.target, a)
           || !(w.jobs[at.target].status.Running? || w.jobs[at.target].status.Archiving?)
        then Step(w, Unchanged)
        else Step(w.(jobs := w.jobs[at.target := w.jobs[at.target].(lease := Some(Lease(a, w.now + lease)))]), Done)
  }

  predicate Stale(at: Attempt, version: int) {
    at.eventVersion.Some? && at.eventVersion.value >= version
  }

  /** Put the item `a` holds back in line, if `a` still holds it. */
  function Returned(w: World, a: AttemptId): World
    requires a in w.attempts
  {
    var at := w.attempts[a];
    match at.kind
    case FullWork =>
      if OwnsJob(w, at.target, a) then w.(jobs := w.jobs[at.target := w.jobs[at.target].(lease := None)]) else w
    case DraftWork =>
      if at.target in w.drafts && w.drafts[at.target].lease.Some? && w.drafts[at.target].lease.value.owner == a
      then w.(drafts := w.drafts[at.target := w.drafts[at.target].(status := DraftStatus.Queued, lease := None)])
      else w
  }

  predicate TargetSettled(w: World, at: Attempt) {
    match at.kind
    case DraftWork => at.target in w.drafts && !IsActiveDraft(w.drafts[at.target])
    case FullWork => at.target in w.jobs && w.jobs[at.target].status.Finished?
  }

  function AttemptSucceeded(w: World, a: AttemptId, version: int): Step {
    if a !in w.attempts then Refuse(w, DatabaseError)
    else if Stale(w.attempts[a], version) then Step(w, Unchanged)
    else
      var at := w.attempts[a].(eventVersion := Some(version));
      if TargetSettled(w, at) then
        Step(w.(attempts := w.attempts[a := at.(status := AttemptStatus.Succeeded)]), Done)
      else
        Step(Returned(w, a).(attempts := w.attempts[a := at.(status := AttemptStatus.Retryable)]), Done)
  }

  function AttemptStopped(w: World, a: AttemptId, version: int, retryable: bool): Step {
    if a !in w.attempts then Refuse(w, DatabaseError)
    else if Stale(w.attempts[a], version) then Step(w, Unchanged)
    else
      var at := w.attempts[a].(eventVersion := Some(version));
      if at.status.Succeeded? || at.status.Failed? || at.status.Cancelled? then
        Step(w.(attempts := w.attempts[a := at]), Done)
      else
        var status := if retryable then AttemptStatus.Retryable else AttemptStatus.Failed;
        Step(Dropped(w, a, retryable).(attempts := w.attempts[a := at.(status := status)]), Done)
  }

  /** What a stop event does to the item `a` holds: a job is freed, a Draft requeued or failed. */
  function Dropped(w: World, a: AttemptId, retryable: bool): World
    requires a in w.attempts
  {
    var at := w.attempts[a];
    match at.kind
    case FullWork =>
      if OwnsJob(w, at.target, a) && (w.jobs[at.target].status.Running? || w.jobs[at.target].status.Archiving?)
      then w.(jobs := w.jobs[at.target := w.jobs[at.target].(lease := None)]) else w
    case DraftWork =>
      if OwnsDraft(w, at.target, a)
      then w.(drafts := w.drafts[at.target := w.drafts[at.target].(
             status := if retryable then DraftStatus.Queued else DraftStatus.Failed, lease := None)])
      else w
  }

  function Tick(w: World, elapsed: nat): Step {
    Step(w.(now := w.now + elapsed), Done)
  }
}
