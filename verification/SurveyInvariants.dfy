/**
 What every reachable state of the Survey tables satisfies, one predicate per concern.  Each
 predicate reads only the tables it is about, so a transaction that leaves those tables alone
 keeps it for free.
 */
module SurveyInvariants {
  import opened Wrappers
  import opened SurveyModel

  /** `jobOf` is the inverse of the jobs' Survey column: at most one job per Survey. */
  ghost predicate Indexed(surveys: map<SurveyId, Survey>, jobOf: map<SurveyId, JobId>, jobs: map<JobId, Job>) {
    && (forall s :: s in jobOf ==> s in surveys && jobOf[s] in jobs && jobs[jobOf[s]].survey == s)
    && (forall j :: j in jobs ==> jobs[j].survey in jobOf && jobOf[jobs[j].survey] == j)
  }

  predicate InProgress(status: SurveyStatus) {
    status.Drafting? || status.Queued? || status.Running?
  }

  /** The Survey's status and its job's status tell the same story. */
  predicate Agrees(s: Survey, job: Option<Job>) {
    match s.status
    case Drafting => job.None?
    case Queued => job.Some? && job.value.status.Queued?
    case Running => job.Some? && job.value.status.Running?
    case Archiving => job.Some? && job.value.status.Archiving?
    case Succeeded => job.Some? && job.value.status.Finished? && job.value.outcome == Some(Outcome.Succeeded)
    case Failed => job.Some? && job.value.status.Finished? && job.value.outcome == Some(Outcome.Failed)
    case Cancelled =>
      job.Some? ==> job.value.status.Finished? && job.value.outcome == Some(Outcome.Cancelled)
  }

  predicate JobSound(s: Survey, job: Job) {
    && (job.outcome.None? <==> job.status.Queued? || job.status.Running?)
    && (job.lease.Some? ==> job.status.Running? || job.status.Archiving?)
    && (job.status.Running? ==> job.deadline.Some?)
    && (job.status.Finished? ==> job.storage.Some? && job.manifest.Some?)
    && (job.status.Queued? ==>
          !job.cancelRequested && job.checkpoint.None? && job.lease.None? && job.deadline.None?)
    && (job.cancelRequested ==>
          && !s.quota.Consumed?
          && (s.error.None? || s.error == Some(WorkspaceMissing))
          && job.outcome != Some(Outcome.Succeeded)
          && (job.outcome == Some(Outcome.Failed) ==> s.error == Some(WorkspaceMissing)))
    && (s.quota.Consumed? ==> job.outcome == Some(Outcome.Succeeded) || job.outcome == Some(Outcome.Failed))
  }

  predicate SurveySound(s: Survey, job: Option<Job>) {
    && (s.quota.Reserved? <==> InProgress(s.status))
    && (s.quota.Reserved? ==> s.error.None?)
    && (s.status.Cancelled? ==> s.quota.Released?)
    && Agrees(s, job)
    && (job.Some? ==> JobSound(s, job.value))
  }

  ghost predicate Lockstep(surveys: map<SurveyId, Survey>, jobOf: map<SurveyId, JobId>, jobs: map<JobId, Job>) {
    forall s :: s in surveys ==> SurveySound(surveys[s], JobRow(jobOf, jobs, s))
  }

  /** The usage row of a key counts exactly the live reservations and the charges ever made. */
  ghost predicate Counts(row: Usage, surveys: map<SurveyId, Survey>, h: History, key: Key) {
    && row.reserved == |Reservations(surveys, key)|
    && row.succeeded == ChargesTo(h.charges, key)
    && row.reserved + row.succeeded <= Get(h.ceilings, key, 0) + Get(h.recoveries, key, 0)
  }

  ghost predicate QuotaExact(usage: map<Key, Usage>, surveys: map<SurveyId, Survey>, h: History) {
    && (forall s :: s in surveys ==> KeyOf(surveys[s]) in usage)
    && (forall i :: 0 <= i < |h.charges| ==> h.charges[i].key in usage)
    && (forall k :: k in usage ==> Counts(usage[k], surveys, h, k))
    && (forall k :: k in h.ceilings ==> h.ceilings[k] >= 0)
  }

  /** A charge belongs to one create call, and a live Survey is consumed exactly when charged. */
  ghost predicate ChargedOnce(surveys: map<SurveyId, Survey>, h: History) {
    && (forall s :: s in surveys ==> surveys[s].birth < h.births)
    && (forall s, t :: s in surveys && t in surveys && surveys[s].birth == surveys[t].birth ==> s == t)
    && (forall i :: 0 <= i < |h.charges| ==> h.charges[i].birth < h.births)
    && (forall i, k :: 0 <= i < k < |h.charges| ==> h.charges[i].birth != h.charges[k].birth)
    && (forall s :: s in surveys ==> (surveys[s].quota.Consumed? <==> Charged(h.charges, surveys[s].birth)))
  }

  /** An accepted cancellation stays on the job, and its Survey is never charged. */
  ghost predicate CancelsStick(surveys: map<SurveyId, Survey>, jobOf: map<SurveyId, JobId>,
                               jobs: map<JobId, Job>, h: History) {
    && (forall b :: b in h.cancels ==> b < h.births)
    && (forall i :: 0 <= i < |h.charges| ==> h.charges[i].birth !in h.cancels)
    && (forall s :: s in surveys ==>
          (surveys[s].birth in h.cancels <==>
             JobRow(jobOf, jobs, s).Some? && JobRow(jobOf, jobs, s).value.cancelRequested))
  }

  predicate Link(d: Draft, n: nat) {
    d.revision.Some? && 1 <= d.revision.value <= n
    && d.basedOn == (if d.revision.value == 1 then None else Some(d.revision.value - 1))
  }

  ghost predicate Linked(drafts: map<DraftId, Draft>, ready: set<DraftId>) {
    forall d :: d in ready ==> d in drafts && Link(drafts[d], |ready|)
  }

  ghost predicate Distinct(drafts: map<DraftId, Draft>, ready: set<DraftId>) {
    forall d, e | d in ready && e in ready && d in drafts && e in drafts && drafts[d].revision == drafts[e].revision
      :: d == e
  }

  ghost predicate Topped(drafts: map<DraftId, Draft>, ready: set<DraftId>) {
    |ready| > 0 ==> exists d :: d in ready && d in drafts && drafts[d].revision == Some(|ready|)
  }

  /** Ready revisions are numbered 1..n without repeats, each based on the one before. */
  ghost predicate Chain(drafts: map<DraftId, Draft>, s: SurveyId) {
    var ready := ReadyOf(drafts, s);
    |ready| <= 10 && Linked(drafts, ready) && Distinct(drafts, ready) && Topped(drafts, ready)
  }

  predicate DraftSound(d: Draft) {
    && (d.status.Ready? <==> d.revision.Some?)
    && (d.status.Ready? <==> d.markdown.Some?)
    && (d.lease.Some? <==> d.status.Running?)
  }

  /** An active Draft belongs to a drafting Survey, builds on its newest revision, and has room to become ready. */
  predicate ActiveSound(surveys: map<SurveyId, Survey>, drafts: map<DraftId, Draft>, d: Draft) {
    IsActiveDraft(d) ==>
      && d.survey in surveys && surveys[d.survey].status.Drafting?
      && d.basedOn == Top(drafts, d.survey) && |ReadyOf(drafts, d.survey)| < 10
  }

  ghost predicate OneActive(drafts: map<DraftId, Draft>) {
    forall d, e | d in drafts && e in drafts && IsActiveDraft(drafts[d]) && IsActiveDraft(drafts[e])
                  && drafts[d].survey == drafts[e].survey :: d == e
  }

  ghost predicate DraftChain(surveys: map<SurveyId, Survey>, drafts: map<DraftId, Draft>) {
    && (forall d :: d in drafts ==> DraftSound(drafts[d]) && drafts[d].survey in surveys)
    && (forall s :: s in surveys ==> Chain(drafts, s))
    && (forall d :: d in drafts ==> ActiveSound(surveys, drafts, drafts[d]))
    && OneActive(drafts)
  }

  function Top(drafts: map<DraftId, Draft>, s: SurveyId): Option<nat> {
    if ReadyOf(drafts, s) == {} then None else Some(|ReadyOf(drafts, s)|)
  }

  /** A job runs the newest ready Draft of its own Survey, and that Draft stays the newest. */
  ghost predicate Approved(jobs: map<JobId, Job>, drafts: map<DraftId, Draft>) {
    forall j :: j in jobs ==>
      && IsReady(drafts, jobs[j].survey, jobs[j].approved)
      && drafts[jobs[j].approved].revision.value == |ReadyOf(drafts, jobs[j].survey)|
  }

  predicate Holds(attempts: map<AttemptId, Attempt>, a: AttemptId, kind: WorkKind, target: nat) {
    a in attempts && attempts[a].status.Running? && attempts[a].kind == kind && attempts[a].target == target
  }

  /** A lease is always owned by a running attempt reserved for exactly that item. */
  ghost predicate Leased(jobs: map<JobId, Job>, drafts: map<DraftId, Draft>, attempts: map<AttemptId, Attempt>) {
    && (forall j :: j in jobs && jobs[j].lease.Some? ==> Holds(attempts, jobs[j].lease.value.owner, FullWork, j))
    && (forall d :: d in drafts && drafts[d].lease.Some? ==> Holds(attempts, drafts[d].lease.value.owner, DraftWork, d))
  }

  predicate Targets(jobs: map<JobId, Job>, drafts: map<DraftId, Draft>, at: Attempt) {
    match at.kind
    case FullWork => at.target in jobs && jobs[at.target].survey == at.survey
    case DraftWork => at.target in drafts && drafts[at.target].survey == at.survey
  }

  ghost predicate Targeted(jobs: map<JobId, Job>, drafts: map<DraftId, Draft>, attempts: map<AttemptId, Attempt>) {
    forall a :: a in attempts ==> Targets(jobs, drafts, attempts[a])
  }

  predicate Same(x: Attempt, y: Attempt) {
    x.kind == y.kind && x.target == y.target
  }

  /** Attempts on one item are numbered 1..n; only the newest can be active. */
  ghost predicate Numbered(attempts: map<AttemptId, Attempt>) {
    && (forall a :: a in attempts ==>
          var n := |AttemptsOn(attempts, attempts[a].kind, attempts[a].target)|;
          && 1 <= attempts[a].number <= n
          && (Active(attempts[a]) ==> attempts[a].number == n)
          && (attempts[a].status.Running? ==> attempts[a].started))
    && (forall a, b | a in attempts && b in attempts && Same(attempts[a], attempts[b])
                      && attempts[a].number == attempts[b].number :: a == b)
  }

  function Budget(limits: Limits, kind: WorkKind): nat {
    if kind.FullWork? then limits.maxCompute + 8 else limits.maxCompute
  }

  ghost predicate Budgeted(attempts: map<AttemptId, Attempt>, limits: Limits) {
    forall kind, target :: |SpentOn(attempts, kind, target)| <= Budget(limits, kind)
  }

  ghost predicate Capped(surveys: map<SurveyId, Survey>, attempts: map<AttemptId, Attempt>, limits: Limits) {
    && (forall kind :: |ActiveOfKind(attempts, kind)| <= limits.Global(kind))
    && (forall kind, user :: |ActiveOfUser(surveys, attempts, kind, user)| <= limits.PerUser(kind))
  }

  /** The committed checkpoints of one execution form a single line. */
  predicate Linear(cs: seq<Commit>) {
    && (forall i :: 0 <= i < |cs| ==> cs[i].sequence == i + 1)
    && (forall i, k :: 0 <= i < k < |cs| ==> cs[i].number <= cs[k].number)
  }

  predicate PointsAt(c: Option<Checkpoint>, cs: seq<Commit>) {
    match c
    case None => cs == []
    case Some(p) => |cs| > 0 && p.sequence == |cs| && p.stage == cs[|cs| - 1].stage
                    && p.manifest == cs[|cs| - 1].manifest
  }

  /** The job stands at the end of the line, and no commit comes from an attempt past the newest. */
  predicate Positioned(c: Option<Checkpoint>, cs: seq<Commit>, newest: nat) {
    && Linear(cs) && PointsAt(c, cs)
    && (forall i :: 0 <= i < |cs| ==> cs[i].number <= newest)
  }

  ghost predicate Checkpointed(surveys: map<SurveyId, Survey>, jobOf: map<SurveyId, JobId>, jobs: map<JobId, Job>,
                               attempts: map<AttemptId, Attempt>, h: History) {
    && (forall b :: b in h.commits ==> b < h.births)
    && (forall s :: s in surveys && s !in jobOf ==> Get(h.commits, surveys[s].birth, []) == [])
    && (forall s :: s in surveys && s in jobOf && jobOf[s] in jobs ==>
          Positioned(jobs[jobOf[s]].checkpoint, Get(h.commits, surveys[s].birth, []),
                     |AttemptsOn(attempts, FullWork, jobOf[s])|))
  }

  ghost predicate Announced(surveys: map<SurveyId, Survey>, notices: map<SurveyId, Notice>) {
    forall s :: s in notices ==>
      && s in surveys
      && ((surveys[s].status.Succeeded? && notices[s].outcome.Succeeded?)
          || (surveys[s].status.Failed? && notices[s].outcome.Failed?))
  }

  ghost predicate Inv(w: World, limits: Limits) {
    && Indexed(w.surveys, w.jobOf, w.jobs)
    && Lockstep(w.surveys, w.jobOf, w.jobs)
    && QuotaExact(w.usage, w.surveys, w.hist)
    && ChargedOnce(w.surveys, w.hist)
    && CancelsStick(w.surveys, w.jobOf, w.jobs, w.hist)
    && DraftChain(w.surveys, w.drafts)
    && Approved(w.jobs, w.drafts)
    && Leased(w.jobs, w.drafts, w.attempts)
    && Targeted(w.jobs, w.drafts, w.attempts)
    && Numbered(w.attempts)
    && Budgeted(w.attempts, limits)
    && Capped(w.surveys, w.attempts, limits)
    && Checkpointed(w.surveys, w.jobOf, w.jobs, w.attempts, w.hist)
    && Announced(w.surveys, w.notices)
  }
}
