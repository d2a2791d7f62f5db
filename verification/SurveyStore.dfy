/**
 The Survey tables as the transactions see them: rows are read, checked and rewritten one after
 another, and an exception undoes what was written.  Every method is proved to leave exactly the
 tables its transition function describes, and to keep the invariants.
 */
module SurveyStore {
  import opened Wrappers
  import opened SurveyModel
  import opened SurveyTransitions
  import opened SurveyInvariants
  import opened SurveySteps
  import opened SurveyKeeps
  import opened SurveyWithdraw
  import opened SurveyArchive
  import opened SurveyCompute
  import opened SurveyFairness
  import opened SurveyPending
  import opened SurveyReserving
  import opened SurveyGuarantees
  import opened FairQueue

  /** The day's usage row exists from the first create on. */
  function Opened(w: World, key: Key): World {
    w.(usage := w.usage[key := Get(w.usage, key, Usage(0, 0))])
  }

  function Admitted(w: World, s: SurveyId, d: DraftId, user: UserId, request: RequestId, hash: Hash,
                    key: Key, limit: int): Step
    requires key in w.usage
  {
    var row := w.usage[key];
    if row.reserved + row.succeeded >= limit then Refuse(w, QuotaExceeded)
    else if s in w.surveys || d in w.drafts then Refuse(w, DatabaseError)
    else Step(w.(usage := w.usage[key := row.(reserved := row.reserved + 1)],
                 surveys := w.surveys[s := Survey(user, request, hash, SurveyStatus.Drafting, key.day,
                                                  QuotaState.Reserved, None, false, w.hist.births)],
                 drafts := w.drafts[d := NewDraft(w, s, request, hash, None)],
                 hist := w.hist.(births := w.hist.births + 1,
                                 ceilings := w.hist.ceilings[key := Max(Get(w.hist.ceilings, key, 0), limit)])), Done)
  }

  lemma AdmittedOrNot(w: World, s: SurveyId, d: DraftId, user: UserId, request: RequestId, hash: Hash,
                      key: Key, limit: int)
    requires key in w.usage
    ensures var step := Admitted(w, s, d, user, request, hash, key, limit);
            step.reply.Refused? ==> step.next == w
  {
  }

  /** Creating is opening the usage row, answering repeats, and admitting; a refusal closes the row again. */
  lemma CreateInTwo(w: World, s: SurveyId, d: DraftId, user: UserId, request: RequestId, hash: Hash,
                    day: Day, override: Option<int>, dailyLimit: int)
    ensures var hits := RequestedSurveys(w.surveys, user, request);
            var open := Opened(w, Key(user, day));
            var step := Admitted(open, s, d, user, request, hash, Key(user, day), EffectiveLimit(override, dailyLimit));
            Create(w, s, d, user, request, hash, day, override, dailyLimit)
            == if hits != {} then
                 if SameSurveyHash(w.surveys, hits, hash) then Step(open, Unchanged) else Refuse(w, IdempotencyConflict)
               else if step.reply.Refused? then Step(w, step.reply) else step
  {
    hide RequestedSurveys, SameSurveyHash;
  }

  /** An execution that has ended, with its quota settled as `usage`, waiting to be archived. */
  function Archived(w: World, usage: map<Key, Usage>, j: JobId, outcome: Outcome, reported: Option<ErrorCode>,
                    charge: bool): World
    requires j in w.jobs && w.jobs[j].survey in w.surveys
  {
    var s := w.jobs[j].survey;
    w.(usage := usage,
       surveys := w.surveys[s := w.surveys[s].(status := SurveyStatus.Archiving, error := reported,
                                               quota := if charge then QuotaState.Consumed else QuotaState.Released)],
       jobs := w.jobs[j := w.jobs[j].(status := JobStatus.Archiving, outcome := Some(outcome), error := reported,
                                      nextArchive := Some(w.now))],
       hist := Bill(w.hist, w.surveys[s], charge))
  }

  /** A checkpoint whose compare-and-set has gone through, with the fence on the attempt row still to come. */
  function Advanced(w: World, j: JobId, a: AttemptId, next: nat, stage: nat, manifest: nat): Step
    requires j in w.jobs
  {
    if a !in w.attempts || !w.attempts[a].status.Running? then Refuse(w, FenceFailed)
    else
      var birth := if w.jobs[j].survey in w.surveys then w.surveys[w.jobs[j].survey].birth else 0;
      Step(w.(jobs := w.jobs[j := w.jobs[j].(checkpoint := Some(Checkpoint(next, stage, manifest)))],
              attempts := w.attempts[a := w.attempts[a].(checkpoint := Some(next))],
              hist := w.hist.(commits := w.hist.commits[birth :=
                CommitsOf(w.hist, birth) + [Commit(next, a, w.attempts[a].number, stage, manifest)]])), Done)
  }

  lemma CommitInTwo(w: World, j: JobId, a: AttemptId, expected: nat, stage: nat, manifest: nat)
    ensures CommitCheckpoint(w, j, a, expected, stage, manifest)
         == if j !in w.jobs || w.jobs[j].lease.None? || w.jobs[j].lease.value.owner != a
               || !(w.jobs[j].status.Running? || w.jobs[j].status.Archiving?)
               || Position(w.jobs[j].checkpoint) != expected
            then Step(w, Unchanged)
            else Advanced(w, j, a, expected + 1, stage, manifest)
  {
    hide CommitsOf;
  }

  class Store {
    const limits: Limits
    var now: Time
    var usage: map<Key, Usage>
    var surveys: map<SurveyId, Survey>
    var jobOf: map<SurveyId, JobId>
    var jobs: map<JobId, Job>
    var drafts: map<DraftId, Draft>
    var attempts: map<AttemptId, Attempt>
    var notices: map<SurveyId, Notice>
    var line: multiset<Ticket>                 // reserving transactions that wait for a capacity lock
    var passes: map<WorkKind, seq<Candidate>>  // those that hold one, with what is left of their work lists
    var hist: History  // what has happened so far; the transactions add to it and never consult it

    function State(): World
      reads this
    {
      World(now, usage, surveys, jobOf, jobs, drafts, attempts, notices, line, passes, hist)
    }

    /** The tables as a transaction with this clock sees them. */
    function At(clock: Time): World
      reads this
    {
      State().(now := clock)
    }

    ghost predicate Valid()
      reads this
    {
      Inv(State(), limits)
    }

    constructor (limits: Limits)
      ensures State() == EMPTY && Valid() && this.limits == limits
    {
      this.limits := limits;
      now := 0;
      usage, surveys, jobOf, jobs, drafts, attempts, notices := map[], map[], map[], map[], map[], map[], map[];
      line, passes := multiset{}, map[];
      hist := EMPTY_HISTORY;
      new;
      EmptyKeeps(limits);
    }

    // ---------- creating a Survey ----------

    method CreateSurvey(s: SurveyId, d: DraftId, user: UserId, request: RequestId, hash: Hash, day: Day,
                        override: Option<int>, dailyLimit: int) returns (reply: Reply)
      modifies this
      ensures Step(State(), reply) == Create(old(State()), s, d, user, request, hash, day, override, dailyLimit)
      ensures old(Valid()) ==> Valid()
    {
      hide Inv, RequestedSurveys, SameSurveyHash, Create, Admitted;
      ghost var w := State();
      if Valid() {
        CreateKeeps(w, limits, s, d, user, request, hash, day, override, dailyLimit);
      }
      CreateInTwo(w, s, d, user, request, hash, day, override, dailyLimit);
      var saved := usage;
      var key := Key(user, day);
      usage := usage[key := Get(usage, key, Usage(0, 0))];
      var existing := RequestedSurveys(surveys, user, request);
      if existing == {} {
        reply := Admit(s, d, user, request, hash, key, EffectiveLimit(override, dailyLimit));
        AdmittedOrNot(Opened(w, key), s, d, user, request, hash, key, EffectiveLimit(override, dailyLimit));
      } else if SameSurveyHash(surveys, existing, hash) {
        reply := Unchanged;
      } else {
        reply := Refused(IdempotencyConflict);
      }
      if reply.Refused? {
        usage := saved;
      }
    }

    /** Reserve one of the day's Surveys and insert the Survey with its first Draft. */
    method Admit(s: SurveyId, d: DraftId, user: UserId, request: RequestId, hash: Hash, key: Key, limit: int)
      returns (reply: Reply)
      requires key in usage
      modifies this
      ensures Step(State(), reply) == Admitted(old(State()), s, d, user, request, hash, key, limit)
    {
      var row := usage[key];
      if row.reserved + row.succeeded >= limit {
        return Refused(QuotaExceeded);
      }
      if s in surveys || d in drafts {
        return Refused(DatabaseError);
      }
      usage := usage[key := row.(reserved := row.reserved + 1)];
      surveys := surveys[s := Survey(user, request, hash, SurveyStatus.Drafting, key.day, QuotaState.Reserved, None,
                                     false, hist.births)];
      drafts := drafts[d := Draft(s, request, hash, None, None, None, DraftStatus.Queued, None, now)];
      hist := hist.(births := hist.births + 1,
                    ceilings := hist.ceilings[key := Max(Get(hist.ceilings, key, 0), limit)]);
      return Done;
    }

    // ---------- Drafts ----------

    /** The highest revision among the ready Drafts of `s`. */
    method LatestReady(s: SurveyId) returns (latest: Option<nat>)
      ensures latest == LatestRevision(drafts, s)
    {
      var newest := NewestDraft(s);
      return if newest.Some? then drafts[newest.value].revision else None;
    }

    method RequestGeneratedDraft(s: SurveyId, user: UserId, d: DraftId, request: RequestId, hash: Hash)
      returns (reply: Reply)
      modifies this
      ensures Step(State(), reply) == RequestDraft(old(State()), s, user, d, request, hash)
      ensures old(Valid()) ==> Valid()
    {
      hide Inv, RequestedDrafts, SameDraftHash, LatestRevision, HasActiveDraft;
      ghost var w := State();
      if Valid() {
        RequestDraftKeeps(w, limits, s, user, d, request, hash);
      }
      if s !in surveys || surveys[s].user != user {
        return Refused(NotFound);
      }
      var existing := RequestedDrafts(drafts, s, request);
      if existing != {} {
        return if SameDraftHash(drafts, existing, hash) then Unchanged else Refused(IdempotencyConflict);
      }
      if !surveys[s].status.Drafting? {
        return Refused(AlreadyStarted);
      }
      if HasActiveDraft(drafts, s) {
        return Refused(DraftInProgress);
      }
      var latest := LatestReady(s);
      if latest.Some? && latest.value >= 10 {
        return Refused(Refusal.DraftLimit);
      }
      if d in drafts {
        return Refused(DatabaseError);
      }
      drafts := drafts[d := Draft(s, request, hash, None, latest, None, DraftStatus.Queued, None, now)];
      return Done;
    }

    method CreateManualDraft(s: SurveyId, user: UserId, d: DraftId, request: RequestId, hash: Hash, markdown: string)
      returns (reply: Reply)
      modifies this
      ensures Step(State(), reply) == ManualDraft(old(State()), s, user, d, request, hash, markdown)
      ensures old(Valid()) ==> Valid()
    {
      hide Inv, RequestedDrafts, SameDraftHash, LatestRevision, HasActiveDraft;
      ghost var w := State();
      if Valid() {
        ManualDraftKeeps(w, limits, s, user, d, request, hash, markdown);
      }
      if s !in surveys || surveys[s].user != user {
        return Refused(NotFound);
      }
      var existing := RequestedDrafts(drafts, s, request);
      if existing != {} {
        return if SameDraftHash(drafts, existing, hash) then Unchanged else Refused(IdempotencyConflict);
      }
      if !surveys[s].status.Drafting? {
        return Refused(AlreadyStarted);
      }
      if HasActiveDraft(drafts, s) {
        return Refused(DraftInProgress);
      }
      var latest := LatestReady(s);
      var revision := if latest.None? then 1 else latest.value + 1;
      if revision > 10 {
        return Refused(Refusal.DraftLimit);
      }
      if d in drafts {
        return Refused(DatabaseError);
      }
      drafts := drafts[d := Draft(s, request, hash, Some(revision), latest, Some(markdown), DraftStatus.Ready, None,
                                  now)];
      return Done;
    }

    method CompleteSurveyDraft(d: DraftId, worker: AttemptId, markdown: string) returns (reply: Reply)
      modifies this
      ensures Step(State(), reply) == CompleteDraft(old(State()), d, worker, markdown)
      ensures old(Valid()) ==> Valid()
    {
      hide Inv, LatestRevision;
      ghost var w := State();
      if Valid() {
        CompleteDraftKeeps(w, limits, d, worker, markdown);
      }
      if d !in drafts || !drafts[d].status.Running? || drafts[d].lease.None? || drafts[d].lease.value.owner != worker {
        return Refused(LeaseLost);
      }
      var s := drafts[d].survey;
      if s !in surveys || !surveys[s].status.Drafting? {
        return Refused(LeaseLost);
      }
      var latest := LatestReady(s);
      if drafts[d].basedOn != latest {
        return Refused(Superseded);
      }
      var revision := if latest.None? then 1 else latest.value + 1;
      if revision > 10 {
        return Refused(Refusal.DraftLimit);
      }
      drafts := drafts[d := drafts[d].(status := DraftStatus.Ready, revision := Some(revision),
                                       markdown := Some(markdown), lease := None)];
      return Done;
    }

    method FailSurveyDraft(d: DraftId, worker: AttemptId) returns (reply: Reply)
      modifies this
      ensures Step(State(), reply) == FailDraft(old(State()), d, worker)
      ensures old(Valid()) ==> Valid()
    {
      hide Inv;
      ghost var w := State();
      if Valid() {
        FailDraftKeeps(w, limits, d, worker);
      }
      if d !in drafts || drafts[d].survey !in surveys
         || !drafts[d].status.Running? || drafts[d].lease.None? || drafts[d].lease.value.owner != worker {
        return Refused(LeaseLost);
      }
      drafts := drafts[d := drafts[d].(status := DraftStatus.Failed, lease := None)];
      return Done;
    }

    // ---------- the Survey and its one job ----------

    method StartSurvey(s: SurveyId, user: UserId, j: JobId, request: RequestId, hash: Hash, notify: bool)
      returns (reply: Reply)
      requires Valid()
      modifies this
      ensures Step(State(), reply) == Start(old(State()), s, user, j, request, hash, notify)
      ensures Valid()
    {
      hide Inv, IsLatest, HasActiveDraft, LatestRevision;
      ghost var w := State();
      StartKeeps(w, limits, s, user, j, request, hash, notify);
      if s !in surveys || surveys[s].user != user {
        return Refused(NotFound);
      }
      var existing := JobRow(jobOf, jobs, s);
      if existing.Some? {
        if existing.value.request != request {
          return Refused(AlreadyStarted);
        }
        return if existing.value.hash == hash then Unchanged else Refused(IdempotencyConflict);
      }
      if !surveys[s].status.Drafting? || !surveys[s].quota.Reserved? {
        return Refused(AlreadyStarted);
      }
      if HasActiveDraft(drafts, s) {
        return Refused(DraftInProgress);
      }
      var newest := NewestDraft(s);
      if newest.None? {
        return Refused(NoReadyDraft);
      }
      if j in jobs {
        return Refused(DatabaseError);
      }
      OnlyLatest(w, limits, s, newest.value);
      jobOf := jobOf[s := j];
      jobs := jobs[j := Job(s, newest.value, request, hash, JobStatus.Queued, None, None, None, false, 0, None, now,
                            None, None, 0, None, None)];
      surveys := surveys[s := surveys[s].(status := SurveyStatus.Queued, notify := notify)];
      return Done;
    }

    /** The ready Draft of `s` with the highest revision. */
    method NewestDraft(s: SurveyId) returns (newest: Option<DraftId>)
      ensures newest.Some? ==> IsLatest(drafts, s, newest.value)
      ensures newest.None? ==> forall e :: !IsLatest(drafts, s, e)
    {
      newest := None;
      var left := drafts.Keys;
      while left != {}
        invariant left <= drafts.Keys
        invariant newest.Some? ==> IsReady(drafts, s, newest.value)
        invariant forall e :: e in drafts.Keys - left && IsReady(drafts, s, e) ==>
                    newest.Some? && drafts[e].revision.value <= drafts[newest.value].revision.value
        decreases left
      {
        var d :| d in left;
        if drafts[d].survey == s && drafts[d].status.Ready? && drafts[d].revision.Some?
           && (newest.None? || drafts[d].revision.value > drafts[newest.value].revision.value) {
          newest := Some(d);
        }
        left := left - {d};
      }
    }

    /** Deleting a job row takes its compute attempts along. */
    method DeleteJob(s: SurveyId)
      modifies this
      ensures State() == WithoutJob(old(State()), s)
    {
      if s in jobOf {
        var j := jobOf[s];
        attempts := map a | a in attempts && !(attempts[a].kind.FullWork? && attempts[a].target == j) :: attempts[a];
        jobs := jobs - {j};
        jobOf := jobOf - {s};
      }
    }

    /** Give one reservation of `key` back; false when there is none. */
    method Release(key: Key, charge: bool) returns (released: bool)
      modifies this`usage
      ensures released <==> Settled(old(usage), key, charge).Some?
      ensures usage == if released then Settled(old(usage), key, charge).value else old(usage)
    {
      released := key in usage && usage[key].reserved > 0;
      if released {
        usage := usage[key := Usage(usage[key].reserved - 1, usage[key].succeeded + if charge then 1 else 0)];
      }
    }

    method CancelSurvey(s: SurveyId, user: UserId) returns (reply: Reply)
      modifies this
      ensures Step(State(), reply) == Cancel(old(State()), s, user)
      ensures old(Valid()) ==> Valid()
    {
      hide Inv, WithoutJob, Settled, Withdraw;
      ghost var w := State();
      if Valid() {
        CancelKeeps(w, limits, s, user);
      }
      if s !in surveys || surveys[s].user != user {
        return Refused(NotFound);
      }
      var survey := surveys[s];
      if survey.status.Succeeded? || survey.status.Failed? || survey.status.Cancelled? {
        return Unchanged;
      }
      var job := JobRow(jobOf, jobs, s);
      if survey.status.Running? {
        if job.None? || !job.value.status.Running? {
          return Refused(NotCancellable);
        }
        jobs := jobs[jobOf[s] := job.value.(cancelRequested := true)];
        hist := hist.(cancels := hist.cancels + {survey.birth});
        return Done;
      }
      if survey.status.Archiving? || (survey.status.Queued? && (job.None? || !job.value.status.Queued?)) {
        return Refused(NotCancellable);
      }
      reply := WithdrawSurvey(s);
    }

    /** Take a Survey that has not begun out of the queue and give its reservation back. */
    method WithdrawSurvey(s: SurveyId) returns (reply: Reply)
      requires s in surveys
      modifies this
      ensures Step(State(), reply) == Withdraw(old(State()), s)
    {
      hide CancelledDrafts, Settled, WithoutJob;
      ghost var w := State();
      var survey := surveys[s];
      var saved := State();
      OnlyJobs(w, s);
      if survey.status.Queued? {
        DeleteJob(s);
      }
      drafts := CancelledDrafts(drafts, s);
      var released := Release(KeyOf(survey), false);
      if released {
        surveys := surveys[s := survey.(status := SurveyStatus.Cancelled, quota := QuotaState.Released)];
        reply := Done;
      } else {
        Restore(saved);
        reply := Refused(ReservationGone);
      }
    }

    /** What a rolled-back transaction leaves. */
    method Restore(saved: World)
      modifies this
      ensures State() == saved
    {
      now, usage, surveys, jobOf, jobs := saved.now, saved.usage, saved.surveys, saved.jobOf, saved.jobs;
      drafts, attempts, notices := saved.drafts, saved.attempts, saved.notices;
      line, passes, hist := saved.line, saved.passes, saved.hist;
    }

    /** The checks before a Survey is deleted: why it is refused, or whether it gives a reservation back. */
    method DeletionCheck(s: SurveyId, user: UserId) returns (refusal: Option<Refusal>, gives: bool)
      ensures refusal.Some? ==> Delete(State(), s, user) == Refuse(State(), refusal.value)
      ensures refusal.None? ==>
                && s in surveys
                && Delete(State(), s, user)
                   == if !gives then Step(Erased(State(), s), Done)
                      else match Settled(usage, KeyOf(surveys[s]), false)
                        case None => Refuse(State(), ReservationGone)
                        case Some(left) => Step(Erased(State(), s).(usage := left), Done)
    {
      hide Settled, Erased;
      if s !in surveys || surveys[s].user != user {
        return Some(NotFound), false;
      }
      var survey := surveys[s];
      var job := JobRow(jobOf, jobs, s);
      if survey.status.Running? || survey.status.Archiving? {
        return Some(DeleteInProgress), false;
      }
      var early := survey.status.Drafting? || survey.status.Queued?;
      if early && job.Some? && !job.value.status.Queued? {
        return Some(DeleteInProgress), false;
      }
      return None, early && survey.quota.Reserved?;
    }

    method DeleteSurvey(s: SurveyId, user: UserId) returns (reply: Reply)
      modifies `usage, `notices, `attempts, `drafts, `jobs, `jobOf, `surveys
      ensures Step(State(), reply) == Delete(old(State()), s, user)
      ensures old(Valid()) ==> Valid()
    {
      hide Inv, Settled, Erased, Delete;
      ghost var w := State();
      if Valid() {
        DeleteKeeps(w, limits, s, user);
      }
      var refusal, gives := DeletionCheck(s, user);
      if refusal.Some? {
        return Refused(refusal.value);
      }
      if gives {
        var released := Release(KeyOf(surveys[s]), false);
        if !released {
          return Refused(ReservationGone);
        }
        ErasedElsewhere(w, s);
      }
      Erase(s);
      return Done;
    }

    /** Deleting a Survey row cascades to its job, Drafts, attempts and mail. */
    method Erase(s: SurveyId)
      modifies `notices, `attempts, `drafts, `jobs, `jobOf, `surveys
      ensures State() == Erased(old(State()), s)
    {
      var heldAttempts, heldDrafts, heldJobs := attempts, drafts, jobs;
      notices := notices - {s};
      attempts := map a | a in heldAttempts && heldAttempts[a].survey != s :: heldAttempts[a];
      drafts := map d | d in heldDrafts && heldDrafts[d].survey != s :: heldDrafts[d];
      jobs := map j | j in heldJobs && heldJobs[j].survey != s :: heldJobs[j];
      jobOf := jobOf - {s};
      surveys := surveys - {s};
    }

    // ---------- ending, archiving and repairing an execution ----------

    method SettleExecution(j: JobId, worker: AttemptId, outcome: Outcome, error: Option<ErrorCode>, chargeable: bool)
      returns (reply: Reply)
      modifies `usage, `surveys, `jobs, `hist
      ensures Step(State(), reply) == Settle(old(State()), j, worker, outcome, error, chargeable)
      ensures old(Valid()) ==> Valid()
    {
      hide Inv, Settled, Settle;
      ghost var w := State();
      if Valid() {
        SettleKeeps(w, limits, j, worker, outcome, error, chargeable);
      }
      var stop := SettleStops(j, worker, outcome, error, chargeable);
      if stop.Some? {
        return stop.value;
      }
      var effective := if jobs[j].cancelRequested then Outcome.Cancelled else outcome;
      var charge := effective.Succeeded? && chargeable;
      var released := Release(KeyOf(surveys[jobs[j].survey]), charge);
      if !released {
        return Refused(ReservationGone);
      }
      BeginArchive(j, effective, if effective.Cancelled? then None else error, charge);
      return Done;
    }

    method BeginArchive(j: JobId, outcome: Outcome, reported: Option<ErrorCode>, charge: bool)
      requires HasAggregate(j)
      modifies `surveys, `jobs, `hist
      ensures State() == Archived(old(State()), old(usage), j, outcome, reported, charge)
    {
      var s := jobs[j].survey;
      hist := Bill(hist, surveys[s], charge);
      surveys := surveys[s := surveys[s].(status := SurveyStatus.Archiving, error := reported,
                                          quota := if charge then QuotaState.Consumed else QuotaState.Released)];
      jobs := jobs[j := jobs[j].(status := JobStatus.Archiving, outcome := Some(outcome), error := reported,
                                 nextArchive := Some(now))];
    }

    /** The checks before an execution is settled; None when they all pass. */
    method SettleStops(j: JobId, worker: AttemptId, outcome: Outcome, error: Option<ErrorCode>, chargeable: bool)
      returns (stop: Option<Reply>)
      ensures stop.Some? ==>
                Settle(State(), j, worker, outcome, error, chargeable) == Step(State(), stop.value)
      ensures stop.None? ==>
                && HasAggregate(j)
                && var effective := if jobs[j].cancelRequested then Outcome.Cancelled else outcome;
                   var charge := effective.Succeeded? && chargeable;
                   var usage' := Settled(usage, KeyOf(surveys[jobs[j].survey]), charge);
                   Settle(State(), j, worker, outcome, error, chargeable)
                   == if usage'.None? then Refuse(State(), ReservationGone)
                      else Step(Archived(State(), usage'.value, j, effective,
                                         if effective.Cancelled? then None else error, charge), Done)
    {
      hide Settled;
      if !HasAggregate(j) {
        return Some(Refused(Refusal.WorkerLost));
      }
      var job := jobs[j];
      var survey := surveys[job.survey];
      var effective := if job.cancelRequested then Outcome.Cancelled else outcome;
      if job.status.Archiving? && job.outcome == Some(effective) {
        return Some(Unchanged);
      }
      if !job.status.Running? || job.lease.None? || job.lease.value.owner != worker
         || !survey.status.Running? || !survey.quota.Reserved? {
        return Some(Refused(LeaseLost));
      }
      return None;
    }

    /** The job exists and is the job of its Survey. */
    predicate HasAggregate(j: JobId)
      reads this
    {
      j in jobs && jobs[j].survey in surveys && jobs[j].survey in jobOf && jobOf[jobs[j].survey] == j
    }

    predicate Archives(j: JobId, worker: AttemptId)
      reads this
    {
      HasAggregate(j) && jobs[j].lease.Some? && jobs[j].lease.value.owner == worker && jobs[j].status.Archiving?
    }

    method FinishSurveyArchive(j: JobId, worker: AttemptId, storage: (UserId, JobId), manifest: Manifest)
      returns (reply: Reply)
      modifies this
      ensures Step(State(), reply) == FinishArchive(old(State()), j, worker, storage, manifest)
      ensures old(Valid()) ==> Valid()
    {
      hide Inv;
      ghost var w := State();
      if Valid() {
        FinishKeeps(w, limits, j, worker, storage, manifest);
      }
      if !Archives(j, worker) || jobs[j].outcome.None? {
        return Refused(LeaseLost);
      }
      var s, outcome := jobs[j].survey, jobs[j].outcome.value;
      jobs := jobs[j := jobs[j].(status := JobStatus.Finished, storage := Some(storage), manifest := Some(manifest),
                                 lease := None, nextArchive := None)];
      surveys := surveys[s := if surveys[s].status.Archiving? then surveys[s].(status := StatusOf(outcome))
                              else surveys[s]];
      notices := Notified(notices, s, surveys[s], outcome);
      return Done;
    }

    method DeferSurveyArchive(j: JobId, worker: AttemptId, retryAfter: int, code: ErrorCode) returns (reply: Reply)
      modifies this
      ensures Step(State(), reply) == DeferArchive(old(State()), j, worker, retryAfter, code)
      ensures old(Valid()) ==> Valid()
    {
      hide Inv;
      ghost var w := State();
      if Valid() {
        DeferKeeps(w, limits, j, worker, retryAfter, code);
      }
      if !Archives(j, worker) {
        return Refused(LeaseLost);
      }
      jobs := jobs[j := jobs[j].(archiveAttempts := jobs[j].archiveAttempts + 1, nextArchive := Some(now + retryAfter),
                                 error := Some(code), lease := None)];
      return Done;
    }

    method MarkArchiveWorkspaceMissing(j: JobId, worker: AttemptId) returns (reply: Reply)
      modifies this
      ensures Step(State(), reply) == MarkWorkspaceMissing(old(State()), j, worker)
      ensures old(Valid()) ==> Valid()
    {
      hide Inv;
      ghost var w := State();
      if Valid() {
        WorkspaceMissingKeeps(w, limits, j, worker);
      }
      if !Archives(j, worker) {
        return Refused(LeaseLost);
      }
      var s := jobs[j].survey;
      jobs := jobs[j := jobs[j].(outcome := Some(Outcome.Failed), error := Some(WorkspaceMissing))];
      surveys := surveys[s := surveys[s].(error := Some(WorkspaceMissing))];
      return Done;
    }

    method RecoverArchivedFailure(j: JobId, expected: Manifest, code: ErrorCode, replacement: Option<Manifest>)
      returns (reply: Reply)
      modifies this
      ensures Step(State(), reply) == RecoverArchived(old(State()), j, expected, code, replacement)
      ensures old(Valid()) ==> Valid()
    {
      hide Inv, OwnStorage, OwnOverlay, Ended;
      ghost var w := State();
      if Valid() {
        RecoverArchivedKeeps(w, limits, j, expected, code, replacement);
      }
      var stop := RecoveryStops(j, expected, code, replacement);
      if stop.Some? {
        return stop.value;
      }
      ChargeRecovered(j, if replacement.Some? then replacement.value else expected);
      return Done;
    }

    /** The checks before a recovery is charged; None when they all pass. */
    method RecoveryStops(j: JobId, expected: Manifest, code: ErrorCode, replacement: Option<Manifest>)
      returns (stop: Option<Reply>)
      ensures stop.Some? ==> RecoverArchived(State(), j, expected, code, replacement) == Step(State(), stop.value)
      ensures stop.None? ==> RecoverArchived(State(), j, expected, code, replacement).reply.Done?
                             && HasAggregate(j) && KeyOf(surveys[jobs[j].survey]) in usage
    {
      hide OwnStorage, OwnOverlay;
      if !code.Recoverable() {
        return Some(Refused(RecoveryIneligible));
      }
      if !HasAggregate(j) {
        return Some(Refused(NotFound));
      }
      var job := jobs[j];
      var s := job.survey;
      var survey := surveys[s];
      var active := if replacement.Some? then replacement.value else expected;
      if Ended(survey, job, SurveyStatus.Succeeded, QuotaState.Consumed, Outcome.Succeeded) {
        return Some(if job.manifest == Some(active) then Unchanged else Refused(ManifestChanged));
      }
      if job.manifest != Some(expected) || !OwnStorage(survey, j, job, expected)
         || (replacement.Some? && !OwnOverlay(survey, j, replacement.value)) {
        return Some(Refused(ManifestChanged));
      }
      if !Ended(survey, job, SurveyStatus.Failed, QuotaState.Released, Outcome.Failed)
         || survey.error != Some(code) || job.error != Some(code) {
        return Some(Refused(RecoveryIneligible));
      }
      if s in notices && notices[s].sending {
        return Some(Refused(NotificationRunning));
      }
      return if KeyOf(survey) in usage then None else Some(Refused(ReservationGone));
    }

    method ChargeRecovered(j: JobId, active: Manifest)
      requires HasAggregate(j) && KeyOf(surveys[jobs[j].survey]) in usage
      modifies this
      ensures var w := old(State());
              var s, job := w.jobs[j].survey, w.jobs[j];
              var survey := w.surveys[s];
              var key := KeyOf(survey);
              State() == w.(usage := w.usage[key := w.usage[key].(succeeded := w.usage[key].succeeded + 1)],
                            surveys := w.surveys[s := survey.(status := SurveyStatus.Succeeded,
                                                              quota := QuotaState.Consumed, error := None)],
                            jobs := w.jobs[j := job.(outcome := Some(Outcome.Succeeded), error := None,
                                                     manifest := Some(active))],
                            notices := if s in w.notices || survey.notify
                                       then w.notices[s := Notice(Outcome.Succeeded, false)] else w.notices,
                            hist := Bill(w.hist, survey, true).(recoveries := w.hist.recoveries[
                              key := Get(w.hist.recoveries, key, 0) + 1]))
    {
      var s := jobs[j].survey;
      var survey := surveys[s];
      var key := KeyOf(survey);
      usage := usage[key := usage[key].(succeeded := usage[key].succeeded + 1)];
      surveys := surveys[s := survey.(status := SurveyStatus.Succeeded, quota := QuotaState.Consumed, error := None)];
      jobs := jobs[j := jobs[j].(outcome := Some(Outcome.Succeeded), error := None, manifest := Some(active))];
      if s in notices || survey.notify {
        notices := notices[s := Notice(Outcome.Succeeded, false)];
      }
      hist := Bill(hist, survey, true).(recoveries := hist.recoveries[key := Get(hist.recoveries, key, 0) + 1]);
    }

    method RepairDegradedEvidence(j: JobId, expected: Manifest, overlay: Manifest) returns (reply: Reply)
      modifies this
      ensures Step(State(), reply) == RepairEvidence(old(State()), j, expected, overlay)
      ensures old(Valid()) ==> Valid()
    {
      hide Inv, OwnStorage, OwnOverlay;
      ghost var w := State();
      if Valid() {
        RepairKeeps(w, limits, j, expected, overlay);
      }
      if !HasAggregate(j) {
        return Refused(NotFound);
      }
      var job := jobs[j];
      var survey := surveys[job.survey];
      if !OwnStorage(survey, j, job, expected) || !OwnOverlay(survey, j, overlay) {
        return Refused(ManifestChanged);
      }
      var repaired := Ended(survey, job, SurveyStatus.Succeeded, QuotaState.Released, Outcome.Succeeded);
      if repaired && survey.error.None? && job.error.None? {
        return if job.manifest == Some(overlay) then Unchanged else Refused(ManifestChanged);
      }
      if job.manifest != Some(expected) {
        return Refused(ManifestChanged);
      }
      if !repaired || survey.error != Some(QualityDegraded) || job.error != Some(QualityDegraded) {
        return Refused(RecoveryIneligible);
      }
      surveys := surveys[job.survey := survey.(error := None)];
      jobs := jobs[j := job.(error := None, manifest := Some(overlay))];
      return Done;
    }

    method SetMailSending(s: SurveyId, sending: bool) returns (reply: Reply)
      modifies this
      ensures Step(State(), reply) == SetSending(old(State()), s, sending)
      ensures old(Valid()) ==> Valid()
    {
      hide Inv;
      if Valid() {
        SetSendingKeeps(State(), limits, s, sending);
      }
      if s !in notices {
        return Unchanged;
      }
      notices := notices[s := notices[s].(sending := sending)];
      return Done;
    }

    // ---------- reserving and launching compute ----------

    /** A reserving transaction begins; it still has to wait for its capacity lock. */
    method BeginReservation(kind: WorkKind)
      modifies `line
      ensures Step(State(), Done) == JoinLine(old(State()), kind)
      ensures old(Valid()) ==> Valid()
    {
      hide Inv;
      if Valid() {
        InvAside(State(), JoinLine(State(), kind).next, limits);
      }
      line := line + multiset{Ticket(kind, now)};
    }

    /**
     The capacity lock is granted.  Unless the queue is at its global limit, list the first 32 reservable
     items in serving order, by the transaction's own clock.
     */
    method FetchCandidates(kind: WorkKind, began: Time) returns (reply: Reply, list: seq<nat>)
      requires kind !in passes && Ticket(kind, began) in line
      modifies `line, `passes
      ensures Step(State(), reply) == Fetch(old(State()), limits, kind, began, list)
      ensures reply.Done? ==> list != [] && WorkList(old(At(began)), limits, kind, list)
      ensures reply.Done? ==>
                |list| <= 32 && forall t :: Reservable(old(At(began)), limits, kind, t) && t !in list ==> |list| == 32
      ensures !reply.Done? ==>
                && reply.Unchanged? && list == []
                && (|ActiveOfKind(old(attempts), kind)| < limits.Global(kind) ==>
                      forall t :: !Reservable(old(At(began)), limits, kind, t))
      ensures old(Valid()) ==> Valid()
    {
      hide Inv, ActiveOfKind, Reservable, InOrder, ComesAfter, Fetch;
      ghost var w := State();
      list := CandidateList(kind, began);
      if Valid() {
        FetchKeeps(w, limits, kind, began, list);
      }
      reply := Enlist(kind, began, list);
    }

    /** The candidates while there is room, and else none. */
    method CandidateList(kind: WorkKind, clock: Time) returns (list: seq<nat>)
      ensures if |ActiveOfKind(attempts, kind)| < limits.Global(kind)
              then WorkList(At(clock), limits, kind, list) else list == []
    {
      hide ActiveOfKind, WorkList;
      list := [];
      if |ActiveOfKind(attempts, kind)| < limits.Global(kind) {
        list := Candidates(kind, clock);
      }
    }

    /** Leave the line with this list; without candidates the transaction is over. */
    method Enlist(kind: WorkKind, began: Time, list: seq<nat>) returns (reply: Reply)
      requires kind !in passes && Ticket(kind, began) in line
      requires list != [] ==>
                 |ActiveOfKind(attempts, kind)| < limits.Global(kind) && WorkList(At(began), limits, kind, list)
      modifies `line, `passes
      ensures Step(State(), reply) == Fetch(old(State()), limits, kind, began, list)
      ensures reply == if list == [] then Unchanged else Done
    {
      hide ActiveOfKind, WorkList, Fetch, CandidatesOf;
      FetchIs(State(), limits, kind, began, list);
      if list != [] {
        AllListed(At(began), limits, kind, list);
        passes := passes[kind := CandidatesOf(At(began), kind, list)];
      }
      line := line - multiset{Ticket(kind, began)};
      return if list == [] then Unchanged else Done;
    }

    /**
     The next candidate of a fetched list, once its Survey is locked and whatever other transactions did since:
     it is checked again and reserved, or passed over.  No unique index stops it.
     */
    method ReserveLocked(kind: WorkKind, a: AttemptId) returns (reply: Reply)
      requires kind in passes && passes[kind] != []
      modifies `passes, `attempts
      ensures Step(State(), reply) == TryNext(old(State()), limits, kind, a)
      ensures old(Sound(State(), limits)) ==> Sound(State(), limits) && (reply.Refused? ==> a in old(attempts))
    {
      hide Sound, TryNext;
      ghost var w := State();
      reply := TakeNext(kind, a);
      if Sound(w, limits) {
        TriedSound(w, limits, kind, a);
      }
    }

    /** Check the next candidate again, and reserve it or pass over it. */
    method TakeNext(kind: WorkKind, a: AttemptId) returns (reply: Reply)
      requires kind in passes && passes[kind] != []
      modifies `passes, `attempts
      ensures Step(State(), reply) == TryNext(old(State()), limits, kind, a)
    {
      hide ActiveOn, ActiveOfUser, NumberTaken, Current, TryNext;
      TryIs(State(), limits, kind, a);
      var c := passes[kind][0];
      if !Current(State(), kind, c) || |ActiveOfUser(surveys, attempts, kind, c.user)| >= limits.PerUser(kind) {
        passes := if |passes[kind]| > 1 then passes[kind := passes[kind][1..]] else passes - {kind};
        return Unchanged;
      }
      passes := passes - {kind};
      if a in attempts || ActiveOn(attempts, kind, c.target) != {}
         || NumberTaken(attempts, kind, c.target, c.attempts + 1) {
        return Refused(DatabaseError);
      }
      attempts := attempts[a := Attempt(kind, c.survey, c.target, c.attempts + 1, AttemptStatus.Reserved, false, None,
                                        0, now, None, None)];
      return Done;
    }

    /**
     The whole transaction with nothing between its steps: reserve the next work item in fair order, unless
     the queue is at its global limit.  Users at their cap and items out of retries are passed over, but
     still took part in the numbering.
     */
    method ReserveNext(kind: WorkKind, a: AttemptId) returns (reply: Reply, target: Option<nat>)
      requires Valid() && kind !in passes
      modifies this
      ensures target.None? ==>
                && State() == old(State()) && reply == Unchanged
                && (|ActiveOfKind(old(attempts), kind)| < limits.Global(kind) ==>
                      forall t :: !Reservable(old(State()), limits, kind, t))
      ensures target.Some? ==>
                && |ActiveOfKind(old(attempts), kind)| < limits.Global(kind)
                && Step(State(), reply) == Reserve(old(State()), limits, kind, target.value, a)
                && Leads(old(State()), limits, kind, target.value)
      ensures Valid()
    {
      hide Inv, ActiveOfKind, Reservable, Leads, WorkList, Reserve, TryNext, Fetch;
      ghost var w := State();
      BeginReservation(kind);
      LinedUpAtOnce(w, limits, kind);
      assert At(now) == State();
      var list;
      reply, list := FetchCandidates(kind, now);
      if reply.Unchanged? {
        GaveUp(w, limits, kind, list);
        return reply, None;
      }
      AtOnce(w, limits, kind, list, a);
      FetchedAtOnce(w, limits, kind, list);
      target := Some(list[0]);
      ReserveKeeps(w, limits, kind, list[0], a);
      NotUnchanged(w, limits, kind, list[0], a);
      ghost var fetched := State();
      while kind in passes
        invariant kind in passes ==> State() == fetched
        invariant kind !in passes ==> Step(State(), reply) == Reserve(w, limits, kind, list[0], a)
        decreases if kind in passes then 1 else 0
      {
        reply := ReserveLocked(kind, a);
      }
    }

    /** The first 32 reservable items in serving order, numbered over all open items. */
    method Candidates(kind: WorkKind, clock: Time) returns (list: seq<nat>)
      ensures WorkList(At(clock), limits, kind, list)
    {
      hide Reservable, WorkList, Gathering;
      list := [];
      var left := set t | t in Items(At(clock), kind) && Reservable(At(clock), limits, kind, t);
      NoneGathered(At(clock), limits, kind, left);
      while left != {} && |list| < WINDOW
        invariant |list| <= WINDOW && Gathering(At(clock), limits, kind, list, left)
        decreases left
      {
        LeftReservable(At(clock), limits, kind, list, left);
        var first := FirstAmong(kind, clock, left);
        OneMore(At(clock), limits, kind, list, left, first);
        list := list + [first];
        left := left - {first};
      }
      Gathered(At(clock), limits, kind, list, left);
    }

    /** The one of some reservable items that is served first. */
    method FirstAmong(kind: WorkKind, clock: Time, some: set<nat>) returns (best: nat)
      requires some != {} && forall t :: t in some ==> Reservable(At(clock), limits, kind, t)
      ensures best in some && LeadsAmong(At(clock), limits, kind, best, some)
    {
      hide Reservable, Sooner, OpenRows, ServedFirst;
      best :| best in some;
      var left := some - {best};
      while left != {}
        invariant left <= some && best in some - left
        invariant forall t :: t in some - left && t != best ==> ServedFirst(At(clock), limits, kind, best, t)
        decreases left
      {
        var t :| t in left;
        ReservableListed(At(clock), limits, kind, t);
        ReservableListed(At(clock), limits, kind, best);
        EitherFirst(At(clock), limits, kind, best, t);
        if Sooner(OpenRows(At(clock), kind), RowOf(At(clock), kind, t), RowOf(At(clock), kind, best)) {
          forall u | u in some - left && u != best
            ensures ServedFirst(At(clock), limits, kind, t, u)
          {
            FirstFurther(At(clock), limits, kind, t, best, u);
          }
          best := t;
        }
        left := left - {t};
      }
    }

    method MarkAttemptLaunching(a: AttemptId) returns (reply: Reply)
      modifies this
      ensures Step(State(), reply) == MarkLaunching(old(State()), a)
      ensures old(Valid()) ==> Valid()
    {
      hide Inv;
      if Valid() {
        LaunchingKeeps(State(), limits, a);
      }
      if a !in attempts || !(attempts[a].status.Reserved? || attempts[a].status.Launching?)
         || attempts[a].nextLaunch > now {
        return Unchanged;
      }
      attempts := attempts[a := attempts[a].(status := AttemptStatus.Launching)];
      return Done;
    }

    method RecordLaunchFailure(a: AttemptId) returns (reply: Reply)
      modifies this
      ensures Step(State(), reply) == LaunchFailed(old(State()), a)
      ensures old(Valid()) ==> Valid()
    {
      hide Inv;
      if Valid() {
        LaunchFailedKeeps(State(), limits, a);
      }
      if a !in attempts || !(attempts[a].status.Reserved? || attempts[a].status.Launching?) {
        return Refused(NotLaunchable);
      }
      var failures := attempts[a].launchFailures + 1;
      var delay := BACKOFF[if failures - 1 < 5 then failures - 1 else 4];
      attempts := attempts[a := attempts[a].(status := AttemptStatus.Reserved, launchFailures := failures,
                                             nextLaunch := now + delay)];
      return Done;
    }

    method MarkAttemptLaunched(a: AttemptId, arn: nat) returns (reply: Reply)
      modifies this
      ensures Step(State(), reply) == MarkLaunched(old(State()), a, arn)
      ensures old(Valid()) ==> Valid()
    {
      hide Inv;
      if Valid() {
        LaunchedKeeps(State(), limits, a, arn);
      }
      if a !in attempts
         || !(attempts[a].status.Reserved? || attempts[a].status.Launching? || attempts[a].status.Launched?)
         || (attempts[a].arn.Some? && attempts[a].arn.value != arn) {
        return Refused(NotLaunchable);
      }
      attempts := attempts[a := attempts[a].(status := AttemptStatus.Launched, arn := Some(arn))];
      return Done;
    }

    // ---------- claims, checkpoints and heartbeats ----------

    method ClaimExactDraft(d: DraftId, a: AttemptId, lease: int) returns (reply: Reply)
      modifies this
      ensures Step(State(), reply) == ClaimDraft(old(State()), d, a, lease)
      ensures old(Valid()) ==> Valid()
    {
      hide Inv;
      if Valid() {
        ClaimDraftKeeps(State(), limits, d, a, lease);
      }
      if !Claimable(State(), a, DraftWork, d) {
        return Unchanged;
      }
      var s := attempts[a].survey;
      if s !in surveys || !surveys[s].status.Drafting?
         || d !in drafts || drafts[d].survey != s || !drafts[d].status.Queued? {
        return Unchanged;
      }
      drafts := drafts[d := drafts[d].(status := DraftStatus.Running, lease := Some(Lease(a, now + lease)))];
      attempts := attempts[a := attempts[a].(status := AttemptStatus.Running, started := true)];
      return Done;
    }

    method ClaimExactJob(j: JobId, a: AttemptId, lease: int, timeout: int) returns (reply: Reply)
      modifies this
      ensures Step(State(), reply) == ClaimJob(old(State()), j, a, lease, timeout)
      ensures old(Valid()) ==> Valid()
    {
      hide Inv;
      if Valid() {
        ClaimJobKeeps(State(), limits, j, a, lease, timeout);
      }
      if !Claimable(State(), a, FullWork, j) {
        return Unchanged;
      }
      var s := attempts[a].survey;
      if s !in surveys || s !in jobOf || jobOf[s] != j || j !in jobs {
        return Unchanged;
      }
      var job := jobs[j];
      if job.status.Finished? || (job.outcome.Some? && !job.status.Archiving?)
         || (job.lease.Some? && job.lease.value.expires > now) {
        return Unchanged;
      }
      if job.status.Queued? {
        if !surveys[s].status.Queued? {
          return Unchanged;
        }
        surveys := surveys[s := surveys[s].(status := SurveyStatus.Running)];
      }
      jobs := jobs[j := job.(status := if job.status.Queued? then JobStatus.Running else job.status,
                             lease := Some(Lease(a, now + lease)),
                             deadline := if job.deadline.Some? then job.deadline else Some(now + timeout),
                             resumes := job.resumes + if job.checkpoint.Some? then 1 else 0)];
      attempts := attempts[a := attempts[a].(status := AttemptStatus.Running, started := true,
                                             checkpoint := Sequence(job.checkpoint))];
      return Done;
    }

    method CommitJobCheckpoint(j: JobId, a: AttemptId, expected: nat, stage: nat, manifest: nat) returns (reply: Reply)
      modifies this
      ensures Step(State(), reply) == CommitCheckpoint(old(State()), j, a, expected, stage, manifest)
      ensures old(Valid()) ==> Valid()
    {
      hide Inv, CommitCheckpoint, Advanced;
      ghost var w := State();
      if Valid() {
        CheckpointKeeps(w, limits, j, a, expected, stage, manifest);
      }
      CommitInTwo(w, j, a, expected, stage, manifest);
      if j !in jobs || jobs[j].lease.None? || jobs[j].lease.value.owner != a
         || !(jobs[j].status.Running? || jobs[j].status.Archiving?)
         || Position(jobs[j].checkpoint) != expected {
        return Unchanged;
      }
      reply := Advance(j, a, expected + 1, stage, manifest);
    }

    /** The job is advanced first; when the attempt row then fails its fence, the job is rolled back. */
    method Advance(j: JobId, a: AttemptId, next: nat, stage: nat, manifest: nat) returns (reply: Reply)
      requires j in jobs
      modifies this
      ensures Step(State(), reply) == Advanced(old(State()), j, a, next, stage, manifest)
    {
      hide CommitsOf;
      var saved := jobs;
      jobs := jobs[j := jobs[j].(checkpoint := Some(Checkpoint(next, stage, manifest)))];
      if a !in attempts || !attempts[a].status.Running? {
        jobs := saved;
        return Refused(FenceFailed);
      }
      attempts := attempts[a := attempts[a].(checkpoint := Some(next))];
      var birth := if jobs[j].survey in surveys then surveys[jobs[j].survey].birth else 0;
      hist := hist.(commits := hist.commits[birth :=
        CommitsOf(hist, birth) + [Commit(next, a, attempts[a].number, stage, manifest)]]);
      return Done;
    }

    method HeartbeatAttempt(a: AttemptId, lease: int) returns (reply: Reply)
      modifies this
      ensures Step(State(), reply) == Heartbeat(old(State()), a, lease)
      ensures old(Valid()) ==> Valid()
    {
      hide Inv;
      if Valid() {
        HeartbeatKeeps(State(), limits, a, lease);
      }
      if a !in attempts || !attempts[a].status.Running? {
        return Unchanged;
      }
      var target := attempts[a].target;
      if attempts[a].kind.DraftWork? {
        if !OwnsDraft(State(), target, a) {
          return Unchanged;
        }
        drafts := drafts[target := drafts[target].(lease := Some(Lease(a, now + lease)))];
      } else {
        if !OwnsJob(State(), target, a) || !(jobs[target].status.Running? || jobs[target].status.Archiving?) {
          return Unchanged;
        }
        jobs := jobs[target := jobs[target].(lease := Some(Lease(a, now + lease)))];
      }
      return Done;
    }

    // ---------- the end of an attempt ----------

    method RecordSucceeded(a: AttemptId, version: int) returns (reply: Reply)
      modifies this
      ensures Step(State(), reply) == AttemptSucceeded(old(State()), a, version)
      ensures old(Valid()) ==> Valid()
    {
      hide Inv;
      if Valid() {
        SucceededKeeps(State(), limits, a, version);
      }
      if a !in attempts {
        return Refused(DatabaseError);
      }
      if attempts[a].eventVersion.Some? && attempts[a].eventVersion.value >= version {
        return Unchanged;
      }
      var target := attempts[a].target;
      if attempts[a].kind.DraftWork? {
        if target in drafts && !IsActiveDraft(drafts[target]) {
          attempts := attempts[a := attempts[a].(status := AttemptStatus.Succeeded, eventVersion := Some(version))];
          return Done;
        }
        if target in drafts && drafts[target].lease.Some? && drafts[target].lease.value.owner == a {
          drafts := drafts[target := drafts[target].(status := DraftStatus.Queued, lease := None)];
        }
      } else {
        if target in jobs && jobs[target].status.Finished? {
          attempts := attempts[a := attempts[a].(status := AttemptStatus.Succeeded, eventVersion := Some(version))];
          return Done;
        }
        if target in jobs && jobs[target].lease.Some? && jobs[target].lease.value.owner == a {
          jobs := jobs[target := jobs[target].(lease := None)];
        }
      }
      attempts := attempts[a := attempts[a].(status := AttemptStatus.Retryable, eventVersion := Some(version))];
      return Done;
    }

    method RecordStopped(a: AttemptId, version: int, retryable: bool) returns (reply: Reply)
      modifies this
      ensures Step(State(), reply) == AttemptStopped(old(State()), a, version, retryable)
      ensures old(Valid()) ==> Valid()
    {
      hide Inv;
      if Valid() {
        StoppedKeeps(State(), limits, a, version, retryable);
      }
      if a !in attempts {
        return Refused(DatabaseError);
      }
      var at := attempts[a];
      if at.eventVersion.Some? && at.eventVersion.value >= version {
        return Unchanged;
      }
      var terminal := at.status.Succeeded? || at.status.Failed? || at.status.Cancelled?;
      if terminal {
        attempts := attempts[a := at.(eventVersion := Some(version))];
        return Done;
      }
      attempts := attempts[a := at.(status := if retryable then AttemptStatus.Retryable else AttemptStatus.Failed,
                                    eventVersion := Some(version))];
      if at.kind.FullWork? {
        if OwnsJob(State(), at.target, a) && (jobs[at.target].status.Running? || jobs[at.target].status.Archiving?) {
          jobs := jobs[at.target := jobs[at.target].(lease := None)];
        }
      } else if OwnsDraft(State(), at.target, a) {
        drafts := drafts[at.target := drafts[at.target].(
          status := if retryable then DraftStatus.Queued else DraftStatus.Failed, lease := None)];
      }
      return Done;
    }

    // ---------- sweeps and time ----------

    predicate ExpiredJob(j: JobId)
      reads this
    {
      j in jobs && jobs[j].status.Running? && jobs[j].lease.Some? && jobs[j].lease.value.expires <= now
    }

    function Expiry(j: JobId): Time
      reads this
    {
      if j in jobs && jobs[j].lease.Some? then jobs[j].lease.value.expires else now
    }

    /** The running jobs whose lease has run out, longest overdue first, at most `limit` of them. */
    method ExpiredJobs(limit: nat) returns (rows: seq<JobId>)
      ensures |rows| <= limit && forall i :: 0 <= i < |rows| ==> ExpiredJob(rows[i])
      ensures forall i, k :: 0 <= i < k < |rows| ==> rows[i] != rows[k] && Expiry(rows[i]) <= Expiry(rows[k])
      ensures |rows| < limit ==> forall j :: ExpiredJob(j) ==> j in rows
    {
      rows := [];
      var left := set j | j in jobs && ExpiredJob(j);
      while |rows| < limit && left != {}
        invariant |rows| <= limit && forall j :: j in rows || j in left <==> ExpiredJob(j)
        invariant forall j :: j in rows ==> j !in left
        invariant forall i, k :: 0 <= i < k < |rows| ==> rows[i] != rows[k] && Expiry(rows[i]) <= Expiry(rows[k])
        invariant forall i, j :: 0 <= i < |rows| && j in left ==> Expiry(rows[i]) <= Expiry(j)
        decreases limit - |rows|
      {
        var j := LongestOverdue(left);
        rows := rows + [j];
        left := left - {j};
      }
    }

    method LongestOverdue(left: set<JobId>) returns (j: JobId)
      requires left != {} && forall k :: k in left ==> ExpiredJob(k)
      ensures j in left && forall k :: k in left ==> Expiry(j) <= Expiry(k)
    {
      j :| j in left;
      var rest := left - {j};
      while rest != {}
        invariant j in left && rest <= left
        invariant forall k :: k in left - rest ==> Expiry(j) <= Expiry(k)
        decreases rest
      {
        var k :| k in rest;
        if Expiry(k) < Expiry(j) {
          j := k;
        }
        rest := rest - {k};
      }
    }

    /** End one execution whose worker was lost. */
    method RecoverOne(j: JobId)
      requires Valid() && ExpiredJob(j)
      modifies this
      ensures State() == RecoverJob(old(State()), j).next && Valid()
      ensures j in jobs && jobs == old(jobs)[j := jobs[j]] && jobs[j].status.Archiving? && now == old(now)
    {
      hide Inv, Settled;
      ghost var w := State();
      RecoverJobKeeps(w, limits, j);
      JobsSurvey(w, limits, j);
      ReservationHolds(w, limits, jobs[j].survey, false);
      var job := jobs[j];
      var released := Release(KeyOf(surveys[job.survey]), false);
      var reported := if job.cancelRequested then None else Some(ErrorCode.WorkerLost);
      jobs := jobs[j := job.(status := JobStatus.Archiving, error := reported, lease := None,
                             outcome := Some(if job.cancelRequested then Outcome.Cancelled else Outcome.Failed),
                             nextArchive := Some(now))];
      surveys := surveys[job.survey := surveys[job.survey].(status := SurveyStatus.Archiving,
                                                            quota := QuotaState.Released, error := reported)];
    }

    method RecoverRows(rows: seq<JobId>) returns (recovered: nat)
      requires Valid() && (forall i :: 0 <= i < |rows| ==> ExpiredJob(rows[i]))
      requires forall i, k :: 0 <= i < k < |rows| ==> rows[i] != rows[k]
      modifies this
      ensures Valid() && recovered == |rows| && State() == Swept(old(State()), rows)
      ensures now == old(now) && jobs.Keys == old(jobs).Keys
      ensures forall j :: j in jobs && j !in rows ==> jobs[j] == old(jobs)[j]
      ensures forall j :: j in rows ==> j in jobs && jobs[j].status.Archiving?
    {
      hide Inv, RecoverJob, State;
      recovered := 0;
      ghost var w := State();
      for i := 0 to |rows|
        invariant Valid() && recovered == i && now == old(now) && jobs.Keys == old(jobs).Keys
        invariant State() == Swept(w, rows[..i])
        invariant forall j :: j in jobs && j !in rows[..i] ==> jobs[j] == old(jobs)[j]
        invariant forall j :: j in rows[..i] ==> j in jobs && jobs[j].status.Archiving?
      {
        assert rows[i] !in rows[..i];
        RecoverOne(rows[i]);
        assert rows[..i + 1] == rows[..i] + [rows[i]];
        recovered := recovered + 1;
      }
      assert rows[..|rows|] == rows;
    }

    /** The sweep ends every execution it was asked to look at, and with room to spare none is left over. */
    method RecoverExpiredJobs(limit: nat) returns (recovered: nat)
      requires Valid()
      modifies this
      ensures Valid() && recovered <= limit
      ensures exists rows: seq<JobId> :: |rows| == recovered && State() == Swept(old(State()), rows)
      ensures recovered < limit ==> forall j :: !ExpiredJob(j)
    {
      hide Inv, RecoverJob, State;
      var rows := ExpiredJobs(limit);
      recovered := RecoverRows(rows);
    }

    predicate ExpiredDraft(d: DraftId)
      reads this
    {
      d in drafts && drafts[d].status.Running? && drafts[d].lease.Some? && drafts[d].lease.value.expires <= now
      && drafts[d].survey in surveys
    }

    /** The Draft sweep fails every expired Draft, up to `limit` of them. */
    method RecoverExpiredDrafts(limit: nat) returns (recovered: nat)
      modifies this
      ensures recovered <= limit
      ensures exists rows: seq<DraftId> :: |rows| == recovered && State() == SweptDrafts(old(State()), rows)
      ensures recovered < limit ==> forall d :: !ExpiredDraft(d)
      ensures old(Valid()) ==> Valid()
    {
      hide Inv;
      ghost var w := State();
      ghost var rows: seq<DraftId> := [];
      recovered := 0;
      var left := set d | d in drafts && ExpiredDraft(d);
      while recovered < limit && left != {}
        invariant recovered == |rows| <= limit && State() == SweptDrafts(w, rows)
        invariant forall d :: d in left <==> ExpiredDraft(d)
        invariant old(Valid()) ==> Valid()
        decreases left
      {
        var d :| d in left;
        if Valid() {
          RecoverDraftKeeps(State(), limits, d);
        }
        rows := rows + [d];
        drafts := drafts[d := drafts[d].(status := DraftStatus.Failed, lease := None)];
        assert rows[..|rows| - 1] + [d] == rows;
        recovered := recovered + 1;
        left := left - {d};
      }
    }

    method PassTime(elapsed: nat)
      modifies this
      ensures State() == Tick(old(State()), elapsed).next
      ensures old(Valid()) ==> Valid()
    {
      hide Inv;
      if Valid() {
        TickKeeps(State(), limits, elapsed);
      }
      now := now + elapsed;
    }
  }

  /** A row served before the best so far is served before everything the best was served before. */
  lemma AllItems(w: World, limits: Limits, kind: WorkKind)
    ensures forall t :: Reservable(w, limits, kind, t) ==> t in Items(w, kind)
  {
  }

  /** `t` is served before all others of `some`. */
  ghost predicate LeadsAmong(w: World, limits: Limits, kind: WorkKind, t: nat, some: set<nat>) {
    forall u :: u in some && u != t ==> ServedFirst(w, limits, kind, t, u)
  }

  lemma EitherFirst(w: World, limits: Limits, kind: WorkKind, t: nat, u: nat)
    requires Reservable(w, limits, kind, t) && Reservable(w, limits, kind, u) && t != u
    ensures Sooner(OpenRows(w, kind), RowOf(w, kind, u), RowOf(w, kind, t)) ==> ServedFirst(w, limits, kind, u, t)
    ensures !Sooner(OpenRows(w, kind), RowOf(w, kind, u), RowOf(w, kind, t)) ==> ServedFirst(w, limits, kind, t, u)
  {
    hide Listed, WithinBudget, Sooner;
    AllItems(w, limits, kind);
    OpenKeyed(w, kind);
    SoonerTotal(OpenRows(w, kind), RowOf(w, kind, t), RowOf(w, kind, u));
  }

  lemma FirstFurther(w: World, limits: Limits, kind: WorkKind, t: nat, u: nat, v: nat)
    requires ServedFirst(w, limits, kind, t, u) && ServedFirst(w, limits, kind, u, v)
    ensures ServedFirst(w, limits, kind, t, v)
  {
    hide Reservable, OpenRows, Listed;
  }

  /** The list is in order, and what is left of the reservable items comes after it. */
  ghost predicate Gathering(w: World, limits: Limits, kind: WorkKind, list: seq<nat>, left: set<nat>) {
    && (forall i :: 0 <= i < |list| ==> Reservable(w, limits, kind, list[i]))
    && (forall t :: t in left ==> Reservable(w, limits, kind, t) && t !in list)
    && (forall t :: Reservable(w, limits, kind, t) ==> t in list || t in left)
    && InOrder(w, limits, kind, list) && ComesAfter(w, limits, kind, list)
  }

  lemma NoneGathered(w: World, limits: Limits, kind: WorkKind, left: set<nat>)
    requires left == set t | t in Items(w, kind) && Reservable(w, limits, kind, t)
    ensures Gathering(w, limits, kind, [], left)
  {
    hide Reservable, ServedFirst;
    AllItems(w, limits, kind);
  }

  lemma LeftReservable(w: World, limits: Limits, kind: WorkKind, list: seq<nat>, left: set<nat>)
    requires Gathering(w, limits, kind, list, left)
    ensures forall t :: t in left ==> Reservable(w, limits, kind, t)
  {
    hide Reservable, InOrder, ComesAfter;
  }

  lemma Gathered(w: World, limits: Limits, kind: WorkKind, list: seq<nat>, left: set<nat>)
    requires |list| <= WINDOW && Gathering(w, limits, kind, list, left) && (|list| < WINDOW ==> left == {})
    ensures WorkList(w, limits, kind, list)
  {
    hide Reservable, InOrder, ComesAfter;
  }

  lemma OneMore(w: World, limits: Limits, kind: WorkKind, list: seq<nat>, left: set<nat>, first: nat)
    requires Gathering(w, limits, kind, list, left) && first in left && LeadsAmong(w, limits, kind, first, left)
    ensures Gathering(w, limits, kind, list + [first], left - {first})
  {
    hide Reservable, ServedFirst;
    forall t
      ensures t in list + [first] <==> t in list || t == first
    {
      assert first == (list + [first])[|list|];
    }
  }

  lemma AllListed(w: World, limits: Limits, kind: WorkKind, list: seq<nat>)
    requires WorkList(w, limits, kind, list)
    ensures forall i :: 0 <= i < |list| ==> Listed(w, kind, list[i])
  {
    hide Reservable, Listed, InOrder, ComesAfter;
    forall i | 0 <= i < |list|
      ensures Listed(w, kind, list[i])
    {
      ReservableListed(w, limits, kind, list[i]);
    }
  }

  lemma FetchIs(w: World, limits: Limits, kind: WorkKind, began: Time, list: seq<nat>)
    requires kind !in w.passes && Ticket(kind, began) in w.line
    requires list != [] ==>
               |ActiveOfKind(w.attempts, kind)| < limits.Global(kind) && WorkList(w.(now := began), limits, kind, list)
    ensures list != [] ==> forall i :: 0 <= i < |list| ==> Listed(w.(now := began), kind, list[i])
    ensures var u := w.(line := w.line - multiset{Ticket(kind, began)});
            Fetch(w, limits, kind, began, list)
            == if list == [] then Step(u, Unchanged)
               else Step(u.(passes := w.passes[kind := CandidatesOf(w.(now := began), kind, list)]), Done)
  {
    hide WorkList, ActiveOfKind, Listed, CandidatesOf;
    if list != [] {
      AllListed(w.(now := began), limits, kind, list);
    }
  }

  lemma TryIs(w: World, limits: Limits, kind: WorkKind, a: AttemptId)
    requires kind in w.passes && w.passes[kind] != []
    ensures var c := w.passes[kind][0];
            TryNext(w, limits, kind, a)
            == if !Current(w, kind, c) || |ActiveOfUser(w.surveys, w.attempts, kind, c.user)| >= limits.PerUser(kind)
               then Step(w.(passes := Shortened(w.passes, kind)), Unchanged)
               else if a in w.attempts || ActiveOn(w.attempts, kind, c.target) != {}
                       || NumberTaken(w.attempts, kind, c.target, c.attempts + 1)
               then Step(w.(passes := w.passes - {kind}), Refused(DatabaseError))
               else Step(w.(passes := w.passes - {kind}, attempts := w.attempts[a := LateAttempt(w, kind, c)]), Done)
  {
    hide Current, ActiveOfUser, ActiveOn, NumberTaken, LateAttempt, Shortened;
  }

  lemma TriedSound(w: World, limits: Limits, kind: WorkKind, a: AttemptId)
    requires Sound(w, limits) && kind in w.passes && w.passes[kind] != []
    ensures var step := TryNext(w, limits, kind, a);
            Sound(step.next, limits) && (step.reply.Refused? ==> a in w.attempts)
  {
    hide Inv, Fits, LateReserve, ActiveOfKind, Shortened;
    assert Underway(w, limits, kind);
    LateKeeps(w, limits, kind, w.passes[kind][0], a);
    TryKeeps(w, limits, kind, a);
    forall k
      ensures Underway(TryNext(w, limits, kind, a).next, limits, k)
    {
      TryUnderway(w, limits, kind, a, k);
    }
  }

  /** What a transaction sees that lines up now is what the tables hold. */
  lemma LinedUpAtOnce(w: World, limits: Limits, kind: WorkKind)
    ensures var u := JoinLine(w, kind).next;
            && u.(now := w.now) == u && Ticket(kind, w.now) in u.line
            && forall t :: Reservable(u, limits, kind, t) <==> Reservable(w, limits, kind, t)
  {
    hide Reservable;
    forall t
      ensures Reservable(JoinLine(w, kind).next, limits, kind, t) <==> Reservable(w, limits, kind, t)
    {
      LineAside(w, JoinLine(w, kind).next, limits, kind, t);
    }
  }

  lemma GaveUp(w: World, limits: Limits, kind: WorkKind, list: seq<nat>)
    requires kind !in w.passes && Fetch(JoinLine(w, kind).next, limits, kind, w.now, list).reply.Unchanged?
    ensures Fetch(JoinLine(w, kind).next, limits, kind, w.now, list).next == w
  {
    hide WorkList, ActiveOfKind, CandidatesOf;
    assert w.line + multiset{Ticket(kind, w.now)} - multiset{Ticket(kind, w.now)} == w.line;
  }

  lemma FetchedAtOnce(w: World, limits: Limits, kind: WorkKind, list: seq<nat>)
    requires Fetch(JoinLine(w, kind).next, limits, kind, w.now, list).reply.Done?
    ensures var v := Fetch(JoinLine(w, kind).next, limits, kind, w.now, list).next;
            kind in v.passes && v.passes[kind] != []
  {
    hide Reservable, InOrder, ComesAfter, ActiveOfKind, Listed;
  }

  lemma NotUnchanged(w: World, limits: Limits, kind: WorkKind, target: nat, a: AttemptId)
    requires kind !in w.passes
    ensures kind !in Reserve(w, limits, kind, target, a).next.passes
  {
    hide Leads, ActiveOfKind, NextAttempt;
  }

  /** What the expired-job sweep leaves after the jobs `rows`. */
  ghost function Swept(w: World, rows: seq<JobId>): World {
    if rows == [] then w else RecoverJob(Swept(w, rows[..|rows| - 1]), rows[|rows| - 1]).next
  }

  ghost function SweptDrafts(w: World, rows: seq<DraftId>): World {
    if rows == [] then w else RecoverDraft(SweptDrafts(w, rows[..|rows| - 1]), rows[|rows| - 1]).next
  }

  lemma ErasedElsewhere(w: World, s: SurveyId)
    ensures forall usage :: Erased(w.(usage := usage), s) == Erased(w, s).(usage := usage)
  {
  }

  /** Deleting a job leaves everything but the jobs and attempts alone. */
  lemma OnlyJobs(w: World, s: SurveyId)
    ensures WithoutJob(w, s)
         == w.(jobOf := WithoutJob(w, s).jobOf, jobs := WithoutJob(w, s).jobs, attempts := WithoutJob(w, s).attempts)
  {
  }

  /** Revisions do not repeat, so the newest ready Draft is the only newest. */
  lemma OnlyLatest(w: World, limits: Limits, s: SurveyId, d: DraftId)
    requires Inv(w, limits) && s in w.surveys && IsLatest(w.drafts, s, d)
    ensures forall e :: IsLatest(w.drafts, s, e) ==> e == d
  {
    hide Indexed, Lockstep, QuotaExact, ChargedOnce, CancelsStick, Approved, Leased, Targeted,
      Numbered, Budgeted, Capped, Checkpointed, Announced, ActiveSound, DraftSound, OneActive, Topped, Linked;
    assert Chain(w.drafts, s);
    forall e | IsLatest(w.drafts, s, e)
      ensures e == d
    {
      assert d in ReadyOf(w.drafts, s) && e in ReadyOf(w.drafts, s);
    }
  }
}
