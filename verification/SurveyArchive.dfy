/** Settling, archiving, recovering and repairing an execution keep the invariants. */
module SurveyArchive {
  import opened Wrappers
  import opened SurveyModel
  import opened SurveyTransitions
  import opened SurveyInvariants
  import opened SurveyQuotaLemmas
  import opened SurveyRowLemmas
  import opened SurveySteps

  /** A charge does not move births, cancels or checkpoints. */
  lemma CheckpointsBilled(surveys: map<SurveyId, Survey>, jobOf: map<SurveyId, JobId>, jobs: map<JobId, Job>,
                          attempts: map<AttemptId, Attempt>, h: History, h': History)
    requires Checkpointed(surveys, jobOf, jobs, attempts, h) && h'.commits == h.commits && h'.births == h.births
    ensures Checkpointed(surveys, jobOf, jobs, attempts, h')
  {
    hide Positioned, AttemptsOn;
  }

  lemma UncancelledBirth(w: World, limits: Limits, s: SurveyId)
    requires Inv(w, limits) && s in w.jobOf && s in w.surveys && w.jobOf[s] in w.jobs
    ensures w.surveys[s].birth in w.hist.cancels <==> w.jobs[w.jobOf[s]].cancelRequested
  {
    hide Indexed, Lockstep, QuotaExact, ChargedOnce, DraftChain, Approved, Leased, Targeted,
      Numbered, Budgeted, Capped, Checkpointed, Announced;
    assert JobRow(w.jobOf, w.jobs, s) == Some(w.jobs[w.jobOf[s]]);
  }

  /** An execution leaves `running`: its reservation is given back or turned into a charge. */
  lemma EndsKeeps(w: World, limits: Limits, s: SurveyId, v: Survey, job: Job, charge: bool, usage: map<Key, Usage>)
    requires Inv(w, limits) && s in w.jobOf && s in w.surveys && w.jobOf[s] in w.jobs
    requires w.surveys[s].status.Running? && w.surveys[s].quota.Reserved?
    requires var was := w.jobs[w.jobOf[s]];
             && job.survey == s && job.approved == was.approved
             && job.cancelRequested == was.cancelRequested && job.checkpoint == was.checkpoint
             && (job.lease.Some? ==> job.lease == was.lease)
    requires v.birth == w.surveys[s].birth && KeyOf(v) == KeyOf(w.surveys[s]) && v.status.Archiving?
    requires !v.quota.Reserved? && (v.quota.Consumed? <==> charge) && (charge ==> !job.cancelRequested)
    requires Settled(w.usage, KeyOf(w.surveys[s]), charge) == Some(usage)
    requires SurveySound(v, Some(job))
    ensures Inv(w.(usage := usage, surveys := w.surveys[s := v], jobs := w.jobs[w.jobOf[s] := job],
                   hist := Bill(w.hist, w.surveys[s], charge)), limits)
  {
    hide Indexed, Lockstep, QuotaExact, ChargedOnce, CancelsStick, DraftChain, Approved, Leased, Targeted,
      Numbered, Budgeted, Capped, Checkpointed, Announced, SurveySound, Settled;
    var surveys', jobs' := w.surveys[s := v], w.jobs[w.jobOf[s] := job];
    HeldLease(w.jobs, w.drafts, w.attempts, w.jobOf[s]);
    PairKeeps(w, limits, s, v, job);
    QuotaSettled(w.usage, w.surveys, w.hist, s, v, charge);
    ChargesBilled(w.surveys, w.hist, s, v, charge);
    UncancelledBirth(w, limits, s);
    CancelsBilled(surveys', w.jobOf, jobs', w.hist, w.surveys[s], charge);
    CheckpointsBilled(surveys', w.jobOf, jobs', w.attempts, w.hist, Bill(w.hist, w.surveys[s], charge));
    NoNotice(w, limits, s);
    AnnouncedRow(w.surveys, w.notices, s, v);
  }

  lemma HeldLease(jobs: map<JobId, Job>, drafts: map<DraftId, Draft>, attempts: map<AttemptId, Attempt>, j: JobId)
    requires Leased(jobs, drafts, attempts) && j in jobs
    ensures jobs[j].lease.Some? ==> Holds(attempts, jobs[j].lease.value.owner, FullWork, j)
  {
  }

  lemma SettleKeeps(w: World, limits: Limits, j: JobId, worker: AttemptId, outcome: Outcome,
                    error: Option<ErrorCode>, chargeable: bool)
    requires Inv(w, limits)
    ensures Inv(Settle(w, j, worker, outcome, error, chargeable).next, limits)
  {
    hide Inv, Settled;
    var step := Settle(w, j, worker, outcome, error, chargeable);
    if step.reply.Done? {
      var s := w.jobs[j].survey;
      JobsSurvey(w, limits, j);
      var effective := if w.jobs[j].cancelRequested then Outcome.Cancelled else outcome;
      EndsKeeps(w, limits, s, step.next.surveys[s], step.next.jobs[j], effective.Succeeded? && chargeable,
                step.next.usage);
    }
  }

  lemma RecoverJobKeeps(w: World, limits: Limits, j: JobId)
    requires Inv(w, limits)
    ensures Inv(RecoverJob(w, j).next, limits)
  {
    hide Inv, Settled;
    var step := RecoverJob(w, j);
    if step.reply.Done? {
      var s := w.jobs[j].survey;
      JobsSurvey(w, limits, j);
      EndsKeeps(w, limits, s, step.next.surveys[s], step.next.jobs[j], false, step.next.usage);
    }
  }

  lemma DeferKeeps(w: World, limits: Limits, j: JobId, worker: AttemptId, retryAfter: int, error: ErrorCode)
    requires Inv(w, limits)
    ensures Inv(DeferArchive(w, j, worker, retryAfter, error).next, limits)
  {
    hide Inv;
    var step := DeferArchive(w, j, worker, retryAfter, error);
    if step.reply.Done? {
      JobOnlyKeeps(w, limits, j, step.next.jobs[j]);
    }
  }

  lemma LeaseOf(w: World, limits: Limits, j: JobId)
    requires Inv(w, limits) && j in w.jobs
    ensures w.jobs[j].lease.Some? ==> Holds(w.attempts, w.jobs[j].lease.value.owner, FullWork, j)
  {
    hide Indexed, Lockstep, QuotaExact, ChargedOnce, CancelsStick, DraftChain, Approved, Targeted,
      Numbered, Budgeted, Capped, Checkpointed, Announced;
  }

  lemma WorkspaceMissingKeeps(w: World, limits: Limits, j: JobId, worker: AttemptId)
    requires Inv(w, limits)
    ensures Inv(MarkWorkspaceMissing(w, j, worker).next, limits)
  {
    hide Inv;
    var step := MarkWorkspaceMissing(w, j, worker);
    if step.reply.Done? {
      var s := w.jobs[j].survey;
      JobsSurvey(w, limits, j);
      LeaseOf(w, limits, j);
      JobKeeps(w, limits, s, step.next.surveys[s], step.next.jobs[j]);
    }
  }

  lemma AnnouncedOutcome(surveys: map<SurveyId, Survey>, notices: map<SurveyId, Notice>, s: SurveyId, v: Survey,
                         n: Notice)
    requires Announced(surveys, notices) && s in surveys
    requires (v.status.Succeeded? && n.outcome.Succeeded?) || (v.status.Failed? && n.outcome.Failed?)
    ensures Announced(surveys[s := v], notices[s := n])
  {
  }

  /** A Survey ends, or a repaired result replaces the archived one. */
  lemma EndedKeeps(w: World, limits: Limits, s: SurveyId, v: Survey, job: Job, notices: map<SurveyId, Notice>)
    requires Inv(w, limits) && s in w.jobOf && s in w.surveys && w.jobOf[s] in w.jobs
    requires var was := w.jobs[w.jobOf[s]];
             && job.survey == s && job.approved == was.approved && job.lease.None?
             && job.cancelRequested == was.cancelRequested && job.checkpoint == was.checkpoint
    requires v.birth == w.surveys[s].birth && KeyOf(v) == KeyOf(w.surveys[s]) && !v.status.Drafting?
    requires v.quota == w.surveys[s].quota && SurveySound(v, Some(job))
    requires Announced(w.surveys[s := v], notices)
    ensures Inv(w.(surveys := w.surveys[s := v], jobs := w.jobs[w.jobOf[s] := job], notices := notices), limits)
  {
    hide Indexed, Lockstep, QuotaExact, ChargedOnce, CancelsStick, DraftChain, Approved, Leased, Targeted,
      Numbered, Budgeted, Capped, Checkpointed, Announced, SurveySound;
    PairKeeps(w, limits, s, v, job);
    QuotaUntouched(w.usage, w.surveys, w.hist, s, v);
    ChargesUntouched(w.surveys, w.hist, s, v);
  }

  lemma Mail(w: World, limits: Limits)
    requires Inv(w, limits)
    ensures Announced(w.surveys, w.notices)
  {
  }

  lemma FinishKeeps(w: World, limits: Limits, j: JobId, worker: AttemptId, storage: (UserId, JobId), manifest: Manifest)
    requires Inv(w, limits)
    ensures Inv(FinishArchive(w, j, worker, storage, manifest).next, limits)
  {
    hide Inv, Announced;
    var step := FinishArchive(w, j, worker, storage, manifest);
    if step.reply.Done? {
      var s := w.jobs[j].survey;
      var v := step.next.surveys[s];
      JobsSurvey(w, limits, j);
      NoNotice(w, limits, s);
      Mail(w, limits);
      AnnouncedRow(w.surveys, w.notices, s, v);
      if s in step.next.notices {
        AnnouncedOutcome(w.surveys, w.notices, s, v, step.next.notices[s]);
      }
      EndedKeeps(w, limits, s, v, step.next.jobs[j], step.next.notices);
    }
  }

  lemma RepairKeeps(w: World, limits: Limits, j: JobId, expected: Manifest, replacement: Manifest)
    requires Inv(w, limits)
    ensures Inv(RepairEvidence(w, j, expected, replacement).next, limits)
  {
    hide Inv, Announced;
    var step := RepairEvidence(w, j, expected, replacement);
    if step.reply.Done? {
      var s := w.jobs[j].survey;
      JobsSurvey(w, limits, j);
      JobKeeps(w, limits, s, step.next.surveys[s], step.next.jobs[j]);
    }
  }

  /** A verified archive turns a failed, released Survey into a charged success. */
  lemma RecoveredKeeps(w: World, limits: Limits, s: SurveyId, v: Survey, job: Job, notices: map<SurveyId, Notice>)
    requires Inv(w, limits) && s in w.jobOf && s in w.surveys && w.jobOf[s] in w.jobs
    requires var was := w.jobs[w.jobOf[s]];
             && job.survey == s && job.approved == was.approved && job.lease.None?
             && !job.cancelRequested && !was.cancelRequested && job.checkpoint == was.checkpoint
    requires v.birth == w.surveys[s].birth && KeyOf(v) == KeyOf(w.surveys[s]) && !v.status.Drafting?
    requires w.surveys[s].quota.Released? && v.quota.Consumed? && SurveySound(v, Some(job))
    requires Announced(w.surveys[s := v], notices)
    ensures var key := KeyOf(w.surveys[s]);
            var h := Bill(w.hist, w.surveys[s], true);
            && key in w.usage
            && Inv(w.(usage := w.usage[key := w.usage[key].(succeeded := w.usage[key].succeeded + 1)],
                      surveys := w.surveys[s := v], jobs := w.jobs[w.jobOf[s] := job], notices := notices,
                      hist := h.(recoveries := h.recoveries[key := Get(h.recoveries, key, 0) + 1])), limits)
  {
    hide Indexed, Lockstep, QuotaExact, ChargedOnce, CancelsStick, DraftChain, Approved, Leased, Targeted,
      Numbered, Budgeted, Capped, Checkpointed, Announced, SurveySound, Get, KeyOf;
    var key := KeyOf(w.surveys[s]);
    var surveys', jobs' := w.surveys[s := v], w.jobs[w.jobOf[s] := job];
    var h := Bill(w.hist, w.surveys[s], true);
    var h' := h.(recoveries := h.recoveries[key := Get(h.recoveries, key, 0) + 1]);
    SameKey(v, w.surveys[s]);
    PairKeeps(w, limits, s, v, job);
    QuotaRecovered(w.usage, w.surveys, w.hist, s, v);
    ChargesBilled(w.surveys, w.hist, s, v, true);
    UncancelledBirth(w, limits, s);
    CancelsBilled(surveys', w.jobOf, jobs', w.hist, w.surveys[s], true);
    CheckpointsBilled(surveys', w.jobOf, jobs', w.attempts, w.hist, h');
    RecoveriesAside(surveys', w.jobOf, jobs', h, h');
  }

  lemma SameKey(v: Survey, s: Survey)
    requires KeyOf(v) == KeyOf(s)
    ensures v.user == s.user && v.day == s.day
  {
  }

  lemma RecoveriesAside(surveys: map<SurveyId, Survey>, jobOf: map<SurveyId, JobId>, jobs: map<JobId, Job>,
                        h: History, h': History)
    requires ChargedOnce(surveys, h) && CancelsStick(surveys, jobOf, jobs, h)
    requires h' == h.(recoveries := h'.recoveries)
    ensures ChargedOnce(surveys, h') && CancelsStick(surveys, jobOf, jobs, h')
  {
    hide JobRow, Charged;
  }

  lemma RecoverArchivedKeeps(w: World, limits: Limits, j: JobId, expected: Manifest, error: ErrorCode,
                             replacement: Option<Manifest>)
    requires Inv(w, limits)
    ensures Inv(RecoverArchived(w, j, expected, error, replacement).next, limits)
  {
    hide Inv, Announced;
    var step := RecoverArchived(w, j, expected, error, replacement);
    if step.reply.Done? {
      var s := w.jobs[j].survey;
      var v := step.next.surveys[s];
      JobsSurvey(w, limits, j);
      Mail(w, limits);
      if s in step.next.notices {
        AnnouncedOutcome(w.surveys, w.notices, s, v, step.next.notices[s]);
      } else {
        AnnouncedRow(w.surveys, w.notices, s, v);
      }
      RecoveredKeeps(w, limits, s, v, step.next.jobs[j], step.next.notices);
    }
  }

  lemma SetSendingKeeps(w: World, limits: Limits, s: SurveyId, sending: bool)
    requires Inv(w, limits)
    ensures Inv(SetSending(w, s, sending).next, limits)
  {
    hide Indexed, Lockstep, QuotaExact, ChargedOnce, CancelsStick, DraftChain, Approved, Leased, Targeted,
      Numbered, Budgeted, Capped, Checkpointed;
  }
}
