/** Draft revisions and compute attempts keep the invariants. */
module SurveyCompute {
  import opened Sets
  import opened Wrappers
  import opened SurveyModel
  import opened SurveyTransitions
  import opened SurveyInvariants
  import opened SurveyDraftLemmas
  import opened SurveyAttemptLemmas
  import opened SurveyRowLemmas
  import opened SurveySteps
  import opened SurveyWithdraw
  import opened SurveyArchive

  // ---------- Drafts ----------

  lemma TopOf(w: World, limits: Limits, s: SurveyId)
    requires Inv(w, limits) && s in w.surveys
    ensures LatestRevision(w.drafts, s) == Top(w.drafts, s)
    ensures (LatestRevision(w.drafts, s).Some? ==> LatestRevision(w.drafts, s).value < 10)
              ==> |ReadyOf(w.drafts, s)| < 10
  {
    hide Indexed, Lockstep, QuotaExact, ChargedOnce, CancelsStick, Approved, Leased, Targeted,
      Numbered, Budgeted, Capped, Checkpointed, Announced, LatestRevision, ActiveSound, DraftSound, OneActive;
    LatestIsTop(w.drafts, s);
    assert ReadyOf(w.drafts, s) == {} ==> |ReadyOf(w.drafts, s)| == 0;
  }

  lemma RequestDraftKeeps(w: World, limits: Limits, s: SurveyId, user: UserId, d: DraftId,
                          request: RequestId, hash: Hash)
    requires Inv(w, limits)
    ensures Inv(RequestDraft(w, s, user, d, request, hash).next, limits)
  {
    hide Inv, RequestedDrafts, LatestRevision, ReadyOf, Top;
    var step := RequestDraft(w, s, user, d, request, hash);
    if step.reply.Done? {
      TopOf(w, limits, s);
      UnreadyKeeps(w, limits, d, step.next.drafts[d]);
    }
  }

  /** The next ready revision of a drafting Survey. */
  lemma ReadyKeeps(w: World, limits: Limits, d: DraftId, v: Draft)
    requires Inv(w, limits)
    requires d in w.drafts ==> !w.drafts[d].status.Ready? && w.drafts[d].survey == v.survey
    requires v.survey in w.surveys && w.surveys[v.survey].status.Drafting?
    requires v.status.Ready? && DraftSound(v) && v.lease.None?
    requires v.basedOn == Top(w.drafts, v.survey) && v.revision == Some(Next(v.basedOn)) && v.revision.value <= 10
    requires forall e :: e in w.drafts && w.drafts[e].survey == v.survey && IsActiveDraft(w.drafts[e]) ==> e == d
    ensures Inv(w.(drafts := w.drafts[d := v]), limits)
  {
    hide Indexed, Lockstep, QuotaExact, ChargedOnce, CancelsStick, DraftChain, Approved, Leased, Targeted,
      Numbered, Budgeted, Capped, Checkpointed, Announced, ReadyOf, Top, DraftSound;
    ReadyRow(w.surveys, w.drafts, d, v);
    DraftingHasNoJob(w, limits, v.survey);
    DraftRowLinks(w, d, v);
  }

  lemma ManualDraftKeeps(w: World, limits: Limits, s: SurveyId, user: UserId, d: DraftId,
                         request: RequestId, hash: Hash, markdown: string)
    requires Inv(w, limits)
    ensures Inv(ManualDraft(w, s, user, d, request, hash, markdown).next, limits)
  {
    hide Inv, RequestedDrafts, LatestRevision, ReadyOf, Top;
    var step := ManualDraft(w, s, user, d, request, hash, markdown);
    if step.reply.Done? {
      TopOf(w, limits, s);
      ReadyKeeps(w, limits, d, step.next.drafts[d]);
    }
  }

  lemma RoomAbove(drafts: map<DraftId, Draft>, s: SurveyId)
    requires |ReadyOf(drafts, s)| < 10
    ensures Next(Top(drafts, s)) <= 10
  {
  }

  lemma CompleteDraftKeeps(w: World, limits: Limits, d: DraftId, worker: AttemptId, markdown: string)
    requires Inv(w, limits)
    ensures Inv(CompleteDraft(w, d, worker, markdown).next, limits)
    ensures CompleteDraft(w, d, worker, markdown).reply.Done? <==> OwnsDraft(w, d, worker)
  {
    hide Inv, LatestRevision, ReadyOf, Top;
    var step := CompleteDraft(w, d, worker, markdown);
    if OwnsDraft(w, d, worker) {
      ActiveFacts(w, limits, d);
      TopOf(w, limits, w.drafts[d].survey);
      RoomAbove(w.drafts, w.drafts[d].survey);
      ReadyKeeps(w, limits, d, step.next.drafts[d]);
    }
  }

  lemma FailDraftKeeps(w: World, limits: Limits, d: DraftId, worker: AttemptId)
    requires Inv(w, limits)
    ensures Inv(FailDraft(w, d, worker).next, limits)
  {
    hide Inv;
    if FailDraft(w, d, worker).reply.Done? {
      SetAside(w, limits, d, DraftStatus.Failed);
    }
  }

  lemma RecoverDraftKeeps(w: World, limits: Limits, d: DraftId)
    requires Inv(w, limits)
    ensures Inv(RecoverDraft(w, d).next, limits)
  {
    hide Inv;
    if RecoverDraft(w, d).reply.Done? {
      SetAside(w, limits, d, DraftStatus.Failed);
    }
  }

  // ---------- reservation and launch ----------

  lemma NewTarget(jobs: map<JobId, Job>, drafts: map<DraftId, Draft>, attempts: map<AttemptId, Attempt>,
                  a: AttemptId, v: Attempt)
    requires Leased(jobs, drafts, attempts) && Targeted(jobs, drafts, attempts)
    requires a !in attempts && Targets(jobs, drafts, v)
    ensures Leased(jobs, drafts, attempts[a := v]) && Targeted(jobs, drafts, attempts[a := v])
  {
    hide Targets;
  }

  lemma LaterAttempts(c: Option<Checkpoint>, cs: seq<Commit>, m: nat, n: nat)
    requires Positioned(c, cs, m) && m <= n
    ensures Positioned(c, cs, n)
  {
  }

  lemma GrownCheckpoints(surveys: map<SurveyId, Survey>, jobOf: map<SurveyId, JobId>, jobs: map<JobId, Job>,
                         attempts: map<AttemptId, Attempt>, h: History, a: AttemptId, v: Attempt)
    requires Checkpointed(surveys, jobOf, jobs, attempts, h) && a !in attempts
    ensures Checkpointed(surveys, jobOf, jobs, attempts[a := v], h)
  {
    hide Positioned, AttemptsOn;
    forall s | s in surveys && s in jobOf && jobOf[s] in jobs
      ensures Positioned(jobs[jobOf[s]].checkpoint, Get(h.commits, surveys[s].birth, []),
                         |AttemptsOn(attempts[a := v], FullWork, jobOf[s])|)
    {
      var j := jobOf[s];
      AttemptsOnInsert(attempts, a, v, FullWork, j);
      SubsetSize(AttemptsOn(attempts, FullWork, j), AttemptsOn(attempts[a := v], FullWork, j));
      LaterAttempts(jobs[j].checkpoint, Get(h.commits, surveys[s].birth, []),
                    |AttemptsOn(attempts, FullWork, j)|, |AttemptsOn(attempts[a := v], FullWork, j)|);
    }
  }

  lemma ReservedKeeps(w: World, limits: Limits, a: AttemptId, v: Attempt)
    requires Inv(w, limits) && Fresh(w.attempts, a, v) && Targets(w.jobs, w.drafts, v) && v.survey in w.surveys
    requires |StartedOn(w.attempts, v.kind, v.target)| < Budget(limits, v.kind)
    requires |ActiveOfKind(w.attempts, v.kind)| < limits.Global(v.kind)
    requires |ActiveOfUser(w.surveys, w.attempts, v.kind, w.surveys[v.survey].user)| < limits.PerUser(v.kind)
    ensures Inv(w.(attempts := w.attempts[a := v]), limits)
  {
    hide Indexed, Lockstep, QuotaExact, ChargedOnce, CancelsStick, DraftChain, Approved, Leased, Targeted,
      Numbered, Budgeted, Capped, Checkpointed, Announced, ActiveOfKind, ActiveOfUser, StartedOn, Targets;
    NumbersReserved(w.attempts, a, v);
    BudgetsReserved(w.attempts, a, v, limits);
    CapsReserved(w.surveys, w.attempts, a, v, limits);
    NewTarget(w.jobs, w.drafts, w.attempts, a, v);
    GrownCheckpoints(w.surveys, w.jobOf, w.jobs, w.attempts, w.hist, a, v);
  }

  lemma ReserveKeeps(w: World, limits: Limits, kind: WorkKind, target: nat, a: AttemptId)
    requires Inv(w, limits)
    ensures Inv(Reserve(w, limits, kind, target, a).next, limits)
  {
    hide Inv, ServedFirst, ActiveOfKind, ActiveOfUser, AttemptsOn, ActiveOn, StartedOn;
    if Reserve(w, limits, kind, target, a).reply.Done? {
      SubsetSize(StartedOn(w.attempts, kind, target), AttemptsOn(w.attempts, kind, target)) by {
        StartedAreOn(w.attempts, kind, target);
      }
      ReservedKeeps(w, limits, a, Reserve(w, limits, kind, target, a).next.attempts[a]);
    }
  }

  lemma StartedAreOn(attempts: map<AttemptId, Attempt>, kind: WorkKind, target: nat)
    ensures StartedOn(attempts, kind, target) <= AttemptsOn(attempts, kind, target)
  {
  }

  lemma RunningStarted(w: World, limits: Limits, a: AttemptId)
    requires Inv(w, limits) && a in w.attempts
    ensures w.attempts[a].status.Running? ==> w.attempts[a].started
    ensures Active(w.attempts[a]) ==>
              w.attempts[a].number == |AttemptsOn(w.attempts, w.attempts[a].kind, w.attempts[a].target)|
  {
    hide Indexed, Lockstep, QuotaExact, ChargedOnce, CancelsStick, DraftChain, Approved, Leased, Targeted,
      Budgeted, Capped, Checkpointed, Announced, AttemptsOn;
  }

  lemma LaunchingKeeps(w: World, limits: Limits, a: AttemptId)
    requires Inv(w, limits)
    ensures Inv(MarkLaunching(w, a).next, limits)
  {
    hide Inv;
    if MarkLaunching(w, a).reply.Done? {
      AttemptRowKeeps(w, limits, a, MarkLaunching(w, a).next.attempts[a]);
    }
  }

  lemma LaunchFailedKeeps(w: World, limits: Limits, a: AttemptId)
    requires Inv(w, limits)
    ensures Inv(LaunchFailed(w, a).next, limits)
  {
    hide Inv;
    if LaunchFailed(w, a).reply.Done? {
      AttemptRowKeeps(w, limits, a, LaunchFailed(w, a).next.attempts[a]);
    }
  }

  lemma LaunchedKeeps(w: World, limits: Limits, a: AttemptId, arn: nat)
    requires Inv(w, limits)
    ensures Inv(MarkLaunched(w, a, arn).next, limits)
  {
    hide Inv;
    if MarkLaunched(w, a, arn).reply.Done? {
      AttemptRowKeeps(w, limits, a, MarkLaunched(w, a, arn).next.attempts[a]);
    }
  }

  // ---------- claims ----------

  lemma ClaimDraftKeeps(w: World, limits: Limits, d: DraftId, a: AttemptId, lease: int)
    requires Inv(w, limits)
    ensures Inv(ClaimDraft(w, d, a, lease).next, limits)
  {
    hide Inv, Top;
    var step := ClaimDraft(w, d, a, lease);
    if step.reply.Done? {
      AttemptRowKeeps(w, limits, a, step.next.attempts[a]);
      var w1 := w.(attempts := step.next.attempts);
      ActiveFacts(w1, limits, d);
      UnreadyKeeps(w1, limits, d, step.next.drafts[d]);
    }
  }

  lemma ClaimJobKeeps(w: World, limits: Limits, j: JobId, a: AttemptId, lease: int, timeout: int)
    requires Inv(w, limits)
    ensures Inv(ClaimJob(w, j, a, lease, timeout).next, limits)
  {
    hide Inv;
    var step := ClaimJob(w, j, a, lease, timeout);
    if step.reply.Done? {
      AttemptRowKeeps(w, limits, a, step.next.attempts[a]);
      var w1 := w.(attempts := step.next.attempts);
      var s := w.jobs[j].survey;
      JobsSurvey(w, limits, j);
      IndexOf(w, limits, w.attempts[a].survey);
      OneJobEach(w, limits, w.attempts[a].survey, j);
      if w.jobs[j].status.Queued? {
        NoNotice(w, limits, s);
      }
      var v := step.next.surveys[s];
      JobKeeps(w1, limits, s, v, step.next.jobs[j]);
      assert step.next == w1.(surveys := w1.surveys[s := v], jobs := w1.jobs[j := step.next.jobs[j]]) by {
        assert step.next.surveys == w.surveys[s := v];
      }
    }
  }

  lemma OneJobEach(w: World, limits: Limits, s: SurveyId, j: JobId)
    requires Inv(w, limits) && s in w.jobOf && w.jobOf[s] == j
    ensures j in w.jobs && w.jobs[j].survey == s
  {
    hide Lockstep, QuotaExact, ChargedOnce, CancelsStick, DraftChain, Approved, Leased, Targeted,
      Numbered, Budgeted, Capped, Checkpointed, Announced;
  }

  // ---------- checkpoints ----------

  lemma LineGrows(p: Option<Checkpoint>, p': Option<Checkpoint>, cs: seq<Commit>, c: Commit)
    requires Positioned(p, cs, c.number) && c.sequence == Position(p) + 1
    requires p' == Some(Checkpoint(c.sequence, c.stage, c.manifest))
    ensures Positioned(p', cs + [c], c.number)
  {
  }

  lemma CheckpointsAdvance(surveys: map<SurveyId, Survey>, jobOf: map<SurveyId, JobId>, jobs: map<JobId, Job>,
                           attempts: map<AttemptId, Attempt>, h: History, s: SurveyId, job: Job, c: Commit)
    requires Indexed(surveys, jobOf, jobs) && Checkpointed(surveys, jobOf, jobs, attempts, h) && ChargedOnce(surveys, h)
    requires s in surveys && s in jobOf && job.survey == s
    requires c.sequence == Position(jobs[jobOf[s]].checkpoint) + 1
    requires c.number == |AttemptsOn(attempts, FullWork, jobOf[s])|
    requires job.checkpoint == Some(Checkpoint(c.sequence, c.stage, c.manifest))
    ensures var b := surveys[s].birth;
            Checkpointed(surveys, jobOf, jobs[jobOf[s] := job], attempts,
                         h.(commits := h.commits[b := CommitsOf(h, b) + [c]]))
  {
    hide Positioned, AttemptsOn, Charged;
    var b := surveys[s].birth;
    var h' := h.(commits := h.commits[b := CommitsOf(h, b) + [c]]);
    LineGrows(jobs[jobOf[s]].checkpoint, job.checkpoint, CommitsOf(h, b), c);
    forall t | t in surveys && t != s
      ensures surveys[t].birth != b && Get(h'.commits, surveys[t].birth, []) == Get(h.commits, surveys[t].birth, [])
    {
    }
  }

  /** Committing a checkpoint leaves quota, charges and cancels alone. */
  lemma CommitsAside(usage: map<Key, Usage>, surveys: map<SurveyId, Survey>, jobOf: map<SurveyId, JobId>,
                     jobs: map<JobId, Job>, h: History, h': History)
    requires QuotaExact(usage, surveys, h) && ChargedOnce(surveys, h) && CancelsStick(surveys, jobOf, jobs, h)
    requires h' == h.(commits := h'.commits)
    ensures QuotaExact(usage, surveys, h') && ChargedOnce(surveys, h') && CancelsStick(surveys, jobOf, jobs, h')
  {
    hide Reservations, ChargesTo, JobRow, Charged;
    forall k | k in usage
      ensures Counts(usage[k], surveys, h', k)
    {
      assert Counts(usage[k], surveys, h, k);
    }
  }

  lemma CommittedKeeps(w: World, limits: Limits, s: SurveyId, job: Job, c: Commit)
    requires Inv(w, limits) && s in w.jobOf && s in w.surveys && w.jobOf[s] in w.jobs
    requires !w.jobs[w.jobOf[s]].status.Queued?
    requires c.sequence == Position(w.jobs[w.jobOf[s]].checkpoint) + 1
    requires c.number == |AttemptsOn(w.attempts, FullWork, w.jobOf[s])|
    requires job == w.jobs[w.jobOf[s]].(checkpoint := Some(Checkpoint(c.sequence, c.stage, c.manifest)))
    ensures var b := w.surveys[s].birth;
            Inv(w.(jobs := w.jobs[w.jobOf[s] := job],
                   hist := w.hist.(commits := w.hist.commits[b := CommitsOf(w.hist, b) + [c]])), limits)
  {
    hide Indexed, Lockstep, QuotaExact, ChargedOnce, CancelsStick, DraftChain, Approved, Leased, Targeted,
      Numbered, Budgeted, Capped, Checkpointed, Announced, SurveySound, AttemptsOn, CommitsOf;
    var j := w.jobOf[s];
    var b := w.surveys[s].birth;
    var h' := w.hist.(commits := w.hist.commits[b := CommitsOf(w.hist, b) + [c]]);
    WithJob(w, limits, s);
    StillSound(w.surveys[s], w.jobs[j], job) by {
      LeasedStatus(w.surveys[s], w.jobs[j]);
    }
    LockstepRow(w.surveys, w.jobOf, w.jobs, s, w.surveys[s], job);
    CancelsRow(w.surveys, w.jobOf, w.jobs, w.hist, s, w.surveys[s], job);
    assert w.surveys[s := w.surveys[s]] == w.surveys;
    CheckpointsAdvance(w.surveys, w.jobOf, w.jobs, w.attempts, w.hist, s, job, c);
    CommitsAside(w.usage, w.surveys, w.jobOf, w.jobs[j := job], w.hist, h');
    ApprovedStays(w.jobs, w.jobs[j := job], w.drafts, w.drafts);
    SameLeases(w.jobs, w.drafts, w.attempts, j, job);
  }

  lemma LeasedStatus(s: Survey, job: Job)
    requires SurveySound(s, Some(job))
    ensures job.lease.Some? ==> job.status.Running? || job.status.Archiving?
  {
  }

  lemma CheckpointKeeps(w: World, limits: Limits, j: JobId, a: AttemptId, expected: nat, stage: nat, manifest: nat)
    requires Inv(w, limits)
    ensures Inv(CommitCheckpoint(w, j, a, expected, stage, manifest).next, limits)
    ensures !CommitCheckpoint(w, j, a, expected, stage, manifest).reply.Refused?
  {
    hide Inv, AttemptsOn, CommitsOf;
    var step := CommitCheckpoint(w, j, a, expected, stage, manifest);
    if j in w.jobs {
      LeaseOf(w, limits, j);
    }
    if step.reply.Done? {
      var s := w.jobs[j].survey;
      JobsSurvey(w, limits, j);
      RunningStarted(w, limits, a);
      var at := step.next.attempts[a];
      AttemptRowKeeps(w, limits, a, at);
      var w1 := w.(attempts := step.next.attempts);
      OnRow(w.attempts, a, at);
      CommittedKeeps(w1, limits, s, step.next.jobs[j], Commit(expected + 1, a, at.number, stage, manifest));
    }
  }

  // ---------- heartbeats and stop events ----------

  lemma HeartbeatKeeps(w: World, limits: Limits, a: AttemptId, lease: int)
    requires Inv(w, limits)
    ensures Inv(Heartbeat(w, a, lease).next, limits)
  {
    hide Inv, Top;
    var step := Heartbeat(w, a, lease);
    if step.reply.Done? {
      var target := w.attempts[a].target;
      if w.attempts[a].kind.FullWork? {
        LeaseOf(w, limits, target);
        JobOnlyKeeps(w, limits, target, step.next.jobs[target]);
      } else {
        ActiveFacts(w, limits, target);
        UnreadyKeeps(w, limits, target, step.next.drafts[target]);
      }
    }
  }

  lemma FreedKeeps(w: World, limits: Limits, j: JobId)
    requires Inv(w, limits) && j in w.jobs && w.jobs[j].lease.Some?
    ensures Inv(w.(jobs := w.jobs[j := w.jobs[j].(lease := None)]), limits)
  {
    hide Inv, SurveySound;
    JobsSurvey(w, limits, j);
    LeasedStatus(w.surveys[w.jobs[j].survey], w.jobs[j]);
    JobOnlyKeeps(w, limits, j, w.jobs[j].(lease := None));
  }

  lemma LeasedDraftRuns(w: World, limits: Limits, d: DraftId)
    requires Inv(w, limits) && d in w.drafts
    ensures w.drafts[d].lease.Some? <==> w.drafts[d].status.Running?
  {
    hide Indexed, Lockstep, QuotaExact, ChargedOnce, CancelsStick, Approved, Leased, Targeted,
      Numbered, Budgeted, Capped, Checkpointed, Announced, Chain, ActiveSound, OneActive;
  }

  /** A settled item carries no lease. */
  lemma SettledIsFree(w: World, limits: Limits, a: AttemptId)
    requires Inv(w, limits) && a in w.attempts && TargetSettled(w, w.attempts[a])
    ensures Unleased(w, a)
  {
    hide Inv, SurveySound;
    var target := w.attempts[a].target;
    if w.attempts[a].kind.FullWork? {
      JobsSurvey(w, limits, target);
      LeasedStatus(w.surveys[w.jobs[target].survey], w.jobs[target]);
    } else {
      LeasedDraftRuns(w, limits, target);
    }
  }

  lemma ReturnedKeeps(w: World, limits: Limits, a: AttemptId)
    requires Inv(w, limits) && a in w.attempts
    ensures Inv(Returned(w, a), limits) && Unleased(Returned(w, a), a) && Returned(w, a).attempts == w.attempts
  {
    hide Inv;
    var target := w.attempts[a].target;
    if w.attempts[a].kind.FullWork? {
      if OwnsJob(w, target, a) {
        FreedKeeps(w, limits, target);
      }
    } else if target in w.drafts && w.drafts[target].lease.Some? && w.drafts[target].lease.value.owner == a {
      LeasedDraftRuns(w, limits, target);
      SetAside(w, limits, target, DraftStatus.Queued);
    }
  }

  lemma DroppedKeeps(w: World, limits: Limits, a: AttemptId, retryable: bool)
    requires Inv(w, limits) && a in w.attempts
    ensures Inv(Dropped(w, a, retryable), limits) && Unleased(Dropped(w, a, retryable), a)
    ensures Dropped(w, a, retryable).attempts == w.attempts
  {
    hide Inv, SurveySound;
    var target := w.attempts[a].target;
    if w.attempts[a].kind.FullWork? {
      if OwnsJob(w, target, a) {
        JobsSurvey(w, limits, target);
        LeasedStatus(w.surveys[w.jobs[target].survey], w.jobs[target]);
        FreedKeeps(w, limits, target);
      }
    } else if target in w.drafts {
      LeasedDraftRuns(w, limits, target);
      if OwnsDraft(w, target, a) {
        SetAside(w, limits, target, if retryable then DraftStatus.Queued else DraftStatus.Failed);
      }
    }
  }

  lemma SucceededKeeps(w: World, limits: Limits, a: AttemptId, version: int)
    requires Inv(w, limits)
    ensures Inv(AttemptSucceeded(w, a, version).next, limits)
  {
    hide Inv, Unleased, Returned, TargetSettled;
    var step := AttemptSucceeded(w, a, version);
    if step.reply.Done? {
      var at := w.attempts[a].(eventVersion := Some(version));
      SameSettled(w, w.attempts[a], at);
      if TargetSettled(w, at) {
        SettledIsFree(w, limits, a);
        AttemptRowKeeps(w, limits, a, step.next.attempts[a]);
      } else {
        ReturnedKeeps(w, limits, a);
        AttemptRowKeeps(Returned(w, a), limits, a, step.next.attempts[a]);
      }
    }
  }

  lemma SameSettled(w: World, x: Attempt, y: Attempt)
    requires Same(x, y)
    ensures TargetSettled(w, x) <==> TargetSettled(w, y)
  {
  }

  lemma StoppedKeeps(w: World, limits: Limits, a: AttemptId, version: int, retryable: bool)
    requires Inv(w, limits)
    ensures Inv(AttemptStopped(w, a, version, retryable).next, limits)
  {
    hide Inv, Unleased, Dropped;
    var step := AttemptStopped(w, a, version, retryable);
    if step.reply.Done? {
      DroppedKeeps(w, limits, a, retryable);
      if w.attempts[a].status.Succeeded? || w.attempts[a].status.Failed? || w.attempts[a].status.Cancelled? {
        AttemptRowKeeps(w, limits, a, step.next.attempts[a]);
      } else {
        AttemptRowKeeps(Dropped(w, a, retryable), limits, a, step.next.attempts[a]);
      }
    }
  }

  lemma TickKeeps(w: World, limits: Limits, elapsed: nat)
    requires Inv(w, limits)
    ensures Inv(Tick(w, elapsed).next, limits)
  {
    hide Indexed, Lockstep, QuotaExact, ChargedOnce, CancelsStick, DraftChain, Approved, Leased, Targeted,
      Numbered, Budgeted, Capped, Checkpointed, Announced;
  }
}
