/**
 Reserving transactions under way.  The work list is fetched under the capacity lock of its queue; only
 then is one Survey after another locked and its candidate checked again.  What the list says of a
 candidate stays true until then, whatever other transactions come between.
 */
module SurveyPending {
  import opened Sets
  import opened Wrappers
  import opened SurveyModel
  import opened SurveyTransitions
  import opened SurveyInvariants
  import opened SurveyOps
  import opened SurveySteps
  import opened SurveyCompute
  import opened SurveyCalm

  /** The attempts on the target are as counted, none of them is active, and the budget allows one more. */
  predicate Counted(attempts: map<AttemptId, Attempt>, limits: Limits, kind: WorkKind, c: Candidate) {
    && |AttemptsOn(attempts, kind, c.target)| == c.attempts && ActiveOn(attempts, kind, c.target) == {}
    && (if c.archiving then c.attempts < limits.maxCompute + 8
        else |StartedOn(attempts, kind, c.target)| < limits.maxCompute)
  }

  /** Unless its Survey is gone or its job was withdrawn, the candidate is as it was fetched. */
  predicate Fits(w: World, limits: Limits, kind: WorkKind, c: Candidate) {
    && c.birth < w.hist.births
    && (Identified(w, c) ==> c.user == w.surveys[c.survey].user && ItemFits(w, limits, kind, c))
  }

  predicate ItemFits(w: World, limits: Limits, kind: WorkKind, c: Candidate)
    requires c.survey in w.surveys
  {
    match kind
    case DraftWork =>
      c.target in w.drafts && w.drafts[c.target].survey == c.survey && !c.archiving
      && Counted(w.attempts, limits, kind, c)
    case FullWork =>
      && !w.surveys[c.survey].status.Drafting?
      && (c.survey in w.jobOf && w.jobOf[c.survey] == c.target ==>
            && c.target in w.jobs && Resting(w.jobs[c.target])
            && (w.jobs[c.target].status.Archiving? <==> c.archiving)
            && Counted(w.attempts, limits, kind, c))
  }

  /** The list of a pass under way fits the tables, and the queue has room. */
  ghost predicate Underway(w: World, limits: Limits, kind: WorkKind) {
    kind in w.passes ==>
      && |ActiveOfKind(w.attempts, kind)| < limits.Global(kind)
      && forall c :: c in w.passes[kind] ==> Fits(w, limits, kind, c)
  }

  ghost predicate Pending(w: World, limits: Limits) {
    forall kind :: Underway(w, limits, kind)
  }

  /** Everything a reachable state satisfies: the tables' invariants, and what transactions under way rely on. */
  ghost predicate Sound(w: World, limits: Limits) {
    Inv(w, limits) && Pending(w, limits)
  }

  // ---------- the list stays right ----------

  lemma StillCounted(w: World, v: World, limits: Limits, kind: WorkKind, c: Candidate)
    requires AttemptsCalm(w.attempts, v.attempts, v.jobs, v.drafts, kind) && HasItem(v.jobs, v.drafts, kind, c.target)
    requires Counted(w.attempts, limits, kind, c)
    ensures Counted(v.attempts, limits, kind, c)
  {
    hide HasItem;
    assert forall a :: a in AttemptsOn(v.attempts, kind, c.target) ==> Meek(w.attempts[a], v.attempts[a]);
    assert AttemptsOn(v.attempts, kind, c.target) == AttemptsOn(w.attempts, kind, c.target);
    forall a | a in AttemptsOn(v.attempts, kind, c.target)
      ensures !Active(v.attempts[a]) && (v.attempts[a].started ==> w.attempts[a].started)
    {
      assert a !in ActiveOn(w.attempts, kind, c.target);
    }
    SubsetSize(StartedOn(v.attempts, kind, c.target), StartedOn(w.attempts, kind, c.target));
  }

  lemma NoMoreActive(w: World, v: World, kind: WorkKind)
    requires AttemptsCalm(w.attempts, v.attempts, v.jobs, v.drafts, kind)
    ensures |ActiveOfKind(v.attempts, kind)| <= |ActiveOfKind(w.attempts, kind)|
  {
    SubsetSize(ActiveOfKind(v.attempts, kind), ActiveOfKind(w.attempts, kind));
  }

  lemma JobIndexed(w: World, limits: Limits, s: SurveyId)
    requires Inv(w, limits) && s in w.jobOf
    ensures w.jobOf[s] in w.jobs && w.jobs[w.jobOf[s]].survey == s
  {
    hide Lockstep, QuotaExact, ChargedOnce, CancelsStick, DraftChain, Approved, Leased, Targeted,
      Numbered, Budgeted, Capped, Checkpointed, Announced;
  }

  /** Whatever calms down keeps a candidate as it was fetched. */
  lemma StillFits(w: World, v: World, limits: Limits, kind: WorkKind, c: Candidate)
    requires Inv(v, limits) && Fits(w, limits, kind, c) && Calms(w, v, kind)
    ensures Fits(v, limits, kind, c)
  {
    hide Inv, Counted, AttemptsCalm, ActiveOn;
    if Identified(v, c) {
      assert Identified(w, c);
      if kind.DraftWork? {
        StillCounted(w, v, limits, kind, c);
      } else if c.survey in v.jobOf && v.jobOf[c.survey] == c.target {
        JobIndexed(v, limits, c.survey);
        assert c.survey in w.jobOf && w.jobOf[c.survey] == c.target;
        NoneActive(w.attempts, limits, kind, c);
        assert Kept(w.jobs[c.target], v.jobs[c.target]);
        StillCounted(w, v, limits, kind, c);
      }
    }
  }

  lemma NoneActive(attempts: map<AttemptId, Attempt>, limits: Limits, kind: WorkKind, c: Candidate)
    requires Counted(attempts, limits, kind, c)
    ensures ActiveOn(attempts, kind, c.target) == {}
  {
  }

  lemma StillUnderway(w: World, v: World, limits: Limits, kind: WorkKind)
    requires Inv(v, limits) && Underway(w, limits, kind) && Calms(w, v, kind)
    requires kind in v.passes ==> kind in w.passes && forall c :: c in v.passes[kind] ==> c in w.passes[kind]
    ensures Underway(v, limits, kind)
  {
    hide Inv, Fits, Calms;
    if kind in v.passes {
      CalmAttempts(w, v, kind);
      NoMoreActive(w, v, kind);
      forall c | c in v.passes[kind]
        ensures Fits(v, limits, kind, c)
      {
        StillFits(w, v, limits, kind, c);
      }
    }
  }

  lemma CalmAttempts(w: World, v: World, kind: WorkKind)
    requires Calms(w, v, kind)
    ensures AttemptsCalm(w.attempts, v.attempts, v.jobs, v.drafts, kind)
  {
    hide AttemptsCalm, JobsCalm, IndexCalm, DraftsCalm, SurveysCalm;
  }

  // ---------- fetching ----------

  lemma DraftHasBirth(w: World, limits: Limits, s: SurveyId)
    requires Inv(w, limits) && s in w.surveys
    ensures w.surveys[s].birth < w.hist.births
  {
    hide Indexed, Lockstep, QuotaExact, CancelsStick, DraftChain, Approved, Leased, Targeted,
      Numbered, Budgeted, Capped, Checkpointed, Announced;
  }

  lemma HolderActive(w: World, limits: Limits, j: JobId)
    requires Inv(w, limits) && j in w.jobs && w.jobs[j].lease.Some?
    ensures w.jobs[j].lease.value.owner in ActiveOn(w.attempts, FullWork, j)
  {
    hide Indexed, Lockstep, QuotaExact, ChargedOnce, CancelsStick, DraftChain, Approved, Targeted,
      Numbered, Budgeted, Capped, Checkpointed, Announced;
  }

  /** Without an active attempt nobody holds the job. */
  lemma UnheldJob(w: World, limits: Limits, j: JobId)
    requires Inv(w, limits) && j in w.jobs && ActiveOn(w.attempts, FullWork, j) == {}
    ensures w.jobs[j].lease.None?
  {
    hide Inv, ActiveOn;
    if w.jobs[j].lease.Some? {
      HolderActive(w, limits, j);
    }
  }

  lemma FetchedFits(w: World, limits: Limits, kind: WorkKind, target: nat)
    requires Inv(w, limits) && Reservable(w, limits, kind, target)
    ensures Fits(w, limits, kind, CandidateOf(w, kind, target))
  {
    hide Inv, ActiveOfUser, AttemptsOn, StartedOn;
    var s := SurveyOf(w, kind, target);
    DraftHasBirth(w, limits, s);
    if kind.FullWork? {
      JobsSurvey(w, limits, target);
      UnheldJob(w, limits, target);
    }
  }

  lemma ReservableListed(w: World, limits: Limits, kind: WorkKind, target: nat)
    requires Reservable(w, limits, kind, target)
    ensures Listed(w, kind, target)
  {
    hide Listed;
  }

  lemma FetchedUnderway(w: World, limits: Limits, kind: WorkKind, began: Time, list: seq<nat>)
    requires Inv(w, limits) && Fetch(w, limits, kind, began, list).reply.Done?
    ensures Underway(Fetch(w, limits, kind, began, list).next, limits, kind)
  {
    hide Inv, Fits, Reservable, ActiveOfKind, Listed, InOrder, ComesAfter;
    var u, v := w.(now := began), Fetch(w, limits, kind, began, list).next;
    InvAside(w, u, limits);
    forall c | c in v.passes[kind]
      ensures Fits(v, limits, kind, c)
    {
      var i :| 0 <= i < |v.passes[kind]| && c == v.passes[kind][i];
      ReservableListed(u, limits, kind, list[i]);
      FetchedFits(u, limits, kind, list[i]);
      FitsAside(u, v, limits, kind, c);
    }
  }

  lemma FitsAside(w: World, v: World, limits: Limits, kind: WorkKind, c: Candidate)
    requires Fits(w, limits, kind, c) && v == w.(now := v.now, line := v.line, passes := v.passes)
    ensures Fits(v, limits, kind, c)
  {
    hide Counted;
  }

  /** The invariants are about the tables, not about the time or about transactions under way. */
  lemma InvAside(w: World, v: World, limits: Limits)
    requires Inv(w, limits) && (v == w || v == w.(now := v.now, line := v.line, passes := v.passes))
    ensures Inv(v, limits)
  {
    hide Indexed, Lockstep, QuotaExact, ChargedOnce, CancelsStick, DraftChain, Approved, Leased, Targeted,
      Numbered, Budgeted, Capped, Checkpointed, Announced;
  }

  // ---------- reserving ----------

  lemma NumbersBelow(w: World, limits: Limits, kind: WorkKind, target: nat)
    requires Inv(w, limits)
    ensures !NumberTaken(w.attempts, kind, target, |AttemptsOn(w.attempts, kind, target)| + 1)
  {
    hide Indexed, Lockstep, QuotaExact, ChargedOnce, CancelsStick, DraftChain, Approved, Leased, Targeted,
      Budgeted, Capped, Checkpointed, Announced, Active;
  }

  lemma StartedInBudget(attempts: map<AttemptId, Attempt>, limits: Limits, kind: WorkKind, c: Candidate)
    requires Counted(attempts, limits, kind, c) && (c.archiving ==> kind.FullWork?)
    ensures |StartedOn(attempts, kind, c.target)| < Budget(limits, kind)
  {
    SubsetSize(StartedOn(attempts, kind, c.target), AttemptsOn(attempts, kind, c.target));
  }

  /** A candidate that passes the check under the lock is as it was fetched. */
  lemma CurrentCounted(w: World, limits: Limits, kind: WorkKind, c: Candidate)
    requires Inv(w, limits) && Fits(w, limits, kind, c) && Current(w, kind, c)
    ensures Counted(w.attempts, limits, kind, c) && c.user == w.surveys[c.survey].user
    ensures Targets(w.jobs, w.drafts, LateAttempt(w, kind, c)) && (c.archiving ==> kind.FullWork?)
    ensures kind.FullWork? ==> (w.jobs[c.target].status.Archiving? <==> c.archiving)
  {
    hide Inv, Counted;
    if kind.FullWork? {
      JobIndexed(w, limits, c.survey);
    }
  }

  /** No unique index stops a candidate that passes the check, and its reservation keeps the invariants. */
  lemma LateKeeps(w: World, limits: Limits, kind: WorkKind, c: Candidate, a: AttemptId)
    requires Inv(w, limits) && Fits(w, limits, kind, c) && |ActiveOfKind(w.attempts, kind)| < limits.Global(kind)
    ensures var step := LateReserve(w, limits, kind, c, a);
            && Inv(step.next, limits)
            && (step.reply.Refused? ==> a in w.attempts)
            && (step.reply.Done? <==>
                  && Current(w, kind, c) && a !in w.attempts
                  && |ActiveOfUser(w.surveys, w.attempts, kind, c.user)| < limits.PerUser(kind))
  {
    hide Inv, Fits, Counted, Current, ActiveOfUser, ActiveOfKind, ActiveOn, AttemptsOn, StartedOn, NumberTaken, Targets;
    if Current(w, kind, c) {
      CurrentCounted(w, limits, kind, c);
      CurrentSurvey(w, kind, c);
      NoneActive(w.attempts, limits, kind, c);
      StartedInBudget(w.attempts, limits, kind, c);
      NumberIs(w.attempts, limits, kind, c);
      NumbersBelow(w, limits, kind, c.target);
      if LateReserve(w, limits, kind, c, a).reply.Done? {
        ReservedKeeps(w, limits, a, LateAttempt(w, kind, c));
      }
    }
  }

  lemma NumberIs(attempts: map<AttemptId, Attempt>, limits: Limits, kind: WorkKind, c: Candidate)
    requires Counted(attempts, limits, kind, c)
    ensures c.attempts == |AttemptsOn(attempts, kind, c.target)|
  {
  }

  lemma CurrentSurvey(w: World, kind: WorkKind, c: Candidate)
    requires Current(w, kind, c)
    ensures c.survey in w.surveys && w.surveys[c.survey].birth == c.birth
  {
  }

  lemma TryKeeps(w: World, limits: Limits, kind: WorkKind, a: AttemptId)
    requires Inv(w, limits) && Underway(w, limits, kind)
    ensures Inv(TryNext(w, limits, kind, a).next, limits)
  {
    hide Inv, Fits, LateReserve, ActiveOfKind, Shortened;
    if kind in w.passes && w.passes[kind] != [] {
      var c := w.passes[kind][0];
      var step := LateReserve(w, limits, kind, c, a);
      assert Fits(w, limits, kind, c);
      LateKeeps(w, limits, kind, c, a);
      LateShape(w, limits, kind, c, a);
      InvAside(step.next, step.next.(passes := w.passes - {kind}), limits);
      InvAside(w, w.(passes := Shortened(w.passes, kind)), limits);
    } else {
      InvAside(w, w.(passes := w.passes - {kind}), limits);
    }
  }

  lemma FetchKeeps(w: World, limits: Limits, kind: WorkKind, began: Time, list: seq<nat>)
    requires Inv(w, limits)
    ensures Inv(Fetch(w, limits, kind, began, list).next, limits)
  {
    hide Inv, Fetch;
    FetchOnlyPasses(w, limits, kind, began, list);
    InvAside(w, Fetch(w, limits, kind, began, list).next, limits);
  }

  // ---------- every step ----------

  /** The lists and queues of reserving transactions are as they were. */
  predicate SamePasses(w: World, v: World) {
    v.line == w.line && v.passes == w.passes
  }

  lemma CreatePasses(w: World, s: SurveyId, d: DraftId, user: UserId, request: RequestId,
                     hash: Hash, day: Day, override: Option<int>, dailyLimit: int)
    ensures SamePasses(w, Create(w, s, d, user, request, hash, day, override, dailyLimit).next)
  {
    hide RequestedSurveys;
  }

  lemma RequestPasses(w: World, s: SurveyId, user: UserId, d: DraftId, request: RequestId, hash: Hash)
    ensures SamePasses(w, RequestDraft(w, s, user, d, request, hash).next)
  {
    hide RequestedDrafts, LatestRevision, HasActiveDraft;
  }

  lemma ManualPasses(w: World, s: SurveyId, user: UserId, d: DraftId, request: RequestId, hash: Hash, markdown: string)
    ensures SamePasses(w, ManualDraft(w, s, user, d, request, hash, markdown).next)
  {
    hide RequestedDrafts, LatestRevision, HasActiveDraft;
  }

  lemma DraftEndPasses(w: World, d: DraftId, worker: AttemptId, markdown: string)
    ensures SamePasses(w, CompleteDraft(w, d, worker, markdown).next)
    ensures SamePasses(w, FailDraft(w, d, worker).next)
    ensures SamePasses(w, RecoverDraft(w, d).next)
  {
    hide LatestRevision;
  }

  lemma StartPasses(w: World, s: SurveyId, user: UserId, j: JobId, request: RequestId, hash: Hash, notify: bool)
    ensures SamePasses(w, Start(w, s, user, j, request, hash, notify).next)
  {
    hide HasActiveDraft, IsLatest;
  }

  lemma CancelPasses(w: World, s: SurveyId, user: UserId)
    ensures SamePasses(w, Cancel(w, s, user).next)
  {
    hide Settled, CancelledDrafts;
  }

  lemma DeletePasses(w: World, s: SurveyId, user: UserId)
    ensures SamePasses(w, Delete(w, s, user).next)
  {
    hide Settled;
  }

  lemma OwnerPasses(w: World, limits: Limits, op: Op)
    requires OfOwner(op)
    ensures SamePasses(w, Apply(w, limits, op).next)
  {
    hide SamePasses, Create, RequestDraft, ManualDraft, CompleteDraft, FailDraft, RecoverDraft, Start, Cancel, Delete,
      Settle, FinishArchive, DeferArchive, MarkWorkspaceMissing, RecoverJob, RecoverArchived, RepairEvidence,
      SetSending, Reserve, Fetch, TryNext, MarkLaunching, LaunchFailed, MarkLaunched, ClaimDraft, ClaimJob,
      CommitCheckpoint, Heartbeat, AttemptSucceeded, AttemptStopped, Tick;
    match op {
      case CreateSurvey(s, d, user, request, hash, day, override, dailyLimit) =>
        CreatePasses(w, s, d, user, request, hash, day, override, dailyLimit);
      case RequestGeneratedDraft(s, user, d, request, hash) => RequestPasses(w, s, user, d, request, hash);
      case CreateManualDraft(s, user, d, request, hash, markdown) =>
        ManualPasses(w, s, user, d, request, hash, markdown);
      case CompleteSurveyDraft(d, worker, markdown) => DraftEndPasses(w, d, worker, markdown);
      case FailSurveyDraft(d, worker) => DraftEndPasses(w, d, worker, "");
      case RecoverExpiredDraft(d) => DraftEndPasses(w, d, 0, "");
      case StartSurvey(s, user, j, request, hash, notify) => StartPasses(w, s, user, j, request, hash, notify);
      case CancelSurvey(s, user) => CancelPasses(w, s, user);
      case DeleteSurvey(s, user) => DeletePasses(w, s, user);
    }
  }

  lemma ExecutionPasses(w: World, limits: Limits, op: Op)
    requires OfExecution(op)
    ensures SamePasses(w, Apply(w, limits, op).next)
  {
    hide Settled, Notified, OwnStorage, OwnOverlay, Ended, Create, RequestDraft, ManualDraft, CompleteDraft, FailDraft,
      RecoverDraft, Start, Cancel, Delete, Reserve, Fetch, TryNext, MarkLaunching, LaunchFailed, MarkLaunched,
      ClaimDraft, ClaimJob, CommitCheckpoint, Heartbeat, AttemptSucceeded, AttemptStopped, Tick;
  }

  lemma ReserveAside(w: World, limits: Limits, kind: WorkKind, target: nat, a: AttemptId)
    ensures var v := Reserve(w, limits, kind, target, a).next; v == w || v == w.(attempts := v.attempts)
  {
    hide Leads, ActiveOfKind, NextAttempt;
  }

  /** No table but those of attempts and mail is touched. */
  predicate OnlyAttempts(w: World, v: World) {
    && v.surveys == w.surveys && v.jobOf == w.jobOf && v.jobs == w.jobs && v.drafts == w.drafts
    && v.line == w.line && v.passes == w.passes && v.hist == w.hist
  }

  lemma ReservesAside(w: World, limits: Limits, op: Op)
    requires op.ReserveAttempt?
    ensures OnlyAttempts(w, Apply(w, limits, op).next)
  {
    hide Create, RequestDraft, ManualDraft, CompleteDraft, FailDraft, RecoverDraft, Start, Cancel, Delete, Settle,
      FinishArchive, DeferArchive, MarkWorkspaceMissing, RecoverJob, RecoverArchived, RepairEvidence, SetSending,
      Reserve, JoinLine, Fetch, TryNext, EndPass, MarkLaunching, LaunchFailed, MarkLaunched, ClaimDraft, ClaimJob,
      CommitCheckpoint, Heartbeat, AttemptSucceeded, AttemptStopped, Tick;
    ReserveAside(w, limits, op.kind, op.target, op.a);
  }

  lemma LaunchesAside(w: World, limits: Limits, op: Op)
    requires op.MarkAttemptLaunching? || op.RecordLaunchFailure? || op.MarkAttemptLaunched?
    ensures OnlyAttempts(w, Apply(w, limits, op).next)
  {
    hide Create, RequestDraft, ManualDraft, CompleteDraft, FailDraft, RecoverDraft, Start, Cancel, Delete, Settle,
      FinishArchive, DeferArchive, MarkWorkspaceMissing, RecoverJob, RecoverArchived, RepairEvidence, SetSending,
      Reserve, JoinLine, Fetch, TryNext, EndPass, ClaimDraft, ClaimJob, CommitCheckpoint, Heartbeat,
      AttemptSucceeded, AttemptStopped, Tick;
  }

  lemma TimeAside(w: World, limits: Limits, op: Op)
    requires op.PassTime? || op.SetMailSending?
    ensures OnlyAttempts(w, Apply(w, limits, op).next)
  {
    hide Create, RequestDraft, ManualDraft, CompleteDraft, FailDraft, RecoverDraft, Start, Cancel, Delete, Settle,
      FinishArchive, DeferArchive, MarkWorkspaceMissing, RecoverJob, RecoverArchived, RepairEvidence, Reserve,
      JoinLine, Fetch, TryNext, EndPass, MarkLaunching, LaunchFailed, MarkLaunched, ClaimDraft, ClaimJob,
      CommitCheckpoint, Heartbeat, AttemptSucceeded, AttemptStopped;
  }

  /** Reserving, launching, the mailer and time touch none of these. */
  lemma LaunchAside(w: World, limits: Limits, op: Op)
    requires OfLaunch(op) || op.SetMailSending?
    ensures OnlyAttempts(w, Apply(w, limits, op).next)
  {
    hide Apply, OnlyAttempts;
    if op.ReserveAttempt? {
      ReservesAside(w, limits, op);
    } else if op.PassTime? || op.SetMailSending? {
      TimeAside(w, limits, op);
    } else {
      LaunchesAside(w, limits, op);
    }
  }

  lemma ClaimAside(w: World, d: nat, a: AttemptId, lease: int, timeout: int)
    ensures var v := ClaimDraft(w, d, a, lease).next; SamePasses(w, v) && v.surveys == w.surveys && v.hist == w.hist
    ensures var v := ClaimJob(w, d, a, lease, timeout).next; SamePasses(w, v) && v.hist == w.hist
  {
    hide Sequence;
  }

  lemma CommitAside(w: World, j: JobId, a: AttemptId, position: nat, stage: nat, pointer: nat)
    ensures var v := CommitCheckpoint(w, j, a, position, stage, pointer).next;
            SamePasses(w, v) && v.surveys == w.surveys
  {
    hide CommitsOf;
  }

  lemma HeartbeatAside(w: World, a: AttemptId, lease: int)
    ensures var v := Heartbeat(w, a, lease).next; SamePasses(w, v) && v.surveys == w.surveys && v.hist == w.hist
  {
  }

  lemma StopsAside(w: World, step: Step, u: World, a: AttemptId)
    requires Stops(w, step, u, a) && LetsGo(w, u)
    ensures SamePasses(w, step.next) && step.next.surveys == w.surveys && step.next.hist == w.hist
  {
    hide JobsCalm, DraftsCalm, Meek;
  }

  lemma SucceededAside(w: World, a: AttemptId, version: int)
    ensures var v := AttemptSucceeded(w, a, version).next;
            SamePasses(w, v) && v.surveys == w.surveys && v.hist == w.hist
  {
    hide LetsGo, Stops, Returned;
    if a in w.attempts {
      ReturnedLetsGo(w, a);
      SucceededStops(w, a, version);
      StopsAside(w, AttemptSucceeded(w, a, version), Returned(w, a), a);
    }
  }

  lemma StoppedAside(w: World, a: AttemptId, version: int, retryable: bool)
    ensures var v := AttemptStopped(w, a, version, retryable).next;
            SamePasses(w, v) && v.surveys == w.surveys && v.hist == w.hist
  {
    hide LetsGo, Stops, Dropped;
    if a in w.attempts {
      DroppedLetsGo(w, a, retryable);
      StoppedStops(w, a, version, retryable);
      StopsAside(w, AttemptStopped(w, a, version, retryable), Dropped(w, a, retryable), a);
    }
  }

  lemma ClaimsAside(w: World, limits: Limits, op: Op)
    requires op.ClaimExactDraft? || op.ClaimExactJob?
    ensures var v := Apply(w, limits, op).next;
            SamePasses(w, v) && v.hist == w.hist && (op.ClaimExactDraft? ==> v.surveys == w.surveys)
  {
    hide SamePasses, Create, RequestDraft, ManualDraft, CompleteDraft, FailDraft, RecoverDraft, Start, Cancel,
      Delete, Settle, FinishArchive, DeferArchive, MarkWorkspaceMissing, RecoverJob, RecoverArchived,
      RepairEvidence, SetSending, Reserve, JoinLine, Fetch, TryNext, EndPass, MarkLaunching, LaunchFailed,
      MarkLaunched, ClaimDraft, ClaimJob, CommitCheckpoint, Heartbeat, AttemptSucceeded, AttemptStopped, Tick;
    match op {
      case ClaimExactDraft(d, a, lease) => ClaimAside(w, d, a, lease, 0);
      case ClaimExactJob(j, a, lease, timeout) => ClaimAside(w, j, a, lease, timeout);
    }
  }

  lemma CommitsAside(w: World, limits: Limits, op: Op)
    requires op.CommitJobCheckpoint? || op.HeartbeatAttempt?
    ensures var v := Apply(w, limits, op).next;
            SamePasses(w, v) && v.surveys == w.surveys && (op.HeartbeatAttempt? ==> v.hist == w.hist)
  {
    hide SamePasses, Create, RequestDraft, ManualDraft, CompleteDraft, FailDraft, RecoverDraft, Start, Cancel,
      Delete, Settle, FinishArchive, DeferArchive, MarkWorkspaceMissing, RecoverJob, RecoverArchived,
      RepairEvidence, SetSending, Reserve, JoinLine, Fetch, TryNext, EndPass, MarkLaunching, LaunchFailed,
      MarkLaunched, ClaimDraft, ClaimJob, CommitCheckpoint, Heartbeat, AttemptSucceeded, AttemptStopped, Tick;
    match op {
      case CommitJobCheckpoint(j, a, position, stage, pointer) => CommitAside(w, j, a, position, stage, pointer);
      case HeartbeatAttempt(a, lease) => HeartbeatAside(w, a, lease);
    }
  }

  lemma EventsAside(w: World, limits: Limits, op: Op)
    requires op.RecordSucceeded? || op.RecordStopped?
    ensures var v := Apply(w, limits, op).next; SamePasses(w, v) && v.surveys == w.surveys && v.hist == w.hist
  {
    hide SamePasses, Create, RequestDraft, ManualDraft, CompleteDraft, FailDraft, RecoverDraft, Start, Cancel,
      Delete, Settle, FinishArchive, DeferArchive, MarkWorkspaceMissing, RecoverJob, RecoverArchived,
      RepairEvidence, SetSending, Reserve, JoinLine, Fetch, TryNext, EndPass, MarkLaunching, LaunchFailed,
      MarkLaunched, ClaimDraft, ClaimJob, CommitCheckpoint, Heartbeat, AttemptSucceeded, AttemptStopped, Tick;
    match op {
      case RecordSucceeded(a, version) => SucceededAside(w, a, version);
      case RecordStopped(a, version, retryable) => StoppedAside(w, a, version, retryable);
    }
  }

  /** What a worker and the events of its attempt can touch. */
  lemma WorkAside(w: World, limits: Limits, op: Op)
    requires op.ClaimExactDraft? || op.ClaimExactJob? || op.CommitJobCheckpoint? || op.HeartbeatAttempt?
             || op.RecordSucceeded? || op.RecordStopped?
    ensures var v := Apply(w, limits, op).next;
            && SamePasses(w, v)
            && (!op.ClaimExactJob? ==> v.surveys == w.surveys)
            && (!op.CommitJobCheckpoint? ==> v.hist == w.hist)
  {
    hide Apply, SamePasses;
    if op.ClaimExactDraft? || op.ClaimExactJob? {
      ClaimsAside(w, limits, op);
    } else if op.CommitJobCheckpoint? || op.HeartbeatAttempt? {
      CommitsAside(w, limits, op);
    } else {
      EventsAside(w, limits, op);
    }
  }

  lemma PassesStay(w: World, limits: Limits, op: Op)
    requires !OfPass(op)
    ensures SamePasses(w, Apply(w, limits, op).next)
  {
    hide Apply;
    if OfOwner(op) {
      OwnerPasses(w, limits, op);
    } else if OfExecution(op) {
      ExecutionPasses(w, limits, op);
    } else if OfLaunch(op) {
      LaunchAside(w, limits, op);
    } else {
      WorkAside(w, limits, op);
    }
  }

  lemma OpCalm(w: World, limits: Limits, op: Op, kind: WorkKind)
    requires Inv(w, limits)
    requires op.ReserveAttempt? && op.kind == kind ==> kind in w.passes
    requires op.TryCandidate? ==> op.kind != kind
    ensures Calms(w, Apply(w, limits, op).next, kind)
  {
    hide Inv, Calms, Apply;
    if OfOwner(op) {
      OwnerCalm(w, limits, op, kind);
    } else if OfExecution(op) {
      ExecutionCalm(w, limits, op, kind);
    } else {
      ComputeCalm(w, limits, op, kind);
    }
  }

  /** How the steps of a reserving transaction leave the lists of both queues. */
  lemma TryPasses(w: World, limits: Limits, kind: WorkKind, a: AttemptId)
    ensures var step := TryNext(w, limits, kind, a);
            && (forall k | k != kind :: (k in step.next.passes <==> k in w.passes)
                                       && (k in w.passes ==> step.next.passes[k] == w.passes[k]))
            && (kind in step.next.passes ==>
                  && kind in w.passes && |w.passes[kind]| > 1 && step.next.passes[kind] == w.passes[kind][1..]
                  && step.reply.Unchanged? && step.next == w.(passes := step.next.passes))
  {
    hide LateReserve;
    if kind in w.passes && w.passes[kind] != [] {
      LateShape(w, limits, kind, w.passes[kind][0], a);
    }
  }

  lemma TryUnderway(w: World, limits: Limits, other: WorkKind, a: AttemptId, kind: WorkKind)
    requires Inv(w, limits) && Pending(w, limits)
    ensures Underway(TryNext(w, limits, other, a).next, limits, kind)
  {
    hide Inv, Fits, TryNext, Calms;
    var v := TryNext(w, limits, other, a).next;
    assert Underway(w, limits, kind) && Underway(w, limits, other);
    TryKeeps(w, limits, other, a);
    TryPasses(w, limits, other, a);
    if kind in v.passes {
      if other == kind {
        UntouchedCalm(w, v, kind);
      } else {
        TryCalm(w, limits, other, a, kind);
      }
      StillUnderway(w, v, limits, kind);
    }
  }

  lemma FetchUnderway(w: World, limits: Limits, other: WorkKind, began: Time, list: seq<nat>, kind: WorkKind)
    requires Inv(w, limits) && Underway(w, limits, kind)
    ensures Underway(Fetch(w, limits, other, began, list).next, limits, kind)
  {
    hide Inv, Fits, WorkList, ActiveOfKind, Calms;
    var step := Fetch(w, limits, other, began, list);
    if other == kind && step.reply.Done? {
      FetchedUnderway(w, limits, kind, began, list);
    } else {
      FetchKeeps(w, limits, other, began, list);
      FetchCalm(w, limits, other, began, list, kind);
      StillUnderway(w, step.next, limits, kind);
    }
  }

  /** Every transaction, and every step of a reserving one, keeps what passes under way rely on. */
  lemma StepPending(w: World, limits: Limits, op: Op)
    requires Inv(w, limits) && Pending(w, limits) && Inv(Apply(w, limits, op).next, limits)
    ensures Pending(Apply(w, limits, op).next, limits)
  {
    hide Inv, Underway, Calms, Fetch, TryNext;
    var v := Apply(w, limits, op).next;
    forall kind
      ensures Underway(v, limits, kind)
    {
      assert Underway(w, limits, kind);
      if op.FetchWork? {
        FetchUnderway(w, limits, op.kind, op.began, op.list, kind);
      } else if op.TryCandidate? {
        TryUnderway(w, limits, op.kind, op.a, kind);
      } else {
        OtherUnderway(w, limits, op, kind);
      }
    }
  }

  lemma OtherUnderway(w: World, limits: Limits, op: Op, kind: WorkKind)
    requires Inv(w, limits) && Underway(w, limits, kind) && Inv(Apply(w, limits, op).next, limits)
    requires !op.FetchWork? && !op.TryCandidate?
    ensures Underway(Apply(w, limits, op).next, limits, kind)
  {
    hide Inv, Apply, Calms, Fits;
    var v := Apply(w, limits, op).next;
    if op.AbandonPass? || op.BeginPass? {
      AbandonIs(w, limits, op);
    } else {
      PassesStay(w, limits, op);
    }
    if kind in v.passes {
      OpCalm(w, limits, op, kind);
      StillUnderway(w, v, limits, kind);
    }
  }

  lemma AbandonIs(w: World, limits: Limits, op: Op)
    requires op.AbandonPass? || op.BeginPass?
    ensures var v := Apply(w, limits, op).next;
            && v == w.(line := v.line, passes := v.passes)
            && v.passes == if op.AbandonPass? then w.passes - {op.kind} else w.passes
  {
    hide Create, RequestDraft, ManualDraft, CompleteDraft, FailDraft, RecoverDraft, Start, Cancel, Delete, Settle,
      FinishArchive, DeferArchive, MarkWorkspaceMissing, RecoverJob, RecoverArchived, RepairEvidence, SetSending,
      Reserve, Fetch, TryNext, MarkLaunching, LaunchFailed, MarkLaunched, ClaimDraft, ClaimJob, CommitCheckpoint,
      Heartbeat, AttemptSucceeded, AttemptStopped, Tick;
  }

  /** All that a step of a reserving transaction can change. */
  lemma PassShape(w: World, limits: Limits, op: Op)
    requires OfPass(op)
    ensures var v := Apply(w, limits, op).next;
            && v.surveys == w.surveys && v.jobOf == w.jobOf && v.jobs == w.jobs && v.drafts == w.drafts
            && v.hist == w.hist && v.now == w.now
            && (v.attempts == w.attempts
                || (op.TryCandidate? && op.kind in w.passes && w.passes[op.kind] != [] && op.a !in w.attempts
                    && v.attempts == w.attempts[op.a := LateAttempt(w, op.kind, w.passes[op.kind][0])]))
  {
    hide LateAttempt, Create, RequestDraft, ManualDraft, CompleteDraft, FailDraft, RecoverDraft, Start, Cancel,
      Delete, Settle, FinishArchive, DeferArchive, MarkWorkspaceMissing, RecoverJob, RecoverArchived,
      RepairEvidence, SetSending, Reserve, Fetch, TryNext, MarkLaunching, LaunchFailed, MarkLaunched, ClaimDraft,
      ClaimJob, CommitCheckpoint, Heartbeat, AttemptSucceeded, AttemptStopped, Tick;
    match op {
      case FetchWork(kind, began, list) => FetchOnlyPasses(w, limits, kind, began, list);
      case TryCandidate(kind, a) => TryShape(w, limits, kind, a);
      case _ =>
    }
  }
}
