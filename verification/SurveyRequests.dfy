/** Draft requests are remembered: over every run a Draft keeps its request, and a repeat finds it. */
module SurveyRequests {
  import opened Wrappers
  import opened SurveyModel
  import opened SurveyTransitions
  import opened SurveyInvariants
  import opened SurveyOps
  import opened SurveyPending
  import opened SurveyRuns
  import opened SurveyHistory
  import opened SurveyEvolution
  import opened SurveyAdmission
  import opened SurveyDrafting

  /** What a Draft keeps for life: its request and its place in line. */
  predicate SameRequest(x: Draft, y: Draft) {
    y.survey == x.survey && y.request == x.request && y.hash == x.hash && y.queuedAt == x.queuedAt
  }

  /** Drafts keep their requests, and go only when their Survey goes. */
  ghost predicate Kept(w: World, v: World) {
    && (forall d :: d in w.drafts && d in v.drafts ==> SameRequest(w.drafts[d], v.drafts[d]))
    && (forall d :: d in w.drafts && w.drafts[d].survey in v.surveys ==> d in v.drafts)
  }

  /** The Draft `op` adds, if it adds one: of a request that is new to the Survey. */
  ghost predicate Adds(w: World, v: World, d: DraftId) {
    && d !in w.drafts && d in v.drafts && v.drafts == w.drafts[d := v.drafts[d]]
    && NewDraftRequest(w.drafts, v.drafts[d].survey, v.drafts[d].request)
  }

  ghost predicate AddsNone(w: World, v: World) {
    forall d :: d in v.drafts ==> d in w.drafts
  }

  ghost predicate Orderly(w: World, v: World) {
    Kept(w, v) && (AddsNone(w, v) || exists d :: Adds(w, v, d))
  }

  lemma SameOrderly(w: World, v: World)
    requires v.drafts == w.drafts
    ensures Orderly(w, v)
  {
  }

  lemma RowOrderly(w: World, v: World, d: DraftId)
    requires d in w.drafts && d in v.drafts && v.drafts == w.drafts[d := v.drafts[d]]
    requires SameRequest(w.drafts[d], v.drafts[d])
    ensures Orderly(w, v)
  {
  }

  lemma AddedOrderly(w: World, v: World, d: DraftId)
    requires Adds(w, v, d)
    ensures Orderly(w, v)
  {
  }

  lemma CreateOrderly(w: World, limits: Limits, s: SurveyId, d: DraftId, user: UserId, request: RequestId, hash: Hash,
                      day: Day, override: Option<int>, dailyLimit: int)
    requires Inv(w, limits)
    ensures Orderly(w, Create(w, s, d, user, request, hash, day, override, dailyLimit).next)
  {
    hide Inv, Orderly, RequestedSurveys;
    var step := Create(w, s, d, user, request, hash, day, override, dailyLimit);
    if step.reply.Done? {
      DraftsNeedSurvey(w, limits);
      AddedOrderly(w, step.next, d);
    } else {
      SameOrderly(w, step.next);
    }
  }

  lemma RequestOrderly(w: World, s: SurveyId, user: UserId, d: DraftId, request: RequestId, hash: Hash)
    ensures Orderly(w, RequestDraft(w, s, user, d, request, hash).next)
  {
    hide Orderly, RequestedDrafts, LatestRevision, HasActiveDraft, NewDraftRequest;
    NoDraftHits(w, s, request);
    var step := RequestDraft(w, s, user, d, request, hash);
    if step.reply.Done? {
      AddedOrderly(w, step.next, d);
    } else {
      SameOrderly(w, step.next);
    }
  }

  lemma ManualOrderly(w: World, s: SurveyId, user: UserId, d: DraftId, request: RequestId, hash: Hash, markdown: string)
    ensures Orderly(w, ManualDraft(w, s, user, d, request, hash, markdown).next)
  {
    hide Orderly, RequestedDrafts, LatestRevision, HasActiveDraft, NewDraftRequest;
    NoDraftHits(w, s, request);
    var step := ManualDraft(w, s, user, d, request, hash, markdown);
    if step.reply.Done? {
      AddedOrderly(w, step.next, d);
    } else {
      SameOrderly(w, step.next);
    }
  }

  lemma EndOrderly(w: World, d: DraftId, worker: AttemptId, markdown: string)
    ensures Orderly(w, CompleteDraft(w, d, worker, markdown).next)
    ensures Orderly(w, FailDraft(w, d, worker).next)
    ensures Orderly(w, RecoverDraft(w, d).next)
  {
    hide Orderly, LatestRevision;
    SameOrderly(w, w);
    if CompleteDraft(w, d, worker, markdown).reply.Done? {
      RowOrderly(w, CompleteDraft(w, d, worker, markdown).next, d);
    }
    if FailDraft(w, d, worker).reply.Done? {
      RowOrderly(w, FailDraft(w, d, worker).next, d);
    }
    if RecoverDraft(w, d).reply.Done? {
      RowOrderly(w, RecoverDraft(w, d).next, d);
    }
  }

  lemma StartOrderly(w: World, s: SurveyId, user: UserId, j: JobId, request: RequestId, hash: Hash, notify: bool)
    ensures Orderly(w, Start(w, s, user, j, request, hash, notify).next)
  {
    hide Orderly, HasActiveDraft, IsLatest;
    SameOrderly(w, Start(w, s, user, j, request, hash, notify).next);
  }

  lemma WithdrawOrderly(w: World, s: SurveyId)
    requires s in w.surveys
    ensures Orderly(w, Withdraw(w, s).next)
  {
    hide Settled;
  }

  lemma CancelOrderly(w: World, s: SurveyId, user: UserId)
    ensures Orderly(w, Cancel(w, s, user).next)
  {
    hide Orderly, Withdraw;
    var v := Cancel(w, s, user).next;
    if Visible(w, s, user) {
      WithdrawOrderly(w, s);
    }
    if v.drafts == w.drafts {
      SameOrderly(w, v);
    }
  }

  lemma ErasedOrderly(w: World, s: SurveyId, v: World)
    requires v.surveys == Erased(w, s).surveys && v.drafts == Erased(w, s).drafts
    ensures Orderly(w, v)
  {
  }

  lemma DeleteOrderly(w: World, s: SurveyId, user: UserId)
    ensures Orderly(w, Delete(w, s, user).next)
  {
    hide Settled, Orderly, Erased;
    SameOrderly(w, w);
    if Delete(w, s, user).reply.Done? {
      ErasedOrderly(w, s, Delete(w, s, user).next);
    }
  }

  lemma ClaimOrderly(w: World, d: DraftId, a: AttemptId, lease: int)
    ensures Orderly(w, ClaimDraft(w, d, a, lease).next)
    ensures Orderly(w, Heartbeat(w, a, lease).next)
  {
    hide Orderly;
    var v, u := ClaimDraft(w, d, a, lease).next, Heartbeat(w, a, lease).next;
    if v.drafts == w.drafts {
      SameOrderly(w, v);
    } else {
      RowOrderly(w, v, d);
    }
    if u.drafts == w.drafts {
      SameOrderly(w, u);
    } else {
      RowOrderly(w, u, w.attempts[a].target);
    }
  }

  lemma ReturnedJob(w: World, a: AttemptId, retryable: bool)
    requires a in w.attempts && w.attempts[a].kind.FullWork?
    ensures Returned(w, a).drafts == w.drafts && Dropped(w, a, retryable).drafts == w.drafts
  {
    hide OwnsJob;
  }

  lemma ReturnedDraft(w: World, a: AttemptId)
    requires a in w.attempts && w.attempts[a].kind.DraftWork? && Returned(w, a).drafts != w.drafts
    ensures var d := w.attempts[a].target;
            d in w.drafts && Returned(w, a).drafts
                             == w.drafts[d := w.drafts[d].(status := DraftStatus.Queued, lease := None)]
  {
  }

  lemma DroppedDraft(w: World, a: AttemptId, retryable: bool)
    requires a in w.attempts && w.attempts[a].kind.DraftWork? && Dropped(w, a, retryable).drafts != w.drafts
    ensures var d := w.attempts[a].target;
            var status := if retryable then DraftStatus.Queued else DraftStatus.Failed;
            d in w.drafts && Dropped(w, a, retryable).drafts
                             == w.drafts[d := w.drafts[d].(status := status, lease := None)]
  {
  }

  lemma CleanExitOrderly(w: World, a: AttemptId, version: int)
    ensures Orderly(w, AttemptSucceeded(w, a, version).next)
  {
    hide Orderly, TargetSettled, Returned;
    var v := AttemptSucceeded(w, a, version).next;
    if v.drafts == w.drafts {
      SameOrderly(w, v);
    } else {
      if w.attempts[a].kind.FullWork? {
        ReturnedJob(w, a, false);
      } else {
        ReturnedDraft(w, a);
      }
      RowOrderly(w, v, w.attempts[a].target);
    }
  }

  lemma StopOrderly(w: World, a: AttemptId, version: int, retryable: bool)
    ensures Orderly(w, AttemptStopped(w, a, version, retryable).next)
  {
    hide Orderly, Dropped;
    var v := AttemptStopped(w, a, version, retryable).next;
    if v.drafts == w.drafts {
      SameOrderly(w, v);
    } else {
      if w.attempts[a].kind.FullWork? {
        ReturnedJob(w, a, retryable);
      } else {
        DroppedDraft(w, a, retryable);
      }
      RowOrderly(w, v, w.attempts[a].target);
    }
  }

  lemma OwnerOrderly(w: World, limits: Limits, op: Op)
    requires Inv(w, limits) && OfOwner(op)
    ensures Orderly(w, Apply(w, limits, op).next)
  {
    hide Inv, Orderly, Create, RequestDraft, ManualDraft, CompleteDraft, FailDraft, RecoverDraft, Start, Cancel, Delete,
      Settle, FinishArchive, DeferArchive, MarkWorkspaceMissing, RecoverJob, RecoverArchived, RepairEvidence,
      SetSending, Reserve, Fetch, TryNext, MarkLaunching, LaunchFailed, MarkLaunched, ClaimDraft, ClaimJob,
      CommitCheckpoint, Heartbeat, AttemptSucceeded, AttemptStopped, Tick;
    match op
    case CreateSurvey(s, d, user, request, hash, day, override, dailyLimit) =>
      CreateOrderly(w, limits, s, d, user, request, hash, day, override, dailyLimit);
    case RequestGeneratedDraft(s, user, d, request, hash) => RequestOrderly(w, s, user, d, request, hash);
    case CreateManualDraft(s, user, d, request, hash, markdown) =>
      ManualOrderly(w, s, user, d, request, hash, markdown);
    case CompleteSurveyDraft(d, worker, markdown) => EndOrderly(w, d, worker, markdown);
    case FailSurveyDraft(d, worker) => EndOrderly(w, d, worker, "");
    case RecoverExpiredDraft(d) => EndOrderly(w, d, 0, "");
    case StartSurvey(s, user, j, request, hash, notify) => StartOrderly(w, s, user, j, request, hash, notify);
    case CancelSurvey(s, user) => CancelOrderly(w, s, user);
    case DeleteSurvey(s, user) => DeleteOrderly(w, s, user);
  }

  lemma ExecutionLeavesDrafts(w: World, limits: Limits, op: Op)
    requires OfExecution(op)
    ensures Apply(w, limits, op).next.drafts == w.drafts
  {
    hide Create, RequestDraft, ManualDraft, CompleteDraft, FailDraft, RecoverDraft, Start, Cancel, Delete, Reserve,
      Fetch, TryNext, MarkLaunching, LaunchFailed, MarkLaunched, ClaimDraft, ClaimJob, CommitCheckpoint, Heartbeat,
      AttemptSucceeded, AttemptStopped, Settled, Notified, OwnStorage, OwnOverlay, Ended, Bill;
  }

  lemma LaunchLeavesDrafts(w: World, limits: Limits, op: Op)
    requires OfLaunch(op)
    ensures Apply(w, limits, op).next.drafts == w.drafts
  {
    hide Create, RequestDraft, ManualDraft, CompleteDraft, FailDraft, RecoverDraft, Start, Cancel, Delete, Settle,
      FinishArchive, DeferArchive, MarkWorkspaceMissing, RecoverJob, RecoverArchived, RepairEvidence, SetSending,
      Fetch, TryNext, ClaimDraft, ClaimJob, CommitCheckpoint, Heartbeat, AttemptSucceeded, AttemptStopped, Leads,
      ActiveOfKind, NextAttempt;
  }

  lemma WorkOrderly(w: World, limits: Limits, op: Op)
    requires !OfOwner(op) && !OfExecution(op) && !OfLaunch(op) && !OfPass(op)
    ensures Orderly(w, Apply(w, limits, op).next)
  {
    hide Orderly, Create, RequestDraft, ManualDraft, CompleteDraft, FailDraft, RecoverDraft, Start, Cancel, Delete,
      Settle, FinishArchive, DeferArchive, MarkWorkspaceMissing, RecoverJob, RecoverArchived, RepairEvidence,
      SetSending, Reserve, Fetch, TryNext, MarkLaunching, LaunchFailed, MarkLaunched, ClaimDraft,
      Heartbeat, AttemptSucceeded, AttemptStopped, Tick;
    match op
    case ClaimExactDraft(d, a, lease) => ClaimOrderly(w, d, a, lease);
    case ClaimExactJob(j, a, lease, timeout) => SameOrderly(w, Apply(w, limits, op).next);
    case CommitJobCheckpoint(_, _, _, _, _) => SameOrderly(w, Apply(w, limits, op).next);
    case HeartbeatAttempt(a, lease) => ClaimOrderly(w, 0, a, lease);
    case RecordSucceeded(a, version) => CleanExitOrderly(w, a, version);
    case RecordStopped(a, version, retryable) => StopOrderly(w, a, version, retryable);
  }

  lemma StepOrderly(w: World, limits: Limits, op: Op)
    requires Inv(w, limits)
    ensures Orderly(w, Apply(w, limits, op).next)
  {
    hide Inv, Apply, Orderly;
    if OfOwner(op) {
      OwnerOrderly(w, limits, op);
    } else if OfExecution(op) {
      ExecutionLeavesDrafts(w, limits, op);
      SameOrderly(w, Apply(w, limits, op).next);
    } else if OfLaunch(op) {
      LaunchLeavesDrafts(w, limits, op);
      SameOrderly(w, Apply(w, limits, op).next);
    } else if OfPass(op) {
      PassShape(w, limits, op);
      SameOrderly(w, Apply(w, limits, op).next);
    } else {
      WorkOrderly(w, limits, op);
    }
  }

  // ---------- one Draft per request ----------

  ghost predicate OneDraftPerRequest(drafts: map<DraftId, Draft>) {
    forall d, e | d in drafts && e in drafts && drafts[d].survey == drafts[e].survey
                  && drafts[d].request == drafts[e].request :: d == e
  }

  lemma OrderlyOnePerRequest(w: World, v: World)
    requires Orderly(w, v) && OneDraftPerRequest(w.drafts)
    ensures OneDraftPerRequest(v.drafts)
  {
  }

  lemma {:induction false} RunOneDraftPerRequest(w: World, limits: Limits, ops: seq<Op>)
    requires Sound(w, limits) && OneDraftPerRequest(w.drafts)
    ensures OneDraftPerRequest(Run(w, limits, ops).drafts)
    decreases |ops|
  {
    hide Inv, Pending, Apply, OneDraftPerRequest, Orderly;
    if ops != [] {
      ApplyKeeps(w, limits, ops[0]);
      StepOrderly(w, limits, ops[0]);
      OrderlyOnePerRequest(w, Apply(w, limits, ops[0]).next);
      RunOneDraftPerRequest(Apply(w, limits, ops[0]).next, limits, ops[1..]);
    }
  }

  /** A Survey never has two Drafts under one request key, so the index on them aborts no transaction. */
  lemma DraftRequestsUnique(w: World, limits: Limits)
    requires Reachable(w, limits)
    ensures OneDraftPerRequest(w.drafts)
  {
    hide Sound, Run;
    var ops :| w == Run(EMPTY, limits, ops);
    EmptySound(limits);
    RunOneDraftPerRequest(EMPTY, limits, ops);
  }

  // ---------- over runs ----------

  lemma {:induction false} RunKeepsDraft(w: World, limits: Limits, ops: seq<Op>, d: DraftId)
    requires Sound(w, limits) && d in w.drafts
    ensures var v, s := Run(w, limits, ops), w.drafts[d].survey;
            s in v.surveys && v.surveys[s].birth < w.hist.births ==>
              d in v.drafts && SameRequest(w.drafts[d], v.drafts[d])
    decreases |ops|
  {
    hide Inv, Pending, Apply, Outlive;
    if ops != [] {
      var u, s := Apply(w, limits, ops[0]).next, w.drafts[d].survey;
      var v := Run(u, limits, ops[1..]);
      ApplyKeeps(w, limits, ops[0]);
      StepOrderly(w, limits, ops[0]);
      StepGrows(w, limits, ops[0]);
      RunOutlives(u, limits, ops[1..]);
      if s in v.surveys && v.surveys[s].birth < w.hist.births {
        StillSame(u, v, s);
        RunKeepsDraft(u, limits, ops[1..], d);
      }
    }
  }

  /** A repeated Draft request is answered by its content alone, whatever has become of the Survey and the Draft. */
  lemma DraftRepeated(w: World, limits: Limits, user: UserId, e: DraftId, d: DraftId, hash: Hash, markdown: string)
    requires Reachable(w, limits) && e in w.drafts && Visible(w, w.drafts[e].survey, user)
    ensures var reply := if w.drafts[e].hash == hash then Unchanged else Refused(IdempotencyConflict);
            && RequestDraft(w, w.drafts[e].survey, user, d, w.drafts[e].request, hash) == Step(w, reply)
            && ManualDraft(w, w.drafts[e].survey, user, d, w.drafts[e].request, hash, markdown) == Step(w, reply)
  {
    hide Reachable;
    DraftRequestsUnique(w, limits);
    assert RequestedDrafts(w.drafts, w.drafts[e].survey, w.drafts[e].request) == {e};
  }

  /** However much happens in between, a Draft request is remembered as long as its Survey is there. */
  lemma DraftRemembered(w: World, limits: Limits, more: seq<Op>, e: DraftId, user: UserId, d: DraftId, hash: Hash,
                        markdown: string)
    requires Reachable(w, limits) && e in w.drafts && Visible(w, w.drafts[e].survey, user)
    ensures var v, s := Run(w, limits, more), w.drafts[e].survey;
            s in v.surveys && v.surveys[s].birth == w.surveys[s].birth ==>
              var reply := if w.drafts[e].hash == hash then Unchanged else Refused(IdempotencyConflict);
              && RequestDraft(v, s, user, d, w.drafts[e].request, hash).reply == reply
              && ManualDraft(v, s, user, d, w.drafts[e].request, hash, markdown).reply == reply
  {
    hide Inv, Pending, Run, Reachable, Outlive, RequestDraft, ManualDraft, Charged;
    var v, s := Run(w, limits, more), w.drafts[e].survey;
    ReachableSound(w, limits);
    BirthsOf(w, limits);
    RunKeepsDraft(w, limits, more, e);
    RunOutlives(w, limits, more);
    assert Follows(w, limits, v);
    ReachedThen(w, limits, v);
    if s in v.surveys && v.surveys[s].birth == w.surveys[s].birth {
      StillSame(w, v, s);
      DraftRepeated(v, limits, user, e, d, hash, markdown);
    }
  }
}
