/** Draft requests, their ends, and the start of an execution: what is answered and what it brings about. */
module SurveyDrafting {
  import opened Wrappers
  import opened SurveyModel
  import opened SurveyTransitions
  import opened SurveyInvariants
  import opened SurveyPending
  import opened SurveyRuns
  import opened SurveyDraftLemmas
  import opened SurveySteps
  import opened SurveyAdmission

  /** No Draft of the Survey was requested under this key. */
  predicate NewDraftRequest(drafts: map<DraftId, Draft>, s: SurveyId, request: RequestId) {
    forall e :: e in drafts && drafts[e].survey == s ==> drafts[e].request != request
  }

  lemma ChainOf(w: World, limits: Limits, s: SurveyId)
    requires Inv(w, limits) && s in w.surveys
    ensures LatestRevision(w.drafts, s) == Top(w.drafts, s) && |ReadyOf(w.drafts, s)| <= 10
    ensures ReadyOf(w.drafts, s) == {} <==> |ReadyOf(w.drafts, s)| == 0
    ensures forall d :: IsReady(w.drafts, s, d) ==> 1 <= w.drafts[d].revision.value <= |ReadyOf(w.drafts, s)|
  {
    hide Indexed, Lockstep, QuotaExact, ChargedOnce, CancelsStick, Approved, Leased, Targeted, Numbered, Budgeted,
      Capped, Checkpointed, Announced, ActiveSound, DraftSound, OneActive, Topped, Distinct, LatestRevision;
    assert Chain(w.drafts, s);
    LatestIsTop(w.drafts, s);
    forall d | IsReady(w.drafts, s, d)
      ensures 1 <= w.drafts[d].revision.value <= |ReadyOf(w.drafts, s)|
    {
      assert d in ReadyOf(w.drafts, s);
    }
  }

  lemma NoDraftHits(w: World, s: SurveyId, request: RequestId)
    ensures RequestedDrafts(w.drafts, s, request) == {} <==> NewDraftRequest(w.drafts, s, request)
  {
    if NewDraftRequest(w.drafts, s, request) {
      assert forall d :: d in RequestedDrafts(w.drafts, s, request) ==> d in w.drafts;
    } else {
      var e :| e in w.drafts && w.drafts[e].survey == s && w.drafts[e].request == request;
      assert e in RequestedDrafts(w.drafts, s, request);
    }
  }

  /**
   A new Draft request, generated or written by hand, goes through exactly if the Survey is drafting, no Draft
   of it is under way, and fewer than ten are ready.
   */
  lemma DraftAccepted(w: World, limits: Limits, s: SurveyId, user: UserId, d: DraftId, request: RequestId, hash: Hash,
                      markdown: string)
    requires Reachable(w, limits) && Visible(w, s, user) && NewDraftRequest(w.drafts, s, request)
    ensures var reply := RequestDraft(w, s, user, d, request, hash).reply;
            && ManualDraft(w, s, user, d, request, hash, markdown).reply == reply
            && reply == if !w.surveys[s].status.Drafting? then Refused(AlreadyStarted)
                        else if exists e :: e in w.drafts && w.drafts[e].survey == s && IsActiveDraft(w.drafts[e])
                        then Refused(DraftInProgress)
                        else if |ReadyOf(w.drafts, s)| == 10 then Refused(DraftLimit)
                        else if d in w.drafts then Refused(DatabaseError) else Done
  {
    hide Inv, Pending, RequestedDrafts, LatestRevision, ReadyOf;
    ReachableSound(w, limits);
    ChainOf(w, limits, s);
    NoDraftHits(w, s, request);
  }

  /** A generated Draft is offered to compute at once, and is to build on the newest revision. */
  lemma GeneratedIsOffered(w: World, limits: Limits, s: SurveyId, user: UserId, d: DraftId, request: RequestId,
                           hash: Hash)
    requires Reachable(w, limits) && RequestDraft(w, s, user, d, request, hash).reply.Done?
    ensures var v, n := RequestDraft(w, s, user, d, request, hash).next, |ReadyOf(w.drafts, s)|;
            && d !in w.drafts && v == w.(drafts := v.drafts) && v.drafts - {d} == w.drafts
            && Listed(v, DraftWork, d) && v.drafts[d].survey == s && v.drafts[d].queuedAt == w.now
            && v.drafts[d].request == request && v.drafts[d].hash == hash
            && v.drafts[d].basedOn == if n == 0 then None else Some(n)
  {
    hide Inv, Pending, RequestedDrafts, LatestRevision, ReadyOf, HasActiveDraft, ActiveOn;
    ReachableSound(w, limits);
    ChainOf(w, limits, s);
    NothingOnNew(w, limits, d);
  }

  lemma NowNewest(drafts: map<DraftId, Draft>, s: SurveyId, d: DraftId, v: Draft)
    requires !IsReady(drafts, s, d) && v.survey == s && v.status.Ready?
    requires v.revision == Some(|ReadyOf(drafts, s)| + 1)
    requires forall e :: IsReady(drafts, s, e) ==> drafts[e].revision.value <= |ReadyOf(drafts, s)|
    ensures IsLatest(drafts[d := v], s, d)
  {
    hide ReadyOf;
  }

  /** A Draft written by hand is at once the newest revision. */
  lemma ManualIsNewest(w: World, limits: Limits, s: SurveyId, user: UserId, d: DraftId, request: RequestId, hash: Hash,
                       markdown: string)
    requires Reachable(w, limits) && ManualDraft(w, s, user, d, request, hash, markdown).reply.Done?
    ensures var v, n := ManualDraft(w, s, user, d, request, hash, markdown).next, |ReadyOf(w.drafts, s)|;
            && d !in w.drafts && v == w.(drafts := v.drafts) && v.drafts - {d} == w.drafts
            && IsLatest(v.drafts, s, d) && v.drafts[d].revision == Some(n + 1)
            && v.drafts[d].basedOn == (if n == 0 then None else Some(n))
            && v.drafts[d].markdown == Some(markdown)
            && v.drafts[d].request == request && v.drafts[d].hash == hash
  {
    hide Inv, Pending, RequestedDrafts, LatestRevision, ReadyOf, HasActiveDraft, IsLatest;
    ReachableSound(w, limits);
    ChainOf(w, limits, s);
    NowNewest(w.drafts, s, d, ManualDraft(w, s, user, d, request, hash, markdown).next.drafts[d]);
  }

  /** Whoever holds the lease of a Draft can complete it: nothing can have superseded it, and there is room. */
  lemma CompleteAccepted(w: World, limits: Limits, d: DraftId, worker: AttemptId, markdown: string)
    requires Reachable(w, limits)
    ensures CompleteDraft(w, d, worker, markdown).reply
         == if OwnsDraft(w, d, worker) then Done else Refused(LeaseLost)
  {
    hide Inv, Pending, LatestRevision, ReadyOf;
    ReachableSound(w, limits);
    if OwnsDraft(w, d, worker) {
      ActiveFacts(w, limits, d);
      ChainOf(w, limits, w.drafts[d].survey);
    }
  }

  lemma CompletedRow(w: World, d: DraftId, worker: AttemptId, markdown: string)
    requires CompleteDraft(w, d, worker, markdown).reply.Done?
    ensures OwnsDraft(w, d, worker)
    ensures var v := CompleteDraft(w, d, worker, markdown).next;
            && v == w.(drafts := v.drafts) && d in v.drafts && v.drafts == w.drafts[d := v.drafts[d]]
            && v.drafts[d] == w.drafts[d].(status := DraftStatus.Ready, lease := None, markdown := Some(markdown),
                                           revision := Some(Next(LatestRevision(w.drafts, w.drafts[d].survey))))
  {
    hide LatestRevision;
  }

  /** A completed Draft becomes the newest revision, with the text it was completed with. */
  lemma CompletedIsNewest(w: World, limits: Limits, d: DraftId, worker: AttemptId, markdown: string)
    requires Reachable(w, limits) && CompleteDraft(w, d, worker, markdown).reply.Done?
    ensures var v, s := CompleteDraft(w, d, worker, markdown).next, w.drafts[d].survey;
            && v == w.(drafts := v.drafts) && v.drafts - {d} == w.drafts - {d}
            && IsLatest(v.drafts, s, d) && v.drafts[d].revision == Some(|ReadyOf(w.drafts, s)| + 1)
            && v.drafts[d].markdown == Some(markdown) && v.drafts[d].lease.None?
            && v.drafts[d].basedOn == w.drafts[d].basedOn && v.drafts[d].request == w.drafts[d].request
  {
    hide Inv, Pending, LatestRevision, ReadyOf, IsLatest, CompleteDraft;
    ReachableSound(w, limits);
    CompletedRow(w, d, worker, markdown);
    ActiveFacts(w, limits, d);
    ChainOf(w, limits, w.drafts[d].survey);
    NowNewest(w.drafts, w.drafts[d].survey, d, CompleteDraft(w, d, worker, markdown).next.drafts[d]);
  }

  /** Draft `d` is over without a result, and its Survey can have another one. */
  ghost predicate GivenUp(w: World, v: World, d: DraftId) {
    && d in w.drafts && d in v.drafts && v == w.(drafts := v.drafts) && v.drafts - {d} == w.drafts - {d}
    && v.drafts[d].status.Failed? && v.drafts[d].lease.None? && v.drafts[d].survey == w.drafts[d].survey
    && forall user, e, request, hash :: CanRequest(v, v.drafts[d].survey, user, e, request) ==>
         RequestDraft(v, v.drafts[d].survey, user, e, request, hash).reply.Done?
  }

  /** A Draft request that lacks nothing on the caller's side. */
  predicate CanRequest(w: World, s: SurveyId, user: UserId, e: DraftId, request: RequestId) {
    Visible(w, s, user) && e !in w.drafts && NewDraftRequest(w.drafts, s, request)
  }

  lemma GivenUpNow(w: World, limits: Limits, d: DraftId, v: World)
    requires Inv(w, limits) && d in w.drafts && w.drafts[d].status.Running?
    requires v == w.(drafts := w.drafts[d := w.drafts[d].(status := DraftStatus.Failed, lease := None)])
    ensures GivenUp(w, v, d)
  {
    hide Inv, RequestDraft, ReadyOf, CanRequest;
    var s := w.drafts[d].survey;
    forall user, e, request, hash | CanRequest(v, s, user, e, request)
      ensures RequestDraft(v, s, user, e, request, hash).reply.Done?
    {
      AnotherDraft(w, limits, d, v, user, e, request, hash);
    }
  }

  lemma AnotherDraft(w: World, limits: Limits, d: DraftId, v: World, user: UserId, e: DraftId, request: RequestId,
                     hash: Hash)
    requires Inv(w, limits) && d in w.drafts && w.drafts[d].status.Running?
    requires v == w.(drafts := w.drafts[d := w.drafts[d].(status := DraftStatus.Failed, lease := None)])
    requires CanRequest(v, w.drafts[d].survey, user, e, request)
    ensures RequestDraft(v, w.drafts[d].survey, user, e, request, hash).reply.Done?
  {
    hide Inv, RequestedDrafts, LatestRevision, ReadyOf;
    var s := w.drafts[d].survey;
    ActiveFacts(w, limits, d);
    SetAside(w, limits, d, DraftStatus.Failed);
    ChainOf(v, limits, s);
    ReadyUnmoved(w.drafts, d, v.drafts[d], s);
    NoDraftHits(v, s, request);
  }

  /** Failing a Draft takes exactly its lease, and makes room for another. */
  lemma FailAccepted(w: World, limits: Limits, d: DraftId, worker: AttemptId)
    requires Reachable(w, limits)
    ensures var step := FailDraft(w, d, worker);
            && step.reply == (if OwnsDraft(w, d, worker) then Done else Refused(LeaseLost))
            && (if step.reply.Done? then GivenUp(w, step.next, d) else step.next == w)
  {
    hide Inv, Pending, GivenUp;
    ReachableSound(w, limits);
    if OwnsDraft(w, d, worker) {
      ActiveFacts(w, limits, d);
      GivenUpNow(w, limits, d, FailDraft(w, d, worker).next);
    }
  }

  /** The sweep gives up exactly the running Drafts whose lease has run out. */
  lemma SweepAccepted(w: World, limits: Limits, d: DraftId)
    requires Reachable(w, limits)
    ensures var step := RecoverDraft(w, d);
            && (step.reply.Done? <==>
                  d in w.drafts && w.drafts[d].status.Running? && w.drafts[d].lease.Some?
                  && w.drafts[d].lease.value.expires <= w.now)
            && (if step.reply.Done? then GivenUp(w, step.next, d) else step == Step(w, Unchanged))
  {
    hide Inv, Pending, GivenUp;
    ReachableSound(w, limits);
    if d in w.drafts && w.drafts[d].status.Running? {
      ActiveFacts(w, limits, d);
      if RecoverDraft(w, d).reply.Done? {
        GivenUpNow(w, limits, d, RecoverDraft(w, d).next);
      }
    }
  }

  // ---------- starting ----------

  /**
   A Survey without a job is started exactly if it is drafting, no Draft of it is under way and one is ready.
   One with a job has been started, and only the same request may be repeated.
   */
  lemma StartAccepted(w: World, limits: Limits, s: SurveyId, user: UserId, j: JobId, request: RequestId, hash: Hash,
                      notify: bool)
    requires Reachable(w, limits) && Visible(w, s, user)
    ensures var job := JobAt(w, s);
            Start(w, s, user, j, request, hash, notify).reply
            == if job.Some? && job.value.request != request then Refused(AlreadyStarted)
            else if job.Some? && job.value.hash != hash then Refused(IdempotencyConflict)
            else if job.Some? then Unchanged
            else if !w.surveys[s].status.Drafting? then Refused(AlreadyStarted)
            else if exists e :: e in w.drafts && w.drafts[e].survey == s && IsActiveDraft(w.drafts[e])
            then Refused(DraftInProgress)
            else if ReadyOf(w.drafts, s) == {} then Refused(NoReadyDraft)
            else if j in w.jobs then Refused(DatabaseError) else Done
  {
    hide Inv, Pending, LatestRevision, ReadyOf, IsLatest;
    ReachableSound(w, limits);
    IsSound(w, limits, s);
    SomeIsLatest(w, limits, s);
  }

  lemma SomeIsLatest(w: World, limits: Limits, s: SurveyId)
    requires Inv(w, limits) && s in w.surveys
    ensures (exists d :: IsLatest(w.drafts, s, d)) <==> ReadyOf(w.drafts, s) != {}
  {
    hide Inv;
    ChainOf(w, limits, s);
    if d :| IsLatest(w.drafts, s, d) {
      assert d in ReadyOf(w.drafts, s);
    }
  }

  /**
   Starting makes one job that is offered to compute at once, with the newest revision approved for it, the
   wish for a completion mail on record, and no deadline yet.
   */
  lemma StartTakesEffect(w: World, limits: Limits, s: SurveyId, user: UserId, j: JobId, request: RequestId, hash: Hash,
                         notify: bool)
    requires Reachable(w, limits) && Start(w, s, user, j, request, hash, notify).reply.Done?
    ensures var v := Start(w, s, user, j, request, hash, notify).next;
            && v.surveys == w.surveys[s := w.surveys[s].(status := SurveyStatus.Queued, notify := notify)]
            && j !in w.jobs && v.jobs - {j} == w.jobs && s in v.jobOf && v.jobOf[s] == j
            && v.drafts == w.drafts && v.usage == w.usage && v.attempts == w.attempts && v.notices == w.notices
            && Listed(v, FullWork, j) && v.jobs[j].queuedAt == w.now && v.jobs[j].deadline.None?
            && v.jobs[j].request == request && v.jobs[j].hash == hash
            && IsLatest(v.drafts, s, v.jobs[j].approved)
            && v.drafts[v.jobs[j].approved].revision == Some(|ReadyOf(w.drafts, s)|)
  {
    hide Inv, Pending, LatestRevision, ReadyOf, HasActiveDraft, ActiveOn, IsLatest;
    ReachableSound(w, limits);
    var v := Start(w, s, user, j, request, hash, notify).next;
    NothingOnNewJob(w, limits, j);
    ChainOf(w, limits, s);
    LatestIs(w, limits, s, v.jobs[j].approved);
  }

  lemma LatestIs(w: World, limits: Limits, s: SurveyId, d: DraftId)
    requires Inv(w, limits) && s in w.surveys && IsLatest(w.drafts, s, d)
    ensures w.drafts[d].revision == Some(|ReadyOf(w.drafts, s)|)
  {
    hide Inv;
    ChainOf(w, limits, s);
    assert d in ReadyOf(w.drafts, s);
    assert LatestRevision(w.drafts, s).Some?;
  }
}
