/** What a task's exit does to its attempt and to the item it held. */
module SurveyStops {
  import opened Wrappers
  import opened SurveyModel
  import opened SurveyTransitions
  import opened SurveyInvariants
  import opened SurveyPending
  import opened SurveyRuns
  import opened SurveySteps
  import opened SurveyGuarantees
  import opened SurveyDrafting

  /** An event counts once: one no newer than the last one recorded changes nothing. */
  predicate Newer(at: Attempt, version: int) {
    at.eventVersion.None? || at.eventVersion.value < version
  }

  lemma OnlyOwnerWorks(w: World, limits: Limits, j: JobId, d: DraftId, a: AttemptId)
    requires Inv(w, limits)
    ensures OwnsJob(w, j, a) ==>
              a in w.attempts && w.attempts[a].status.Running? && w.attempts[a].kind.FullWork?
              && w.attempts[a].target == j && ActiveOn(w.attempts, FullWork, j) == {a}
    ensures OwnsDraft(w, d, a) ==>
              a in w.attempts && w.attempts[a].status.Running? && w.attempts[a].kind.DraftWork?
              && w.attempts[a].target == d && ActiveOn(w.attempts, DraftWork, d) == {a}
  {
    hide Inv;
    OwnerRuns(w, limits, j, d);
    assert forall kind, t :: ActiveOn(w.attempts, kind, t) == {a} ==> a in ActiveOn(w.attempts, kind, t);
  }

  lemma NobodyLeft(attempts: map<AttemptId, Attempt>, a: AttemptId, v: Attempt)
    requires a in attempts && Same(attempts[a], v) && !Active(v)
    requires ActiveOn(attempts, v.kind, v.target) == {a}
    ensures ActiveOn(attempts[a := v], v.kind, v.target) == {}
  {
    var before, after := ActiveOn(attempts, v.kind, v.target), ActiveOn(attempts[a := v], v.kind, v.target);
    assert a !in after && after <= before;
  }

  lemma StoppedDraft(w: World, limits: Limits, d: DraftId, a: AttemptId, version: int, retryable: bool)
    requires Inv(w, limits) && OwnsDraft(w, d, a) && Newer(w.attempts[a], version)
    ensures var v := AttemptStopped(w, a, version, retryable).next;
            var status := if retryable then AttemptStatus.Retryable else AttemptStatus.Failed;
            v == w.(drafts := w.drafts[d := w.drafts[d].(
                      status := if retryable then DraftStatus.Queued else DraftStatus.Failed, lease := None)],
                    attempts := w.attempts[a := w.attempts[a].(eventVersion := Some(version), status := status)])
  {
    hide Inv, ActiveOn;
    OnlyOwnerWorks(w, limits, 0, d, a);
  }

  /**
   The first event that stops the attempt holding a Draft: if it is retryable the Draft is offered again, in its
   old place; if not it has failed.
   */
  lemma StopEndsDraft(w: World, limits: Limits, d: DraftId, a: AttemptId, version: int, retryable: bool)
    requires Reachable(w, limits) && OwnsDraft(w, d, a) && a in w.attempts && Newer(w.attempts[a], version)
    ensures var step := AttemptStopped(w, a, version, retryable);
            var v := step.next;
            && step.reply.Done? && d in v.drafts && v.drafts[d].lease.None? && v.drafts - {d} == w.drafts - {d}
            && v.drafts[d].queuedAt == w.drafts[d].queuedAt && v.jobs == w.jobs && v.surveys == w.surveys
            && (Listed(v, DraftWork, d) <==> retryable) && (v.drafts[d].status.Failed? <==> !retryable)
            && v.attempts[a].status == (if retryable then AttemptStatus.Retryable else AttemptStatus.Failed)
  {
    hide Inv, Pending, ActiveOn;
    ReachableSound(w, limits);
    OnlyOwnerWorks(w, limits, 0, d, a);
    var v := AttemptStopped(w, a, version, retryable).next;
    NobodyLeft(w.attempts, a, v.attempts[a]);
    ActiveFacts(w, limits, d);
  }

  /** After a Draft failed for good another one of its Survey may be requested; after a retryable stop not yet. */
  lemma StopMakesRoom(w: World, limits: Limits, d: DraftId, a: AttemptId, version: int, retryable: bool, user: UserId,
                      e: DraftId, request: RequestId, hash: Hash)
    requires Reachable(w, limits) && OwnsDraft(w, d, a) && a in w.attempts && Newer(w.attempts[a], version)
    requires CanRequest(AttemptStopped(w, a, version, retryable).next, w.drafts[d].survey, user, e, request)
    ensures var v := AttemptStopped(w, a, version, retryable).next;
            RequestDraft(v, w.drafts[d].survey, user, e, request, hash).reply
            == if retryable then Refused(DraftInProgress) else Done
  {
    hide Inv, Pending, AttemptStopped, RequestDraft, CanRequest;
    ReachableSound(w, limits);
    StoppedDraft(w, limits, d, a, version, retryable);
    AfterStop(w, limits, d, AttemptStopped(w, a, version, retryable).next, retryable, user, e, request, hash);
  }

  lemma AfterStop(w: World, limits: Limits, d: DraftId, v: World, retryable: bool, user: UserId,
                  e: DraftId, request: RequestId, hash: Hash)
    requires Inv(w, limits) && d in w.drafts && w.drafts[d].status.Running?
    requires v.surveys == w.surveys
    requires v.drafts == w.drafts[d := w.drafts[d].(
                           status := if retryable then DraftStatus.Queued else DraftStatus.Failed, lease := None)]
    requires CanRequest(v, w.drafts[d].survey, user, e, request)
    ensures RequestDraft(v, w.drafts[d].survey, user, e, request, hash).reply
         == if retryable then Refused(DraftInProgress) else Done
  {
    hide Inv, RequestedDrafts, LatestRevision, ReadyOf, RequestDraft;
    var s := w.drafts[d].survey;
    ActiveFacts(w, limits, d);
    NoDraftHits(v, s, request);
    if retryable {
      assert d in v.drafts && v.drafts[d].survey == s && IsActiveDraft(v.drafts[d]);
      Occupied(v, s, user, e, request, hash);
    } else {
      var u := w.(drafts := v.drafts);
      AnotherDraft(w, limits, d, u, user, e, request, hash);
      RequestReads(u, v, s, user, e, request, hash);
    }
  }

  lemma Occupied(v: World, s: SurveyId, user: UserId, e: DraftId, request: RequestId, hash: Hash)
    requires Visible(v, s, user) && v.surveys[s].status.Drafting? && HasActiveDraft(v.drafts, s)
    requires RequestedDrafts(v.drafts, s, request) == {}
    ensures RequestDraft(v, s, user, e, request, hash).reply == Refused(DraftInProgress)
  {
    hide RequestedDrafts, HasActiveDraft;
  }

  /** A Draft request reads the Surveys and the Drafts only. */
  lemma RequestReads(u: World, v: World, s: SurveyId, user: UserId, e: DraftId, request: RequestId, hash: Hash)
    requires v.surveys == u.surveys && v.drafts == u.drafts
    ensures RequestDraft(v, s, user, e, request, hash).reply == RequestDraft(u, s, user, e, request, hash).reply
  {
    hide RequestedDrafts, HasActiveDraft, LatestRevision;
  }

  /**
   The first event that stops the attempt holding a job takes the lease and nothing else from the job, which is
   offered again unless it is computing past its deadline.
   */
  lemma StopFreesJob(w: World, limits: Limits, j: JobId, a: AttemptId, version: int, retryable: bool)
    requires Reachable(w, limits) && OwnsJob(w, j, a) && a in w.attempts && Newer(w.attempts[a], version)
    ensures var step := AttemptStopped(w, a, version, retryable);
            var v := step.next;
            && step.reply.Done? && v.jobs == w.jobs[j := w.jobs[j].(lease := None)]
            && v.drafts == w.drafts && v.surveys == w.surveys && v.usage == w.usage
            && v.attempts[a].status == (if retryable then AttemptStatus.Retryable else AttemptStatus.Failed)
            && (Listed(v, FullWork, j) <==>
                  w.jobs[j].status.Archiving? || (w.jobs[j].deadline.Some? && w.jobs[j].deadline.value > w.now))
  {
    hide Inv, Pending, ActiveOn;
    ReachableSound(w, limits);
    OnlyOwnerWorks(w, limits, j, 0, a);
    JobsSurvey(w, limits, j);
    NobodyLeft(w.attempts, a, AttemptStopped(w, a, version, retryable).next.attempts[a]);
  }

  /** An event changes an item only if the attempt holds it. */
  lemma StopElsewhere(w: World, a: AttemptId, version: int, retryable: bool)
    requires a in w.attempts && !OwnsJob(w, w.attempts[a].target, a) && !OwnsDraft(w, w.attempts[a].target, a)
    ensures var v := AttemptStopped(w, a, version, retryable).next; v == w.(attempts := v.attempts)
  {
  }

  /** An event that is not newer changes nothing, and one that comes after the end only the version on record. */
  lemma StaleStop(w: World, a: AttemptId, version: int, retryable: bool)
    ensures var step := AttemptStopped(w, a, version, retryable);
            && (a !in w.attempts ==> step == Step(w, Refused(DatabaseError)))
            && (a in w.attempts && !Newer(w.attempts[a], version) ==> step == Step(w, Unchanged))
            && (a in w.attempts && Newer(w.attempts[a], version) && !Active(w.attempts[a])
                && !w.attempts[a].status.Retryable? ==>
                  step == Step(w.(attempts := w.attempts[a := w.attempts[a].(eventVersion := Some(version))]), Done))
  {
    hide Dropped;
  }

  // ---------- a clean exit ----------

  /**
   A clean exit counts as success exactly if the item is done with: a Draft that is not under way, a job that has
   finished.  Otherwise the attempt is to be retried, and the item it still holds is offered again.
   */
  lemma CleanExitCounts(w: World, limits: Limits, a: AttemptId, version: int)
    requires Reachable(w, limits) && a in w.attempts && Newer(w.attempts[a], version)
    ensures var step := AttemptSucceeded(w, a, version);
            && step.reply.Done? && a in step.next.attempts
            && step.next.attempts - {a} == w.attempts - {a}
            && step.next.attempts[a].eventVersion == Some(version)
            && step.next.attempts[a].status
               == var t := w.attempts[a].target;
                  match w.attempts[a].kind
                  case DraftWork => if t in w.drafts && (w.drafts[t].status.Queued? || w.drafts[t].status.Running?)
                                    then AttemptStatus.Retryable else AttemptStatus.Succeeded
                  case FullWork => if t in w.jobs && !w.jobs[t].status.Finished?
                                   then AttemptStatus.Retryable else AttemptStatus.Succeeded
  {
    hide Inv, Pending, Reachable, Returned;
    ReachableSound(w, limits);
    TargetsOf(w, limits, a);
    ReturnsOnly(w, a);
  }

  lemma ReturnsOnly(w: World, a: AttemptId)
    requires a in w.attempts
    ensures Returned(w, a).attempts == w.attempts
  {
    hide OwnsJob;
  }

  lemma TargetsOf(w: World, limits: Limits, a: AttemptId)
    requires Inv(w, limits) && a in w.attempts
    ensures Targets(w.jobs, w.drafts, w.attempts[a])
  {
    hide Indexed, Lockstep, QuotaExact, ChargedOnce, CancelsStick, DraftChain, Approved, Leased, Targets, Numbered,
      Budgeted, Capped, Checkpointed, Announced;
  }

  lemma ExitReturnsDraft(w: World, limits: Limits, d: DraftId, a: AttemptId, version: int)
    requires Reachable(w, limits) && OwnsDraft(w, d, a) && a in w.attempts && Newer(w.attempts[a], version)
    ensures var v := AttemptSucceeded(w, a, version).next;
            && d in v.drafts && v.drafts == w.drafts[d := v.drafts[d]] && v.jobs == w.jobs
            && Listed(v, DraftWork, d) && v.drafts[d].queuedAt == w.drafts[d].queuedAt
  {
    hide Inv, Pending, ActiveOn;
    ReachableSound(w, limits);
    OnlyOwnerWorks(w, limits, 0, d, a);
    ActiveFacts(w, limits, d);
    NobodyLeft(w.attempts, a, AttemptSucceeded(w, a, version).next.attempts[a]);
  }

  lemma ExitReturnsJob(w: World, limits: Limits, j: JobId, a: AttemptId, version: int)
    requires Reachable(w, limits) && OwnsJob(w, j, a) && a in w.attempts && Newer(w.attempts[a], version)
    ensures var v := AttemptSucceeded(w, a, version).next;
            && v.jobs == w.jobs[j := w.jobs[j].(lease := None)] && v.drafts == w.drafts
            && (Listed(v, FullWork, j) <==>
                  w.jobs[j].status.Archiving? || (w.jobs[j].deadline.Some? && w.jobs[j].deadline.value > w.now))
  {
    hide Inv, Pending, ActiveOn;
    ReachableSound(w, limits);
    OnlyOwnerWorks(w, limits, j, 0, a);
    JobsSurvey(w, limits, j);
    NobodyLeft(w.attempts, a, AttemptSucceeded(w, a, version).next.attempts[a]);
  }
}
