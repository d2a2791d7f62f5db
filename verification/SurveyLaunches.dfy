/** Attempts on their way to an item: launching with back-off, claiming, and keeping the lease. */
module SurveyLaunches {
  import opened Wrappers
  import opened SurveyModel
  import opened SurveyTransitions
  import opened SurveyInvariants
  import opened SurveyOps
  import opened SurveyPending
  import opened SurveyRuns
  import opened SurveyRowLemmas
  import opened SurveySteps
  import opened SurveyGuarantees
  import opened SurveyAdmission
  import opened SurveyDrafting
  import opened SurveyStops

  // ---------- launching ----------

  /** The wait after the n-th launch failure: 15, 30, 60, 120 seconds, and 300 from the fifth on. */
  predicate Waits(failures: nat, delay: int) {
    if failures == 1 then delay == 15
    else if failures == 2 then delay == 30
    else if failures == 3 then delay == 60
    else if failures == 4 then delay == 120
    else delay == 300
  }

  /** A failed launch keeps the slot reserved, and is tried again exactly when its wait is over. */
  lemma LaunchRetried(w: World, a: AttemptId, elapsed: nat)
    requires LaunchFailed(w, a).reply.Done?
    ensures var v := LaunchFailed(w, a).next;
            && a in w.attempts && a in v.attempts && v == w.(attempts := v.attempts)
            && v.attempts - {a} == w.attempts - {a} && Active(v.attempts[a])
            && v.attempts[a].launchFailures == w.attempts[a].launchFailures + 1
            && exists delay ::
                 && Waits(v.attempts[a].launchFailures, delay)
                 && (MarkLaunching(Tick(v, elapsed).next, a).reply.Done? <==> elapsed >= delay)
  {
    var n := w.attempts[a].launchFailures;
    var delay := if n == 0 then 15 else if n == 1 then 30 else if n == 2 then 60 else if n == 3 then 120 else 300;
    assert Waits(n + 1, delay);
  }

  /** Launching is for attempts that have not been launched, and a failure is only recorded for those. */
  lemma LaunchAccepted(w: World, a: AttemptId)
    ensures var open := a in w.attempts && (w.attempts[a].status.Reserved? || w.attempts[a].status.Launching?);
            && (LaunchFailed(w, a).reply == if open then Done else Refused(NotLaunchable))
            && (MarkLaunching(w, a).reply == if open && w.attempts[a].nextLaunch <= w.now then Done else Unchanged)
            && (MarkLaunching(w, a).reply.Done? ==>
                  var v := MarkLaunching(w, a).next;
                  && v == w.(attempts := w.attempts[a := w.attempts[a].(status := AttemptStatus.Launching)])
                  && Active(v.attempts[a]))
  {
  }

  /** A launched attempt keeps the task it was launched as: marking it again is harmless, another task is refused. */
  lemma LaunchedOnce(w: World, a: AttemptId, arn: nat, arn': nat)
    requires MarkLaunched(w, a, arn).reply.Done?
    ensures var v := MarkLaunched(w, a, arn).next;
            && a in w.attempts && a in v.attempts && v == w.(attempts := v.attempts)
            && v.attempts - {a} == w.attempts - {a}
            && v.attempts[a].arn == Some(arn) && Active(v.attempts[a])
            && MarkLaunched(v, a, arn') == (if arn' == arn then Step(v, Done) else Step(v, Refused(NotLaunchable)))
            && MarkLaunching(v, a) == Step(v, Unchanged)
  {
  }

  lemma LaunchedAccepted(w: World, a: AttemptId, arn: nat)
    ensures MarkLaunched(w, a, arn).reply
         == if a in w.attempts
               && (w.attempts[a].status.Reserved? || w.attempts[a].status.Launching? || w.attempts[a].status.Launched?)
               && (w.attempts[a].arn.None? || w.attempts[a].arn.value == arn)
            then Done else Refused(NotLaunchable)
  {
  }

  // ---------- claiming ----------

  /** A running job is swept exactly from the moment its lease runs out, if it is not renewed. */
  lemma SweptFrom(w: World, limits: Limits, j: JobId, elapsed: nat)
    requires Reachable(w, limits) && j in w.jobs && w.jobs[j].status.Running? && w.jobs[j].lease.Some?
    ensures RecoverJob(Tick(w, elapsed).next, j).reply.Done? <==> w.now + elapsed >= w.jobs[j].lease.value.expires
  {
    hide Reachable, RecoverJob;
    TimePasses(w, limits, elapsed);
    RecoveryAccepted(Tick(w, elapsed).next, limits, j);
  }

  lemma DraftSweptFrom(w: World, limits: Limits, d: DraftId, elapsed: nat)
    requires Reachable(w, limits) && d in w.drafts && w.drafts[d].status.Running? && w.drafts[d].lease.Some?
    ensures RecoverDraft(Tick(w, elapsed).next, d).reply.Done? <==> w.now + elapsed >= w.drafts[d].lease.value.expires
  {
    hide Reachable, RecoverDraft, GivenUp;
    TimePasses(w, limits, elapsed);
    SweepAccepted(Tick(w, elapsed).next, limits, d);
  }

  lemma TimePasses(w: World, limits: Limits, elapsed: nat)
    requires Reachable(w, limits)
    ensures Reachable(Tick(w, elapsed).next, limits)
  {
    hide Reachable;
    OneFurther(w, limits, PassTime(elapsed));
    assert Apply(w, limits, PassTime(elapsed)) == Tick(w, elapsed);
  }

  lemma DraftClaimed(w: World, limits: Limits, d: DraftId, a: AttemptId, lease: int)
    requires Inv(w, limits) && ClaimDraft(w, d, a, lease).reply.Done?
    ensures a in w.attempts && d in w.drafts && w.drafts[d].status.Queued?
    ensures ClaimDraft(w, d, a, lease).next
         == w.(drafts := w.drafts[d := w.drafts[d].(status := DraftStatus.Running,
                                                    lease := Some(Lease(a, w.now + lease)))],
               attempts := w.attempts[a := w.attempts[a].(status := AttemptStatus.Running, started := true)])
  {
    hide Inv;
  }

  /**
   A claimed Draft computes under a lease of the given length: unless it is renewed, the sweep gives the Draft up
   exactly from then on.  The Draft cannot be claimed a second time.
   */
  lemma ClaimedDraft(w: World, limits: Limits, d: DraftId, a: AttemptId, lease: int, elapsed: nat, b: AttemptId)
    requires Reachable(w, limits) && ClaimDraft(w, d, a, lease).reply.Done?
    ensures var v := ClaimDraft(w, d, a, lease).next;
            && d in w.drafts && d in v.drafts && v.drafts - {d} == w.drafts - {d} && OwnsDraft(v, d, a)
            && v.drafts[d].queuedAt == w.drafts[d].queuedAt && v.surveys == w.surveys && v.jobs == w.jobs
            && a in v.attempts && v.attempts[a].status.Running? && v.attempts[a].started
            && v.attempts - {a} == w.attempts - {a}
            && (RecoverDraft(Tick(v, elapsed).next, d).reply.Done? <==> elapsed >= lease)
            && ClaimDraft(v, d, b, lease) == Step(v, Unchanged)
  {
    hide Inv, Pending, Reachable, RecoverDraft, ClaimDraft;
    var v := ClaimDraft(w, d, a, lease).next;
    ReachableSound(w, limits);
    DraftClaimed(w, limits, d, a, lease);
    OneFurther(w, limits, ClaimExactDraft(d, a, lease));
    assert Apply(w, limits, ClaimExactDraft(d, a, lease)) == ClaimDraft(w, d, a, lease);
    DraftSweptFrom(v, limits, d, elapsed);
    OnlyQueuedClaimed(v, d, b, lease);
  }

  lemma OnlyQueuedClaimed(w: World, d: DraftId, a: AttemptId, lease: int)
    requires d in w.drafts && !w.drafts[d].status.Queued?
    ensures ClaimDraft(w, d, a, lease) == Step(w, Unchanged)
  {
  }

  /**
   A claimed job computes, or is archived, under a lease.  Its deadline is set by the first claim and kept by later
   ones, and each claim resumes from the checkpoint the job stands at.
   */
  lemma ClaimedJob(w: World, limits: Limits, j: JobId, a: AttemptId, lease: int, timeout: int)
    requires Reachable(w, limits) && ClaimJob(w, j, a, lease, timeout).reply.Done?
    ensures j in w.jobs
    ensures var v, was := ClaimJob(w, j, a, lease, timeout).next, w.jobs[j];
            && j in v.jobs && v.jobs - {j} == w.jobs - {j} && OwnsJob(v, j, a)
            && v.drafts == w.drafts && v.usage == w.usage
            && a in v.attempts && v.attempts[a].status.Running? && v.attempts[a].started
            && v.attempts - {a} == w.attempts - {a}
            && (v.jobs[j].status.Running? <==> !was.status.Archiving?)
            && (v.jobs[j].status.Running? ==> was.survey in v.surveys && v.surveys[was.survey].status.Running?)
            && v.jobs[j].deadline == (if was.deadline.Some? then was.deadline else Some(w.now + timeout))
            && v.jobs[j].checkpoint == was.checkpoint
            && v.attempts[a].checkpoint
               == (if was.checkpoint.None? then None else Some(was.checkpoint.value.sequence))
            && v.jobs[j].resumes == was.resumes + (if was.checkpoint.Some? then 1 else 0)
  {
    hide Inv, Pending;
    ReachableSound(w, limits);
    ClaimableHere(w, a, FullWork, j);
    JobsSurvey(w, limits, j);
    WithJob(w, limits, w.attempts[a].survey);
  }

  /** Unless it is renewed, the lease of a claim lasts exactly as long as it was claimed for. */
  lemma LeaseRunsOut(w: World, limits: Limits, j: JobId, a: AttemptId, lease: int, timeout: int, elapsed: nat)
    requires Reachable(w, limits) && ClaimJob(w, j, a, lease, timeout).reply.Done?
    requires j in w.jobs && !w.jobs[j].status.Archiving?
    ensures RecoverJob(Tick(ClaimJob(w, j, a, lease, timeout).next, elapsed).next, j).reply.Done? <==> elapsed >= lease
  {
    hide ClaimJob, RecoverJob, Reachable;
    ClaimedJob(w, limits, j, a, lease, timeout);
    ClaimLease(w, j, a, lease, timeout);
    OneFurther(w, limits, ClaimExactJob(j, a, lease, timeout));
    assert Apply(w, limits, ClaimExactJob(j, a, lease, timeout)) == ClaimJob(w, j, a, lease, timeout);
    SweptFrom(ClaimJob(w, j, a, lease, timeout).next, limits, j, elapsed);
  }

  lemma ClaimLease(w: World, j: JobId, a: AttemptId, lease: int, timeout: int)
    requires ClaimJob(w, j, a, lease, timeout).reply.Done?
    ensures var v := ClaimJob(w, j, a, lease, timeout).next;
            j in v.jobs && v.jobs[j].lease == Some(Lease(a, w.now + lease)) && v.now == w.now
  {
    hide Sequence;
  }

  /** A heartbeat renews exactly the lease of the item the attempt computes, if it still owns it. */
  lemma HeartbeatAccepted(w: World, limits: Limits, a: AttemptId, lease: int)
    requires Reachable(w, limits)
    ensures Heartbeat(w, a, lease).reply
         == if a in w.attempts
               && (if w.attempts[a].kind.FullWork? then OwnsJob(w, w.attempts[a].target, a)
                   else OwnsDraft(w, w.attempts[a].target, a))
            then Done else Unchanged
  {
    hide Inv, Pending;
    ReachableSound(w, limits);
    if a in w.attempts {
      OnlyOwnerWorks(w, limits, w.attempts[a].target, w.attempts[a].target, a);
      if w.attempts[a].target in w.jobs {
        JobsSurvey(w, limits, w.attempts[a].target);
      }
    }
  }

  lemma JobRenewed(w: World, limits: Limits, j: JobId, a: AttemptId, lease: int)
    requires Inv(w, limits) && OwnsJob(w, j, a)
    ensures Heartbeat(w, a, lease).next
         == w.(jobs := w.jobs[j := w.jobs[j].(lease := Some(Lease(a, w.now + lease)))])
  {
    hide Inv;
    OnlyOwnerWorks(w, limits, j, 0, a);
    JobsSurvey(w, limits, j);
  }

  lemma DraftRenewed(w: World, limits: Limits, d: DraftId, a: AttemptId, lease: int)
    requires Inv(w, limits) && OwnsDraft(w, d, a)
    ensures Heartbeat(w, a, lease).next
         == w.(drafts := w.drafts[d := w.drafts[d].(lease := Some(Lease(a, w.now + lease)))])
  {
    hide Inv;
    OnlyOwnerWorks(w, limits, 0, d, a);
  }

  /** A renewed lease lasts its length from the heartbeat on; nothing else changes. */
  lemma HeartbeatRenewsJob(w: World, limits: Limits, j: JobId, a: AttemptId, lease: int, elapsed: nat)
    requires Reachable(w, limits) && OwnsJob(w, j, a)
    ensures var v := Heartbeat(w, a, lease).next;
            && v == w.(jobs := v.jobs) && j in v.jobs && OwnsJob(v, j, a) && v.jobs - {j} == w.jobs - {j}
            && (w.jobs[j].status.Running? ==>
                  (RecoverJob(Tick(v, elapsed).next, j).reply.Done? <==> elapsed >= lease))
  {
    hide Inv, Pending, Reachable, RecoverJob, Heartbeat, Tick;
    ReachableSound(w, limits);
    HeartbeatReaches(w, limits, a, lease);
    JobRenewed(w, limits, j, a, lease);
    if w.jobs[j].status.Running? {
      SweptFrom(Heartbeat(w, a, lease).next, limits, j, elapsed);
    }
  }

  lemma HeartbeatRenewsDraft(w: World, limits: Limits, d: DraftId, a: AttemptId, lease: int, elapsed: nat)
    requires Reachable(w, limits) && OwnsDraft(w, d, a)
    ensures var v := Heartbeat(w, a, lease).next;
            && v == w.(drafts := v.drafts) && d in v.drafts && OwnsDraft(v, d, a) && v.drafts - {d} == w.drafts - {d}
            && (RecoverDraft(Tick(v, elapsed).next, d).reply.Done? <==> elapsed >= lease)
  {
    hide Inv, Pending, Reachable, RecoverDraft, Heartbeat, Tick;
    ReachableSound(w, limits);
    HeartbeatReaches(w, limits, a, lease);
    DraftRenewed(w, limits, d, a, lease);
    DraftSweptFrom(Heartbeat(w, a, lease).next, limits, d, elapsed);
  }

  lemma HeartbeatReaches(w: World, limits: Limits, a: AttemptId, lease: int)
    requires Reachable(w, limits)
    ensures Reachable(Heartbeat(w, a, lease).next, limits)
  {
    hide Reachable, Heartbeat;
    OneFurther(w, limits, HeartbeatAttempt(a, lease));
    assert Apply(w, limits, HeartbeatAttempt(a, lease)) == Heartbeat(w, a, lease);
  }
}
