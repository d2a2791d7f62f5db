/**
 Exactly when a running execution can still end.  A running attempt on a running job holds its lease;
 so a job is leased, or an attempt under way can claim it, or a reserving transaction can still get to
 it, or it is stranded.
 */
module SurveyEnding {
  import opened SurveyModel
  import opened SurveyTransitions
  import opened SurveyInvariants
  import opened SurveyOps
  import opened SurveyCalm
  import opened SurveyPending
  import opened SurveyRescue
  import opened SurveyRuns
  import opened SurveySteps
  import opened SurveyGuarantees
  import opened SurveyStranded
  import opened SurveyServing
  import opened SurveyFairness
  import opened FairQueue
  import opened Sets

  /** The job can leave its running state by some run. */
  ghost predicate CanEnd(w: World, limits: Limits, j: JobId) {
    exists v :: Follows(w, limits, v) && !(j in v.jobs && v.jobs[j].status.Running?)
  }

  lemma CanEndAfter(w: World, limits: Limits, op: Op, j: JobId)
    requires CanEnd(Apply(w, limits, op).next, limits, j)
    ensures CanEnd(w, limits, j)
  {
    hide Apply, Follows;
    var u := Apply(w, limits, op).next;
    var v :| Follows(u, limits, v) && !(j in v.jobs && v.jobs[j].status.Running?);
    FollowsOne(w, limits, op);
    FollowsThen(w, limits, u, v);
  }

  lemma CanEndThen(w: World, limits: Limits, u: World, j: JobId)
    requires Follows(w, limits, u) && CanEnd(u, limits, j)
    ensures CanEnd(w, limits, j)
  {
    hide Follows;
    var v :| Follows(u, limits, v) && !(j in v.jobs && v.jobs[j].status.Running?);
    FollowsThen(w, limits, u, v);
  }

  lemma StaysReachable(w: World, limits: Limits, op: Op)
    requires Reachable(w, limits)
    ensures Reachable(Apply(w, limits, op).next, limits)
  {
    hide Apply, Run;
    var ops :| w == Run(EMPTY, limits, ops);
    assert Follows(EMPTY, limits, w);
    FollowsOne(w, limits, op);
    FollowsThen(EMPTY, limits, w, Apply(w, limits, op).next);
  }

  // ---------- leased or about to be ----------

  /** A leased job ends: its lease runs out and the sweep comes by. */
  lemma LeasedEnds(w: World, limits: Limits, j: JobId)
    requires Reachable(w, limits) && j in w.jobs && w.jobs[j].status.Running? && w.jobs[j].lease.Some?
    ensures CanEnd(w, limits, j)
  {
    hide Run, Reachable;
    var expires := w.jobs[j].lease.value.expires;
    var elapsed: nat := if expires > w.now then expires - w.now else 0;
    LeasedJobEnds(w, limits, j, elapsed);
    var v := Run(w, limits, [PassTime(elapsed), RecoverExpiredJob(j)]);
    assert Follows(w, limits, v);
  }

  lemma ClaimedNext(w: World, limits: Limits, j: JobId, a: AttemptId)
    ensures Apply(w, limits, ClaimExactJob(j, a, 60, 60)) == ClaimJob(w, j, a, 60, 60)
    ensures ClaimJob(w, j, a, 60, 60).reply.Done? && j in w.jobs && w.jobs[j].status.Running? ==>
              var v := ClaimJob(w, j, a, 60, 60).next;
              j in v.jobs && v.jobs[j].status.Running? && v.jobs[j].lease.Some?
  {
  }

  /** An attempt under way can claim its running job, which then ends like any leased one. */
  lemma ClaimableEnds(w: World, limits: Limits, j: JobId, a: AttemptId)
    requires Reachable(w, limits) && j in w.jobs && w.jobs[j].status.Running? && Claimable(w, a, FullWork, j)
    ensures CanEnd(w, limits, j)
  {
    hide Run, Reachable, Apply, ClaimJob, Claimable, CanEnd;
    ClaimJobAccepted(w, limits, j, a, 60, 60);
    ClaimedNext(w, limits, j, a);
    StaysReachable(w, limits, ClaimExactJob(j, a, 60, 60));
    LeasedEnds(Apply(w, limits, ClaimExactJob(j, a, 60, 60)).next, limits, j);
    CanEndAfter(w, limits, ClaimExactJob(j, a, 60, 60), j);
  }

  /** On an unleased running job an active attempt has not claimed yet. */
  lemma ActiveCanClaim(w: World, limits: Limits, j: JobId, a: AttemptId)
    requires Reachable(w, limits) && j in w.jobs && w.jobs[j].status.Running? && w.jobs[j].lease.None?
    requires a in ActiveOn(w.attempts, FullWork, j)
    ensures Claimable(w, a, FullWork, j)
  {
    hide Reachable;
    if w.attempts[a].status.Running? {
      ComputingIsLeased(w, limits, a, j);
    }
  }

  // ---------- making room ----------

  /** Nobody computes anything: every cap has room. */
  predicate Idle(w: World) {
    ActiveOfKind(w.attempts, FullWork) == {}
  }

  lemma {:induction false} FreshId(used: set<nat>) returns (a: nat)
    ensures a !in used && forall b :: b in used ==> b < a
    decreases |used|
  {
    if used == {} {
      a := 0;
    } else {
      var b :| b in used;
      var c := FreshId(used - {b});
      a := if b < c then c else b + 1;
      assert used == used - {b} + {b};
    }
  }

  /** What the waiting job and the transactions under way are concerned with is as before. */
  ghost predicate SameChances(w: World, v: World, j: JobId)
    requires j in w.jobs
  {
    && j in v.jobs && v.jobs[j] == w.jobs[j] && v.surveys == w.surveys && v.jobOf == w.jobOf
    && v.line == w.line && v.passes == w.passes && v.now == w.now && v.hist == w.hist
    && StartedOn(v.attempts, FullWork, j) == StartedOn(w.attempts, FullWork, j)
  }

  lemma DroppedRows(w: World, a: AttemptId, j: JobId)
    requires a in w.attempts && j in w.jobs && w.jobs[j].lease.None?
    ensures var u := Dropped(w, a, true);
            u == w.(jobs := u.jobs, drafts := u.drafts) && j in u.jobs && u.jobs[j] == w.jobs[j]
  {
  }

  /** A stop event of somebody else's attempt makes room and leaves the waiting job its chances. */
  lemma StopMakesRoom(w: World, j: JobId, a: AttemptId)
    requires Waiting(w, j) && a in ActiveOfKind(w.attempts, FullWork)
    ensures var v := AttemptStopped(w, a, Later(w.attempts[a]), true).next;
            && Waiting(v, j) && SameChances(w, v, j)
            && ActiveOfKind(v.attempts, FullWork) == ActiveOfKind(w.attempts, FullWork) - {a}
  {
    hide Sleeps, Dropped;
    var v := AttemptStopped(w, a, Later(w.attempts[a]), true).next;
    StoppedSleeps(w, a, Later(w.attempts[a]), true, j);
    StillWaiting(w, v, j);
    DroppedRows(w, a, j);
    assert v.attempts == w.attempts[a := v.attempts[a]];
  }

  lemma StopApplies(w: World, limits: Limits, a: AttemptId, version: int)
    ensures Apply(w, limits, RecordStopped(a, version, true)).next == AttemptStopped(w, a, version, true).next
  {
    hide AttemptStopped;
  }

  lemma InAttempts(w: World, a: AttemptId)
    requires a in ActiveOfKind(w.attempts, FullWork)
    ensures a in w.attempts
  {
  }

  /** Capacity is no obstacle: whoever holds it can stop first. */
  lemma {:induction false} EveryoneStops(w: World, limits: Limits, j: JobId) returns (v: World)
    requires Reachable(w, limits) && Waiting(w, j)
    ensures Reachable(v, limits) && Follows(w, limits, v) && Idle(v) && Waiting(v, j)
    ensures j in w.jobs && SameChances(w, v, j)
    decreases |ActiveOfKind(w.attempts, FullWork)|
  {
    hide Reachable, Follows, Apply, Waiting, AttemptStopped, ActiveOfKind, StartedOn;
    IsThere(w, j);
    if ActiveOfKind(w.attempts, FullWork) == {} {
      v := w;
      FollowsSelf(w, limits);
    } else {
      var a :| a in ActiveOfKind(w.attempts, FullWork);
      InAttempts(w, a);
      var op := RecordStopped(a, Later(w.attempts[a]), true);
      var u := Apply(w, limits, op).next;
      StopMakesRoom(w, j, a);
      StopApplies(w, limits, a, Later(w.attempts[a]));
      StaysReachable(w, limits, op);
      FollowsOne(w, limits, op);
      v := EveryoneStops(u, limits, j);
      FollowsThen(w, limits, u, v);
    }
  }

  // ---------- a transaction under way gets to the job ----------

  lemma SameCheck(w: World, v: World, j: JobId, c: Candidate)
    requires j in w.jobs && SameChances(w, v, j) && Current(w, FullWork, c) && c.target == j
    ensures Current(v, FullWork, c)
  {
    hide StartedOn;
  }

  lemma NobodyOfUser(w: World, user: UserId)
    requires Idle(w)
    ensures ActiveOfUser(w.surveys, w.attempts, FullWork, user) == {}
  {
  }

  lemma TriedFirst(w: World, limits: Limits, j: JobId, a: AttemptId)
    requires FullWork in w.passes && w.passes[FullWork] != [] && w.passes[FullWork][0].target == j
    requires LateReserve(w, limits, FullWork, w.passes[FullWork][0], a).reply.Done?
    ensures var v := Apply(w, limits, TryCandidate(FullWork, a)).next; v.jobs == w.jobs && Claimable(v, a, FullWork, j)
  {
    hide LateReserve;
    LateShape(w, limits, FullWork, w.passes[FullWork][0], a);
  }

  /** With nobody computing, the transaction reserves the candidate it has come to. */
  lemma FirstEnds(w: World, limits: Limits, j: JobId)
    requires Reachable(w, limits) && limits.Valid() && Idle(w) && Waiting(w, j)
    requires FullWork in w.passes && w.passes[FullWork] != []
    requires w.passes[FullWork][0].target == j && Current(w, FullWork, w.passes[FullWork][0])
    ensures CanEnd(w, limits, j)
  {
    hide Inv, Fits, Reachable, Apply, Claimable, CanEnd, LateReserve, Current, ActiveOfUser;
    ReachableSound(w, limits);
    assert Underway(w, limits, FullWork);
    var c := w.passes[FullWork][0];
    var a := FreshId(w.attempts.Keys);
    NobodyOfUser(w, c.user);
    LateKeeps(w, limits, FullWork, c, a);
    TriedFirst(w, limits, j, a);
    StaysReachable(w, limits, TryCandidate(FullWork, a));
    ClaimableEnds(Apply(w, limits, TryCandidate(FullWork, a)).next, limits, j, a);
    CanEndAfter(w, limits, TryCandidate(FullWork, a), j);
  }

  lemma RescueStarts(w: World, limits: Limits, list: seq<Candidate>, j: JobId)
    requires Rescues(w, limits, list, j)
    ensures list != []
    ensures !(list[0].target == j && Current(w, FullWork, list[0])) ==>
              Skippable(w, limits, list[0]) && Rescues(w, limits, list[1..], j) && |list| > 1
  {
    hide Current, Skippable;
  }

  /** The first candidate is passed over, and the next one is up. */
  lemma PassedOver(w: World, limits: Limits, a: AttemptId)
    requires FullWork in w.passes && |w.passes[FullWork]| > 1
    requires var c := w.passes[FullWork][0];
             !Current(w, FullWork, c)
             || |ActiveOfUser(w.surveys, w.attempts, FullWork, c.user)| >= limits.fullUser
    ensures Apply(w, limits, TryCandidate(FullWork, a)).next
            == w.(passes := w.passes[FullWork := w.passes[FullWork][1..]])
  {
    hide Current, ActiveOfUser, ActiveOn, NumberTaken;
  }

  // ---------- withdrawing a candidate ahead ----------

  lemma QueuedCandidate(w: World, limits: Limits, c: Candidate)
    requires Inv(w, limits) && Fits(w, limits, FullWork, c) && Current(w, FullWork, c)
    requires w.jobs[c.target].status.Queued?
    ensures Visible(w, c.survey, c.user) && w.surveys[c.survey].status.Queued?
    ensures c.survey in w.jobOf && w.jobOf[c.survey] == c.target && ActiveOn(w.attempts, FullWork, c.target) == {}
  {
    hide Inv, Counted;
    IsSound(w, limits, c.survey);
    NoneActive(w.attempts, limits, FullWork, c);
  }

  /** Its user cancels a queued Survey. */
  lemma Cancelled(w: World, limits: Limits, c: Candidate)
    requires Reachable(w, limits) && Fits(w, limits, FullWork, c) && Current(w, FullWork, c)
    requires w.jobs[c.target].status.Queued?
    ensures var v := Cancel(w, c.survey, c.user).next;
            && c.survey in w.surveys && c.survey in v.surveys && c.survey !in v.jobOf
            && v.surveys == w.surveys[c.survey := v.surveys[c.survey]]
            && v.surveys[c.survey].user == w.surveys[c.survey].user
            && v.attempts == WithoutJob(w, c.survey).attempts
  {
    hide Inv, Pending, Fits, Settled, CancelledDrafts, Current;
    ReachableSound(w, limits);
    IsCurrent(w, c);
    QueuedCandidate(w, limits, c);
    ReservationStands(w, limits, c.survey, false);
    IsSound(w, limits, c.survey);
  }

  /** The withdrawn job had no active attempt: nobody's share of the capacity changes. */
  lemma SameShares(w: World, v: World, c: Candidate, user: UserId)
    requires c.survey in w.surveys && c.survey in w.jobOf && w.jobOf[c.survey] == c.target
    requires ActiveOn(w.attempts, FullWork, c.target) == {}
    requires c.survey in v.surveys && v.surveys == w.surveys[c.survey := v.surveys[c.survey]]
    requires v.surveys[c.survey].user == w.surveys[c.survey].user
    requires v.attempts == WithoutJob(w, c.survey).attempts
    ensures ActiveOfUser(v.surveys, v.attempts, FullWork, user) == ActiveOfUser(w.surveys, w.attempts, FullWork, user)
  {
    forall a | a in ActiveOfKind(w.attempts, FullWork)
      ensures w.attempts[a].target != c.target
    {
      assert a in ActiveOn(w.attempts, FullWork, w.attempts[a].target);
    }
  }

  /** A candidate that can be passed over still can. */
  lemma StillSkippable(w: World, v: World, limits: Limits, d: Candidate)
    requires Inv(w, limits) && Inv(v, limits) && Calms(w, v, FullWork) && Fits(w, limits, FullWork, d)
    requires ActiveOfUser(v.surveys, v.attempts, FullWork, d.user)
             == ActiveOfUser(w.surveys, w.attempts, FullWork, d.user)
    requires Skippable(w, limits, d)
    ensures Skippable(v, limits, d)
  {
    hide Inv, Fits, Calms, Current, ActiveOfUser;
    if Current(v, FullWork, d) {
      CurrentBefore(w, v, limits, d);
      IsCurrent(v, d);
    }
  }

  lemma RunningStays(w: World, v: World, limits: Limits, j: JobId, d: Candidate)
    requires Inv(w, limits) && Inv(v, limits) && Calms(w, v, FullWork) && Fits(w, limits, FullWork, d)
    requires d.target == j && Current(w, FullWork, d) && Waiting(w, j)
    ensures Current(v, FullWork, d)
  {
    hide Inv, Fits, Calms, Current, ActiveOn;
    StaysCurrent(w, v, limits, d);
  }

  lemma {:induction false} StillRescues(w: World, v: World, limits: Limits, list: seq<Candidate>, j: JobId)
    requires Inv(w, limits) && Inv(v, limits) && Calms(w, v, FullWork) && Waiting(w, j)
    requires forall d :: d in list ==> Fits(w, limits, FullWork, d)
    requires forall user :: ActiveOfUser(v.surveys, v.attempts, FullWork, user)
                            == ActiveOfUser(w.surveys, w.attempts, FullWork, user)
    requires Rescues(w, limits, list, j)
    ensures Rescues(v, limits, list, j)
  {
    hide Inv, Fits, Calms, Current, Skippable, Waiting, ActiveOfUser;
    var d := list[0];
    assert Fits(w, limits, FullWork, d);
    if d.target == j && Current(w, FullWork, d) {
      RunningStays(w, v, limits, j, d);
    } else {
      StillSkippable(w, v, limits, d);
      StillRescues(w, v, limits, list[1..], j);
    }
  }

  lemma Uncurrent(w: World, c: Candidate)
    requires c.survey !in w.jobOf
    ensures !Current(w, FullWork, c)
  {
  }

  lemma CancelApplies(w: World, limits: Limits, s: SurveyId, user: UserId)
    ensures Apply(w, limits, CancelSurvey(s, user)).next == Cancel(w, s, user).next
  {
    hide Cancel;
  }

  /** A queued candidate ahead is withdrawn by its user: the way stays open, and it is passed over. */
  lemma WithdrawAhead(w: World, limits: Limits, j: JobId) returns (v: World)
    requires Reachable(w, limits) && Waiting(w, j) && FullWork in w.passes
    requires Rescues(w, limits, w.passes[FullWork], j) && |w.passes[FullWork]| > 0
    requires var c := w.passes[FullWork][0]; Current(w, FullWork, c) && w.jobs[c.target].status.Queued?
    ensures Reachable(v, limits) && Follows(w, limits, v) && Waiting(v, j) && v.passes == w.passes
    ensures Rescues(v, limits, w.passes[FullWork], j) && !Current(v, FullWork, w.passes[FullWork][0])
  {
    hide Inv, Reachable, Follows, Apply, Waiting, Current, Rescues, Fits, Calms, Cancel, Sleeps, WithoutJob,
      ActiveOfUser, ActiveOn;
    ReachableSound(w, limits);
    assert Underway(w, limits, FullWork);
    var c := w.passes[FullWork][0];
    var op := CancelSurvey(c.survey, c.user);
    IsCurrent(w, c);
    v := Cancel(w, c.survey, c.user).next;
    CancelApplies(w, limits, c.survey, c.user);
    FollowsOne(w, limits, op);
    StaysReachable(w, limits, op);
    ReachableSound(v, limits);
    PassesStay(w, limits, op);
    CancelSleeps(w, limits, c.survey, c.user, j);
    StillWaiting(w, v, j);
    CancelCalm(w, limits, c.survey, c.user, FullWork);
    Cancelled(w, limits, c);
    QueuedCandidate(w, limits, c);
    forall user
      ensures ActiveOfUser(v.surveys, v.attempts, FullWork, user)
              == ActiveOfUser(w.surveys, w.attempts, FullWork, user)
    {
      SameShares(w, v, c, user);
    }
    StillRescues(w, v, limits, w.passes[FullWork], j);
    Uncurrent(v, c);
  }

  lemma SameWait(w: World, v: World, j: JobId)
    requires Waiting(w, j) && v == w.(passes := v.passes)
    ensures Waiting(v, j)
  {
  }

  /** The transaction goes through its list, past candidates that are gone or out of room, to the job. */
  lemma {:induction false} RescueEnds(w: World, limits: Limits, j: JobId)
    requires Reachable(w, limits) && limits.Valid() && Waiting(w, j) && Rescued(w, limits, j)
    ensures CanEnd(w, limits, j)
    decreases |w.passes[FullWork]|, if Current(w, FullWork, w.passes[FullWork][0]) then 1 else 0
  {
    hide Reachable, Follows, Apply, CanEnd, Waiting, Current, ActiveOfUser, Rescues, StartedOn, Idle;
    var list := w.passes[FullWork];
    RescueStarts(w, limits, list, j);
    IsThere(w, j);
    if list[0].target == j && Current(w, FullWork, list[0]) {
      var v := EveryoneStops(w, limits, j);
      SameCheck(w, v, j, list[0]);
      FirstEnds(v, limits, j);
      CanEndThen(w, limits, v, j);
    } else if !Current(w, FullWork, list[0])
              || |ActiveOfUser(w.surveys, w.attempts, FullWork, list[0].user)| >= limits.fullUser {
      var a := FreshId(w.attempts.Keys);
      var v := Apply(w, limits, TryCandidate(FullWork, a)).next;
      PassedOver(w, limits, a);
      StaysReachable(w, limits, TryCandidate(FullWork, a));
      SameWait(w, v, j);
      RescuesAside(w, v, limits, list[1..], j);
      RescueEnds(v, limits, j);
      CanEndAfter(w, limits, TryCandidate(FullWork, a), j);
    } else {
      var v := WithdrawAhead(w, limits, j);
      RescueEnds(v, limits, j);
      CanEndThen(w, limits, v, j);
    }
  }

  // ---------- a transaction yet to begin ----------

  lemma WaitingReservable(w: World, limits: Limits, j: JobId)
    requires Inv(w, limits) && limits.Valid() && Idle(w) && Waiting(w, j) && Listable(w, limits, j, w.now)
    ensures Reservable(w, limits, FullWork, j)
  {
    hide Inv, StartedOn, ActiveOfKind;
    JobsSurvey(w, limits, j);
    NobodyOfUser(w, w.surveys[w.jobs[j].survey].user);
  }

  lemma IdleRoom(w: World, limits: Limits)
    requires Idle(w) && limits.Valid()
    ensures |ActiveOfKind(w.attempts, FullWork)| < limits.Global(FullWork)
  {
  }

  /** Among reservable items one is served first. */
  lemma SomebodyLeads(w: World, limits: Limits, j: JobId) returns (f: JobId)
    requires Reservable(w, limits, FullWork, j)
    ensures Leads(w, limits, FullWork, f)
  {
    hide Reservable, Listed, OpenRows, Sooner, Leads;
    ReservableListed(w, limits, FullWork, j);
    IsItem(w, FullWork, j);
    assert RowOf(w, FullWork, j) in AllowedRows(w, limits, FullWork);
    AllowedAreOpen(w, limits);
    OpenKeyed(w, FullWork);
    var x := SomebodyFirst(OpenRows(w, FullWork), AllowedRows(w, limits, FullWork));
    f := AllowedItem(w, limits, x);
    OfferedLeads(w, limits, FullWork, f);
  }

  lemma AllowedItem(w: World, limits: Limits, x: Row) returns (f: JobId)
    requires x in AllowedRows(w, limits, FullWork)
    ensures Listed(w, FullWork, f) && x == RowOf(w, FullWork, f)
  {
    hide Listed, WithinBudget, ActiveOfUser;
    f :| f in Items(w, FullWork) && Reservable(w, limits, FullWork, f) && x == RowOf(w, FullWork, f);
  }

  lemma AllowedAreOpen(w: World, limits: Limits)
    ensures AllowedRows(w, limits, FullWork) <= OpenRows(w, FullWork)
  {
    hide Listed, WithinBudget, ActiveOfUser;
  }

  /** The attempts that have computed anything for a job. */
  function StartedFull(attempts: map<AttemptId, Attempt>): set<AttemptId> {
    set a | a in attempts && attempts[a].kind.FullWork? && attempts[a].started
  }

  function StartedFor(attempts: map<AttemptId, Attempt>, some: set<JobId>): set<AttemptId> {
    set a | a in StartedFull(attempts) && attempts[a].target in some
  }

  lemma {:induction false} StartsBounded(attempts: map<AttemptId, Attempt>, limits: Limits, some: set<JobId>)
    requires Budgeted(attempts, limits)
    ensures |StartedFor(attempts, some)| <= |some| * (limits.maxCompute + 8)
    decreases |some|
  {
    if some == {} {
      assert StartedFor(attempts, some) == {};
    } else {
      var j :| j in some;
      StartsBounded(attempts, limits, some - {j});
      assert StartedFor(attempts, some) == StartedFor(attempts, some - {j}) + StartedOn(attempts, FullWork, j);
      SubsetSize(StartedOn(attempts, FullWork, j), SpentOn(attempts, FullWork, j));
      assert |SpentOn(attempts, FullWork, j)| <= Budget(limits, FullWork);
      assert |some - {j}| == |some| - 1;
    }
  }

  function MostStarts(jobs: set<JobId>, limits: Limits): nat {
    |jobs| * (limits.maxCompute + 8)
  }

  /** How many compute starts all jobs together have left at most. */
  ghost function StartsLeft(w: World, limits: Limits): nat {
    var left := MostStarts(w.jobs.Keys, limits) - |StartedFull(w.attempts)|;
    if left >= 0 then left else 0
  }

  lemma StartsAreBounded(w: World, limits: Limits)
    requires Inv(w, limits)
    ensures |StartedFull(w.attempts)| <= MostStarts(w.jobs.Keys, limits)
  {
    hide Indexed, Lockstep, QuotaExact, ChargedOnce, CancelsStick, DraftChain, Approved, Leased, Numbered, Capped,
      Checkpointed, Announced, Budgeted;
    forall a | a in StartedFull(w.attempts)
      ensures w.attempts[a].target in w.jobs
    {
      assert Targets(w.jobs, w.drafts, w.attempts[a]);
    }
    assert StartedFor(w.attempts, w.jobs.Keys) == StartedFull(w.attempts);
    StartsBounded(w.attempts, limits, w.jobs.Keys);
  }

  /** The job waits, in time and with starts left, nobody computes, and no transaction is under way. */
  ghost predicate Ready(w: World, limits: Limits, j: JobId) {
    Waiting(w, j) && Listable(w, limits, j, w.now) && Idle(w) && FullWork !in w.passes
  }

  /** Another job is reserved, claimed and dropped: it has used up a start. */
  ghost predicate Spends(w: World, v: World, f: JobId, a: AttemptId) {
    && a !in w.attempts && a in v.attempts && v.attempts == w.attempts[a := v.attempts[a]]
    && On(v.attempts[a], f) && v.attempts[a].started && !Active(v.attempts[a])
    && v.jobs.Keys == w.jobs.Keys && (forall k :: k in w.jobs && k != f ==> v.jobs[k] == w.jobs[k])
    && v.now == w.now && v.passes == w.passes
  }

  lemma SpendsReady(w: World, v: World, limits: Limits, j: JobId, f: JobId, a: AttemptId)
    requires Ready(w, limits, j) && Spends(w, v, f, a) && f != j
    ensures Ready(v, limits, j)
  {
    forall b | b in v.attempts && v.attempts[b].kind.FullWork?
      ensures !Active(v.attempts[b])
    {
      if b != a {
        assert b !in ActiveOfKind(w.attempts, FullWork);
      }
    }
    assert ActiveOfKind(v.attempts, FullWork) == {} && ActiveOn(v.attempts, FullWork, j) == {};
    assert StartedOn(v.attempts, FullWork, j) == StartedOn(w.attempts, FullWork, j);
  }

  lemma SpendsStart(w: World, v: World, limits: Limits, f: JobId, a: AttemptId)
    requires Spends(w, v, f, a) && Inv(v, limits)
    ensures StartsLeft(v, limits) < StartsLeft(w, limits)
  {
    hide Inv, Active, MostStarts;
    StartsAreBounded(v, limits);
    assert StartedFull(v.attempts) == StartedFull(w.attempts) + {a};
  }

  lemma ReservedFirst(w: World, limits: Limits, f: JobId, a: AttemptId)
    requires Idle(w) && limits.Valid() && FullWork !in w.passes && Leads(w, limits, FullWork, f) && a !in w.attempts
    ensures Listed(w, FullWork, f)
    ensures var v := Apply(w, limits, ReserveAttempt(FullWork, f, a)).next;
            && v == w.(attempts := w.attempts[a := NextAttempt(w, FullWork, f)])
            && Claimable(v, a, FullWork, f) && f in w.jobs && !w.jobs[f].status.Finished?
            && v.attempts[a].eventVersion.None?
  {
    hide ServedFirst, Reservable, ActiveOn, ActiveOfKind;
    IdleRoom(w, limits);
    ReservableListed(w, limits, FullWork, f);
  }

  lemma ClaimedRows(w: World, f: JobId, a: AttemptId)
    requires ClaimJob(w, f, a, 60, 60).reply.Done?
    ensures var v := ClaimJob(w, f, a, 60, 60).next;
            && f in w.jobs && a in w.attempts && v.jobs == w.jobs[f := v.jobs[f]] && v.jobs.Keys == w.jobs.Keys
            && a in v.attempts && v.attempts == w.attempts[a := v.attempts[a]]
            && On(v.attempts[a], f) && v.attempts[a].started && v.attempts[a].status.Running?
            && v.attempts[a].eventVersion == w.attempts[a].eventVersion
            && v.now == w.now && v.passes == w.passes
  {
  }

  lemma DropsOwn(w: World, a: AttemptId)
    requires a in w.attempts && w.attempts[a].kind.FullWork? && w.attempts[a].target in w.jobs
    ensures var u := Dropped(w, a, true);
            && u.jobs.Keys == w.jobs.Keys && u.now == w.now && u.passes == w.passes
            && forall k :: k in w.jobs && k != w.attempts[a].target ==> u.jobs[k] == w.jobs[k]
  {
  }

  lemma StoppedRows(w: World, f: JobId, a: AttemptId)
    requires a in w.attempts && On(w.attempts[a], f) && w.attempts[a].status.Running? && f in w.jobs
    requires w.attempts[a].eventVersion.None?
    ensures var v := AttemptStopped(w, a, 0, true).next;
            && v.jobs.Keys == w.jobs.Keys && (forall k :: k in w.jobs && k != f ==> v.jobs[k] == w.jobs[k])
            && a in v.attempts && v.attempts == w.attempts[a := v.attempts[a]]
            && On(v.attempts[a], f) && v.attempts[a].started == w.attempts[a].started && !Active(v.attempts[a])
            && v.now == w.now && v.passes == w.passes
  {
    hide Dropped;
    DropsOwn(w, a);
  }

  /** Work off the item that is served first: it uses up a compute start, and everybody is idle again. */
  lemma OneRound(w: World, limits: Limits, f: JobId) returns (v: World, a: AttemptId)
    requires Reachable(w, limits) && limits.Valid() && Idle(w) && FullWork !in w.passes
    requires Leads(w, limits, FullWork, f)
    ensures Reachable(v, limits) && Follows(w, limits, v) && Spends(w, v, f, a)
  {
    hide Reachable, Follows, Apply, Idle, Leads, Claimable, ClaimJob, AttemptStopped, Listed, NextAttempt, Active;
    a := FreshId(w.attempts.Keys);
    var x := Apply(w, limits, ReserveAttempt(FullWork, f, a)).next;
    ReservedFirst(w, limits, f, a);
    FollowsOne(w, limits, ReserveAttempt(FullWork, f, a));
    StaysReachable(w, limits, ReserveAttempt(FullWork, f, a));
    ClaimJobAccepted(x, limits, f, a, 60, 60);
    ClaimedNext(x, limits, f, a);
    ClaimedRows(x, f, a);
    var y := Apply(x, limits, ClaimExactJob(f, a, 60, 60)).next;
    FollowsOne(x, limits, ClaimExactJob(f, a, 60, 60));
    StaysReachable(x, limits, ClaimExactJob(f, a, 60, 60));
    FollowsThen(w, limits, x, y);
    StoppedRows(y, f, a);
    StopApplies(y, limits, a, 0);
    v := Apply(y, limits, RecordStopped(a, 0, true)).next;
    FollowsOne(y, limits, RecordStopped(a, 0, true));
    StaysReachable(y, limits, RecordStopped(a, 0, true));
    FollowsThen(w, limits, y, v);
  }

  /** Whatever is ahead of a ready job in fair order is worked off, until it is served first itself. */
  lemma {:induction false} ReadyEnds(w: World, limits: Limits, j: JobId)
    requires Reachable(w, limits) && limits.Valid() && Ready(w, limits, j)
    ensures CanEnd(w, limits, j)
    decreases StartsLeft(w, limits)
  {
    hide Inv, Pending, Reachable, Follows, Apply, CanEnd, Waiting, Listable, Idle, Leads, Spends, Claimable,
      Reservable, StartsLeft, NextAttempt, Listed;
    ReachableSound(w, limits);
    WaitingReservable(w, limits, j);
    var f := SomebodyLeads(w, limits, j);
    if f == j {
      var a := FreshId(w.attempts.Keys);
      var op := ReserveAttempt(FullWork, j, a);
      IsRunning(w, j);
      ReservedFirst(w, limits, j, a);
      StaysReachable(w, limits, op);
      ClaimableEnds(Apply(w, limits, op).next, limits, j, a);
      CanEndAfter(w, limits, op, j);
    } else {
      var v, a := OneRound(w, limits, f);
      SpendsReady(w, v, limits, j, f, a);
      ReachableSound(v, limits);
      SpendsStart(w, v, limits, f, a);
      ReadyEnds(v, limits, j);
      CanEndThen(w, limits, v, j);
    }
  }

  lemma IsRunning(w: World, j: JobId)
    requires Waiting(w, j)
    ensures j in w.jobs && w.jobs[j].status.Running?
  {
  }

  lemma SameOffer(w: World, v: World, limits: Limits, j: JobId, t: Time)
    requires j in w.jobs && v == w.(passes := v.passes)
    ensures Waiting(v, j) <==> Waiting(w, j)
    ensures Listable(v, limits, j, t) <==> Listable(w, limits, j, t)
  {
  }

  lemma SameListable(w: World, v: World, limits: Limits, j: JobId, t: Time)
    requires j in w.jobs && SameChances(w, v, j) && Listable(w, limits, j, t)
    ensures Listable(v, limits, j, t)
  {
  }

  /** Neither capacity nor a transaction under way nor what is ahead in fair order keeps a job in time from its end. */
  lemma OfferedEnds(w: World, limits: Limits, j: JobId)
    requires Reachable(w, limits) && limits.Valid() && Waiting(w, j)
    requires j in w.jobs && Listable(w, limits, j, w.now)
    ensures CanEnd(w, limits, j)
  {
    hide Reachable, Follows, Apply, CanEnd, Waiting, Listable, Idle;
    var u := Apply(w, limits, AbandonPass(FullWork)).next;
    Abandoned(w, limits);
    StaysReachable(w, limits, AbandonPass(FullWork));
    SameOffer(w, u, limits, j, w.now);
    var v := EveryoneStops(u, limits, j);
    SameListable(u, v, limits, j, w.now);
    ReadyEnds(v, limits, j);
    CanEndThen(u, limits, v, j);
    CanEndAfter(w, limits, AbandonPass(FullWork), j);
  }

  /**
   Nothing is left for the job but a reserving transaction that began before its deadline and has yet to get
   the capacity lock.
   */
  ghost predicate HangsOnTicket(w: World, limits: Limits, j: JobId) {
    && Waiting(w, j) && !Listable(w, limits, j, w.now) && !Rescued(w, limits, j)
    && exists t :: Ticket(FullWork, t) in w.line && Listable(w, limits, j, t)
  }

  /**
   A running job can leave its running state, by some continuation of any length and at whatever
   load, exactly if it is not stranded.  Open is only the case in which it hangs on a waiting transaction:
   whether that gets to the job depends on what else its clock lets it list ahead of it.
   */
  lemma EndsExactly(w: World, limits: Limits, j: JobId)
    requires Reachable(w, limits) && limits.Valid() && j in w.jobs && w.jobs[j].status.Running?
    ensures HangsOnTicket(w, limits, j)
            || ((exists v :: Follows(w, limits, v) && !(j in v.jobs && v.jobs[j].status.Running?))
                <==> !Stranded(w, limits, j))
  {
    hide Reachable, Follows, Listable, Rescued, ActiveOn, Claimable;
    if Stranded(w, limits, j) {
      forall v | Follows(w, limits, v)
        ensures j in v.jobs && v.jobs[j].status.Running?
      {
        StrandedForever(w, limits, j, v);
      }
    } else if w.jobs[j].lease.Some? {
      LeasedEnds(w, limits, j);
    } else if ActiveOn(w.attempts, FullWork, j) != {} {
      var a :| a in ActiveOn(w.attempts, FullWork, j);
      ActiveCanClaim(w, limits, j, a);
      ClaimableEnds(w, limits, j, a);
    } else if Rescued(w, limits, j) {
      RescueEnds(w, limits, j);
    } else if Listable(w, limits, j, w.now) {
      OfferedEnds(w, limits, j);
    }
  }
}
