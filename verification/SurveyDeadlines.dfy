/**
 Two runs from empty tables in which a dropped job's deadline passes: one strands it, and in the other a
 reserving transaction that had listed it before still brings it to a charged end.
 */
module SurveyDeadlines {
  import opened Wrappers
  import opened SurveyModel
  import opened SurveyTransitions
  import opened SurveyOps
  import opened SurveyRuns
  import opened SurveyStranded
  import opened SurveyScenario
  import P = SurveyPositions

  /** Three jobs wait, and an attempt is reserved for the first of them. */
  const RESERVED_OPS: seq<Op> := P.THREE_OPS + [ReserveAttempt(FullWork, 1, 4)]

  const STRAND_OPS: seq<Op> := [ClaimExactJob(1, 4, 60, 100), RecordStopped(4, 1, true), PassTime(100)]

  function OneDropped(): World {
    P.FirstAs(P.Waits(1, 1, 0).(status := SurveyStatus.Running), P.Held(P.Queued(1)).(lease := None),
              P.Under(AttemptStatus.Retryable, true, Some(1)), Usage(2, 0))
  }

  lemma DropFirst()
    ensures AttemptStopped(P.OneRunning(), 4, 1, true) == Step(OneDropped(), Done)
  {
    hide P.ThreeQueued;
    P.ThreeTables();
    var w := P.ThreeQueued();
    assert P.OneRunning().jobs[1 := OneDropped().jobs[1]] == w.jobs[1 := OneDropped().jobs[1]];
    assert P.OneRunning().attempts[4 := OneDropped().attempts[4]] == w.attempts[4 := OneDropped().attempts[4]];
  }

  lemma DroppedRow()
    ensures var w := OneDropped();
            && w.now == 0 && w.line == multiset{} && w.passes == map[]
            && w.jobs == map[1 := P.Held(P.Queued(1)).(lease := None), 2 := P.Queued(2), 3 := P.Queued(3)]
            && w.jobOf == map[1 := 1, 2 := 2, 3 := 3]
            && w.surveys == map[1 := P.Waits(1, 1, 0).(status := SurveyStatus.Running), 2 := P.Waits(1, 2, 1),
                                3 := P.Waits(2, 3, 2)]
            && Key(1, 0) in w.usage && w.usage[Key(1, 0)] == Usage(2, 0)
            && w.attempts == map[1 := P.Outlined(1), 2 := P.Outlined(2), 3 := P.Outlined(3),
                                 4 := P.Under(AttemptStatus.Retryable, true, Some(1))]
  {
    hide P.ThreeQueued;
    P.ThreeTables();
  }

  lemma DroppedAttempts(k: JobId, user: UserId)
    ensures var w := OneDropped();
            && ActiveOfKind(w.attempts, FullWork) == {} && ActiveOn(w.attempts, FullWork, k) == {}
            && AttemptsOn(w.attempts, FullWork, k) == (if k == 1 then {4} else {})
            && StartedOn(w.attempts, FullWork, k) == (if k == 1 then {4} else {})
            && ActiveOfUser(w.surveys, w.attempts, FullWork, user) == {}
  {
    hide OneDropped;
    DroppedRow();
  }

  lemma DroppedStrands(limits: Limits)
    ensures Stranded(Tick(OneDropped(), 100).next, limits, 1)
  {
    hide OneDropped, ActiveOn, StartedOn;
    DroppedRow();
    DroppedAttempts(1, 1);
  }

  lemma StrandApplies(w: World, limits: Limits)
    ensures Apply(w, limits, STRAND_OPS[0]) == ClaimJob(w, 1, 4, 60, 100)
    ensures Apply(w, limits, STRAND_OPS[1]) == AttemptStopped(w, 4, 1, true)
    ensures Apply(w, limits, STRAND_OPS[2]) == Tick(w, 100)
  {
    hide ClaimJob, AttemptStopped;
  }

  /**
   From empty tables: the attempt that runs a job is stopped, retryably, and nobody reserves the job
   again before its deadline.  It is then stranded, and by StrandedForever stays so.
   */
  lemma StrandingRun(limits: Limits)
    requires limits.Valid()
    ensures Stranded(Run(EMPTY, limits, RESERVED_OPS + STRAND_OPS), limits, 1)
  {
    hide Run, Apply, P.ThreeQueued, P.OneReserved, P.OneRunning, OneDropped, ClaimJob, AttemptStopped, Tick, Stranded;
    P.FailFirst(limits);
    RunAppend(EMPTY, limits, RESERVED_OPS, STRAND_OPS);
    RunThree(P.OneReserved(), limits, STRAND_OPS[0], STRAND_OPS[1], STRAND_OPS[2]);
    StrandApplies(P.OneReserved(), limits);
    StrandApplies(P.OneRunning(), limits);
    StrandApplies(OneDropped(), limits);
    P.ClaimFirst();
    DropFirst();
    DroppedStrands(limits);
  }

  // ---------- the same, with a reserving transaction under way ----------

  /** A reserving transaction begins and lists the dropped job, and then the deadline passes. */
  const LATE_OPS: seq<Op> := [ClaimExactJob(1, 4, 60, 100), RecordStopped(4, 1, true), BeginPass(FullWork),
                              FetchWork(FullWork, 0, [1, 3, 2]), PassTime(100)]

  /** It reserves the job, which is claimed and settled as a success. */
  const RESCUE_OPS: seq<Op> := [TryCandidate(FullWork, 5), ClaimExactJob(1, 5, 60, 100),
                                SettleExecution(1, 5, Outcome.Succeeded, None, true)]

  /** The list: the dropped job, the other user's job, and the user's second job. */
  const LISTED := [Candidate(1, 0, 1, 1, 1, false), Candidate(3, 2, 3, 2, 0, false), Candidate(2, 1, 2, 1, 0, false)]

  function LinedUp(): World {
    OneDropped().(line := multiset{Ticket(FullWork, 0)})
  }

  function OnList(): World {
    OneDropped().(passes := map[FullWork := LISTED])
  }

  function TooLate(): World {
    OnList().(now := 100)
  }

  lemma DroppedOpen(limits: Limits, k: JobId)
    requires limits.Valid() && limits.maxCompute >= 2
    ensures var w := LinedUp();
            && (Listed(w, FullWork, k) <==> k == 1 || k == 2 || k == 3)
            && (Listed(w, FullWork, k) ==>
                  && Reservable(w, limits, FullWork, k)
                  && RowOf(w, FullWork, k) == (if k == 1 then P.HEAD else if k == 2 then P.MINE else P.OTHER)
                  && CandidateOf(w, FullWork, k) == LISTED[if k == 1 then 0 else if k == 2 then 2 else 1])
  {
    hide OneDropped, ActiveOfKind, ActiveOn, AttemptsOn, StartedOn, ActiveOfUser;
    DroppedRow();
    DroppedAttempts(k, 1);
    DroppedAttempts(k, 2);
  }

  lemma FetchDropped(limits: Limits)
    requires limits.Valid() && limits.maxCompute >= 2
    ensures JoinLine(OneDropped(), FullWork).next == LinedUp()
    ensures Fetch(LinedUp(), limits, FullWork, 0, [1, 3, 2]) == Step(OnList(), Done)
  {
    hide OneDropped, ActiveOfKind, WorkList, Listed, Reservable, RowOf, CandidateOf;
    DroppedRow();
    DroppedAttempts(1, 1);
    var u := LinedUp();
    assert u.(now := 0) == u;
    forall k {
      DroppedOpen(limits, k);
    }
    P.ThreeInOrder(u, limits);
    assert CandidatesOf(u, FullWork, [1, 3, 2]) == LISTED;
    assert u.line - multiset{Ticket(FullWork, 0)} == multiset{};
    assert map[][FullWork := LISTED] == map[FullWork := LISTED];
  }

  lemma RescueApplies(w: World, limits: Limits)
    ensures Apply(w, limits, LATE_OPS[2]) == JoinLine(w, FullWork)
    ensures Apply(w, limits, LATE_OPS[3]) == Fetch(w, limits, FullWork, 0, [1, 3, 2])
    ensures Apply(w, limits, RESCUE_OPS[0]) == TryNext(w, limits, FullWork, 5)
    ensures Apply(w, limits, RESCUE_OPS[1]) == ClaimJob(w, 1, 5, 60, 100)
    ensures Apply(w, limits, RESCUE_OPS[2]) == Settle(w, 1, 5, Outcome.Succeeded, None, true)
  {
    hide JoinLine, Fetch, TryNext, ClaimJob, Settle;
  }

  lemma RunFive(w: World, limits: Limits, a: Op, b: Op, c: Op, d: Op, e: Op)
    ensures Run(w, limits, [a, b, c, d, e])
            == Apply(Apply(Apply(Apply(Apply(w, limits, a).next, limits, b).next, limits, c).next, limits, d).next,
                     limits, e).next
  {
    hide Apply, Run;
    assert [a, b, c, d, e] == [a] + [b, c, d, e];
    RunCons(w, limits, a, [b, c, d, e]);
    assert [b, c, d, e] == [b] + [c, d, e];
    RunCons(Apply(w, limits, a).next, limits, b, [c, d, e]);
    RunThree(Apply(Apply(w, limits, a).next, limits, b).next, limits, c, d, e);
  }

  lemma LateRun(limits: Limits)
    requires limits.Valid() && limits.maxCompute >= 2
    ensures Run(EMPTY, limits, RESERVED_OPS + LATE_OPS) == TooLate()
  {
    hide Run, Apply, P.ThreeQueued, P.OneReserved, P.OneRunning, OneDropped, LinedUp, OnList, ClaimJob, AttemptStopped,
      JoinLine, Fetch;
    P.FailFirst(limits);
    RunAppend(EMPTY, limits, RESERVED_OPS, LATE_OPS);
    RunFive(P.OneReserved(), limits, LATE_OPS[0], LATE_OPS[1], LATE_OPS[2], LATE_OPS[3], LATE_OPS[4]);
    StrandApplies(P.OneReserved(), limits);
    StrandApplies(P.OneRunning(), limits);
    RescueApplies(OneDropped(), limits);
    RescueApplies(LinedUp(), limits);
    StrandApplies(OnList(), limits);
    P.ClaimFirst();
    DropFirst();
    FetchDropped(limits);
    TimeIsUp();
  }

  lemma TimeIsUp()
    ensures Tick(OnList(), 100).next == TooLate()
  {
    hide OneDropped;
    DroppedRow();
  }

  function Taken(): World {
    OneDropped().(now := 100, attempts := OneDropped().attempts[
      5 := Attempt(FullWork, 1, 1, 2, AttemptStatus.Reserved, false, None, 0, 100, None, None)])
  }

  lemma TakeLate(limits: Limits)
    requires limits.Valid()
    ensures TryNext(TooLate(), limits, FullWork, 5) == Step(Taken(), Done)
    ensures !Reservable(TooLate(), limits, FullWork, 1)
  {
    hide OneDropped, ActiveOfKind, ActiveOn, AttemptsOn, StartedOn, ActiveOfUser;
    DroppedRow();
    DroppedAttempts(1, 1);
    var w := TooLate();
    assert w.passes - {FullWork} == map[];
    assert w.passes[FullWork][0] == LISTED[0];
    assert Current(w, FullWork, LISTED[0]);
    forall b | b in AttemptsOn(w.attempts, FullWork, 1)
      ensures w.attempts[b].number != 2
    {
      assert b == 4;
    }
  }

  lemma ClaimLate()
    ensures var step := ClaimJob(Taken(), 1, 5, 60, 100);
            && step.next.jobs.Keys == Taken().jobs.Keys && 1 in step.next.jobs
            && step.next.jobs[1] == OneDropped().jobs[1].(lease := Some(Lease(5, 160)))
            && step.next.jobOf == OneDropped().jobOf
            && step.next.surveys == OneDropped().surveys && step.next.usage == OneDropped().usage
            && step.next.now == 100
  {
    hide OneDropped;
    DroppedRow();
  }

  lemma SettleLate(w: World)
    requires 1 in w.jobs && w.jobs[1] == OneDropped().jobs[1].(lease := Some(Lease(5, 160)))
    requires w.surveys == OneDropped().surveys && w.jobOf == OneDropped().jobOf && w.usage == OneDropped().usage
    requires w.now == 100
    ensures var v := Settle(w, 1, 5, Outcome.Succeeded, None, true).next;
            && 1 in v.jobs && v.jobs[1].status.Archiving? && v.jobs[1].outcome == Some(Outcome.Succeeded)
            && Key(1, 0) in v.usage && v.usage[Key(1, 0)] == Usage(1, 1) && Charged(v.hist.charges, 0)
  {
    hide OneDropped;
    DroppedRow();
    var v := Settle(w, 1, 5, Outcome.Succeeded, None, true).next;
    assert v.hist.charges == w.hist.charges + [Charge(0, Key(1, 0))];
    assert v.hist.charges[|w.hist.charges|].birth == 0;
  }

  /**
   From empty tables, with more than one compute start allowed: no work list offers the dropped job any more,
   but a transaction that had listed it reserves it, and the job ends as a success that is charged.
   */
  lemma RescuingRun(limits: Limits)
    requires limits.Valid() && limits.maxCompute >= 2
    ensures var w := Run(EMPTY, limits, RESERVED_OPS + LATE_OPS);
            && Waiting(w, 1) && !Offered(w, limits, 1) && Rescued(w, limits, 1)
            && !Reservable(w, limits, FullWork, 1) && TryNext(w, limits, FullWork, 5).reply.Done?
    ensures var v := Run(EMPTY, limits, RESERVED_OPS + LATE_OPS + RESCUE_OPS);
            && 1 in v.jobs && v.jobs[1].status.Archiving? && v.jobs[1].outcome == Some(Outcome.Succeeded)
            && Key(1, 0) in v.usage && v.usage[Key(1, 0)] == Usage(1, 1) && Charged(v.hist.charges, 0)
  {
    hide Run, Apply, TooLate, Taken, OneDropped, TryNext, ClaimJob, Settle, Waiting, Offered, Rescued, Reservable;
    LateRun(limits);
    TakeLate(limits);
    OnlyRescued(limits);
    RunAppend(EMPTY, limits, RESERVED_OPS + LATE_OPS, RESCUE_OPS);
    RunThree(TooLate(), limits, RESCUE_OPS[0], RESCUE_OPS[1], RESCUE_OPS[2]);
    RescueApplies(TooLate(), limits);
    RescueApplies(Taken(), limits);
    var u := ClaimJob(Taken(), 1, 5, 60, 100).next;
    RescueApplies(u, limits);
    ClaimLate();
    SettleLate(u);
  }

  lemma OnlyRescued(limits: Limits)
    ensures var w := TooLate(); Waiting(w, 1) && !Offered(w, limits, 1) && Rescued(w, limits, 1)
  {
    hide OneDropped, ActiveOn, StartedOn;
    DroppedRow();
    DroppedAttempts(1, 1);
    assert Current(TooLate(), FullWork, LISTED[0]);
  }
}
