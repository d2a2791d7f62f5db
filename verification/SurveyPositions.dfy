/** Two runs from empty tables after which the published place of a queued job is off, one in either direction. */
module SurveyPositions {
  import opened Wrappers
  import opened SurveyModel
  import opened SurveyTransitions
  import opened SurveyInvariants
  import opened SurveyOps
  import opened SurveyPending
  import opened SurveyRuns
  import opened SurveyScenario
  import opened SurveyFairness
  import opened FairQueue

  /** Two Surveys of one user, then one of another. */
  const FIRST := Plan(1, 1, 1, 1, 1)
  const SECOND := Plan(1, 2, 2, 2, 2)
  const OTHERS := Plan(2, 3, 3, 3, 3)

  const THREE_OPS: seq<Op> := QueueOps(FIRST) + QueueOps(SECOND) + QueueOps(OTHERS)

  function ThreeQueued(): World {
    InQueue(InQueue(InQueue(EMPTY, FIRST), SECOND), OTHERS)
  }

  lemma ThreeQueue(limits: Limits)
    requires limits.Valid()
    ensures Run(EMPTY, limits, THREE_OPS) == ThreeQueued()
  {
    hide Run, Inv, Pending, InQueue, QueueOps;
    EmptySound(limits);
    RoomLeft(EMPTY, limits, FIRST, SECOND);
    RoomLeft(EMPTY, limits, FIRST, OTHERS);
    var u := InQueue(EMPTY, FIRST);
    assert Spent(u, SECOND).reserved <= 1 && Spent(u, SECOND).succeeded == 0 && Spent(u, OTHERS) == Usage(0, 0) by {
      SpentOnce();
    }
    RoomLeft(u, limits, SECOND, OTHERS);
    Queues(EMPTY, limits, FIRST);
    Queues(u, limits, SECOND);
    Queues(InQueue(u, SECOND), limits, OTHERS);
    RunAppend(EMPTY, limits, QueueOps(FIRST), QueueOps(SECOND));
    RunAppend(EMPTY, limits, QueueOps(FIRST) + QueueOps(SECOND), QueueOps(OTHERS));
  }

  lemma SpentOnce()
    ensures Spent(InQueue(EMPTY, FIRST), SECOND) == Usage(1, 0)
    ensures Spent(InQueue(EMPTY, FIRST), OTHERS) == Usage(0, 0)
  {
  }

  function Waits(user: UserId, s: SurveyId, birth: nat): Survey {
    Survey(user, s, 0, SurveyStatus.Queued, 0, QuotaState.Reserved, None, false, birth)
  }

  function Queued(s: SurveyId): Job {
    Job(s, s, s, 0, JobStatus.Queued, None, None, None, false, 0, None, 0, None, None, 0, None, None)
  }

  function Outlined(s: SurveyId): Attempt {
    Attempt(DraftWork, s, s, 1, AttemptStatus.Succeeded, true, None, 0, 0, Some(1), None)
  }

  lemma TwoTables()
    ensures var w := InQueue(InQueue(EMPTY, FIRST), SECOND);
            && w.now == 0 && w.line == multiset{} && w.passes == map[] && w.hist.births == 2
            && w.usage == map[Key(1, 0) := Usage(2, 0)]
            && w.surveys == map[1 := Waits(1, 1, 0), 2 := Waits(1, 2, 1)]
            && w.jobOf == map[1 := 1, 2 := 2] && w.jobs == map[1 := Queued(1), 2 := Queued(2)]
            && w.attempts == map[1 := Outlined(1), 2 := Outlined(2)]
  {
  }

  lemma ThreeTables()
    ensures var w := ThreeQueued();
            && w.now == 0 && w.line == multiset{} && w.passes == map[]
            && w.usage == map[Key(1, 0) := Usage(2, 0), Key(2, 0) := Usage(1, 0)]
            && w.surveys == map[1 := Waits(1, 1, 0), 2 := Waits(1, 2, 1), 3 := Waits(2, 3, 2)]
            && w.jobOf == map[1 := 1, 2 := 2, 3 := 3]
            && w.jobs == map[1 := Queued(1), 2 := Queued(2), 3 := Queued(3)]
            && w.attempts == map[1 := Outlined(1), 2 := Outlined(2), 3 := Outlined(3)]
  {
    TwoTables();
  }

  /** Jobs 2 and 3 are queued and open for a claim. */
  predicate BothWait(w: World) {
    && 2 in w.jobs && w.jobs[2].status.Queued? && w.jobs[2].survey in w.surveys && Listed(w, FullWork, 2)
    && 3 in w.jobs && w.jobs[3].status.Queued? && w.jobs[3].survey in w.surveys && Listed(w, FullWork, 3)
  }

  /** The rows of the three jobs, all queued at once: ids decide. */
  const HEAD := Row(1, 1, 0, 1)
  const MINE := Row(1, 1, 0, 2)
  const OTHER := Row(2, 1, 0, 3)

  /** An attempt was reserved for the user's older job: it counts in the published turn only. */
  lemma ShownTooLate()
    ensures PublishedPlace({HEAD, MINE, OTHER}, MINE) == 3 && Place({MINE, OTHER}, MINE) == 1
    ensures PublishedSooner({HEAD, MINE, OTHER}, OTHER, MINE) && Sooner({MINE, OTHER}, MINE, OTHER)
  {
    var queued, open := {HEAD, MINE, OTHER}, {MINE, OTHER};
    assert OlderOf(queued, HEAD) == {} && OlderOf(queued, MINE) == {HEAD} && OlderOf(queued, OTHER) == {};
    assert PublishedBefore(queued, MINE) == {HEAD, OTHER};
    assert Ahead(open, MINE) == {} && Ahead(open, OTHER) == {};
    assert ServedBefore(open, MINE) == {};
  }

  const ARCHIVED := Row(1, 0, 0, 1)

  /** The user's older job is being archived: it counts in the claim's numbering only. */
  lemma ShownTooEarly()
    ensures PublishedPlace({MINE, OTHER}, MINE) == 1 && Place({ARCHIVED, MINE, OTHER}, MINE) == 3
    ensures PublishedSooner({MINE, OTHER}, MINE, OTHER) && Sooner({ARCHIVED, MINE, OTHER}, OTHER, MINE)
  {
    var queued, open := {MINE, OTHER}, {ARCHIVED, MINE, OTHER};
    assert OlderOf(queued, MINE) == {} && OlderOf(queued, OTHER) == {};
    assert PublishedBefore(queued, MINE) == {};
    assert Ahead(open, ARCHIVED) == {} && Ahead(open, MINE) == {ARCHIVED} && Ahead(open, OTHER) == {};
    assert ServedBefore(open, MINE) == {ARCHIVED, OTHER};
  }

  function Under(status: AttemptStatus, started: bool, version: Option<int>): Attempt {
    Attempt(FullWork, 1, 1, 1, status, started, None, 0, 0, version, None)
  }

  /** The three jobs, with the first one's Survey, job, attempt 4 and usage row as given. */
  function FirstAs(survey: Survey, job: Job, at: Attempt, usage: Usage): World {
    var w := ThreeQueued();
    w.(usage := w.usage[Key(1, 0) := usage], surveys := w.surveys[1 := survey], jobs := w.jobs[1 := job],
       attempts := w.attempts[4 := at])
  }

  /** The three jobs queued, the first of them with attempt 4 reserved for it. */
  function OneReserved(): World {
    FirstAs(Waits(1, 1, 0), Queued(1), Under(AttemptStatus.Reserved, false, None), Usage(2, 0))
  }

  lemma NobodyComputes(k: JobId, user: UserId)
    ensures var w := ThreeQueued();
            && FullWork !in w.passes && ActiveOfKind(w.attempts, FullWork) == {}
            && AttemptsOn(w.attempts, FullWork, k) == {}
            && ActiveOn(w.attempts, FullWork, k) == {} && StartedOn(w.attempts, FullWork, k) == {}
            && ActiveOfUser(w.surveys, w.attempts, FullWork, user) == {}
  {
    hide ThreeQueued;
    ThreeTables();
  }

  /** The three jobs are open and reservable, and nothing else is. */
  ghost predicate ThreeOpen(w: World, limits: Limits) {
    forall k ::
      && (Listed(w, FullWork, k) <==> k == 1 || k == 2 || k == 3)
      && (Listed(w, FullWork, k) ==>
            && Reservable(w, limits, FullWork, k)
            && RowOf(w, FullWork, k) == (if k == 1 then HEAD else if k == 2 then MINE else OTHER))
  }

  lemma ThreeTurns()
    ensures var open := {HEAD, MINE, OTHER};
            Sooner(open, HEAD, OTHER) && Sooner(open, OTHER, MINE) && Sooner(open, HEAD, MINE)
  {
    var open := {HEAD, MINE, OTHER};
    assert Ahead(open, HEAD) == {} && Ahead(open, MINE) == {HEAD} && Ahead(open, OTHER) == {};
  }

  lemma ThreeRows(w: World, limits: Limits)
    requires ThreeOpen(w, limits)
    ensures OpenRows(w, FullWork) == {HEAD, MINE, OTHER}
  {
    hide Listed, Reservable;
    assert Listed(w, FullWork, 1) && Listed(w, FullWork, 2) && Listed(w, FullWork, 3);
    assert {1, 2, 3} <= Items(w, FullWork) by {
      ListedItems(w, 1);
      ListedItems(w, 2);
      ListedItems(w, 3);
    }
  }

  lemma ListedItems(w: World, k: JobId)
    requires Listed(w, FullWork, k)
    ensures k in Items(w, FullWork)
  {
    hide ActiveOn;
  }

  /** Job 1 is served first, the other user's job 3 next, and job 2 last. */
  lemma ThreeInOrder(w: World, limits: Limits)
    requires ThreeOpen(w, limits)
    ensures Leads(w, limits, FullWork, 1) && WorkList(w, limits, FullWork, [1, 3, 2])
  {
    hide Listed, Reservable, OpenRows, Sooner;
    ThreeRows(w, limits);
    ThreeTurns();
    assert Listed(w, FullWork, 1) && Listed(w, FullWork, 2) && Listed(w, FullWork, 3);
    forall k | Reservable(w, limits, FullWork, k)
      ensures k == 1 || k == 2 || k == 3
    {
      ReservableListed(w, limits, FullWork, k);
    }
    assert forall k :: k in [1, 3, 2] <==> k == 1 || k == 2 || k == 3;
  }

  lemma ThreeJob(limits: Limits, k: JobId)
    requires limits.Valid()
    ensures var w := ThreeQueued();
            && (Listed(w, FullWork, k) <==> k == 1 || k == 2 || k == 3)
            && (Listed(w, FullWork, k) ==>
                  && Reservable(w, limits, FullWork, k)
                  && RowOf(w, FullWork, k) == (if k == 1 then HEAD else if k == 2 then MINE else OTHER))
  {
    hide ThreeQueued, ActiveOfKind, AttemptsOn, ActiveOn, StartedOn, ActiveOfUser;
    ThreeTables();
    NobodyComputes(k, 1);
    NobodyComputes(k, 2);
  }

  lemma ReserveFirst(limits: Limits)
    requires limits.Valid()
    ensures Reserve(ThreeQueued(), limits, FullWork, 1, 4) == Step(OneReserved(), Done)
  {
    hide ThreeQueued, ActiveOfKind, AttemptsOn, Leads, Listed, Reservable, RowOf;
    ThreeTables();
    NobodyComputes(1, 1);
    var w := ThreeQueued();
    forall k {
      ThreeJob(limits, k);
    }
    ThreeInOrder(w, limits);
    assert w.usage[Key(1, 0) := Usage(2, 0)] == w.usage;
    assert w.surveys[1 := Waits(1, 1, 0)] == w.surveys && w.jobs[1 := Queued(1)] == w.jobs;
  }

  lemma ReservedListed(k: JobId)
    ensures Listed(OneReserved(), FullWork, k) <==> k == 2 || k == 3
  {
    hide ThreeQueued;
    ThreeTables();
    var w := OneReserved();
    assert w.attempts == map[1 := Outlined(1), 2 := Outlined(2), 3 := Outlined(3),
                             4 := Under(AttemptStatus.Reserved, false, None)];
    assert AttemptsOn(w.attempts, FullWork, k) == if k == 1 then {4} else {};
    assert 4 in ActiveOn(w.attempts, FullWork, 1);
    assert k != 1 ==> ActiveOn(w.attempts, FullWork, k) == {};
  }

  lemma ReservedRow(k: JobId)
    ensures k in OneReserved().jobs <==> k == 1 || k == 2 || k == 3
    ensures k in OneReserved().jobs ==>
              && OneReserved().jobs[k].status.Queued? && OneReserved().jobs[k].survey in OneReserved().surveys
              && JobRowOf(OneReserved(), k) == Row(if k == 3 then 2 else 1, 1, 0, k)
  {
    hide ThreeQueued;
    ThreeTables();
  }

  lemma ReservedRows()
    ensures OpenRows(OneReserved(), FullWork) == {MINE, OTHER} && QueuedJobRows(OneReserved()) == {HEAD, MINE, OTHER}
  {
    hide OneReserved, Listed, OpenRows, QueuedJobRows;
    forall row
      ensures row in OpenRows(OneReserved(), FullWork) <==> row in {MINE, OTHER}
      ensures row in QueuedJobRows(OneReserved()) <==> row in {HEAD, MINE, OTHER}
    {
      OpenJobRow(OneReserved(), row);
      QueuedJobRow(OneReserved(), row);
      ReservedListed(row.id);
      ReservedRow(row.id);
    }
  }

  /**
   Position 3 is shown for a job that is offered before the one shown at position 2: the user's older
   job has an attempt reserved for it, so only the published turn still counts it.
   */
  lemma ReservedJobMisleads(limits: Limits)
    requires limits.Valid()
    ensures var w := Run(EMPTY, limits, THREE_OPS + [ReserveAttempt(FullWork, 1, 4)]);
            && BothWait(w)
            && PublishedPlace(QueuedJobRows(w), JobRowOf(w, 2)) == 3
            && Place(OpenRows(w, FullWork), JobRowOf(w, 2)) == 1
            && PublishedSooner(QueuedJobRows(w), JobRowOf(w, 3), JobRowOf(w, 2))
            && Sooner(OpenRows(w, FullWork), JobRowOf(w, 2), JobRowOf(w, 3))
  {
    hide Run, OneReserved, OpenRows, QueuedJobRows, Sooner, PublishedSooner, Place, PublishedPlace, Listed;
    FailFirst(limits);
    ReservedRows();
    ShownTooLate();
    ReservedListed(2);
    ReservedListed(3);
    ReservedRow(2);
    ReservedRow(3);
  }

  lemma RunLast(w: World, limits: Limits, op: Op)
    ensures Run(w, limits, [op]) == Apply(w, limits, op).next
  {
    hide Apply;
    assert [op][1..] == [];
  }

  lemma ReserveApplies(w: World, limits: Limits, kind: WorkKind, target: nat, a: AttemptId)
    ensures Apply(w, limits, ReserveAttempt(kind, target, a)) == Reserve(w, limits, kind, target, a)
  {
    hide Reserve;
  }

  // ---------- the archiving case ----------

  function Held(job: Job): Job {
    job.(status := JobStatus.Running, lease := Some(Lease(4, 60)), deadline := Some(100))
  }

  function Failed(job: Job): Job {
    job.(status := JobStatus.Archiving, outcome := Some(Outcome.Failed), nextArchive := Some(0))
  }

  function OneRunning(): World {
    FirstAs(Waits(1, 1, 0).(status := SurveyStatus.Running), Held(Queued(1)), Under(AttemptStatus.Running, true, None),
            Usage(2, 0))
  }

  function OneSettled(): World {
    FirstAs(Waits(1, 1, 0).(status := SurveyStatus.Archiving, quota := QuotaState.Released), Failed(Held(Queued(1))),
            Under(AttemptStatus.Running, true, None), Usage(1, 0))
  }

  function OneArchiving(): World {
    FirstAs(Waits(1, 1, 0).(status := SurveyStatus.Archiving, quota := QuotaState.Released),
            Failed(Held(Queued(1))).(lease := None), Under(AttemptStatus.Retryable, true, Some(1)), Usage(1, 0))
  }

  lemma ClaimFirst()
    ensures ClaimJob(OneReserved(), 1, 4, 60, 100) == Step(OneRunning(), Done)
  {
    hide ThreeQueued;
    ThreeTables();
    var w := ThreeQueued();
    assert OneReserved().surveys[1 := OneRunning().surveys[1]] == w.surveys[1 := OneRunning().surveys[1]];
    assert OneReserved().jobs[1 := OneRunning().jobs[1]] == w.jobs[1 := OneRunning().jobs[1]];
    assert OneReserved().attempts[4 := OneRunning().attempts[4]] == w.attempts[4 := OneRunning().attempts[4]];
  }

  lemma SettleFirst()
    ensures Settle(OneRunning(), 1, 4, Outcome.Failed, None, false) == Step(OneSettled(), Done)
  {
    hide ThreeQueued;
    ThreeTables();
    var w := ThreeQueued();
    assert OneRunning().usage[Key(1, 0) := Usage(1, 0)] == w.usage[Key(1, 0) := Usage(1, 0)];
    assert OneRunning().surveys[1 := OneSettled().surveys[1]] == w.surveys[1 := OneSettled().surveys[1]];
    assert OneRunning().jobs[1 := OneSettled().jobs[1]] == w.jobs[1 := OneSettled().jobs[1]];
  }

  lemma StopFirst()
    ensures AttemptStopped(OneSettled(), 4, 1, true) == Step(OneArchiving(), Done)
  {
    hide ThreeQueued;
    ThreeTables();
    var w := ThreeQueued();
    assert OneSettled().jobs[1 := OneArchiving().jobs[1]] == w.jobs[1 := OneArchiving().jobs[1]];
    assert OneSettled().attempts[4 := OneArchiving().attempts[4]] == w.attempts[4 := OneArchiving().attempts[4]];
  }

  lemma ArchivingListed(k: JobId)
    ensures Listed(OneArchiving(), FullWork, k) <==> k == 1 || k == 2 || k == 3
  {
    hide ThreeQueued;
    ThreeTables();
    assert ActiveOn(OneArchiving().attempts, FullWork, k) == {};
  }

  lemma ArchivingRow(k: JobId)
    ensures k in OneArchiving().jobs <==> k == 1 || k == 2 || k == 3
    ensures k in OneArchiving().jobs ==>
              && (OneArchiving().jobs[k].status.Queued? <==> k != 1)
              && OneArchiving().jobs[k].survey in OneArchiving().surveys
              && JobRowOf(OneArchiving(), k) == if k == 1 then ARCHIVED else Row(if k == 3 then 2 else 1, 1, 0, k)
  {
    hide ThreeQueued;
    ThreeTables();
  }

  lemma ArchivingRows()
    ensures OpenRows(OneArchiving(), FullWork) == {ARCHIVED, MINE, OTHER}
    ensures QueuedJobRows(OneArchiving()) == {MINE, OTHER}
  {
    hide OneArchiving, Listed, OpenRows, QueuedJobRows;
    forall row
      ensures row in OpenRows(OneArchiving(), FullWork) <==> row in {ARCHIVED, MINE, OTHER}
      ensures row in QueuedJobRows(OneArchiving()) <==> row in {MINE, OTHER}
    {
      OpenJobRow(OneArchiving(), row);
      QueuedJobRow(OneArchiving(), row);
      ArchivingListed(row.id);
      ArchivingRow(row.id);
    }
  }

  lemma ArchivingApplies(w: World, limits: Limits)
    ensures Apply(w, limits, ClaimExactJob(1, 4, 60, 100)) == ClaimJob(w, 1, 4, 60, 100)
    ensures Apply(w, limits, SettleExecution(1, 4, Outcome.Failed, None, false))
            == Settle(w, 1, 4, Outcome.Failed, None, false)
    ensures Apply(w, limits, RecordStopped(4, 1, true)) == AttemptStopped(w, 4, 1, true)
  {
    hide ClaimJob, Settle, AttemptStopped;
  }

  const FAIL_OPS: seq<Op> := [ClaimExactJob(1, 4, 60, 100), SettleExecution(1, 4, Outcome.Failed, None, false),
                              RecordStopped(4, 1, true)]

  lemma FailFirst(limits: Limits)
    requires limits.Valid()
    ensures Run(EMPTY, limits, THREE_OPS + [ReserveAttempt(FullWork, 1, 4)]) == OneReserved()
    ensures Run(EMPTY, limits, THREE_OPS + [ReserveAttempt(FullWork, 1, 4)] + FAIL_OPS) == OneArchiving()
  {
    hide Run, Apply, Reserve, ThreeQueued, OneReserved, OneRunning, OneSettled, OneArchiving, ClaimJob, Settle,
      AttemptStopped;
    ThreeQueue(limits);
    ReserveFirst(limits);
    RunAppend(EMPTY, limits, THREE_OPS, [ReserveAttempt(FullWork, 1, 4)]);
    RunLast(ThreeQueued(), limits, ReserveAttempt(FullWork, 1, 4));
    ReserveApplies(ThreeQueued(), limits, FullWork, 1, 4);
    RunAppend(EMPTY, limits, THREE_OPS + [ReserveAttempt(FullWork, 1, 4)], FAIL_OPS);
    RunThree(OneReserved(), limits, FAIL_OPS[0], FAIL_OPS[1], FAIL_OPS[2]);
    ArchivingApplies(OneReserved(), limits);
    ArchivingApplies(OneRunning(), limits);
    ArchivingApplies(OneSettled(), limits);
    ClaimFirst();
    SettleFirst();
    StopFirst();
  }

  /**
   Position 1 is shown for a job served third: the user's older job failed, is being archived and was
   dropped by its attempt, so only the claim's numbering still counts it.
   */
  lemma ArchivingJobMisleads(limits: Limits)
    requires limits.Valid()
    ensures var w := Run(EMPTY, limits, THREE_OPS + [ReserveAttempt(FullWork, 1, 4)] + FAIL_OPS);
            && BothWait(w)
            && PublishedPlace(QueuedJobRows(w), JobRowOf(w, 2)) == 1
            && Place(OpenRows(w, FullWork), JobRowOf(w, 2)) == 3
            && PublishedSooner(QueuedJobRows(w), JobRowOf(w, 2), JobRowOf(w, 3))
            && Sooner(OpenRows(w, FullWork), JobRowOf(w, 3), JobRowOf(w, 2))
  {
    hide Run, OneArchiving, OpenRows, QueuedJobRows, Sooner, PublishedSooner, Place, PublishedPlace, Listed;
    FailFirst(limits);
    ArchivingRows();
    ShownTooEarly();
    ArchivingListed(2);
    ArchivingListed(3);
    ArchivingRow(2);
    ArchivingRow(3);
  }
}
