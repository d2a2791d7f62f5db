/**
 A concrete run: everything that happens to one Survey from its creation until its job waits in the
 queue.  Runs that exhibit a state are put together from it.
 */
module SurveyScenario {
  import opened Wrappers
  import opened SurveyModel
  import opened SurveyTransitions
  import opened SurveyInvariants
  import opened SurveyOps
  import opened SurveyPending
  import opened SurveyRuns

  /** The ids one Survey uses: its own, its Draft's, the Draft's compute attempt's and its job's. */
  datatype Plan = Plan(user: UserId, s: SurveyId, d: DraftId, a: AttemptId, j: JobId)

  const DAILY: int := 100

  /** The outline is generated by one attempt, which exits cleanly, and the Survey is started. */
  function QueueOps(p: Plan): seq<Op> {
    [CreateSurvey(p.s, p.d, p.user, p.s, 0, 0, None, DAILY), ReserveAttempt(DraftWork, p.d, p.a),
     ClaimExactDraft(p.d, p.a, 60), CompleteSurveyDraft(p.d, p.a, "outline"), RecordSucceeded(p.a, 1),
     StartSurvey(p.s, p.user, p.j, p.s, 0, false)]
  }

  function Spent(w: World, p: Plan): Usage {
    Get(w.usage, Key(p.user, 0), Usage(0, 0))
  }

  /** None of the ids is taken, the user's day has room, and no Draft waits, is computed or is reserved for. */
  ghost predicate Room(w: World, limits: Limits, p: Plan) {
    && Sound(w, limits) && limits.Valid() && DraftWork !in w.passes
    && p.s !in w.surveys && p.d !in w.drafts && p.a !in w.attempts && p.j !in w.jobs
    && RequestedSurveys(w.surveys, p.user, p.s) == {}
    && Spent(w, p).reserved + Spent(w, p).succeeded < DAILY
    && ActiveOfKind(w.attempts, DraftWork) == {} && NoneWaits(w)
  }

  predicate NoneWaits(w: World) {
    forall d :: d in w.drafts ==> !w.drafts[d].status.Queued?
  }

  function TheSurvey(w: World, p: Plan): Survey {
    Survey(p.user, p.s, 0, SurveyStatus.Drafting, 0, QuotaState.Reserved, None, false, w.hist.births)
  }

  function TheDraft(w: World, p: Plan): Draft {
    Draft(p.s, p.s, 0, None, None, None, DraftStatus.Queued, None, w.now)
  }

  function Outline(w: World, p: Plan): Draft {
    Draft(p.s, p.s, 0, Some(1), None, Some("outline"), DraftStatus.Ready, None, w.now)
  }

  function TheAttempt(w: World, p: Plan): Attempt {
    Attempt(DraftWork, p.s, p.d, 1, AttemptStatus.Reserved, false, None, 0, w.now, None, None)
  }

  function TheJob(w: World, p: Plan): Job {
    Job(p.s, p.d, p.s, 0, JobStatus.Queued, None, None, None, false, 0, None, w.now, None, None, 0, None, None)
  }

  /** The tables with the Survey's rows as given; `at` is None before the attempt exists. */
  function Tables(w: World, p: Plan, draft: Draft, at: Option<Attempt>): World {
    var key := Key(p.user, 0);
    w.(usage := w.usage[key := Usage(Spent(w, p).reserved + 1, Spent(w, p).succeeded)],
       surveys := w.surveys[p.s := TheSurvey(w, p)], drafts := w.drafts[p.d := draft],
       attempts := if at.Some? then w.attempts[p.a := at.value] else w.attempts,
       hist := w.hist.(births := w.hist.births + 1,
                       ceilings := w.hist.ceilings[key := Max(Get(w.hist.ceilings, key, 0), DAILY)]))
  }

  /** The tables with the job queued. */
  function InQueue(w: World, p: Plan): World {
    var v := Tables(w, p, Outline(w, p), Some(Exited(w, p)));
    v.(surveys := w.surveys[p.s := TheSurvey(w, p).(status := SurveyStatus.Queued)],
       jobOf := w.jobOf[p.s := p.j], jobs := w.jobs[p.j := TheJob(w, p)])
  }

  function Exited(w: World, p: Plan): Attempt {
    TheAttempt(w, p).(status := AttemptStatus.Succeeded, started := true, eventVersion := Some(1))
  }

  /** What the fresh ids mean: no row mentions them. */
  lemma Unmentioned(w: World, limits: Limits, p: Plan)
    requires Room(w, limits, p)
    ensures p.s !in w.jobOf && AttemptsOn(w.attempts, DraftWork, p.d) == {} && DraftsOf(w.drafts, p.s) == {}
  {
    hide Pending, QuotaExact, ChargedOnce, CancelsStick, Approved, Leased, Numbered, Budgeted, Capped, Checkpointed,
      Announced, Chain, OneActive;
    assert forall a :: a in w.attempts ==> Targets(w.jobs, w.drafts, w.attempts[a]);
  }

  lemma Creates(w: World, limits: Limits, p: Plan)
    requires Room(w, limits, p)
    ensures Create(w, p.s, p.d, p.user, p.s, 0, 0, None, DAILY) == Step(Tables(w, p, TheDraft(w, p), None), Done)
  {
    hide Inv, Pending;
  }

  lemma OnlyItem(w: World, limits: Limits, p: Plan, t: nat)
    requires NoneWaits(w)
    ensures Reservable(Tables(w, p, TheDraft(w, p), None), limits, DraftWork, t) ==> t == p.d
  {
    hide ActiveOn, StartedOn, ActiveOfUser;
  }

  lemma ItemReservable(w: World, limits: Limits, p: Plan)
    requires Room(w, limits, p)
    ensures var u := Tables(w, p, TheDraft(w, p), None);
            && Reservable(u, limits, DraftWork, p.d) && AttemptsOn(u.attempts, DraftWork, p.d) == {}
  {
    hide Inv, Pending, NoneWaits;
    Unmentioned(w, limits, p);
    var u := Tables(w, p, TheDraft(w, p), None);
    assert ActiveOn(u.attempts, DraftWork, p.d) == {} && StartedOn(u.attempts, DraftWork, p.d) == {};
    assert ActiveOfUser(u.surveys, u.attempts, DraftWork, p.user) == {};
  }

  lemma Reserves(w: World, limits: Limits, p: Plan)
    requires Room(w, limits, p)
    ensures Reserve(Tables(w, p, TheDraft(w, p), None), limits, DraftWork, p.d, p.a)
            == Step(Tables(w, p, TheDraft(w, p), Some(TheAttempt(w, p))), Done)
  {
    hide Inv, Pending, Reservable, ServedFirst, AttemptsOn, NoneWaits;
    ItemReservable(w, limits, p);
    var u := Tables(w, p, TheDraft(w, p), None);
    forall t
      ensures Reservable(u, limits, DraftWork, t) ==> t == p.d
    {
      OnlyItem(w, limits, p, t);
    }
    ReservableListed(u, limits, DraftWork, p.d);
  }

  lemma Claims(w: World, p: Plan)
    ensures ClaimDraft(Tables(w, p, TheDraft(w, p), Some(TheAttempt(w, p))), p.d, p.a, 60)
            == Step(Tables(w, p, TheDraft(w, p).(status := DraftStatus.Running, lease := Some(Lease(p.a, w.now + 60))),
                           Some(TheAttempt(w, p).(status := AttemptStatus.Running, started := true))), Done)
  {
    var u := Tables(w, p, TheDraft(w, p), Some(TheAttempt(w, p)));
    var draft := u.drafts[p.d].(status := DraftStatus.Running, lease := Some(Lease(p.a, w.now + 60)));
    var at := u.attempts[p.a].(status := AttemptStatus.Running, started := true);
    assert u.drafts[p.d := draft] == w.drafts[p.d := draft];
    assert u.attempts[p.a := at] == w.attempts[p.a := at];
  }

  lemma Completes(w: World, limits: Limits, p: Plan)
    requires Room(w, limits, p)
    ensures var running := TheAttempt(w, p).(status := AttemptStatus.Running, started := true);
            var held := TheDraft(w, p).(status := DraftStatus.Running, lease := Some(Lease(p.a, w.now + 60)));
            CompleteDraft(Tables(w, p, held, Some(running)), p.d, p.a, "outline")
            == Step(Tables(w, p, Outline(w, p), Some(running)), Done)
  {
    hide Inv, Pending;
    Unmentioned(w, limits, p);
    var running := TheAttempt(w, p).(status := AttemptStatus.Running, started := true);
    var held := TheDraft(w, p).(status := DraftStatus.Running, lease := Some(Lease(p.a, w.now + 60)));
    var u := Tables(w, p, held, Some(running));
    assert forall e :: e in w.drafts ==> w.drafts[e].survey != p.s by {
      assert forall e :: e in w.drafts && w.drafts[e].survey == p.s ==> e in DraftsOf(w.drafts, p.s);
    }
    assert forall e :: !IsReady(u.drafts, p.s, e);
    assert LatestRevision(u.drafts, p.s) == None;
    assert u.drafts[p.d := Outline(w, p)] == w.drafts[p.d := Outline(w, p)];
  }

  lemma Exits(w: World, p: Plan)
    ensures AttemptSucceeded(Tables(w, p, Outline(w, p),
                                    Some(TheAttempt(w, p).(status := AttemptStatus.Running, started := true))), p.a, 1)
            == Step(Tables(w, p, Outline(w, p), Some(Exited(w, p))), Done)
  {
    var running := TheAttempt(w, p).(status := AttemptStatus.Running, started := true);
    var u := Tables(w, p, Outline(w, p), Some(running));
    assert u.attempts[p.a := Exited(w, p)] == w.attempts[p.a := Exited(w, p)];
  }

  lemma Starts(w: World, limits: Limits, p: Plan)
    requires Room(w, limits, p)
    ensures Start(Tables(w, p, Outline(w, p), Some(Exited(w, p))), p.s, p.user, p.j, p.s, 0, false)
            == Step(InQueue(w, p), Done)
  {
    hide Inv, Pending;
    Unmentioned(w, limits, p);
    var u := Tables(w, p, Outline(w, p), Some(Exited(w, p)));
    assert forall e :: e in w.drafts ==> w.drafts[e].survey != p.s by {
      assert forall e :: e in w.drafts && w.drafts[e].survey == p.s ==> e in DraftsOf(w.drafts, p.s);
    }
    assert !HasActiveDraft(u.drafts, p.s);
    assert forall e :: IsReady(u.drafts, p.s, e) <==> e == p.d;
    assert IsLatest(u.drafts, p.s, p.d);
    assert u.surveys[p.s := TheSurvey(w, p).(status := SurveyStatus.Queued)]
           == w.surveys[p.s := TheSurvey(w, p).(status := SurveyStatus.Queued)];
  }

  lemma RunCons(w: World, limits: Limits, op: Op, rest: seq<Op>)
    ensures Run(w, limits, [op] + rest) == Run(Apply(w, limits, op).next, limits, rest)
  {
    hide Apply;
    assert ([op] + rest)[1..] == rest;
  }

  lemma RunSix(w: World, limits: Limits, a: Op, b: Op, c: Op, d: Op, e: Op, f: Op)
    ensures Run(w, limits, [a, b, c, d, e, f])
            == Run(Apply(Apply(Apply(w, limits, a).next, limits, b).next, limits, c).next, limits, [d, e, f])
  {
    hide Apply, Run;
    assert [a, b, c, d, e, f] == [a] + [b, c, d, e, f];
    RunCons(w, limits, a, [b, c, d, e, f]);
    assert [b, c, d, e, f] == [b] + [c, d, e, f];
    RunCons(Apply(w, limits, a).next, limits, b, [c, d, e, f]);
    assert [c, d, e, f] == [c] + [d, e, f];
    RunCons(Apply(Apply(w, limits, a).next, limits, b).next, limits, c, [d, e, f]);
  }

  lemma RunThree(w: World, limits: Limits, a: Op, b: Op, c: Op)
    ensures Run(w, limits, [a, b, c]) == Apply(Apply(Apply(w, limits, a).next, limits, b).next, limits, c).next
  {
    hide Apply;
    assert [a, b, c] == [a] + [b, c];
    RunCons(w, limits, a, [b, c]);
    assert [b, c] == [b] + [c];
    RunCons(Apply(w, limits, a).next, limits, b, [c]);
    assert [c][1..] == [];
  }

  /** What the six operations of a plan are. */
  lemma PlanApplies(u: World, limits: Limits, p: Plan)
    ensures Apply(u, limits, QueueOps(p)[0]) == Create(u, p.s, p.d, p.user, p.s, 0, 0, None, DAILY)
    ensures Apply(u, limits, QueueOps(p)[1]) == Reserve(u, limits, DraftWork, p.d, p.a)
    ensures Apply(u, limits, QueueOps(p)[2]) == ClaimDraft(u, p.d, p.a, 60)
    ensures Apply(u, limits, QueueOps(p)[3]) == CompleteDraft(u, p.d, p.a, "outline")
    ensures Apply(u, limits, QueueOps(p)[4]) == AttemptSucceeded(u, p.a, 1)
    ensures Apply(u, limits, QueueOps(p)[5]) == Start(u, p.s, p.user, p.j, p.s, 0, false)
  {
    hide Create, Reserve, ClaimDraft, CompleteDraft, AttemptSucceeded, Start;
  }

  /** With room for it, the plan brings its job into the queue. */
  lemma Queues(w: World, limits: Limits, p: Plan)
    requires Room(w, limits, p)
    ensures Run(w, limits, QueueOps(p)) == InQueue(w, p)
  {
    hide Room, Create, Reserve, ClaimDraft, CompleteDraft, AttemptSucceeded, Start, Run, Apply, InQueue, Tables,
      TheDraft, TheAttempt, Outline, Exited;
    var ops := QueueOps(p);
    Creates(w, limits, p);
    Reserves(w, limits, p);
    Claims(w, p);
    Completes(w, limits, p);
    Exits(w, p);
    Starts(w, limits, p);
    RunSix(w, limits, ops[0], ops[1], ops[2], ops[3], ops[4], ops[5]);
    forall u {
      PlanApplies(u, limits, p);
    }
    var held := TheDraft(w, p).(status := DraftStatus.Running, lease := Some(Lease(p.a, w.now + 60)));
    var running := TheAttempt(w, p).(status := AttemptStatus.Running, started := true);
    RunThree(Tables(w, p, held, Some(running)), limits, ops[3], ops[4], ops[5]);
  }

  lemma StillFree(w: World, p: Plan, q: Plan)
    requires p.s != q.s && p.d != q.d && p.a != q.a && p.j != q.j
    requires q.s !in w.surveys && q.d !in w.drafts && q.a !in w.attempts && q.j !in w.jobs
    requires RequestedSurveys(w.surveys, q.user, q.s) == {} && ActiveOfKind(w.attempts, DraftWork) == {}
    requires NoneWaits(w)
    ensures var v := InQueue(w, p);
            && v.passes == w.passes && NoneWaits(v)
            && q.s !in v.surveys && q.d !in v.drafts && q.a !in v.attempts && q.j !in v.jobs
            && RequestedSurveys(v.surveys, q.user, q.s) == {} && ActiveOfKind(v.attempts, DraftWork) == {}
            && Spent(v, q).reserved <= Spent(w, q).reserved + 1 && Spent(v, q).succeeded == Spent(w, q).succeeded
  {
    assert forall t :: t in InQueue(w, p).surveys && t != p.s ==> t in w.surveys;
    assert forall t :: t in InQueue(w, p).attempts && t != p.a ==> t in w.attempts;
  }

  /** A queued job leaves room for the next plan with other ids. */
  lemma RoomLeft(w: World, limits: Limits, p: Plan, q: Plan)
    requires Room(w, limits, p) && Room(w, limits, q) && Spent(w, q).reserved + Spent(w, q).succeeded + 1 < DAILY
    requires p.s != q.s && p.d != q.d && p.a != q.a && p.j != q.j
    ensures Room(InQueue(w, p), limits, q)
  {
    hide Inv, Pending, Run, InQueue, RequestedSurveys, ActiveOfKind, Spent, NoneWaits;
    Queues(w, limits, p);
    RunKeeps(w, limits, QueueOps(p));
    StillFree(w, p, q);
  }
}
