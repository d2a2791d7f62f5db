/** What users' requests are answered and what they bring about, in every reachable state. */
module SurveyAdmission {
  import opened Wrappers
  import opened SurveyModel
  import opened SurveyTransitions
  import opened SurveyInvariants
  import opened SurveyOps
  import opened SurveyPending
  import opened SurveyRuns
  import opened SurveyHistory
  import opened SurveyEvolution
  import opened SurveyQuota

  // ---------- creating a Survey ----------

  /** The user has made no Survey with this request key. */
  predicate NewRequest(surveys: map<SurveyId, Survey>, user: UserId, request: RequestId) {
    forall e :: e in surveys && surveys[e].user == user ==> surveys[e].request != request
  }

  /** What the user has used of a day: the reservations that stand and all charges ever made. */
  function Spent(w: World, key: Key): nat {
    |Reservations(w.surveys, key)| + ChargesTo(w.hist.charges, key)
  }

  lemma SpentIsCounted(w: World, limits: Limits, key: Key)
    requires Inv(w, limits)
    ensures var row := Get(w.usage, key, Usage(0, 0)); row.reserved + row.succeeded == Spent(w, key)
  {
    hide Inv, QuotaExact, Reservations, ChargesTo;
    Quota(w, limits);
    RowCounts(w, key);
  }

  lemma NoHits(w: World, user: UserId, request: RequestId)
    ensures RequestedSurveys(w.surveys, user, request) == {} <==> NewRequest(w.surveys, user, request)
  {
    if NewRequest(w.surveys, user, request) {
      assert forall s :: s in RequestedSurveys(w.surveys, user, request) ==> s in w.surveys;
    } else {
      var e :| e in w.surveys && w.surveys[e].user == user && w.surveys[e].request == request;
      assert e in RequestedSurveys(w.surveys, user, request);
    }
  }

  /**
   A new request is turned down on quota exactly if what the user has used of the day reaches the limit: the
   user's override where there is one, whatever the configured limit, and the configured limit otherwise.
   */
  lemma CreateAccepted(w: World, limits: Limits, s: SurveyId, d: DraftId, user: UserId, request: RequestId,
                       hash: Hash, day: Day, override: Option<int>, dailyLimit: int)
    requires Reachable(w, limits) && NewRequest(w.surveys, user, request)
    ensures var reply := Create(w, s, d, user, request, hash, day, override, dailyLimit).reply;
            var spent := Spent(w, Key(user, day));
            && (override.Some? ==> (reply == Refused(QuotaExceeded) <==> spent >= override.value))
            && (override.None? ==> (reply == Refused(QuotaExceeded) <==> spent >= dailyLimit))
            && (reply.Done? <==> reply != Refused(QuotaExceeded) && s !in w.surveys && d !in w.drafts)
  {
    hide Inv, Pending, RequestedSurveys, Reservations, ChargesTo;
    ReachableSound(w, limits);
    SpentIsCounted(w, limits, Key(user, day));
    NoHits(w, user, request);
  }

  /** The request that is repeated: in a reachable state a user has one Survey per request key. */
  ghost predicate OnePerRequest(surveys: map<SurveyId, Survey>) {
    forall s, t | s in surveys && t in surveys && surveys[s].user == surveys[t].user
                  && surveys[s].request == surveys[t].request :: s == t
  }

  /** Which rows a step adds: none, or the one of an accepted create. */
  lemma OnlyCreateAdds(w: World, limits: Limits, op: Op, s: SurveyId)
    requires Sound(w, limits)
    requires var v := Apply(w, limits, op).next; s in v.surveys && v.surveys[s].birth >= w.hist.births
    ensures op.CreateSurvey? && op.s == s && NewRequest(w.surveys, op.user, op.request)
    ensures var v := Apply(w, limits, op).next; v.surveys[s].user == op.user && v.surveys[s].request == op.request
  {
    hide Inv, Pending, Apply, Survive, NewRequest;
    var v := Apply(w, limits, op).next;
    ApplyKeeps(w, limits, op);
    BirthsOf(v, limits);
    assert v.surveys[s].birth < v.hist.births by {
      hide Charged;
    }
    if !WritesHistory(op) {
      LeavesHistory(w, limits, op);
    } else {
      match op
      case CreateSurvey(_, _, _, _, _, _, _, _) =>
        CreateHistory(w, limits, op);
        CreateAdds(w, limits, op, s);
      case CancelSurvey(_, _) => CancelHistory(w, limits, op);
      case SettleExecution(_, _, _, _, _) => SettleHistory(w, limits, op);
      case RecoverArchivedFailure(_, _, _, _) => RecoverHistory(w, limits, op);
      case CommitJobCheckpoint(_, _, _, _, _) => CommitHistory(w, limits, op);
    }
  }

  lemma CreateApplies(w: World, limits: Limits, op: Op)
    requires op.CreateSurvey?
    ensures Apply(w, limits, op)
         == Create(w, op.s, op.d, op.user, op.request, op.hash, op.day, op.override, op.dailyLimit)
  {
    hide Create;
  }

  lemma CreateRows(w: World, s: SurveyId, d: DraftId, user: UserId, request: RequestId, hash: Hash, day: Day,
                   override: Option<int>, dailyLimit: int)
    ensures var step := Create(w, s, d, user, request, hash, day, override, dailyLimit);
            if step.reply.Done?
            then s !in w.surveys && s in step.next.surveys && step.next.surveys == w.surveys[s := step.next.surveys[s]]
                 && step.next.surveys[s].user == user && step.next.surveys[s].request == request
                 && NewRequest(w.surveys, user, request)
            else step.next.surveys == w.surveys
  {
    hide RequestedSurveys, NewRequest;
    NoHits(w, user, request);
  }

  lemma CreateAdds(w: World, limits: Limits, op: Op, s: SurveyId)
    requires op.CreateSurvey? && Inv(w, limits)
    requires var v := Apply(w, limits, op).next; s in v.surveys && v.surveys[s].birth >= w.hist.births
    ensures op.s == s && NewRequest(w.surveys, op.user, op.request)
    ensures var v := Apply(w, limits, op).next; v.surveys[s].user == op.user && v.surveys[s].request == op.request
  {
    hide Inv, Apply, Create, NewRequest, Charged;
    BirthsOf(w, limits);
    CreateApplies(w, limits, op);
    CreateRows(w, op.s, op.d, op.user, op.request, op.hash, op.day, op.override, op.dailyLimit);
  }

  lemma StepOnePerRequest(w: World, limits: Limits, op: Op)
    requires Sound(w, limits) && OnePerRequest(w.surveys)
    ensures OnePerRequest(Apply(w, limits, op).next.surveys)
  {
    hide Inv, Pending, Apply, Charged;
    var v := Apply(w, limits, op).next;
    StepSurvives(w, limits, op);
    forall s, t | s in v.surveys && t in v.surveys && v.surveys[s].user == v.surveys[t].user
                  && v.surveys[s].request == v.surveys[t].request
      ensures s == t
    {
      if s !in w.surveys {
        OnlyCreateAdds(w, limits, op, s);
      }
      if t !in w.surveys {
        OnlyCreateAdds(w, limits, op, t);
      }
    }
  }

  lemma {:induction false} RunOnePerRequest(w: World, limits: Limits, ops: seq<Op>)
    requires Sound(w, limits) && OnePerRequest(w.surveys)
    ensures OnePerRequest(Run(w, limits, ops).surveys)
    decreases |ops|
  {
    hide Sound, Apply, OnePerRequest;
    if ops != [] {
      ApplyKeeps(w, limits, ops[0]);
      StepOnePerRequest(w, limits, ops[0]);
      RunOnePerRequest(Apply(w, limits, ops[0]).next, limits, ops[1..]);
    }
  }

  /** A user never has two Surveys under one request key, so the index on them aborts no transaction. */
  lemma RequestsUnique(w: World, limits: Limits)
    requires Reachable(w, limits)
    ensures OnePerRequest(w.surveys)
  {
    hide Sound, Run;
    var ops :| w == Run(EMPTY, limits, ops);
    EmptySound(limits);
    RunOnePerRequest(EMPTY, limits, ops);
  }

  /** A repeated request is answered by its content alone, and reserves nothing. */
  lemma CreateRepeated(w: World, limits: Limits, e: SurveyId, s: SurveyId, d: DraftId, hash: Hash, day: Day,
                       override: Option<int>, dailyLimit: int)
    requires Reachable(w, limits) && e in w.surveys
    ensures var step := Create(w, s, d, w.surveys[e].user, w.surveys[e].request, hash, day, override, dailyLimit);
            && step.reply == (if w.surveys[e].hash == hash then Unchanged else Refused(IdempotencyConflict))
            && step.next.surveys == w.surveys && step.next.drafts == w.drafts && step.next.hist == w.hist
            && forall key :: Get(step.next.usage, key, Usage(0, 0)) == Get(w.usage, key, Usage(0, 0))
  {
    hide Reachable;
    RequestsUnique(w, limits);
    var user, request := w.surveys[e].user, w.surveys[e].request;
    assert RequestedSurveys(w.surveys, user, request) == {e};
  }

  lemma OneReservationMore(surveys: map<SurveyId, Survey>, s: SurveyId, v: Survey)
    requires s !in surveys && v.quota.Reserved?
    ensures |Reservations(surveys[s := v], KeyOf(v))| == |Reservations(surveys, KeyOf(v))| + 1
  {
    assert Reservations(surveys[s := v], KeyOf(v)) == Reservations(surveys, KeyOf(v)) + {s};
  }

  /**
   An accepted create makes a drafting Survey of the user with one reservation, and one Draft that is offered
   to compute at once; everything else is as it was.
   */
  lemma CreateTakesEffect(w: World, limits: Limits, s: SurveyId, d: DraftId, user: UserId, request: RequestId,
                          hash: Hash, day: Day, override: Option<int>, dailyLimit: int)
    requires Reachable(w, limits)
    requires Create(w, s, d, user, request, hash, day, override, dailyLimit).reply.Done?
    ensures var v := Create(w, s, d, user, request, hash, day, override, dailyLimit).next;
            && Visible(v, s, user) && v.surveys[s].status.Drafting? && v.surveys[s].request == request
            && v.surveys[s].hash == hash && !v.surveys[s].notify && JobAt(v, s).None?
            && s !in w.surveys && v.surveys - {s} == w.surveys && v.drafts - {d} == w.drafts
            && DraftsOf(v.drafts, s) == {d} && Listed(v, DraftWork, d) && v.drafts[d].queuedAt == w.now
            && v.drafts[d].request == request && v.drafts[d].hash == hash
            && Spent(v, Key(user, day)) == Spent(w, Key(user, day)) + 1
  {
    hide Inv, Pending, RequestedSurveys, ChargesTo, Reservations, ActiveOn;
    ReachableSound(w, limits);
    var v := Create(w, s, d, user, request, hash, day, override, dailyLimit).next;
    NothingOnNew(w, limits, d);
    DraftsNeedSurvey(w, limits);
    JobsNeedSurvey(w, limits, s);
    OneReservationMore(w.surveys, s, v.surveys[s]);
    assert DraftsOf(v.drafts, s) == {d};
  }

  /** No attempt was ever made on an item that is not there. */
  lemma NothingOnNew(w: World, limits: Limits, d: DraftId)
    requires Inv(w, limits) && d !in w.drafts
    ensures ActiveOn(w.attempts, DraftWork, d) == {}
  {
    hide Indexed, Lockstep, QuotaExact, ChargedOnce, CancelsStick, DraftChain, Approved, Leased, Numbered, Budgeted,
      Capped, Checkpointed, Announced;
    assert forall a :: a in w.attempts ==> Targets(w.jobs, w.drafts, w.attempts[a]);
  }

  lemma NothingOnNewJob(w: World, limits: Limits, j: JobId)
    requires Inv(w, limits) && j !in w.jobs
    ensures ActiveOn(w.attempts, FullWork, j) == {}
  {
    hide Indexed, Lockstep, QuotaExact, ChargedOnce, CancelsStick, DraftChain, Approved, Leased, Numbered, Budgeted,
      Capped, Checkpointed, Announced;
    assert forall a :: a in w.attempts ==> Targets(w.jobs, w.drafts, w.attempts[a]);
  }

  lemma DraftsNeedSurvey(w: World, limits: Limits)
    requires Inv(w, limits)
    ensures forall d :: d in w.drafts ==> w.drafts[d].survey in w.surveys
  {
    hide Indexed, Lockstep, QuotaExact, ChargedOnce, CancelsStick, Approved, Leased, Targeted, Numbered, Budgeted,
      Capped, Checkpointed, Announced, DraftSound, ActiveSound, Chain, OneActive;
  }

  lemma JobsNeedSurvey(w: World, limits: Limits, s: SurveyId)
    requires Inv(w, limits) && s !in w.surveys
    ensures s !in w.jobOf
  {
    hide Lockstep, QuotaExact, ChargedOnce, CancelsStick, DraftChain, Approved, Leased, Targeted, Numbered, Budgeted,
      Capped, Checkpointed, Announced;
  }

  lemma OneFurther(w: World, limits: Limits, op: Op)
    requires Reachable(w, limits)
    ensures Reachable(Apply(w, limits, op).next, limits)
  {
    hide Apply;
    FollowsOne(w, limits, op);
    ReachedThen(w, limits, Apply(w, limits, op).next);
  }

  lemma ReachedThen(w: World, limits: Limits, v: World)
    requires Reachable(w, limits) && Follows(w, limits, v)
    ensures Reachable(v, limits)
  {
    hide Run;
    var ops :| w == Run(EMPTY, limits, ops);
    var more :| v == Run(w, limits, more);
    RunAppend(EMPTY, limits, ops, more);
    assert v == Run(EMPTY, limits, ops + more);
  }

  /**
   However much happens in between, the request of an accepted create is remembered as long as its Survey is
   there: repeated it is answered without effect, and with other content it is refused.
   */
  lemma CreateRemembered(w: World, limits: Limits, op: Op, more: seq<Op>, again: Op)
    requires Reachable(w, limits) && op.CreateSurvey? && Apply(w, limits, op).reply.Done?
    requires again.CreateSurvey? && again.user == op.user && again.request == op.request
    ensures var v := Run(Apply(w, limits, op).next, limits, more);
            op.s in v.surveys && v.surveys[op.s].birth == w.hist.births ==>
              Apply(v, limits, again).reply
              == if again.hash == op.hash then Unchanged else Refused(IdempotencyConflict)
  {
    hide Inv, Pending, Run, Reachable, Create, KeyOf, Outlive;
    var u := Apply(w, limits, op).next;
    var v := Run(u, limits, more);
    if op.s in v.surveys && v.surveys[op.s].birth == w.hist.births {
      CreateTakesEffect(w, limits, op.s, op.d, op.user, op.request, op.hash, op.day, op.override, op.dailyLimit);
      OneFurther(w, limits, op);
      ReachableSound(u, limits);
      RunOutlives(u, limits, more);
      BornNow(w, limits, op);
      StillSame(u, v, op.s);
      assert Follows(u, limits, v);
      ReachedThen(u, limits, v);
      CreateRepeated(v, limits, op.s, again.s, again.d, again.hash, again.day, again.override, again.dailyLimit);
    }
  }

  lemma BornNow(w: World, limits: Limits, op: Op)
    requires op.CreateSurvey? && Apply(w, limits, op).reply.Done?
    ensures Apply(w, limits, op).next.hist.births == w.hist.births + 1
  {
    hide RequestedSurveys;
  }

  lemma StillSame(u: World, v: World, s: SurveyId)
    requires Outlive(u, v) && s in v.surveys && v.surveys[s].birth < u.hist.births
    ensures s in u.surveys && v.surveys[s].user == u.surveys[s].user
    ensures v.surveys[s].request == u.surveys[s].request && v.surveys[s].hash == u.surveys[s].hash
  {
  }
}
