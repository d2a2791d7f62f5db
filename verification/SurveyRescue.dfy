/**
 Whether the work list of a reserving transaction under way can still lead to one of its jobs.  The
 candidates before it must all be passed over: withdrawn by their users, or out of room for them.
 */
module SurveyRescue {
  import opened Sets
  import opened SurveyModel
  import opened SurveyTransitions
  import opened SurveyInvariants
  import opened SurveySteps
  import opened SurveyCalm
  import opened SurveyPending

  /** The candidate is, or can be made, one that the transaction passes over. */
  predicate Skippable(w: World, limits: Limits, c: Candidate) {
    || !Current(w, FullWork, c)
    || w.jobs[c.target].status.Queued?
    || |ActiveOfUser(w.surveys, w.attempts, FullWork, c.user)| >= limits.fullUser
  }

  predicate Rescues(w: World, limits: Limits, list: seq<Candidate>, j: JobId) {
    list != [] &&
    if list[0].target == j && Current(w, FullWork, list[0]) then true
    else Skippable(w, limits, list[0]) && Rescues(w, limits, list[1..], j)
  }

  lemma {:induction false} OffList(w: World, limits: Limits, list: seq<Candidate>, j: JobId)
    requires forall c :: c in list ==> c.target != j
    ensures !Rescues(w, limits, list, j)
  {
    hide Current, Skippable;
    if list != [] {
      OffList(w, limits, list[1..], j);
    }
  }

  /** Only the tables matter, not other transactions under way. */
  lemma {:induction false} RescuesAside(w: World, v: World, limits: Limits, list: seq<Candidate>, j: JobId)
    requires v == w.(line := v.line, passes := v.passes)
    ensures Rescues(v, limits, list, j) <==> Rescues(w, limits, list, j)
  {
    hide ActiveOfUser;
    if list != [] {
      RescuesAside(w, v, limits, list[1..], j);
    }
  }

  // ---------- no transaction opens the way to a candidate ----------

  lemma AttemptHasSurvey(w: World, limits: Limits, a: AttemptId)
    requires Inv(w, limits) && a in w.attempts && w.attempts[a].kind.FullWork?
    ensures w.attempts[a].survey in w.surveys
  {
    hide Lockstep, QuotaExact, ChargedOnce, CancelsStick, DraftChain, Approved, Leased, Numbered, Budgeted, Capped,
      Checkpointed, Announced;
    assert Targets(w.jobs, w.drafts, w.attempts[a]);
  }

  lemma UserShrinks(w: World, v: World, limits: Limits, user: UserId)
    requires Inv(w, limits) && Calms(w, v, FullWork)
    ensures |ActiveOfUser(v.surveys, v.attempts, FullWork, user)|
            <= |ActiveOfUser(w.surveys, w.attempts, FullWork, user)|
  {
    hide Inv, JobsCalm, IndexCalm, DraftsCalm;
    var x := ActiveOfUser(w.surveys, w.attempts, FullWork, user);
    var y := ActiveOfUser(v.surveys, v.attempts, FullWork, user);
    forall a | a in y
      ensures a in x
    {
      assert Meek(w.attempts[a], v.attempts[a]);
      AttemptHasSurvey(w, limits, a);
      assert Grows(w.surveys[w.attempts[a].survey], v.surveys[w.attempts[a].survey]);
    }
    SubsetSize(y, x);
  }

  /** What passes the check now passed it before, and has the same job. */
  lemma CurrentBefore(w: World, v: World, limits: Limits, c: Candidate)
    requires Inv(w, limits) && Inv(v, limits) && Fits(w, limits, FullWork, c) && Calms(w, v, FullWork)
    requires Current(v, FullWork, c)
    ensures Current(w, FullWork, c) && Kept(w.jobs[c.target], v.jobs[c.target])
  {
    hide Inv, Counted, AttemptsCalm, ActiveOn, DraftsCalm;
    assert Identified(w, c);
    assert c.survey in w.jobOf && w.jobOf[c.survey] == c.target;
    NoneActive(w.attempts, limits, FullWork, c);
    JobIndexed(v, limits, c.survey);
    JobIndexed(w, limits, c.survey);
    JobsSurvey(w, limits, c.target);
  }

  lemma JobHasIndex(w: World, limits: Limits, j: JobId)
    requires Inv(w, limits) && j in w.jobs
    ensures var s := w.jobs[j].survey; s in w.jobOf && w.jobOf[s] == j && s in w.surveys
  {
    hide Lockstep, QuotaExact, ChargedOnce, CancelsStick, DraftChain, Approved, Leased, Targeted, Numbered, Budgeted,
      Capped, Checkpointed, Announced;
  }

  /** A started job stays where it is, so its candidate still passes the check. */
  lemma StaysCurrent(w: World, v: World, limits: Limits, c: Candidate)
    requires Inv(w, limits) && Inv(v, limits) && Fits(w, limits, FullWork, c) && Calms(w, v, FullWork)
    requires Current(w, FullWork, c) && !w.jobs[c.target].status.Queued?
    ensures Current(v, FullWork, c) && Kept(w.jobs[c.target], v.jobs[c.target])
  {
    hide Inv, Counted, AttemptsCalm, ActiveOn, DraftsCalm, IndexCalm;
    NoneActive(w.attempts, limits, FullWork, c);
    JobIndexed(w, limits, c.survey);
    JobHasIndex(v, limits, c.target);
  }

  lemma StillBlocks(w: World, v: World, limits: Limits, c: Candidate)
    requires Inv(w, limits) && Inv(v, limits) && Fits(w, limits, FullWork, c) && Calms(w, v, FullWork)
    requires Skippable(v, limits, c)
    ensures Skippable(w, limits, c)
  {
    hide Inv, Fits, Calms, Current, ActiveOfUser;
    if Current(w, FullWork, c) {
      IsCurrent(w, c);
      if !w.jobs[c.target].status.Queued? {
        StaysCurrent(w, v, limits, c);
        UserShrinks(w, v, limits, c.user);
      }
    }
  }

  lemma IsCurrent(w: World, c: Candidate)
    requires Current(w, FullWork, c)
    ensures c.target in w.jobs
  {
  }

  /** No transaction opens the way to a job for a list that does not lead to it. */
  lemma {:induction false} StillNoWay(w: World, v: World, limits: Limits, list: seq<Candidate>, j: JobId)
    requires Inv(w, limits) && Inv(v, limits) && Calms(w, v, FullWork)
    requires forall c :: c in list ==> Fits(w, limits, FullWork, c)
    requires Rescues(v, limits, list, j)
    ensures Rescues(w, limits, list, j)
  {
    hide Inv, Fits, Calms, Current, Skippable;
    var c := list[0];
    assert Fits(w, limits, FullWork, c);
    if c.target == j && Current(v, FullWork, c) {
      CurrentBefore(w, v, limits, c);
    } else {
      StillBlocks(w, v, limits, c);
      StillNoWay(w, v, limits, list[1..], j);
    }
  }
}
