/** The promises of the Survey tables, stated for every reachable state and every run. */
module SurveyGuarantees {
  import opened Sets
  import opened Wrappers
  import opened SurveyModel
  import opened SurveyTransitions
  import opened SurveyInvariants
  import opened SurveyOps
  import opened SurveyPending
  import opened SurveyRuns
  import opened SurveyHistory
  import opened SurveyQuota
  import opened SurveyQuotaLemmas
  import opened SurveySteps
  import opened SurveyArchive
  import opened SurveyCompute
  import opened SurveyApproved
  import opened SurveyFencing

  // ---------- exactly when a transaction is accepted ----------

  lemma ReservationHolds(w: World, limits: Limits, s: SurveyId, charge: bool)
    requires Inv(w, limits) && s in w.surveys
    ensures KeyOf(w.surveys[s]) in w.usage
    ensures w.surveys[s].quota.Reserved? ==> Settled(w.usage, KeyOf(w.surveys[s]), charge).Some?
  {
    hide Inv, Counts, Settled;
    Quota(w, limits);
    if w.surveys[s].quota.Reserved? {
      ReservationIsThere(w.usage, w.surveys, w.hist, s, charge);
    }
  }

  /** A Survey's usage row exists, and a reserved Survey has a reservation to give back. */
  lemma ReservationStands(w: World, limits: Limits, s: SurveyId, charge: bool)
    requires Reachable(w, limits) && s in w.surveys
    ensures KeyOf(w.surveys[s]) in w.usage
    ensures w.surveys[s].quota.Reserved? ==> Settled(w.usage, KeyOf(w.surveys[s]), charge).Some?
  {
    hide Inv, Pending, Settled;
    ReachableSound(w, limits);
    ReservationHolds(w, limits, s, charge);
  }

  /** Settling succeeds exactly for the owner of a running job; the missing-reservation exits are dead. */
  lemma SettleAccepted(w: World, limits: Limits, j: JobId, worker: AttemptId, outcome: Outcome,
                       error: Option<ErrorCode>, chargeable: bool)
    requires Reachable(w, limits)
    ensures var reply := Settle(w, j, worker, outcome, error, chargeable).reply;
            && (reply.Done? <==> OwnsJob(w, j, worker) && w.jobs[j].status.Running?)
            && reply != Refused(ReservationGone)
            && (reply.Unchanged? ==> j in w.jobs && w.jobs[j].status.Archiving?)
  {
    hide Inv, Pending, Settled;
    ReachableSound(w, limits);
    if j in w.jobs {
      JobsSurvey(w, limits, j);
      ReservationHolds(w, limits, w.jobs[j].survey, true);
      ReservationHolds(w, limits, w.jobs[j].survey, false);
    }
  }

  /** Cancelling is accepted exactly while drafting, queued or running. */
  lemma CancelAccepted(w: World, limits: Limits, s: SurveyId, user: UserId)
    requires Reachable(w, limits) && Visible(w, s, user)
    ensures Cancel(w, s, user).reply.Done? <==> InProgress(w.surveys[s].status)
    ensures Cancel(w, s, user).reply.Refused? <==> w.surveys[s].status.Archiving?
  {
    hide Inv, Pending, Settled, CancelledDrafts;
    ReachableSound(w, limits);
    IsSound(w, limits, s);
    ReservationHolds(w, limits, s, false);
  }

  /** Deleting is refused exactly while an execution is running or being archived. */
  lemma DeleteAccepted(w: World, limits: Limits, s: SurveyId, user: UserId)
    requires Reachable(w, limits) && Visible(w, s, user)
    ensures Delete(w, s, user).reply
         == if w.surveys[s].status.Running? || w.surveys[s].status.Archiving? then Refused(DeleteInProgress) else Done
  {
    hide Inv, Pending, Settled, Erased;
    ReachableSound(w, limits);
    IsSound(w, limits, s);
    ReservationHolds(w, limits, s, false);
  }

  lemma RecoveryReply(w: World, limits: Limits, j: JobId)
    requires Inv(w, limits)
    ensures RecoverJob(w, j).reply
         == if j in w.jobs && w.jobs[j].status.Running? && w.jobs[j].lease.Some?
               && w.jobs[j].lease.value.expires <= w.now then Done else Unchanged
  {
    hide Inv, Settled;
    if j in w.jobs {
      JobsSurvey(w, limits, j);
      ReservationHolds(w, limits, w.jobs[j].survey, false);
    }
  }

  /** The sweep ends exactly the running jobs whose lease has run out, and never fails on quota. */
  lemma RecoveryAccepted(w: World, limits: Limits, j: JobId)
    requires Reachable(w, limits)
    ensures RecoverJob(w, j).reply
         == if j in w.jobs && w.jobs[j].status.Running? && w.jobs[j].lease.Some?
               && w.jobs[j].lease.value.expires <= w.now then Done else Unchanged
  {
    hide Inv, Pending, RecoverJob;
    ReachableSound(w, limits);
    RecoveryReply(w, limits, j);
  }

  /** Archive recovery never finds its usage row missing. */
  lemma ArchiveRecoveryFindsRow(w: World, limits: Limits, j: JobId, expected: Manifest, code: ErrorCode,
                                replacement: Option<Manifest>)
    requires Reachable(w, limits)
    ensures RecoverArchived(w, j, expected, code, replacement).reply != Refused(ReservationGone)
  {
    hide Inv, Pending, RecoverArchived, Settled;
    ReachableSound(w, limits);
    OnlyWithoutRow(w, j, expected, code, replacement);
    if Attached(w, j) {
      ReservationHolds(w, limits, w.jobs[j].survey, true);
    }
  }

  lemma OnlyWithoutRow(w: World, j: JobId, expected: Manifest, code: ErrorCode, replacement: Option<Manifest>)
    ensures RecoverArchived(w, j, expected, code, replacement).reply == Refused(ReservationGone) ==>
              Attached(w, j) && KeyOf(w.surveys[w.jobs[j].survey]) !in w.usage
  {
    hide Ended, OwnStorage, OwnOverlay;
  }

  /** An attempt that may still claim gets its job exactly when the job is unfinished: no lease can stand in the way. */
  lemma ClaimJobAccepted(w: World, limits: Limits, j: JobId, a: AttemptId, lease: int, timeout: int)
    requires Reachable(w, limits)
    ensures ClaimJob(w, j, a, lease, timeout).reply.Done?
            <==> Claimable(w, a, FullWork, j) && j in w.jobs && !w.jobs[j].status.Finished?
  {
    hide Inv, Pending, Claimable;
    ReachableSound(w, limits);
    if Claimable(w, a, FullWork, j) {
      ClaimableIsFree(w, limits, a, FullWork, j);
      JobsSurvey(w, limits, j);
      ClaimableHere(w, a, FullWork, j);
    }
  }

  lemma ClaimableHere(w: World, a: AttemptId, kind: WorkKind, target: nat)
    requires Claimable(w, a, kind, target)
    ensures a in w.attempts && w.attempts[a].kind == kind && w.attempts[a].target == target
  {
  }

  lemma ClaimDraftAccepted(w: World, limits: Limits, d: DraftId, a: AttemptId, lease: int)
    requires Reachable(w, limits)
    ensures ClaimDraft(w, d, a, lease).reply.Done?
            <==> Claimable(w, a, DraftWork, d) && d in w.drafts && w.drafts[d].status.Queued?
  {
    hide Inv, Pending, Claimable, Top;
    ReachableSound(w, limits);
    if Claimable(w, a, DraftWork, d) {
      ClaimableIsFree(w, limits, a, DraftWork, d);
      ClaimableHere(w, a, DraftWork, d);
      if w.drafts[d].status.Queued? {
        ActiveFacts(w, limits, d);
      }
    }
  }

  // ---------- checkpoints ----------

  /** A checkpoint is committed by the attempt holding the lease, directly after the last one, or not at all. */
  lemma CommittedByOwner(w: World, limits: Limits, op: Op, b: nat)
    requires Reachable(w, limits)
    ensures var cs, cs' := CommitsOf(w.hist, b), CommitsOf(Apply(w, limits, op).next.hist, b);
            cs' == cs
            || (op.CommitJobCheckpoint? && OwnsJob(w, op.j, op.a) && Holds(w.attempts, op.a, FullWork, op.j)
                && w.jobs[op.j].survey in w.surveys && w.surveys[w.jobs[op.j].survey].birth == b
                && op.position == |cs|
                && cs' == cs + [Commit(|cs| + 1, op.a, w.attempts[op.a].number, op.stage, op.pointer)])
  {
    hide Inv, Pending, Apply, Positioned;
    ReachableSound(w, limits);
    if !WritesHistory(op) {
      LeavesHistory(w, limits, op);
    } else {
      match op
      case CreateSurvey(_, _, _, _, _, _, _, _) => CreateHistory(w, limits, op);
      case CancelSurvey(_, _) => CancelHistory(w, limits, op);
      case SettleExecution(_, _, _, _, _) => SettleHistory(w, limits, op);
      case RecoverArchivedFailure(_, _, _, _) => RecoverHistory(w, limits, op);
      case CommitJobCheckpoint(j, a, position, _, _) =>
        CommitHistory(w, limits, op);
        if j in w.jobs {
          JobsSurvey(w, limits, j);
          LeaseOf(w, limits, j);
          PointerOf(w, limits, w.jobs[j].survey);
          CommitNeedsPosition(w, limits, op);
        }
    }
  }

  lemma CommitNeedsPosition(w: World, limits: Limits, op: Op)
    requires op.CommitJobCheckpoint? && op.j in w.jobs
    ensures Apply(w, limits, op).reply.Done? ==> op.position == Position(w.jobs[op.j].checkpoint)
  {
  }

  lemma PointerOf(w: World, limits: Limits, s: SurveyId)
    requires Inv(w, limits) && s in w.surveys && JobAt(w, s).Some?
    ensures var cs := CommitsOf(w.hist, w.surveys[s].birth);
            && Linear(cs) && PointsAt(JobAt(w, s).value.checkpoint, cs)
            && Position(JobAt(w, s).value.checkpoint) == |cs|
  {
    hide Indexed, Lockstep, QuotaExact, ChargedOnce, CancelsStick, DraftChain, Approved, Leased, Targeted, Numbered,
      Budgeted, Capped, Announced, Linear, AttemptsOn;
    assert Positioned(w.jobs[w.jobOf[s]].checkpoint, Get(w.hist.commits, w.surveys[s].birth, []),
                      |AttemptsOn(w.attempts, FullWork, w.jobOf[s])|);
  }

  /**
   However attempts crash and resume, the checkpoints of one execution form one line: numbered 1, 2, …,
   never rewritten, by attempts in order, with the job's checkpoint at the end.
   */
  lemma OneCheckpointLine(w: World, limits: Limits, ops: seq<Op>, s: SurveyId)
    requires Reachable(w, limits)
    ensures var v := Run(w, limits, ops);
            s in v.surveys && JobAt(v, s).Some? ==>
              var before, after := CommitsOf(w.hist, v.surveys[s].birth), CommitsOf(v.hist, v.surveys[s].birth);
              && before <= after
              && (forall i :: 0 <= i < |after| ==> after[i].sequence == i + 1)
              && (forall i, k :: 0 <= i < k < |after| ==> after[i].number <= after[k].number)
              && PointsAt(JobAt(v, s).value.checkpoint, after)
  {
    hide Inv, Pending, Run, JobAt;
    ReachableSound(w, limits);
    var v := Run(w, limits, ops);
    RunKeeps(w, limits, ops);
    RunGrows(w, limits, ops);
    if s in v.surveys && JobAt(v, s).Some? {
      PointerOf(v, limits, s);
      assert CommitsOf(w.hist, v.surveys[s].birth) <= CommitsOf(v.hist, v.surveys[s].birth);
    }
  }

  // ---------- numbering ----------

  /** The numbers 1..n. */
  function UpTo(n: nat): (s: set<nat>)
    ensures forall i: nat :: i in s <==> 1 <= i <= n
    ensures |s| == n
  {
    if n == 0 then {} else UpTo(n - 1) + {n}
  }

  lemma {:induction false} ValuesSize<K>(m: map<K, nat>)
    requires forall x, y :: x in m && y in m && m[x] == m[y] ==> x == y
    ensures |m.Values| == |m|
  {
    if m == map[] {
      assert m.Values == {};
    } else {
      var x :| x in m;
      var rest := m - {x};
      assert m.Values == rest.Values + {m[x]} by {
        forall v | v in m.Values
          ensures v in rest.Values + {m[x]}
        {
          var y :| y in m && m[y] == v;
          assert y != x ==> y in rest && rest[y] == v;
        }
      }
      assert |rest| == |m| - 1 by {
        assert rest.Keys == m.Keys - {x};
      }
      ValuesSize(rest);
    }
  }

  /** n distinct numbers between 1 and n are exactly 1..n. */
  lemma Pigeonhole<K>(m: map<K, nat>)
    requires forall x, y :: x in m && y in m && m[x] == m[y] ==> x == y
    requires forall x :: x in m ==> 1 <= m[x] <= |m|
    ensures m.Values == UpTo(|m|)
  {
    ValuesSize(m);
    assert m.Values <= UpTo(|m|);
    SameSizeSubset(m.Values, UpTo(|m|));
  }

  function NumbersOn(attempts: map<AttemptId, Attempt>, kind: WorkKind, target: nat): map<AttemptId, nat> {
    map a | a in AttemptsOn(attempts, kind, target) :: attempts[a].number
  }

  /** The attempts ever made on one item are numbered exactly 1..n: no gap and no repeat. */
  lemma AttemptNumbers(w: World, limits: Limits, kind: WorkKind, target: nat)
    requires Reachable(w, limits)
    ensures NumbersOn(w.attempts, kind, target).Values == UpTo(|AttemptsOn(w.attempts, kind, target)|)
  {
    hide Indexed, Lockstep, QuotaExact, ChargedOnce, CancelsStick, DraftChain, Approved, Leased, Targeted, Budgeted,
      Capped, Checkpointed, Announced;
    ReachableSound(w, limits);
    var m := NumbersOn(w.attempts, kind, target);
    assert m.Keys == AttemptsOn(w.attempts, kind, target);
    assert |m| == |m.Keys|;
    forall a | a in m
      ensures 1 <= m[a] <= |m|
    {
    }
    Pigeonhole(m);
  }

  function RevisionsOf(drafts: map<DraftId, Draft>, s: SurveyId): map<DraftId, nat> {
    map d | d in ReadyOf(drafts, s) :: drafts[d].revision.value
  }

  /** The ready revisions of a Survey are exactly 1..n with n at most ten, each based on the one before. */
  lemma RevisionNumbers(w: World, limits: Limits, s: SurveyId)
    requires Reachable(w, limits) && s in w.surveys
    ensures |ReadyOf(w.drafts, s)| <= 10
    ensures RevisionsOf(w.drafts, s).Values == UpTo(|ReadyOf(w.drafts, s)|)
    ensures forall d :: d in ReadyOf(w.drafts, s) ==>
              w.drafts[d].basedOn
              == if w.drafts[d].revision.value == 1 then None else Some(w.drafts[d].revision.value - 1)
  {
    hide Indexed, Lockstep, QuotaExact, ChargedOnce, CancelsStick, Approved, Leased, Targeted, Numbered, Budgeted,
      Capped, Checkpointed, Announced, ActiveSound, DraftSound, OneActive, Topped;
    ReachableSound(w, limits);
    assert Chain(w.drafts, s);
    var m := RevisionsOf(w.drafts, s);
    assert m.Keys == ReadyOf(w.drafts, s);
    assert |m| == |m.Keys|;
    forall d | d in ReadyOf(w.drafts, s)
      ensures Link(w.drafts[d], |ReadyOf(w.drafts, s)|)
    {
    }
    Pigeonhole(m);
  }

  // ---------- capacity ----------

  /**
   Whatever is reserved, launched, claimed, stopped or retried in whatever order: attempts stay within
   the global and the per-user limit, an item has at most one active attempt, and a Draft starts
   computing at most `maxCompute` times, a job at most `maxCompute + 8` times.
   */
  lemma CapacityHolds(limits: Limits, ops: seq<Op>, kind: WorkKind, user: UserId, target: nat)
    ensures var w := Run(EMPTY, limits, ops);
            && |ActiveOfKind(w.attempts, kind)| <= (if kind.DraftWork? then limits.draftGlobal else limits.fullGlobal)
            && |ActiveOfUser(w.surveys, w.attempts, kind, user)|
               <= (if kind.DraftWork? then limits.draftUser else limits.fullUser)
            && |ActiveOn(w.attempts, kind, target)| <= 1
            && |StartedOn(w.attempts, kind, target)| <= limits.maxCompute + if kind.FullWork? then 8 else 0
  {
    hide Inv, Pending, Run, ActiveOfKind, ActiveOfUser;
    var w := Run(EMPTY, limits, ops);
    EmptySound(limits);
    RunKeeps(EMPTY, limits, ops);
    CapacityOf(w, limits, kind, user, target);
  }

  lemma CapacityOf(w: World, limits: Limits, kind: WorkKind, user: UserId, target: nat)
    requires Inv(w, limits)
    ensures |ActiveOfKind(w.attempts, kind)| <= limits.Global(kind)
    ensures |ActiveOfUser(w.surveys, w.attempts, kind, user)| <= limits.PerUser(kind)
    ensures |ActiveOn(w.attempts, kind, target)| <= 1
    ensures |StartedOn(w.attempts, kind, target)| <= Budget(limits, kind)
  {
    hide Indexed, Lockstep, QuotaExact, ChargedOnce, CancelsStick, DraftChain, Approved, Leased, Targeted, Numbered,
      Checkpointed, Announced, ActiveOfKind, ActiveOfUser;
    var active := ActiveOn(w.attempts, kind, target);
    forall a, b | a in active && b in active
      ensures a == b
    {
      NobodyElse(w.attempts, a);
    }
    AtMostOne(active);
    SubsetSize(StartedOn(w.attempts, kind, target), SpentOn(w.attempts, kind, target));
  }

  lemma OwnerRuns(w: World, limits: Limits, j: JobId, d: DraftId)
    requires Inv(w, limits)
    ensures j in w.jobs && w.jobs[j].lease.Some? ==>
              ActiveOn(w.attempts, FullWork, j) == {w.jobs[j].lease.value.owner}
              && w.attempts[w.jobs[j].lease.value.owner].status.Running?
    ensures d in w.drafts && w.drafts[d].lease.Some? ==>
              ActiveOn(w.attempts, DraftWork, d) == {w.drafts[d].lease.value.owner}
              && w.attempts[w.drafts[d].lease.value.owner].status.Running?
  {
    hide Indexed, Lockstep, QuotaExact, ChargedOnce, CancelsStick, DraftChain, Approved, Targeted, Numbered, Budgeted,
      Capped, Checkpointed, Announced;
    if j in w.jobs && w.jobs[j].lease.Some? {
      NobodyElse(w.attempts, w.jobs[j].lease.value.owner);
    }
    if d in w.drafts && w.drafts[d].lease.Some? {
      NobodyElse(w.attempts, w.drafts[d].lease.value.owner);
    }
  }

  /** A lease is held by the one running attempt that was reserved for the item. */
  lemma LeaseOwnerRuns(w: World, limits: Limits, j: JobId, d: DraftId)
    requires Reachable(w, limits)
    ensures j in w.jobs && w.jobs[j].lease.Some? ==>
              ActiveOn(w.attempts, FullWork, j) == {w.jobs[j].lease.value.owner}
              && w.attempts[w.jobs[j].lease.value.owner].status.Running?
    ensures d in w.drafts && w.drafts[d].lease.Some? ==>
              ActiveOn(w.attempts, DraftWork, d) == {w.drafts[d].lease.value.owner}
              && w.attempts[w.drafts[d].lease.value.owner].status.Running?
  {
    hide Inv, Pending, ActiveOn;
    ReachableSound(w, limits);
    OwnerRuns(w, limits, j, d);
  }

  // ---------- the constraints of the schema ----------

  predicate QuotaTerminal(s: Survey) {
    match s.status
    case Succeeded => s.quota.Consumed? || s.quota.Released?
    case Failed => s.quota.Consumed? || s.quota.Released?
    case Cancelled => s.quota.Released?
    case Archiving => s.quota.Consumed? || s.quota.Released?
    case _ => s.quota.Reserved?
  }

  predicate TerminalState(job: Job) {
    (if job.status.Queued? || job.status.Running? then job.outcome.None? else job.outcome.Some?)
    && (job.status.Finished? ==> job.storage.Some? && job.manifest.Some?)
  }

  predicate ReadyContent(d: Draft) {
    if d.status.Ready? then d.revision.Some? && 1 <= d.revision.value <= 10 && d.markdown.Some?
    else d.revision.None? && d.markdown.None?
  }

  /** The quota constraint, in the form that lets a readable report of degraded quality stay free. */
  lemma QuotaTerminalHolds(w: World, limits: Limits, s: SurveyId)
    requires Reachable(w, limits) && s in w.surveys
    ensures QuotaTerminal(w.surveys[s])
  {
    hide Inv, Pending;
    ReachableSound(w, limits);
    IsSound(w, limits, s);
  }

  /** No reachable state violates these check constraints and partial unique indexes: they abort no transaction. */
  lemma ConstraintsHold(w: World, limits: Limits, s: SurveyId)
    requires Reachable(w, limits) && s in w.surveys
    ensures JobAt(w, s).Some? ==>
              TerminalState(JobAt(w, s).value) && IsReady(w.drafts, s, JobAt(w, s).value.approved)
    ensures forall d :: d in w.drafts && w.drafts[d].survey == s ==> ReadyContent(w.drafts[d])
    ensures forall d, e | d in w.drafts && e in w.drafts && w.drafts[d].survey == s && w.drafts[e].survey == s
                          && IsActiveDraft(w.drafts[d]) && IsActiveDraft(w.drafts[e]) :: d == e
  {
    hide Inv, Pending;
    ReachableSound(w, limits);
    if JobAt(w, s).Some? {
      IsSound(w, limits, s);
      OneJobEach(w, limits, s, w.jobOf[s]);
      ApprovedFacts(w, limits, w.jobOf[s]);
    }
    forall d | d in w.drafts && w.drafts[d].survey == s
      ensures ReadyContent(w.drafts[d])
    {
      ContentOf(w, limits, d);
    }
    OneActiveEach(w, limits);
  }

  lemma UsageConstraintsHold(w: World, limits: Limits, key: Key)
    requires Reachable(w, limits) && key in w.usage
    ensures w.usage[key].reserved >= 0 && w.usage[key].succeeded >= 0
  {
    hide Inv, Pending;
    ReachableSound(w, limits);
    Quota(w, limits);
    assert Counts(w.usage[key], w.surveys, w.hist, key);
  }

  lemma ContentOf(w: World, limits: Limits, d: DraftId)
    requires Inv(w, limits) && d in w.drafts
    ensures ReadyContent(w.drafts[d])
  {
    hide Indexed, Lockstep, QuotaExact, ChargedOnce, CancelsStick, Approved, Leased, Targeted, Numbered, Budgeted,
      Capped, Checkpointed, Announced, ActiveSound, OneActive, Topped, Distinct;
    var s := w.drafts[d].survey;
    assert DraftSound(w.drafts[d]) && Chain(w.drafts, s);
    if w.drafts[d].status.Ready? {
      assert d in ReadyOf(w.drafts, s);
    }
  }

  lemma OneActiveEach(w: World, limits: Limits)
    requires Inv(w, limits)
    ensures OneActive(w.drafts)
  {
    hide Indexed, Lockstep, QuotaExact, ChargedOnce, CancelsStick, Approved, Leased, Targeted, Numbered, Budgeted,
      Capped, Checkpointed, Announced, ActiveSound, OneActive, Chain, DraftSound;
  }
}
