/** How the recorded history moves: only five transactions write it, and it only grows. */
module SurveyHistory {
  import opened SurveyModel
  import opened SurveyTransitions
  import opened SurveyOps
  import opened SurveyPending
  import opened SurveyRuns

  /** The transactions that write history: charges, cancels, checkpoints, births. */
  predicate WritesHistory(op: Op) {
    op.CreateSurvey? || op.CancelSurvey? || op.SettleExecution? || op.RecoverArchivedFailure? || op.CommitJobCheckpoint?
  }

  lemma OwnerLeavesHistory(w: World, limits: Limits, op: Op)
    requires OfOwner(op) && !WritesHistory(op)
    ensures Apply(w, limits, op).next.hist == w.hist
  {
    hide Settle, FinishArchive, DeferArchive, MarkWorkspaceMissing, RecoverJob, RecoverArchived, RepairEvidence,
      SetSending, Reserve, Fetch, TryNext, MarkLaunching, LaunchFailed, MarkLaunched, ClaimDraft, ClaimJob,
      CommitCheckpoint, Heartbeat, AttemptSucceeded, AttemptStopped, Tick, Create, Cancel, Settled;
  }

  lemma ExecutionLeavesHistory(w: World, limits: Limits, op: Op)
    requires OfExecution(op) && !WritesHistory(op)
    ensures Apply(w, limits, op).next.hist == w.hist
  {
    hide Create, RequestDraft, ManualDraft, CompleteDraft, FailDraft, RecoverDraft, Start, Cancel, Delete, Settle,
      RecoverArchived, Reserve, Fetch, TryNext, MarkLaunching, LaunchFailed, MarkLaunched, ClaimDraft, ClaimJob,
      CommitCheckpoint, Heartbeat, AttemptSucceeded, AttemptStopped, Tick, Settled;
  }

  lemma LeavesHistory(w: World, limits: Limits, op: Op)
    requires !WritesHistory(op)
    ensures Apply(w, limits, op).next.hist == w.hist
  {
    hide Apply;
    if OfPass(op) {
      PassShape(w, limits, op);
    } else if OfOwner(op) {
      OwnerLeavesHistory(w, limits, op);
    } else if OfExecution(op) {
      ExecutionLeavesHistory(w, limits, op);
    } else if OfLaunch(op) {
      LaunchAside(w, limits, op);
    } else {
      WorkAside(w, limits, op);
    }
  }

  ghost predicate HistoryGrows(h: History, h': History) {
    && h.births <= h'.births
    && h.charges <= h'.charges
    && h.cancels <= h'.cancels
    && forall b :: CommitsOf(h, b) <= CommitsOf(h', b)
  }

  lemma CreateHistory(w: World, limits: Limits, op: Op)
    requires op.CreateSurvey?
    ensures var h, step := w.hist, Apply(w, limits, op);
            step.next.hist == if !step.reply.Done? then h else h.(births := h.births + 1, ceilings := h.ceilings[
              Key(op.user, op.day) := Max(Get(h.ceilings, Key(op.user, op.day), 0),
                                          EffectiveLimit(op.override, op.dailyLimit))])
  {
  }

  lemma CancelHistory(w: World, limits: Limits, op: Op)
    requires op.CancelSurvey?
    ensures var h, step := w.hist, Apply(w, limits, op);
            step.next.hist
            == if step.reply.Done? && op.s in w.surveys && w.surveys[op.s].status.Running?
               then h.(cancels := h.cancels + {w.surveys[op.s].birth}) else h
  {
    hide CancelledDrafts, Settled;
  }

  lemma SettleHistory(w: World, limits: Limits, op: Op)
    requires op.SettleExecution?
    ensures var h, step := w.hist, Apply(w, limits, op);
            step.next.hist == h
            || (step.reply.Done? && Attached(w, op.j) && !w.jobs[op.j].cancelRequested
                && op.outcome.Succeeded? && op.chargeable
                && step.next.hist == Bill(h, w.surveys[w.jobs[op.j].survey], true))
  {
    hide Settled;
  }

  lemma RecoverHistory(w: World, limits: Limits, op: Op)
    requires op.RecoverArchivedFailure?
    ensures var h, h' := w.hist, Apply(w, limits, op).next.hist;
            h' == h
            || (Apply(w, limits, op).reply.Done? && Attached(w, op.j)
                && var survey := w.surveys[w.jobs[op.j].survey];
                   h' == Bill(h, survey, true).(recoveries := h.recoveries[
                           KeyOf(survey) := Get(h.recoveries, KeyOf(survey), 0) + 1]))
  {
  }

  lemma CommitHistory(w: World, limits: Limits, op: Op)
    requires op.CommitJobCheckpoint?
    ensures var h, h' := w.hist, Apply(w, limits, op).next.hist;
            h' == h
            || (Apply(w, limits, op).reply.Done? && OwnsJob(w, op.j, op.a) && op.a in w.attempts
                && var b := if w.jobs[op.j].survey in w.surveys then w.surveys[w.jobs[op.j].survey].birth else 0;
                   h' == h.(commits := h.commits[b := CommitsOf(h, b)
                           + [Commit(op.position + 1, op.a, w.attempts[op.a].number, op.stage, op.pointer)]]))
  {
  }

  /** No transaction takes back a charge, an accepted cancel or a committed checkpoint. */
  lemma StepGrows(w: World, limits: Limits, op: Op)
    ensures HistoryGrows(w.hist, Apply(w, limits, op).next.hist)
  {
    hide Apply;
    if !WritesHistory(op) {
      LeavesHistory(w, limits, op);
    } else {
      match op
      case CreateSurvey(_, _, _, _, _, _, _, _) => CreateHistory(w, limits, op);
      case CancelSurvey(_, _) => CancelHistory(w, limits, op);
      case SettleExecution(_, _, _, _, _) => SettleHistory(w, limits, op);
      case RecoverArchivedFailure(_, _, _, _) => RecoverHistory(w, limits, op);
      case CommitJobCheckpoint(_, _, _, _, _) => CommitHistory(w, limits, op);
    }
  }

  lemma GrowsFurther(a: History, b: History, c: History)
    requires HistoryGrows(a, b) && HistoryGrows(b, c)
    ensures HistoryGrows(a, c)
  {
    hide CommitsOf;
    forall n
      ensures CommitsOf(a, n) <= CommitsOf(c, n)
    {
      assert CommitsOf(a, n) <= CommitsOf(b, n) <= CommitsOf(c, n);
    }
  }

  lemma {:induction false} RunGrows(w: World, limits: Limits, ops: seq<Op>)
    ensures HistoryGrows(w.hist, Run(w, limits, ops).hist)
    decreases |ops|
  {
    hide Apply, HistoryGrows;
    if ops == [] {
      assert HistoryGrows(w.hist, w.hist) by {
        SameGrows(w.hist);
      }
    } else {
      var v := Apply(w, limits, ops[0]).next;
      StepGrows(w, limits, ops[0]);
      RunGrows(v, limits, ops[1..]);
      GrowsFurther(w.hist, v.hist, Run(v, limits, ops[1..]).hist);
    }
  }

  lemma SameGrows(h: History)
    ensures HistoryGrows(h, h)
  {
  }

  lemma RunSnoc(w: World, limits: Limits, ops: seq<Op>)
    requires ops != []
    ensures Run(w, limits, ops) == Apply(Run(w, limits, ops[..|ops| - 1]), limits, ops[|ops| - 1]).next
  {
    hide Apply;
    var front, last := ops[..|ops| - 1], [ops[|ops| - 1]];
    assert ops == front + last;
    RunAppend(w, limits, front, last);
    var v := Run(w, limits, front);
    assert Run(v, limits, last) == Run(Apply(v, limits, last[0]).next, limits, last[1..]);
  }
}
