/** How an execution ends, is archived and is repaired: what each step is answered and what it leaves. */
module SurveyResults {
  import opened Wrappers
  import opened SurveyModel
  import opened SurveyTransitions
  import opened SurveyInvariants
  import opened SurveyPending
  import opened SurveyRuns
  import opened SurveyQuota
  import opened SurveySteps
  import opened SurveyGuarantees

  // ---------- settling ----------

  lemma OneReservationLess(surveys: map<SurveyId, Survey>, s: SurveyId, v: Survey)
    requires s in surveys && surveys[s].quota.Reserved? && !v.quota.Reserved?
    ensures |Reservations(surveys[s := v], KeyOf(surveys[s]))| == |Reservations(surveys, KeyOf(surveys[s]))| - 1
  {
    var key := KeyOf(surveys[s]);
    assert Reservations(surveys, key) == Reservations(surveys[s := v], key) + {s};
  }

  lemma OneChargeMore(h: History, s: Survey, charge: bool)
    ensures ChargesTo(Bill(h, s, charge).charges, KeyOf(s)) == ChargesTo(h.charges, KeyOf(s)) + if charge then 1 else 0
  {
    if charge {
      ChargesSnoc(h.charges, Charge(s.birth, KeyOf(s)), KeyOf(s));
    }
  }

  /** The reservation of Survey `s` is given back, and turned into a charge exactly if `charge`. */
  ghost predicate GivenBack(w: World, v: World, s: SurveyId, charge: bool)
    requires s in w.surveys
  {
    var key := KeyOf(w.surveys[s]);
    && s in v.surveys && w.surveys[s].quota.Reserved?
    && v.surveys[s].quota == (if charge then QuotaState.Consumed else QuotaState.Released)
    && |Reservations(v.surveys, key)| == |Reservations(w.surveys, key)| - 1
    && ChargesTo(v.hist.charges, key) == ChargesTo(w.hist.charges, key) + if charge then 1 else 0
  }

  /** The Survey and its job wait for the archive with this outcome and error, and can be archived at once. */
  predicate Ending(v: World, j: JobId, outcome: Outcome, error: Option<ErrorCode>) {
    && Attached(v, j) && v.surveys[v.jobs[j].survey].status.Archiving? && v.surveys[v.jobs[j].survey].error == error
    && v.jobs[j].status.Archiving? && v.jobs[j].outcome == Some(outcome) && v.jobs[j].error == error
    && v.jobs[j].nextArchive == Some(v.now)
  }

  /**
   A settled execution waits for its archive: cancelled and unpaid if that was asked for, otherwise with the
   outcome reported, and charged exactly if that is a success that counts.  The worker keeps its lease.
   */
  lemma SettleTakesEffect(w: World, limits: Limits, j: JobId, worker: AttemptId, outcome: Outcome,
                          error: Option<ErrorCode>, chargeable: bool)
    requires Reachable(w, limits) && Settle(w, j, worker, outcome, error, chargeable).reply.Done?
    ensures var v, job := Settle(w, j, worker, outcome, error, chargeable).next, w.jobs[j];
            && GivenBack(w, v, job.survey, !job.cancelRequested && outcome.Succeeded? && chargeable)
            && Ending(v, j, if job.cancelRequested then Outcome.Cancelled else outcome,
                      if job.cancelRequested || outcome.Cancelled? then None else error)
            && OwnsJob(v, j, worker) && v.drafts == w.drafts && v.attempts == w.attempts && v.notices == w.notices
  {
    hide Inv, Pending, Settled, Reservations, ChargesTo, Bill;
    ReachableSound(w, limits);
    JobsSurvey(w, limits, j);
    var v, job := Settle(w, j, worker, outcome, error, chargeable).next, w.jobs[j];
    OneReservationLess(w.surveys, job.survey, v.surveys[job.survey]);
    OneChargeMore(w.hist, w.surveys[job.survey], !job.cancelRequested && outcome.Succeeded? && chargeable);
  }

  /** Settling again is harmless, as long as it says the same; a cancel that was asked for overrules what it says. */
  lemma SettleRepeated(w: World, limits: Limits, j: JobId, worker: AttemptId, outcome: Outcome,
                       error: Option<ErrorCode>, chargeable: bool, outcome': Outcome, error': Option<ErrorCode>,
                       chargeable': bool)
    requires Reachable(w, limits) && Settle(w, j, worker, outcome, error, chargeable).reply.Done?
    ensures var v := Settle(w, j, worker, outcome, error, chargeable).next;
            Settle(v, j, worker, outcome', error', chargeable')
            == Step(v, if w.jobs[j].cancelRequested || outcome' == outcome then Unchanged else Refused(LeaseLost))
  {
    hide Reachable, Settled, Bill;
  }

  /** The sweep's outcome: the worker is lost, unless a cancel was asked for; nothing is charged, the lease is gone. */
  lemma SweepTakesEffect(w: World, limits: Limits, j: JobId)
    requires Reachable(w, limits) && RecoverJob(w, j).reply.Done?
    ensures var v, job := RecoverJob(w, j).next, w.jobs[j];
            && GivenBack(w, v, job.survey, false)
            && Ending(v, j, if job.cancelRequested then Outcome.Cancelled else Outcome.Failed,
                      if job.cancelRequested then None else Some(ErrorCode.WorkerLost))
            && v.jobs[j].lease.None? && v.drafts == w.drafts && v.attempts == w.attempts && v.notices == w.notices
  {
    hide Inv, Pending, Settled, Reservations, ChargesTo;
    ReachableSound(w, limits);
    JobsSurvey(w, limits, j);
    OneReservationLess(w.surveys, w.jobs[j].survey, RecoverJob(w, j).next.surveys[w.jobs[j].survey]);
  }

  /** After the sweep the lost worker can neither settle with another outcome nor archive. */
  lemma SweptWorkerIsOut(w: World, limits: Limits, j: JobId, worker: AttemptId, outcome: Outcome,
                         error: Option<ErrorCode>, chargeable: bool, storage: (UserId, JobId), manifest: Manifest)
    requires Reachable(w, limits) && RecoverJob(w, j).reply.Done?
    ensures var v := RecoverJob(w, j).next;
            && Settle(v, j, worker, outcome, error, chargeable).next == v
            && FinishArchive(v, j, worker, storage, manifest) == Step(v, Refused(LeaseLost))
  {
    hide Reachable, Settled;
  }

  // ---------- archiving ----------

  /** Only the owner of a job that waits for its archive can finish it, put it off, or report its workspace missing. */
  lemma ArchiveAccepted(w: World, limits: Limits, j: JobId, worker: AttemptId, storage: (UserId, JobId),
                        manifest: Manifest, retryAfter: int, code: ErrorCode)
    requires Reachable(w, limits)
    ensures var reply := if OwnsJob(w, j, worker) && w.jobs[j].status.Archiving? then Done else Refused(LeaseLost);
            && FinishArchive(w, j, worker, storage, manifest).reply == reply
            && DeferArchive(w, j, worker, retryAfter, code).reply == reply
            && MarkWorkspaceMissing(w, j, worker).reply == reply
  {
    hide Inv, Pending, Notified;
    ReachableSound(w, limits);
    if j in w.jobs {
      JobsSurvey(w, limits, j);
    }
  }

  /** A finished archive gives the Survey the status of its outcome, for good: nothing is offered or leased any more. */
  lemma FinishTakesEffect(w: World, limits: Limits, j: JobId, worker: AttemptId, storage: (UserId, JobId),
                          manifest: Manifest)
    requires Reachable(w, limits) && FinishArchive(w, j, worker, storage, manifest).reply.Done?
    ensures j in w.jobs && w.jobs[j].outcome.Some? && w.jobs[j].survey in w.surveys
    ensures var v, s := FinishArchive(w, j, worker, storage, manifest).next, w.jobs[j].survey;
            && s in v.surveys && j in v.jobs && v.surveys - {s} == w.surveys - {s} && v.jobs - {j} == w.jobs - {j}
            && (v.surveys[s].status.Succeeded? <==> w.jobs[j].outcome.value.Succeeded?)
            && (v.surveys[s].status.Failed? <==> w.jobs[j].outcome.value.Failed?)
            && (v.surveys[s].status.Cancelled? <==> w.jobs[j].outcome.value.Cancelled?)
            && v.surveys[s].quota == w.surveys[s].quota && v.surveys[s].error == w.surveys[s].error
            && v.jobs[j].status.Finished? && v.jobs[j].outcome == w.jobs[j].outcome && v.jobs[j].lease.None?
            && v.jobs[j].storage == Some(storage) && v.jobs[j].manifest == Some(manifest)
            && !Listed(v, FullWork, j) && v.usage == w.usage && v.hist == w.hist
  {
    hide Inv, Pending, Notified, ActiveOn;
    ReachableSound(w, limits);
    JobsSurvey(w, limits, j);
  }

  /** An archive that is put off waits without a lease, counts the try and says why; the outcome stands. */
  lemma DeferTakesEffect(w: World, j: JobId, worker: AttemptId, retryAfter: int, code: ErrorCode)
    requires DeferArchive(w, j, worker, retryAfter, code).reply.Done?
    ensures j in w.jobs
    ensures var v := DeferArchive(w, j, worker, retryAfter, code).next;
            && v == w.(jobs := v.jobs) && j in v.jobs && v.jobs - {j} == w.jobs - {j}
            && v.jobs[j].status == w.jobs[j].status && v.jobs[j].outcome == w.jobs[j].outcome
            && v.jobs[j].lease.None? && v.jobs[j].archiveAttempts == w.jobs[j].archiveAttempts + 1
            && v.jobs[j].nextArchive == Some(w.now + retryAfter) && v.jobs[j].error == Some(code)
  {
  }

  /** With its workspace missing an execution ends failed, whatever it was settled as, and says so. */
  lemma MissingEndsFailed(w: World, limits: Limits, j: JobId, worker: AttemptId, storage: (UserId, JobId),
                          manifest: Manifest)
    requires Reachable(w, limits) && MarkWorkspaceMissing(w, j, worker).reply.Done?
    ensures j in w.jobs && w.jobs[j].survey in w.surveys
    ensures var step := FinishArchive(MarkWorkspaceMissing(w, j, worker).next, j, worker, storage, manifest);
            var v, s := step.next, w.jobs[j].survey;
            && step.reply.Done? && s in v.surveys && j in v.jobs
            && v.surveys[s].status.Failed? && v.surveys[s].error == Some(WorkspaceMissing)
            && v.jobs[j].error == Some(WorkspaceMissing) && v.surveys[s].quota == w.surveys[s].quota
  {
    hide Inv, Pending, Notified;
    ReachableSound(w, limits);
    JobsSurvey(w, limits, j);
  }

  // ---------- repairing an archived result ----------

  /** The archive belongs to the job: its own storage, and a replacement made for it. */
  ghost predicate OwnArchive(w: World, j: JobId, expected: Manifest, replacement: Option<Manifest>)
    requires j in w.jobs && w.jobs[j].survey in w.surveys
  {
    var user := w.surveys[w.jobs[j].survey].user;
    && w.jobs[j].manifest == Some(expected) && expected == Primary(user, j) && w.jobs[j].storage == Some((user, j))
    && (replacement.Some? ==> exists n :: replacement.value == Overlay(user, j, n))
  }

  lemma OverlayHasDigest(survey: Survey, j: JobId, m: Manifest)
    ensures OwnOverlay(survey, j, m) <==> exists n :: m == Overlay(survey.user, j, n)
  {
    if OwnOverlay(survey, j, m) {
      assert m == Overlay(survey.user, j, m.digest);
    }
  }

  /**
   A failed result is recovered exactly if it failed, uncharged, with that finalization error, its archive is the
   one the operator looked at, and its failure mail is not being sent.
   */
  lemma RecoveryGoesThrough(w: World, limits: Limits, j: JobId, expected: Manifest, code: ErrorCode,
                            replacement: Option<Manifest>)
    requires Reachable(w, limits) && j in w.jobs
    ensures w.jobs[j].survey in w.surveys
    ensures var s := w.jobs[j].survey;
            RecoverArchived(w, j, expected, code, replacement).reply.Done?
            <==> code.Recoverable() && w.surveys[s].status.Failed? && w.surveys[s].quota.Released?
                 && w.surveys[s].error == Some(code) && w.jobs[j].error == Some(code)
                 && OwnArchive(w, j, expected, replacement) && !(s in w.notices && w.notices[s].sending)
  {
    hide Inv, Pending;
    ReachableSound(w, limits);
    JobsSurvey(w, limits, j);
    ReservationHolds(w, limits, w.jobs[j].survey, true);
    if replacement.Some? {
      OverlayHasDigest(w.surveys[w.jobs[j].survey], j, replacement.value);
    }
  }

  /** A recovered result has succeeded and is charged once, with the archive the operator chose. */
  lemma RecoveryTakesEffect(w: World, limits: Limits, j: JobId, expected: Manifest, code: ErrorCode,
                            replacement: Option<Manifest>)
    requires Reachable(w, limits) && RecoverArchived(w, j, expected, code, replacement).reply.Done?
    ensures j in w.jobs && w.jobs[j].survey in w.surveys
    ensures var v, s := RecoverArchived(w, j, expected, code, replacement).next, w.jobs[j].survey;
            && s in v.surveys && j in v.jobs && v.surveys - {s} == w.surveys - {s} && v.jobs - {j} == w.jobs - {j}
            && v.surveys[s].status.Succeeded? && v.surveys[s].quota.Consumed? && v.surveys[s].error.None?
            && v.jobs[j].outcome == Some(Outcome.Succeeded) && v.jobs[j].error.None?
            && (replacement.Some? ==> v.jobs[j].manifest == replacement)
            && (replacement.None? ==> v.jobs[j].manifest == w.jobs[j].manifest)
            && ChargesTo(v.hist.charges, KeyOf(w.surveys[s])) == ChargesTo(w.hist.charges, KeyOf(w.surveys[s])) + 1
            && (s in v.notices ==> v.notices[s] == Notice(Outcome.Succeeded, false))
  {
    hide Inv, Pending, ChargesTo, Bill;
    ReachableSound(w, limits);
    JobsSurvey(w, limits, j);
    OneChargeMore(w.hist, w.surveys[w.jobs[j].survey], true);
  }

  /** Recovering again is harmless for the same archive, and refused for any other. */
  lemma RecoveryRepeated(w: World, j: JobId, expected: Manifest, code: ErrorCode, replacement: Option<Manifest>,
                         expected': Manifest, replacement': Option<Manifest>)
    requires RecoverArchived(w, j, expected, code, replacement).reply.Done?
    ensures var v := RecoverArchived(w, j, expected, code, replacement).next;
            var chosen := if replacement.Some? then replacement.value else expected;
            var chosen' := if replacement'.Some? then replacement'.value else expected';
            RecoverArchived(v, j, expected', code, replacement')
            == Step(v, if chosen' == chosen then Unchanged else Refused(ManifestChanged))
  {
    hide OwnStorage, OwnOverlay, Bill;
  }

  /**
   The evidence of a result is repaired exactly if the result succeeded uncharged with degraded quality and its
   archive is the one the operator looked at.
   */
  lemma RepairGoesThrough(w: World, limits: Limits, j: JobId, expected: Manifest, overlay: Manifest)
    requires Reachable(w, limits) && j in w.jobs
    ensures w.jobs[j].survey in w.surveys
    ensures var s := w.jobs[j].survey;
            RepairEvidence(w, j, expected, overlay).reply.Done?
            <==> w.surveys[s].status.Succeeded? && w.surveys[s].quota.Released?
                 && w.surveys[s].error == Some(QualityDegraded) && w.jobs[j].error == Some(QualityDegraded)
                 && OwnArchive(w, j, expected, Some(overlay))
  {
    hide Inv, Pending;
    ReachableSound(w, limits);
    JobsSurvey(w, limits, j);
    OverlayHasDigest(w.surveys[w.jobs[j].survey], j, overlay);
  }

  /** A repaired result is the overlay, without a complaint about its quality; it is not charged. */
  lemma RepairTakesEffect(w: World, j: JobId, expected: Manifest, overlay: Manifest)
    requires RepairEvidence(w, j, expected, overlay).reply.Done?
    ensures j in w.jobs && w.jobs[j].survey in w.surveys
    ensures var v, s := RepairEvidence(w, j, expected, overlay).next, w.jobs[j].survey;
            && s in v.surveys && j in v.jobs && v.surveys - {s} == w.surveys - {s} && v.jobs - {j} == w.jobs - {j}
            && v.jobs[j].manifest == Some(overlay) && v.jobs[j].error.None? && v.surveys[s].error.None?
            && v.surveys[s].status.Succeeded? && v.surveys[s].quota.Released? && v.jobs[j].outcome == w.jobs[j].outcome
            && v.usage == w.usage && v.hist == w.hist && v.notices == w.notices
  {
    hide OwnStorage, OwnOverlay;
  }

  /** Repairing again is harmless for the same overlay, and refused for any other. */
  lemma RepairRepeated(w: World, j: JobId, expected: Manifest, overlay: Manifest, overlay': Manifest)
    requires RepairEvidence(w, j, expected, overlay).reply.Done?
    ensures var v := RepairEvidence(w, j, expected, overlay).next;
            RepairEvidence(v, j, expected, overlay')
            == Step(v, if overlay' == overlay then Unchanged else Refused(ManifestChanged))
  {
  }
}
