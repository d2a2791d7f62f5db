/** What every run guarantees about the daily quota, said in terms of the calls that were made. */
module SurveyQuota {
  import opened SurveyModel
  import opened SurveyTransitions
  import opened SurveyInvariants
  import opened SurveyOps
  import opened SurveyPending
  import opened SurveyRuns
  import opened SurveyHistory
  import opened SurveyEvolution
  import opened SurveyQuotaLemmas

  /** The largest limit any create call of `ops` was checked against for `key`, zero when there is none. */
  function LimitUsed(ops: seq<Op>, key: Key): int {
    if ops == [] then 0 else Max(LimitUsed(ops[..|ops| - 1], key), LimitOf(ops[|ops| - 1], key))
  }

  /** The override row of the user, or the configured limit where there is none. */
  function LimitOf(op: Op, key: Key): int {
    if !op.CreateSurvey? || Key(op.user, op.day) != key then 0
    else match op.override
      case Some(n) => n
      case None => op.dailyLimit
  }

  /** The Survey `op` charges to `key`: it is consumed after the step and was not before. */
  ghost predicate Consumes(w: World, limits: Limits, op: Op, s: SurveyId, key: Key) {
    var v := Apply(w, limits, op).next;
    s in w.surveys && s in v.surveys && KeyOf(w.surveys[s]) == key
    && !w.surveys[s].quota.Consumed? && v.surveys[s].quota.Consumed?
  }

  ghost predicate Charges(w: World, limits: Limits, op: Op, key: Key) {
    exists s :: Consumes(w, limits, op, s, key)
  }

  /** How many steps of the run charged a Survey to `key`. */
  ghost function ChargesMade(w: World, limits: Limits, ops: seq<Op>, key: Key): nat {
    if ops == [] then 0
    else
      ChargesMade(w, limits, ops[..|ops| - 1], key)
      + if Charges(Run(w, limits, ops[..|ops| - 1]), limits, ops[|ops| - 1], key) then 1 else 0
  }

  /** How many archive recoveries of the run charged a Survey to `key`. */
  ghost function RecoveriesMade(w: World, limits: Limits, ops: seq<Op>, key: Key): nat {
    if ops == [] then 0
    else
      RecoveriesMade(w, limits, ops[..|ops| - 1], key)
      + if ops[|ops| - 1].RecoverArchivedFailure?
           && Charges(Run(w, limits, ops[..|ops| - 1]), limits, ops[|ops| - 1], key) then 1 else 0
  }

  // ---------- one step ----------

  lemma CeilingStep(w: World, limits: Limits, op: Op, key: Key)
    requires forall k :: k in w.hist.ceilings ==> w.hist.ceilings[k] >= 0
    ensures Get(Apply(w, limits, op).next.hist.ceilings, key, 0) <= Max(Get(w.hist.ceilings, key, 0), LimitOf(op, key))
  {
    hide Apply;
    if !WritesHistory(op) {
      LeavesHistory(w, limits, op);
    } else {
      match op
      case CreateSurvey(_, _, _, _, _, _, _, _) => CreateHistory(w, limits, op);
      case CancelSurvey(_, _) => CancelHistory(w, limits, op);
      case SettleExecution(_, _, _, _, _) => SettleHistory(w, limits, op);
      case RecoverArchivedFailure(_, _, _, _) => RecoverHistory(w, limits, op);
      case CommitJobCheckpoint(_, _, _, _, _) => CommitHistory(w, limits, op);
    }
  }

  lemma ChargedPrefix(charges: seq<Charge>, c: Charge, b: nat)
    ensures Charged(charges + [c], b) <==> Charged(charges, b) || c.birth == b
  {
    assert (charges + [c])[|charges|] == c;
    assert forall i :: 0 <= i < |charges| ==> (charges + [c])[i] == charges[i];
  }

  /** Between two sound states, a Survey became consumed exactly if the charges gained its birth. */
  lemma ConsumedIffCharged(w: World, v: World, s: SurveyId)
    requires ChargedOnce(w.surveys, w.hist) && ChargedOnce(v.surveys, v.hist)
    requires s in w.surveys && s in v.surveys && v.surveys[s].birth == w.surveys[s].birth
    ensures var b := w.surveys[s].birth;
            !w.surveys[s].quota.Consumed? && v.surveys[s].quota.Consumed?
            <==> !Charged(w.hist.charges, b) && Charged(v.hist.charges, b)
  {
    hide Charged;
  }

  lemma ChargesSnoc(charges: seq<Charge>, c: Charge, key: Key)
    ensures ChargesTo(charges + [c], key) == ChargesTo(charges, key) + if c.key == key then 1 else 0
  {
    assert (charges + [c])[..|charges|] == charges;
  }

  /** What one more charge says: the Survey it names is the only one that became consumed. */
  lemma OneCharge(w: World, limits: Limits, op: Op, s: SurveyId, key: Key)
    requires Sound(w, limits) && s in w.surveys && s in Apply(w, limits, op).next.surveys
    requires Apply(w, limits, op).next.hist.charges
          == w.hist.charges + [Charge(w.surveys[s].birth, KeyOf(w.surveys[s]))]
    ensures Charges(w, limits, op, key) <==> KeyOf(w.surveys[s]) == key
  {
    hide Inv, Pending, Apply, Charged;
    var v := Apply(w, limits, op).next;
    var c := Charge(w.surveys[s].birth, KeyOf(w.surveys[s]));
    ApplyKeeps(w, limits, op);
    BirthsOf(w, limits);
    BirthsOf(v, limits);
    StepSurvives(w, limits, op);
    NotYetCharged(w.hist.charges, c, v.surveys, v.hist);
    forall t | t in w.surveys && t in v.surveys
      ensures !w.surveys[t].quota.Consumed? && v.surveys[t].quota.Consumed? <==> t == s
    {
      ConsumedIffCharged(w, v, t);
      ChargedPrefix(w.hist.charges, c, w.surveys[t].birth);
    }
    if KeyOf(w.surveys[s]) == key {
      assert Consumes(w, limits, op, s, key);
    }
  }

  lemma NoCharge(w: World, limits: Limits, op: Op, key: Key)
    requires Sound(w, limits) && Apply(w, limits, op).next.hist.charges == w.hist.charges
    ensures !Charges(w, limits, op, key)
  {
    hide Inv, Pending, Apply, Charged;
    var v := Apply(w, limits, op).next;
    ApplyKeeps(w, limits, op);
    BirthsOf(w, limits);
    BirthsOf(v, limits);
    StepSurvives(w, limits, op);
    forall s | s in w.surveys && s in v.surveys
      ensures !Consumes(w, limits, op, s, key)
    {
      ConsumedIffCharged(w, v, s);
    }
  }

  lemma NotYetCharged(charges: seq<Charge>, c: Charge, surveys: map<SurveyId, Survey>, h: History)
    requires ChargedOnce(surveys, h) && h.charges == charges + [c]
    ensures !Charged(charges, c.birth)
  {
    forall i | 0 <= i < |charges|
      ensures charges[i].birth != c.birth
    {
      assert h.charges[i] == charges[i] && h.charges[|charges|] == c;
    }
  }

  /** The charged Survey's row is still there after the step that charged it. */
  lemma BilledStays(w: World, limits: Limits, op: Op)
    requires op.SettleExecution? || op.RecoverArchivedFailure?
    requires Attached(w, op.j)
    ensures w.jobs[op.j].survey in Apply(w, limits, op).next.surveys
  {
    hide Create, RequestDraft, ManualDraft, CompleteDraft, FailDraft, RecoverDraft, Start, Cancel, Delete,
      FinishArchive, DeferArchive, MarkWorkspaceMissing, RecoverJob, RepairEvidence, SetSending, Reserve, Fetch,
      TryNext, MarkLaunching, LaunchFailed, MarkLaunched, ClaimDraft, ClaimJob, CommitCheckpoint, Heartbeat,
      AttemptSucceeded, AttemptStopped, Tick, Settled;
  }

  /** The charges of a key grow by one exactly in the steps that consume one of its Surveys. */
  lemma ChargeStep(w: World, limits: Limits, op: Op, key: Key)
    requires Sound(w, limits)
    ensures var h := Apply(w, limits, op).next.hist;
            && ChargesTo(h.charges, key)
               == ChargesTo(w.hist.charges, key) + (if Charges(w, limits, op, key) then 1 else 0)
            && Get(h.recoveries, key, 0)
               == Get(w.hist.recoveries, key, 0)
                  + if op.RecoverArchivedFailure? && Charges(w, limits, op, key) then 1 else 0
  {
    hide Inv, Pending, Apply, Charges, ChargesTo;
    var h, h' := w.hist, Apply(w, limits, op).next.hist;
    if !WritesHistory(op) {
      LeavesHistory(w, limits, op);
    } else {
      match op
      case CreateSurvey(_, _, _, _, _, _, _, _) => CreateHistory(w, limits, op);
      case CancelSurvey(_, _) => CancelHistory(w, limits, op);
      case SettleExecution(_, _, _, _, _) => SettleHistory(w, limits, op);
      case RecoverArchivedFailure(_, _, _, _) => RecoverHistory(w, limits, op);
      case CommitJobCheckpoint(_, _, _, _, _) => CommitHistory(w, limits, op);
    }
    if h'.charges == h.charges {
      NoCharge(w, limits, op, key);
    } else {
      var s := w.jobs[op.j].survey;
      BilledStays(w, limits, op);
      OneCharge(w, limits, op, s, key);
      ChargesSnoc(h.charges, Charge(w.surveys[s].birth, KeyOf(w.surveys[s])), key);
    }
  }

  // ---------- whole runs ----------

  lemma Quota(w: World, limits: Limits)
    requires Inv(w, limits)
    ensures QuotaExact(w.usage, w.surveys, w.hist)
  {
    hide Indexed, Lockstep, QuotaExact, ChargedOnce, CancelsStick, DraftChain, Approved, Leased, Targeted, Numbered,
      Budgeted, Capped, Checkpointed, Announced;
  }

  lemma {:induction false} HistoryOfRun(limits: Limits, ops: seq<Op>, key: Key)
    ensures var w := Run(EMPTY, limits, ops);
            && Sound(w, limits)
            && ChargesTo(w.hist.charges, key) == ChargesMade(EMPTY, limits, ops, key)
            && Get(w.hist.recoveries, key, 0) == RecoveriesMade(EMPTY, limits, ops, key)
            && Get(w.hist.ceilings, key, 0) <= LimitUsed(ops, key)
    decreases |ops|
  {
    hide Inv, Pending, Apply, Charges, ChargesTo;
    EmptySound(limits);
    RunKeeps(EMPTY, limits, ops);
    if ops == [] {
      assert ChargesTo([], key) == 0 by {
        ChargesOfNone(key);
      }
    } else {
      var front, op := ops[..|ops| - 1], ops[|ops| - 1];
      var u := Run(EMPTY, limits, front);
      HistoryOfRun(limits, front, key);
      RunSnoc(EMPTY, limits, ops);
      ChargeStep(u, limits, op, key);
      Quota(u, limits);
      CeilingsSound(u);
      CeilingStep(u, limits, op, key);
    }
  }

  lemma ChargesOfNone(key: Key)
    ensures ChargesTo([], key) == 0
  {
  }

  lemma CeilingsSound(w: World)
    requires QuotaExact(w.usage, w.surveys, w.hist)
    ensures forall k :: k in w.hist.ceilings ==> w.hist.ceilings[k] >= 0
  {
    hide Counts;
  }

  lemma RowCounts(w: World, key: Key)
    requires QuotaExact(w.usage, w.surveys, w.hist)
    ensures var row := Get(w.usage, key, Usage(0, 0));
            && row.reserved == |Reservations(w.surveys, key)|
            && row.succeeded == ChargesTo(w.hist.charges, key)
            && (key in w.usage ==>
                  row.reserved + row.succeeded <= Get(w.hist.ceilings, key, 0) + Get(w.hist.recoveries, key, 0))
  {
    if key !in w.usage {
      NoRowNoCount(w.usage, w.surveys, w.hist, key);
    }
  }

  lemma NonNegativeLimit(ops: seq<Op>, key: Key)
    ensures LimitUsed(ops, key) >= 0
  {
  }

  /**
   After any run of transactions, the usage row of a user and day counts the live reservations and
   every charge the run made, deleted Surveys included, and stays within the largest limit a create
   was admitted under plus one for each archive recovery.
   */
  lemma QuotaConservation(limits: Limits, ops: seq<Op>, key: Key)
    ensures var w := Run(EMPTY, limits, ops);
            var row := Get(w.usage, key, Usage(0, 0));
            && row.reserved == |Reservations(w.surveys, key)|
            && row.succeeded == ChargesMade(EMPTY, limits, ops, key)
            && row.reserved + row.succeeded <= LimitUsed(ops, key) + RecoveriesMade(EMPTY, limits, ops, key)
  {
    hide Inv, Run, QuotaExact, ChargesTo, Reservations, ChargesMade, RecoveriesMade;
    HistoryOfRun(limits, ops, key);
    var w := Run(EMPTY, limits, ops);
    Quota(w, limits);
    RowCounts(w, key);
    NonNegativeLimit(ops, key);
    assert key !in w.usage ==> Get(w.usage, key, Usage(0, 0)) == Usage(0, 0);
  }
}
