/**
 Working off the reviewed scope.  A pass enqueues the scope rows that still need work; the adoption
 repeats passes until none is left, which ends exactly when no job runs ahead of its scope row.
 */
module TargetAdoption {
  import opened Ledger
  import opened TargetQueue
  import opened TargetFencing

  /** The rows a pass selects: no job, an older job or another configuration, and no receipt yet. */
  predicate NeedsWork(q: Queue, profile: Profile, p: Paper) {
    p in q.scope
    && (p !in q.jobs || q.jobs[p].version < q.scope[p].version || q.jobs[p].profile != profile)
    && Key(p, q.scope[p].version, profile) !in q.receipts
  }

  function Matched(q: Queue, profile: Profile): set<Paper> {
    set p | p in q.scope && NeedsWork(q, profile, p)
  }

  /** Enqueueing the scope's version cannot touch a job that is already past it. */
  predicate Stuck(q: Queue, profile: Profile, p: Paper) {
    NeedsWork(q, profile, p) && p in q.jobs && q.jobs[p].version > q.scope[p].version
  }

  /** One row of an applied pass. */
  function Resumed(q: Queue, profile: Profile, p: Paper, maxAttempts: nat): (Queue, bool)
    requires p in q.scope
  {
    Enqueue(q, p, q.scope[p].version, Backfill, profile, maxAttempts)
  }

  /** A row that is not stuck is enqueued and stops matching; a stuck row stays as it is; no other row is concerned. */
  lemma RowResumed(q: Queue, profile: Profile, p: Paper, maxAttempts: nat)
    requires NeedsWork(q, profile, p)
    ensures var (q', changed) := Resumed(q, profile, p, maxAttempts);
            && changed == !Stuck(q, profile, p)
            && Matched(q', profile) == (if changed then Matched(q, profile) - {p} else Matched(q, profile))
            && q'.scope == q.scope && q'.receipts == q.receipts
            && (forall r :: r != p ==> Stuck(q', profile, r) == Stuck(q, profile, r))
            && (!changed ==> q' == q)
  {
    var (q', changed) := Resumed(q, profile, p, maxAttempts);
    forall r | r != p
      ensures NeedsWork(q', profile, r) == NeedsWork(q, profile, r)
    {
    }
  }

  /** A row that is worked off gets its paper a claimable job at the scope's version; a new one is backfill. */
  lemma ResumedIsOffered(q: Queue, profile: Profile, p: Paper, maxAttempts: nat)
    requires NeedsWork(q, profile, p) && !Stuck(q, profile, p)
    ensures var q' := Resumed(q, profile, p, maxAttempts).0;
            && Claimable(q', profile, p) && q'.jobs[p].version == q.scope[p].version
            && q' == q.(jobs := q'.jobs) && q'.jobs - {p} == q.jobs - {p}
            && (p !in q.jobs ==> q'.jobs[p].source.Backfill?)
            && (p in q.jobs ==> q'.jobs[p].priority <= q.jobs[p].priority)
  {
  }

  /**
   Once a paper is installed at its scope's version, no pass selects it again, whatever happens, until the scope asks
   for a newer version or the configuration changes.
   */
  lemma InstalledForGood(q: Queue, p: Paper, profile: Profile, ops: seq<Op>)
    requires Inv(q) && p in q.scope && Key(p, q.scope[p].version, profile) in q.receipts
    ensures var v := Run(q, ops);
            p in v.scope && v.scope[p].version == q.scope[p].version ==> p !in Matched(v, profile)
  {
    hide Inv, Run;
    RunForward(q, ops);
  }

  // ---------- what keeps rows from getting stuck ----------

  /** Every job is in scope, at a version the scope has reached. */
  ghost predicate ScopeLeads(q: Queue) {
    forall p :: p in q.jobs ==> p in q.scope && q.jobs[p].version <= q.scope[p].version
  }

  lemma LeadingNeverStuck(q: Queue, profile: Profile, p: Paper)
    requires ScopeLeads(q)
    ensures !Stuck(q, profile, p)
  {
  }

  /** Work is enqueued only for versions already recorded in the scope. */
  predicate RecordedFirst(q: Queue, op: Op) {
    op.DoEnqueue? ==> op.p in q.scope && op.version <= q.scope[op.p].version
  }

  lemma ScopeStaysAhead(q: Queue, op: Op)
    requires ScopeLeads(q) && RecordedFirst(q, op)
    ensures ScopeLeads(Apply(q, op))
  {
    hide Next, Exhausted;
  }

  ghost predicate RecordedFirstRun(q: Queue, ops: seq<Op>)
    decreases |ops|
  {
    ops == [] || (RecordedFirst(q, ops[0]) && RecordedFirstRun(Apply(q, ops[0]), ops[1..]))
  }

  /** Recording scope before enqueueing keeps every scope row workable, whatever else happens to the queue. */
  lemma {:induction false} NeverStuck(q: Queue, ops: seq<Op>, profile: Profile, p: Paper)
    requires ScopeLeads(q) && RecordedFirstRun(q, ops)
    ensures ScopeLeads(Run(q, ops)) && !Stuck(Run(q, ops), profile, p)
    decreases |ops|
  {
    hide Apply, ScopeLeads, RecordedFirst, Stuck;
    if ops == [] {
      LeadingNeverStuck(q, profile, p);
    } else {
      ScopeStaysAhead(q, ops[0]);
      NeverStuck(Apply(q, ops[0]), ops[1..], profile, p);
    }
  }

  // ---------- what a stuck row does to the adoption ----------

  /** A pass enqueues scope rows at the scope's version; nothing else is at work during an adoption. */
  predicate OfPass(q: Queue, op: Op, profile: Profile) {
    op.DoEnqueue? && op.profile == profile && op.p in q.scope && op.version == q.scope[op.p].version
    && op.source.Backfill?
  }

  ghost predicate Passes(q: Queue, ops: seq<Op>, profile: Profile)
    decreases |ops|
  {
    ops == [] || (OfPass(q, ops[0], profile) && Passes(Apply(q, ops[0]), ops[1..], profile))
  }

  /** However many passes are made, a stuck row still matches: the adoption loop never ends. */
  lemma {:induction false} StuckForever(q: Queue, ops: seq<Op>, profile: Profile, p: Paper)
    requires Stuck(q, profile, p) && Passes(q, ops, profile)
    ensures Stuck(Run(q, ops), profile, p) && Matched(Run(q, ops), profile) != {}
    decreases |ops|
  {
    if ops == [] {
      assert p in Matched(q, profile);
    } else {
      assert Stuck(Apply(q, ops[0]), profile, p);
      StuckForever(Apply(q, ops[0]), ops[1..], profile, p);
    }
  }

  /**
   Enqueueing a manual retry of a paper without recording its scope can strand the scope row: after the
   configuration changes, the row matches and no pass can move it.
   */
  lemma ManualRetryCanStick()
    ensures var q := EMPTY.(scope := map[7 := Row(1, 0, 0, {})]);
            var later := Enqueue(q, 7, 2, Manual, 1, 3).0;
            !Stuck(q, 5, 7) && Stuck(later, 5, 7)
  {
  }
}
