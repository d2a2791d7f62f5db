/** What each call on the queue brings about, and how long it stays that way. */
module TargetCalls {
  import opened Wrappers
  import opened Ledger
  import opened TargetQueue
  import opened TargetFencing
  import opened TargetStarvation

  /** The clock stands at `now`. */
  function AtTime(q: Queue, now: Time): Queue {
    q.(now := now)
  }

  /** Only the job of `p` differs, and of that only what the calls of its holder may change. */
  predicate OnlyProgress(q: Queue, q': Queue, p: Paper)
    requires p in q.jobs
  {
    && q' == q.(jobs := q'.jobs) && p in q'.jobs && q'.jobs - {p} == q.jobs - {p}
    && var j, j' := q.jobs[p], q'.jobs[p];
       j' == j.(status := j'.status, lease := j'.lease, attempts := j'.attempts, availableAt := j'.availableAt)
  }

  // ---------- the calls of a holder ----------

  /** A live holder's calls are accepted, and nobody else's; finishing needs the receipt besides. */
  lemma HolderAccepted(q: Queue, p: Paper, owner: Token, seconds: nat, retryAt: Option<Time>)
    ensures var live := p in q.jobs && q.jobs[p].status.Running? && q.jobs[p].lease.Some?
                        && q.jobs[p].lease.value.owner == owner && q.now < q.jobs[p].lease.value.expires;
            && Renew(q, p, owner, seconds).1 == live && Release(q, p, owner).1 == live
            && Fail(q, p, owner, retryAt).1 == live
            && Finish(q, p, owner).1 == (live && Key(p, q.jobs[p].version, q.jobs[p].profile) in q.receipts)
            && (!live ==> Renew(q, p, owner, seconds).0 == q && Release(q, p, owner).0 == q
                          && Fail(q, p, owner, retryAt).0 == q && Finish(q, p, owner).0 == q)
  {
  }

  /** A job failed with a retry time can be claimed exactly from that time on, with the attempts it has spent. */
  lemma FailedRetries(q: Queue, p: Paper, owner: Token, t: Time, now: Time, profile: Profile)
    requires Fail(q, p, owner, Some(t)).1
    ensures p in q.jobs
    ensures var q' := Fail(q, p, owner, Some(t)).0;
            && OnlyProgress(q, q', p) && q'.jobs[p].attempts == q.jobs[p].attempts && !Owned(q', p, owner)
            && (Claimable(AtTime(q', now), profile, p) <==> profile == q.jobs[p].profile && now >= t)
  {
  }

  /** A job failed without a retry time can be claimed by nobody at no time. */
  lemma FailedDies(q: Queue, p: Paper, owner: Token, now: Time, profile: Profile)
    requires Fail(q, p, owner, None).1
    ensures p in q.jobs
    ensures var q' := Fail(q, p, owner, None).0;
            && OnlyProgress(q, q', p) && q'.jobs[p].attempts == q.jobs[p].attempts && q'.jobs[p].status.Dead?
            && !Claimable(AtTime(q', now), profile, p)
  {
  }

  /** A renewed lease lasts as long as was asked for. */
  lemma RenewedLasts(q: Queue, p: Paper, owner: Token, seconds: nat, now: Time)
    requires Renew(q, p, owner, seconds).1
    ensures p in q.jobs
    ensures var q' := Renew(q, p, owner, seconds).0;
            && OnlyProgress(q, q', p) && q'.jobs[p].attempts == q.jobs[p].attempts
            && q'.jobs[p].availableAt == q.jobs[p].availableAt
            && (Owned(AtTime(q', now), p, owner) <==> now < q.now + seconds)
            && (Claimable(AtTime(q', now), q.jobs[p].profile, p) <==> now >= q.now + seconds)
  {
  }

  /** A released job can be claimed at once, and has its attempt back. */
  lemma ReleasedWaits(q: Queue, p: Paper, owner: Token, now: Time)
    requires Release(q, p, owner).1
    ensures p in q.jobs
    ensures var q' := Release(q, p, owner).0;
            && OnlyProgress(q, q', p) && !Owned(q', p, owner)
            && q'.jobs[p].attempts == (if q.jobs[p].attempts == 0 then 0 else q.jobs[p].attempts - 1)
            && (Claimable(AtTime(q', now), q.jobs[p].profile, p) <==> now >= q.now)
  {
  }

  /** A finished job has succeeded and can be claimed by nobody. */
  lemma FinishedRests(q: Queue, p: Paper, owner: Token, now: Time, profile: Profile)
    requires Finish(q, p, owner).1
    ensures p in q.jobs
    ensures var q' := Finish(q, p, owner).0;
            && OnlyProgress(q, q', p) && q'.jobs[p].attempts == q.jobs[p].attempts && q'.jobs[p].status.Succeeded?
            && !Claimable(AtTime(q', now), profile, p)
  {
  }

  /** An operator revives exactly dead jobs: they can be claimed at once and start counting anew. */
  lemma RevivedWaits(q: Queue, p: Paper, now: Time)
    ensures Revive(q, p).1 <==> p in q.jobs && q.jobs[p].status.Dead?
    ensures !Revive(q, p).1 ==> Revive(q, p).0 == q
    ensures var q' := Revive(q, p).0;
            Revive(q, p).1 ==>
              && OnlyProgress(q, q', p) && q'.jobs[p].attempts == 0
              && (q.jobs[p].lease.None? ==> (Claimable(AtTime(q', now), q.jobs[p].profile, p) <==> now >= q.now))
  {
  }

  // ---------- claiming ----------

  /**
   A claim starts one attempt on the job that is first, under a lease of the length asked for.  Besides, it buries
   the jobs of its configuration whose last attempt has run out, and touches no other.
   */
  lemma ClaimStartsAttempt(q: Queue, profile: Profile, seconds: nat, now: Time)
    ensures var (q', claimed) := Claim(q, profile, seconds);
            && q'.claimCount == q.claimCount + (if claimed.Some? then 1 else 0) && q'.jobs.Keys == q.jobs.Keys
            && (forall r :: r in q.jobs && Some(r) != claimed ==>
                  q'.jobs[r] == if Exhausted(q.jobs[r], q.now, profile) then q.jobs[r].(status := Dead, lease := None)
                                else q.jobs[r])
            && (claimed.Some? ==>
                  var p := claimed.value;
                  && p in q.jobs && Claimable(q, profile, p) && !Exhausted(q.jobs[p], q.now, profile)
                  && q'.jobs[p].attempts == q.jobs[p].attempts + 1 && q'.jobs[p].version == q.jobs[p].version
                  && (Owned(AtTime(q', now), p, q.nextToken) <==> now < q.now + seconds))
  {
    hide Next, Ahead, Exhausted, Expired;
    NextExists(Swept(q, profile), profile);
    var next := Next(Swept(q, profile), profile);
    if next.Some? {
      NotBuried(q, profile, next.value);
    }
  }

  lemma NotBuried(q: Queue, profile: Profile, p: Paper)
    requires Claimable(Swept(q, profile), profile, p)
    ensures p in q.jobs && !Exhausted(q.jobs[p], q.now, profile) && Swept(q, profile).jobs[p] == q.jobs[p]
    ensures Claimable(q, profile, p)
  {
  }

  /** How urgent a job is: aged backfill before all else on every fifth claim, otherwise by priority. */
  function Turn(q: Queue, j: Job): int {
    if (q.claimCount + 1) % 5 == 0 && j.source.Backfill? && j.createdAt + 24 * 60 * 60 < q.now then 0 else j.priority
  }

  /** Of all claimable jobs a claim takes the most urgent, then longest available, then oldest, then first by id. */
  lemma ClaimsInOrder(q: Queue, profile: Profile, seconds: nat, r: Paper)
    requires r in q.jobs && Claimable(q, profile, r) && !Exhausted(q.jobs[r], q.now, profile)
    ensures var claimed := Claim(q, profile, seconds).1;
            && claimed.Some? && claimed.value in q.jobs
            && var p := claimed.value;
               var j, k := q.jobs[p], q.jobs[r];
               p == r || Turn(q, j) < Turn(q, k)
               || (Turn(q, j) == Turn(q, k)
                   && (j.availableAt < k.availableAt
                       || (j.availableAt == k.availableAt
                           && (j.createdAt < k.createdAt || (j.createdAt == k.createdAt && p < r)))))
  {
    hide Next, Exhausted;
    var swept := Swept(q, profile);
    assert swept.jobs[r] == q.jobs[r] && Claimable(swept, profile, r);
    NextExists(swept, profile);
    var p := Next(swept, profile).value;
    NotBuried(q, profile, p);
    assert p != r ==> Ahead(swept, p, r);
  }

  // ---------- enqueueing ----------

  /** New papers and what was asked for by hand come first, then revisions, reconciliation, and backfill last. */
  function Rank(source: Source): nat {
    if source.New? || source.Manual? then 0
    else if source.Revision? then 1
    else if source.Reconciliation? then 2 else 3
  }

  /** Of two papers enqueued together, the one of the better source goes first on every turn. */
  lemma EnqueuedInOrder(q: Queue, p: Paper, r: Paper, version: nat, source: Source, source': Source, profile: Profile,
                        maxAttempts: nat)
    requires p !in q.jobs && r !in q.jobs && p != r && Rank(source) < Rank(source')
    ensures var one := Enqueue(q, p, version, source, profile, maxAttempts).0;
            var both := Enqueue(one, r, version, source', profile, maxAttempts).0;
            p in both.jobs && r in both.jobs && Ahead(both, p, r)
  {
  }

  /** The request is for a newer version, or for another configuration of the same version. */
  predicate Restarts(j: Job, version: nat, profile: Profile) {
    version > j.version || (version == j.version && profile != j.profile)
  }

  /** A paper that is new, or that starts over, can be claimed at once, with no attempt spent. */
  lemma EnqueueStarts(q: Queue, p: Paper, version: nat, source: Source, profile: Profile, maxAttempts: nat, now: Time)
    requires p !in q.jobs || Restarts(q.jobs[p], version, profile)
    ensures var (q', changed) := Enqueue(q, p, version, source, profile, maxAttempts);
            && changed && q' == q.(jobs := q'.jobs) && p in q'.jobs && q'.jobs - {p} == q.jobs - {p}
            && q'.jobs[p].version == version && q'.jobs[p].profile == profile && q'.jobs[p].attempts == 0
            && (Claimable(AtTime(q', now), profile, p) <==> now >= q.now)
            && (p !in q.jobs ==>
                  q'.jobs[p].source == source && q'.jobs[p].priority == Priority(source)
                  && q'.jobs[p].maxAttempts == maxAttempts && q'.jobs[p].createdAt == q.now)
            && (p in q.jobs ==>
                  && q'.jobs[p].priority <= q.jobs[p].priority && q'.jobs[p].priority <= Priority(source)
                  && (q'.jobs[p].priority == q.jobs[p].priority || q'.jobs[p].priority == Priority(source))
                  && q'.jobs[p].maxAttempts >= q.jobs[p].maxAttempts && q'.jobs[p].maxAttempts >= maxAttempts
                  && q'.jobs[p].createdAt == q.jobs[p].createdAt
                  && (version > q.jobs[p].version ==> q'.jobs[p].source == source))
  {
  }

  /** A request for what the job already is only makes it more urgent, and leaves whoever works on it alone. */
  lemma EnqueueUrges(q: Queue, p: Paper, source: Source, maxAttempts: nat)
    requires p in q.jobs
    ensures var j := q.jobs[p];
            var (q', changed) := Enqueue(q, p, j.version, source, j.profile, maxAttempts);
            && (changed <==> Priority(source) < j.priority) && (!changed ==> q' == q)
            && (changed ==>
                  && q' == q.(jobs := q'.jobs) && p in q'.jobs && q'.jobs - {p} == q.jobs - {p}
                  && q'.jobs[p].priority == Priority(source) && q'.jobs[p].source == source
                  && q'.jobs[p].maxAttempts >= maxAttempts && q'.jobs[p].maxAttempts >= j.maxAttempts
                  && q'.jobs[p] == j.(priority := q'.jobs[p].priority, source := q'.jobs[p].source,
                                      maxAttempts := q'.jobs[p].maxAttempts))
  {
  }

  /** A request for an older version is ignored. */
  lemma EnqueueTooLate(q: Queue, p: Paper, version: nat, source: Source, profile: Profile, maxAttempts: nat)
    requires p in q.jobs && version < q.jobs[p].version
    ensures Enqueue(q, p, version, source, profile, maxAttempts) == (q, false)
  {
  }

  // ---------- over runs ----------

  /** The operation starts the job of `p` over: an operator revives it, or it is enqueued as something else. */
  predicate StartsOver(j: Job, p: Paper, op: Op) {
    match op
    case DoRevive(r) => r == p && j.status.Dead?
    case DoEnqueue(r, version, _, profile, _) => r == p && Restarts(j, version, profile)
    case _ => false
  }

  /** Nothing in the run starts the job over. */
  predicate LeftAlone(j: Job, p: Paper, ops: seq<Op>) {
    forall i :: 0 <= i < |ops| ==> !StartsOver(j, p, ops[i])
  }

  /** The job is as it was, apart from how urgent it is. */
  predicate AtRest(j: Job, j': Job) {
    && j'.version == j.version && j'.profile == j.profile && j'.status == j.status && j'.attempts == j.attempts
    && j'.availableAt == j.availableAt && j'.lease == j.lease && j'.createdAt == j.createdAt
  }

  /** Nobody holds the job and nobody can claim it. */
  predicate Resting(q: Queue, p: Paper) {
    p in q.jobs && q.jobs[p].lease.None?
    && (q.jobs[p].status.Dead? || q.jobs[p].status.Succeeded?
        || ((q.jobs[p].status.Retry? || q.jobs[p].status.Pending?) && q.jobs[p].availableAt > q.now))
  }

  lemma StepRests(q: Queue, p: Paper, op: Op)
    requires Resting(q, p) && !StartsOver(q.jobs[p], p, op)
    ensures p in Apply(q, op).jobs && AtRest(q.jobs[p], Apply(q, op).jobs[p])
  {
    hide Claim, Record, Upsert;
    match op {
      case DoClaim(profile, seconds) => ClaimRests(q, profile, seconds, p);
      case DoRecord(k, manifest, stage, content) => RecordRests(q, k, manifest, stage, content);
      case _ =>
    }
  }

  lemma ClaimRests(q: Queue, profile: Profile, seconds: nat, p: Paper)
    requires Resting(q, p)
    ensures p in Claim(q, profile, seconds).0.jobs && Claim(q, profile, seconds).0.jobs[p] == q.jobs[p]
  {
    hide Claim;
    ClaimStartsAttempt(q, profile, seconds, q.now);
  }

  lemma RecordRests(q: Queue, k: Key, manifest: nat, stage: Stage, content: nat)
    ensures Record(q, k, manifest, stage, content).0.jobs == q.jobs
    ensures Record(q, k, manifest, stage, content).0.now == q.now
  {
  }

  /**
   A job at rest stays so, whatever happens to the queue, until it is started over or its time comes: dead and
   succeeded jobs for good, and one that waits for a retry until then.
   */
  lemma {:induction false} RestsUntilStarted(q: Queue, p: Paper, ops: seq<Op>)
    requires Inv(q) && Resting(q, p) && LeftAlone(q.jobs[p], p, ops)
    requires q.jobs[p].status.Dead? || q.jobs[p].status.Succeeded? || Run(q, ops).now < q.jobs[p].availableAt
    ensures var v := Run(q, ops);
            && p in v.jobs && AtRest(q.jobs[p], v.jobs[p])
            && forall profile :: !Claimable(v, profile, p)
    decreases |ops|
  {
    hide Inv, Apply, StartsOver, Forward;
    if ops != [] {
      var u := Apply(q, ops[0]);
      StepRests(q, p, ops[0]);
      ApplyKeeps(q, ops[0]);
      RunForward(u, ops[1..]);
      TimeGoesOn(u, Run(u, ops[1..]));
      forall i | 0 <= i < |ops[1..]|
        ensures !StartsOver(u.jobs[p], p, ops[1..][i])
      {
        assert ops[1..][i] == ops[i + 1];
        SameStarts(q.jobs[p], u.jobs[p], p, ops[i + 1]);
      }
      RestsUntilStarted(u, p, ops[1..]);
    }
  }

  lemma SameStarts(j: Job, j': Job, p: Paper, op: Op)
    requires AtRest(j, j')
    ensures StartsOver(j', p, op) <==> StartsOver(j, p, op)
  {
  }

  lemma TimeGoesOn(q: Queue, q': Queue)
    requires Forward(q, q')
    ensures q.now <= q'.now
  {
  }

  /**
   What failing a job comes to: with a retry time nobody can claim it before then, and without one nobody can claim
   it at all, whatever happens to the queue, until it is started over.
   */
  lemma FailedForGood(q: Queue, p: Paper, owner: Token, retryAt: Option<Time>, ops: seq<Op>, profile: Profile)
    requires Inv(q) && Fail(q, p, owner, retryAt).1
    requires var q' := Fail(q, p, owner, retryAt).0;
             p in q'.jobs && LeftAlone(q'.jobs[p], p, ops)
             && (retryAt.Some? ==> q'.now < retryAt.value && Run(q', ops).now < retryAt.value)
    ensures var v := Run(Fail(q, p, owner, retryAt).0, ops);
            && p in v.jobs && v.jobs[p].version == q.jobs[p].version && v.jobs[p].attempts == q.jobs[p].attempts
            && !Claimable(v, profile, p)
  {
    hide Inv, Run, LeftAlone;
    var q' := Fail(q, p, owner, retryAt).0;
    ApplyKeeps(q, DoFail(p, owner, retryAt));
    RestsUntilStarted(q', p, ops);
  }

  // ---------- installing ----------

  /** A stage is accepted under the manifest on record, and a completion with the content on record. */
  lemma RecordAccepted(q: Queue, k: Key, manifest: nat, stage: Stage, content: nat)
    ensures Record(q, k, manifest, stage, content).1
            <==> (k in q.installs ==> q.installs[k].manifest == manifest)
                 && (stage.Complete? && k in q.receipts ==> q.receipts[k] == content)
    ensures !Record(q, k, manifest, stage, content).1 ==> Record(q, k, manifest, stage, content).0 == q
  {
  }

  /** The holder that has completed the installation of its job can finish it, and nothing else was needed. */
  lemma CompletedCanFinish(q: Queue, k: Key, owner: Token, manifest: nat, content: nat)
    requires Guarded(q, k, owner) && Record(q, k, manifest, Complete, content).1
    ensures var q' := Record(q, k, manifest, Complete, content).0;
            && q'.jobs == q.jobs && k in q'.receipts && q'.receipts[k] == content
            && q'.receipts - {k} == q.receipts - {k}
            && k in q'.installs && q'.installs[k].manifest == manifest && q'.installs - {k} == q.installs - {k}
            && Finish(q', k.paper, owner).1
  {
  }

  /** The stages before the last record progress only: they leave no receipt. */
  lemma StagesLeaveNoReceipt(q: Queue, k: Key, manifest: nat, stage: Stage, content: nat)
    requires !stage.Complete? && Record(q, k, manifest, stage, content).1
    ensures var q' := Record(q, k, manifest, stage, content).0;
            && q'.receipts == q.receipts && q'.jobs == q.jobs && k in q'.installs
            && q'.installs[k] == Install(manifest, stage) && q'.installs - {k} == q.installs - {k}
  {
  }

  /** Once completed, a version of a paper is never completed with another content or under another manifest. */
  lemma CompletedOnce(q: Queue, k: Key, manifest: nat, content: nat, ops: seq<Op>, manifest': nat, stage: Stage,
                      content': nat)
    requires Inv(q) && Record(q, k, manifest, Complete, content).1
    ensures var v := Run(Record(q, k, manifest, Complete, content).0, ops);
            Record(v, k, manifest', stage, content').1
            <==> manifest' == manifest && (stage.Complete? ==> content' == content)
  {
    hide Inv, Run;
    var u := Record(q, k, manifest, Complete, content).0;
    RecordKeeps(q, k, manifest, Complete, content);
    RunForward(u, ops);
  }
}
