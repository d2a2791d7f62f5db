/**
 One destination's ingestion queue: jobs, completion receipts, install records, the reviewed scope
 and the claim counter.  Owner tokens are drawn fresh for each claim, which `nextToken` stands for.
 One function per transaction; the class TargetStore carries them out statement by statement.
 */
module TargetQueue {
  import opened Wrappers
  import opened Ledger

  type Profile = nat
  type Token = nat
  type Time = int

  datatype Source = New | Revision | Reconciliation | Backfill | Manual
  datatype Status = Pending | Running | Retry | Succeeded | Dead
  datatype Lease = Lease(owner: Token, expires: Time)

  datatype Job = Job(
    version: nat, profile: Profile, source: Source, priority: int, status: Status, attempts: nat,
    maxAttempts: nat, availableAt: Time, lease: Option<Lease>, createdAt: Time)

  /** A receipt or install record belongs to one version of a paper under one configuration. */
  datatype Key = Key(paper: Paper, version: nat, profile: Profile)
  datatype Stage = Prepared | Written | Verified | Cleaned | Complete
  datatype Install = Install(manifest: nat, stage: Stage)

  datatype Queue = Queue(
    now: Time, claimCount: nat, jobs: map<Paper, Job>, receipts: map<Key, nat>,
    installs: map<Key, Install>, scope: map<Paper, Row>, nextToken: Token)

  const EMPTY := Queue(0, 0, map[], map[], map[], map[], 0)
  const DAY := 86400

  function Priority(source: Source): int {
    match source
    case New => 10
    case Revision => 20
    case Reconciliation => 50
    case Backfill => 100
    case Manual => 10
  }

  function Max(a: nat, b: nat): nat {
    if a >= b then a else b
  }

  // ---------- enqueueing ----------

  function NewJob(now: Time, version: nat, source: Source, profile: Profile, maxAttempts: nat): Job {
    Job(version, profile, source, Priority(source), Pending, 0, maxAttempts, now, None, now)
  }

  /** A newer version or another configuration starts the job over; a better priority only moves it up. */
  function Promoted(now: Time, j: Job, version: nat, source: Source, profile: Profile, maxAttempts: nat): Job {
    var restart := version > j.version || profile != j.profile;
    j.(version := version, profile := profile,
       source := if version > j.version || Priority(source) < j.priority then source else j.source,
       priority := if Priority(source) < j.priority then Priority(source) else j.priority,
       maxAttempts := Max(j.maxAttempts, maxAttempts),
       status := if restart then Pending else j.status,
       attempts := if restart then 0 else j.attempts,
       availableAt := if restart then now else j.availableAt,
       lease := if restart then None else j.lease)
  }

  predicate Promotes(j: Job, version: nat, source: Source, profile: Profile) {
    version >= j.version
    && (version > j.version || profile != j.profile || Priority(source) < j.priority)
  }

  function Enqueue(q: Queue, p: Paper, version: nat, source: Source, profile: Profile, maxAttempts: nat):
    (Queue, bool)
  {
    if p !in q.jobs then (q.(jobs := q.jobs[p := NewJob(q.now, version, source, profile, maxAttempts)]), true)
    else if Promotes(q.jobs[p], version, source, profile)
    then (q.(jobs := q.jobs[p := Promoted(q.now, q.jobs[p], version, source, profile, maxAttempts)]), true)
    else (q, false)
  }

  // ---------- claiming ----------

  predicate Expired(j: Job, now: Time) {
    j.lease.Some? && j.lease.value.expires <= now
  }

  /** A killed worker cannot record its failure: an expired last attempt is dead. */
  predicate Exhausted(j: Job, now: Time, profile: Profile) {
    j.profile == profile && j.status.Running? && Expired(j, now) && j.attempts >= j.maxAttempts
  }

  function Buried(j: Job, now: Time, profile: Profile): Job {
    if Exhausted(j, now, profile) then j.(status := Dead, lease := None) else j
  }

  function Swept(q: Queue, profile: Profile): Queue {
    q.(jobs := map p | p in q.jobs :: Buried(q.jobs[p], q.now, profile))
  }

  predicate Claimable(q: Queue, profile: Profile, p: Paper) {
    p in q.jobs && q.jobs[p].profile == profile
    && (((q.jobs[p].status.Pending? || q.jobs[p].status.Retry?) && q.jobs[p].availableAt <= q.now)
        || (q.jobs[p].status.Running? && Expired(q.jobs[p], q.now)))
  }

  /** Every fifth claim of the destination puts aged backfill first. */
  predicate FairTurn(q: Queue) {
    (q.claimCount + 1) % 5 == 0
  }

  predicate Aged(j: Job, now: Time) {
    j.source.Backfill? && j.createdAt < now - DAY
  }

  function Urgency(q: Queue, p: Paper): int
    requires p in q.jobs
  {
    if FairTurn(q) && Aged(q.jobs[p], q.now) then 0 else q.jobs[p].priority
  }

  /** Among rows of equal urgency: longest available, oldest, then by id. */
  predicate Earlier(a: Job, p: Paper, b: Job, r: Paper) {
    a.availableAt < b.availableAt
    || (a.availableAt == b.availableAt
        && (a.createdAt < b.createdAt || (a.createdAt == b.createdAt && p < r)))
  }

  predicate Ahead(q: Queue, p: Paper, r: Paper)
    requires p in q.jobs && r in q.jobs
  {
    Urgency(q, p) < Urgency(q, r)
    || (Urgency(q, p) == Urgency(q, r) && Earlier(q.jobs[p], p, q.jobs[r], r))
  }

  ghost predicate IsNext(q: Queue, profile: Profile, p: Paper) {
    Claimable(q, profile, p) && forall r :: Claimable(q, profile, r) && r != p ==> Ahead(q, p, r)
  }

  ghost function Next(q: Queue, profile: Profile): Option<Paper> {
    if p: Paper :| IsNext(q, profile, p) then Some(p) else None
  }

  function Taken(q: Queue, p: Paper, seconds: nat): Queue
    requires p in q.jobs
  {
    q.(jobs := q.jobs[p := q.jobs[p].(status := Running, attempts := q.jobs[p].attempts + 1,
                                      lease := Some(Lease(q.nextToken, q.now + seconds)))],
       claimCount := q.claimCount + 1, nextToken := q.nextToken + 1)
  }

  /** The paper claimed, under the token that was next, or None when nothing is claimable. */
  ghost function Claim(q: Queue, profile: Profile, seconds: nat): (Queue, Option<Paper>) {
    var swept := Swept(q, profile);
    match Next(swept, profile)
    case Some(p) => if p in swept.jobs then (Taken(swept, p, seconds), Some(p)) else (swept, None)
    case None => (swept, None)
  }

  // ---------- what the holder of a token may do ----------

  /** The job is running under this token and the lease has not run out. */
  predicate Owned(q: Queue, p: Paper, owner: Token) {
    p in q.jobs && q.jobs[p].status.Running? && q.jobs[p].lease.Some?
    && q.jobs[p].lease.value.owner == owner && q.jobs[p].lease.value.expires > q.now
  }

  function Renew(q: Queue, p: Paper, owner: Token, seconds: nat): (Queue, bool) {
    if Owned(q, p, owner)
    then (q.(jobs := q.jobs[p := q.jobs[p].(lease := Some(Lease(owner, q.now + seconds)))]), true)
    else (q, false)
  }

  function Release(q: Queue, p: Paper, owner: Token): (Queue, bool) {
    if Owned(q, p, owner)
    then (q.(jobs := q.jobs[p := q.jobs[p].(
            status := Pending, attempts := if q.jobs[p].attempts > 0 then q.jobs[p].attempts - 1 else 0,
            availableAt := q.now, lease := None)]), true)
    else (q, false)
  }

  predicate HasReceipt(q: Queue, p: Paper)
    requires p in q.jobs
  {
    Key(p, q.jobs[p].version, q.jobs[p].profile) in q.receipts
  }

  function Finish(q: Queue, p: Paper, owner: Token): (Queue, bool) {
    if Owned(q, p, owner) && HasReceipt(q, p)
    then (q.(jobs := q.jobs[p := q.jobs[p].(status := Succeeded, lease := None)]), true)
    else (q, false)
  }

  function Fail(q: Queue, p: Paper, owner: Token, retryAt: Option<Time>): (Queue, bool) {
    if Owned(q, p, owner)
    then (q.(jobs := q.jobs[p := q.jobs[p].(
            status := if retryAt.Some? then Retry else Dead,
            availableAt := if retryAt.Some? then retryAt.value else q.jobs[p].availableAt,
            lease := None)]), true)
    else (q, false)
  }

  /** An operator's second chance for a dead job. */
  function Revive(q: Queue, p: Paper): (Queue, bool) {
    if p in q.jobs && q.jobs[p].status.Dead?
    then (q.(jobs := q.jobs[p := q.jobs[p].(status := Pending, attempts := 0, availableAt := q.now)]), true)
    else (q, false)
  }

  // ---------- receipts and scope ----------

  /** What the installer re-checks before every write. */
  predicate Guarded(q: Queue, k: Key, owner: Token) {
    Owned(q, k.paper, owner) && q.jobs[k.paper].version == k.version && q.jobs[k.paper].profile == k.profile
  }

  /** A stage is recorded under one manifest for good; the last one leaves the receipt. */
  function Record(q: Queue, k: Key, manifest: nat, stage: Stage, content: nat): (Queue, bool) {
    if k in q.installs && q.installs[k].manifest != manifest then (q, false)
    else if stage.Complete? && k in q.receipts && q.receipts[k] != content then (q, false)
    else (q.(installs := q.installs[k := Install(manifest, stage)],
             receipts := if stage.Complete? then q.receipts[k := content] else q.receipts), true)
  }

  /** The reviewed scope is one of the ledgers. */
  function Widen(q: Queue, e: Entry): Queue {
    q.(scope := Upsert(q.scope, e))
  }

  // ---------- runs ----------

  datatype Op =
    | DoEnqueue(p: Paper, version: nat, source: Source, profile: Profile, maxAttempts: nat)
    | DoClaim(profile: Profile, seconds: nat)
    | DoRenew(p: Paper, owner: Token, seconds: nat)
    | DoRelease(p: Paper, owner: Token)
    | DoFinish(p: Paper, owner: Token)
    | DoFail(p: Paper, owner: Token, retryAt: Option<Time>)
    | DoRevive(p: Paper)
    | DoRecord(k: Key, manifest: nat, stage: Stage, content: nat)
    | DoWiden(e: Entry)
    | DoTick(elapsed: nat)

  ghost function Apply(q: Queue, op: Op): Queue {
    match op
    case DoEnqueue(p, version, source, profile, maxAttempts) => Enqueue(q, p, version, source, profile, maxAttempts).0
    case DoClaim(profile, seconds) => Claim(q, profile, seconds).0
    case DoRenew(p, owner, seconds) => Renew(q, p, owner, seconds).0
    case DoRelease(p, owner) => Release(q, p, owner).0
    case DoFinish(p, owner) => Finish(q, p, owner).0
    case DoFail(p, owner, retryAt) => Fail(q, p, owner, retryAt).0
    case DoRevive(p) => Revive(q, p).0
    case DoRecord(k, manifest, stage, content) => Record(q, k, manifest, stage, content).0
    case DoWiden(e) => Widen(q, e)
    case DoTick(elapsed) => q.(now := q.now + elapsed)
  }

  ghost function Run(q: Queue, ops: seq<Op>): Queue
    decreases |ops|
  {
    if ops == [] then q else Run(Apply(q, ops[0]), ops[1..])
  }

  // ---------- what every reachable state satisfies ----------

  predicate JobSound(q: Queue, p: Paper)
    requires p in q.jobs
  {
    && (q.jobs[p].status.Running? <==> q.jobs[p].lease.Some?)
    && (q.jobs[p].lease.Some? ==> q.jobs[p].lease.value.owner < q.nextToken)
    && (q.jobs[p].status.Succeeded? ==> HasReceipt(q, p))
    && 10 <= q.jobs[p].priority <= 100
  }

  /** Running means leased, tokens are unique, and success always has its receipt. */
  ghost predicate Inv(q: Queue) {
    && (forall p :: p in q.jobs ==> JobSound(q, p))
    && (forall p, r | p in q.jobs && r in q.jobs && q.jobs[p].lease.Some? && q.jobs[r].lease.Some?
                      && q.jobs[p].lease.value.owner == q.jobs[r].lease.value.owner :: p == r)
  }

  lemma RowKeeps(q: Queue, p: Paper, j: Job)
    requires Inv(q) && (j.status.Running? <==> j.lease.Some?) && 10 <= j.priority <= 100
    requires j.lease.Some? ==>
               p in q.jobs && q.jobs[p].lease.Some? && j.lease.value.owner == q.jobs[p].lease.value.owner
    requires j.status.Succeeded? ==> Key(p, j.version, j.profile) in q.receipts
    ensures Inv(q.(jobs := q.jobs[p := j]))
  {
    var q' := q.(jobs := q.jobs[p := j]);
    forall r | r in q'.jobs
      ensures JobSound(q', r)
    {
      assert r != p ==> JobSound(q, r);
      assert p in q.jobs ==> JobSound(q, p);
    }
  }

  lemma SweptKeeps(q: Queue, profile: Profile)
    requires Inv(q)
    ensures Inv(Swept(q, profile))
  {
    var q' := Swept(q, profile);
    forall p | p in q'.jobs
      ensures JobSound(q', p)
    {
      assert JobSound(q, p);
    }
  }

  lemma TakenKeeps(q: Queue, p: Paper, seconds: nat)
    requires Inv(q) && p in q.jobs
    ensures Inv(Taken(q, p, seconds))
  {
    var q' := Taken(q, p, seconds);
    forall r | r in q'.jobs
      ensures JobSound(q', r)
    {
      assert JobSound(q, r);
    }
  }

  lemma ApplyKeeps(q: Queue, op: Op)
    requires Inv(q)
    ensures Inv(Apply(q, op))
  {
    hide Inv, Swept, Taken, Claim;
    match op {
      case DoClaim(profile, seconds) => ClaimKeeps(q, profile, seconds);
      case DoRecord(k, manifest, stage, content) => RecordKeeps(q, k, manifest, stage, content);
      case DoWiden(e) => SameJobs(q, Widen(q, e));
      case DoTick(elapsed) => SameJobs(q, q.(now := q.now + elapsed));
      case _ =>
        var p, q' := op.p, Apply(q, op);
        Known(q, p);
        if q' != q {
          RowKeeps(q, p, q'.jobs[p]);
        }
    }
  }

  lemma Known(q: Queue, p: Paper)
    requires Inv(q)
    ensures p in q.jobs ==> JobSound(q, p)
  {
  }

  lemma SameJobs(q: Queue, q': Queue)
    requires Inv(q) && q'.jobs == q.jobs && q'.nextToken == q.nextToken && q'.receipts == q.receipts
    ensures Inv(q')
  {
    forall p | p in q'.jobs
      ensures JobSound(q', p)
    {
      assert JobSound(q, p);
    }
  }

  lemma RecordKeeps(q: Queue, k: Key, manifest: nat, stage: Stage, content: nat)
    requires Inv(q)
    ensures Inv(Record(q, k, manifest, stage, content).0)
  {
    var q' := Record(q, k, manifest, stage, content).0;
    forall p | p in q'.jobs
      ensures JobSound(q', p)
    {
      assert JobSound(q, p);
    }
  }

  lemma ClaimKeeps(q: Queue, profile: Profile, seconds: nat)
    requires Inv(q)
    ensures Inv(Claim(q, profile, seconds).0)
  {
    hide Inv, Swept, Taken, Next;
    var swept := Swept(q, profile);
    SweptKeeps(q, profile);
    var next := Next(swept, profile);
    if next.Some? && next.value in swept.jobs {
      TakenKeeps(swept, next.value, seconds);
    }
  }

  lemma {:induction false} RunKeeps(q: Queue, ops: seq<Op>)
    requires Inv(q)
    ensures Inv(Run(q, ops))
    decreases |ops|
  {
    hide Inv, Apply;
    if ops != [] {
      ApplyKeeps(q, ops[0]);
      RunKeeps(Apply(q, ops[0]), ops[1..]);
    }
  }

  /** A state that some run leads to from the empty destination. */
  ghost predicate Reachable(q: Queue) {
    exists ops :: q == Run(EMPTY, ops)
  }

  lemma ReachableInv(q: Queue)
    requires Reachable(q)
    ensures Inv(q)
  {
    hide Run;
    var ops :| q == Run(EMPTY, ops);
    assert Inv(EMPTY);
    RunKeeps(EMPTY, ops);
  }

  /** From the empty destination on: running means leased, and a succeeded job has the receipt it needs. */
  lemma ReachableSound(ops: seq<Op>, p: Paper)
    ensures var q := Run(EMPTY, ops);
            p in q.jobs ==>
              && (q.jobs[p].status.Running? <==> q.jobs[p].lease.Some?)
              && (q.jobs[p].status.Succeeded? ==> Key(p, q.jobs[p].version, q.jobs[p].profile) in q.receipts)
  {
    hide Run;
    assert Inv(EMPTY);
    RunKeeps(EMPTY, ops);
    Known(Run(EMPTY, ops), p);
  }
}
