/** The destination queue carried out statement by statement, and proved to agree with the transaction functions. */
module TargetStore {
  import opened Wrappers
  import opened Ledger
  import opened TargetQueue
  import opened TargetStarvation
  import opened TargetAdoption

  class Store {
    var now: Time
    var claimCount: nat
    var jobs: map<Paper, Job>
    var receipts: map<Key, nat>
    var installs: map<Key, Install>
    var scope: map<Paper, Row>
    var nextToken: Token

    function State(): Queue
      reads this
    {
      Queue(now, claimCount, jobs, receipts, installs, scope, nextToken)
    }

    ghost predicate Valid()
      reads this
    {
      Inv(State())
    }

    constructor ()
      ensures State() == EMPTY && Valid()
    {
      now, claimCount, nextToken := 0, 0, 0;
      jobs, receipts, installs, scope := map[], map[], map[], map[];
    }

    method EnqueuePaper(p: Paper, version: nat, source: Source, profile: Profile, maxAttempts: nat)
      returns (changed: bool)
      modifies this`jobs
      ensures (State(), changed) == Enqueue(old(State()), p, version, source, profile, maxAttempts)
      ensures old(Valid()) ==> Valid()
    {
      hide Inv;
      if Valid() {
        ApplyKeeps(State(), DoEnqueue(p, version, source, profile, maxAttempts));
      }
      if p !in jobs {
        jobs := jobs[p := NewJob(now, version, source, profile, maxAttempts)];
        return true;
      }
      if !Promotes(jobs[p], version, source, profile) {
        return false;
      }
      jobs := jobs[p := Promoted(now, jobs[p], version, source, profile, maxAttempts)];
      return true;
    }

    /** Bury the exhausted, then hand the first claimable job in line to a fresh token. */
    method ClaimNext(profile: Profile, seconds: nat) returns (claimed: Option<Paper>, owner: Token)
      modifies this
      ensures (State(), claimed) == Claim(old(State()), profile, seconds)
      ensures claimed.Some? && seconds > 0 ==> Owned(State(), claimed.value, owner)
      ensures old(Valid()) ==> Valid()
    {
      hide Inv, IsNext, Buried, Next, Ahead, Claimable, Taken, Owned;
      ghost var q := State();
      if Valid() {
        ApplyKeeps(q, DoClaim(profile, seconds));
      }
      jobs := map p | p in jobs :: Buried(jobs[p], now, profile);
      assert State() == Swept(q, profile);
      claimed := FirstInLine(profile);
      owner := nextToken;
      if claimed.Some? {
        Take(claimed.value, seconds);
      }
    }

    method Take(p: Paper, seconds: nat)
      requires p in jobs
      modifies this
      ensures State() == Taken(old(State()), p, seconds)
      ensures seconds > 0 ==> Owned(State(), p, old(nextToken))
    {
      jobs := jobs[p := jobs[p].(status := Running, attempts := jobs[p].attempts + 1,
                                 lease := Some(Lease(nextToken, now + seconds)))];
      nextToken := nextToken + 1;
      claimCount := claimCount + 1;
    }

    /** Scan the claimable jobs for the one ahead of all others. */
    method FirstInLine(profile: Profile) returns (best: Option<Paper>)
      ensures best == Next(State(), profile) && (best.Some? ==> best.value in jobs)
    {
      hide Next, Ahead;
      best := None;
      var left := set p | p in jobs && Claimable(State(), profile, p);
      ghost var able := left;
      assert forall p :: p in able <==> Claimable(State(), profile, p);
      while left != {}
        invariant left <= able
        invariant best.Some? ==> best.value in able && best.value !in left
        invariant forall r :: r in able && r !in left ==>
                    best.Some? && (r == best.value || Ahead(State(), best.value, r))
        decreases left
      {
        var p :| p in left;
        if best.None? || Ahead(State(), p, best.value) {
          ghost var was := best;
          best := Some(p);
          forall r | r in able && r !in left && was.Some? && r != was.value
            ensures Ahead(State(), p, r)
          {
            AheadTransitive(State(), p, was.value, r);
          }
        } else {
          AheadTotal(State(), p, best.value);
        }
        left := left - {p};
      }
      NextExists(State(), profile);
      if best.Some? {
        assert IsNext(State(), profile, best.value);
      }
    }

    method RenewLease(p: Paper, owner: Token, seconds: nat) returns (renewed: bool)
      modifies this`jobs
      ensures (State(), renewed) == Renew(old(State()), p, owner, seconds)
      ensures old(Valid()) ==> Valid()
    {
      hide Inv;
      if Valid() {
        ApplyKeeps(State(), DoRenew(p, owner, seconds));
      }
      renewed := Owned(State(), p, owner);
      if renewed {
        jobs := jobs[p := jobs[p].(lease := Some(Lease(owner, now + seconds)))];
      }
    }

    method ReleaseJob(p: Paper, owner: Token) returns (released: bool)
      modifies this`jobs
      ensures (State(), released) == Release(old(State()), p, owner)
      ensures old(Valid()) ==> Valid()
    {
      hide Inv;
      if Valid() {
        ApplyKeeps(State(), DoRelease(p, owner));
      }
      released := Owned(State(), p, owner);
      if released {
        var attempts := if jobs[p].attempts > 0 then jobs[p].attempts - 1 else 0;
        jobs := jobs[p := jobs[p].(status := Pending, attempts := attempts, availableAt := now, lease := None)];
      }
    }

    method CompleteJob(p: Paper, owner: Token) returns (completed: bool)
      modifies this`jobs
      ensures (State(), completed) == Finish(old(State()), p, owner)
      ensures old(Valid()) ==> Valid()
    {
      hide Inv;
      if Valid() {
        ApplyKeeps(State(), DoFinish(p, owner));
      }
      completed := Owned(State(), p, owner) && Key(p, jobs[p].version, jobs[p].profile) in receipts;
      if completed {
        jobs := jobs[p := jobs[p].(status := Succeeded, lease := None)];
      }
    }

    method FailJob(p: Paper, owner: Token, retryAt: Option<Time>) returns (failed: bool)
      modifies this`jobs
      ensures (State(), failed) == Fail(old(State()), p, owner, retryAt)
      ensures old(Valid()) ==> Valid()
    {
      hide Inv;
      if Valid() {
        ApplyKeeps(State(), DoFail(p, owner, retryAt));
      }
      failed := Owned(State(), p, owner);
      if failed {
        jobs := jobs[p := jobs[p].(status := if retryAt.Some? then Retry else Dead,
                                   availableAt := if retryAt.Some? then retryAt.value else jobs[p].availableAt,
                                   lease := None)];
      }
    }

    method RetryDead(p: Paper) returns (retried: bool)
      modifies this`jobs
      ensures (State(), retried) == Revive(old(State()), p)
      ensures old(Valid()) ==> Valid()
    {
      hide Inv;
      if Valid() {
        ApplyKeeps(State(), DoRevive(p));
      }
      retried := p in jobs && jobs[p].status.Dead?;
      if retried {
        jobs := jobs[p := jobs[p].(status := Pending, attempts := 0, availableAt := now)];
      }
    }

    /** The installer's write: fenced first, then the install row, then at the last stage the receipt. */
    method RecordInstall(k: Key, owner: Token, manifest: nat, stage: Stage, content: nat) returns (recorded: bool)
      modifies this
      ensures recorded ==> Guarded(old(State()), k, owner)
      ensures (State(), recorded)
           == if Guarded(old(State()), k, owner) then Record(old(State()), k, manifest, stage, content)
              else (old(State()), false)
      ensures old(Valid()) ==> Valid()
    {
      hide Inv, Record;
      recorded := Guarded(State(), k, owner);
      if recorded {
        recorded := WriteInstall(k, manifest, stage, content);
      }
    }

    /** What follows the guard; it may come late, when the lease is gone. */
    method WriteInstall(k: Key, manifest: nat, stage: Stage, content: nat) returns (recorded: bool)
      modifies this`installs, this`receipts
      ensures (State(), recorded) == Record(old(State()), k, manifest, stage, content)
      ensures old(Valid()) ==> Valid()
    {
      hide Inv;
      if Valid() {
        ApplyKeeps(State(), DoRecord(k, manifest, stage, content));
      }
      if k in installs && installs[k].manifest != manifest {
        return false;
      }
      var saved := installs;
      installs := installs[k := Install(manifest, stage)];
      if stage.Complete? {
        if k in receipts && receipts[k] != content {
          installs := saved;
          return false;
        }
        receipts := receipts[k := content];
      }
      return true;
    }

    /** Record a batch of observed versions in the scope. */
    method RecordScope(rows: seq<Entry>)
      modifies this`scope
      ensures scope == Recorded(old(scope), rows)
      ensures old(Valid()) ==> Valid()
    {
      hide Inv, Upsert;
      for i := 0 to |rows|
        invariant Recorded(scope, rows[i..]) == Recorded(old(scope), rows)
        invariant old(Valid()) ==> Valid()
      {
        if Valid() {
          ApplyKeeps(State(), DoWiden(rows[i]));
        }
        assert rows[i..][0] == rows[i] && rows[i..][1..] == rows[i + 1..];
        scope := Upsert(scope, rows[i]);
      }
    }

    /** Any one transaction of the queue, or the passing of time. */
    method Perform(op: Op)
      modifies this
      ensures State() == Apply(old(State()), op)
      ensures old(Valid()) ==> Valid()
    {
      hide Inv, Enqueue, Claim, Renew, Release, Finish, Fail, Revive, Record;
      if Valid() {
        ApplyKeeps(State(), op);
      }
      match op {
        case DoEnqueue(p, version, source, profile, maxAttempts) =>
          var _ := EnqueuePaper(p, version, source, profile, maxAttempts);
        case DoClaim(profile, seconds) => var _, _ := ClaimNext(profile, seconds);
        case DoRenew(p, owner, seconds) => var _ := RenewLease(p, owner, seconds);
        case DoRelease(p, owner) => var _ := ReleaseJob(p, owner);
        case DoFinish(p, owner) => var _ := CompleteJob(p, owner);
        case DoFail(p, owner, retryAt) => var _ := FailJob(p, owner, retryAt);
        case DoRevive(p) => var _ := RetryDead(p);
        case DoRecord(k, manifest, stage, content) => var _ := WriteInstall(k, manifest, stage, content);
        case DoWiden(e) =>
          assert [e][1..] == [];
          RecordScope([e]);
        case DoTick(elapsed) => now := now + elapsed;
      }
    }

    // ---------- adoption ----------

    /** Rows that need work, longest known first, at most `limit` of them. */
    method SelectRows(profile: Profile, limit: nat) returns (rows: seq<Paper>)
      ensures |rows| <= limit && (forall i :: 0 <= i < |rows| ==> NeedsWork(State(), profile, rows[i]))
      ensures forall i, k :: 0 <= i < k < |rows| ==> rows[i] != rows[k] && KnownLonger(rows[i], rows[k])
      ensures |rows| < limit ==> forall p :: NeedsWork(State(), profile, p) ==> p in rows
      ensures forall p, i :: NeedsWork(State(), profile, p) && p !in rows && 0 <= i < |rows| ==> KnownLonger(rows[i], p)
    {
      rows := [];
      var left := Matched(State(), profile);
      while |rows| < limit && left != {}
        invariant |rows| <= limit && forall p :: p in rows || p in left <==> NeedsWork(State(), profile, p)
        invariant forall p :: p in rows ==> p !in left
        invariant forall i, k :: 0 <= i < k < |rows| ==> rows[i] != rows[k] && KnownLonger(rows[i], rows[k])
        invariant forall i, p :: 0 <= i < |rows| && p in left ==> KnownLonger(rows[i], p)
        decreases limit - |rows|
      {
        var p := LongestKnown(left);
        rows := rows + [p];
        left := left - {p};
      }
    }

    predicate KnownLonger(p: Paper, r: Paper)
      reads this
    {
      p in scope && r in scope
      && (scope[p].first < scope[r].first || (scope[p].first == scope[r].first && p <= r))
    }

    method LongestKnown(left: set<Paper>) returns (p: Paper)
      requires left != {} && left <= scope.Keys
      ensures p in left && forall r :: r in left ==> KnownLonger(p, r)
    {
      p :| p in left;
      var rest := left - {p};
      while rest != {}
        invariant p in left && rest <= left
        invariant forall r :: r in left && r !in rest ==> KnownLonger(p, r)
        decreases rest
      {
        var r :| r in rest;
        if !KnownLonger(p, r) {
          p := r;
        }
        rest := rest - {r};
      }
    }

    /** One applied pass: every selected row that is not stuck is enqueued and stops matching. */
    method ResumeScope(profile: Profile, limit: nat, maxAttempts: nat) returns (matched: nat, enqueued: nat)
      modifies this`jobs
      ensures matched <= limit && enqueued <= matched
      ensures matched == 0 && limit > 0 ==> Matched(old(State()), profile) == {}
      ensures (forall p :: !Stuck(old(State()), profile, p)) ==>
                && enqueued == matched && |Matched(State(), profile)| + matched == |Matched(old(State()), profile)|
                && forall p :: !Stuck(State(), profile, p)
      ensures forall p :: Stuck(old(State()), profile, p) ==> Stuck(State(), profile, p)
    {
      hide Enqueue, NeedsWork, Stuck, Matched;
      var rows := SelectRows(profile, limit);
      EmptyMatch(State(), profile);
      matched, enqueued := |rows|, 0;
      for i := 0 to |rows|
        invariant scope == old(scope) && enqueued <= i
        invariant forall k :: i <= k < |rows| ==> NeedsWork(State(), profile, rows[k])
        invariant forall p :: Stuck(State(), profile, p) == Stuck(old(State()), profile, p)
        invariant (forall p :: !Stuck(old(State()), profile, p)) ==>
                    enqueued == i && |Matched(State(), profile)| + i == |Matched(old(State()), profile)|
      {
        var p := rows[i];
        ghost var q := State();
        InScope(q, profile, p);
        RowResumed(q, profile, p, maxAttempts);
        MatchedIs(q, profile);
        var changed := EnqueuePaper(p, scope[p].version, Backfill, profile, maxAttempts);
        MatchedIs(State(), profile);
        NotStuckAfter(q, State(), profile, p, changed);
        enqueued := enqueued + if changed then 1 else 0;
      }
    }

    /** The adoption loop: repeat applied passes until nothing matches. */
    method DrainScope(profile: Profile, limit: nat, maxAttempts: nat)
      requires limit > 0 && forall p :: !Stuck(State(), profile, p)
      modifies this`jobs
      ensures Matched(State(), profile) == {}
    {
      hide Matched, Stuck;
      var matched := 1;
      while matched != 0
        invariant matched == 0 ==> Matched(State(), profile) == {}
        invariant forall p :: !Stuck(State(), profile, p)
        decreases |Matched(State(), profile)|, matched
      {
        ghost var before := State();
        var enqueued;
        matched, enqueued := ResumeScope(profile, limit, maxAttempts);
        if matched == 0 {
          assert |Matched(State(), profile)| == 0;
        }
      }
    }
  }

  lemma EmptyMatch(q: Queue, profile: Profile)
    ensures (forall p :: !NeedsWork(q, profile, p)) ==> Matched(q, profile) == {}
  {
  }

  lemma InScope(q: Queue, profile: Profile, p: Paper)
    requires NeedsWork(q, profile, p)
    ensures p in q.scope
  {
  }

  lemma MatchedIs(q: Queue, profile: Profile)
    ensures forall p :: p in Matched(q, profile) <==> NeedsWork(q, profile, p)
  {
  }

  lemma NotStuckAfter(q: Queue, q': Queue, profile: Profile, p: Paper, changed: bool)
    requires p in q.scope && p in q'.scope && q'.scope == q.scope && NeedsWork(q, profile, p)
    requires changed == !Stuck(q, profile, p)
    requires changed ==> !NeedsWork(q', profile, p)
    requires !changed ==> q' == q
    ensures Stuck(q', profile, p) == Stuck(q, profile, p)
  {
  }
}
