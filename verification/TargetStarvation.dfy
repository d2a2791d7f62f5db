/**
 How long an aged backfill job can be passed over.  Urgent work always goes first, except that every
 fifth claim puts aged backfill first; each such turn is spent either on the waiting job or on one of
 finitely many attempts of the jobs ordered before it.
 */
module TargetStarvation {
  import opened Wrappers
  import opened Ledger
  import opened TargetQueue

  // ---------- the first in line ----------

  lemma AheadTotal(q: Queue, p: Paper, r: Paper)
    requires p in q.jobs && r in q.jobs && p != r
    ensures Ahead(q, p, r) <==> !Ahead(q, r, p)
  {
  }

  lemma AheadTransitive(q: Queue, p: Paper, r: Paper, t: Paper)
    requires p in q.jobs && r in q.jobs && t in q.jobs && Ahead(q, p, r) && Ahead(q, r, t)
    ensures Ahead(q, p, t)
  {
  }

  lemma {:induction false} FirstOf(q: Queue, some: set<Paper>) returns (p: Paper)
    requires some != {} && some <= q.jobs.Keys
    ensures p in some && forall r :: r in some && r != p ==> Ahead(q, p, r)
    decreases |some|
  {
    var y :| y in some;
    var rest := some - {y};
    if rest == {} {
      assert some == {y};
      p := y;
    } else {
      var z := FirstOf(q, rest);
      AheadTotal(q, y, z);
      p := if Ahead(q, z, y) then z else y;
      forall r | r in some && r != p
        ensures Ahead(q, p, r)
      {
        if p == y && r != z {
          AheadTransitive(q, y, z, r);
        }
      }
    }
  }

  /** A claim comes back with the one first-in-line job, and with nothing only if nothing is claimable. */
  lemma NextExists(q: Queue, profile: Profile)
    ensures Next(q, profile).None? <==> forall p: Paper :: !Claimable(q, profile, p)
    ensures forall p: Paper :: IsNext(q, profile, p) ==> Next(q, profile) == Some(p)
    ensures Next(q, profile).Some? ==> IsNext(q, profile, Next(q, profile).value)
  {
    var able := set p | p in q.jobs && Claimable(q, profile, p);
    if able != {} {
      var p := FirstOf(q, able);
      assert IsNext(q, profile, p);
    } else {
      assert forall p: Paper :: p in q.jobs && Claimable(q, profile, p) ==> p in able;
    }
    forall p: Paper, r: Paper | IsNext(q, profile, p) && IsNext(q, profile, r)
      ensures p == r
    {
      if p != r {
        AheadTotal(q, p, r);
      }
    }
  }

  // ---------- sums over the jobs ----------

  ghost function Sum(m: map<Paper, nat>): nat {
    if m == map[] then 0 else var k :| k in m; m[k] + Sum(m - {k})
  }

  lemma {:induction false} SumPick(m: map<Paper, nat>, k: Paper)
    requires k in m
    ensures Sum(m) == m[k] + Sum(m - {k})
    decreases |m|
  {
    var c :| c in m && Sum(m) == m[c] + Sum(m - {c});
    if c != k {
      SumPick(m - {c}, k);
      SumPick(m - {k}, c);
      assert (m - {c}) - {k} == (m - {k}) - {c};
    }
  }

  function At(m: map<Paper, nat>, k: Paper): nat {
    if k in m then m[k] else 0
  }

  lemma {:induction false} SumLess(m: map<Paper, nat>, m': map<Paper, nat>)
    requires forall k :: k in m' ==> m'[k] <= At(m, k)
    ensures Sum(m') <= Sum(m)
    decreases |m'|
  {
    if m' == map[] {
    } else {
      var k :| k in m';
      SumPick(m', k);
      if k in m {
        SumPick(m, k);
        SumLess(m - {k}, m' - {k});
      } else {
        SumLess(m, m' - {k});
      }
    }
  }

  lemma SumDrops(m: map<Paper, nat>, m': map<Paper, nat>, k: Paper)
    requires forall i :: i in m' ==> m'[i] <= At(m, i)
    requires k in m && At(m', k) < m[k]
    ensures Sum(m') < Sum(m)
  {
    SumPick(m, k);
    if k in m' {
      SumPick(m', k);
      SumLess(m - {k}, m' - {k});
    } else {
      SumLess(m - {k}, m');
    }
  }

  // ---------- attempts left ahead of a job ----------

  /** How many more times a job can be claimed if its workers never report back. */
  function AttemptsLeft(j: Job): nat {
    match j.status
    case Pending => Max(1, Left(j))
    case Retry => Max(1, Left(j))
    case Running => Left(j)
    case Succeeded => 0
    case Dead => 0
  }

  function Left(j: Job): nat {
    if j.maxAttempts > j.attempts then j.maxAttempts - j.attempts else 0
  }

  /** Backfill of the same configuration that a fair turn would put before `x`. */
  predicate Outranks(q: Queue, y: Paper, x: Paper)
    requires x in q.jobs && y in q.jobs
  {
    y != x && q.jobs[y].source.Backfill? && q.jobs[y].profile == q.jobs[x].profile
    && Earlier(q.jobs[y], y, q.jobs[x], x)
  }

  function Weight(q: Queue, x: Paper, y: Paper): nat
    requires x in q.jobs && y in q.jobs
  {
    if Outranks(q, y, x) then AttemptsLeft(q.jobs[y]) else 0
  }

  function Weights(q: Queue, x: Paper): map<Paper, nat>
    requires x in q.jobs
  {
    map y | y in q.jobs :: Weight(q, x, y)
  }

  ghost function Remaining(q: Queue, x: Paper): nat
    requires x in q.jobs
  {
    Sum(Weights(q, x))
  }

  /** `x` is aged backfill that a claim may take now and the sweep will not bury. */
  predicate Waits(q: Queue, x: Paper) {
    x in q.jobs && Aged(q.jobs[x], q.now) && q.jobs[x].availableAt < q.now
    && (q.jobs[x].status.Pending? || q.jobs[x].status.Retry?
        || (q.jobs[x].status.Running? && Expired(q.jobs[x], q.now) && q.jobs[x].attempts < q.jobs[x].maxAttempts))
  }

  /** Retries lie in the future, and nobody enqueues `x` again.  Anybody may claim anything. */
  predicate Polite(q: Queue, op: Op, x: Paper) {
    && (op.DoEnqueue? ==> op.p != x)
    && (op.DoFail? && op.retryAt.Some? ==> op.retryAt.value >= q.now)
  }

  ghost function Claimed(q: Queue, op: Op): Option<Paper> {
    if op.DoClaim? then Claim(q, op.profile, op.seconds).1 else None
  }

  /** One changed row, other than that of `x`, that does not gain weight. */
  lemma RowWeighsLess(q: Queue, x: Paper, p: Paper, j: Job)
    requires x in q.jobs && p != x
    requires var q' := q.(jobs := q.jobs[p := j]); Weight(q', x, p) <= if p in q.jobs then Weight(q, x, p) else 0
    ensures var q' := q.(jobs := q.jobs[p := j]); Remaining(q', x) <= Remaining(q, x)
  {
    var q' := q.(jobs := q.jobs[p := j]);
    forall y | y in Weights(q', x)
      ensures Weights(q', x)[y] <= At(Weights(q, x), y)
    {
    }
    SumLess(Weights(q, x), Weights(q', x));
  }

  /** Other calls than claims leave `x` waiting and give nothing before it a new attempt. */
  lemma OtherCallsHelp(q: Queue, op: Op, x: Paper)
    requires Inv(q) && Waits(q, x) && Polite(q, op, x) && !op.DoClaim?
    ensures var q' := Apply(q, op);
            && x in q'.jobs && q'.jobs[x] == q.jobs[x] && Waits(q', x)
            && q'.claimCount == q.claimCount && Remaining(q', x) <= Remaining(q, x)
  {
    hide Inv, Remaining, Claim;
    var q' := Apply(q, op);
    if op.DoWiden? || op.DoTick? || op.DoRecord? {
      SameJobsSameWeights(q, q', x);
    } else {
      Known(q, op.p);
      if q' != q {
        RowWeighsLess(q, x, op.p, q'.jobs[op.p]);
      }
    }
  }

  lemma SameJobsSameWeights(q: Queue, q': Queue, x: Paper)
    requires x in q.jobs && q'.jobs == q.jobs
    ensures Remaining(q', x) == Remaining(q, x)
  {
    assert Weights(q', x) == Weights(q, x);
  }

  lemma SweepHelps(q: Queue, profile: Profile, x: Paper)
    requires Inv(q) && Waits(q, x) && profile == q.jobs[x].profile
    ensures var s := Swept(q, profile);
            && x in s.jobs && s.jobs[x] == q.jobs[x] && Waits(s, x) && Claimable(s, profile, x)
            && Inv(s) && s.claimCount == q.claimCount && Remaining(s, x) <= Remaining(q, x)
            && (forall y :: y in s.jobs ==> !Exhausted(s.jobs[y], s.now, profile))
  {
    hide Inv, Sum;
    SweptKeeps(q, profile);
    var s := Swept(q, profile);
    forall y | y in Weights(s, x)
      ensures Weights(s, x)[y] <= At(Weights(q, x), y)
    {
    }
    assert Remaining(s, x) <= Remaining(q, x) by {
      SumLess(Weights(q, x), Weights(s, x));
    }
  }

  /** Taking another job: on a fair turn it is one of those that outrank `x`, and it has one attempt less. */
  lemma TakingAnother(q: Queue, profile: Profile, seconds: nat, x: Paper, p: Paper)
    requires Inv(q) && Waits(q, x) && Claimable(q, profile, x) && IsNext(q, profile, p) && p != x
    requires forall y :: y in q.jobs ==> !Exhausted(q.jobs[y], q.now, profile)
    ensures var t := Taken(q, p, seconds);
            && x in t.jobs && t.jobs[x] == q.jobs[x] && Waits(t, x)
            && Remaining(t, x) <= Remaining(q, x)
            && (FairTurn(q) ==> Remaining(t, x) < Remaining(q, x))
  {
    hide Inv, Sum;
    var t := Taken(q, p, seconds);
    Known(q, p);
    assert Ahead(q, p, x);
    var before, after := Weights(q, x), Weights(t, x);
    forall y | y in after
      ensures after[y] <= At(before, y)
    {
    }
    if FairTurn(q) {
      assert Outranks(q, p, x) && before[p] > after[p];
      assert Remaining(t, x) < Remaining(q, x) by {
        SumDrops(before, after, p);
      }
    } else {
      assert Remaining(t, x) <= Remaining(q, x) by {
        SumLess(before, after);
      }
    }
  }

  /** A claim for another configuration never takes `x` nor changes what outranks it. */
  lemma ForeignClaimHelps(q: Queue, profile: Profile, seconds: nat, x: Paper)
    requires Inv(q) && Waits(q, x) && profile != q.jobs[x].profile
    ensures var (q', claimed) := Claim(q, profile, seconds);
            && claimed != Some(x) && x in q'.jobs && q'.jobs[x] == q.jobs[x] && Waits(q', x)
            && q'.claimCount == q.claimCount + (if claimed.Some? then 1 else 0) && Remaining(q', x) == Remaining(q, x)
  {
    hide Inv, Remaining, Next, IsNext;
    var s := Swept(q, profile);
    NextExists(s, profile);
    var (q', claimed) := Claim(q, profile, seconds);
    if claimed.Some? {
      NextClaimable(s, profile, claimed.value);
    }
    assert forall y :: y in q.jobs && q.jobs[y].profile == q.jobs[x].profile ==>
             y in q'.jobs && q'.jobs[y] == q.jobs[y];
    SameWeights(q, q', x);
  }

  lemma NextClaimable(q: Queue, profile: Profile, p: Paper)
    requires IsNext(q, profile, p)
    ensures Claimable(q, profile, p)
  {
  }

  lemma SameWeights(q: Queue, q': Queue, x: Paper)
    requires x in q.jobs && q'.jobs.Keys == q.jobs.Keys && q'.jobs[x] == q.jobs[x]
    requires forall y :: y in q.jobs && q.jobs[y].profile == q.jobs[x].profile ==> q'.jobs[y] == q.jobs[y]
    requires forall y :: y in q.jobs ==> q'.jobs[y].profile == q.jobs[y].profile
    ensures Remaining(q', x) == Remaining(q, x)
  {
    assert Weights(q', x) == Weights(q, x);
  }

  /**
   While `x` waits, a claim for its configuration never comes back empty; unless it takes `x`, what
   remains ahead of `x` does not grow, and on a fair turn it shrinks.
   */
  lemma OwnClaimHelps(q: Queue, profile: Profile, seconds: nat, x: Paper)
    requires Inv(q) && Waits(q, x) && profile == q.jobs[x].profile
    ensures var (q', claimed) := Claim(q, profile, seconds);
            && claimed.Some? && q'.claimCount == q.claimCount + 1
            && (claimed != Some(x) ==>
                  && x in q'.jobs && q'.jobs[x] == q.jobs[x] && Waits(q', x)
                  && Remaining(q', x) <= Remaining(q, x)
                  && (FairTurn(q) ==> Remaining(q', x) < Remaining(q, x)))
  {
    hide Inv, Remaining, Swept, Taken, IsNext, Claim, Next, Waits, Claimable, Exhausted;
    SweepHelps(q, profile, x);
    var s := Swept(q, profile);
    NextExists(s, profile);
    var p := Next(s, profile).value;
    NextIsJob(s, profile, p);
    ClaimTakes(q, profile, seconds, p);
    TakenCounts(s, p, seconds);
    if p != x {
      TakingAnother(s, profile, seconds, x, p);
    }
  }

  lemma ClaimTakes(q: Queue, profile: Profile, seconds: nat, p: Paper)
    requires Next(Swept(q, profile), profile) == Some(p) && p in Swept(q, profile).jobs
    ensures Claim(q, profile, seconds) == (Taken(Swept(q, profile), p, seconds), Some(p))
  {
    hide Swept, Taken, Next;
  }

  lemma NextIsJob(q: Queue, profile: Profile, p: Paper)
    requires IsNext(q, profile, p)
    ensures p in q.jobs
  {
  }

  lemma TakenCounts(q: Queue, p: Paper, seconds: nat)
    requires p in q.jobs
    ensures Taken(q, p, seconds).claimCount == q.claimCount + 1
  {
  }

  /** Any step of a polite run leaves `x` waiting unless it claims it, and adds nothing ahead of it. */
  lemma StepHelps(q: Queue, op: Op, x: Paper)
    requires Inv(q) && Waits(q, x) && Polite(q, op, x) && Claimed(q, op) != Some(x)
    ensures var q' := Apply(q, op);
            && x in q.jobs && x in q'.jobs && q'.jobs[x] == q.jobs[x] && Waits(q', x)
            && Remaining(q', x) <= Remaining(q, x)
            && (FairClaim(q, op, x) ==> Remaining(q', x) < Remaining(q, x))
            && (!op.DoClaim? ==> q'.claimCount == q.claimCount)
            && (op.DoClaim? && op.profile == q.jobs[x].profile ==> q'.claimCount == q.claimCount + 1)
  {
    hide Inv, Remaining, Claim, Waits, Polite;
    WaitsExists(q, x);
    if !op.DoClaim? {
      OtherCallsHelp(q, op, x);
    } else if op.profile == q.jobs[x].profile {
      OwnClaimHelps(q, op.profile, op.seconds, x);
    } else {
      ForeignClaimHelps(q, op.profile, op.seconds, x);
    }
  }

  // ---------- the bound ----------

  ghost predicate PoliteRun(q: Queue, ops: seq<Op>, x: Paper)
    decreases |ops|
  {
    ops == [] || (Polite(q, ops[0], x) && PoliteRun(Apply(q, ops[0]), ops[1..], x))
  }

  ghost predicate ClaimedIn(q: Queue, ops: seq<Op>, x: Paper)
    decreases |ops|
  {
    ops != [] && (Claimed(q, ops[0]) == Some(x) || ClaimedIn(Apply(q, ops[0]), ops[1..], x))
  }

  /** A claim for the configuration of `x` made on a fair turn. */
  predicate FairClaim(q: Queue, op: Op, x: Paper) {
    op.DoClaim? && x in q.jobs && op.profile == q.jobs[x].profile && FairTurn(q)
  }

  ghost function FairClaims(q: Queue, ops: seq<Op>, x: Paper): nat
    decreases |ops|
  {
    if ops == [] then 0
    else (if FairClaim(q, ops[0], x) then 1 else 0) + FairClaims(Apply(q, ops[0]), ops[1..], x)
  }

  lemma {:induction false} FairTurnsRunOut(q: Queue, ops: seq<Op>, x: Paper)
    requires Inv(q) && Waits(q, x) && PoliteRun(q, ops, x) && !ClaimedIn(q, ops, x)
    ensures x in q.jobs && FairClaims(q, ops, x) <= Remaining(q, x)
    decreases |ops|
  {
    hide Inv, Apply, Waits, Remaining, Claimed, Polite, FairClaim;
    WaitsExists(q, x);
    if ops != [] {
      ApplyKeeps(q, ops[0]);
      StepHelps(q, ops[0], x);
      FairTurnsRunOut(Apply(q, ops[0]), ops[1..], x);
    }
  }

  lemma WaitsExists(q: Queue, x: Paper)
    requires Waits(q, x)
    ensures x in q.jobs
  {
  }

  /**
   An aged backfill job has been claimed once more claims for its configuration fell on a fair turn
   than attempts are left to the backfill ordered before it, whatever anybody enqueues, claims for
   other configurations, retries, loses or completes meanwhile.
   */
  lemma FairTurnBound(q: Queue, ops: seq<Op>, x: Paper)
    requires Reachable(q) && Waits(q, x) && PoliteRun(q, ops, x)
    requires FairClaims(q, ops, x) > Remaining(q, x)
    ensures ClaimedIn(q, ops, x)
  {
    hide Inv, Waits, PoliteRun, ClaimedIn, Remaining, FairClaims;
    ReachableInv(q);
    if !ClaimedIn(q, ops, x) {
      FairTurnsRunOut(q, ops, x);
    }
  }

  /** How many claims for a configuration a run makes. */
  function ClaimsFor(ops: seq<Op>, profile: Profile): nat {
    if ops == [] then 0
    else (if ops[0].DoClaim? && ops[0].profile == profile then 1 else 0) + ClaimsFor(ops[1..], profile)
  }

  predicate OnlyClaimsFor(ops: seq<Op>, profile: Profile) {
    forall i :: 0 <= i < |ops| && ops[i].DoClaim? ==> ops[i].profile == profile
  }

  /** With one configuration claiming, every fifth claim is a fair turn of its own. */
  lemma {:induction false} EveryFifth(q: Queue, ops: seq<Op>, x: Paper)
    requires Inv(q) && Waits(q, x) && PoliteRun(q, ops, x) && !ClaimedIn(q, ops, x)
    requires x in q.jobs && OnlyClaimsFor(ops, q.jobs[x].profile)
    ensures ClaimsFor(ops, q.jobs[x].profile) <= 5 * FairClaims(q, ops, x) + 4 - q.claimCount % 5
    decreases |ops|
  {
    hide Inv, Apply, Waits, Remaining, Claimed, Polite;
    if ops != [] {
      ApplyKeeps(q, ops[0]);
      StepHelps(q, ops[0], x);
      assert forall i :: 0 <= i < |ops[1..]| ==> ops[1..][i] == ops[i + 1];
      EveryFifth(Apply(q, ops[0]), ops[1..], x);
    }
  }

  /**
   When only one configuration claims, an aged backfill job is claimed within 5·(R + 1) claims, R
   being the attempts left to the backfill ordered before it.
   */
  lemma StarvationBound(q: Queue, ops: seq<Op>, x: Paper)
    requires Reachable(q) && Waits(q, x) && PoliteRun(q, ops, x)
    requires x in q.jobs && OnlyClaimsFor(ops, q.jobs[x].profile)
    requires ClaimsFor(ops, q.jobs[x].profile) >= 5 * (Remaining(q, x) + 1)
    ensures ClaimedIn(q, ops, x)
  {
    hide Inv, Waits, PoliteRun, ClaimedIn, Remaining, FairClaims, OnlyClaimsFor;
    ReachableInv(q);
    if !ClaimedIn(q, ops, x) {
      EveryFifth(q, ops, x);
      FairTurnBound(q, ops, x);
    }
  }

  /** Off the fair turn, any claimable job of better priority goes before `x`. */
  lemma UrgentGoesFirst(q: Queue, profile: Profile, seconds: nat, x: Paper, y: Paper)
    requires Inv(q) && !FairTurn(q) && x in q.jobs && y in q.jobs
    requires Claimable(Swept(q, profile), profile, y) && q.jobs[y].priority < q.jobs[x].priority
    ensures Claim(q, profile, seconds).1 != Some(x)
  {
    var s := Swept(q, profile);
    NextExists(s, profile);
    assert s.jobs[y].priority == q.jobs[y].priority && s.jobs[x].priority == q.jobs[x].priority;
    assert !Ahead(s, x, y);
  }

  // ---------- a job whose workers only crash ----------

  /** No worker or operator reports on `y`: it is claimed, renewed, and left to expire. */
  predicate Unreported(op: Op, y: Paper) {
    match op
    case DoEnqueue(p, _, _, _, _) => p != y
    case DoRelease(p, _) => p != y
    case DoFinish(p, _) => p != y
    case DoFail(p, _, _) => p != y
    case DoRevive(p) => p != y
    case _ => true
  }

  ghost function TimesClaimed(q: Queue, ops: seq<Op>, y: Paper): nat
    decreases |ops|
  {
    if ops == [] then 0
    else (if Claimed(q, ops[0]) == Some(y) then 1 else 0) + TimesClaimed(Apply(q, ops[0]), ops[1..], y)
  }

  lemma UnreportedStep(q: Queue, op: Op, y: Paper)
    requires Inv(q) && y in q.jobs && Unreported(op, y)
    ensures y in Apply(q, op).jobs
    ensures AttemptsLeft(Apply(q, op).jobs[y]) + (if Claimed(q, op) == Some(y) then 1 else 0) <= AttemptsLeft(q.jobs[y])
  {
    hide Inv, Claim;
    Known(q, y);
    if op.DoClaim? {
      UnreportedClaim(q, op.profile, op.seconds, y);
    }
  }

  lemma UnreportedClaim(q: Queue, profile: Profile, seconds: nat, y: Paper)
    requires Inv(q) && y in q.jobs
    ensures var (q', claimed) := Claim(q, profile, seconds);
            y in q'.jobs
            && AttemptsLeft(q'.jobs[y]) + (if claimed == Some(y) then 1 else 0) <= AttemptsLeft(q.jobs[y])
  {
    var s := Swept(q, profile);
    Known(q, y);
    NextExists(s, profile);
    assert AttemptsLeft(s.jobs[y]) <= AttemptsLeft(q.jobs[y]);
    assert Claimable(s, profile, y) ==> AttemptsLeft(s.jobs[y]) >= 1;
  }

  /**
   A job whose workers only ever crash is claimed no more often than it had attempts left; a new job,
   at most `maxAttempts` times.
   */
  lemma {:induction false} CrashBound(q: Queue, ops: seq<Op>, y: Paper)
    requires Inv(q) && y in q.jobs && forall i :: 0 <= i < |ops| ==> Unreported(ops[i], y)
    ensures y in Run(q, ops).jobs
    ensures TimesClaimed(q, ops, y) + AttemptsLeft(Run(q, ops).jobs[y]) <= AttemptsLeft(q.jobs[y])
    decreases |ops|
  {
    hide Inv, Apply, AttemptsLeft, Claimed, Unreported;
    if ops != [] {
      assert Unreported(ops[0], y);
      ApplyKeeps(q, ops[0]);
      UnreportedStep(q, ops[0], y);
      assert forall i :: 0 <= i < |ops[1..]| ==> ops[1..][i] == ops[i + 1];
      CrashBound(Apply(q, ops[0]), ops[1..], y);
    }
  }

  /** Once its attempts are used up, the next claim after the lease expires buries it. */
  lemma CrashedOut(q: Queue, profile: Profile, seconds: nat, y: Paper)
    requires Inv(q) && y in q.jobs && q.jobs[y].profile == profile
    requires q.jobs[y].status.Running? && Expired(q.jobs[y], q.now) && AttemptsLeft(q.jobs[y]) == 0
    ensures var q' := Claim(q, profile, seconds).0;
            y in q'.jobs && q'.jobs[y].status.Dead? && q'.jobs[y].lease.None?
  {
    var s := Swept(q, profile);
    NextExists(s, profile);
    assert s.jobs[y].status.Dead?;
  }
}
