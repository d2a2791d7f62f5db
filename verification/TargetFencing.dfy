/** Tokens fence workers off: once a token has lapsed, no call that carries it ever changes the queue again. */
module TargetFencing {
  import opened Wrappers
  import opened Ledger
  import opened TargetQueue

  /** Time passes, jobs stay, versions only rise, receipts stand, and no old token gains or regains a lease. */
  ghost predicate Forward(q: Queue, q': Queue) {
    && q.now <= q'.now && q.nextToken <= q'.nextToken
    && (forall p :: p in q.jobs ==> p in q'.jobs && q.jobs[p].version <= q'.jobs[p].version)
    && (forall k :: k in q.receipts ==> k in q'.receipts && q'.receipts[k] == q.receipts[k])
    && (forall k :: k in q.installs ==> k in q'.installs && q'.installs[k].manifest == q.installs[k].manifest)
    && (forall p :: p in q'.jobs && q'.jobs[p].lease.Some? && q'.jobs[p].lease.value.owner < q.nextToken ==>
          p in q.jobs && Held(q.jobs[p].lease, q'.jobs[p].lease.value, q.now))
  }

  /** The lease `now` was held before by the same owner, and was renewed only while it was live. */
  predicate Held(before: Option<Lease>, after: Lease, now: Time) {
    before.Some? && before.value.owner == after.owner && (before.value.expires <= now ==> after == before.value)
  }

  lemma RowForward(q: Queue, p: Paper, j: Job)
    requires p in q.jobs ==> q.jobs[p].version <= j.version
    requires j.lease.Some? ==> p in q.jobs && Held(q.jobs[p].lease, j.lease.value, q.now)
    ensures Forward(q, q.(jobs := q.jobs[p := j]))
  {
  }

  lemma SameForward(q: Queue)
    ensures Forward(q, q)
  {
  }

  lemma ClaimForward(q: Queue, profile: Profile, seconds: nat)
    requires Inv(q)
    ensures Forward(q, Claim(q, profile, seconds).0)
  {
    hide Next, Exhausted;
    var q' := Claim(q, profile, seconds).0;
    forall p | p in q.jobs
      ensures q'.jobs[p].version == q.jobs[p].version
    {
    }
  }

  lemma RecordForward(q: Queue, k: Key, manifest: nat, stage: Stage, content: nat)
    ensures Forward(q, Record(q, k, manifest, stage, content).0)
  {
  }

  lemma ApplyForward(q: Queue, op: Op)
    requires Inv(q)
    ensures Forward(q, Apply(q, op))
  {
    hide Inv, Forward, Claim, Record;
    SameForward(q);
    match op {
      case DoClaim(profile, seconds) => ClaimForward(q, profile, seconds);
      case DoRecord(k, manifest, stage, content) => RecordForward(q, k, manifest, stage, content);
      case DoWiden(e) => AsideForward(q, Widen(q, e));
      case DoTick(elapsed) => AsideForward(q, q.(now := q.now + elapsed));
      case _ =>
        var p, q' := op.p, Apply(q, op);
        if q' != q {
          RowForward(q, p, q'.jobs[p]);
        }
    }
  }

  lemma AsideForward(q: Queue, q': Queue)
    requires q' == q.(now := q'.now, scope := q'.scope) && q.now <= q'.now
    ensures Forward(q, q')
  {
  }

  lemma ForwardFurther(a: Queue, b: Queue, c: Queue)
    requires Forward(a, b) && Forward(b, c)
    ensures Forward(a, c)
  {
    forall p | p in c.jobs && c.jobs[p].lease.Some? && c.jobs[p].lease.value.owner < a.nextToken
      ensures p in a.jobs && Held(a.jobs[p].lease, c.jobs[p].lease.value, a.now)
    {
      assert p in b.jobs && Held(b.jobs[p].lease, c.jobs[p].lease.value, b.now);
      assert Held(a.jobs[p].lease, b.jobs[p].lease.value, a.now);
    }
  }

  /** However the queue is used: versions never fall, receipts and manifests never change, leases never come back. */
  lemma {:induction false} RunForward(q: Queue, ops: seq<Op>)
    requires Inv(q)
    ensures Forward(q, Run(q, ops))
    decreases |ops|
  {
    hide Inv, Forward, Apply;
    if ops == [] {
      SameForward(q);
    } else {
      ApplyKeeps(q, ops[0]);
      ApplyForward(q, ops[0]);
      RunForward(Apply(q, ops[0]), ops[1..]);
      ForwardFurther(q, Apply(q, ops[0]), Run(Apply(q, ops[0]), ops[1..]));
    }
  }

  /** The token was issued and holds no live lease. */
  ghost predicate Lapsed(q: Queue, owner: Token) {
    owner < q.nextToken && forall p :: !Owned(q, p, owner)
  }

  /** A lapsed token stays lapsed whatever happens next, and every call made with it does nothing. */
  lemma LapsedForever(q: Queue, owner: Token, ops: seq<Op>, p: Paper, seconds: nat, retryAt: Option<Time>, k: Key)
    requires Inv(q) && Lapsed(q, owner)
    ensures var v := Run(q, ops);
            && Lapsed(v, owner)
            && Renew(v, p, owner, seconds) == (v, false) && Release(v, p, owner) == (v, false)
            && Finish(v, p, owner) == (v, false) && Fail(v, p, owner, retryAt) == (v, false)
            && !Guarded(v, k, owner)
  {
    hide Run;
    var v := Run(q, ops);
    RunForward(q, ops);
    RunKeeps(q, ops);
    forall r
      ensures !Owned(v, r, owner)
    {
      NotGained(q, v, r, owner);
    }
  }

  lemma NotGained(q: Queue, v: Queue, r: Paper, owner: Token)
    requires Inv(q) && Forward(q, v) && owner < q.nextToken && !Owned(q, r, owner)
    ensures !Owned(v, r, owner)
  {
    if r in v.jobs && v.jobs[r].lease.Some? && v.jobs[r].lease.value.owner == owner {
      assert Held(q.jobs[r].lease, v.jobs[r].lease.value, q.now);
      assert JobSound(q, r);
    }
  }

  lemma OneHolder(q: Queue, p: Paper, owner: Token)
    requires Inv(q) && p in q.jobs && q.jobs[p].lease.Some? && q.jobs[p].lease.value.owner == owner
    ensures owner < q.nextToken
    ensures forall r :: r != p ==> !Owned(q, r, owner)
  {
    assert JobSound(q, p);
  }

  /** A token lapses exactly when its lease runs out, or its job is re-claimed, restarted, released or ended. */
  lemma LapsesWhen(q: Queue, p: Paper, owner: Token, op: Op)
    requires Inv(q) && Owned(q, p, owner)
    ensures var q' := Apply(q, op);
            Lapsed(q', owner)
            <==> p !in q'.jobs || q'.jobs[p].lease.None? || q'.jobs[p].lease.value.owner != owner
                 || q'.jobs[p].lease.value.expires <= q'.now
  {
    hide Apply;
    var q' := Apply(q, op);
    ApplyKeeps(q, op);
    ApplyForward(q, op);
    OneHolder(q, p, owner);
    forall r | r != p
      ensures !Owned(q', r, owner)
    {
      NotGained(q, q', r, owner);
    }
    assert p in q'.jobs ==> JobSound(q', p);
    assert Lapsed(q', owner) <==> !Owned(q', p, owner);
  }

  /** A newer version or another configuration takes the job from whoever runs it. */
  lemma RestartLapses(q: Queue, p: Paper, owner: Token, version: nat, source: Source, profile: Profile,
                      maxAttempts: nat)
    requires Inv(q) && Owned(q, p, owner)
    requires version > q.jobs[p].version || (version == q.jobs[p].version && profile != q.jobs[p].profile)
    ensures Lapsed(Enqueue(q, p, version, source, profile, maxAttempts).0, owner)
  {
    OneHolder(q, p, owner);
  }

  /** A claim hands out a token nobody has seen, and the job's previous token has lapsed. */
  lemma ClaimIsFresh(q: Queue, profile: Profile, seconds: nat)
    requires Inv(q)
    ensures var (q', claimed) := Claim(q, profile, seconds);
            claimed.Some? ==>
              && claimed.value in q'.jobs && q'.jobs[claimed.value].lease.Some?
              && q'.jobs[claimed.value].lease.value.owner == q.nextToken
              && (forall r :: r in q.jobs && q.jobs[r].lease.Some? ==> q.jobs[r].lease.value.owner != q.nextToken)
              && (claimed.value in q.jobs && q.jobs[claimed.value].lease.Some? ==>
                    Lapsed(q', q.jobs[claimed.value].lease.value.owner))
  {
    hide Next, Exhausted;
    var (q', claimed) := Claim(q, profile, seconds);
    forall r | r in q.jobs && q.jobs[r].lease.Some?
      ensures q.jobs[r].lease.value.owner < q.nextToken
    {
      assert JobSound(q, r);
    }
    if claimed.Some? && q.jobs[claimed.value].lease.Some? {
      OneHolder(q, claimed.value, q.jobs[claimed.value].lease.value.owner);
    }
  }
}
