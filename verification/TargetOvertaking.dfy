/**
 Two families of runs that pass an aged backfill job over for as long as one likes: one in which
 another configuration has every fifth turn, and one in which a job is restarted over and over in the
 very instant the waiting job became available.
 */
module TargetOvertaking {
  import opened Wrappers
  import opened Ledger
  import opened TargetQueue
  import opened TargetStarvation

  lemma RunCons(q: Queue, op: Op, rest: seq<Op>)
    ensures Run(q, [op] + rest) == Run(Apply(q, op), rest)
  {
    hide Apply;
    assert ([op] + rest)[1..] == rest;
  }

  lemma OvertakenCons(q: Queue, op: Op, rest: seq<Op>, x: Paper)
    requires Polite(q, op, x) && PoliteRun(Apply(q, op), rest, x)
    requires Claimed(q, op) != Some(x) && !ClaimedIn(Apply(q, op), rest, x)
    ensures PoliteRun(q, [op] + rest, x) && !ClaimedIn(q, [op] + rest, x)
  {
    hide Apply, Polite, Claimed;
    assert ([op] + rest)[1..] == rest;
  }

  lemma ClaimsCons(op: Op, rest: seq<Op>, profile: Profile)
    ensures ClaimsFor([op] + rest, profile)
            == ClaimsFor(rest, profile) + if op.DoClaim? && op.profile == profile then 1 else 0
  {
    assert ([op] + rest)[1..] == rest;
  }

  // ---------- another configuration has the fair turns ----------

  /** Backfill of configuration 0, enqueued at time 0 and seen a day later. */
  const WAITING: Paper := 0
  const ROW := NewJob(0, 1, Backfill, 0, 1)
  const START: seq<Op> := [DoEnqueue(WAITING, 1, Backfill, 0, 1), DoTick(DAY + 1)]

  function Started(): Queue {
    EMPTY.(now := DAY + 1, jobs := map[WAITING := ROW])
  }

  /** Configuration 1 has the fair turns, configuration 0 all others. */
  function Whose(count: nat): Profile {
    if (count + 1) % 5 == 0 then 1 else 0
  }

  /** A second later a new paper arrives for the configuration whose turn it is, and is claimed. */
  function Round(count: nat, horizon: nat): seq<Op> {
    [DoTick(1), DoEnqueue(count + 1, 1, New, Whose(count), 1), DoClaim(Whose(count), horizon)]
  }

  function Rounds(n: nat, count: nat, horizon: nat): seq<Op>
    decreases n
  {
    if n == 0 then [] else Round(count, horizon) + Rounds(n - 1, count + 1, horizon)
  }

  /** Every paper but the waiting one is being worked on, and no lease runs out before the horizon. */
  ghost predicate Busy(q: Queue, count: nat, n: nat, horizon: nat) {
    && q.claimCount == count && q.now > DAY && q.now + n < horizon
    && WAITING in q.jobs && q.jobs[WAITING] == ROW
    && forall p :: p in q.jobs && p != WAITING ==>
         p <= count && q.jobs[p].status.Running? && q.jobs[p].lease.Some? && q.jobs[p].lease.value.expires >= horizon
  }

  /** The tables when the new paper has arrived. */
  function Arrived(q: Queue, count: nat): Queue {
    var u := q.(now := q.now + 1);
    u.(jobs := u.jobs[count + 1 := NewJob(u.now, 1, New, Whose(count), 1)])
  }

  lemma ArrivalGoesFirst(q: Queue, count: nat, n: nat, horizon: nat)
    requires Busy(q, count, n, horizon) && n > 0
    ensures var u := Arrived(q, count);
            Swept(u, Whose(count)) == u && IsNext(u, Whose(count), count + 1)
  {
  }

  lemma RoundStaysBusy(q: Queue, count: nat, n: nat, horizon: nat)
    requires Busy(q, count, n, horizon) && n > 0
    ensures var u := Arrived(q, count);
            && Apply(Apply(q, DoTick(1)), DoEnqueue(count + 1, 1, New, Whose(count), 1)) == u
            && Claimed(u, DoClaim(Whose(count), horizon)) == Some(count + 1)
            && Busy(Apply(u, DoClaim(Whose(count), horizon)), count + 1, n - 1, horizon)
  {
    hide IsNext, Swept, Next;
    var u := Arrived(q, count);
    ArrivalGoesFirst(q, count, n, horizon);
    NextExists(u, Whose(count));
    ClaimTakes(u, Whose(count), horizon, count + 1);
  }

  lemma {:induction false} RoundsOvertake(q: Queue, n: nat, count: nat, horizon: nat)
    requires Busy(q, count, n, horizon)
    ensures PoliteRun(q, Rounds(n, count, horizon), WAITING) && !ClaimedIn(q, Rounds(n, count, horizon), WAITING)
    decreases n
  {
    hide Busy, Apply, Claimed, PoliteRun, ClaimedIn, Arrived;
    if n > 0 {
      var tick, come, take := Round(count, horizon)[0], Round(count, horizon)[1], Round(count, horizon)[2];
      var rest := Rounds(n - 1, count + 1, horizon);
      RoundStaysBusy(q, count, n, horizon);
      var u := Arrived(q, count);
      RoundsOvertake(Apply(u, take), n - 1, count + 1, horizon);
      OvertakenCons(u, take, rest, WAITING);
      NoClaim(Apply(q, tick), come);
      OvertakenCons(Apply(q, tick), come, [take] + rest, WAITING);
      NoClaim(q, tick);
      OvertakenCons(q, tick, [come] + ([take] + rest), WAITING);
      assert Rounds(n, count, horizon) == [tick] + ([come] + ([take] + rest));
    } else {
      Nothing(q, WAITING);
    }
  }

  lemma NoClaim(q: Queue, op: Op)
    requires !op.DoClaim?
    ensures Claimed(q, op) == None
  {
  }

  lemma Nothing(q: Queue, x: Paper)
    ensures PoliteRun(q, [], x) && !ClaimedIn(q, [], x)
  {
  }

  lemma OneRound(n: nat, count: nat, horizon: nat)
    requires n > 0
    ensures ClaimsFor(Rounds(n, count, horizon), 0)
            == ClaimsFor(Rounds(n - 1, count + 1, horizon), 0) + if count % 5 == 4 then 0 else 1
    ensures (count + 1) % 5 == if count % 5 == 4 then 0 else count % 5 + 1
  {
    hide ClaimsFor, Whose;
    WhoseTurn(count);
    var tick, come, take := Round(count, horizon)[0], Round(count, horizon)[1], Round(count, horizon)[2];
    var rest := Rounds(n - 1, count + 1, horizon);
    ClaimsCons(take, rest, 0);
    ClaimsCons(come, [take] + rest, 0);
    ClaimsCons(tick, [come] + ([take] + rest), 0);
    assert Rounds(n, count, horizon) == [tick] + ([come] + ([take] + rest));
  }

  lemma WhoseTurn(count: nat)
    ensures Whose(count) == if count % 5 == 4 then 1 else 0
    ensures (count + 1) % 5 == if count % 5 == 4 then 0 else count % 5 + 1
  {
  }

  /** What a round adds to four fifths of the claims, by where in the five it falls. */
  lemma FiveTurns(claims: nat, claims': nat, turn: int, turn': int, n: nat)
    requires 0 <= turn <= 4 && n > 0 && 5 * claims' + turn' >= 4 * (n - 1)
    requires claims == claims' + (if turn == 4 then 0 else 1) && turn' == if turn == 4 then 0 else turn + 1
    ensures 5 * claims + turn >= 4 * n
  {
  }

  /** Of every five claims four are for configuration 0. */
  lemma {:induction false} FourOfFive(n: nat, count: nat, horizon: nat)
    ensures 5 * ClaimsFor(Rounds(n, count, horizon), 0) + count % 5 >= 4 * n
    decreases n
  {
    hide ClaimsFor, Rounds;
    if n > 0 {
      FourOfFive(n - 1, count + 1, horizon);
      OneRound(n, count, horizon);
      FiveTurns(ClaimsFor(Rounds(n, count, horizon), 0), ClaimsFor(Rounds(n - 1, count + 1, horizon), 0),
                count % 5, (count + 1) % 5, n);
    }
  }

  lemma Starting()
    ensures Run(EMPTY, START) == Started() && Reachable(Started())
    ensures Waits(Started(), WAITING) && Remaining(Started(), WAITING) == 0
  {
    var enqueue, tick := START[0], START[1];
    assert START == [enqueue] + [tick];
    RunCons(EMPTY, enqueue, [tick]);
    assert [tick][1..] == [];
    assert Run(EMPTY, START) == Started();
    var weights := Weights(Started(), WAITING);
    SumPick(weights, WAITING);
    assert weights - {WAITING} == map[];
  }

  /**
   For every n there is a run with 4n claims for its configuration that never takes the waiting job,
   although nothing at all is ordered before it on a fair turn: the fair turns all go to another
   configuration.
   */
  lemma OvertakenForever(n: nat)
    ensures var ops := Rounds(5 * n, 0, DAY + 5 * n + 2);
            && Reachable(Started()) && Waits(Started(), WAITING) && Remaining(Started(), WAITING) == 0
            && PoliteRun(Started(), ops, WAITING) && ClaimsFor(ops, 0) >= 4 * n
            && !ClaimedIn(Started(), ops, WAITING)
  {
    hide Waits, Remaining, PoliteRun, ClaimedIn, ClaimsFor, Reachable;
    Starting();
    RoundsOvertake(Started(), 5 * n, 0, DAY + 5 * n + 2);
    FourOfFive(5 * n, 0, DAY + 5 * n + 2);
  }

  // ---------- a restart in the same instant ----------

  const OLDER: Paper := 0
  const YOUNGER: Paper := 1

  /** Two backfill papers of the same day; the second is restarted at the instant it is looked at. */
  const RESTART: seq<Op> := [DoEnqueue(OLDER, 1, Backfill, 0, 1), DoEnqueue(YOUNGER, 1, Backfill, 0, 1),
                             DoTick(DAY + 1), DoEnqueue(YOUNGER, 2, Backfill, 0, 1)]

  function Restarted(): Queue {
    EMPTY.(now := DAY + 1, jobs := map[OLDER := ROW, YOUNGER := ROW.(version := 2, availableAt := DAY + 1)])
  }

  /** The older paper gets one version after another, and is claimed each time. */
  function Revisions(n: nat, version: nat): seq<Op>
    decreases n
  {
    if n == 0 then []
    else [DoEnqueue(OLDER, version, Backfill, 0, 1)] + ([DoClaim(0, 60)] + Revisions(n - 1, version + 1))
  }

  ghost predicate Revisable(q: Queue, version: nat) {
    && q.now == DAY + 1 && q.jobs.Keys == {OLDER, YOUNGER} && q.jobs[YOUNGER] == Restarted().jobs[YOUNGER]
    && var j := q.jobs[OLDER];
       && j.version < version && j.profile == 0 && j.source.Backfill? && j.priority == 100 && j.createdAt == 0
       && j.maxAttempts == 1
  }

  function Revised(q: Queue, version: nat): Queue
    requires OLDER in q.jobs
  {
    q.(jobs := q.jobs[OLDER := ROW.(version := version, availableAt := q.now)])
  }

  lemma RevisionGoesFirst(q: Queue, version: nat)
    requires Revisable(q, version)
    ensures var u := Revised(q, version);
            && Apply(q, DoEnqueue(OLDER, version, Backfill, 0, 1)) == u
            && Swept(u, 0) == u && IsNext(u, 0, OLDER)
  {
  }

  lemma RevisionStays(q: Queue, version: nat)
    requires Revisable(q, version)
    ensures var u := Revised(q, version);
            && Apply(q, DoEnqueue(OLDER, version, Backfill, 0, 1)) == u
            && Claimed(u, DoClaim(0, 60)) == Some(OLDER) && Revisable(Apply(u, DoClaim(0, 60)), version + 1)
  {
    hide IsNext, Swept, Next;
    var u := Revised(q, version);
    RevisionGoesFirst(q, version);
    NextExists(u, 0);
    ClaimTakes(u, 0, 60, OLDER);
  }

  lemma {:induction false} RevisionsOvertake(q: Queue, n: nat, version: nat)
    requires Revisable(q, version)
    ensures PoliteRun(q, Revisions(n, version), YOUNGER) && !ClaimedIn(q, Revisions(n, version), YOUNGER)
    ensures ClaimsFor(Revisions(n, version), 0) == n && OnlyClaimsFor(Revisions(n, version), 0)
    decreases n
  {
    hide Apply, Claimed, PoliteRun, ClaimedIn, Revisable, Revised;
    if n > 0 {
      var revise, take := DoEnqueue(OLDER, version, Backfill, 0, 1), DoClaim(0, 60);
      var rest := Revisions(n - 1, version + 1);
      RevisionStays(q, version);
      OlderThere(q, version);
      var u := Revised(q, version);
      RevisionsOvertake(Apply(u, take), n - 1, version + 1);
      OvertakenCons(u, take, rest, YOUNGER);
      NoClaim(q, revise);
      OvertakenCons(q, revise, [take] + rest, YOUNGER);
      ClaimsCons(take, rest, 0);
      ClaimsCons(revise, [take] + rest, 0);
    } else {
      Nothing(q, YOUNGER);
    }
  }

  lemma OlderThere(q: Queue, version: nat)
    requires Revisable(q, version)
    ensures OLDER in q.jobs
  {
  }

  lemma Restarting()
    ensures Run(EMPTY, RESTART) == Restarted() && Reachable(Restarted())
  {
    var a, b, c, d := RESTART[0], RESTART[1], RESTART[2], RESTART[3];
    assert RESTART == [a] + ([b] + ([c] + [d]));
    RunCons(EMPTY, a, [b] + ([c] + [d]));
    var q1 := Apply(EMPTY, a);
    RunCons(q1, b, [c] + [d]);
    var q2 := Apply(q1, b);
    RunCons(q2, c, [d]);
    assert [d][1..] == [];
    assert Run(EMPTY, RESTART) == Restarted();
  }

  /**
   Why the wait starts only after the job became available: in that very instant an older job can be
   restarted and claimed any number of times, all for the one configuration.
   */
  lemma RestartedForever(n: nat)
    ensures var q, ops := Restarted(), Revisions(n, 2);
            && Reachable(q) && Claimable(q, 0, YOUNGER) && Aged(q.jobs[YOUNGER], q.now)
            && q.jobs[YOUNGER].availableAt == q.now
            && PoliteRun(q, ops, YOUNGER) && OnlyClaimsFor(ops, 0) && ClaimsFor(ops, 0) == n
            && !ClaimedIn(q, ops, YOUNGER)
  {
    hide PoliteRun, ClaimedIn, ClaimsFor, OnlyClaimsFor, Reachable;
    Restarting();
    RevisionsOvertake(Restarted(), n, 2);
  }

  /** Any passing of time starts the wait of an aged backfill job that a claim may take and no sweep buries. */
  lemma TimeStartsTheWait(q: Queue, x: Paper, elapsed: nat)
    requires x in q.jobs && Claimable(q, q.jobs[x].profile, x) && Aged(q.jobs[x], q.now)
    requires q.jobs[x].availableAt <= q.now && !Exhausted(q.jobs[x], q.now, q.jobs[x].profile) && elapsed > 0
    ensures Waits(Apply(q, DoTick(elapsed)), x)
  {
  }
}
