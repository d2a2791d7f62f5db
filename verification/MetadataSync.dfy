/**
 The daily metadata synchronization.  A day's papers are fetched from one of three endpoints, written
 to the vector store in batches, entered in a ledger and enqueued; only then does the cursor move.
 The process may die after any effect, and the next run starts over from the stored cursor.
 */
module MetadataSync {
  import opened Wrappers
  import opened Ledger
  import Queue = TargetQueue
  import Adoption = TargetAdoption
  import Fencing = TargetFencing
  import Destination = TargetStore

  datatype Origin = Oai | OaiFallback | Atom

  /** A fetched paper; `exact` is absent when the source does not say whether it knows the version. */
  datatype Item = Item(paper: Paper, version: nat, exact: Option<bool>)

  /** What an endpoint does when it is asked: unhealthy, failing, or answering. */
  datatype Endpoint = Down | Failing | Serves(items: seq<Item>)

  /**
   One day as it turns out: what workers do to the queue before it, the three endpoints, how many effects
   happen before the process dies, and which papers of a batch reach the store if it dies writing them.
   */
  datatype Trial = Trial(
    work: seq<Queue.Op>, primary: Endpoint, fallback: Endpoint, atom: Endpoint, steps: nat, landed: set<nat>)

  datatype Fetch = Fetch(origin: Origin, items: seq<Item>)
  datatype Outcome = Outcome(paper: Paper, target: nat, kind: Option<Queue.Source>)

  const DAILY := 1

  /** The two complete listings are tried first; the submission-date listing is the last resort. */
  function FetchDay(t: Trial): Option<Fetch> {
    if t.primary.Serves? then Some(Fetch(Oai, t.primary.items))
    else if t.fallback.Serves? then Some(Fetch(OaiFallback, t.fallback.items))
    else if t.atom.Serves? then Some(Fetch(Atom, t.atom.items))
    else None
  }

  function Incoming(item: Item): nat {
    if item.version >= 1 then item.version else 1
  }

  /** What writing one paper over the stored rows comes to. */
  function OutcomeOf(existing: map<Paper, nat>, item: Item): Outcome {
    if item.paper !in existing then Outcome(item.paper, Incoming(item), Some(Queue.New))
    else if item.exact == Some(true) && Incoming(item) > existing[item.paper]
    then Outcome(item.paper, Incoming(item), Some(Queue.Revision))
    else Outcome(item.paper, existing[item.paper], None)
  }

  function Outcomes(existing: map<Paper, nat>, items: seq<Item>): seq<Outcome> {
    seq(|items|, i requires 0 <= i < |items| => OutcomeOf(existing, items[i]))
  }

  /** The stored versions after a batch; a row that is only enriched keeps its version. */
  function Written(existing: map<Paper, nat>, stored: map<Paper, nat>, items: seq<Item>): map<Paper, nat>
    decreases |items|
  {
    if items == [] then stored
    else
      var o := OutcomeOf(existing, items[0]);
      Written(existing, if o.kind.Some? then stored[o.paper := o.target] else stored, items[1..])
  }

  /** The items at the chosen positions. */
  function Chosen(items: seq<Item>, landed: set<nat>): seq<Item>
    decreases |items|
  {
    if items == [] then []
    else
      var last := |items| - 1;
      Chosen(items[..last], landed) + if last in landed then [items[last]] else []
  }

  lemma ChosenNext(items: seq<Item>, landed: set<nat>, i: nat)
    requires i < |items|
    ensures Chosen(items[..i + 1], landed)
            == if i in landed then Chosen(items[..i], landed) + [items[i]] else Chosen(items[..i], landed)
  {
    assert items[..i + 1][..i] == items[..i];
    assert Chosen(items[..i], landed) + [] == Chosen(items[..i], landed);
  }

  function Positions(n: nat): (all: set<nat>)
    ensures forall i :: i in all <==> 0 <= i < n
  {
    if n == 0 then {} else Positions(n - 1) + {n - 1}
  }

  lemma {:induction false} WrittenSnoc(existing: map<Paper, nat>, stored: map<Paper, nat>, items: seq<Item>, item: Item)
    ensures Written(existing, stored, items + [item])
            == var s, o := Written(existing, stored, items), OutcomeOf(existing, item);
               if o.kind.Some? then s[o.paper := o.target] else s
    decreases |items|
  {
    hide OutcomeOf;
    if items == [] {
      assert items + [item] == [item] && [item][1..] == [];
    } else {
      assert (items + [item])[0] == items[0] && (items + [item])[1..] == items[1..] + [item];
      var o := OutcomeOf(existing, items[0]);
      WrittenSnoc(existing, if o.kind.Some? then stored[o.paper := o.target] else stored, items[1..], item);
    }
  }

  lemma {:induction false} AllChosen(items: seq<Item>, landed: set<nat>)
    requires forall i :: 0 <= i < |items| ==> i in landed
    ensures Chosen(items, landed) == items
    decreases |items|
  {
    if items != [] {
      var last := |items| - 1;
      AllChosen(items[..last], landed);
      assert items == items[..last] + [items[last]];
    }
  }

  function Entries(outcomes: seq<Outcome>, day: Day): seq<Entry> {
    seq(|outcomes|, i requires 0 <= i < |outcomes| => Seen(outcomes[i].paper, outcomes[i].target, day, DAILY))
  }

  /** Without a claim to novelty a paper is registered again, so that a lost first registration heals. */
  function KindOf(o: Outcome): Queue.Source {
    if o.kind.Some? then o.kind.value else if o.target == 1 then Queue.New else Queue.Revision
  }

  lemma {:induction false} WrittenStores(existing: map<Paper, nat>, stored: map<Paper, nat>, items: seq<Item>)
    requires forall p :: p in existing ==> p in stored
    ensures forall p :: p in stored ==> p in Written(existing, stored, items)
    ensures forall i :: 0 <= i < |items| ==> items[i].paper in Written(existing, stored, items)
    decreases |items|
  {
    if items != [] {
      var o := OutcomeOf(existing, items[0]);
      var next := if o.kind.Some? then stored[o.paper := o.target] else stored;
      WrittenStores(existing, next, items[1..]);
      forall i | 0 <= i < |items|
        ensures items[i].paper in Written(existing, stored, items)
      {
        if i > 0 {
          assert items[i] == items[1..][i - 1];
        } else {
          assert items[0].paper in next;
        }
      }
    }
  }

  /** `item` of `day` is in the store and in the ledger, at its version if the source vouched for it. */
  predicate Covered(stored: map<Paper, nat>, ledger: map<Paper, Row>, item: Item, day: Day) {
    item.paper in stored && item.paper in ledger
    && ledger[item.paper].first <= day <= ledger[item.paper].last && DAILY in ledger[item.paper].reasons
    && (item.exact == Some(true) ==> ledger[item.paper].version >= item.version)
  }

  lemma BatchCovered(existing: map<Paper, nat>, stored: map<Paper, nat>, before: map<Paper, Row>, items: seq<Item>,
                     day: Day)
    requires forall i :: 0 <= i < |items| ==> items[i].paper in stored
    ensures forall i :: 0 <= i < |items| ==>
              Covered(stored, Recorded(before, Entries(Outcomes(existing, items), day)), items[i], day)
  {
    var entries := Entries(Outcomes(existing, items), day);
    forall i | 0 <= i < |items|
      ensures Covered(stored, Recorded(before, entries), items[i], day)
    {
      assert entries[i] in entries;
      EveryEntryCovered(before, entries, entries[i]);
    }
  }

  /** A crashed batch that is replayed leaves the ledger a single clean pass would have left. */
  lemma CrashThenReplay(ledger: map<Paper, Row>, entries: seq<Entry>, done: nat)
    requires done <= |entries|
    ensures Recorded(Recorded(ledger, entries[..done]), entries) == Recorded(ledger, entries)
  {
    Commute(ledger, entries[..done], entries);
    ReplayHarmless(ledger, entries, entries[..done]);
  }

  /** Each paper is listed once. */
  predicate Once(items: seq<Item>) {
    forall i, k :: 0 <= i < k < |items| ==> items[i].paper != items[k].paper
  }

  /** Paper `p` is as before, or at the version the outcome of its written item says. */
  ghost predicate LandedAt(existing: map<Paper, nat>, after: map<Paper, nat>, items: seq<Item>, landed: set<nat>,
                           p: Paper) {
    && ((forall i :: 0 <= i < |items| && i in landed ==> items[i].paper != p) ==>
          (p in after <==> p in existing) && (p in existing ==> after[p] == existing[p]))
    && (forall i :: 0 <= i < |items| && i in landed && items[i].paper == p ==>
          p in after && after[p] == OutcomeOf(existing, items[i]).target)
  }

  lemma OutcomeFacts(existing: map<Paper, nat>, item: Item)
    ensures OutcomeOf(existing, item).paper == item.paper
    ensures OutcomeOf(existing, item).kind.None? ==>
              item.paper in existing && OutcomeOf(existing, item).target == existing[item.paper]
  {
  }

  lemma LandedNext(existing: map<Paper, nat>, before: map<Paper, nat>, after: map<Paper, nat>, items: seq<Item>,
                   landed: set<nat>, p: Paper)
    requires Once(items) && items != [] && LandedAt(existing, before, items[..|items| - 1], landed, p)
    requires var last := |items| - 1;
             var o := OutcomeOf(existing, items[last]);
             after == if last in landed && o.kind.Some? then before[o.paper := o.target] else before
    ensures LandedAt(existing, after, items, landed, p)
  {
    hide OutcomeOf;
    var last := |items| - 1;
    OutcomeFacts(existing, items[last]);
    assert forall i :: 0 <= i < last ==> items[..last][i] == items[i];
    if items[last].paper == p {
      assert forall i :: 0 <= i < last && i in landed ==> items[..last][i].paper != p;
    }
  }

  /** Only the papers written change, each to the version its outcome says. */
  lemma {:induction false} WrittenAt(existing: map<Paper, nat>, items: seq<Item>, landed: set<nat>, p: Paper)
    requires Once(items)
    ensures LandedAt(existing, Written(existing, existing, Chosen(items, landed)), items, landed, p)
    decreases |items|
  {
    hide OutcomeOf, Written;
    if items == [] {
      WrittenNothing(existing);
    } else {
      var last := |items| - 1;
      hide LandedAt;
      WrittenAt(existing, items[..last], landed, p);
      ChosenNext(items, landed, last);
      assert items[..last + 1] == items;
      WrittenSnoc(existing, existing, Chosen(items[..last], landed), items[last]);
      LandedNext(existing, Written(existing, existing, Chosen(items[..last], landed)),
                 Written(existing, existing, Chosen(items, landed)), items, landed, p);
    }
  }

  /** What a replay finds after any part of the batch was written: the same targets, so the same entries. */
  lemma SameTargets(existing: map<Paper, nat>, items: seq<Item>, landed: set<nat>, day: Day)
    requires Once(items)
    ensures var after := Written(existing, existing, Chosen(items, landed));
            && Entries(Outcomes(after, items), day) == Entries(Outcomes(existing, items), day)
            && forall i :: 0 <= i < |items| ==>
                 OutcomeOf(after, items[i]).target == OutcomeOf(existing, items[i]).target
  {
    hide Written, Chosen;
    var after := Written(existing, existing, Chosen(items, landed));
    forall i | 0 <= i < |items|
      ensures OutcomeOf(after, items[i]).target == OutcomeOf(existing, items[i]).target
    {
      WrittenAt(existing, items, landed, items[i].paper);
    }
  }

  /**
   A batch that dies with any part of it in the store, and is then replayed, leaves the store and the
   ledger that one clean pass would have left.
   */
  lemma PartThenReplay(existing: map<Paper, nat>, ledger: map<Paper, Row>, items: seq<Item>, landed: set<nat>, day: Day)
    requires Once(items)
    ensures var after := Written(existing, existing, Chosen(items, landed));
            && Written(after, after, items) == Written(existing, existing, items)
            && Recorded(ledger, Entries(Outcomes(after, items), day))
               == Recorded(ledger, Entries(Outcomes(existing, items), day))
  {
    hide Written, Chosen, Recorded, OutcomeOf;
    var after := Written(existing, existing, Chosen(items, landed));
    var all := Positions(|items|);
    AllChosen(items, all);
    SameTargets(existing, items, landed, day);
    forall p: Paper
      ensures p in Written(after, after, items) <==> p in Written(existing, existing, items)
      ensures p in Written(existing, existing, items) ==>
                && p in Written(after, after, items)
                && Written(after, after, items)[p] == Written(existing, existing, items)[p]
    {
      WrittenAt(existing, items, landed, p);
      WrittenAt(existing, items, all, p);
      WrittenAt(after, items, all, p);
    }
  }

  // ---------- what only grows ----------

  ghost predicate Grown(before: map<Paper, nat>, after: map<Paper, nat>) {
    forall p :: p in before ==> p in after
  }

  ghost predicate Widened(before: map<Paper, Row>, after: map<Paper, Row>) {
    forall p :: p in before ==> p in after && Covers(after[p], before[p])
  }

  ghost predicate AllCovered(stored: map<Paper, nat>, ledger: map<Paper, Row>, items: seq<Item>, day: Day) {
    forall i :: 0 <= i < |items| ==> Covered(stored, ledger, items[i], day)
  }

  /** Every day after `start` up to `cursor` was fetched as recorded, written and ledgered. */
  ghost predicate Passed(start: Day, cursor: Day, days: map<Day, Fetch>, stored: map<Paper, nat>,
                         ledger: map<Paper, Row>) {
    && start <= cursor
    && forall d :: start < d <= cursor ==>
         d in days && days[d].origin != Atom && AllCovered(stored, ledger, days[d].items, d)
  }

  /** Stored versions count from one. */
  ghost predicate Numbered(stored: map<Paper, nat>) {
    forall p :: p in stored ==> stored[p] >= 1
  }

  // ---------- jobs ----------

  /** The paper has a job at this version or a later one. */
  predicate Registered(jobs: map<Paper, Queue.Job>, p: Paper, version: nat) {
    p in jobs && jobs[p].version >= version
  }

  /** Every item has a job, at its own version if the source vouched for it. */
  ghost predicate AllEnlisted(jobs: map<Paper, Queue.Job>, items: seq<Item>) {
    forall i :: 0 <= i < |items| ==>
      Registered(jobs, items[i].paper, if items[i].exact == Some(true) then items[i].version else 0)
  }

  /** No job is lost, and versions only rise. */
  ghost predicate Risen(jobs: map<Paper, Queue.Job>, jobs': map<Paper, Queue.Job>) {
    forall p :: p in jobs ==> Registered(jobs', p, jobs[p].version)
  }

  /** The items of every day after `start` up to `cursor` have their jobs. */
  ghost predicate Enlisted(start: Day, cursor: Day, days: map<Day, Fetch>, jobs: map<Paper, Queue.Job>) {
    forall d :: start < d <= cursor ==> d in days && AllEnlisted(jobs, days[d].items)
  }

  lemma RisenSelf(jobs: map<Paper, Queue.Job>)
    ensures Risen(jobs, jobs)
  {
  }

  lemma RisenFurther(a: map<Paper, Queue.Job>, b: map<Paper, Queue.Job>, c: map<Paper, Queue.Job>)
    requires Risen(a, b) && Risen(b, c)
    ensures Risen(a, c)
  {
    forall p | p in a
      ensures Registered(c, p, a[p].version)
    {
      assert Registered(b, p, a[p].version) && Registered(c, p, b[p].version);
    }
  }

  lemma AllEnlistedStays(jobs: map<Paper, Queue.Job>, jobs': map<Paper, Queue.Job>, items: seq<Item>)
    requires AllEnlisted(jobs, items) && Risen(jobs, jobs')
    ensures AllEnlisted(jobs', items)
  {
    forall i | 0 <= i < |items|
      ensures Registered(jobs', items[i].paper, if items[i].exact == Some(true) then items[i].version else 0)
    {
      assert Registered(jobs', items[i].paper, jobs[items[i].paper].version);
    }
  }

  lemma EnlistedStays(start: Day, cursor: Day, days: map<Day, Fetch>, jobs: map<Paper, Queue.Job>,
                      jobs': map<Paper, Queue.Job>)
    requires Enlisted(start, cursor, days, jobs) && Risen(jobs, jobs')
    ensures Enlisted(start, cursor, days, jobs')
  {
    hide AllEnlisted, Risen;
    forall d | start < d <= cursor
      ensures d in days && AllEnlisted(jobs', days[d].items)
    {
      AllEnlistedStays(jobs, jobs', days[d].items);
    }
  }

  /** Enqueueing leaves the paper with a job at least at the version asked for. */
  lemma EnqueueRises(q: Queue.Queue, p: Paper, version: nat, source: Queue.Source, profile: nat, maxAttempts: nat)
    ensures var q' := Queue.Enqueue(q, p, version, source, profile, maxAttempts).0;
            Registered(q'.jobs, p, version) && Risen(q.jobs, q'.jobs)
  {
  }

  /** The job was not behind: it had this version under this configuration, or a later one. */
  predicate UpToDate(jobs: map<Paper, Queue.Job>, profile: nat, p: Paper, version: nat) {
    p in jobs && (jobs[p].version > version || (jobs[p].version == version && jobs[p].profile == profile))
  }

  /** A job that was missing, or behind, can be claimed at once; one that can be claimed stays so. */
  lemma EnqueueClaimable(q: Queue.Queue, p: Paper, version: nat, source: Queue.Source, profile: nat,
                         maxAttempts: nat, r: Paper)
    ensures var q' := Queue.Enqueue(q, p, version, source, profile, maxAttempts).0;
            && (UpToDate(q.jobs, profile, p, version) || Queue.Claimable(q', profile, p))
            && (Queue.Claimable(q, profile, r) ==> Queue.Claimable(q', profile, r))
            && (r != p ==> (r in q'.jobs <==> r in q.jobs) && (r in q.jobs ==> q'.jobs[r] == q.jobs[r]))
            && (p !in q.jobs ==> p in q'.jobs && q'.jobs[p].source == source && q'.jobs[p].version == version)
  {
  }

  /** Each paper has one outcome. */
  predicate Apart(outcomes: seq<Outcome>) {
    forall i, k :: 0 <= i < k < |outcomes| ==> outcomes[i].paper != outcomes[k].paper
  }

  /** The paper is among the first `n` of the batch. */
  predicate Among(outcomes: seq<Outcome>, n: nat, p: Paper)
    requires n <= |outcomes|
  {
    exists i :: 0 <= i < n && outcomes[i].paper == p
  }

  /** A job is as it was, but for its priority, or it can be claimed at once. */
  ghost predicate SameOrClaimable(before: map<Paper, Queue.Job>, q: Queue.Queue, profile: nat) {
    forall p :: p in q.jobs ==>
      || Queue.Claimable(q, profile, p)
      || (p in before && q.jobs[p].version == before[p].version && q.jobs[p].profile == before[p].profile)
  }

  /**
   Outcome `i` is enqueued, from the jobs `before`: its paper has a job at its target or later, which can
   be claimed at once unless it was up to date; a new job says where it comes from.
   */
  ghost predicate EnqueuedAt(before: map<Paper, Queue.Job>, q: Queue.Queue, profile: nat, outcomes: seq<Outcome>,
                             i: nat)
    requires i < |outcomes|
  {
    var p, target := outcomes[i].paper, outcomes[i].target;
    && Registered(q.jobs, p, target)
    && (UpToDate(before, profile, p, target) || Queue.Claimable(q, profile, p))
    && (Apart(outcomes) && p !in before ==>
          q.jobs[p].source == KindOf(outcomes[i]) && q.jobs[p].version == target)
  }

  /** No job but those of the first `n` outcomes is touched. */
  ghost predicate OthersKept(before: map<Paper, Queue.Job>, jobs: map<Paper, Queue.Job>, outcomes: seq<Outcome>, n: nat)
    requires n <= |outcomes|
  {
    forall p :: !Among(outcomes, n, p) ==>
      (p in jobs <==> p in before) && (p in before ==> jobs[p] == before[p])
  }

  /** The first `n` outcomes are enqueued, from the jobs `before`, and no other job is touched. */
  ghost predicate Enqueued(before: map<Paper, Queue.Job>, q: Queue.Queue, profile: nat, outcomes: seq<Outcome>, n: nat)
    requires n <= |outcomes|
  {
    && Risen(before, q.jobs) && OthersKept(before, q.jobs, outcomes, n)
    && forall i :: 0 <= i < n ==> EnqueuedAt(before, q, profile, outcomes, i)
  }

  lemma NoneEnqueued(q: Queue.Queue, profile: nat, outcomes: seq<Outcome>)
    ensures Enqueued(q.jobs, q, profile, outcomes, 0) && SameOrClaimable(q.jobs, q, profile)
  {
  }

  lemma StillEnqueuedAt(before: map<Paper, Queue.Job>, q: Queue.Queue, profile: nat, outcomes: seq<Outcome>, n: nat,
                        maxAttempts: nat, i: nat)
    requires i < n < |outcomes| && EnqueuedAt(before, q, profile, outcomes, i)
    ensures var o := outcomes[n];
            var q' := Queue.Enqueue(q, o.paper, o.target, KindOf(o), profile, maxAttempts).0;
            EnqueuedAt(before, q', profile, outcomes, i)
  {
    hide Queue.Claimable, Queue.Enqueue, KindOf, UpToDate;
    var o := outcomes[n];
    var q' := Queue.Enqueue(q, o.paper, o.target, KindOf(o), profile, maxAttempts).0;
    EnqueueRises(q, o.paper, o.target, KindOf(o), profile, maxAttempts);
    EnqueueClaimable(q, o.paper, o.target, KindOf(o), profile, maxAttempts, outcomes[i].paper);
    assert Registered(q'.jobs, outcomes[i].paper, q.jobs[outcomes[i].paper].version);
  }

  lemma NowEnqueuedAt(before: map<Paper, Queue.Job>, q: Queue.Queue, profile: nat, outcomes: seq<Outcome>, n: nat,
                      maxAttempts: nat)
    requires n < |outcomes| && OthersKept(before, q.jobs, outcomes, n) && SameOrClaimable(before, q, profile)
    ensures var o := outcomes[n];
            var q' := Queue.Enqueue(q, o.paper, o.target, KindOf(o), profile, maxAttempts).0;
            EnqueuedAt(before, q', profile, outcomes, n)
  {
    hide Queue.Claimable, Queue.Enqueue, KindOf, Risen;
    var o := outcomes[n];
    EnqueueRises(q, o.paper, o.target, KindOf(o), profile, maxAttempts);
    EnqueueClaimable(q, o.paper, o.target, KindOf(o), profile, maxAttempts, o.paper);
    if Apart(outcomes) && o.paper !in before {
      assert !Among(outcomes, n, o.paper);
    }
  }

  lemma OthersStillKept(before: map<Paper, Queue.Job>, q: Queue.Queue, profile: nat, outcomes: seq<Outcome>, n: nat,
                        maxAttempts: nat)
    requires n < |outcomes| && OthersKept(before, q.jobs, outcomes, n)
    ensures var o := outcomes[n];
            var q' := Queue.Enqueue(q, o.paper, o.target, KindOf(o), profile, maxAttempts).0;
            OthersKept(before, q'.jobs, outcomes, n + 1)
  {
    hide Queue.Claimable, Queue.Enqueue, KindOf, UpToDate, Registered;
    var o := outcomes[n];
    var q' := Queue.Enqueue(q, o.paper, o.target, KindOf(o), profile, maxAttempts).0;
    forall p | !Among(outcomes, n + 1, p)
      ensures (p in q'.jobs <==> p in before) && (p in before ==> q'.jobs[p] == before[p])
    {
      assert p != o.paper && !Among(outcomes, n, p);
      EnqueueClaimable(q, o.paper, o.target, KindOf(o), profile, maxAttempts, p);
    }
  }

  lemma OneMoreEnqueued(before: map<Paper, Queue.Job>, q: Queue.Queue, profile: nat, outcomes: seq<Outcome>, n: nat,
                        maxAttempts: nat)
    requires n < |outcomes| && Enqueued(before, q, profile, outcomes, n) && SameOrClaimable(before, q, profile)
    ensures var o := outcomes[n];
            var q' := Queue.Enqueue(q, o.paper, o.target, KindOf(o), profile, maxAttempts).0;
            Enqueued(before, q', profile, outcomes, n + 1) && SameOrClaimable(before, q', profile)
  {
    hide Queue.Enqueue, KindOf, EnqueuedAt, OthersKept, SameOrClaimable, Risen, Registered;
    var o := outcomes[n];
    var q' := Queue.Enqueue(q, o.paper, o.target, KindOf(o), profile, maxAttempts).0;
    EnqueueRises(q, o.paper, o.target, KindOf(o), profile, maxAttempts);
    RisenFurther(before, q.jobs, q'.jobs);
    SameOrStill(before, q, q', profile, o.paper, o.target, KindOf(o), maxAttempts);
    forall i | 0 <= i < n
      ensures EnqueuedAt(before, q', profile, outcomes, i)
    {
      StillEnqueuedAt(before, q, profile, outcomes, n, maxAttempts, i);
    }
    NowEnqueuedAt(before, q, profile, outcomes, n, maxAttempts);
    OthersStillKept(before, q, profile, outcomes, n, maxAttempts);
  }

  lemma SameOrStill(before: map<Paper, Queue.Job>, q: Queue.Queue, q': Queue.Queue, profile: nat, p: Paper,
                    version: nat, source: Queue.Source, maxAttempts: nat)
    requires SameOrClaimable(before, q, profile)
    requires q' == Queue.Enqueue(q, p, version, source, profile, maxAttempts).0
    ensures SameOrClaimable(before, q', profile)
  {
    forall r | r in q'.jobs
      ensures Queue.Claimable(q', profile, r)
              || (r in before && q'.jobs[r].version == before[r].version && q'.jobs[r].profile == before[r].profile)
    {
      EnqueueClaimable(q, p, version, source, profile, maxAttempts, r);
    }
  }

  /**
   The paper has a job that can be claimed at once: a new paper as new and at the version it was fetched
   with, a known one at the version stored or fetched, as a revision from the second version on.
   */
  predicate AnnouncedAt(existing: map<Paper, nat>, q: Queue.Queue, profile: nat, item: Item) {
    var p := item.paper;
    && Queue.Claimable(q, profile, p)
    && (p !in existing ==>
          q.jobs[p].source == Queue.New && q.jobs[p].version == if item.version >= 1 then item.version else 1)
    && (p in existing ==>
          if item.exact == Some(true) && item.version > existing[p]
          then q.jobs[p].version == item.version && q.jobs[p].source == Queue.Revision
          else q.jobs[p].version == existing[p]
               && q.jobs[p].source == if existing[p] == 1 then Queue.New else Queue.Revision)
  }

  /** Every paper of the batch that had no job is announced. */
  ghost predicate Announced(existing: map<Paper, nat>, before: map<Paper, Queue.Job>, q: Queue.Queue, profile: nat,
                            items: seq<Item>) {
    forall i :: 0 <= i < |items| && items[i].paper !in before ==> AnnouncedAt(existing, q, profile, items[i])
  }

  lemma EnqueuedAll(existing: map<Paper, nat>, before: map<Paper, Queue.Job>, q: Queue.Queue, profile: nat,
                    items: seq<Item>)
    requires Enqueued(before, q, profile, Outcomes(existing, items), |items|)
    ensures AllEnlisted(q.jobs, items)
  {
    hide Queue.Claimable, Risen, OthersKept;
    forall i | 0 <= i < |items|
      ensures Registered(q.jobs, items[i].paper, if items[i].exact == Some(true) then items[i].version else 0)
    {
      assert EnqueuedAt(before, q, profile, Outcomes(existing, items), i);
    }
  }

  lemma EnqueuedAnnounced(existing: map<Paper, nat>, before: map<Paper, Queue.Job>, q: Queue.Queue, profile: nat,
                          items: seq<Item>)
    requires Enqueued(before, q, profile, Outcomes(existing, items), |items|) && Once(items) && Numbered(existing)
    ensures Announced(existing, before, q, profile, items)
  {
    hide Queue.Claimable, Risen, OthersKept;
    var outcomes := Outcomes(existing, items);
    assert Apart(outcomes) by {
      hide OutcomeOf;
      forall i, k | 0 <= i < k < |outcomes|
        ensures outcomes[i].paper != outcomes[k].paper
      {
        OutcomeFacts(existing, items[i]);
        OutcomeFacts(existing, items[k]);
      }
    }
    forall i | 0 <= i < |items| && items[i].paper !in before
      ensures AnnouncedAt(existing, q, profile, items[i])
    {
      assert EnqueuedAt(before, q, profile, outcomes, i);
    }
  }

  lemma AllCoveredStays(stored: map<Paper, nat>, ledger: map<Paper, Row>, stored': map<Paper, nat>,
                        ledger': map<Paper, Row>, items: seq<Item>, day: Day)
    requires AllCovered(stored, ledger, items, day) && Grown(stored, stored') && Widened(ledger, ledger')
    ensures AllCovered(stored', ledger', items, day)
  {
    forall i | 0 <= i < |items|
      ensures Covered(stored', ledger', items[i], day)
    {
      assert Covered(stored, ledger, items[i], day);
    }
  }

  lemma PassedStays(start: Day, cursor: Day, days: map<Day, Fetch>, stored: map<Paper, nat>,
                    ledger: map<Paper, Row>, stored': map<Paper, nat>, ledger': map<Paper, Row>)
    requires Passed(start, cursor, days, stored, ledger) && Grown(stored, stored') && Widened(ledger, ledger')
    ensures Passed(start, cursor, days, stored', ledger')
  {
    hide AllCovered, Grown, Widened;
    forall d | start < d <= cursor
      ensures d in days && days[d].origin != Atom && AllCovered(stored', ledger', days[d].items, d)
    {
      AllCoveredStays(stored, ledger, stored', ledger', days[d].items, d);
    }
  }

  lemma RecordedWidens(ledger: map<Paper, Row>, entries: seq<Entry>)
    ensures Widened(ledger, Recorded(ledger, entries))
  {
    forall p | p in ledger
      ensures p in Recorded(ledger, entries) && Covers(Recorded(ledger, entries)[p], ledger[p])
    {
      RowsWiden(ledger, entries, p);
    }
  }

  lemma WidenedSelf(ledger: map<Paper, Row>)
    ensures Widened(ledger, ledger)
  {
  }

  lemma WidenedFurther(a: map<Paper, Row>, b: map<Paper, Row>, c: map<Paper, Row>)
    requires Widened(a, b) && Widened(b, c)
    ensures Widened(a, c)
  {
    forall p | p in a
      ensures p in c && Covers(c[p], a[p])
    {
      assert Covers(b[p], a[p]) && Covers(c[p], b[p]);
    }
  }

  /** A wider scope still leads its jobs. */
  lemma RecordedLeads(q: Queue.Queue, entries: seq<Entry>)
    requires Adoption.ScopeLeads(q)
    ensures Adoption.ScopeLeads(q.(scope := Recorded(q.scope, entries)))
  {
    forall p | p in q.jobs
      ensures p in Recorded(q.scope, entries) && q.jobs[p].version <= Recorded(q.scope, entries)[p].version
    {
      RowsWiden(q.scope, entries, p);
    }
  }

  /** The papers of the first complete listing that answers; the submission-date listing is not one. */
  predicate ByListing(t: Trial, fetch: Fetch) {
    if t.primary.Serves? then fetch.origin.Oai? && fetch.items == t.primary.items
    else t.fallback.Serves? && fetch.origin.OaiFallback? && fetch.items == t.fallback.items
  }

  /** How many effects it takes to write `n` papers: two for each batch, and one for each paper that is enqueued. */
  function Effort(n: nat, batchSize: nat, lean: bool): (effects: nat)
    requires batchSize > 0
    ensures n > 0 ==> effects >= 2
    decreases n
  {
    if n == 0 then 0
    else
      var m := if n <= batchSize then n else batchSize;
      2 + (if lean then 0 else m) + Effort(n - m, batchSize, lean)
  }

  /** No paper is listed with a version its listing disowns. */
  predicate NoneInexact(items: seq<Item>) {
    forall i :: 0 <= i < |items| ==> items[i].exact != Some(false)
  }

  /** A complete listing answers, its papers can be enqueued, and the process lives to move the cursor. */
  predicate CanPass(t: Trial, batchSize: nat, lean: bool)
    requires batchSize > 0
  {
    && (t.primary.Serves? || t.fallback.Serves?)
    && var items := if t.primary.Serves? then t.primary.items else t.fallback.items;
       t.steps > Effort(|items|, batchSize, lean) && (lean || NoneInexact(items))
  }

  /** Each of the `n` days after `base` was passed on the listing of its trial. */
  ghost predicate AllByListing(base: Day, days: map<Day, Fetch>, trials: seq<Trial>, n: nat)
    requires n <= |trials|
  {
    forall d :: base < d <= base + n ==> d in days && ByListing(trials[d - base - 1], days[d])
  }

  lemma NoneByListing(days: map<Day, Fetch>, trials: seq<Trial>)
    ensures forall base :: AllByListing(base, days, trials, 0)
  {
  }

  lemma OneMoreByListing(base: Day, days: map<Day, Fetch>, trials: seq<Trial>, n: nat, fetch: Fetch)
    requires n < |trials| && AllByListing(base, days, trials, n) && ByListing(trials[n], fetch)
    ensures AllByListing(base, days[base + 1 + n := fetch], trials, n + 1)
  {
    hide ByListing;
  }

  /** Workers serve the queue; they enqueue nothing themselves. */
  predicate ServeOnly(ops: seq<Queue.Op>) {
    forall i :: 0 <= i < |ops| ==> !ops[i].DoEnqueue?
  }

  lemma ServingRecordsFirst(q: Queue.Queue, ops: seq<Queue.Op>)
    requires ServeOnly(ops)
    ensures Adoption.RecordedFirstRun(q, ops)
    decreases |ops|
  {
    hide Queue.Apply;
    if ops != [] {
      ServingRecordsFirst(Queue.Apply(q, ops[0]), ops[1..]);
    }
  }

  class Sync {
    const queue: Destination.Store
    const lean: bool
    const profile: nat
    const batchSize: nat
    const maxAttempts: nat
    var cursor: Option<Day>
    var stored: map<Paper, nat>
    var deferred: map<Paper, Row>
    ghost var start: Day                         // where the cursor began
    ghost var days: map<Day, Fetch>              // the fetch each passed day was advanced by

    function Books(): map<Paper, Row>
      reads this, queue
    {
      if lean then deferred else queue.scope
    }

    ghost predicate Valid()
      reads this, queue
    {
      && batchSize > 0 && queue.Valid() && Numbered(stored)
      && (cursor.Some? ==> Passed(start, cursor.value, days, stored, Books()))
      && (cursor.Some? && !lean ==> Enlisted(start, cursor.value, days, queue.jobs))
    }

    /** Every job stays within its recorded scope. */
    ghost predicate Leads()
      reads this, queue
    {
      Adoption.ScopeLeads(queue.State())
    }

    constructor (queue: Destination.Store, lean: bool, profile: nat, batchSize: nat, maxAttempts: nat)
      requires batchSize > 0 && queue.Valid()
      ensures Valid() && this.queue == queue && cursor == None && this.lean == lean
    {
      this.queue, this.lean, this.profile := queue, lean, profile;
      this.batchSize, this.maxAttempts := batchSize, maxAttempts;
      cursor, stored, deferred := None, map[], map[];
      start, days := 0, map[];
    }

    /** Enter a batch in the deferred ledger or in the destination's scope. */
    method RecordEntries(entries: seq<Entry>)
      requires Valid()
      modifies this`deferred, queue`scope
      ensures Valid() && Books() == Recorded(old(Books()), entries) && (old(Leads()) ==> Leads())
    {
      hide Queue.Inv, Adoption.ScopeLeads, Recorded, Passed;
      RecordedWidens(Books(), entries);
      if cursor.Some? {
        GrownSelf(stored);
        PassedStays(start, cursor.value, days, stored, Books(), stored, Recorded(Books(), entries));
      }
      if lean {
        deferred := RecordDeferred(deferred, entries);
      } else {
        ghost var q := queue.State();
        if Leads() {
          RecordedLeads(q, entries);
        }
        queue.RecordScope(entries);
        assert queue.State() == q.(scope := Recorded(q.scope, entries));
      }
    }

    /** Enqueue the versions of a recorded batch, stopping at a paper without an exact version. */
    method EnqueueBatch(items: seq<Item>, outcomes: seq<Outcome>, budget: nat) returns (ok: bool, left: nat)
      requires Valid() && |items| == |outcomes|
      requires forall i :: 0 <= i < |outcomes| ==>
                 outcomes[i].paper in queue.scope && outcomes[i].target <= queue.scope[outcomes[i].paper].version
      modifies queue`jobs
      ensures Valid() && left <= budget && (old(Leads()) ==> Leads())
      ensures Risen(old(queue.jobs), queue.jobs)
      ensures ok <==> |items| <= budget && NoneInexact(items)
      ensures ok ==> left == budget - |items|
      ensures ok ==> Enqueued(old(queue.jobs), queue.State(), profile, outcomes, |outcomes|)
    {
      hide Queue.Inv, Adoption.ScopeLeads, Passed, Enlisted, Queue.Enqueue, Enqueued, SameOrClaimable, Risen;
      left := budget;
      ghost var before := queue.jobs;
      NoneEnqueued(queue.State(), profile, outcomes);
      RisenSelf(before);
      for i := 0 to |items|
        invariant Valid() && left == budget - i && (old(Leads()) ==> Leads())
        invariant Enqueued(before, queue.State(), profile, outcomes, i)
        invariant SameOrClaimable(before, queue.State(), profile) && Risen(before, queue.jobs)
        invariant forall k :: 0 <= k < i ==> items[k].exact != Some(false)
      {
        if items[i].exact == Some(false) || left == 0 {
          return false, left;
        }
        var o := outcomes[i];
        ghost var q := queue.State();
        ghost var op := Queue.DoEnqueue(o.paper, o.target, KindOf(o), profile, maxAttempts);
        if Leads() {
          Adoption.ScopeStaysAhead(q, op);
        }
        OneMoreEnqueued(before, q, profile, outcomes, i, maxAttempts);
        EnqueueRises(q, o.paper, o.target, KindOf(o), profile, maxAttempts);
        RisenFurther(before, q.jobs, Queue.Apply(q, op).jobs);
        if cursor.Some? && !lean {
          EnlistedStays(start, cursor.value, days, q.jobs, Queue.Apply(q, op).jobs);
        }
        var changed := queue.EnqueuePaper(o.paper, o.target, KindOf(o), profile, maxAttempts);
        assert queue.State() == Queue.Apply(q, op);
        left := left - 1;
      }
      ok := true;
    }

    /**
     Write one batch: the store first, then the ledger, then the queue; `steps` effects happen at most.
     If the process dies while the store is written, any part of the batch may have reached it.
     */
    method WriteBatch(items: seq<Item>, day: Day, steps: nat, landed: set<nat>) returns (ok: bool, left: nat)
      requires Valid()
      modifies this`stored, this`deferred, queue`scope, queue`jobs
      ensures Valid() && left <= steps && Grown(old(stored), stored) && Widened(old(Books()), Books())
      ensures ok ==> AllCovered(stored, Books(), items, day)
      ensures old(Leads()) ==> Leads()
      ensures Risen(old(queue.jobs), queue.jobs)
      ensures ok && !lean ==>
                && AllEnlisted(queue.jobs, items)
                && Enqueued(old(queue.jobs), queue.State(), profile, Outcomes(old(stored), items), |items|)
      ensures ok && !lean && Once(items) ==> Announced(old(stored), old(queue.jobs), queue.State(), profile, items)
      ensures stored == Written(old(stored), old(stored), if steps == 0 then Chosen(items, landed) else items)
      ensures ok <==> steps >= 2 && (lean || (|items| <= steps - 2 && NoneInexact(items)))
      ensures ok ==> left == steps - 2 - if lean then 0 else |items|
    {
      hide Queue.Inv, Adoption.ScopeLeads, Passed, Recorded, Covered, Written, Grown, Widened, Enlisted, Enqueued,
        AllEnlisted, Risen, Announced, NoneInexact;
      ghost var before := Books();
      WidenedSelf(before);
      RisenSelf(queue.jobs);
      ghost var jobs := queue.jobs;
      var outcomes := Outcomes(stored, items);
      var all := Positions(|items|);
      StorePapers(items, if steps == 0 then landed else all);
      if steps == 0 {
        return false, 0;
      }
      AllChosen(items, all);
      if steps == 1 {
        return false, 0;
      }
      var entries := Entries(outcomes, day);
      AllStored(old(stored), items);
      BatchCovered(old(stored), stored, before, items, day);
      RecordedWidens(before, entries);
      RecordEntries(entries);
      assert AllCovered(stored, Books(), items, day);
      if lean {
        return true, steps - 2;
      }
      EntriesReached(before, outcomes, day);
      ok, left := EnqueueBatch(items, outcomes, steps - 2);
      if ok {
        EnqueuedAll(old(stored), jobs, queue.State(), profile, items);
        if Once(items) {
          EnqueuedAnnounced(old(stored), jobs, queue.State(), profile, items);
        }
      }
    }

    /** Write the papers at the chosen positions, by what the store held before the batch. */
    method StorePapers(items: seq<Item>, landed: set<nat>)
      requires Valid()
      modifies this`stored
      ensures Valid() && Grown(old(stored), stored)
      ensures stored == Written(old(stored), old(stored), Chosen(items, landed))
    {
      hide Queue.Inv, Adoption.ScopeLeads, Passed, Written, OutcomeOf;
      ghost var existing := stored;
      var outcomes := Outcomes(stored, items);
      WrittenNothing(existing);
      for i := 0 to |items|
        invariant Numbered(stored) && stored == Written(existing, existing, Chosen(items[..i], landed))
      {
        ChosenNext(items, landed, i);
        if i in landed {
          WrittenSnoc(existing, existing, Chosen(items[..i], landed), items[i]);
          TargetsCount(existing, items[i]);
          if outcomes[i].kind.Some? {
            stored := stored[outcomes[i].paper := outcomes[i].target];
          }
        }
      }
      assert items[..|items|] == items;
      WrittenStores(existing, existing, Chosen(items, landed));
      if cursor.Some? {
        WidenedSelf(Books());
        PassedStays(start, cursor.value, days, existing, Books(), stored, Books());
      }
    }

    /** Whatever happens to the queue meanwhile: workers at it, or somebody enqueueing by hand. */
    method Work(ops: seq<Queue.Op>)
      requires Valid()
      modifies queue
      ensures Valid() && Widened(old(Books()), Books()) && Risen(old(queue.jobs), queue.jobs)
      ensures queue.State() == Queue.Run(old(queue.State()), ops)
      ensures old(Leads() && Adoption.RecordedFirstRun(queue.State(), ops)) ==> Leads()
    {
      hide Queue.Inv, Adoption.ScopeLeads, Passed, Enlisted, Widened, Queue.Apply, Grown, Risen;
      ghost var before := queue.State();
      WidenedSelf(Books());
      RisenSelf(queue.jobs);
      for i := 0 to |ops|
        invariant Valid() && Widened(old(Books()), Books()) && Risen(old(queue.jobs), queue.jobs)
        invariant Queue.Run(queue.State(), ops[i..]) == Queue.Run(before, ops)
      {
        ghost var was, q := Books(), queue.State();
        ScopeWidens(q, ops[i]);
        JobsRise(q, ops[i]);
        queue.Perform(ops[i]);
        WidenedSelf(was);
        WidenedFurther(old(Books()), was, Books());
        if cursor.Some? {
          GrownSelf(stored);
          PassedStays(start, cursor.value, days, stored, was, stored, Books());
          if !lean {
            EnlistedStays(start, cursor.value, days, q.jobs, queue.jobs);
          }
        }
        RisenFurther(old(queue.jobs), q.jobs, queue.jobs);
      }
      if Adoption.ScopeLeads(before) && Adoption.RecordedFirstRun(before, ops) {
        Adoption.NeverStuck(before, ops, profile, 0);
      }
    }

    /** Write a day's papers batch by batch; a failed batch leaves the day to be replayed. */
    method SyncDay(items: seq<Item>, day: Day, steps: nat, landed: set<nat>) returns (ok: bool, left: nat)
      requires Valid()
      modifies this`stored, this`deferred, queue`scope, queue`jobs
      ensures Valid() && left <= steps && Widened(old(Books()), Books())
      ensures ok ==> AllCovered(stored, Books(), items, day)
      ensures old(Leads()) ==> Leads()
      ensures Risen(old(queue.jobs), queue.jobs)
      ensures ok && !lean ==> AllEnlisted(queue.jobs, items)
      ensures ok <==> steps >= Effort(|items|, batchSize, lean) && (lean || NoneInexact(items))
      ensures ok ==> left == steps - Effort(|items|, batchSize, lean)
    {
      hide Queue.Inv, Adoption.ScopeLeads, Passed, Covered, Widened, Grown, AllCovered, Enlisted, AllEnlisted, Risen,
        Enqueued, Announced, NoneInexact;
      left := steps;
      var offset := 0;
      WidenedSelf(Books());
      RisenSelf(queue.jobs);
      NoneToCover(stored, Books(), day);
      NoneToEnlist(queue.jobs);
      assert items[..0] == [];
      assert NoneInexact([]) by {
        NoneIsExact();
      }
      while offset < |items|
        invariant Valid() && left <= steps && offset <= |items| && Widened(old(Books()), Books())
        invariant AllCovered(stored, Books(), items[..offset], day) && (old(Leads()) ==> Leads())
        invariant Risen(old(queue.jobs), queue.jobs) && (!lean ==> AllEnlisted(queue.jobs, items[..offset]))
        invariant left + Effort(|items|, batchSize, lean) == steps + Effort(|items| - offset, batchSize, lean)
        invariant lean || NoneInexact(items[..offset])
      {
        OneBatch(items, offset, batchSize, lean);
        var end := if offset + batchSize < |items| then offset + batchSize else |items|;
        ghost var wasStored, was, jobs := stored, Books(), queue.jobs;
        ok, left := WriteBatch(items[offset..end], day, left, landed);
        WidenedFurther(old(Books()), was, Books());
        RisenFurther(old(queue.jobs), jobs, queue.jobs);
        if !ok {
          return false, left;
        }
        AllCoveredStays(wasStored, was, stored, Books(), items[..offset], day);
        CoveredTogether(stored, Books(), items, offset, end, day);
        if !lean {
          AllEnlistedStays(jobs, queue.jobs, items[..offset]);
          EnlistedTogether(queue.jobs, items, offset, end);
        }
        offset := end;
      }
      assert items[..|items|] == items;
      ok := true;
    }

    /** The cursor only ever moves to the next day. */
    method MarkSucceeded(day: Day) returns (accepted: bool)
      modifies this`cursor
      ensures accepted <==> old(cursor).None? || old(cursor).value + 1 == day || old(cursor).value == day
      ensures cursor == if accepted then Some(day) else old(cursor)
    {
      accepted := cursor.None? || cursor.value + 1 == day || cursor.value == day;
      if accepted {
        cursor := Some(day);
      }
    }

    /** The newest recent day that has papers, or else the day before the recent window. */
    method InitialCursor(yesterday: Day, recentDays: nat, present: set<Day>) returns (day: Day)
      requires recentDays > 0
      ensures (day in present && yesterday - recentDays < day <= yesterday) || day == yesterday - recentDays
      ensures forall d :: day < d <= yesterday ==> d !in present
    {
      day := yesterday;
      var windowStart := yesterday - (recentDays - 1);
      while day >= windowStart
        invariant windowStart - 1 <= day <= yesterday
        invariant forall d :: day < d <= yesterday ==> d !in present
      {
        if day in present {
          return day;
        }
        day := day - 1;
      }
    }

    /** A day that was fetched, written and ledgered in full moves the cursor on; it is never refused. */
    method Pass(day: Day, fetch: Fetch)
      requires Valid() && cursor == Some(day - 1) && fetch.origin != Atom
      requires AllCovered(stored, Books(), fetch.items, day)
      requires !lean ==> AllEnlisted(queue.jobs, fetch.items)
      modifies this`cursor, this`days
      ensures Valid() && cursor == Some(day) && days == old(days)[day := fetch]
    {
      hide Queue.Inv, Adoption.ScopeLeads, AllCovered, AllEnlisted;
      var accepted := MarkSucceeded(day);
      assert accepted;
      days := days[day := fetch];
    }

    /** Fetch, write and pass the next day; false when it fails, is not to be passed, or the process dies. */
    method TryDay(day: Day, trial: Trial) returns (passed: bool)
      requires Valid() && cursor == Some(day - 1)
      modifies this`stored, this`deferred, this`cursor, this`days, queue
      ensures Valid() && cursor == if passed then Some(day) else old(cursor)
      ensures passed ==>
                day in days && days == old(days)[day := days[day]] && ByListing(trial, days[day])
      ensures !passed ==> days == old(days)
      ensures passed <==> CanPass(trial, batchSize, lean)
      ensures old(Leads()) && ServeOnly(trial.work) ==> Leads()
    {
      hide Queue.Inv, Adoption.ScopeLeads, Covered, Widened, Grown, AllCovered, Passed, Enlisted, AllEnlisted, Risen,
        NoneInexact, Effort;
      if ServeOnly(trial.work) {
        ServingRecordsFirst(queue.State(), trial.work);
      }
      Work(trial.work);
      var fetch := FetchDay(trial);
      if fetch.None? {
        return false;
      }
      var ok, left := SyncDay(fetch.value.items, day, trial.steps, trial.landed);
      if !ok || left == 0 || fetch.value.origin.Atom? {
        return false;
      }
      Pass(day, fetch.value);
      return true;
    }

    /**
     Synchronize day after day up to yesterday, stopping at the first failure or death of the process.
     `trials` is what the days turn out to be like; the process also dies when they run out.
     */
    method RunSync(today: Day, recentDays: nat, present: set<Day>, trials: seq<Trial>)
      returns (failed: Option<Day>, advanced: nat)
      requires Valid() && recentDays > 0
      modifies this, queue
      ensures Valid() && cursor.Some?
      ensures old(cursor).Some? ==> start == old(start) && cursor.value == old(cursor).value + advanced
      ensures failed.Some? ==>
                && failed.value == cursor.value + 1 && advanced < |trials|
                && !CanPass(trials[advanced], batchSize, lean)
      ensures failed.None? && |trials| > advanced ==> cursor.value >= today - 1
      ensures cursor.value >= today ==> advanced == 0
      ensures advanced <= |trials|
      ensures AllByListing(cursor.value - advanced, days, trials, advanced)
      ensures forall k :: 0 <= k < advanced ==> CanPass(trials[k], batchSize, lean)
      ensures old(Leads()) && (forall i :: 0 <= i < |trials| ==> ServeOnly(trials[i].work)) ==> Leads()
    {
      hide Queue.Inv, Adoption.ScopeLeads, Covered, Widened, Grown, AllCovered, Passed, Enlisted, ByListing,
        CanPass, AllByListing, ServeOnly;
      var yesterday := today - 1;
      failed, advanced := None, 0;
      NoneByListing(days, trials);
      if cursor.None? {
        var day := InitialCursor(yesterday, recentDays, present);
        cursor, start := Some(day), day;
        PassedNone(day, days, stored, Books());
        EnlistedNone(day, days, queue.jobs);
      }
      var current := cursor.value + 1;
      while current <= yesterday && advanced < |trials|
        invariant Valid() && cursor.Some? && current == cursor.value + 1
        invariant old(cursor).Some? ==> start == old(start) && cursor.value == old(cursor).value + advanced
        invariant current > yesterday + 1 ==> advanced == 0
        invariant advanced <= |trials|
        invariant AllByListing(cursor.value - advanced, days, trials, advanced)
        invariant forall k :: 0 <= k < advanced ==> CanPass(trials[k], batchSize, lean)
        invariant old(Leads()) && (forall i :: 0 <= i < |trials| ==> ServeOnly(trials[i].work)) ==> Leads()
        decreases yesterday - current
      {
        ghost var was := days;
        var passed := TryDay(current, trials[advanced]);
        if !passed {
          return Some(current), advanced;
        }
        OneMoreByListing(cursor.value - 1 - advanced, was, trials, advanced, days[current]);
        advanced := advanced + 1;
        current := current + 1;
      }
    }

    /**
     However often the synchronization is killed and started again, and whatever happens to the queue
     between runs and between days, the cursor never skips or goes back.
     */
    method ManyRuns(runs: seq<(seq<Queue.Op>, Day, seq<Trial>)>, recentDays: nat, present: set<Day>)
      requires Valid() && recentDays > 0
      modifies this, queue
      ensures Valid() && (old(cursor).Some? || runs != [] ==> cursor.Some?)
      ensures old(cursor).Some? ==> start == old(start) && cursor.value >= old(cursor).value
      ensures cursor.Some? ==>
                && start <= cursor.value
                && forall d :: start < d <= cursor.value ==>
                     && d in days && days[d].origin != Atom && AllCovered(stored, Books(), days[d].items, d)
                     && (!lean ==> AllEnlisted(queue.jobs, days[d].items))
    {
      hide Queue.Inv, Adoption.ScopeLeads, AllCovered, Widened, AllEnlisted, Risen;
      for i := 0 to |runs|
        invariant Valid() && (old(cursor).Some? || i > 0 ==> cursor.Some?)
        invariant old(cursor).Some? ==> start == old(start) && cursor.value >= old(cursor).value
      {
        Work(runs[i].0);
        var failed, advanced := RunSync(runs[i].1, recentDays, present, runs[i].2);
      }
    }
  }

  lemma NoneIsExact()
    ensures NoneInexact([])
  {
  }

  /** What one more batch takes, and that its papers are the next ones of the day. */
  lemma OneBatch(items: seq<Item>, offset: nat, batchSize: nat, lean: bool)
    requires batchSize > 0 && offset < |items|
    ensures var end := if offset + batchSize < |items| then offset + batchSize else |items|;
            && Effort(|items| - offset, batchSize, lean)
               == 2 + (if lean then 0 else end - offset) + Effort(|items| - end, batchSize, lean)
            && (NoneInexact(items[..end]) <==> NoneInexact(items[..offset]) && NoneInexact(items[offset..end]))
            && (NoneInexact(items) ==> NoneInexact(items[offset..end]))
  {
    var end := if offset + batchSize < |items| then offset + batchSize else |items|;
    var batch := items[offset..end];
    if NoneInexact(items[..offset]) && NoneInexact(batch) {
      forall i | 0 <= i < end
        ensures items[..end][i].exact != Some(false)
      {
        assert i < offset ==> items[..offset][i] == items[i];
        assert i >= offset ==> batch[i - offset] == items[i];
      }
    }
    if NoneInexact(items[..end]) {
      assert forall i :: 0 <= i < offset ==> items[..offset][i] == items[..end][i];
      assert forall i :: 0 <= i < |batch| ==> batch[i] == items[..end][offset + i];
    }
  }

  lemma TargetsCount(existing: map<Paper, nat>, item: Item)
    requires Numbered(existing)
    ensures OutcomeOf(existing, item).target >= 1
  {
  }

  lemma WrittenNothing(stored: map<Paper, nat>)
    ensures Written(stored, stored, []) == stored
  {
  }

  lemma AllStored(existing: map<Paper, nat>, items: seq<Item>)
    ensures forall i :: 0 <= i < |items| ==> items[i].paper in Written(existing, existing, items)
  {
    WrittenStores(existing, existing, items);
  }

  lemma ScopeWidens(q: Queue.Queue, op: Queue.Op)
    ensures Widened(q.scope, Queue.Apply(q, op).scope)
  {
    hide Queue.Next, Queue.Exhausted;
    if op.DoWiden? {
      assert [op.e][1..] == [];
      assert Recorded(q.scope, [op.e]) == Upsert(q.scope, op.e);
      RecordedWidens(q.scope, [op.e]);
    } else {
      WidenedSelf(q.scope);
    }
  }

  lemma JobsRise(q: Queue.Queue, op: Queue.Op)
    requires Queue.Inv(q)
    ensures Risen(q.jobs, Queue.Apply(q, op).jobs)
  {
    hide Queue.Inv, Queue.Apply;
    Fencing.ApplyForward(q, op);
  }

  lemma PassedNone(day: Day, days: map<Day, Fetch>, stored: map<Paper, nat>, ledger: map<Paper, Row>)
    ensures Passed(day, day, days, stored, ledger)
  {
  }

  lemma NoneToCover(stored: map<Paper, nat>, ledger: map<Paper, Row>, day: Day)
    ensures AllCovered(stored, ledger, [], day)
  {
  }

  lemma EnlistedNone(day: Day, days: map<Day, Fetch>, jobs: map<Paper, Queue.Job>)
    ensures Enlisted(day, day, days, jobs)
  {
  }

  lemma NoneToEnlist(jobs: map<Paper, Queue.Job>)
    ensures AllEnlisted(jobs, [])
  {
  }

  lemma EnlistedTogether(jobs: map<Paper, Queue.Job>, items: seq<Item>, i: nat, k: nat)
    requires i <= k <= |items| && AllEnlisted(jobs, items[..i]) && AllEnlisted(jobs, items[i..k])
    ensures AllEnlisted(jobs, items[..k])
  {
    forall n | 0 <= n < k
      ensures var item := items[..k][n];
              Registered(jobs, item.paper, if item.exact == Some(true) then item.version else 0)
    {
      if n < i {
        assert items[..k][n] == items[..i][n];
      } else {
        assert items[..k][n] == items[i..k][n - i];
      }
    }
  }

  lemma CoveredTogether(stored: map<Paper, nat>, ledger: map<Paper, Row>, items: seq<Item>, i: nat, k: nat, day: Day)
    requires i <= k <= |items|
    requires AllCovered(stored, ledger, items[..i], day) && AllCovered(stored, ledger, items[i..k], day)
    ensures AllCovered(stored, ledger, items[..k], day)
  {
    forall n | 0 <= n < k
      ensures Covered(stored, ledger, items[..k][n], day)
    {
      if n < i {
        assert items[..k][n] == items[..i][n];
      } else {
        assert items[..k][n] == items[i..k][n - i];
      }
    }
  }

  lemma GrownSelf(stored: map<Paper, nat>)
    ensures Grown(stored, stored)
  {
  }

  lemma EntriesReached(ledger: map<Paper, Row>, outcomes: seq<Outcome>, day: Day)
    ensures var after := Recorded(ledger, Entries(outcomes, day));
            forall i :: 0 <= i < |outcomes| ==>
              outcomes[i].paper in after && outcomes[i].target <= after[outcomes[i].paper].version
  {
    var entries := Entries(outcomes, day);
    forall i | 0 <= i < |outcomes|
      ensures outcomes[i].paper in Recorded(ledger, entries)
              && outcomes[i].target <= Recorded(ledger, entries)[outcomes[i].paper].version
    {
      assert entries[i] in entries;
      EveryEntryCovered(ledger, entries, entries[i]);
    }
  }

  /** Upsert a batch row by row. */
  method RecordDeferred(ledger: map<Paper, Row>, entries: seq<Entry>) returns (after: map<Paper, Row>)
    ensures after == Recorded(ledger, entries)
  {
    after := ledger;
    for i := 0 to |entries|
      invariant Recorded(after, entries[i..]) == Recorded(ledger, entries)
    {
      assert entries[i..][0] == entries[i] && entries[i..][1..] == entries[i + 1..];
      after := Upsert(after, entries[i]);
    }
  }
}
