/**
 What a reserving transaction does at a candidate it comes to after the list was fetched, whatever other
 transactions did in between, and exactly when that is what a fresh look at the tables would do.
 */
module SurveyReserving {
  import opened SurveyModel
  import opened SurveyTransitions
  import opened SurveyInvariants
  import opened SurveyPending
  import opened FairQueue
  import opened SurveyRuns
  import opened SurveySteps

  /** The candidate that is up next. */
  function Head(w: World, kind: WorkKind): Candidate
    requires kind in w.passes && w.passes[kind] != []
  {
    w.passes[kind][0]
  }

  /** The deadline, where the work list looks at one, is still ahead. */
  predicate InTime(w: World, kind: WorkKind, target: nat) {
    kind.DraftWork?
    || (target in w.jobs
        && (w.jobs[target].status.Archiving? || w.jobs[target].deadline.None? || w.jobs[target].deadline.value > w.now))
  }

  lemma Listings(w: World, limits: Limits, kind: WorkKind, c: Candidate)
    requires Inv(w, limits) && Fits(w, limits, kind, c) && Current(w, kind, c)
    ensures Listed(w, kind, c.target) <==> InTime(w, kind, c.target)
    ensures Listed(w, kind, c.target) ==>
              && SurveyOf(w, kind, c.target) == c.survey && c.survey in w.surveys
              && w.surveys[c.survey].user == c.user && WithinBudget(w, limits, kind, c.target)
  {
    hide Inv, AttemptsOn, ActiveOn, StartedOn, Identified;
    CurrentCounted(w, limits, kind, c);
    CurrentSurvey(w, kind, c);
    NoneActive(w.attempts, limits, kind, c);
    if kind.FullWork? {
      JobsSurvey(w, limits, c.target);
    }
  }

  /**
   A candidate is reserved exactly if its Survey and its item are still those that were fetched, nobody holds
   the item, and its user has room.  No unique index is ever in the way: attempt numbers counted at the fetch
   are still free.
   */
  lemma CandidateAccepted(w: World, limits: Limits, kind: WorkKind, a: AttemptId)
    requires Reachable(w, limits) && kind in w.passes && w.passes[kind] != []
    ensures var reply, c := TryNext(w, limits, kind, a).reply, Head(w, kind);
            && (reply.Done? <==>
                  && Current(w, kind, c) && a !in w.attempts
                  && |ActiveOfUser(w.surveys, w.attempts, kind, c.user)| < limits.PerUser(kind))
            && (reply.Refused? ==> a in w.attempts)
  {
    hide Inv, Fits, LateReserve, ActiveOfKind, ActiveOfUser, Current, Shortened;
    ReachableSound(w, limits);
    assert Underway(w, limits, kind);
    LateKeeps(w, limits, kind, Head(w, kind), a);
  }

  /** What the list says of the attempts on a candidate that passes the check is still so. */
  lemma CountStands(w: World, limits: Limits, kind: WorkKind, c: Candidate)
    requires Reachable(w, limits) && kind in w.passes && c in w.passes[kind] && Current(w, kind, c)
    ensures |AttemptsOn(w.attempts, kind, c.target)| == c.attempts && ActiveOn(w.attempts, kind, c.target) == {}
    ensures if c.archiving then kind.FullWork? && c.attempts < limits.maxCompute + 8
            else |StartedOn(w.attempts, kind, c.target)| < limits.maxCompute
    ensures c.survey in w.surveys && w.surveys[c.survey].user == c.user
  {
    hide Inv, Fits, Current, ActiveOfKind;
    ReachableSound(w, limits);
    assert Underway(w, limits, kind);
    CurrentCounted(w, limits, kind, c);
    CurrentSurvey(w, kind, c);
  }

  lemma Tried(w: World, limits: Limits, kind: WorkKind, a: AttemptId)
    requires kind in w.passes && w.passes[kind] != [] && TryNext(w, limits, kind, a).reply.Done?
    ensures var c := Head(w, kind);
            && TryNext(w, limits, kind, a).next
               == w.(attempts := w.attempts[a := LateAttempt(w, kind, c)], passes := w.passes - {kind})
            && Current(w, kind, c) && a !in w.attempts
            && |ActiveOfUser(w.surveys, w.attempts, kind, c.user)| < limits.PerUser(kind)
  {
    hide Current, ActiveOfUser, ActiveOn, NumberTaken, Shortened;
  }

  /** The row that is inserted late is the one a fresh look at the tables asks for. */
  lemma SameRow(w: World, kind: WorkKind, c: Candidate)
    requires Listed(w, kind, c.target) && SurveyOf(w, kind, c.target) == c.survey
    requires |AttemptsOn(w.attempts, kind, c.target)| == c.attempts
    ensures LateAttempt(w, kind, c) == NextAttempt(w, kind, c.target)
  {
    hide Listed;
  }

  lemma LeadsNow(w: World, u: World, limits: Limits, kind: WorkKind, target: nat, a: AttemptId)
    requires u == w.(passes := w.passes - {kind}) && a !in w.attempts && Listed(w, kind, target)
    requires |ActiveOfKind(w.attempts, kind)| < limits.Global(kind) && Leads(u, limits, kind, target)
    ensures Reserve(u, limits, kind, target, a)
            == Step(u.(attempts := w.attempts[a := NextAttempt(w, kind, target)]), Done)
  {
    hide Leads, ActiveOfKind, Listed, AttemptsOn;
    LeadsListed(u, limits, kind, target);
    ListedAside(w, u, kind, target);
  }

  lemma LeadsListed(w: World, limits: Limits, kind: WorkKind, target: nat)
    requires Leads(w, limits, kind, target)
    ensures Reservable(w, limits, kind, target) && Listed(w, kind, target)
  {
    hide Reservable, ServedFirst;
    ReservableListed(w, limits, kind, target);
  }

  lemma ListedAside(w: World, u: World, kind: WorkKind, target: nat)
    requires u == w.(passes := u.passes)
    ensures Listed(u, kind, target) <==> Listed(w, kind, target)
    ensures Listed(w, kind, target) ==> NextAttempt(u, kind, target) == NextAttempt(w, kind, target)
  {
    hide ActiveOn, AttemptsOn;
  }

  lemma LateReservable(w: World, limits: Limits, kind: WorkKind, a: AttemptId)
    requires Sound(w, limits) && kind in w.passes && w.passes[kind] != [] && TryNext(w, limits, kind, a).reply.Done?
    ensures var t := Head(w, kind).target; Reservable(w, limits, kind, t) <==> InTime(w, kind, t)
  {
    hide Inv, Fits, TryNext, Current, ActiveOfKind, ActiveOfUser, InTime;
    var c := Head(w, kind);
    assert Underway(w, limits, kind) && Fits(w, limits, kind, c);
    Tried(w, limits, kind, a);
    Listings(w, limits, kind, c);
  }

  /**
   When a candidate is reserved late, the work list would still offer it exactly if it looks at no deadline or
   the deadline is still ahead.  Nothing but the passing of time can come between, and that is not noticed.
   */
  lemma LateExactly(w: World, limits: Limits, kind: WorkKind, a: AttemptId)
    requires Reachable(w, limits) && kind in w.passes && w.passes[kind] != []
    requires TryNext(w, limits, kind, a).reply.Done?
    ensures var t := Head(w, kind).target;
            Reservable(w, limits, kind, t)
            <==> kind.DraftWork?
                 || (t in w.jobs && (w.jobs[t].status.Archiving? || w.jobs[t].deadline.None?
                                     || w.jobs[t].deadline.value > w.now))
  {
    hide Sound, TryNext, Reservable;
    ReachableSound(w, limits);
    LateReservable(w, limits, kind, a);
  }

  /**
   A late reservation in time inserts the row that a fresh look at the tables asks for.  If the item is served
   first by now, it is the reservation of a transaction with nothing between its steps.
   */
  lemma LateIsAtOnce(w: World, limits: Limits, kind: WorkKind, a: AttemptId)
    requires Reachable(w, limits) && kind in w.passes && w.passes[kind] != []
    requires TryNext(w, limits, kind, a).reply.Done? && InTime(w, kind, Head(w, kind).target)
    ensures var t, u := Head(w, kind).target, w.(passes := w.passes - {kind});
            && Listed(w, kind, t)
            && TryNext(w, limits, kind, a).next == u.(attempts := w.attempts[a := NextAttempt(w, kind, t)])
            && (Leads(u, limits, kind, t) ==> Reserve(u, limits, kind, t, a) == TryNext(w, limits, kind, a))
  {
    hide Inv, Fits, TryNext, Leads, InTime, Current, ActiveOfKind, ActiveOfUser, Reserve, AttemptsOn, Listed,
      LateAttempt, NextAttempt;
    ReachableSound(w, limits);
    var c := Head(w, kind);
    assert Underway(w, limits, kind) && Fits(w, limits, kind, c);
    Tried(w, limits, kind, a);
    Listings(w, limits, kind, c);
    CountStands(w, limits, kind, c);
    SameRow(w, kind, c);
    var u := w.(passes := w.passes - {kind});
    if Leads(u, limits, kind, c.target) {
      LeadsNow(w, u, limits, kind, c.target, a);
    }
  }

  // ---------- nothing in between ----------

  lemma ListedCurrent(w: World, limits: Limits, kind: WorkKind, target: nat)
    requires Inv(w, limits) && Reservable(w, limits, kind, target)
    ensures Listed(w, kind, target) && Current(w, kind, CandidateOf(w, kind, target))
  {
    hide Inv, ActiveOn, AttemptsOn, StartedOn, ActiveOfUser;
    if kind.FullWork? {
      JobsSurvey(w, limits, target);
    }
  }

  /** A transaction that begins, gets the lock, fetches its list and takes the first candidate all at once. */
  lemma AtOnce(w: World, limits: Limits, kind: WorkKind, list: seq<nat>, a: AttemptId)
    requires Inv(w, limits) && kind !in w.passes
    requires Fetch(JoinLine(w, kind).next, limits, kind, w.now, list).reply.Done?
    ensures list != [] && Leads(w, limits, kind, list[0]) && |ActiveOfKind(w.attempts, kind)| < limits.Global(kind)
    ensures TryNext(Fetch(JoinLine(w, kind).next, limits, kind, w.now, list).next, limits, kind, a)
            == Reserve(w, limits, kind, list[0], a)
  {
    hide Inv, Leads, WorkList, Listed, ActiveOfKind, ActiveOfUser, Current, CandidatesOf;
    var u := JoinLine(w, kind).next;
    var v := Fetch(u, limits, kind, w.now, list).next;
    assert u.(now := w.now) == u;
    assert WorkList(u, limits, kind, list);
    FetchedRow(w, u, limits, kind, list);
    FirstLeads(u, limits, kind, list);
    LeadsAside(w, u, limits, kind, list[0]);
    assert v == w.(passes := v.passes);
    TakesFirst(w, v, limits, kind, list[0], a);
  }

  /** The head of a work list is served first. */
  lemma FirstLeads(w: World, limits: Limits, kind: WorkKind, list: seq<nat>)
    requires WorkList(w, limits, kind, list) && list != []
    ensures Leads(w, limits, kind, list[0])
  {
    hide Reservable, ServedFirst;
    forall u | Reservable(w, limits, kind, u) && u != list[0]
      ensures ServedFirst(w, limits, kind, list[0], u)
    {
      if u in list {
        var k :| 0 <= k < |list| && list[k] == u;
        assert ServedFirst(w, limits, kind, list[0], list[k]);
      }
    }
  }

  lemma LeadsAside(w: World, u: World, limits: Limits, kind: WorkKind, target: nat)
    requires u == w.(line := u.line) && Leads(u, limits, kind, target)
    ensures Leads(w, limits, kind, target)
  {
    hide Reservable, Listed, Sooner;
    forall t
      ensures Listed(u, kind, t) <==> Listed(w, kind, t)
      ensures Reservable(u, limits, kind, t) <==> Reservable(w, limits, kind, t)
      ensures Listed(w, kind, t) ==> RowOf(u, kind, t) == RowOf(w, kind, t)
    {
      LineAside(w, u, limits, kind, t);
    }
    assert OpenRows(u, kind) == OpenRows(w, kind);
    forall t | Reservable(w, limits, kind, t) && t != target
      ensures ServedFirst(w, limits, kind, target, t)
    {
      assert ServedFirst(u, limits, kind, target, t);
      ReservableListed(w, limits, kind, t);
      ReservableListed(w, limits, kind, target);
    }
  }

  lemma FetchedRow(w: World, u: World, limits: Limits, kind: WorkKind, list: seq<nat>)
    requires u == w.(line := u.line) && list != [] && WorkList(u, limits, kind, list)
    ensures Listed(w, kind, list[0])
    ensures forall i :: 0 <= i < |list| ==> Listed(u, kind, list[i])
    ensures var rows := CandidatesOf(u, kind, list); rows != [] && rows[0] == CandidateOf(w, kind, list[0])
  {
    hide Reservable, Listed, InOrder, ComesAfter;
    forall i | 0 <= i < |list|
      ensures Listed(u, kind, list[i])
    {
      ReservableListed(u, limits, kind, list[i]);
    }
    LineAside(w, u, limits, kind, list[0]);
  }

  lemma LineAside(w: World, u: World, limits: Limits, kind: WorkKind, target: nat)
    requires u == w.(line := u.line)
    ensures Listed(u, kind, target) <==> Listed(w, kind, target)
    ensures Listed(w, kind, target) ==> CandidateOf(u, kind, target) == CandidateOf(w, kind, target)
    ensures Listed(w, kind, target) ==> RowOf(u, kind, target) == RowOf(w, kind, target)
    ensures Reservable(u, limits, kind, target) <==> Reservable(w, limits, kind, target)
  {
    hide ActiveOn, AttemptsOn, StartedOn, ActiveOfUser;
  }

  lemma TakesFirst(w: World, v: World, limits: Limits, kind: WorkKind, target: nat, a: AttemptId)
    requires Inv(w, limits) && kind !in w.passes && |ActiveOfKind(w.attempts, kind)| < limits.Global(kind)
    requires Leads(w, limits, kind, target) && Listed(w, kind, target)
    requires v == w.(passes := v.passes) && kind in v.passes && v.passes - {kind} == w.passes
    requires v.passes[kind] != [] && v.passes[kind][0] == CandidateOf(w, kind, target)
    ensures TryNext(v, limits, kind, a) == Reserve(w, limits, kind, target, a)
  {
    hide Inv, ActiveOfKind, Current, Listed, AttemptsOn, Shortened, NumberTaken, Identified, ServedFirst;
    var c := CandidateOf(w, kind, target);
    ListedCurrent(w, limits, kind, target);
    CurrentAside(w, v, kind, c);
    NumbersBelow(w, limits, kind, target);
    NobodyActive(w, kind, target);
    assert v.(passes := v.passes - {kind}) == w;
  }

  lemma NobodyActive(w: World, kind: WorkKind, target: nat)
    requires Listed(w, kind, target)
    ensures ActiveOn(w.attempts, kind, target) == {}
  {
    hide ActiveOn;
  }

  lemma CurrentAside(w: World, v: World, kind: WorkKind, c: Candidate)
    requires v == w.(passes := v.passes)
    ensures Current(v, kind, c) <==> Current(w, kind, c)
  {
  }
}
