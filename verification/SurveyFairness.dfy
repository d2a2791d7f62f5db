/** The work lists of the Survey tables, as rows of a fair queue. */
module SurveyFairness {
  import opened SurveyModel
  import opened SurveyTransitions
  import opened SurveyInvariants
  import opened SurveySteps
  import opened SurveyPending
  import opened SurveyRuns
  import opened FairQueue

  function AllowedRows(w: World, limits: Limits, kind: WorkKind): set<Row> {
    set target | target in Items(w, kind) && Reservable(w, limits, kind, target) :: RowOf(w, kind, target)
  }

  lemma OpenKeyed(w: World, kind: WorkKind)
    ensures Keyed(OpenRows(w, kind))
  {
    hide Listed;
  }

  /** What the fair queue offers next is the item a transaction with nothing between its steps reserves. */
  lemma OfferedLeads(w: World, limits: Limits, kind: WorkKind, t: nat)
    requires Listed(w, kind, t)
    ensures Offered(OpenRows(w, kind), AllowedRows(w, limits, kind), RowOf(w, kind, t)) <==> Leads(w, limits, kind, t)
  {
    hide Listed, WithinBudget, Sooner, ActiveOfUser;
    var r := RowOf(w, kind, t);
    forall u | Reservable(w, limits, kind, u)
      ensures u in Items(w, kind) && Listed(w, kind, u) && RowOf(w, kind, u).id == u
    {
      IsItem(w, kind, u);
    }
    IsItem(w, kind, t);
    if Offered(OpenRows(w, kind), AllowedRows(w, limits, kind), r) {
      forall u | Reservable(w, limits, kind, u) && u != t
        ensures ServedFirst(w, limits, kind, t, u)
      {
        assert RowOf(w, kind, u) in OpenRows(w, kind) && RowOf(w, kind, u) in AllowedRows(w, limits, kind);
      }
    }
    if Leads(w, limits, kind, t) {
      forall p | p in OpenRows(w, kind) && p in AllowedRows(w, limits, kind) && p != r
        ensures Sooner(OpenRows(w, kind), r, p)
      {
        var u :| u in Items(w, kind) && Reservable(w, limits, kind, u) && p == RowOf(w, kind, u);
        assert ServedFirst(w, limits, kind, t, u);
      }
    }
  }

  lemma IsItem(w: World, kind: WorkKind, t: nat)
    requires Listed(w, kind, t)
    ensures t in Items(w, kind) && RowOf(w, kind, t).id == t
  {
    hide ActiveOn;
  }

  /** A user's own work is offered in the order it was queued, except that what is to be archived goes first. */
  lemma OwnOrder(w: World, limits: Limits, kind: WorkKind, t: nat, u: nat)
    requires Reservable(w, limits, kind, t) && Reservable(w, limits, kind, u)
    requires w.surveys[SurveyOf(w, kind, t)].user == w.surveys[SurveyOf(w, kind, u)].user
    requires match kind
             case DraftWork => w.drafts[t].queuedAt < w.drafts[u].queuedAt
             case FullWork =>
               if w.jobs[t].status.Archiving? == w.jobs[u].status.Archiving?
               then w.jobs[t].queuedAt < w.jobs[u].queuedAt else w.jobs[t].status.Archiving?
    ensures ServedFirst(w, limits, kind, t, u)
  {
    hide Turn, OpenRows, ActiveOfUser, ActiveOn, WithinBudget;
    InOpenRows(w, kind, t);
    InOpenRows(w, kind, u);
    TurnFollows(OpenRows(w, kind), RowOf(w, kind, t), RowOf(w, kind, u));
  }

  lemma InOpenRows(w: World, kind: WorkKind, t: nat)
    requires Listed(w, kind, t)
    ensures RowOf(w, kind, t) in OpenRows(w, kind)
  {
    hide Listed;
    IsItem(w, kind, t);
  }

  /** Of two users with one open item each, the one whose item was queued first is served first. */
  lemma OldestFirst(w: World, limits: Limits, kind: WorkKind, t: nat, u: nat)
    requires Reservable(w, limits, kind, t) && Reservable(w, limits, kind, u)
    requires OnlyItem(w, kind, t) && OnlyItem(w, kind, u)
    requires if kind.DraftWork? then w.drafts[t].queuedAt < w.drafts[u].queuedAt
             else w.jobs[t].queuedAt < w.jobs[u].queuedAt
    ensures ServedFirst(w, limits, kind, t, u)
  {
    hide Turn, OpenRows, OnlyItem, WithinBudget, ActiveOfUser, ActiveOn;
    FirstTurn(w, kind, t);
    FirstTurn(w, kind, u);
    Queued(w, kind, t);
    Queued(w, kind, u);
  }

  /** The user of `t` has no other open item. */
  ghost predicate OnlyItem(w: World, kind: WorkKind, t: nat)
    requires Listed(w, kind, t)
  {
    forall v | Listed(w, kind, v) && w.surveys[SurveyOf(w, kind, v)].user == w.surveys[SurveyOf(w, kind, t)].user
      :: v == t
  }

  lemma FirstTurn(w: World, kind: WorkKind, t: nat)
    requires Listed(w, kind, t) && OnlyItem(w, kind, t)
    ensures Turn(OpenRows(w, kind), RowOf(w, kind, t)) == 1
  {
    hide Listed;
    var r := RowOf(w, kind, t);
    forall p | p in OpenRows(w, kind) && p.user == r.user
      ensures p == r
    {
      var v :| v in Items(w, kind) && Listed(w, kind, v) && p == RowOf(w, kind, v);
      UserOf(w, kind, v);
      UserOf(w, kind, t);
    }
    assert Ahead(OpenRows(w, kind), r) == {};
  }

  lemma UserOf(w: World, kind: WorkKind, t: nat)
    requires Listed(w, kind, t)
    ensures RowOf(w, kind, t).user == w.surveys[SurveyOf(w, kind, t)].user
  {
  }

  lemma Queued(w: World, kind: WorkKind, t: nat)
    requires Listed(w, kind, t)
    ensures RowOf(w, kind, t).queuedAt == if kind.DraftWork? then w.drafts[t].queuedAt else w.jobs[t].queuedAt
  {
  }

  function QueuedDraftRows(w: World): set<Row> {
    set d | d in w.drafts && w.drafts[d].status.Queued? && w.drafts[d].survey in w.surveys
      :: Row(w.surveys[w.drafts[d].survey].user, 1, w.drafts[d].queuedAt, d)
  }

  /** The queue position shown for a waiting Draft is its place in the claim order over all waiting Drafts. */
  lemma DraftPositionPublished(w: World, d: DraftId)
    requires d in w.drafts && w.drafts[d].status.Queued? && w.drafts[d].survey in w.surveys
    ensures var r := Row(w.surveys[w.drafts[d].survey].user, 1, w.drafts[d].queuedAt, d);
            PublishedPlace(QueuedDraftRows(w), r) == Place(QueuedDraftRows(w), r)
  {
    hide PublishedPlace, Place;
    DraftPositionsAgree(QueuedDraftRows(w), Row(w.surveys[w.drafts[d].survey].user, 1, w.drafts[d].queuedAt, d));
  }

  // ---------- the published place of a job ----------

  function JobRowOf(w: World, j: JobId): Row
    requires j in w.jobs && w.jobs[j].survey in w.surveys
  {
    Row(w.surveys[w.jobs[j].survey].user, if w.jobs[j].status.Archiving? then 0 else 1, w.jobs[j].queuedAt, j)
  }

  /** The jobs the progress query ranks: all queued ones, whether or not an attempt was reserved for them. */
  function QueuedJobRows(w: World): set<Row> {
    set j | j in w.jobs && w.jobs[j].status.Queued? && w.jobs[j].survey in w.surveys :: JobRowOf(w, j)
  }

  /** The user's archiving jobs, and older running ones, that wait for a claim. */
  function UnqueuedAhead(w: World, j: JobId): set<Row>
    requires j in w.jobs && w.jobs[j].survey in w.surveys
  {
    set k | k in w.jobs && Listed(w, FullWork, k) && !w.jobs[k].status.Queued?
            && JobRowOf(w, k).user == JobRowOf(w, j).user && Before(JobRowOf(w, k), JobRowOf(w, j))
      :: JobRowOf(w, k)
  }

  /** The user's older queued jobs for which an attempt is already under way. */
  function ReservedOlder(w: World, j: JobId): set<Row>
    requires j in w.jobs && w.jobs[j].survey in w.surveys
  {
    set k | k in w.jobs && w.jobs[k].status.Queued? && w.jobs[k].survey in w.surveys
            && ActiveOn(w.attempts, FullWork, k) != {}
            && JobRowOf(w, k).user == JobRowOf(w, j).user && Older(JobRowOf(w, k), JobRowOf(w, j))
      :: JobRowOf(w, k)
  }

  /** A queued job is open for a claim exactly while no attempt is under way for it. */
  lemma QueuedListed(w: World, limits: Limits, j: JobId)
    requires Reachable(w, limits) && j in w.jobs && w.jobs[j].status.Queued?
    ensures w.jobs[j].survey in w.surveys
    ensures Listed(w, FullWork, j) <==> ActiveOn(w.attempts, FullWork, j) == {}
  {
    hide Inv, Pending, Reachable, ActiveOn;
    ReachableSound(w, limits);
    JobsSurvey(w, limits, j);
  }

  lemma OpenJobRow(w: World, row: Row)
    ensures row in OpenRows(w, FullWork)
            <==> row.id in w.jobs && Listed(w, FullWork, row.id) && row == JobRowOf(w, row.id)
  {
    hide ActiveOn;
  }

  lemma QueuedJobRow(w: World, row: Row)
    ensures row in QueuedJobRows(w)
            <==> row.id in w.jobs && w.jobs[row.id].status.Queued? && w.jobs[row.id].survey in w.surveys
                 && row == JobRowOf(w, row.id)
  {
  }

  lemma ServedOnlyJobs(w: World, limits: Limits, j: JobId)
    requires Reachable(w, limits) && j in w.jobs && w.jobs[j].survey in w.surveys
    ensures ServedOnly(OpenRows(w, FullWork), QueuedJobRows(w), JobRowOf(w, j)) == UnqueuedAhead(w, j)
  {
    hide Reachable, OpenRows, QueuedJobRows, Listed, Before;
    forall row
      ensures row in ServedOnly(OpenRows(w, FullWork), QueuedJobRows(w), JobRowOf(w, j)) <==> row in UnqueuedAhead(w, j)
    {
      OpenJobRow(w, row);
      QueuedJobRow(w, row);
      ListedHasSurvey(w, row.id);
    }
  }

  lemma ListedHasSurvey(w: World, k: JobId)
    ensures Listed(w, FullWork, k) ==> k in w.jobs && w.jobs[k].survey in w.surveys
  {
  }

  lemma ShownOnlyJobs(w: World, limits: Limits, j: JobId)
    requires Reachable(w, limits) && j in w.jobs && w.jobs[j].survey in w.surveys
    ensures ShownOnly(OpenRows(w, FullWork), QueuedJobRows(w), JobRowOf(w, j)) == ReservedOlder(w, j)
  {
    hide Reachable, OpenRows, QueuedJobRows, Listed, Older, ActiveOn;
    forall row
      ensures row in ShownOnly(OpenRows(w, FullWork), QueuedJobRows(w), JobRowOf(w, j)) <==> row in ReservedOlder(w, j)
    {
      OpenJobRow(w, row);
      QueuedJobRow(w, row);
      if row in QueuedJobRows(w) {
        QueuedListed(w, limits, row.id);
      }
    }
  }

  /**
   A queued job is served later than its published turn by the number of its user's archiving and
   older running jobs that wait for a claim, and earlier by the number of its user's older queued
   jobs for which an attempt is under way.
   */
  lemma JobTurnPublished(w: World, limits: Limits, j: JobId)
    requires Reachable(w, limits) && j in w.jobs && w.jobs[j].status.Queued? && w.jobs[j].survey in w.surveys
    ensures Turn(OpenRows(w, FullWork), JobRowOf(w, j)) + |ReservedOlder(w, j)|
            == PublishedTurn(QueuedJobRows(w), JobRowOf(w, j)) + |UnqueuedAhead(w, j)|
    ensures Turn(OpenRows(w, FullWork), JobRowOf(w, j)) == PublishedTurn(QueuedJobRows(w), JobRowOf(w, j))
            <==> |ReservedOlder(w, j)| == |UnqueuedAhead(w, j)|
  {
    hide Reachable, OpenRows, UnqueuedAhead, ReservedOlder, Turn, PublishedTurn, ServedOnly, ShownOnly;
    ServedOnlyJobs(w, limits, j);
    ShownOnlyJobs(w, limits, j);
    TurnGap(OpenRows(w, FullWork), QueuedJobRows(w), JobRowOf(w, j));
  }

  /**
   With no archiving or running job waiting for a claim and no attempt under way for a queued one,
   the two lists are the same and every published place is the place in the claim order.
   */
  lemma JobPlacesAgree(w: World, limits: Limits, j: JobId)
    requires Reachable(w, limits) && j in w.jobs && w.jobs[j].status.Queued? && w.jobs[j].survey in w.surveys
    requires forall k :: k in w.jobs && Listed(w, FullWork, k) ==> w.jobs[k].status.Queued?
    requires forall k :: k in w.jobs && w.jobs[k].status.Queued? ==> ActiveOn(w.attempts, FullWork, k) == {}
    ensures PublishedPlace(QueuedJobRows(w), JobRowOf(w, j)) == Place(OpenRows(w, FullWork), JobRowOf(w, j))
  {
    hide Reachable, PublishedPlace, Place, OpenRows, QueuedJobRows, Listed, ActiveOn;
    forall row
      ensures row in OpenRows(w, FullWork) <==> row in QueuedJobRows(w)
    {
      OpenJobRow(w, row);
      QueuedJobRow(w, row);
      ListedHasSurvey(w, row.id);
      if row in QueuedJobRows(w) {
        QueuedListed(w, limits, row.id);
      }
    }
    assert OpenRows(w, FullWork) == QueuedJobRows(w);
    QueuedJobRow(w, JobRowOf(w, j));
    forall p | p in QueuedJobRows(w)
      ensures p.rank == 1
    {
      QueuedJobRow(w, p);
    }
    DraftPositionsAgree(QueuedJobRows(w), JobRowOf(w, j));
  }

  /** By how many turns a queued job is served later than shown. */
  function JobLag(w: World, j: JobId): int
    requires j in w.jobs && w.jobs[j].survey in w.surveys
  {
    |UnqueuedAhead(w, j)| - |ReservedOlder(w, j)|
  }

  /** Two queued jobs are served in the order their positions show exactly if the lags do not overtake it. */
  lemma JobOrderPublished(w: World, limits: Limits, i: JobId, j: JobId)
    requires Reachable(w, limits)
    requires i in w.jobs && w.jobs[i].status.Queued? && w.jobs[i].survey in w.surveys
    requires j in w.jobs && w.jobs[j].status.Queued? && w.jobs[j].survey in w.surveys
    requires PublishedSooner(QueuedJobRows(w), JobRowOf(w, i), JobRowOf(w, j))
    ensures var lost := JobLag(w, i) - JobLag(w, j);
            var ahead := PublishedTurn(QueuedJobRows(w), JobRowOf(w, j))
                         - PublishedTurn(QueuedJobRows(w), JobRowOf(w, i));
            Sooner(OpenRows(w, FullWork), JobRowOf(w, i), JobRowOf(w, j))
            <==> lost < ahead || (lost == ahead && Older(JobRowOf(w, i), JobRowOf(w, j)))
    ensures JobRowOf(w, i).user == JobRowOf(w, j).user || JobLag(w, i) == JobLag(w, j) ==>
              Sooner(OpenRows(w, FullWork), JobRowOf(w, i), JobRowOf(w, j))
  {
    hide Reachable, OpenRows, UnqueuedAhead, ReservedOlder, Turn, PublishedTurn, ServedOnly, ShownOnly, Older;
    var p, q := JobRowOf(w, i), JobRowOf(w, j);
    ServedOnlyJobs(w, limits, i);
    ShownOnlyJobs(w, limits, i);
    ServedOnlyJobs(w, limits, j);
    ShownOnlyJobs(w, limits, j);
    OrderExact(OpenRows(w, FullWork), QueuedJobRows(w), p, q);
    if p.user == q.user || JobLag(w, i) == JobLag(w, j) {
      OrderAgrees(OpenRows(w, FullWork), QueuedJobRows(w), p, q);
    }
  }

  // ---------- the published place, exactly ----------

  /** Of two queued jobs, the lags leave `i`, shown ahead of `j`, ahead of it. */
  predicate KeepsLead(w: World, i: JobId, j: JobId)
    requires i in w.jobs && w.jobs[i].survey in w.surveys && j in w.jobs && w.jobs[j].survey in w.surveys
  {
    var lost := JobLag(w, i) - JobLag(w, j);
    var ahead := PublishedTurn(QueuedJobRows(w), JobRowOf(w, j)) - PublishedTurn(QueuedJobRows(w), JobRowOf(w, i));
    lost < ahead || (lost == ahead && Older(JobRowOf(w, i), JobRowOf(w, j)))
  }

  /** Queued jobs that wait for a claim. */
  predicate OpenQueued(w: World, k: JobId) {
    k in w.jobs && w.jobs[k].status.Queued? && w.jobs[k].survey in w.surveys && ActiveOn(w.attempts, FullWork, k) == {}
  }

  /** Archiving and running jobs that wait for a claim and are served sooner: no position counts them. */
  function UncountedSooner(w: World, j: JobId): set<Row>
    requires j in w.jobs && w.jobs[j].survey in w.surveys
  {
    set k | k in w.jobs && Listed(w, FullWork, k) && !w.jobs[k].status.Queued?
            && Sooner(OpenRows(w, FullWork), JobRowOf(w, k), JobRowOf(w, j))
      :: JobRowOf(w, k)
  }

  /** Queued jobs shown sooner for which an attempt is already under way. */
  function ReservedSooner(w: World, j: JobId): set<Row>
    requires j in w.jobs && w.jobs[j].survey in w.surveys
  {
    set k | k in w.jobs && w.jobs[k].status.Queued? && w.jobs[k].survey in w.surveys
            && ActiveOn(w.attempts, FullWork, k) != {}
            && PublishedSooner(QueuedJobRows(w), JobRowOf(w, k), JobRowOf(w, j))
      :: JobRowOf(w, k)
  }

  /** Queued jobs shown sooner that lose their lead. */
  function Overtaken(w: World, j: JobId): set<Row>
    requires j in w.jobs && w.jobs[j].survey in w.surveys
  {
    set k | k in w.jobs && OpenQueued(w, k) && PublishedSooner(QueuedJobRows(w), JobRowOf(w, k), JobRowOf(w, j))
            && !KeepsLead(w, k, j)
      :: JobRowOf(w, k)
  }

  /** Queued jobs shown later over which `j` loses its lead. */
  function Overtaking(w: World, j: JobId): set<Row>
    requires j in w.jobs && w.jobs[j].survey in w.surveys
  {
    set k | k in w.jobs && OpenQueued(w, k) && PublishedSooner(QueuedJobRows(w), JobRowOf(w, j), JobRowOf(w, k))
            && !KeepsLead(w, j, k)
      :: JobRowOf(w, k)
  }

  lemma EitherSooner(rows: set<Row>, p: Row, q: Row)
    requires p.id != q.id
    ensures Sooner(rows, p, q) <==> !Sooner(rows, q, p)
    ensures PublishedSooner(rows, p, q) <==> !PublishedSooner(rows, q, p)
  {
    hide Turn, PublishedTurn;
    Total(p, q);
  }

  lemma NeverSooner(rows: set<Row>, p: Row)
    ensures !Sooner(rows, p, p) && !PublishedSooner(rows, p, p)
  {
  }

  lemma LeadKept(w: World, limits: Limits, i: JobId, j: JobId)
    requires Reachable(w, limits)
    requires i in w.jobs && w.jobs[i].status.Queued? && w.jobs[i].survey in w.surveys
    requires j in w.jobs && w.jobs[j].status.Queued? && w.jobs[j].survey in w.surveys
    requires PublishedSooner(QueuedJobRows(w), JobRowOf(w, i), JobRowOf(w, j))
    ensures Sooner(OpenRows(w, FullWork), JobRowOf(w, i), JobRowOf(w, j)) <==> KeepsLead(w, i, j)
  {
    hide Reachable, OpenRows, QueuedJobRows, JobLag, PublishedTurn, Sooner, PublishedSooner;
    JobOrderPublished(w, limits, i, j);
  }

  /** A row that is served before `j` without being shown before it. */
  lemma ServedNotShown(w: World, limits: Limits, j: JobId, row: Row)
    requires Reachable(w, limits) && j in w.jobs && w.jobs[j].status.Queued? && w.jobs[j].survey in w.surveys
    ensures row in ServedBefore(OpenRows(w, FullWork), JobRowOf(w, j))
                   - PublishedBefore(QueuedJobRows(w), JobRowOf(w, j))
            <==> row in UncountedSooner(w, j) || row in Overtaking(w, j)
  {
    hide Reachable, OpenRows, QueuedJobRows, Listed, KeepsLead, Sooner, PublishedSooner, ActiveOn;
    var r := JobRowOf(w, j);
    OpenJobRow(w, row);
    QueuedJobRow(w, row);
    ListedHasSurvey(w, row.id);
    NeverSooner(OpenRows(w, FullWork), r);
    NeverSooner(QueuedJobRows(w), r);
    if row in QueuedJobRows(w) && row.id != j {
      QueuedListed(w, limits, row.id);
      EitherSooner(OpenRows(w, FullWork), row, r);
      EitherSooner(QueuedJobRows(w), row, r);
      if PublishedSooner(QueuedJobRows(w), r, row) {
        LeadKept(w, limits, j, row.id);
      }
    }
  }

  /** A row that is shown before `j` without being served before it. */
  lemma ShownNotServed(w: World, limits: Limits, j: JobId, row: Row)
    requires Reachable(w, limits) && j in w.jobs && w.jobs[j].status.Queued? && w.jobs[j].survey in w.surveys
    ensures row in PublishedBefore(QueuedJobRows(w), JobRowOf(w, j))
                   - ServedBefore(OpenRows(w, FullWork), JobRowOf(w, j))
            <==> row in ReservedSooner(w, j) || row in Overtaken(w, j)
  {
    hide Reachable, OpenRows, QueuedJobRows, Listed, KeepsLead, Sooner, PublishedSooner, ActiveOn;
    OpenJobRow(w, row);
    QueuedJobRow(w, row);
    if row in QueuedJobRows(w) {
      QueuedListed(w, limits, row.id);
      if PublishedSooner(QueuedJobRows(w), row, JobRowOf(w, j)) {
        LeadKept(w, limits, row.id, j);
      }
    }
  }

  lemma Apart(w: World, j: JobId)
    requires j in w.jobs && w.jobs[j].survey in w.surveys
    ensures UncountedSooner(w, j) !! Overtaking(w, j) && ReservedSooner(w, j) !! Overtaken(w, j)
  {
    hide OpenRows, QueuedJobRows, Listed, KeepsLead, Sooner, PublishedSooner, ActiveOn;
  }

  /**
   A queued job's place in the claim order and the position shown for it differ by four counts: jobs no
   position counts that are served sooner, queued jobs shown sooner whose attempt is under way, and queued
   jobs that the lags carry past it, or it past them.  The position is right exactly if they balance.
   */
  lemma JobPlacePublished(w: World, limits: Limits, j: JobId)
    requires Reachable(w, limits) && j in w.jobs && w.jobs[j].status.Queued? && w.jobs[j].survey in w.surveys
    ensures Place(OpenRows(w, FullWork), JobRowOf(w, j)) + |ReservedSooner(w, j)| + |Overtaken(w, j)|
            == PublishedPlace(QueuedJobRows(w), JobRowOf(w, j)) + |UncountedSooner(w, j)| + |Overtaking(w, j)|
    ensures Place(OpenRows(w, FullWork), JobRowOf(w, j)) == PublishedPlace(QueuedJobRows(w), JobRowOf(w, j))
            <==> |ReservedSooner(w, j)| + |Overtaken(w, j)| == |UncountedSooner(w, j)| + |Overtaking(w, j)|
  {
    hide Reachable, OpenRows, QueuedJobRows, ServedBefore, PublishedBefore, UncountedSooner, Overtaking,
      ReservedSooner, Overtaken, JobRowOf;
    var served := ServedBefore(OpenRows(w, FullWork), JobRowOf(w, j));
    var shown := PublishedBefore(QueuedJobRows(w), JobRowOf(w, j));
    forall row
      ensures row in served - shown <==> row in UncountedSooner(w, j) || row in Overtaking(w, j)
      ensures row in shown - served <==> row in ReservedSooner(w, j) || row in Overtaken(w, j)
    {
      ServedNotShown(w, limits, j, row);
      ShownNotServed(w, limits, j, row);
    }
    Apart(w, j);
    assert served - shown == UncountedSooner(w, j) + Overtaking(w, j);
    assert shown - served == ReservedSooner(w, j) + Overtaken(w, j);
    assert served == served * shown + (served - shown) && shown == served * shown + (shown - served);
  }

  /** The same for Drafts, which rank alike: a Draft is never served later than its published turn says. */
  lemma DraftTurnPublished(w: World, d: DraftId)
    requires d in w.drafts && w.drafts[d].status.Queued? && w.drafts[d].survey in w.surveys
    ensures var r := Row(w.surveys[w.drafts[d].survey].user, 1, w.drafts[d].queuedAt, d);
            var open, queued := OpenRows(w, DraftWork), QueuedDraftRows(w);
            open <= queued && PublishedTurn(queued, r) == Turn(open, r) + |ShownOnly(open, queued, r)|
  {
    hide ActiveOn, ShownOnly, Turn, PublishedTurn;
    var r := Row(w.surveys[w.drafts[d].survey].user, 1, w.drafts[d].queuedAt, d);
    var open, queued := OpenRows(w, DraftWork), QueuedDraftRows(w);
    TurnGap(open, queued, r);
    assert ServedOnly(open, queued, r) == {};
  }
}
