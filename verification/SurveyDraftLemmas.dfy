/** How the Draft chain moves when one Draft is added, finished, set aside or erased. */
module SurveyDraftLemmas {
  import opened Wrappers
  import opened SurveyModel
  import opened SurveyTransitions
  import opened SurveyInvariants

  /** In a sound chain the highest revision is the number of ready Drafts. */
  lemma LatestIsTop(drafts: map<DraftId, Draft>, s: SurveyId)
    requires Chain(drafts, s)
    ensures LatestRevision(drafts, s) == Top(drafts, s)
  {
    var ready := ReadyOf(drafts, s);
    if d :| IsLatest(drafts, s, d) {
      assert d in ready;
    }
    if |ready| > 0 {
      var d :| d in ready && d in drafts && drafts[d].revision == Some(|ready|);
      forall e | IsReady(drafts, s, e)
        ensures drafts[e].revision.value <= drafts[d].revision.value
      {
        assert e in ready;
      }
      assert IsLatest(drafts, s, d);
    }
  }

  /** Rewriting rows that are not ready before or after does not touch the chain. */
  lemma ChainIgnores(drafts: map<DraftId, Draft>, drafts': map<DraftId, Draft>, s: SurveyId)
    requires Chain(drafts, s)
    requires ReadyOf(drafts', s) == ReadyOf(drafts, s)
    requires forall d :: d in ReadyOf(drafts, s) ==> drafts'[d] == drafts[d]
    ensures Chain(drafts', s)
  {
  }

  /** Appending revision n + 1 to a linked, distinct set of n ready Drafts. */
  lemma LinksGrow(drafts: map<DraftId, Draft>, ready: set<DraftId>, d: DraftId, v: Draft)
    requires Linked(drafts, ready) && Distinct(drafts, ready) && d !in ready
    requires v.revision == Some(|ready| + 1) && Link(v, |ready| + 1)
    ensures Linked(drafts[d := v], ready + {d}) && Distinct(drafts[d := v], ready + {d})
    ensures Topped(drafts[d := v], ready + {d})
  {
    var drafts' := drafts[d := v];
    var ready' := ready + {d};
    assert |ready'| == |ready| + 1;
    forall e, f | e in ready' && f in ready' && drafts'[e].revision == drafts'[f].revision
      ensures e == f
    {
      assert e != d ==> Link(drafts[e], |ready|);
      assert f != d ==> Link(drafts[f], |ready|);
    }
    assert drafts'[d].revision == Some(|ready'|);
  }

  lemma ReadyGrows(drafts: map<DraftId, Draft>, s: SurveyId, d: DraftId, v: Draft)
    requires !IsReady(drafts, s, d) && v.survey == s && v.status.Ready? && v.revision.Some?
    ensures ReadyOf(drafts[d := v], s) == ReadyOf(drafts, s) + {d} && d !in ReadyOf(drafts, s)
  {
    assert forall e :: e != d ==> (IsReady(drafts[d := v], s, e) <==> IsReady(drafts, s, e));
  }

  lemma ChainGrows(drafts: map<DraftId, Draft>, s: SurveyId, d: DraftId, v: Draft)
    requires Chain(drafts, s) && !IsReady(drafts, s, d)
    requires v.survey == s && v.status.Ready? && v.revision == Some(Next(Top(drafts, s)))
    requires v.basedOn == Top(drafts, s) && v.revision.value <= 10
    ensures Chain(drafts[d := v], s)
    ensures ReadyOf(drafts[d := v], s) == ReadyOf(drafts, s) + {d}
  {
    hide ReadyOf, Linked, Distinct, Topped;
    ReadyGrows(drafts, s, d, v);
    LinksGrow(drafts, ReadyOf(drafts, s), d, v);
  }

  /** The ready Drafts of every Survey but `s` survive unchanged, and those of `s` have a chain. */
  lemma Rechained(surveys: map<SurveyId, Survey>, drafts: map<DraftId, Draft>, drafts': map<DraftId, Draft>,
                  surveys': map<SurveyId, Survey>, s: SurveyId)
    requires DraftChain(surveys, drafts)
    requires forall t :: t in surveys' ==> t in surveys
    requires forall d :: d in drafts' ==> DraftSound(drafts'[d]) && drafts'[d].survey in surveys'
    requires forall t :: t != s ==> ReadyOf(drafts', t) == ReadyOf(drafts, t)
    requires forall d :: d in drafts && drafts[d].survey != s && drafts[d].status.Ready? ==>
               d in drafts' && drafts'[d] == drafts[d]
    requires s in surveys' ==> Chain(drafts', s)
    requires forall d :: d in drafts' ==> ActiveSound(surveys', drafts', drafts'[d])
    requires OneActive(drafts')
    ensures DraftChain(surveys', drafts')
  {
    hide Chain, ActiveSound, DraftSound, OneActive;
    forall t | t in surveys' && t != s
      ensures Chain(drafts', t)
    {
      ChainIgnores(drafts, drafts', t);
    }
  }

  lemma ActiveMoves(surveys: map<SurveyId, Survey>, drafts: map<DraftId, Draft>, surveys': map<SurveyId, Survey>,
                    drafts': map<DraftId, Draft>, row: Draft)
    requires IsActiveDraft(row) ==>
               && ActiveSound(surveys, drafts, row)
               && ReadyOf(drafts', row.survey) == ReadyOf(drafts, row.survey)
               && row.survey in surveys' && (row.survey in surveys ==> surveys'[row.survey] == surveys[row.survey])
    ensures ActiveSound(surveys', drafts', row)
  {
  }

  lemma ReadyUnmoved(drafts: map<DraftId, Draft>, d: DraftId, v: Draft, s: SurveyId)
    requires d in drafts ==> !IsReady(drafts, s, d)
    requires v.survey == s ==> !v.status.Ready?
    ensures ReadyOf(drafts[d := v], s) == ReadyOf(drafts, s) && d !in ReadyOf(drafts, s)
  {
    assert forall e :: e != d ==> (IsReady(drafts[d := v], s, e) <==> IsReady(drafts, s, e));
  }

  /** Rewriting one row that was not ready and does not become ready. */
  lemma UnreadyRow(surveys: map<SurveyId, Survey>, drafts: map<DraftId, Draft>, d: DraftId, v: Draft)
    requires DraftChain(surveys, drafts)
    requires d in drafts ==> !drafts[d].status.Ready? && drafts[d].survey == v.survey
    requires v.survey in surveys && !v.status.Ready? && DraftSound(v) && ActiveSound(surveys, drafts, v)
    requires IsActiveDraft(v) ==>
               forall e :: e in drafts && drafts[e].survey == v.survey && IsActiveDraft(drafts[e]) ==> e == d
    ensures DraftChain(surveys, drafts[d := v])
    ensures forall s :: ReadyOf(drafts[d := v], s) == ReadyOf(drafts, s)
  {
    hide Chain, ReadyOf;
    var drafts' := drafts[d := v];
    forall s
      ensures ReadyOf(drafts', s) == ReadyOf(drafts, s)
    {
      ReadyUnmoved(drafts, d, v, s);
    }
    forall e | e in drafts'
      ensures ActiveSound(surveys, drafts', drafts'[e])
    {
      if e != d {
        ActiveMoves(surveys, drafts, surveys, drafts', drafts[e]);
      }
    }
    ReadyUnmoved(drafts, d, v, v.survey);
    ChainIgnores(drafts, drafts', v.survey);
    Rechained(surveys, drafts, drafts', surveys, v.survey);
  }

  /** One row becoming, or arriving as, the next ready revision. */
  lemma ReadyRow(surveys: map<SurveyId, Survey>, drafts: map<DraftId, Draft>, d: DraftId, v: Draft)
    requires DraftChain(surveys, drafts)
    requires d in drafts ==> !drafts[d].status.Ready? && drafts[d].survey == v.survey
    requires v.survey in surveys && v.status.Ready? && DraftSound(v)
    requires v.basedOn == Top(drafts, v.survey) && v.revision == Some(Next(Top(drafts, v.survey)))
    requires v.revision.value <= 10
    requires forall e :: e in drafts && drafts[e].survey == v.survey && IsActiveDraft(drafts[e]) ==> e == d
    ensures DraftChain(surveys, drafts[d := v])
    ensures forall s :: s != v.survey ==> ReadyOf(drafts[d := v], s) == ReadyOf(drafts, s)
  {
    hide Chain, ReadyOf, DraftSound;
    var drafts' := drafts[d := v];
    ChainGrows(drafts, v.survey, d, v);
    forall s | s != v.survey
      ensures ReadyOf(drafts', s) == ReadyOf(drafts, s)
    {
      ReadyUnmoved(drafts, d, v, s);
    }
    forall e | e in drafts'
      ensures ActiveSound(surveys, drafts', drafts'[e])
    {
      if e != d {
        ActiveMoves(surveys, drafts, surveys, drafts', drafts[e]);
      }
    }
    Rechained(surveys, drafts, drafts', surveys, v.survey);
  }

  lemma RowCancelled(d: Draft, s: SurveyId)
    requires DraftSound(d)
    ensures var c := CancelledRow(d, s);
            && DraftSound(c) && c.survey == d.survey
            && (c.status.Ready? || IsActiveDraft(c) ==> c == d)
            && (d.status.Ready? ==> c == d)
            && (IsActiveDraft(c) ==> c.survey != s)
  {
  }

  lemma DraftsCancelled(surveys: map<SurveyId, Survey>, drafts: map<DraftId, Draft>, drafts': map<DraftId, Draft>,
                        s: SurveyId, v: Survey)
    requires DraftChain(surveys, drafts) && s in surveys
    requires drafts'.Keys == drafts.Keys && forall d :: d in drafts ==> drafts'[d] == CancelledRow(drafts[d], s)
    ensures DraftChain(surveys[s := v], drafts')
    ensures forall t :: ReadyOf(drafts', t) == ReadyOf(drafts, t)
  {
    hide Chain, DraftSound, CancelledRow, ActiveSound;
    forall d | d in drafts
      ensures DraftSound(drafts'[d]) && drafts'[d].survey == drafts[d].survey
      ensures drafts'[d].status.Ready? || drafts[d].status.Ready? || IsActiveDraft(drafts'[d]) ==>
                drafts'[d] == drafts[d]
      ensures IsActiveDraft(drafts'[d]) ==> drafts'[d].survey != s
    {
      RowCancelled(drafts[d], s);
    }
    forall t
      ensures ReadyOf(drafts', t) == ReadyOf(drafts, t)
    {
      assert forall d :: IsReady(drafts', t, d) <==> IsReady(drafts, t, d);
    }
    forall d | d in drafts'
      ensures ActiveSound(surveys[s := v], drafts', drafts'[d])
    {
      ActiveMoves(surveys, drafts, surveys[s := v], drafts', drafts'[d]);
    }
    ChainIgnores(drafts, drafts', s);
    forall d, e | d in drafts' && e in drafts' && IsActiveDraft(drafts'[d]) && IsActiveDraft(drafts'[e])
                  && drafts'[d].survey == drafts'[e].survey
      ensures d == e
    {
      assert IsActiveDraft(drafts[d]) && IsActiveDraft(drafts[e]);
    }
    Rechained(surveys, drafts, drafts', surveys[s := v], s);
  }

  lemma DraftsErased(surveys: map<SurveyId, Survey>, drafts: map<DraftId, Draft>, drafts': map<DraftId, Draft>,
                     s: SurveyId)
    requires DraftChain(surveys, drafts) && s in surveys
    requires forall d :: d in drafts' <==> d in drafts && drafts[d].survey != s
    requires forall d :: d in drafts' ==> drafts'[d] == drafts[d]
    ensures DraftChain(surveys - {s}, drafts')
    ensures forall t :: t != s ==> ReadyOf(drafts', t) == ReadyOf(drafts, t)
  {
    hide Chain, DraftSound, ActiveSound;
    forall t | t != s
      ensures ReadyOf(drafts', t) == ReadyOf(drafts, t)
    {
      assert forall d :: IsReady(drafts', t, d) <==> IsReady(drafts, t, d);
    }
    forall d | d in drafts'
      ensures ActiveSound(surveys - {s}, drafts', drafts'[d])
    {
      ActiveMoves(surveys, drafts, surveys - {s}, drafts', drafts[d]);
    }
    Rechained(surveys, drafts, drafts', surveys - {s}, s);
  }

  lemma EmptyChain(drafts: map<DraftId, Draft>, s: SurveyId)
    requires ReadyOf(drafts, s) == {}
    ensures Chain(drafts, s)
  {
  }

  /** A Survey without Drafts has the empty chain. */
  lemma NoDrafts(surveys: map<SurveyId, Survey>, drafts: map<DraftId, Draft>, s: SurveyId, v: Survey)
    requires DraftChain(surveys, drafts) && s !in surveys
    ensures DraftChain(surveys[s := v], drafts) && ReadyOf(drafts, s) == {}
  {
    hide DraftSound, OneActive, ActiveSound;
    assert ReadyOf(drafts, s) == {};
    EmptyChain(drafts, s);
    hide Chain, ReadyOf;
    forall d | d in drafts
      ensures ActiveSound(surveys[s := v], drafts, drafts[d])
    {
      ActiveMoves(surveys, drafts, surveys[s := v], drafts, drafts[d]);
    }
  }

  /** Changing a Survey row that keeps `drafting`, or has no active Draft, leaves the chain alone. */
  lemma DraftsUnderSurvey(surveys: map<SurveyId, Survey>, drafts: map<DraftId, Draft>, s: SurveyId, v: Survey)
    requires DraftChain(surveys, drafts) && s in surveys
    requires v.status.Drafting? || !HasActiveDraft(drafts, s)
    ensures DraftChain(surveys[s := v], drafts)
  {
  }

  lemma ApprovedStays(jobs: map<JobId, Job>, jobs': map<JobId, Job>, drafts: map<DraftId, Draft>,
                      drafts': map<DraftId, Draft>)
    requires Approved(jobs, drafts)
    requires forall j :: j in jobs' ==>
               && j in jobs && jobs'[j].survey == jobs[j].survey && jobs'[j].approved == jobs[j].approved
               && (jobs[j].approved in drafts ==>
                     jobs[j].approved in drafts' && drafts'[jobs[j].approved] == drafts[jobs[j].approved])
               && ReadyOf(drafts', jobs[j].survey) == ReadyOf(drafts, jobs[j].survey)
    ensures Approved(jobs', drafts')
  {
  }
}
