/** How attempt numbers, budgets and capacity move when attempts are reserved, updated or erased. */
module SurveyAttemptLemmas {
  import opened Sets
  import opened SurveyModel
  import opened SurveyInvariants

  /** The attempts only lost rows or became quieter, never louder. */
  ghost predicate Quieter(attempts: map<AttemptId, Attempt>, attempts': map<AttemptId, Attempt>) {
    forall a :: a in attempts' ==> a in attempts && Calmer(attempts[a], attempts'[a])
  }

  predicate Calmer(x: Attempt, y: Attempt) {
    && Same(x, y) && y.survey == x.survey && y.number == x.number
    && (Active(y) ==> Active(x))
    && (y.started ==> x.started || Active(x))
    && (y.status.Running? ==> y.started)
  }

  /** Rows disappear only together with every other attempt on the same item. */
  ghost predicate WholeItems(attempts: map<AttemptId, Attempt>, attempts': map<AttemptId, Attempt>) {
    forall a, b | a in attempts && b in attempts && Same(attempts[a], attempts[b]) && a in attempts'
      :: b in attempts'
  }

  lemma BudgetsQuieten(attempts: map<AttemptId, Attempt>, attempts': map<AttemptId, Attempt>, limits: Limits)
    requires Budgeted(attempts, limits) && Quieter(attempts, attempts')
    ensures Budgeted(attempts', limits)
  {
    forall kind, target
      ensures |SpentOn(attempts', kind, target)| <= Budget(limits, kind)
    {
      forall a | a in SpentOn(attempts', kind, target)
        ensures a in SpentOn(attempts, kind, target)
      {
        assert Calmer(attempts[a], attempts'[a]);
      }
      SubsetSize(SpentOn(attempts', kind, target), SpentOn(attempts, kind, target));
    }
  }

  /** Users keep their names: a Survey present before and after belongs to the same user. */
  ghost predicate SameUsers(surveys: map<SurveyId, Survey>, surveys': map<SurveyId, Survey>) {
    forall s :: s in surveys && s in surveys' ==> surveys'[s].user == surveys[s].user
  }

  lemma CapsQuieten(surveys: map<SurveyId, Survey>, surveys': map<SurveyId, Survey>,
                    attempts: map<AttemptId, Attempt>, attempts': map<AttemptId, Attempt>, limits: Limits)
    requires Capped(surveys, attempts, limits) && Quieter(attempts, attempts') && SameUsers(surveys, surveys')
    requires forall a :: a in attempts' ==> attempts'[a].survey in surveys
    ensures Capped(surveys', attempts', limits)
  {
    forall kind
      ensures |ActiveOfKind(attempts', kind)| <= limits.Global(kind)
    {
      forall a | a in ActiveOfKind(attempts', kind)
        ensures a in ActiveOfKind(attempts, kind)
      {
        assert Calmer(attempts[a], attempts'[a]);
      }
      SubsetSize(ActiveOfKind(attempts', kind), ActiveOfKind(attempts, kind));
    }
    forall kind, user
      ensures |ActiveOfUser(surveys', attempts', kind, user)| <= limits.PerUser(kind)
    {
      forall a | a in ActiveOfUser(surveys', attempts', kind, user)
        ensures a in ActiveOfUser(surveys, attempts, kind, user)
      {
        assert Calmer(attempts[a], attempts'[a]);
      }
      SubsetSize(ActiveOfUser(surveys', attempts', kind, user), ActiveOfUser(surveys, attempts, kind, user));
    }
  }

  lemma OnWholeItems(attempts: map<AttemptId, Attempt>, attempts': map<AttemptId, Attempt>, a: AttemptId)
    requires Quieter(attempts, attempts') && WholeItems(attempts, attempts') && a in attempts'
    ensures AttemptsOn(attempts', attempts[a].kind, attempts[a].target)
            == AttemptsOn(attempts, attempts[a].kind, attempts[a].target)
  {
    var on := AttemptsOn(attempts, attempts[a].kind, attempts[a].target);
    var on' := AttemptsOn(attempts', attempts[a].kind, attempts[a].target);
    forall b
      ensures b in on <==> b in on'
    {
      if b in on {
        assert Same(attempts[a], attempts[b]);
        assert Calmer(attempts[b], attempts'[b]);
      }
      if b in on' {
        assert Calmer(attempts[b], attempts'[b]);
      }
    }
  }

  lemma NumbersQuieten(attempts: map<AttemptId, Attempt>, attempts': map<AttemptId, Attempt>)
    requires Numbered(attempts) && Quieter(attempts, attempts') && WholeItems(attempts, attempts')
    ensures Numbered(attempts')
  {
    forall a | a in attempts'
      ensures var n := |AttemptsOn(attempts', attempts'[a].kind, attempts'[a].target)|;
              && 1 <= attempts'[a].number <= n
              && (Active(attempts'[a]) ==> attempts'[a].number == n)
              && (attempts'[a].status.Running? ==> attempts'[a].started)
    {
      assert Calmer(attempts[a], attempts'[a]);
      OnWholeItems(attempts, attempts', a);
    }
    forall a, b | a in attempts' && b in attempts' && Same(attempts'[a], attempts'[b])
                  && attempts'[a].number == attempts'[b].number
      ensures a == b
    {
      assert Calmer(attempts[a], attempts'[a]) && Calmer(attempts[b], attempts'[b]);
    }
  }

  // ---------- reservation ----------

  lemma AttemptsOnInsert(attempts: map<AttemptId, Attempt>, a: AttemptId, v: Attempt, kind: WorkKind, target: nat)
    requires a !in attempts
    ensures AttemptsOn(attempts[a := v], kind, target)
            == AttemptsOn(attempts, kind, target) + (if v.kind == kind && v.target == target then {a} else {})
  {
  }

  predicate Fresh(attempts: map<AttemptId, Attempt>, a: AttemptId, v: Attempt) {
    && a !in attempts && v.status.Reserved? && !v.started
    && v.number == |AttemptsOn(attempts, v.kind, v.target)| + 1
    && ActiveOn(attempts, v.kind, v.target) == {}
  }

  predicate NumberedRow(attempts: map<AttemptId, Attempt>, b: AttemptId)
    requires b in attempts
  {
    var m := |AttemptsOn(attempts, attempts[b].kind, attempts[b].target)|;
    && 1 <= attempts[b].number <= m
    && (Active(attempts[b]) ==> attempts[b].number == m)
    && (attempts[b].status.Running? ==> attempts[b].started)
  }

  lemma RowsNumbered(attempts: map<AttemptId, Attempt>)
    requires forall b :: b in attempts ==> NumberedRow(attempts, b)
    requires forall b, c | b in attempts && c in attempts && Same(attempts[b], attempts[c])
                           && attempts[b].number == attempts[c].number :: b == c
    ensures Numbered(attempts)
  {
    hide AttemptsOn, Active;
  }

  lemma NumbersDiffer(attempts: map<AttemptId, Attempt>, b: AttemptId, c: AttemptId)
    requires Numbered(attempts) && b in attempts && c in attempts
    requires Same(attempts[b], attempts[c]) && attempts[b].number == attempts[c].number
    ensures b == c
  {
    hide AttemptsOn, Active;
  }

  /** The numbering of one attempt after a fresh one was reserved. */
  lemma NumberAfter(attempts: map<AttemptId, Attempt>, a: AttemptId, v: Attempt, b: AttemptId)
    requires Numbered(attempts) && Fresh(attempts, a, v) && b in attempts
    ensures NumberedRow(attempts[a := v], b)
    ensures Same(attempts[b], v) ==> attempts[b].number < v.number
  {
    AttemptsOnInsert(attempts, a, v, attempts[b].kind, attempts[b].target);
    if Same(attempts[b], v) {
      assert b !in ActiveOn(attempts, v.kind, v.target);
    }
  }

  lemma FreshNumber(attempts: map<AttemptId, Attempt>, a: AttemptId, v: Attempt)
    requires Fresh(attempts, a, v)
    ensures NumberedRow(attempts[a := v], a)
  {
    AttemptsOnInsert(attempts, a, v, v.kind, v.target);
  }

  lemma NumbersReserved(attempts: map<AttemptId, Attempt>, a: AttemptId, v: Attempt)
    requires Numbered(attempts) && Fresh(attempts, a, v)
    ensures Numbered(attempts[a := v])
  {
    hide AttemptsOn, Numbered, Active;
    var attempts' := attempts[a := v];
    assert Numbered(attempts') by {
      FreshNumber(attempts, a, v);
      forall b | b in attempts'
        ensures NumberedRow(attempts', b)
      {
        if b != a {
          NumberAfter(attempts, a, v, b);
        }
      }
      forall b, c | b in attempts' && c in attempts' && Same(attempts'[b], attempts'[c])
                    && attempts'[b].number == attempts'[c].number
        ensures b == c
      {
        if b != a && c != a {
          NumbersDiffer(attempts, b, c);
        } else if b != a {
          NumberAfter(attempts, a, v, b);
        } else if c != a {
          NumberAfter(attempts, a, v, c);
        }
      }
      RowsNumbered(attempts');
    }
  }

  lemma SpentOnInsert(attempts: map<AttemptId, Attempt>, a: AttemptId, v: Attempt, kind: WorkKind, target: nat)
    requires a !in attempts && v.status.Reserved?
    ensures SpentOn(attempts[a := v], kind, target)
            == SpentOn(attempts, kind, target) + (if v.kind == kind && v.target == target then {a} else {})
  {
    AttemptsOnInsert(attempts, a, v, kind, target);
  }

  lemma BudgetsReserved(attempts: map<AttemptId, Attempt>, a: AttemptId, v: Attempt, limits: Limits)
    requires Budgeted(attempts, limits) && Fresh(attempts, a, v)
    requires |StartedOn(attempts, v.kind, v.target)| < Budget(limits, v.kind)
    ensures Budgeted(attempts[a := v], limits)
  {
    var attempts' := attempts[a := v];
    forall kind, target
      ensures |SpentOn(attempts', kind, target)| <= Budget(limits, kind)
    {
      SpentOnInsert(attempts, a, v, kind, target);
      if v.kind == kind && v.target == target {
        assert forall b :: b in SpentOn(attempts, kind, target) ==> b !in ActiveOn(attempts, kind, target);
        assert SpentOn(attempts, kind, target) == StartedOn(attempts, kind, target);
      }
    }
  }

  /** At most one more active attempt than before, and none more of another kind or user. */
  lemma KindReserved(attempts: map<AttemptId, Attempt>, a: AttemptId, v: Attempt, limits: Limits, kind: WorkKind)
    requires a !in attempts && |ActiveOfKind(attempts, kind)| <= limits.Global(kind)
    requires kind == v.kind ==> |ActiveOfKind(attempts, kind)| < limits.Global(kind)
    ensures |ActiveOfKind(attempts[a := v], kind)| <= limits.Global(kind)
  {
    var before, after := ActiveOfKind(attempts, kind), ActiveOfKind(attempts[a := v], kind);
    assert after <= before + {a};
    assert kind != v.kind ==> after <= before;
    SubsetSize(after, if kind == v.kind then before + {a} else before);
  }

  lemma UserReserved(surveys: map<SurveyId, Survey>, attempts: map<AttemptId, Attempt>, a: AttemptId, v: Attempt,
                     limits: Limits, kind: WorkKind, user: UserId)
    requires a !in attempts && v.survey in surveys
    requires |ActiveOfUser(surveys, attempts, kind, user)| <= limits.PerUser(kind)
    requires kind == v.kind && user == surveys[v.survey].user ==>
               |ActiveOfUser(surveys, attempts, kind, user)| < limits.PerUser(kind)
    ensures |ActiveOfUser(surveys, attempts[a := v], kind, user)| <= limits.PerUser(kind)
  {
    var before := ActiveOfUser(surveys, attempts, kind, user);
    var after := ActiveOfUser(surveys, attempts[a := v], kind, user);
    var mine := kind == v.kind && user == surveys[v.survey].user;
    assert after <= before + {a};
    assert !mine ==> after <= before;
    SubsetSize(after, if mine then before + {a} else before);
  }

  lemma CapsReserved(surveys: map<SurveyId, Survey>, attempts: map<AttemptId, Attempt>, a: AttemptId, v: Attempt,
                     limits: Limits)
    requires Capped(surveys, attempts, limits) && a !in attempts && v.survey in surveys
    requires |ActiveOfKind(attempts, v.kind)| < limits.Global(v.kind)
    requires |ActiveOfUser(surveys, attempts, v.kind, surveys[v.survey].user)| < limits.PerUser(v.kind)
    ensures Capped(surveys, attempts[a := v], limits)
  {
    hide ActiveOfKind, ActiveOfUser;
    var attempts' := attempts[a := v];
    forall kind
      ensures |ActiveOfKind(attempts', kind)| <= limits.Global(kind)
    {
      KindReserved(attempts, a, v, limits, kind);
    }
    forall kind, user
      ensures |ActiveOfUser(surveys, attempts', kind, user)| <= limits.PerUser(kind)
    {
      UserReserved(surveys, attempts, a, v, limits, kind, user);
    }
  }
}
