/** How the quota and charge invariants move when one Survey row changes. */
module SurveyQuotaLemmas {
  import opened SurveyModel
  import opened SurveyTransitions
  import opened SurveyInvariants

  /** A reserved Survey has a reservation to give back: the "no longer available" exits are dead. */
  lemma ReservationIsThere(usage: map<Key, Usage>, surveys: map<SurveyId, Survey>, h: History, s: SurveyId,
                           charge: bool)
    requires QuotaExact(usage, surveys, h)
    requires s in surveys && surveys[s].quota.Reserved?
    ensures Settled(usage, KeyOf(surveys[s]), charge).Some?
  {
    assert s in Reservations(surveys, KeyOf(surveys[s]));
    assert Counts(usage[KeyOf(surveys[s])], surveys, h, KeyOf(surveys[s]));
  }

  /** How many reservations a key holds after one Survey row is replaced. */
  lemma ReservationsMove(surveys: map<SurveyId, Survey>, s: SurveyId, v: Survey, key: Key)
    requires s in surveys ==> KeyOf(v) == KeyOf(surveys[s])
    ensures var before, after := |Reservations(surveys, key)|, |Reservations(surveys[s := v], key)|;
            var was := s in surveys && surveys[s].quota.Reserved?;
            after == before + (if key != KeyOf(v) || was == v.quota.Reserved? then 0
                               else if was then -1 else 1)
  {
    var before, after := Reservations(surveys, key), Reservations(surveys[s := v], key);
    if key == KeyOf(v) && v.quota.Reserved? {
      assert after == before + {s};
    } else {
      assert after == before - {s};
    }
  }

  lemma QuotaUntouched(usage: map<Key, Usage>, surveys: map<SurveyId, Survey>, h: History, s: SurveyId, v: Survey)
    requires QuotaExact(usage, surveys, h)
    requires s in surveys && KeyOf(v) == KeyOf(surveys[s]) && (v.quota.Reserved? <==> surveys[s].quota.Reserved?)
    ensures QuotaExact(usage, surveys[s := v], h)
  {
    hide Reservations, ChargesTo;
    forall k | k in usage
      ensures Counts(usage[k], surveys[s := v], h, k)
    {
      assert Counts(usage[k], surveys, h, k);
      ReservationsMove(surveys, s, v, k);
    }
  }

  lemma ChargesMove(h: History, s: Survey, charge: bool, key: Key)
    ensures ChargesTo(Bill(h, s, charge).charges, key)
            == ChargesTo(h.charges, key) + (if charge && key == KeyOf(s) then 1 else 0)
  {
    if charge {
      assert Bill(h, s, charge).charges[..|h.charges|] == h.charges;
    }
  }

  lemma QuotaSettled(usage: map<Key, Usage>, surveys: map<SurveyId, Survey>, h: History, s: SurveyId, v: Survey,
                     charge: bool)
    requires QuotaExact(usage, surveys, h)
    requires s in surveys && surveys[s].quota.Reserved? && KeyOf(v) == KeyOf(surveys[s]) && !v.quota.Reserved?
    ensures Settled(usage, KeyOf(surveys[s]), charge).Some?
    ensures QuotaExact(Settled(usage, KeyOf(surveys[s]), charge).value, surveys[s := v], Bill(h, surveys[s], charge))
  {
    hide Reservations, ChargesTo;
    ReservationIsThere(usage, surveys, h, s, charge);
    var usage' := Settled(usage, KeyOf(surveys[s]), charge).value;
    var h' := Bill(h, surveys[s], charge);
    forall k | k in usage'
      ensures Counts(usage'[k], surveys[s := v], h', k)
    {
      assert Counts(usage[k], surveys, h, k);
      ReservationsMove(surveys, s, v, k);
      ChargesMove(h, surveys[s], charge, k);
    }
  }

  lemma QuotaReserved(usage: map<Key, Usage>, surveys: map<SurveyId, Survey>, h: History, s: SurveyId, v: Survey,
                      limit: int)
    requires QuotaExact(usage, surveys, h)
    requires s !in surveys && v.quota.Reserved?
    requires Get(usage, KeyOf(v), Usage(0, 0)).reserved + Get(usage, KeyOf(v), Usage(0, 0)).succeeded < limit
    ensures var row := Get(usage, KeyOf(v), Usage(0, 0));
            QuotaExact(usage[KeyOf(v) := row.(reserved := row.reserved + 1)], surveys[s := v],
                       h.(births := h.births + 1,
                          ceilings := h.ceilings[KeyOf(v) := Max(Get(h.ceilings, KeyOf(v), 0), limit)]))
  {
    hide Reservations, ChargesTo;
    QuotaRowOpened(usage, surveys, h, KeyOf(v));
    var usage0 := usage[KeyOf(v) := Get(usage, KeyOf(v), Usage(0, 0))];
    var row := usage0[KeyOf(v)];
    var usage' := usage0[KeyOf(v) := row.(reserved := row.reserved + 1)];
    assert usage' == usage[KeyOf(v) := row.(reserved := row.reserved + 1)];
    var h' := h.(births := h.births + 1,
                 ceilings := h.ceilings[KeyOf(v) := Max(Get(h.ceilings, KeyOf(v), 0), limit)]);
    forall k | k in usage'
      ensures Counts(usage'[k], surveys[s := v], h', k)
    {
      assert Counts(usage0[k], surveys, h, k);
      ReservationsMove(surveys, s, v, k);
    }
  }

  lemma NoRowNoCount(usage: map<Key, Usage>, surveys: map<SurveyId, Survey>, h: History, key: Key)
    requires QuotaExact(usage, surveys, h) && key !in usage
    ensures Reservations(surveys, key) == {} && ChargesTo(h.charges, key) == 0
  {
    NoCharges(h.charges, key);
  }

  lemma NoCharges(charges: seq<Charge>, key: Key)
    requires forall i :: 0 <= i < |charges| ==> charges[i].key != key
    ensures ChargesTo(charges, key) == 0
  {
  }

  /** Inserting the usage row of a key, as every create call does first, changes no count. */
  lemma QuotaRowOpened(usage: map<Key, Usage>, surveys: map<SurveyId, Survey>, h: History, key: Key)
    requires QuotaExact(usage, surveys, h)
    ensures QuotaExact(usage[key := Get(usage, key, Usage(0, 0))], surveys, h)
  {
    if key !in usage {
      NoRowNoCount(usage, surveys, h, key);
      assert Counts(Usage(0, 0), surveys, h, key);
    }
  }

  lemma QuotaErased(usage: map<Key, Usage>, surveys: map<SurveyId, Survey>, h: History, s: SurveyId)
    requires QuotaExact(usage, surveys, h)
    requires s in surveys && !surveys[s].quota.Reserved?
    ensures QuotaExact(usage, surveys - {s}, h)
  {
    hide ChargesTo;
    forall k | k in usage
      ensures Counts(usage[k], surveys - {s}, h, k)
    {
      assert Counts(usage[k], surveys, h, k);
      assert Reservations(surveys - {s}, k) == Reservations(surveys, k);
    }
  }

  lemma QuotaErasedReserved(usage: map<Key, Usage>, surveys: map<SurveyId, Survey>, h: History, s: SurveyId)
    requires QuotaExact(usage, surveys, h)
    requires s in surveys && surveys[s].quota.Reserved?
    ensures Settled(usage, KeyOf(surveys[s]), false).Some?
    ensures QuotaExact(Settled(usage, KeyOf(surveys[s]), false).value, surveys - {s}, h)
  {
    hide Counts, Settled;
    var v := surveys[s].(quota := QuotaState.Released);
    QuotaSettled(usage, surveys, h, s, v, false);
    var usage' := Settled(usage, KeyOf(surveys[s]), false).value;
    QuotaErased(usage', surveys[s := v], h, s);
    assert surveys[s := v] - {s} == surveys - {s};
  }

  lemma QuotaRecovered(usage: map<Key, Usage>, surveys: map<SurveyId, Survey>, h: History, s: SurveyId, v: Survey)
    requires QuotaExact(usage, surveys, h)
    requires s in surveys && !surveys[s].quota.Reserved? && KeyOf(v) == KeyOf(surveys[s]) && !v.quota.Reserved?
    ensures var key := KeyOf(surveys[s]);
            var billed := Bill(h, surveys[s], true);
            key in usage &&
            QuotaExact(usage[key := usage[key].(succeeded := usage[key].succeeded + 1)], surveys[s := v],
                       billed.(recoveries := billed.recoveries[key := Get(billed.recoveries, key, 0) + 1]))
  {
    hide Reservations, ChargesTo;
    var key := KeyOf(surveys[s]);
    var billed := Bill(h, surveys[s], true);
    var h' := billed.(recoveries := billed.recoveries[key := Get(billed.recoveries, key, 0) + 1]);
    var usage' := usage[key := usage[key].(succeeded := usage[key].succeeded + 1)];
    forall k | k in usage'
      ensures Counts(usage'[k], surveys[s := v], h', k)
    {
      assert Counts(usage[k], surveys, h, k);
      ReservationsMove(surveys, s, v, k);
      ChargesMove(h, surveys[s], true, k);
    }
  }

  // ---------- charges ----------

  lemma ChargesUntouched(surveys: map<SurveyId, Survey>, h: History, s: SurveyId, v: Survey)
    requires ChargedOnce(surveys, h)
    requires s in surveys && v.birth == surveys[s].birth && (v.quota.Consumed? <==> surveys[s].quota.Consumed?)
    ensures ChargedOnce(surveys[s := v], h)
  {
  }

  lemma ChargesBilled(surveys: map<SurveyId, Survey>, h: History, s: SurveyId, v: Survey, charge: bool)
    requires ChargedOnce(surveys, h)
    requires s in surveys && v.birth == surveys[s].birth && !surveys[s].quota.Consumed?
    requires v.quota.Consumed? <==> charge
    ensures ChargedOnce(surveys[s := v], Bill(h, surveys[s], charge))
  {
    var h' := Bill(h, surveys[s], charge);
    if charge {
      assert h'.charges == h.charges + [Charge(v.birth, KeyOf(surveys[s]))];
      forall t | t in surveys
        ensures surveys[s := v][t].quota.Consumed? <==> Charged(h'.charges, surveys[t].birth)
      {
        ChargedAppend(h.charges, Charge(v.birth, KeyOf(surveys[s])), surveys[t].birth);
      }
    }
  }

  lemma ChargedAppend(charges: seq<Charge>, c: Charge, birth: nat)
    ensures Charged(charges + [c], birth) <==> Charged(charges, birth) || c.birth == birth
  {
    if Charged(charges, birth) {
      var i :| 0 <= i < |charges| && charges[i].birth == birth;
      assert (charges + [c])[i].birth == birth;
    }
    if c.birth == birth {
      assert (charges + [c])[|charges|].birth == birth;
    }
  }
}
