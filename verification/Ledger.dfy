/**
 The durable ledgers of papers awaiting full text, and the reviewed scope: an upsert keeps the highest
 version, the widest span of days and every reason.  What a ledger holds depends only on the set of
 observations made, not on how often or in which order they were recorded.
 */
module Ledger {
  type Paper = nat
  type Day = int

  datatype Row = Row(version: nat, first: Day, last: Day, reasons: set<nat>)
  datatype Entry = Entry(paper: Paper, row: Row)

  function Join(a: Row, b: Row): Row {
    Row(if a.version >= b.version then a.version else b.version,
        if a.first <= b.first then a.first else b.first,
        if a.last >= b.last then a.last else b.last,
        a.reasons + b.reasons)
  }

  /** INSERT … ON CONFLICT DO UPDATE with GREATEST, LEAST and the union of reasons. */
  function Upsert(m: map<Paper, Row>, e: Entry): map<Paper, Row> {
    m[e.paper := if e.paper in m then Join(m[e.paper], e.row) else e.row]
  }

  /** One paper version seen on one day for one reason. */
  function Seen(paper: Paper, version: nat, day: Day, reason: nat): Entry {
    Entry(paper, Row(version, day, day, {reason}))
  }

  function Recorded(m: map<Paper, Row>, es: seq<Entry>): map<Paper, Row>
    decreases |es|
  {
    if es == [] then m else Recorded(Upsert(m, es[0]), es[1..])
  }

  lemma JoinLaws(a: Row, b: Row, c: Row)
    ensures Join(a, a) == a
    ensures Join(a, b) == Join(b, a)
    ensures Join(Join(a, b), c) == Join(a, Join(b, c))
  {
    assert a.reasons + b.reasons == b.reasons + a.reasons;
    assert a.reasons + a.reasons == a.reasons;
    assert (a.reasons + b.reasons) + c.reasons == a.reasons + (b.reasons + c.reasons);
  }

  lemma UpsertSwap(m: map<Paper, Row>, d: Entry, e: Entry)
    ensures Upsert(Upsert(m, d), e) == Upsert(Upsert(m, e), d)
  {
    hide Join;
    if d.paper == e.paper {
      JoinLaws(d.row, e.row, d.row);
      if d.paper in m {
        JoinLaws(m[d.paper], d.row, e.row);
        JoinLaws(m[d.paper], e.row, d.row);
      }
    }
  }

  lemma {:induction false} RecordedAppend(m: map<Paper, Row>, es: seq<Entry>, fs: seq<Entry>)
    ensures Recorded(m, es + fs) == Recorded(Recorded(m, es), fs)
    decreases |es|
  {
    if es == [] {
      assert es + fs == fs;
    } else {
      assert (es + fs)[0] == es[0] && (es + fs)[1..] == es[1..] + fs;
      RecordedAppend(Upsert(m, es[0]), es[1..], fs);
    }
  }

  /** An entry may be recorded early or late. */
  lemma {:induction false} UpsertAnytime(m: map<Paper, Row>, es: seq<Entry>, e: Entry)
    ensures Recorded(Upsert(m, e), es) == Upsert(Recorded(m, es), e)
    decreases |es|
  {
    hide Upsert;
    if es != [] {
      UpsertSwap(m, e, es[0]);
      UpsertAnytime(Upsert(m, es[0]), es[1..], e);
    }
  }

  lemma {:induction false} Commute(m: map<Paper, Row>, es: seq<Entry>, fs: seq<Entry>)
    ensures Recorded(Recorded(m, es), fs) == Recorded(Recorded(m, fs), es)
    decreases |es|
  {
    hide Upsert;
    if es != [] {
      Commute(Upsert(m, es[0]), es[1..], fs);
      UpsertAnytime(m, fs, es[0]);
    }
  }

  lemma UpsertTwice(m: map<Paper, Row>, e: Entry)
    ensures Upsert(Upsert(m, e), e) == Upsert(m, e)
  {
    hide Join;
    JoinLaws(e.row, e.row, e.row);
    if e.paper in m {
      JoinLaws(m[e.paper], e.row, e.row);
    }
  }

  /** Recording an entry a second time changes nothing. */
  lemma {:induction false} Absorbed(m: map<Paper, Row>, es: seq<Entry>, e: Entry)
    requires e in es
    ensures Upsert(Recorded(m, es), e) == Recorded(m, es)
    decreases |es|
  {
    hide Upsert;
    if e == es[0] {
      UpsertAnytime(Upsert(m, e), es[1..], e);
      UpsertTwice(m, e);
    } else {
      Absorbed(Upsert(m, es[0]), es[1..], e);
    }
  }

  /** A crashed day may be replayed in full or in part, any number of times. */
  lemma {:induction false} ReplayHarmless(m: map<Paper, Row>, es: seq<Entry>, again: seq<Entry>)
    requires forall e :: e in again ==> e in es
    ensures Recorded(Recorded(m, es), again) == Recorded(m, es)
    decreases |again|
  {
    hide Upsert;
    if again != [] {
      Absorbed(m, es, again[0]);
      ReplayHarmless(m, es, again[1..]);
    }
  }

  /** The ledger is a function of the set of observations. */
  lemma OnlyTheSetMatters(m: map<Paper, Row>, es: seq<Entry>, fs: seq<Entry>)
    requires forall e :: e in es <==> e in fs
    ensures Recorded(m, es) == Recorded(m, fs)
  {
    ReplayHarmless(m, es, fs);
    ReplayHarmless(m, fs, es);
    Commute(m, es, fs);
  }

  // ---------- what a ledger row says ----------

  predicate Covers(r: Row, s: Row) {
    r.version >= s.version && r.first <= s.first && r.last >= s.last && s.reasons <= r.reasons
  }

  /** Rows only widen. */
  lemma {:induction false} RowsWiden(m: map<Paper, Row>, es: seq<Entry>, p: Paper)
    requires p in m
    ensures p in Recorded(m, es) && Covers(Recorded(m, es)[p], m[p])
    decreases |es|
  {
    if es != [] {
      RowsWiden(Upsert(m, es[0]), es[1..], p);
    }
  }

  lemma {:induction false} EveryEntryCovered(m: map<Paper, Row>, es: seq<Entry>, e: Entry)
    requires e in es
    ensures e.paper in Recorded(m, es) && Covers(Recorded(m, es)[e.paper], e.row)
    decreases |es|
  {
    if e == es[0] {
      RowsWiden(Upsert(m, e), es[1..], e.paper);
    } else {
      EveryEntryCovered(Upsert(m, es[0]), es[1..], e);
    }
  }

  /** Nothing is made up: each bound of a row recorded from nothing is that of some observation. */
  ghost predicate Witnessed(r: Row, p: Paper, es: seq<Entry>) {
    && (exists e :: e in es && e.paper == p && e.row.version == r.version)
    && (exists e :: e in es && e.paper == p && e.row.first == r.first)
    && (exists e :: e in es && e.paper == p && e.row.last == r.last)
    && (forall x :: x in r.reasons ==> exists e :: e in es && e.paper == p && x in e.row.reasons)
  }

  lemma WitnessedJoin(r: Row, p: Paper, es: seq<Entry>, e: Entry)
    requires Witnessed(r, p, es) && e in es && e.paper == p
    ensures Witnessed(Join(r, e.row), p, es)
  {
  }

  lemma {:induction false} RowsWitnessed(m: map<Paper, Row>, es: seq<Entry>, all: seq<Entry>, p: Paper)
    requires p in Recorded(m, es) && (forall e :: e in es ==> e in all)
    requires p in m ==> Witnessed(m[p], p, all)
    ensures Witnessed(Recorded(m, es)[p], p, all)
    decreases |es|
  {
    if es != [] {
      var e := es[0];
      assert e in all;
      if e.paper == p && p in m {
        WitnessedJoin(m[p], p, all, e);
      } else if e.paper == p {
        assert Witnessed(e.row, p, all);
      }
      RowsWitnessed(Upsert(m, e), es[1..], all, p);
    }
  }

  /** A row is exactly the least one covering what was observed about its paper. */
  lemma LedgerMeans(es: seq<Entry>, p: Paper)
    ensures p in Recorded(map[], es) <==> exists e :: e in es && e.paper == p
    ensures forall e :: e in es && e.paper == p ==> p in Recorded(map[], es) && Covers(Recorded(map[], es)[p], e.row)
    ensures p in Recorded(map[], es) ==> Witnessed(Recorded(map[], es)[p], p, es)
  {
    forall e | e in es && e.paper == p
      ensures p in Recorded(map[], es) && Covers(Recorded(map[], es)[p], e.row)
    {
      EveryEntryCovered(map[], es, e);
    }
    if p in Recorded(map[], es) {
      RowsWitnessed(map[], es, es, p);
    }
  }
}
