/**
 The fair order of a shared queue: every user's rows are numbered on their own, and the queue is
 served by that number, then by age.  Both the claim query and the published queue position are
 window functions over such rows.
 */
module FairQueue {
  import opened Sets

  /** `rank` is the leading sort key inside one user's rows: 0 for an archiving job, 1 for anything else. */
  datatype Row = Row(user: nat, rank: nat, queuedAt: int, id: nat)

  /** Ids are primary keys. */
  ghost predicate Keyed(rows: set<Row>) {
    forall p, q :: p in rows && q in rows && p.id == q.id ==> p == q
  }

  predicate Older(p: Row, q: Row) {
    p.queuedAt < q.queuedAt || (p.queuedAt == q.queuedAt && p.id < q.id)
  }

  /** The order inside one user's rows. */
  predicate Before(p: Row, q: Row) {
    p.rank < q.rank || (p.rank == q.rank && Older(p, q))
  }

  function Ahead(rows: set<Row>, r: Row): set<Row> {
    set p | p in rows && p.user == r.user && Before(p, r)
  }

  /** row_number() over the user's rows. */
  function Turn(rows: set<Row>, r: Row): nat {
    |Ahead(rows, r)| + 1
  }

  /** The order rows are served in: by turn, then by age. */
  predicate Sooner(rows: set<Row>, p: Row, q: Row) {
    Turn(rows, p) < Turn(rows, q) || (Turn(rows, p) == Turn(rows, q) && Older(p, q))
  }

  /** The rows up to and including `r` in serving order. */
  function UpTo(rows: set<Row>, r: Row): set<Row> {
    set p | p in rows && (p == r || Sooner(rows, p, r))
  }

  function ServedBefore(rows: set<Row>, r: Row): set<Row> {
    set p | p in rows && Sooner(rows, p, r)
  }

  /** row_number() over the whole queue. */
  function Place(rows: set<Row>, r: Row): nat {
    |ServedBefore(rows, r)| + 1
  }

  function Of(rows: set<Row>, user: nat): set<Row> {
    set p | p in rows && p.user == user
  }

  lemma Total(p: Row, q: Row)
    requires p.id != q.id
    ensures Before(p, q) || Before(q, p)
    ensures Older(p, q) || Older(q, p)
  {
  }

  /** Inside one user's rows, the turn follows the user's own order. */
  lemma TurnFollows(rows: set<Row>, p: Row, q: Row)
    requires p in rows && q in rows && p.user == q.user && Before(p, q)
    ensures Turn(rows, p) < Turn(rows, q)
  {
    assert p in Ahead(rows, q) && p !in Ahead(rows, p);
    ProperSubsetSize(Ahead(rows, p), Ahead(rows, q));
  }

  /** Serving order is a strict total order on the rows. */
  lemma SoonerTotal(rows: set<Row>, p: Row, q: Row)
    requires Keyed(rows) && p in rows && q in rows
    ensures !Sooner(rows, p, p)
    ensures p != q ==> (Sooner(rows, p, q) <==> !Sooner(rows, q, p))
  {
    if p != q {
      Total(p, q);
    }
  }

  lemma SoonerTransitive(rows: set<Row>, p: Row, q: Row, r: Row)
    requires Sooner(rows, p, q) && Sooner(rows, q, r)
    ensures Sooner(rows, p, r)
  {
  }

  /** Positions number the queue in serving order, without ties. */
  lemma PlaceFollows(rows: set<Row>, p: Row, q: Row)
    requires Keyed(rows) && p in rows && q in rows
    ensures Place(rows, p) < Place(rows, q) <==> Sooner(rows, p, q)
    ensures Place(rows, p) == Place(rows, q) <==> p == q
  {
    if p != q {
      SoonerTotal(rows, p, q);
      if Sooner(rows, p, q) {
        PlaceLess(rows, p, q);
      } else {
        PlaceLess(rows, q, p);
      }
    } else {
      SoonerTotal(rows, p, p);
    }
  }

  lemma PlaceLess(rows: set<Row>, p: Row, q: Row)
    requires Keyed(rows) && p in rows && q in rows && Sooner(rows, p, q)
    ensures Place(rows, p) < Place(rows, q)
  {
    var a, b := ServedBefore(rows, p), ServedBefore(rows, q);
    SoonerTotal(rows, p, p);
    assert p in b && p !in a;
    forall x | x in a
      ensures x in b
    {
      SoonerTransitive(rows, x, p, q);
    }
    ProperSubsetSize(a, b);
  }

  // ---------- round robin ----------

  /** The last of some of one user's rows, in the user's order. */
  lemma {:induction false} LastOf(some: set<Row>) returns (x: Row)
    requires Keyed(some) && some != {}
    ensures x in some && forall p :: p in some && p != x ==> Before(p, x)
    decreases |some|
  {
    var y :| y in some;
    var rest := some - {y};
    if rest == {} {
      assert some == {y};
      x := y;
    } else {
      var z := LastOf(rest);
      Total(y, z);
      x := if Before(y, z) then z else y;
      assert forall p :: p in some ==> p == y || p in rest;
    }
  }

  lemma {:induction false} FirstOf(some: set<Row>) returns (x: Row)
    requires Keyed(some) && some != {}
    ensures x in some && forall p :: p in some && p != x ==> Before(x, p)
    decreases |some|
  {
    var y :| y in some;
    var rest := some - {y};
    if rest == {} {
      assert some == {y};
      x := y;
    } else {
      var z := FirstOf(rest);
      Total(y, z);
      x := if Before(z, y) then z else y;
      assert forall p :: p in some ==> p == y || p in rest;
    }
  }

  /** A served prefix contains a user's rows in the user's own order. */
  lemma PrefixClosed(rows: set<Row>, r: Row, p: Row, q: Row)
    requires Keyed(rows) && r in rows && p in rows && q in UpTo(rows, r) && p.user == q.user && Before(p, q)
    ensures p in UpTo(rows, r)
  {
    TurnFollows(rows, p, q);
    assert Sooner(rows, p, q);
    if q != r {
      SoonerTransitive(rows, p, q, r);
    }
  }

  /** How many of a user's rows a prefix serves is the turn of the last of them. */
  lemma ServedSoFar(rows: set<Row>, r: Row, user: nat) returns (x: Row)
    requires Keyed(rows) && r in rows && Of(UpTo(rows, r), user) != {}
    ensures x in UpTo(rows, r) && x.user == user && Turn(rows, x) == |Of(UpTo(rows, r), user)|
  {
    var served := Of(UpTo(rows, r), user);
    x := LastOf(served);
    forall p | p in Ahead(rows, x)
      ensures p in served - {x}
    {
      PrefixClosed(rows, r, p, x);
    }
    assert Ahead(rows, x) == served - {x};
  }

  lemma NextServed(rows: set<Row>, r: Row, user: nat) returns (y: Row)
    requires Keyed(rows) && r in rows && Of(rows, user) - UpTo(rows, r) != {}
    ensures y in rows - UpTo(rows, r) && y.user == user && Turn(rows, y) == |Of(UpTo(rows, r), user)| + 1
  {
    hide Sooner;
    var waiting := Of(rows, user) - UpTo(rows, r);
    y := FirstOf(waiting);
    AheadIsServed(rows, r, y);
    ServedIsAhead(rows, r, y);
    assert Ahead(rows, y) == Of(UpTo(rows, r), user);
  }

  /** Whatever precedes the first waiting row of its user has been served. */
  lemma AheadIsServed(rows: set<Row>, r: Row, y: Row)
    requires y in rows && y !in UpTo(rows, r)
    requires forall p :: p in Of(rows, y.user) - UpTo(rows, r) && p != y ==> Before(y, p)
    ensures Ahead(rows, y) <= Of(UpTo(rows, r), y.user)
  {
    hide UpTo;
    forall p | p in Ahead(rows, y)
      ensures p in UpTo(rows, r)
    {
      assert p in UpTo(rows, r) || p in Of(rows, y.user) - UpTo(rows, r);
    }
  }

  /** A served row of the same user precedes any waiting one. */
  lemma ServedIsAhead(rows: set<Row>, r: Row, y: Row)
    requires Keyed(rows) && r in rows && y in rows && y !in UpTo(rows, r)
    ensures Of(UpTo(rows, r), y.user) <= Ahead(rows, y)
  {
    hide Sooner;
    forall p | p in Of(UpTo(rows, r), y.user)
      ensures p in Ahead(rows, y)
    {
      Total(p, y);
      if Before(y, p) {
        PrefixClosed(rows, r, y, p);
      }
    }
  }

  /**
   At every point of serving the queue, a user still waiting has been served at most one row fewer
   than anybody else: the order is round-robin between users.
   */
  lemma RoundRobin(rows: set<Row>, r: Row, u: nat, v: nat)
    requires Keyed(rows) && r in rows && Of(rows, v) - UpTo(rows, r) != {}
    ensures |Of(UpTo(rows, r), u)| <= |Of(UpTo(rows, r), v)| + 1
  {
    if Of(UpTo(rows, r), u) != {} {
      var x := ServedSoFar(rows, r, u);
      var y := NextServed(rows, r, v);
      SoonerTotal(rows, x, y);
      if Sooner(rows, y, x) {
        if x != r {
          SoonerTransitive(rows, y, x, r);
        }
      }
    }
  }

  // ---------- the published position ----------

  function OlderOf(rows: set<Row>, r: Row): set<Row> {
    set p | p in rows && p.user == r.user && Older(p, r)
  }

  /** The user turn of the progress query: one more than the user's older rows, whatever their rank. */
  function PublishedTurn(rows: set<Row>, r: Row): nat {
    |OlderOf(rows, r)| + 1
  }

  predicate PublishedSooner(rows: set<Row>, p: Row, q: Row) {
    PublishedTurn(rows, p) < PublishedTurn(rows, q)
    || (PublishedTurn(rows, p) == PublishedTurn(rows, q) && Older(p, q))
  }

  function PublishedBefore(rows: set<Row>, r: Row): set<Row> {
    set p | p in rows && PublishedSooner(rows, p, r)
  }

  function PublishedPlace(rows: set<Row>, r: Row): nat {
    |PublishedBefore(rows, r)| + 1
  }

  /** When all rows rank alike, as Drafts do, the counted turn is the numbered turn. */
  lemma SameTurn(rows: set<Row>, r: Row)
    requires r in rows && forall p, q :: p in rows && q in rows ==> p.rank == q.rank
    ensures PublishedTurn(rows, r) == Turn(rows, r)
  {
    assert OlderOf(rows, r) == Ahead(rows, r);
  }

  lemma DraftPositionsAgree(rows: set<Row>, r: Row)
    requires r in rows && forall p, q :: p in rows && q in rows ==> p.rank == q.rank
    ensures PublishedPlace(rows, r) == Place(rows, r)
  {
    forall p | p in rows
      ensures PublishedSooner(rows, p, r) <==> Sooner(rows, p, r)
    {
      SameTurn(rows, p);
      SameTurn(rows, r);
    }
    assert PublishedBefore(rows, r) == ServedBefore(rows, r);
  }

  /** The row served first among those that pass the caps and budgets. */
  ghost predicate Offered(rows: set<Row>, allowed: set<Row>, r: Row) {
    r in rows && r in allowed && forall p :: p in rows && p in allowed && p != r ==> Sooner(rows, r, p)
  }

  lemma {:induction false} SomebodyFirst(rows: set<Row>, some: set<Row>) returns (x: Row)
    requires Keyed(rows) && some <= rows && some != {}
    ensures x in some && forall p :: p in some && p != x ==> Sooner(rows, x, p)
    decreases |some|
  {
    var y :| y in some;
    var rest := some - {y};
    if rest == {} {
      assert some == {y};
      x := y;
    } else {
      var z := SomebodyFirst(rows, rest);
      SoonerTotal(rows, y, z);
      x := if Sooner(rows, z, y) then z else y;
      forall p | p in some && p != x
        ensures Sooner(rows, x, p)
      {
        if x == y && p != z {
          SoonerTransitive(rows, y, z, p);
        }
      }
    }
  }

  /** Place 1 is the next to be served exactly if nothing keeps it back. */
  lemma FirstIsOffered(rows: set<Row>, allowed: set<Row>, r: Row)
    requires Keyed(rows) && r in rows && Place(rows, r) == 1
    ensures Offered(rows, allowed, r) <==> r in allowed
  {
    if r in allowed {
      assert ServedBefore(rows, r) == {};
      forall p | p in rows && p != r
        ensures Sooner(rows, r, p)
      {
        SoonerTotal(rows, r, p);
        assert p !in ServedBefore(rows, r);
      }
    }
  }

  // ---------- how far the published position is off ----------

  /** The user's rows the claim numbers ahead of `r` although the published turn does not count them. */
  function ServedOnly(open: set<Row>, queued: set<Row>, r: Row): set<Row> {
    Ahead(open, r) - queued
  }

  /** The user's older rows the published turn counts although the claim passes them by. */
  function ShownOnly(open: set<Row>, queued: set<Row>, r: Row): set<Row> {
    OlderOf(queued, r) - open
  }

  /** How much later a row is served than its published turn says; negative when it is served earlier. */
  function Lag(open: set<Row>, queued: set<Row>, r: Row): int {
    |ServedOnly(open, queued, r)| - |ShownOnly(open, queued, r)|
  }

  /**
   The claim numbers a user's open rows, archiving ones first; the published turn counts the queued
   rows.  Neither need contain the other, and the turns differ by exactly the lag.
   */
  lemma TurnGap(open: set<Row>, queued: set<Row>, r: Row)
    requires forall p :: p in queued ==> p.rank == r.rank
    ensures Turn(open, r) == PublishedTurn(queued, r) + Lag(open, queued, r)
    ensures Turn(open, r) == PublishedTurn(queued, r)
            <==> |ServedOnly(open, queued, r)| == |ShownOnly(open, queued, r)|
  {
    var both := OlderOf(queued, r) * open;
    assert Ahead(open, r) == both + ServedOnly(open, queued, r) && both !! ServedOnly(open, queued, r);
    assert OlderOf(queued, r) == both + ShownOnly(open, queued, r) && both !! ShownOnly(open, queued, r);
  }

  lemma PublishedTurnFollows(rows: set<Row>, p: Row, q: Row)
    requires p in rows && p.user == q.user && Older(p, q)
    ensures PublishedTurn(rows, p) < PublishedTurn(rows, q)
  {
    assert p in OlderOf(rows, q) && p !in OlderOf(rows, p);
    ProperSubsetSize(OlderOf(rows, p), OlderOf(rows, q));
  }

  /** Two queued rows are served in the published order exactly if their lags do not overtake the difference. */
  lemma OrderExact(open: set<Row>, queued: set<Row>, p: Row, q: Row)
    requires forall x, y :: x in queued && y in queued ==> x.rank == y.rank
    requires p in queued && q in queued && PublishedSooner(queued, p, q)
    ensures var lost := Lag(open, queued, p) - Lag(open, queued, q);
            var ahead := PublishedTurn(queued, q) - PublishedTurn(queued, p);
            Sooner(open, p, q) <==> lost < ahead || (lost == ahead && Older(p, q))
  {
    TurnGap(open, queued, p);
    TurnGap(open, queued, q);
  }

  /** One user's queued rows, and rows that lag alike, are always served in the published order. */
  lemma OrderAgrees(open: set<Row>, queued: set<Row>, p: Row, q: Row)
    requires forall x, y :: x in queued && y in queued ==> x.rank == y.rank
    requires p in queued && q in queued && PublishedSooner(queued, p, q)
    requires p.user == q.user || Lag(open, queued, p) == Lag(open, queued, q)
    ensures Sooner(open, p, q)
  {
    OrderExact(open, queued, p, q);
    if p.user == q.user {
      if Older(q, p) {
        PublishedTurnFollows(queued, q, p);
      }
      assert p == q || Older(p, q);
      SubsetSize(Ahead(open, p), Ahead(open, q));
    }
  }
}
