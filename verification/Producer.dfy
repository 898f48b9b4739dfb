/** The producer's paged scan of the order table, and what a complete drain pushes. */
module Producer {
  import opened OrderStore
  import opened OrderHandlers

  const BATCH_LIMIT := 2000

  predicate PendingRow(row: Row) {
    row.dock.Pending? && !row.cancelled
  }

  function PendingAbove(rows: map<int, Row>, cursor: int): set<int> {
    set oid | oid in rows && PendingRow(rows[oid]) && oid > cursor
  }

  ghost function Pick<T>(p: set<T>): (x: T)
    requires p != {}
    ensures x in p
  {
    var x :| x in p;
    x
  }

  lemma {:induction false} LeastExists(p: set<int>)
    requires p != {}
    ensures exists o :: o in p && forall x | x in p :: o <= x
  {
    var x := Pick(p);
    if p == {x} {
      assert x in p && forall y | y in p :: x <= y;
    } else {
      var q := p - {x};
      LeastExists(q);
      var o :| o in q && forall y | y in q :: o <= y;
      var least := if x < o then x else o;
      forall y | y in p ensures least <= y {
        assert y == x || y in q;
      }
      assert least in p;
    }
  }

  function Least(p: set<int>): (o: int)
    requires p != {}
    ensures o in p && forall x | x in p :: o <= x
  {
    LeastExists(p);
    var o :| o in p && forall x | x in p :: o <= x;
    o
  }

  /** SELECT oid ... WHERE oid > cursor ORDER BY oid ASC LIMIT limit. */
  function Page(rows: map<int, Row>, cursor: int, limit: nat): (page: seq<int>)
    decreases limit
  {
    var p := PendingAbove(rows, cursor);
    if limit == 0 || p == {} then [] else [Least(p)] + Page(rows, Least(p), limit - 1)
  }

  /** The scanned orders whose marker is new and whose push is not refused. */
  ghost function Accepted(s: Store, page: seq<int>, refused: set<int>): seq<int>
    requires forall oid | oid in page :: oid in s.rows
  {
    if page == [] then []
    else
      var n := |page| - 1;
      var front := Accepted(s, page[..n], refused);
      var o := page[n];
      assert o in page;
      if s.rows[o].hid != 0 && o !in s.marks && o !in refused then front + [o] else front
  }

  /** Marker and LPUSH for each order in turn; `stamp` gives the enqueue times. */
  ghost function PushAll(s: Store, oids: seq<int>, stamp: int -> int): (t: Store)
    requires forall oid | oid in oids :: oid in s.rows
    ensures t.rows == s.rows && t.submitted == s.submitted && t.locks == s.locks && t.retries == s.retries
  {
    if oids == [] then s
    else
      var n := |oids| - 1;
      var o := oids[n];
      PushAll(s, oids[..n], stamp).Mark(o).LPush(Queue(s.rows[o].hid), NewMsg(o, s.rows[o].hid, stamp(o)))
  }

  lemma {:induction false} PageSorted(rows: map<int, Row>, cursor: int, limit: nat)
    ensures var page := Page(rows, cursor, limit);
      && |page| <= limit
      && (forall oid | oid in page :: oid in PendingAbove(rows, cursor))
      && (forall i, j | 0 <= i < j < |page| :: page[i] < page[j])
    decreases limit
  {
    var p := PendingAbove(rows, cursor);
    if limit > 0 && p != {} {
      var o := Least(p);
      PageSorted(rows, o, limit - 1);
      var rest := Page(rows, o, limit - 1);
      forall j | 0 <= j < |rest| ensures rest[j] > o {
        assert rest[j] in rest;
      }
    }
  }

  /** One batch: the new state and the new cursor. */
  ghost function Batch(s: Store, cursor: int, stamp: int -> int, refused: set<int>, limit: nat): (r: (Store, int))
    requires limit > 0
    ensures r.0.rows == s.rows
  {
    PageSorted(s.rows, cursor, limit);
    var page := Page(s.rows, cursor, limit);
    (PushAll(s, AcceptedOf(s, page, refused), stamp), if |page| >= limit then page[|page| - 1] else 0)
  }

  ghost function AcceptedOf(s: Store, page: seq<int>, refused: set<int>): (a: seq<int>)
    requires forall oid | oid in page :: oid in s.rows
    ensures forall oid | oid in a :: oid in s.rows
  {
    AcceptedSubset(s, page, refused);
    Accepted(s, page, refused)
  }

  lemma {:induction false} AcceptedSubset(s: Store, page: seq<int>, refused: set<int>)
    requires forall oid | oid in page :: oid in s.rows
    ensures forall oid :: oid in Accepted(s, page, refused) <==>
      oid in page && s.rows[oid].hid != 0 && oid !in s.marks && oid !in refused
  {
    if page != [] {
      var n := |page| - 1;
      AcceptedSubset(s, page[..n], refused);
      assert page == page[..n] + [page[n]];
    }
  }

  /** Batches follow each other until one is not full. */
  ghost function Drain(s: Store, cursor: int, stamp: int -> int, refused: set<int>, limit: nat): (Store, int)
    requires limit > 0
    decreases |PendingAbove(s.rows, cursor)|
  {
    var (t, next) := Batch(s, cursor, stamp, refused, limit);
    if |Page(s.rows, cursor, limit)| < limit then (t, next)
    else
      CursorAdvances(s.rows, cursor, limit);
      Drain(t, next, stamp, refused, limit)
  }

  lemma CursorAdvances(rows: map<int, Row>, cursor: int, limit: nat)
    requires limit > 0 && |Page(rows, cursor, limit)| >= limit
    ensures var page := Page(rows, cursor, limit);
      |PendingAbove(rows, page[|page| - 1])| < |PendingAbove(rows, cursor)|
  {
    PageSorted(rows, cursor, limit);
    var page := Page(rows, cursor, limit);
    var last := page[|page| - 1];
    assert last in page;
    var p, q := PendingAbove(rows, cursor), PendingAbove(rows, last);
    assert q <= p - {last};
    SetShrinks(q, p, last);
  }

  lemma SetShrinks(q: set<int>, p: set<int>, x: int)
    requires q <= p - {x} && x in p
    ensures |q| < |p|
  {
    SubsetCard(q, p - {x});
  }

  lemma {:induction false} SubsetCard(q: set<int>, p: set<int>)
    requires q <= p
    ensures |q| <= |p|
  {
    if q != {} {
      var x := Pick(q);
      SubsetCard(q - {x}, p - {x});
    }
  }

  /** All pending orders above the cursor in one sorted sequence. */
  ghost function AllPending(rows: map<int, Row>, cursor: int): seq<int> {
    Page(rows, cursor, |PendingAbove(rows, cursor)|)
  }

  lemma LeastSplit(rows: map<int, Row>, cursor: int)
    requires PendingAbove(rows, cursor) != {}
    ensures var o := Least(PendingAbove(rows, cursor));
      && |PendingAbove(rows, o)| == |PendingAbove(rows, cursor)| - 1
      && forall x :: x in PendingAbove(rows, cursor) <==> x == o || x in PendingAbove(rows, o)
  {
    var o := Least(PendingAbove(rows, cursor));
    assert PendingAbove(rows, o) == PendingAbove(rows, cursor) - {o};
  }

  /** The complete page is exactly the set of pending orders above the cursor. */
  lemma {:induction false} AllPendingComplete(rows: map<int, Row>, cursor: int, limit: nat)
    requires limit >= |PendingAbove(rows, cursor)|
    ensures forall oid :: oid in Page(rows, cursor, limit) <==> oid in PendingAbove(rows, cursor)
    decreases limit
  {
    if PendingAbove(rows, cursor) != {} {
      LeastSplit(rows, cursor);
      var o := Least(PendingAbove(rows, cursor));
      AllPendingComplete(rows, o, limit - 1);
      assert Page(rows, cursor, limit) == [o] + Page(rows, o, limit - 1);
    }
  }

  /** A page is a prefix of the complete page, and the rest is the complete page after its last order. */
  lemma {:induction false} PagePrefix(rows: map<int, Row>, cursor: int, limit: nat)
    requires limit > 0
    ensures var page := Page(rows, cursor, limit);
      if |page| < limit then page == AllPending(rows, cursor)
      else AllPending(rows, cursor) == page + AllPending(rows, page[|page| - 1])
    decreases limit
  {
    if PendingAbove(rows, cursor) != {} {
      var o := Least(PendingAbove(rows, cursor));
      AllPendingStep(rows, cursor);
      if limit > 1 {
        PagePrefix(rows, o, limit - 1);
        assert Page(rows, cursor, limit) == [o] + Page(rows, o, limit - 1);
      } else {
        assert Page(rows, o, 0) == [];
      }
    }
  }

  lemma AllPendingStep(rows: map<int, Row>, cursor: int)
    requires PendingAbove(rows, cursor) != {}
    ensures var o := Least(PendingAbove(rows, cursor));
      AllPending(rows, cursor) == [o] + AllPending(rows, o)
  {
    LeastSplit(rows, cursor);
  }

  // Pushing.

  ghost function Elems(oids: seq<int>): set<int> {
    set o | o in oids
  }

  lemma {:induction false} PushAllMarks(s: Store, oids: seq<int>, stamp: int -> int)
    requires forall oid | oid in oids :: oid in s.rows
    ensures PushAll(s, oids, stamp).marks == s.marks + Elems(oids)
    ensures forall k: ListKey | !k.Queue? :: PushAll(s, oids, stamp).List(k) == s.List(k)
  {
    if oids != [] {
      var n := |oids| - 1;
      PushAllMarks(s, oids[..n], stamp);
      assert oids == oids[..n] + [oids[n]];
    }
  }

  lemma {:induction false} PushAllConcat(s: Store, a: seq<int>, b: seq<int>, stamp: int -> int)
    requires forall oid | oid in a + b :: oid in s.rows
    ensures forall oid | oid in a :: oid in s.rows
    ensures forall oid | oid in b :: oid in s.rows
    ensures PushAll(s, a + b, stamp) == PushAll(PushAll(s, a, stamp), b, stamp)
    decreases |b|
  {
    assert forall oid | oid in a :: oid in a + b;
    assert forall oid | oid in b :: oid in a + b;
    if b == [] {
      assert a + b == a;
    } else {
      var n := |b| - 1;
      assert (a + b)[..|a + b| - 1] == a + b[..n];
      assert (a + b)[|a + b| - 1] == b[n];
      PushAllConcat(s, a, b[..n], stamp);
    }
  }

  lemma {:induction false} AcceptedConcat(s: Store, a: seq<int>, b: seq<int>, refused: set<int>)
    requires forall oid | oid in a + b :: oid in s.rows
    ensures forall oid | oid in a :: oid in s.rows
    ensures forall oid | oid in b :: oid in s.rows
    ensures Accepted(s, a + b, refused) == Accepted(s, a, refused) + Accepted(s, b, refused)
    decreases |b|
  {
    assert forall oid | oid in a :: oid in a + b;
    assert forall oid | oid in b :: oid in a + b;
    if b == [] {
      assert a + b == a;
    } else {
      var n := |b| - 1;
      assert (a + b)[..|a + b| - 1] == a + b[..n];
      assert (a + b)[|a + b| - 1] == b[n];
      AcceptedConcat(s, a, b[..n], refused);
    }
  }

  /** Only the markers of the scanned orders matter. */
  lemma {:induction false} AcceptedSame(s: Store, t: Store, page: seq<int>, refused: set<int>)
    requires t.rows == s.rows && forall oid | oid in page :: oid in s.rows
    requires forall oid | oid in page :: oid in s.marks <==> oid in t.marks
    ensures Accepted(s, page, refused) == Accepted(t, page, refused)
  {
    if page != [] {
      var n := |page| - 1;
      var o := page[n];
      assert o in page;
      assert o in s.marks <==> o in t.marks;
      assert forall oid | oid in page[..n] :: oid in page;
      AcceptedSame(s, t, page[..n], refused);
    }
  }

  /**
   The paged drain does what one unlimited scan would do: whatever the page size, it pushes the
   eligible pending orders above the cursor once, in order, and ends with the cursor at 0.
   */
  lemma {:induction false} DrainIsOneScan(s: Store, cursor: int, stamp: int -> int, refused: set<int>, limit: nat)
    requires limit > 0
    ensures forall oid | oid in AllPending(s.rows, cursor) :: oid in s.rows
    ensures Drain(s, cursor, stamp, refused, limit) ==
      (PushAll(s, AcceptedOf(s, AllPending(s.rows, cursor), refused), stamp), 0)
    decreases |PendingAbove(s.rows, cursor)|
  {
    var page := Page(s.rows, cursor, limit);
    PageSorted(s.rows, cursor, |PendingAbove(s.rows, cursor)|);
    PagePrefix(s.rows, cursor, limit);
    if |page| >= limit {
      var last := page[|page| - 1];
      var t := Batch(s, cursor, stamp, refused, limit).0;
      CursorAdvances(s.rows, cursor, limit);
      DrainIsOneScan(t, last, stamp, refused, limit);
      BatchThenRest(s, cursor, stamp, refused, limit);
    }
  }

  /** The orders above a page's last one keep their marker state. */
  lemma MarksOfRest(s: Store, t: Store, page: seq<int>, a: seq<int>, rest: seq<int>, last: int)
    requires forall i | 0 <= i < |page| :: page[i] <= last
    requires forall oid | oid in a :: oid in page
    requires forall oid | oid in rest :: oid > last
    requires forall oid :: oid in t.marks <==> oid in s.marks || oid in a
    ensures forall oid | oid in rest :: oid in s.marks <==> oid in t.marks
  {
  }

  /** A full batch followed by an unlimited scan from the new cursor is one unlimited scan. */
  lemma BatchThenRest(s: Store, cursor: int, stamp: int -> int, refused: set<int>, limit: nat)
    requires limit > 0 && |Page(s.rows, cursor, limit)| >= limit
    ensures forall oid | oid in AllPending(s.rows, cursor) :: oid in s.rows
    ensures var (t, last) := Batch(s, cursor, stamp, refused, limit);
      && (forall oid | oid in AllPending(s.rows, last) :: oid in s.rows)
      && PushAll(t, AcceptedOf(t, AllPending(s.rows, last), refused), stamp) ==
           PushAll(s, AcceptedOf(s, AllPending(s.rows, cursor), refused), stamp)
  {
    var page := Page(s.rows, cursor, limit);
    var last := page[|page| - 1];
    PageAndRest(s.rows, cursor, limit);
    PushRest(s, page, AllPending(s.rows, last), last, stamp, refused);
  }

  /** A full page and what is pending above it. */
  lemma PageAndRest(rows: map<int, Row>, cursor: int, limit: nat)
    requires limit > 0 && |Page(rows, cursor, limit)| >= limit
    ensures var page := Page(rows, cursor, limit);
      var last := page[|page| - 1];
      var rest := AllPending(rows, last);
      && AllPending(rows, cursor) == page + rest
      && (forall oid | oid in page + rest :: oid in rows)
      && (forall i | 0 <= i < |page| :: page[i] <= last)
      && (forall oid | oid in rest :: oid > last)
  {
    var page := Page(rows, cursor, limit);
    var last := page[|page| - 1];
    PageSorted(rows, cursor, limit);
    PagePrefix(rows, cursor, limit);
    PageSorted(rows, last, |PendingAbove(rows, last)|);
  }

  lemma PushRest(s: Store, page: seq<int>, rest: seq<int>, last: int, stamp: int -> int, refused: set<int>)
    requires forall oid | oid in page + rest :: oid in s.rows
    requires forall i | 0 <= i < |page| :: page[i] <= last
    requires forall oid | oid in rest :: oid > last
    ensures forall oid | oid in page :: oid in page + rest
    ensures forall oid | oid in rest :: oid in page + rest
    ensures var t := PushAll(s, AcceptedOf(s, page, refused), stamp);
      PushAll(t, AcceptedOf(t, rest, refused), stamp) == PushAll(s, AcceptedOf(s, page + rest, refused), stamp)
  {
    assert forall oid | oid in page :: oid in page + rest;
    assert forall oid | oid in rest :: oid in page + rest;
    var a := AcceptedOf(s, page, refused);
    var t := PushAll(s, a, stamp);
    AcceptedSubset(s, page, refused);
    PushAllMarks(s, a, stamp);
    MarksOfRest(s, t, page, a, rest, last);
    AcceptedSame(s, t, rest, refused);
    AcceptedConcat(s, page, rest, refused);
    AcceptedSubset(s, rest, refused);
    PushAllConcat(s, a, Accepted(s, rest, refused), stamp);
  }

  // What a drain leaves in the queues.

  /** How many messages of an order a list holds. */
  function Count(l: seq<Msg>, oid: int): nat {
    if l == [] then 0 else (if l[0].oid == oid then 1 else 0) + Count(l[1..], oid)
  }

  ghost predicate Sorted(oids: seq<int>) {
    forall i, j | 0 <= i < j < |oids| :: oids[i] < oids[j]
  }

  lemma {:induction false} PushAllCounts(s: Store, oids: seq<int>, stamp: int -> int, oid: int)
    requires forall o | o in oids :: o in s.rows
    requires Sorted(oids)
    ensures forall k :: (Count(PushAll(s, oids, stamp).List(k), oid) ==
      Count(s.List(k), oid) + if oid in oids && k == Queue(s.rows[oid].hid) then 1 else 0)
    ensures forall k, m | m in PushAll(s, oids, stamp).List(k) && m !in s.List(k) ::
      m.oid in oids && k == Queue(s.rows[m.oid].hid) && m == NewMsg(m.oid, s.rows[m.oid].hid, stamp(m.oid))
  {
    if oids != [] {
      var n := |oids| - 1;
      var o := oids[n];
      PushAllCounts(s, oids[..n], stamp, oid);
      assert oids == oids[..n] + [o];
      var t := PushAll(s, oids[..n], stamp);
      var m := NewMsg(o, s.rows[o].hid, stamp(o));
      assert o !in oids[..n];
      var u := PushAll(s, oids, stamp);
      forall k
        ensures Count(u.List(k), oid) ==
          Count(t.List(k), oid) + if o == oid && k == Queue(s.rows[o].hid) then 1 else 0
      {
        if k == Queue(s.rows[o].hid) {
          assert u.List(k) == [m] + t.List(k);
          assert ([m] + t.List(k))[1..] == t.List(k);
        }
      }
    }
  }

  lemma {:induction false} AcceptedSorted(s: Store, page: seq<int>, refused: set<int>)
    requires Sorted(page) && forall oid | oid in page :: oid in s.rows
    ensures Sorted(Accepted(s, page, refused))
  {
    if page != [] {
      var n := |page| - 1;
      AcceptedSorted(s, page[..n], refused);
      AcceptedSubset(s, page[..n], refused);
      var front := Accepted(s, page[..n], refused);
      forall i | 0 <= i < |front| ensures front[i] < page[n] {
        assert front[i] in front;
        var j :| 0 <= j < n && page[j] == front[i];
      }
    }
  }

  ghost predicate Eligible(s: Store, cursor: int, refused: set<int>, oid: int) {
    && oid in PendingAbove(s.rows, cursor) && s.rows[oid].hid != 0 && oid !in s.marks && oid !in refused
  }

  /**
   A drain pushes exactly the pending orders above the cursor with a channel, without a marker
   and with a successful push: each once, to its own channel's queue, as a fresh message.
   */
  lemma DrainPushesExactly(s: Store, cursor: int, stamp: int -> int, refused: set<int>, limit: nat, oid: int)
    requires limit > 0
    ensures var t := Drain(s, cursor, stamp, refused, limit).0;
      && t.rows == s.rows && t.submitted == s.submitted
      && (oid in t.marks <==> oid in s.marks || Eligible(s, cursor, refused, oid))
      && (forall k: ListKey | !k.Queue? :: t.List(k) == s.List(k))
      && (forall k :: Count(t.List(k), oid) == Count(s.List(k), oid) +
            if Eligible(s, cursor, refused, oid) && k == Queue(s.rows[oid].hid) then 1 else 0)
      && (forall k, m | m in t.List(k) && m !in s.List(k) ::
            && Eligible(s, cursor, refused, m.oid) && k == Queue(s.rows[m.oid].hid)
            && m == NewMsg(m.oid, s.rows[m.oid].hid, stamp(m.oid)))
  {
    var all := AllPending(s.rows, cursor);
    DrainIsOneScan(s, cursor, stamp, refused, limit);
    AllPendingComplete(s.rows, cursor, |PendingAbove(s.rows, cursor)|);
    PageSorted(s.rows, cursor, |PendingAbove(s.rows, cursor)|);
    AcceptedSubset(s, all, refused);
    AcceptedSorted(s, all, refused);
    PushAllMarks(s, AcceptedOf(s, all, refused), stamp);
    PushAllCounts(s, AcceptedOf(s, all, refused), stamp, oid);
  }

  /** Whatever the cursor, two complete drains reach every pending order; none is pushed twice. */
  lemma TwoDrainsCover(s: Store, cursor: int, stamp: int -> int, r1: set<int>, r2: set<int>, limit: nat, oid: int)
    requires limit > 0
    requires oid in PendingAbove(s.rows, 0) && s.rows[oid].hid != 0 && oid !in s.marks && oid !in r2
    ensures var d := Drain(s, cursor, stamp, r1, limit);
      var t := Drain(d.0, d.1, stamp, r2, limit).0;
      oid in t.marks && Count(t.List(Queue(s.rows[oid].hid)), oid) == Count(s.List(Queue(s.rows[oid].hid)), oid) + 1
  {
    var d := Drain(s, cursor, stamp, r1, limit);
    DrainIsOneScan(s, cursor, stamp, r1, limit);
    DrainPushesExactly(s, cursor, stamp, r1, limit, oid);
    DrainPushesExactly(d.0, d.1, stamp, r2, limit, oid);
  }

  /** An order is eligible exactly if it is pending, not cancelled, beyond the cursor, routed and not yet marked. */
  lemma EligibleMeans(s: Store, cursor: int, refused: set<int>, oid: int)
    ensures Eligible(s, cursor, refused, oid) <==>
      && oid in s.rows && s.rows[oid].dock == Pending && !s.rows[oid].cancelled && s.rows[oid].hid != 0
      && oid > cursor && oid !in s.marks && oid !in refused
  {
  }

  /** A batch is a page of two thousand. */
  lemma BatchesAre2000(s: Store, cursor: int, stamp: int -> int, refused: set<int>)
    ensures var n, next := |PendingAbove(s.rows, cursor)|, Batch(s, cursor, stamp, refused, BATCH_LIMIT).1;
      && (n < 2000 ==> next == 0 && |Page(s.rows, cursor, BATCH_LIMIT)| == n)
      && (n >= 2000 ==> |Page(s.rows, cursor, BATCH_LIMIT)| == 2000 && next in PendingAbove(s.rows, cursor))
  {
    PageSize(s.rows, cursor, BATCH_LIMIT);
    PageSorted(s.rows, cursor, BATCH_LIMIT);
  }

  lemma {:induction false} PageSize(rows: map<int, Row>, cursor: int, limit: nat)
    ensures var n := |PendingAbove(rows, cursor)|;
      |Page(rows, cursor, limit)| == if n < limit then n else limit
    decreases limit
  {
    var p := PendingAbove(rows, cursor);
    if limit > 0 && p != {} {
      var o := Least(p);
      assert PendingAbove(rows, o) == p - {o};
      PageSize(rows, o, limit - 1);
    }
  }
}
