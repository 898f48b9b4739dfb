/** Shutdown rollback followed by the first drain of the next start. */
module Recovery {
  import opened OrderStore
  import opened Resubmit
  import opened OrderHandlers
  import opened OrderDedup
  import opened Producer

  /** The handling of a snapshot of one processing list, message by message. */
  ghost function RollbackList(s: Store, hid: int, vals: seq<Msg>, io: Msg -> Io): Store {
    if vals == [] then s
    else
      var n := |vals| - 1;
      RollbackOne(RollbackList(s, hid, vals[..n], io), hid, vals[n], io(vals[n]))
  }

  ghost function RollbackAll(s: Store, hids: seq<int>, io: Msg -> Io): Store {
    if hids == [] then s
    else
      var n := |hids| - 1;
      var t := RollbackAll(s, hids[..n], io);
      RollbackList(t, hids[n], t.List(Processing(hids[n])), io)
  }

  /** An order without success marker comes out of the rollback as it went in. */
  ghost predicate Untouched(s: Store, t: Store, oid: int) {
    !s.Recorded(oid) ==>
      !t.Recorded(oid) && (oid in t.rows <==> oid in s.rows) && (oid in s.rows ==> t.rows[oid] == s.rows[oid])
  }

  lemma RollbackOneLists(s: Store, hid: int, m: Msg, io: Io)
    ensures var t := RollbackOne(s, hid, m, io);
      && t.lists == s.LRem(Processing(hid), m).lists
      && t.marks == s.marks - {m.oid}
  {
    if FoundInHash(s, m.oid, io) {
      WritesKeepLists(s, m.oid, s.submitted[m.oid], io);
    } else if FoundInTable(s, m.oid, io) {
      WritesKeepLists(s, m.oid, s.TableYid(m.oid), io);
    }
  }

  lemma WritesKeepLists(s: Store, oid: int, yid: string, io: Io)
    ensures forall t | t == WriteDone(s, oid, yid, io) || t == Record(s, oid, yid, io) ::
      t.lists == s.lists && t.marks == s.marks
  {
  }

  lemma RecordUntouched(s: Store, m: Msg, yid: string, io: Io, oid: int)
    requires s.Recorded(m.oid)
    ensures Untouched(s, Record(s, m.oid, yid, io), oid) && Untouched(s, WriteDone(s, m.oid, yid, io), oid)
  {
  }

  lemma RollbackOneUntouched(s: Store, hid: int, m: Msg, io: Io, oid: int)
    ensures Untouched(s, RollbackOne(s, hid, m, io), oid)
  {
    if FoundInHash(s, m.oid, io) {
      RecordUntouched(s, m, s.submitted[m.oid], io, oid);
    } else if FoundInTable(s, m.oid, io) {
      RecordUntouched(s, m, s.TableYid(m.oid), io, oid);
    }
  }

  lemma {:induction false} RollbackListUntouched(s: Store, hid: int, vals: seq<Msg>, io: Msg -> Io, oid: int)
    ensures Untouched(s, RollbackList(s, hid, vals, io), oid)
    decreases |vals|
  {
    if vals != [] {
      var n := |vals| - 1;
      RollbackListUntouched(s, hid, vals[..n], io, oid);
      RollbackOneUntouched(RollbackList(s, hid, vals[..n], io), hid, vals[n], io(vals[n]), oid);
    }
  }

  lemma {:induction false} RollbackAllUntouched(s: Store, hids: seq<int>, io: Msg -> Io, oid: int)
    ensures Untouched(s, RollbackAll(s, hids, io), oid)
    decreases |hids|
  {
    if hids != [] {
      var n := |hids| - 1;
      var t := RollbackAll(s, hids[..n], io);
      RollbackAllUntouched(s, hids[..n], io, oid);
      RollbackListUntouched(t, hids[n], t.List(Processing(hids[n])), io, oid);
    }
  }

  lemma OidsSnoc(l: seq<Msg>, m: Msg)
    ensures Oids(l + [m]) == Oids(l) + {m.oid}
  {
    OidsConcat(l, [m]);
    assert Oids([m]) == {m.oid};
  }

  lemma MinusOneMore<T>(a: set<T>, b: set<T>, x: T)
    ensures a - b - {x} == a - (b + {x})
  {
  }

  lemma {:induction false} RollbackListEffect(s: Store, hid: int, vals: seq<Msg>, io: Msg -> Io)
    requires vals <= s.List(Processing(hid))
    ensures var t := RollbackList(s, hid, vals, io);
      && t.List(Processing(hid)) == s.List(Processing(hid))[|vals|..]
      && (forall k | k != Processing(hid) :: t.List(k) == s.List(k))
      && t.marks == s.marks - Oids(vals)
    decreases |vals|
  {
    if vals == [] {
      assert Oids(vals) == {};
    } else {
      var n := |vals| - 1;
      var m, u := vals[n], RollbackList(s, hid, vals[..n], io);
      RollbackListEffect(s, hid, vals[..n], io);
      RollbackOneLists(u, hid, m, io(m));
      assert u.List(Processing(hid)) == [m] + s.List(Processing(hid))[|vals|..];
      OidsSnoc(vals[..n], m);
      assert vals == vals[..n] + [m];
      MinusOneMore(s.marks, Oids(vals[..n]), m.oid);
    }
  }

  /** The orders with a message in the processing list of a listed channel. */
  ghost predicate InProcessing(s: Store, hids: seq<int>, oid: int) {
    exists hid :: hid in hids && oid in Oids(s.List(Processing(hid)))
  }

  lemma {:induction false} RollbackAllEffect(s: Store, hids: seq<int>, io: Msg -> Io)
    ensures var t := RollbackAll(s, hids, io);
      && (forall hid | hid in hids :: t.List(Processing(hid)) == [])
      && (forall hid | hid !in hids :: t.List(Processing(hid)) == s.List(Processing(hid)))
      && (forall k: ListKey | !k.Processing? :: t.List(k) == s.List(k))
      && (forall oid :: oid in t.marks <==> oid in s.marks && !InProcessing(s, hids, oid))
  {
    if hids != [] {
      var n := |hids| - 1;
      var front, h := hids[..n], hids[n];
      var u := RollbackAll(s, front, io);
      RollbackAllEffect(s, front, io);
      RollbackListEffect(u, h, u.List(Processing(h)), io);
      assert hids == front + [h];
      forall oid
        ensures oid in u.marks - Oids(u.List(Processing(h))) <==> oid in s.marks && !InProcessing(s, hids, oid)
      {
        InProcessingStep(s, u, front, h, oid);
      }
    }
  }

  lemma InProcessingStep(s: Store, u: Store, front: seq<int>, h: int, oid: int)
    requires u.List(Processing(h)) == if h in front then [] else s.List(Processing(h))
    ensures InProcessing(s, front + [h], oid) <==> InProcessing(s, front, oid) || oid in Oids(u.List(Processing(h)))
  {
    if oid in Oids(u.List(Processing(h))) {
      assert h in front + [h] && oid in Oids(s.List(Processing(h)));
    }
    if InProcessing(s, front, oid) {
      var hid :| hid in front && oid in Oids(s.List(Processing(hid)));
      assert hid in front + [h];
    }
  }

  lemma {:induction false} CountOids(l: seq<Msg>, oid: int)
    ensures Count(l, oid) > 0 <==> oid in Oids(l)
    ensures Distinct(l) ==> Count(l, oid) <= 1
  {
    if l != [] {
      CountOids(l[1..], oid);
      assert l == [l[0]] + l[1..];
      OidsConcat([l[0]], l[1..]);
      assert Oids([l[0]]) == {l[0].oid};
    }
  }

  /** The order waits in its own channel's queue, once, and in no other active list. */
  ghost predicate BackInQueue(s: Store, oid: int) {
    && oid in s.rows
    && Count(s.List(Queue(s.rows[oid].hid)), oid) == 1
    && forall k | Active(k) && k != Queue(s.rows[oid].hid) :: Count(s.List(k), oid) == 0
  }

  /** A marker whose order has no message in any queue or processing list. */
  ghost predicate OrphanMarker(s: Store, oid: int) {
    oid in s.marks && forall k | Active(k) :: oid !in Oids(s.List(k))
  }

  /** What the producer is responsible for. */
  ghost predicate Unfinished(s: Store, oid: int) {
    oid in s.rows && PendingRow(s.rows[oid]) && oid > 0 && s.rows[oid].hid != 0 && !s.Recorded(oid)
  }

  ghost function Restarted(s: Store, hids: seq<int>, io: Msg -> Io, stamp: int -> int, limit: nat): Store
    requires limit > 0
  {
    Drain(RollbackAll(s, hids, io), 0, stamp, {}, limit).0
  }

  /**
   Rollback and drain together, for any lists: every listed processing list is empty, and an
   unfinished order gains one message in its queue exactly if it was in processing or unmarked.
   */
  lemma RestartCounts(s: Store, hids: seq<int>, io: Msg -> Io, stamp: int -> int, limit: nat, oid: int)
    requires limit > 0 && Unfinished(s, oid)
    ensures var t := Restarted(s, hids, io, stamp, limit);
      && oid in t.rows && t.rows[oid] == s.rows[oid]
      && (forall hid | hid in hids :: t.List(Processing(hid)) == [])
      && (forall k: ListKey | !k.Processing? :: (Count(t.List(k), oid) == Count(s.List(k), oid) +
            if (InProcessing(s, hids, oid) || oid !in s.marks) && k == Queue(s.rows[oid].hid) then 1 else 0))
      && (forall hid | hid !in hids :: Count(t.List(Processing(hid)), oid) == Count(s.List(Processing(hid)), oid))
  {
    var u := RollbackAll(s, hids, io);
    RollbackAllEffect(s, hids, io);
    RollbackAllUntouched(s, hids, io, oid);
    DrainPushesExactly(u, 0, stamp, {}, limit, oid);
  }

  /**
   From any state of an undisturbed run, with all channels in processing listed: the restart
   puts an unfinished order back exactly once into its channel's queue, if and only if its
   marker is not an orphan.
   */
  lemma RestartRecovers(cfg: Config, s: Store, hids: seq<int>, io: Msg -> Io, stamp: int -> int, limit: nat, oid: int)
    requires limit > 0 && Tidy(s) && Stored(cfg, s) && Unfinished(s, oid)
    requires forall hid | s.List(Processing(hid)) != [] :: hid in hids
    ensures BackInQueue(Restarted(s, hids, io, stamp, limit), oid) <==> !OrphanMarker(s, oid)
  {
    var t, q := Restarted(s, hids, io, stamp, limit), Queue(s.rows[oid].hid);
    RestartCounts(s, hids, io, stamp, limit, oid);
    forall k | Active(k) ensures Count(s.List(k), oid) <= 1 && (Count(s.List(k), oid) > 0 <==> oid in Oids(s.List(k))) {
      CountOids(s.List(k), oid);
    }
    forall k: ListKey | k.Queue? && k != q ensures Count(s.List(k), oid) == 0 {
      forall m | m in s.List(k) ensures m.oid != oid {
        assert Fits(cfg, s, k.hid, m);
      }
    }
    forall hid ensures Count(t.List(Processing(hid)), oid) == 0 {
      if hid !in hids {
        assert s.List(Processing(hid)) == [];
      }
    }
    if InProcessing(s, hids, oid) {
      var hid :| hid in hids && oid in Oids(s.List(Processing(hid)));
      assert Oids(s.List(Processing(hid))) !! Oids(s.List(q));
      assert BackInQueue(t, oid);
    } else {
      forall hid ensures oid !in Oids(s.List(Processing(hid))) {
      }
      assert OrphanMarker(s, oid) <==> oid in s.marks && oid !in Oids(s.List(q));
      assert Oids(s.List(q)) <= s.marks;
    }
  }

  /** Where orphans come from: a consumer that finds the lock taken drops its message but not the marker. */
  lemma BusyLockLeavesOrphan(s: Store, hid: int, m: Msg)
    requires Tidy(s) && m in s.List(Processing(hid))
    ensures OrphanMarker(s.LRem(Processing(hid), m), m.oid)
  {
    LRemTidy(s, Processing(hid), m);
    assert m.oid in Oids(s.List(Processing(hid)));
  }
}
