/** The order table in MySQL and the Redis keys, with one function for each command. */
module OrderStore {

  /** The column `dockstatus`: '0', '1' and '2'. */
  datatype Dock = Pending | Done | Failed

  /** One row of the order table; `cancelled` stands for the status text of a cancelled order. */
  datatype Row = Row(hid: int, dock: Dock, cancelled: bool, yid: string)

  /** The JSON message of the queues: order, channel, retry count, enqueue time. */
  datatype Msg = Msg(oid: int, hid: int, r: int, ts: int)

  /** The keys of the Redis lists of one channel. */
  datatype ListKey = Queue(hid: int) | Processing(hid: int) | DeadLetter(hid: int)

  /** True for the lists a message waits or is worked on in. */
  predicate Active(k: ListKey) {
    !k.DeadLetter?
  }

  /** LREM key 1 value: drops the first occurrence, counted from the left. */
  function RemoveFirst(l: seq<Msg>, m: Msg): seq<Msg> {
    if l == [] then []
    else if l[0] == m then l[1..]
    else [l[0]] + RemoveFirst(l[1..], m)
  }

  /**
   `marks` holds the orders with an `enqueued:oid` key, `retries` the retry schedule of each
   channel (member to score), `submitted` the hash of submitted orders, `locks` the token
   stored under each `processing:order:oid` key.
   */
  datatype Store = Store(
    rows: map<int, Row>,
    lists: map<ListKey, seq<Msg>>,
    marks: set<int>,
    retries: map<int, map<Msg, int>>,
    submitted: map<int, string>,
    locks: map<int, nat>)
  {
    function List(k: ListKey): seq<Msg> {
      if k in lists then lists[k] else []
    }

    function Retries(hid: int): map<Msg, int> {
      if hid in retries then retries[hid] else map[]
    }

    function LPush(k: ListKey, m: Msg): Store {
      this.(lists := lists[k := [m] + List(k)])
    }

    function RPush(k: ListKey, m: Msg): Store {
      this.(lists := lists[k := List(k) + [m]])
    }

    function LRem(k: ListKey, m: Msg): Store {
      this.(lists := lists[k := RemoveFirst(List(k), m)])
    }

    /** BLMOVE queue processing RIGHT LEFT. */
    function Move(hid: int): Store
      requires List(Queue(hid)) != []
    {
      var q := List(Queue(hid));
      this.(lists := lists[Queue(hid) := q[..|q| - 1]]).LPush(Processing(hid), q[|q| - 1])
    }

    function Mark(oid: int): Store {
      this.(marks := marks + {oid})
    }

    function Unmark(oid: int): Store {
      this.(marks := marks - {oid})
    }

    function ZAdd(hid: int, m: Msg, score: int): Store {
      this.(retries := retries[hid := Retries(hid)[m := score]])
    }

    function ZRem(hid: int, m: Msg): Store {
      this.(retries := retries[hid := Retries(hid) - {m}])
    }

    function HSet(oid: int, yid: string): Store {
      this.(submitted := submitted[oid := yid])
    }

    function SetLock(oid: int, token: nat): Store {
      this.(locks := locks[oid := token])
    }

    function DelLock(oid: int): Store {
      this.(locks := locks - {oid})
    }

    /** The delete of a lock that first compares the stored token. */
    function DelLockIfHeld(oid: int, token: nat): Store {
      if oid in locks && locks[oid] == token then DelLock(oid) else this
    }

    /** UPDATE ... SET status, dockstatus='1', yid; an empty yid keeps the stored one. */
    function SetDone(oid: int, yid: string): Store {
      if oid in rows then
        this.(rows := rows[oid := rows[oid].(dock := Done, cancelled := false,
                                            yid := if yid != "" then yid else rows[oid].yid)])
      else this
    }

    /** UPDATE ... SET dockstatus='2', with or without a new status text. */
    function SetFailed(oid: int, newStatus: bool): Store {
      if oid in rows then
        this.(rows := rows[oid := rows[oid].(dock := Failed, cancelled := rows[oid].cancelled && !newStatus)])
      else this
    }

    /** UPDATE ... SET dockstatus='0' WHERE dockstatus='2'. */
    function Reopen(oid: int): Store
      requires oid in rows
    {
      this.(rows := rows[oid := rows[oid].(dock := Pending)])
    }

    /** The order table alone says that the order went through. */
    predicate SucceededInTable(oid: int) {
      oid in rows && (rows[oid].yid != "" || rows[oid].dock.Done?)
    }

    function TableYid(oid: int): string {
      if oid in rows then rows[oid].yid else ""
    }

    /** One of the two success markers is present. */
    predicate Recorded(oid: int) {
      oid in submitted || SucceededInTable(oid)
    }
  }

  /** The orders that have a message in a list. */
  ghost function Oids(l: seq<Msg>): set<int> {
    set m | m in l :: m.oid
  }

  /** No order occurs twice. */
  ghost predicate Distinct(l: seq<Msg>) {
    forall i, j | 0 <= i < j < |l| :: l[i].oid != l[j].oid
  }

  lemma {:induction false} RemoveFirstSubset(l: seq<Msg>, m: Msg)
    ensures forall x | x in RemoveFirst(l, m) :: x in l
    ensures |RemoveFirst(l, m)| == if m in l then |l| - 1 else |l|
  {
    if l != [] && l[0] != m {
      RemoveFirstSubset(l[1..], m);
    }
  }

  /** Removing a message from a list without repetitions removes exactly its order. */
  lemma {:induction false} RemoveFirstOids(l: seq<Msg>, m: Msg)
    requires Distinct(l)
    ensures Distinct(RemoveFirst(l, m))
    ensures Oids(RemoveFirst(l, m)) == if m in l then Oids(l) - {m.oid} else Oids(l)
  {
    if l != [] {
      assert l == [l[0]] + l[1..];
      OidsConcat([l[0]], l[1..]);
      if l[0] != m {
        RemoveFirstOids(l[1..], m);
        RemoveFirstSubset(l[1..], m);
        OidsConcat([l[0]], RemoveFirst(l[1..], m));
        var t := RemoveFirst(l[1..], m);
        forall j | 0 <= j < |t| ensures t[j].oid != l[0].oid {
          assert t[j] in l[1..];
        }
      }
    }
  }

  lemma OidsConcat(a: seq<Msg>, b: seq<Msg>)
    ensures Oids(a + b) == Oids(a) + Oids(b)
  {
    forall o | o in Oids(a) + Oids(b) ensures o in Oids(a + b) {
      if o in Oids(a) {
        var m :| m in a && m.oid == o;
        assert m in a + b;
      } else {
        var m :| m in b && m.oid == o;
        assert m in a + b;
      }
    }
  }

  /** A message of another order survives the removal. */
  lemma {:induction false} RemoveFirstOthers(l: seq<Msg>, m: Msg, oid: int)
    requires oid in Oids(l) && oid != m.oid
    ensures oid in Oids(RemoveFirst(l, m))
  {
    if l[0] == m {
      var x :| x in l && x.oid == oid;
      assert x in l[1..];
    } else if l[0].oid != oid {
      var x :| x in l && x.oid == oid;
      assert x in l[1..];
      RemoveFirstOthers(l[1..], m, oid);
      OidsConcat([l[0]], RemoveFirst(l[1..], m));
    } else {
      assert l[0] in RemoveFirst(l, m);
    }
  }
}
