/** Patch sets: paths written in the random order of a map iteration. */
module JsonPatch {
  import opened JsonPath
  import opened Wrappers

  function ApplyInOrder(doc: Json, order: seq<string>, writes: map<string, Json>): Option<Json>
    requires forall k | k in order :: k in writes
    decreases |order|
  {
    if order == [] then Some(doc)
    else
      var (next, ok) := Put(doc, SplitDots(order[0]), writes[order[0]]);
      if ok then ApplyInOrder(next, order[1..], writes) else None
  }

  ghost predicate Distinct(order: seq<string>) {
    forall i, j | 0 <= i < j < |order| :: order[i] != order[j]
  }

  ghost predicate Enumerates<T>(order: seq<string>, writes: map<string, T>) {
    Distinct(order) && forall k :: k in order <==> k in writes
  }

  /** Array indices are canonical and no path is a prefix of another. */
  ghost predicate Compatible(writes: map<string, Json>) {
    && (forall k | k in writes :: CanonicalPath(SplitDots(k)))
    && (forall k, l | k in writes && l in writes && k != l :: Independent(SplitDots(k), SplitDots(l)))
  }

  /** In this document no two of the paths meet. */
  ghost predicate NoneMeet(doc: Json, order: seq<string>) {
    forall k, l | k in order && l in order && k != l :: !MeetIn(doc, SplitDots(k), SplitDots(l))
  }

  lemma CompatibleNeverMeet(doc: Json, order: seq<string>, writes: map<string, Json>)
    requires Compatible(writes) && forall k | k in order :: k in writes
    ensures NoneMeet(doc, order)
  {
    forall k, l | k in order && l in order && k != l ensures !MeetIn(doc, SplitDots(k), SplitDots(l)) {
      IndependentNeverMeet(SplitDots(k), SplitDots(l));
      if MeetIn(doc, SplitDots(k), SplitDots(l)) {
        MeetingPathsMayMeet(doc, SplitDots(k), SplitDots(l));
      }
    }
  }

  /** After one of the writes the others still do not meet. */
  lemma NoneMeetAfter(doc: Json, k: string, x: Json, rest: seq<string>)
    requires NoneMeet(doc, [k] + rest) && k !in rest
    ensures NoneMeet(Put(doc, SplitDots(k), x).0, rest)
  {
    var d := Put(doc, SplitDots(k), x).0;
    forall l, m | l in rest && m in rest && l != m ensures !MeetIn(d, SplitDots(l), SplitDots(m)) {
      assert k in [k] + rest && l in [k] + rest && m in [k] + rest;
      PutKeepsMeetings(doc, SplitDots(k), x, SplitDots(l), SplitDots(m));
    }
  }

  lemma FewerMeet(doc: Json, order: seq<string>, some: seq<string>)
    requires NoneMeet(doc, order) && forall k | k in some :: k in order
    ensures NoneMeet(doc, some)
  {
  }

  lemma SwapFirst(doc: Json, k: string, l: string, rest: seq<string>, writes: map<string, Json>)
    requires !MeetIn(doc, SplitDots(k), SplitDots(l)) && k in writes && l in writes
    requires forall x | x in rest :: x in writes
    ensures ApplyInOrder(doc, [k, l] + rest, writes) == ApplyInOrder(doc, [l, k] + rest, writes)
  {
    PutsCommute(doc, SplitDots(k), writes[k], SplitDots(l), writes[l]);
    TwoWrites(doc, k, l, rest, writes);
    TwoWrites(doc, l, k, rest, writes);
  }

  lemma TwoWrites(doc: Json, k: string, l: string, rest: seq<string>, writes: map<string, Json>)
    requires k in writes && l in writes && forall x | x in rest :: x in writes
    ensures ApplyInOrder(doc, [k, l] + rest, writes) ==
      var (d, ok) := Put(doc, SplitDots(k), writes[k]);
      if !ok then None
      else
        var (e, ok2) := Put(d, SplitDots(l), writes[l]);
        if ok2 then ApplyInOrder(e, rest, writes) else None
  {
    assert ([k, l] + rest)[1..] == [l] + rest;
    assert ([l] + rest)[1..] == rest;
  }

  /** A write can be brought to the front. */
  lemma {:induction false} MoveToFront(
    doc: Json, pre: seq<string>, k: string, post: seq<string>, writes: map<string, Json>)
    requires NoneMeet(doc, [k] + pre) && k !in pre && Distinct(pre)
    requires forall x | x in pre + [k] + post :: x in writes
    ensures forall x | x in [k] + pre + post :: x in writes
    ensures ApplyInOrder(doc, pre + [k] + post, writes) == ApplyInOrder(doc, [k] + pre + post, writes)
    decreases |pre|, 0
  {
    assert forall x | x in [k] + pre + post :: x in pre + [k] + post;
    if pre == [] {
      assert pre + [k] + post == [k] + pre + post;
    } else {
      var l, tail := pre[0], pre[1..];
      assert pre + [k] + post == [l] + (tail + [k] + post);
      assert [k] + pre + post == [k, l] + (tail + post);
      assert [l] + ([k] + tail + post) == [l, k] + (tail + post);
      assert l in pre + [k] + post && k in pre + [k] + post && l in [k] + pre && k in [k] + pre;
      assert forall x | x in tail + [k] + post :: x in pre + [k] + post;
      assert forall x | x in tail + post :: x in pre + [k] + post;
      MeetInSym(doc, SplitDots(k), SplitDots(l));
      FewerMeet(doc, [k] + pre, [l] + ([k] + tail));
      FirstWrite(doc, l, k, tail, post, writes);
      SwapFirst(doc, l, k, tail + post, writes);
    }
  }

  lemma {:induction false} FirstWrite(
    doc: Json, l: string, k: string, tail: seq<string>, post: seq<string>, writes: map<string, Json>)
    requires NoneMeet(doc, [l] + ([k] + tail)) && l in writes && l != k && l !in tail && k !in tail && Distinct(tail)
    requires forall x | x in tail + [k] + post :: x in writes
    ensures forall x | x in [k] + tail + post :: x in writes
    ensures ApplyInOrder(doc, [l] + (tail + [k] + post), writes) ==
      ApplyInOrder(doc, [l] + ([k] + tail + post), writes)
    decreases |tail|, 1
  {
    var a, b := tail + [k] + post, [k] + tail + post;
    assert ([l] + a)[1..] == a && ([l] + b)[1..] == b;
    NoneMeetAfter(doc, l, writes[l], [k] + tail);
    MoveToFront(Put(doc, SplitDots(l), writes[l]).0, tail, k, post, writes);
  }

  /** One write, and then the others in order. */
  function WriteThen(doc: Json, k: string, rest: seq<string>, writes: map<string, Json>): Option<Json>
    requires k in writes && forall x | x in rest :: x in writes
  {
    var (next, ok) := Put(doc, SplitDots(k), writes[k]);
    if ok then ApplyInOrder(next, rest, writes) else None
  }

  lemma WithoutOne(order: seq<string>, i: nat)
    requires Distinct(order) && i < |order|
    ensures order[i] in order && forall x | x in order[..i] + order[i + 1..] :: x in order
    ensures order[i] !in order[..i] && Distinct(order[..i])
    ensures forall x | x in [order[i]] + order[..i] :: x in order
  {
  }

  lemma FirstThen(doc: Json, k: string, rest: seq<string>, writes: map<string, Json>)
    requires k in writes && forall x | x in rest :: x in writes
    ensures ApplyInOrder(doc, [k] + rest, writes) == WriteThen(doc, k, rest, writes)
  {
    assert ([k] + rest)[1..] == rest;
  }

  /** Any write can come first. */
  lemma BringForward(doc: Json, order: seq<string>, i: nat, writes: map<string, Json>)
    requires NoneMeet(doc, order) && Distinct(order) && i < |order|
    requires forall x | x in order :: x in writes
    ensures order[i] in order && forall x | x in order[..i] + order[i + 1..] :: x in order
    ensures ApplyInOrder(doc, order, writes) == WriteThen(doc, order[i], order[..i] + order[i + 1..], writes)
  {
    var k, pre, post := order[i], order[..i], order[i + 1..];
    assert order == pre + [k] + post;
    WithoutOne(order, i);
    FewerMeet(doc, order, [k] + pre);
    MoveToFront(doc, pre, k, post, writes);
    assert [k] + pre + post == [k] + (pre + post);
    FirstThen(doc, k, pre + post, writes);
  }

  /** Two orders with the same elements lead to the same document, or both fail. */
  lemma {:induction false} OrdersAgree(doc: Json, o1: seq<string>, o2: seq<string>, writes: map<string, Json>)
    requires NoneMeet(doc, o1) && Distinct(o1) && Distinct(o2) && |o1| == |o2|
    requires forall k :: k in o1 <==> k in o2
    requires forall k | k in o1 :: k in writes
    ensures ApplyInOrder(doc, o1, writes) == ApplyInOrder(doc, o2, writes)
    decreases |o1|
  {
    if o1 != [] {
      var k := o1[0];
      assert k in o2;
      var i :| 0 <= i < |o2| && o2[i] == k;
      SameRest(o1, o2, i);
      FewerMeet(doc, o1, o2);
      BringForward(doc, o2, i, writes);
      assert o1 == [k] + o1[1..];
      NoneMeetAfter(doc, k, writes[k], o1[1..]);
      assert forall x | x in o1[1..] :: x in o1;
      OrdersAgree(Put(doc, SplitDots(k), writes[k]).0, o1[1..], o2[..i] + o2[i + 1..], writes);
    }
  }

  lemma {:induction false} DistinctCount<T>(l: seq<T>)
    requires forall i, j | 0 <= i < j < |l| :: l[i] != l[j]
    ensures |set x | x in l| == |l|
    decreases |l|
  {
    if l != [] {
      var n := |l| - 1;
      var front := l[..n];
      DistinctCount(front);
      assert (set x | x in l) == (set x | x in front) + {l[n]};
      assert l[n] !in front;
    }
  }

  lemma SameCount<T>(a: seq<T>, b: seq<T>)
    requires forall i, j | 0 <= i < j < |a| :: a[i] != a[j]
    requires forall i, j | 0 <= i < j < |b| :: b[i] != b[j]
    requires forall x :: x in a <==> x in b
    ensures |a| == |b|
  {
    DistinctCount(a);
    DistinctCount(b);
    assert (set x | x in a) == (set x | x in b);
  }

  lemma SameRest(o1: seq<string>, o2: seq<string>, i: nat)
    requires o1 != [] && i < |o2| && o2[i] == o1[0] && Distinct(o1) && Distinct(o2)
    requires forall k :: k in o1 <==> k in o2
    ensures Distinct(o1[1..]) && Distinct(o2[..i] + o2[i + 1..])
    ensures forall k :: k in o1[1..] <==> k in o2[..i] + o2[i + 1..]
  {
    var r := o2[..i] + o2[i + 1..];
    assert o2 == o2[..i] + [o2[i]] + o2[i + 1..];
    assert o1 == [o1[0]] + o1[1..];
    forall k ensures k in o1[1..] <==> k in r {
      if k in o1[1..] {
        assert k in o1 && k in o2;
      }
      if k in r {
        assert k in o2 && k in o1;
      }
    }
  }

  /** The iteration order of the map does not matter for a compatible patch set. */
  lemma PatchConfluence(doc: Json, o1: seq<string>, o2: seq<string>, writes: map<string, Json>)
    requires Compatible(writes) && Enumerates(o1, writes) && Enumerates(o2, writes)
    ensures ApplyInOrder(doc, o1, writes) == ApplyInOrder(doc, o2, writes)
  {
    SameCount(o1, o2);
    CompatibleNeverMeet(doc, o1, writes);
    OrdersAgree(doc, o1, o2, writes);
  }

  /** Success, too, is decided path by path on the original document. */
  lemma {:induction false} PatchSucceeds(doc: Json, order: seq<string>, writes: map<string, Json>)
    requires NoneMeet(doc, order) && Distinct(order) && forall k | k in order :: k in writes
    ensures ApplyInOrder(doc, order, writes).Some? <==> forall k | k in order :: Put(doc, SplitDots(k), writes[k]).1
    decreases |order|
  {
    if order != [] {
      var k, rest := order[0], order[1..];
      assert order == [k] + rest;
      var d := Put(doc, SplitDots(k), writes[k]).0;
      NoneMeetAfter(doc, k, writes[k], rest);
      PatchSucceeds(d, rest, writes);
      forall l | l in rest ensures Put(d, SplitDots(l), writes[l]).1 == Put(doc, SplitDots(l), writes[l]).1 {
        assert k in order && l in order;
        PutsCommute(doc, SplitDots(k), writes[k], SplitDots(l), writes[l]);
      }
    }
  }

  lemma {:induction false} Listing<T>(s: set<T>) returns (l: seq<T>)
    ensures forall x :: x in l <==> x in s
    ensures forall i, j | 0 <= i < j < |l| :: l[i] != l[j]
  {
    if s == {} {
      l := [];
    } else {
      var x :| x in s;
      var t := Listing(s - {x});
      l := [x] + t;
    }
  }

  /** The writes of a first part, and then those of a second. */
  lemma {:induction false} ApplyConcat(doc: Json, a: seq<string>, b: seq<string>, writes: map<string, Json>)
    requires forall k | k in a + b :: k in writes
    ensures (forall k | k in a :: k in writes) && forall k | k in b :: k in writes
    ensures ApplyInOrder(doc, a + b, writes) ==
      match ApplyInOrder(doc, a, writes)
      case None => None
      case Some(d) => ApplyInOrder(d, b, writes)
    decreases |a|
  {
    assert forall k | k in a :: k in a + b;
    assert forall k | k in b :: k in a + b;
    if a == [] {
      assert a + b == b;
    } else {
      assert (a + b)[1..] == a[1..] + b;
      assert forall k | k in a[1..] + b :: k in a + b;
      ApplyConcat(Put(doc, SplitDots(a[0]), writes[a[0]]).0, a[1..], b, writes);
    }
  }
}
