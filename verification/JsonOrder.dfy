/** Exactly when the order of the writes of a patch set can matter. */
module JsonOrder {
  import opened JsonPath
  import opened JsonPatch
  import opened Wrappers

  // Two paths that may meet are not enough: what makes them meet in a document may make a third path
  // fail, and then every order fails.

  /** How many steps of the walk succeed, the last write included. */
  function Stops(v: Json, p: Path): (n: nat)
    ensures n <= |p|
    decreases |p|
  {
    if p == [] then 0
    else
      match v
      case Obj(m) => 1 + Stops(ChildOf(m, p[0]), p[1..])
      case Arr(a) =>
        var slot := Slot(|a|, p[0]);
        if slot.Some? then 1 + Stops(a[slot.value], p[1..]) else 0
      case _ => 0
  }

  lemma {:induction false} PutSucceedsWhen(v: Json, p: Path, x: Json)
    requires p != []
    ensures Put(v, p, x).1 <==> Stops(v, p) == |p|
    decreases |p|
  {
    if |p| > 1 {
      match v {
        case Obj(m) => PutSucceedsWhen(ChildOf(m, p[0]), p[1..], x);
        case Arr(a) =>
          if Slot(|a|, p[0]).Some? {
            PutSucceedsWhen(a[Slot(|a|, p[0]).value], p[1..], x);
          }
        case _ =>
      }
    }
  }

  lemma {:induction false} EmptyMapTakesAll(p: Path)
    ensures Stops(Obj(map[]), p) == |p|
  {
    if p != [] {
      EmptyMapTakesAll(p[1..]);
    }
  }

  predicate IsIndex(s: string) {
    ParseIndex(s).Some? && ParseIndex(s).value >= 0
  }

  /**
   Wherever p and q can only meet through an array, because they spell its index differently, a
   path r that comes along with them names an index as well.
   */
  predicate Admits(p: Path, q: Path, r: Path) {
    p == [] || q == [] || r == [] ||
    if p[0] == q[0] then r[0] == p[0] ==> Admits(p[1..], q[1..], r[1..])
    else IsIndex(r[0]) && (SameIndex(r[0], p[0]) ==> Admits(p[1..], q[1..], r[1..]))
  }

  /** Two of the paths may meet where all of them still succeed. */
  ghost predicate Clash(keys: set<string>, k: string, l: string) {
    && k in keys && l in keys && k != l && MayMeet(SplitDots(k), SplitDots(l))
    && forall r | r in keys :: Admits(SplitDots(k), SplitDots(l), SplitDots(r))
  }

  ghost predicate SameResult(doc: Json, writes: map<string, Json>, o1: seq<string>, o2: seq<string>) {
    Enumerates(o1, writes) && Enumerates(o2, writes) ==>
      ApplyInOrder(doc, o1, writes) == ApplyInOrder(doc, o2, writes)
  }

  /** Whatever the document and the values, every order gives one result. */
  ghost predicate OrderIrrelevant(keys: set<string>) {
    forall doc, writes: map<string, Json>, o1, o2 | writes.Keys == keys :: SameResult(doc, writes, o1, o2)
  }

  // No clash, no difference.

  /** Paths that meet in a document they do not both get through to: a third one fails above. */
  lemma {:induction false} FailsAbove(v: Json, p: Path, q: Path, r: Path)
    requires MeetIn(v, p, q) && !Admits(p, q, r)
    ensures Stops(v, r) < |r| && Stops(v, r) < |p| && Stops(v, r) < |q|
    decreases |p|
  {
    match v {
      case Obj(m) => FailsAbove(ChildOf(m, p[0]), p[1..], q[1..], r[1..]);
      case Arr(a) =>
        if Slot(|a|, r[0]).Some? {
          FailsAbove(a[Slot(|a|, p[0]).value], p[1..], q[1..], r[1..]);
        }
      case _ =>
    }
  }

  lemma {:induction false} MeetingPathsGoOn(v: Json, p: Path, q: Path)
    requires MeetIn(v, p, q)
    ensures Stops(v, p) >= |p| || Stops(v, p) >= |q|
    decreases |p|
  {
    if p != [] && q != [] {
      match v {
        case Obj(m) => MeetingPathsGoOn(ChildOf(m, p[0]), p[1..], q[1..]);
        case Arr(a) => MeetingPathsGoOn(a[Slot(|a|, p[0]).value], p[1..], q[1..]);
        case _ =>
      }
    }
  }

  /** A write that is not met leaves the walk as it was. */
  lemma {:induction false} PutKeepsStop(v: Json, h: Path, x: Json, r: Path)
    requires h != [] && !MeetIn(v, h, r)
    ensures Stops(Put(v, h, x).0, r) == Stops(v, r)
    decreases |h|
  {
    match v {
      case Obj(m) =>
        PutField(m, h, x);
        if h[0] == r[0] {
          PutKeepsStop(ChildOf(m, h[0]), h[1..], x, r[1..]);
        }
      case Arr(a) =>
        PutElem(a, h, x);
        var slot := Slot(|a|, h[0]);
        if slot.Some? && slot == Slot(|a|, r[0]) {
          PutKeepsStop(a[slot.value], h[1..], x, r[1..]);
        }
      case _ =>
    }
  }

  /** A failing path that succeeds in the course of the patch meets another one. */
  lemma {:induction false} SomethingHelps(doc: Json, order: seq<string>, writes: map<string, Json>, r: string)
    returns (h: string)
    requires forall k | k in order :: k in writes
    requires ApplyInOrder(doc, order, writes).Some? && r in order && Stops(doc, SplitDots(r)) < |SplitDots(r)|
    ensures h in order && h != r && MeetIn(doc, SplitDots(h), SplitDots(r))
    decreases |order|
  {
    h := order[0];
    PutSucceedsWhen(doc, SplitDots(h), writes[h]);
    if !MeetIn(doc, SplitDots(h), SplitDots(r)) {
      var d := Put(doc, SplitDots(h), writes[h]).0;
      PutKeepsStop(doc, SplitDots(h), writes[h], SplitDots(r));
      var first := h;
      h := SomethingHelps(d, order[1..], writes, r);
      PutKeepsMeetings(doc, SplitDots(first), writes[first], SplitDots(r), SplitDots(h));
      MeetInSym(doc, SplitDots(r), SplitDots(h));
      MeetInSym(d, SplitDots(r), SplitDots(h));
    }
  }

  /** Without a clash, paths that meet make a path fail that stops above their meeting. */
  lemma MeetingMakesFail(doc: Json, keys: set<string>, k: string, l: string) returns (r: string)
    requires !Clash(keys, k, l) && k in keys && l in keys && k != l && MeetIn(doc, SplitDots(k), SplitDots(l))
    ensures r in keys && Stops(doc, SplitDots(r)) < |SplitDots(r)|
    ensures Stops(doc, SplitDots(r)) < |SplitDots(k)| && Stops(doc, SplitDots(r)) < |SplitDots(l)|
  {
    MeetingPathsMayMeet(doc, SplitDots(k), SplitDots(l));
    r :| r in keys && !Admits(SplitDots(k), SplitDots(l), SplitDots(r));
    FailsAbove(doc, SplitDots(k), SplitDots(l), SplitDots(r));
  }

  /** Without a clash, a path that fails on the document fails in every order. */
  lemma {:induction false} AllFail(doc: Json, order: seq<string>, writes: map<string, Json>, r: string)
    requires Enumerates(order, writes) && r in writes && Stops(doc, SplitDots(r)) < |SplitDots(r)|
    requires forall k, l :: !Clash(writes.Keys, k, l)
    ensures ApplyInOrder(doc, order, writes).None?
    decreases Stops(doc, SplitDots(r))
  {
    if ApplyInOrder(doc, order, writes).Some? {
      var h := SomethingHelps(doc, order, writes, r);
      var above := MeetingMakesFail(doc, writes.Keys, h, r);
      MeetInSym(doc, SplitDots(h), SplitDots(r));
      MeetingPathsGoOn(doc, SplitDots(r), SplitDots(h));
      AllFail(doc, order, writes, above);
    }
  }

  lemma NoClashNoDifference(doc: Json, o1: seq<string>, o2: seq<string>, writes: map<string, Json>)
    requires Enumerates(o1, writes) && Enumerates(o2, writes) && forall k, l :: !Clash(writes.Keys, k, l)
    ensures ApplyInOrder(doc, o1, writes) == ApplyInOrder(doc, o2, writes)
  {
    if NoneMeet(doc, o1) {
      SameCount(o1, o2);
      OrdersAgree(doc, o1, o2, writes);
    } else {
      var k, l :| k in o1 && l in o1 && k != l && MeetIn(doc, SplitDots(k), SplitDots(l));
      assert !Clash(writes.Keys, k, l);
      var r := MeetingMakesFail(doc, writes.Keys, k, l);
      AllFail(doc, o1, writes, r);
      AllFail(doc, o2, writes, r);
    }
  }

  // A clash makes a difference.

  /** A document in which the two paths meet, with arrays only where they must be. */
  function Spine(p: Path, q: Path, n: nat): Json {
    if p == [] || q == [] then Obj(map[])
    else if p[0] == q[0] then Obj(map[p[0] := Spine(p[1..], q[1..], n)])
    else
      Arr(seq(n, i requires 0 <= i < n =>
        if ParseIndex(p[0]) == Some(i) then Spine(p[1..], q[1..], n) else Obj(map[])))
  }

  predicate IndicesBelow(p: Path, n: nat) {
    forall i | 0 <= i < |p| :: ParseIndex(p[i]).Some? ==> ParseIndex(p[i]).value < n
  }

  lemma {:induction false} MeetOnSpine(p: Path, q: Path, n: nat)
    requires MayMeet(p, q) && IndicesBelow(p, n)
    ensures MeetIn(Spine(p, q, n), p, q)
  {
    if p != [] && q != [] {
      assert IndicesBelow(p[1..], n);
      MeetOnSpine(p[1..], q[1..], n);
    }
  }

  lemma {:induction false} AdmittedOnSpine(p: Path, q: Path, r: Path, n: nat)
    requires MayMeet(p, q) && Admits(p, q, r) && IndicesBelow(r, n)
    ensures Stops(Spine(p, q, n), r) == |r|
  {
    if p == [] || q == [] {
      EmptyMapTakesAll(r);
    } else if r != [] {
      assert IndicesBelow(r[1..], n);
      EmptyMapTakesAll(r[1..]);
      if p[0] == q[0] {
        if r[0] == p[0] {
          AdmittedOnSpine(p[1..], q[1..], r[1..], n);
        }
      } else if SameIndex(r[0], p[0]) {
        AdmittedOnSpine(p[1..], q[1..], r[1..], n);
      }
    }
  }

  /** A write that is not shorter leaves the containers alone that a walk comes through. */
  lemma {:induction false} LongerKeepsStop(v: Json, h: Path, x: Json, r: Path)
    requires h != [] && |r| <= |h|
    ensures Stops(Put(v, h, x).0, r) == Stops(v, r)
    decreases |h|
  {
    if r != [] {
      match v {
        case Obj(m) =>
          PutField(m, h, x);
          if h[0] == r[0] && |h| > 1 {
            LongerKeepsStop(ChildOf(m, h[0]), h[1..], x, r[1..]);
          }
        case Arr(a) =>
          PutElem(a, h, x);
          var slot := Slot(|a|, h[0]);
          if slot.Some? && slot == Slot(|a|, r[0]) && |h| > 1 {
            LongerKeepsStop(a[slot.value], h[1..], x, r[1..]);
          }
        case _ =>
      }
    }
  }

  lemma {:induction false} LongerKeepsMeeting(v: Json, h: Path, x: Json, p: Path, q: Path)
    requires h != [] && |p| <= |h| && |q| <= |h|
    ensures MeetIn(Put(v, h, x).0, p, q) == MeetIn(v, p, q)
    decreases |h|
  {
    if p != [] && q != [] {
      match v {
        case Obj(m) =>
          PutField(m, h, x);
          if h[0] == p[0] && |h| > 1 {
            LongerKeepsMeeting(ChildOf(m, h[0]), h[1..], x, p[1..], q[1..]);
          }
        case Arr(a) =>
          PutElem(a, h, x);
          var slot := Slot(|a|, h[0]);
          if slot.Some? && slot == Slot(|a|, p[0]) && |h| > 1 {
            LongerKeepsMeeting(a[slot.value], h[1..], x, p[1..], q[1..]);
          }
        case _ =>
      }
    }
  }

  /** A scalar written at the meeting point stops the longer path. */
  lemma {:induction false} ScalarStops(v: Json, p: Path, q: Path)
    requires p != [] && |p| < |q| && MeetIn(v, p, q)
    ensures Stops(Put(v, p, Null).0, q) < |q|
    decreases |p|
  {
    match v {
      case Obj(m) =>
        PutField(m, p, Null);
        if |p| > 1 {
          ScalarStops(ChildOf(m, p[0]), p[1..], q[1..]);
        }
      case Arr(a) =>
        PutElem(a, p, Null);
        if |p| > 1 {
          ScalarStops(a[Slot(|a|, p[0]).value], p[1..], q[1..]);
        }
      case _ =>
    }
  }

  /** What stands in the slot a path writes. */
  function At(v: Json, p: Path): Json
    decreases |p|
  {
    if p == [] then v
    else
      match v
      case Obj(m) => At(ChildOf(m, p[0]), p[1..])
      case Arr(a) => if Slot(|a|, p[0]).Some? then At(a[Slot(|a|, p[0]).value], p[1..]) else Null
      case _ => Null
  }

  lemma {:induction false} MeetingWriteIsThere(v: Json, p: Path, q: Path, x: Json)
    requires p != [] && |p| == |q| && MeetIn(v, p, q)
    ensures At(Put(v, p, x).0, q) == x
    decreases |p|
  {
    match v {
      case Obj(m) =>
        PutField(m, p, x);
        if |p| > 1 {
          MeetingWriteIsThere(ChildOf(m, p[0]), p[1..], q[1..], x);
        }
      case Arr(a) =>
        PutElem(a, p, x);
        if |p| > 1 {
          MeetingWriteIsThere(a[Slot(|a|, p[0]).value], p[1..], q[1..], x);
        }
      case _ =>
    }
  }

  lemma {:induction false} MeetsItself(v: Json, p: Path, q: Path)
    requires MeetIn(v, p, q) && |p| <= |q|
    ensures MeetIn(v, p, p)
    decreases |p|
  {
    if p != [] {
      match v {
        case Obj(m) => MeetsItself(ChildOf(m, p[0]), p[1..], q[1..]);
        case Arr(a) => MeetsItself(a[Slot(|a|, p[0]).value], p[1..], q[1..]);
        case _ =>
      }
    }
  }

  lemma {:induction false} PutKeepsSlot(v: Json, h: Path, x: Json, p: Path)
    requires h != [] && !MeetIn(v, h, p)
    ensures At(Put(v, h, x).0, p) == At(v, p)
    decreases |h|
  {
    match v {
      case Obj(m) =>
        PutField(m, h, x);
        if h[0] == p[0] {
          PutKeepsSlot(ChildOf(m, h[0]), h[1..], x, p[1..]);
        }
      case Arr(a) =>
        PutElem(a, h, x);
        var slot := Slot(|a|, h[0]);
        if slot.Some? && slot == Slot(|a|, p[0]) {
          PutKeepsSlot(a[slot.value], h[1..], x, p[1..]);
        }
      case _ =>
    }
  }

  function Depth(k: string): nat {
    |SplitDots(k)|
  }

  /** No path comes before a longer one. */
  ghost predicate LongestFirst(order: seq<string>) {
    forall i, j | 0 <= i < j < |order| :: Depth(order[i]) >= Depth(order[j])
  }

  ghost predicate AllReach(doc: Json, keys: seq<string>) {
    forall k | k in keys :: Stops(doc, SplitDots(k)) == Depth(k)
  }

  /** Written longest first, paths that succeed one by one succeed together. */
  lemma {:induction false} LongestFirstSucceeds(doc: Json, order: seq<string>, writes: map<string, Json>)
    requires LongestFirst(order) && AllReach(doc, order) && forall k | k in order :: k in writes
    ensures ApplyInOrder(doc, order, writes).Some?
    decreases |order|
  {
    if order != [] {
      var h, rest := order[0], order[1..];
      var d := Put(doc, SplitDots(h), writes[h]).0;
      PutSucceedsWhen(doc, SplitDots(h), writes[h]);
      forall k | k in rest ensures Stops(d, SplitDots(k)) == Depth(k) {
        assert k in order;
        var j :| 0 <= j < |rest| && rest[j] == k;
        assert order[j + 1] == k;
        LongerKeepsStop(doc, SplitDots(h), writes[h], SplitDots(k));
      }
      LongestFirstSucceeds(d, rest, writes);
    }
  }

  // The documents and orders that show it.

  lemma {:induction false} PathBound(p: Path) returns (n: nat)
    ensures IndicesBelow(p, n)
  {
    if p == [] {
      n := 0;
    } else {
      var m := PathBound(p[1..]);
      n := if IsIndex(p[0]) && ParseIndex(p[0]).value >= m then ParseIndex(p[0]).value + 1 else m;
      forall i | 0 <= i < |p| && ParseIndex(p[i]).Some? ensures ParseIndex(p[i]).value < n {
        assert i > 0 ==> p[i] == p[1..][i - 1];
      }
    }
  }

  lemma {:induction false} IndexBound(keys: set<string>) returns (n: nat)
    ensures forall k | k in keys :: IndicesBelow(SplitDots(k), n)
  {
    if keys == {} {
      n := 0;
    } else {
      var k :| k in keys;
      var m := IndexBound(keys - {k});
      var own := PathBound(SplitDots(k));
      n := if own > m then own else m;
    }
  }

  lemma {:induction false} Deepest(keys: set<string>) returns (k: string)
    requires keys != {}
    ensures k in keys && forall l | l in keys :: Depth(l) <= Depth(k)
  {
    k :| k in keys;
    var others, first := keys - {k}, k;
    if others != {} {
      var l := Deepest(others);
      if Depth(l) > Depth(k) {
        k := l;
      }
    }
    forall l | l in keys ensures Depth(l) <= Depth(k) {
      assert l == first || l in others;
    }
  }

  lemma {:induction false} ListByDepth(keys: set<string>) returns (order: seq<string>)
    ensures Distinct(order) && LongestFirst(order) && forall k :: k in order <==> k in keys
  {
    if keys == {} {
      order := [];
    } else {
      var k := Deepest(keys);
      var rest := ListByDepth(keys - {k});
      order := [k] + rest;
      forall i, j | 0 <= i < j < |order|
        ensures order[i] != order[j] && Depth(order[i]) >= Depth(order[j])
      {
        assert order[j] in rest;
      }
    }
  }

  /** The shorter of two meeting paths, written first with a scalar, makes the other one fail. */
  lemma ShorterFirst(doc: Json, keys: set<string>, k: string, l: string)
    requires k in keys && l in keys && Depth(k) < Depth(l) && MeetIn(doc, SplitDots(k), SplitDots(l))
    requires forall r | r in keys :: Stops(doc, SplitDots(r)) == Depth(r)
    ensures !OrderIrrelevant(keys)
  {
    var writes := map x | x in keys :: Null;
    var o1 := ListByDepth(keys);
    var rest := StartingWith(keys, k, l);
    assert AllReach(doc, o1);
    LongestFirstSucceeds(doc, o1, writes);
    FailsShorterFirst(doc, k, l, rest, writes);
    Differs(keys, doc, writes, o1, [k, l] + rest);
  }

  lemma StartingWith(keys: set<string>, k: string, l: string) returns (rest: seq<string>)
    requires k in keys && l in keys && k != l
    ensures Distinct([k, l] + rest) && forall x :: x in [k, l] + rest <==> x in keys
    ensures forall x | x in rest :: x in keys
  {
    rest := ListByDepth(keys - {k, l});
    EnumeratesWith(keys, [], k, l, rest);
    assert [] + [k, l] + rest == [k, l] + rest;
  }

  lemma FailsShorterFirst(doc: Json, k: string, l: string, rest: seq<string>, writes: map<string, Json>)
    requires k in writes && l in writes && (forall x | x in rest :: x in writes) && writes[k] == Null
    requires Depth(k) < Depth(l) && MeetIn(doc, SplitDots(k), SplitDots(l)) && Stops(doc, SplitDots(k)) == Depth(k)
    ensures ApplyInOrder(doc, [k, l] + rest, writes).None?
  {
    PutSucceedsWhen(doc, SplitDots(k), Null);
    ScalarStops(doc, SplitDots(k), SplitDots(l));
    PutSucceedsWhen(Put(doc, SplitDots(k), Null).0, SplitDots(l), writes[l]);
    TwoWrites(doc, k, l, rest, writes);
  }

  lemma Differs(keys: set<string>, doc: Json, writes: map<string, Json>, o1: seq<string>, o2: seq<string>)
    requires writes.Keys == keys && Enumerates(o1, writes) && Enumerates(o2, writes)
    requires ApplyInOrder(doc, o1, writes) != ApplyInOrder(doc, o2, writes)
    ensures !OrderIrrelevant(keys)
  {
    assert !SameResult(doc, writes, o1, o2);
  }

  lemma EnumeratesWith(keys: set<string>, a: seq<string>, k: string, l: string, b: seq<string>)
    requires Distinct(a) && Distinct(b) && k in keys && l in keys && k != l
    requires forall x | x in a :: x !in b
    requires forall x :: x in a || x in b <==> x in keys && x != k && x != l
    ensures Distinct(a + [k, l] + b) && forall x :: x in a + [k, l] + b <==> x in keys
  {
    var o := a + [k, l] + b;
    forall i, j | 0 <= i < j < |o| ensures o[i] != o[j] {
      assert i < |a| ==> o[i] in a;
      assert j < |a| ==> o[j] in a;
      assert i >= |a| + 2 ==> o[i] in b;
      assert j >= |a| + 2 ==> o[j] in b;
    }
    forall x ensures x in o <==> x in keys {
      if x == k || x == l {
        assert o[|a|] == k && o[|a| + 1] == l;
      }
    }
  }

  lemma {:induction false} LongerKeepMeeting(
    doc: Json, order: seq<string>, writes: map<string, Json>, p: Path, q: Path)
    requires forall k | k in order :: k in writes && |p| <= Depth(k) && |q| <= Depth(k)
    requires ApplyInOrder(doc, order, writes).Some?
    ensures MeetIn(ApplyInOrder(doc, order, writes).value, p, q) == MeetIn(doc, p, q)
    decreases |order|
  {
    if order != [] {
      LongerKeepsMeeting(doc, SplitDots(order[0]), writes[order[0]], p, q);
      LongerKeepMeeting(Put(doc, SplitDots(order[0]), writes[order[0]]).0, order[1..], writes, p, q);
    }
  }

  lemma {:induction false} OthersKeepSlot(doc: Json, order: seq<string>, writes: map<string, Json>, p: Path)
    requires forall k | k in order :: k in writes && !MeetIn(doc, SplitDots(k), p)
    requires ApplyInOrder(doc, order, writes).Some?
    ensures At(ApplyInOrder(doc, order, writes).value, p) == At(doc, p)
    decreases |order|
  {
    if order != [] {
      var h, x, rest := SplitDots(order[0]), writes[order[0]], order[1..];
      var d := Put(doc, h, x).0;
      assert order[0] in order;
      PutKeepsSlot(doc, h, x, p);
      forall k | k in rest ensures !MeetIn(d, SplitDots(k), p) {
        assert k in order;
        PutKeepsMeetings(doc, h, x, p, SplitDots(k));
        MeetInSym(doc, p, SplitDots(k));
        MeetInSym(d, p, SplitDots(k));
      }
      OthersKeepSlot(d, rest, writes, p);
    }
  }

  /** Of two paths of one length, the one written last decides what stands where they meet. */
  lemma LastOfTwo(doc: Json, a: seq<string>, k: string, l: string, b: seq<string>, p: Path, writes: map<string, Json>)
    requires forall x | x in a + [k, l] + b :: x in writes
    requires |p| == Depth(k) == Depth(l)
    requires MeetIn(doc, SplitDots(l), p)
    requires forall x | x in a :: Depth(x) >= |p|
    requires forall x | x in b :: Depth(x) < |p| && !MeetIn(doc, SplitDots(x), p)
    requires ApplyInOrder(doc, a + [k, l] + b, writes).Some?
    ensures At(ApplyInOrder(doc, a + [k, l] + b, writes).value, p) == writes[l]
  {
    var front := a + [k];
    assert a + [k, l] + b == front + ([l] + b);
    assert forall x | x in front :: x in a + [k, l] + b;
    assert forall x | x in [l] + b :: x in a + [k, l] + b;
    ApplyConcat(doc, front, [l] + b, writes);
    var d := ApplyInOrder(doc, front, writes).value;
    LongerKeepMeeting(doc, front, writes, SplitDots(l), p);
    MeetingWriteIsThere(d, SplitDots(l), p, writes[l]);
    assert ([l] + b)[1..] == b && l in [l] + b;
    var e := Put(d, SplitDots(l), writes[l]).0;
    forall x | x in b ensures x in writes && !MeetIn(e, SplitDots(x), p) {
      LongerKeepMeeting(doc, front, writes, SplitDots(x), p);
      LongerKeepsMeeting(d, SplitDots(l), writes[l], SplitDots(x), p);
    }
    OthersKeepSlot(e, b, writes, p);
  }

  lemma TwoOrders(doc: Json, keys: set<string>, a: seq<string>, k: string, l: string, b: seq<string>,
                  writes: map<string, Json>)
    requires writes.Keys == keys && k in keys && l in keys && k != l && Depth(k) == Depth(l)
    requires Distinct(a) && LongestFirst(a) && Distinct(b) && LongestFirst(b)
    requires forall x | x in a :: Depth(x) >= Depth(k)
    requires forall x | x in b :: Depth(x) < Depth(k)
    requires forall x :: x in a || x in b <==> x in keys && x != k && x != l
    requires forall r | r in keys :: Stops(doc, SplitDots(r)) == Depth(r)
    ensures Enumerates(a + [k, l] + b, writes)
    ensures ApplyInOrder(doc, a + [k, l] + b, writes).Some?
  {
    EnumeratesWith(keys, a, k, l, b);
    var o := a + [k, l] + b;
    forall i, j | 0 <= i < j < |o| ensures Depth(o[i]) >= Depth(o[j]) {
      assert i < |a| ==> o[i] in a;
      assert j >= |a| + 2 ==> o[j] in b;
      assert |a| <= i < |a| + 2 ==> Depth(o[i]) == Depth(k);
      assert |a| <= j < |a| + 2 ==> Depth(o[j]) == Depth(k);
    }
    LongestFirstSucceeds(doc, o, writes);
  }

  lemma SameDepth(doc: Json, keys: set<string>, k: string, l: string)
    requires k in keys && l in keys && k != l && Depth(k) == Depth(l)
    requires MeetIn(doc, SplitDots(k), SplitDots(l))
    requires forall r | r in keys :: Stops(doc, SplitDots(r)) == Depth(r)
    requires forall r | r in keys && Depth(r) < Depth(k) :: !MeetIn(doc, SplitDots(r), SplitDots(k))
    ensures !OrderIrrelevant(keys)
  {
    var writes := map x | x in keys :: if x == l then Bool(true) else Null;
    var others := keys - {k, l};
    var a := ListByDepth(set x | x in others && Depth(x) >= Depth(k));
    var b := ListByDepth(set x | x in others && Depth(x) < Depth(k));
    var o1, o2 := a + [k, l] + b, a + [l, k] + b;
    TwoOrders(doc, keys, a, k, l, b, writes);
    TwoOrders(doc, keys, a, l, k, b, writes);
    MeetInSym(doc, SplitDots(k), SplitDots(l));
    MeetsItself(doc, SplitDots(k), SplitDots(l));
    LastOfTwo(doc, a, k, l, b, SplitDots(k), writes);
    LastOfTwo(doc, a, l, k, b, SplitDots(k), writes);
    Differs(keys, doc, writes, o1, o2);
  }

  lemma ClashMakesDifference(keys: set<string>, k: string, l: string)
    requires Clash(keys, k, l)
    ensures !OrderIrrelevant(keys)
  {
    var p, q := SplitDots(k), SplitDots(l);
    var n := IndexBound(keys);
    var doc := Spine(p, q, n);
    MeetOnSpine(p, q, n);
    forall r | r in keys ensures Stops(doc, SplitDots(r)) == Depth(r) {
      AdmittedOnSpine(p, q, SplitDots(r), n);
    }
    if r, t :| r in keys && t in keys && Depth(r) < Depth(t) && MeetIn(doc, SplitDots(r), SplitDots(t)) {
      ShorterFirst(doc, keys, r, t);
    } else {
      MeetInSym(doc, p, q);
      SameDepth(doc, keys, k, l);
    }
  }

  /**
   For every set of paths: the order of the writes never matters, whatever the document and the
   values, if and only if no two of the paths clash.
   */
  lemma OrderMattersExactly(keys: set<string>)
    ensures OrderIrrelevant(keys) <==> forall k, l :: !Clash(keys, k, l)
  {
    if k, l :| Clash(keys, k, l) {
      ClashMakesDifference(keys, k, l);
    } else {
      forall doc, writes: map<string, Json>, o1, o2 | writes.Keys == keys ensures SameResult(doc, writes, o1, o2) {
        if Enumerates(o1, writes) && Enumerates(o2, writes) {
          NoClashNoDifference(doc, o1, o2, writes);
        }
      }
    }
  }

  /** For two paths alone the condition is that they may meet. */
  lemma OrderOfTwo(k: string, l: string)
    requires k != l
    ensures OrderIrrelevant({k, l}) <==> !MayMeet(SplitDots(k), SplitDots(l))
  {
    var keys, p, q := {k, l}, SplitDots(k), SplitDots(l);
    OrderMattersExactly(keys);
    if MayMeet(p, q) {
      MeetingPathsAdmitEachOther(p, q);
      assert Clash(keys, k, l);
    } else {
      forall a, b ensures !Clash(keys, a, b) {
        MayMeetSym(p, q);
        assert Clash(keys, a, b) ==> (a == k && b == l) || (a == l && b == k);
      }
    }
  }

  lemma {:induction false} MayMeetSym(p: Path, q: Path)
    ensures MayMeet(p, q) == MayMeet(q, p)
  {
    if p != [] && q != [] {
      MayMeetSym(p[1..], q[1..]);
    }
  }

  lemma {:induction false} MeetingPathsAdmitEachOther(p: Path, q: Path)
    requires MayMeet(p, q)
    ensures Admits(p, q, p) && Admits(p, q, q)
  {
    if p != [] && q != [] {
      MeetingPathsAdmitEachOther(p[1..], q[1..]);
    }
  }

  /** A path always clashes with one it is a proper prefix of, whatever else the patch writes. */
  lemma {:induction false} PrefixAdmitsAll(p: Path, q: Path, r: Path)
    requires p <= q
    ensures MayMeet(p, q) && Admits(p, q, r)
  {
    if p != [] {
      PrefixAdmitsAll(p[1..], q[1..], if r == [] then [] else r[1..]);
    }
  }

  lemma PrefixesClash(keys: set<string>, k: string, l: string)
    requires k in keys && l in keys && k != l && SplitDots(k) <= SplitDots(l)
    ensures Clash(keys, k, l) && !OrderIrrelevant(keys)
  {
    forall r | r in keys ensures Admits(SplitDots(k), SplitDots(l), SplitDots(r)) {
      PrefixAdmitsAll(SplitDots(k), SplitDots(l), SplitDots(r));
    }
    PrefixAdmitsAll(SplitDots(k), SplitDots(l), []);
    ClashMakesDifference(keys, k, l);
  }

  /**
   With more than two paths, some may meet and the order still never matters: "0" and "00" meet in
   arrays only, where "x" fails.
   */
  lemma MeetingIsNotEnough()
    ensures MayMeet(SplitDots("0"), SplitDots("00")) && OrderIrrelevant({"0", "00", "x"})
  {
    var keys := {"0", "00", "x"};
    OneSegment("0");
    OneSegment("00");
    OneSegment("x");
    ZerosAreOneIndex();
    forall k, l ensures !Clash(keys, k, l) {
      if k in keys && l in keys && k != l {
        assert "x" in keys;
        OneSegmentEach(k, l, "x");
      }
    }
    assert MayMeet(["0"], ["00"]) by {
      assert ["0"][1..] == [];
    }
    OrderMattersExactly(keys);
  }

  lemma OneSegmentEach(k: string, l: string, r: string)
    requires SplitDots(k) == [k] && SplitDots(l) == [l] && SplitDots(r) == [r] && k != l && !IsIndex(r)
    ensures !Admits(SplitDots(k), SplitDots(l), SplitDots(r))
  {
  }

  lemma {:induction false} OneSegment(s: string)
    requires '.' !in s
    ensures SplitDots(s) == [s]
  {
    if s != "" {
      OneSegment(s[1..]);
      assert s == [s[0]] + s[1..];
    }
  }

  lemma ZerosAreOneIndex()
    ensures SameIndex("0", "00") && ParseIndex("x").None?
  {
    assert "0"[..0] == "" && "00"[..1] == "0";
    assert Value("") == 0 && Value("0") == 0 && Value("00") == 0;
    assert !IsDigit("x"[0]);
  }
}
