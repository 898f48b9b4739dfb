/**
 setJSONPath as the source runs it, on a graph of maps and arrays that are changed in place, and
 what it shares with the rule a value came from.
 */
module JsonHeap {
  import opened JsonPath
  import opened JsonPatch
  import opened JsonOrder
  import opened Wrappers

  /** What a slot holds: a value without parts, or a reference to a map or an array. */
  datatype Val = Leaf(j: Json) | Ref(at: nat)

  datatype Cell = ObjCell(fields: map<string, Val>) | ArrCell(elems: seq<Val>)

  /** The allocated maps and arrays, with the next free address. */
  datatype Store = Store(cells: map<nat, Cell>, next: nat)

  /** The walk from `cur`: through existing children, creating maps that are missing, to one write. */
  function SetPath(s: Store, cur: Val, path: Path, val: Val): (Store, bool)
    requires path != []
    decreases |path|
  {
    if cur.Leaf? || cur.at !in s.cells then (s, false)
    else
      match s.cells[cur.at]
      case ObjCell(m) =>
        if |path| == 1 then (s.(cells := s.cells[cur.at := ObjCell(m[path[0] := val])]), true)
        else if path[0] in m then SetPath(s, m[path[0]], path[1..], val)
        else SetPath(WithChild(s, cur.at, m, path[0]), Ref(s.next), path[1..], val)
      case ArrCell(a) =>
        var slot := Slot(|a|, path[0]);
        if slot.None? then (s, false)
        else if |path| == 1 then (s.(cells := s.cells[cur.at := ArrCell(a[slot.value := val])]), true)
        else SetPath(s, a[slot.value], path[1..], val)
  }

  /** A new empty map under a key. */
  function WithChild(s: Store, at: nat, m: map<string, Val>, key: string): Store {
    Store(s.cells[at := ObjCell(m[key := Ref(s.next)])][s.next := ObjCell(map[])], s.next + 1)
  }

  class Documents {
    var store: Store

    constructor (store: Store)
      ensures this.store == store
    {
      this.store := store;
    }

    method SetJsonPath(root: Val, path: string, val: Val) returns (ok: bool)
      modifies this
      ensures (store, ok) == SetPath(old(store), root, SplitDots(path), val)
    {
      var parts := SplitDots(path);
      var cur := root;
      for i := 0 to |parts| - 1
        invariant SetPath(store, cur, parts[i..], val) == SetPath(old(store), root, parts, val)
      {
        assert parts[i..][0] == parts[i] && parts[i..][1..] == parts[i + 1..];
        if cur.Leaf? || cur.at !in store.cells {
          return false;
        }
        match store.cells[cur.at] {
          case ObjCell(node) =>
            if parts[i] !in node {
              var child := Ref(store.next);
              store := WithChild(store, cur.at, node, parts[i]);
              cur := child;
            } else {
              cur := node[parts[i]];
            }
          case ArrCell(node) =>
            var idx := ParseIndex(parts[i]);
            if idx.None? || idx.value < 0 || idx.value >= |node| {
              return false;
            }
            cur := node[idx.value];
        }
      }
      var last := parts[|parts| - 1];
      assert parts[|parts| - 1..] == [last];
      if cur.Leaf? || cur.at !in store.cells {
        return false;
      }
      match store.cells[cur.at] {
        case ObjCell(node) =>
          store := store.(cells := store.cells[cur.at := ObjCell(node[last := val])]);
        case ArrCell(node) =>
          var idx := ParseIndex(last);
          if idx.None? || idx.value < 0 || idx.value >= |node| {
            return false;
          }
          store := store.(cells := store.cells[cur.at := ArrCell(node[idx.value := val])]);
      }
      return true;
    }

    /** The patch loop of buildKcidJSONBody for one patch; Go takes the keys in any order. */
    method ApplyWrites(root: Val, writes: map<string, Val>) returns (ok: bool)
      modifies this
      ensures exists order :: Enumerates(order, writes) && (store, ok) == SetPaths(old(store), root, order, writes)
    {
      ghost var order := [];
      var todo := writes.Keys;
      while |todo| > 0
        invariant Halfway(order, todo, writes)
        invariant SetPaths(old(store), root, order, writes) == (store, true)
        decreases |todo|
      {
        var k := PickKey(todo);
        SetPathsConcat(old(store), root, order, [k], writes);
        HalfwayStep(order, todo, k, writes);
        ok := SetJsonPath(root, k, writes[k]);
        order := order + [k];
        todo := todo - {k};
        if !ok {
          order := Complete(old(store), root, order, todo, writes);
          return;
        }
      }
      assert Enumerates(order, writes);
      return true;
    }
  }

  // The loop over a patch.

  /** The writes of a patch in some order, in place; the first failing one ends the loop. */
  function SetPaths(s: Store, cur: Val, order: seq<string>, writes: map<string, Val>): (Store, bool)
    requires forall k | k in order :: k in writes
    decreases |order|
  {
    if order == [] then (s, true)
    else
      var (next, ok) := SetPath(s, cur, SplitDots(order[0]), writes[order[0]]);
      if ok then SetPaths(next, cur, order[1..], writes) else (next, false)
  }

  lemma {:induction false} SetPathsConcat(
    s: Store, cur: Val, a: seq<string>, b: seq<string>, writes: map<string, Val>)
    requires forall k | k in a + b :: k in writes
    ensures (forall k | k in a :: k in writes) && forall k | k in b :: k in writes
    ensures SetPaths(s, cur, a + b, writes) ==
      var (t, ok) := SetPaths(s, cur, a, writes);
      if ok then SetPaths(t, cur, b, writes) else (t, false)
    decreases |a|
  {
    assert forall k | k in a :: k in a + b;
    assert forall k | k in b :: k in a + b;
    if a == [] {
      assert a + b == b;
    } else {
      assert (a + b)[1..] == a[1..] + b;
      assert forall k | k in a[1..] + b :: k in a + b;
      SetPathsConcat(SetPath(s, cur, SplitDots(a[0]), writes[a[0]]).0, cur, a[1..], b, writes);
    }
  }

  method PickKey<T(==)>(keys: set<T>) returns (k: T)
    requires |keys| > 0
    ensures k in keys
  {
    k :| k in keys;
  }

  /** The keys so far, without repetition, and the keys still to come. */
  ghost predicate Halfway(order: seq<string>, todo: set<string>, writes: map<string, Val>) {
    && Distinct(order)
    && (forall k | k in order :: k in writes && k !in todo)
    && (forall k | k in todo :: k in writes)
    && (forall k | k in writes :: k in order || k in todo)
  }

  lemma HalfwayStep(order: seq<string>, todo: set<string>, k: string, writes: map<string, Val>)
    requires Halfway(order, todo, writes) && k in todo
    ensures Halfway(order + [k], todo - {k}, writes)
  {
  }

  /** A failed beginning can be continued to a full order, which fails in the same state. */
  lemma Complete(s: Store, cur: Val, order: seq<string>, todo: set<string>, writes: map<string, Val>)
    returns (all: seq<string>)
    requires Halfway(order, todo, writes) && !SetPaths(s, cur, order, writes).1
    ensures Enumerates(all, writes) && SetPaths(s, cur, all, writes) == SetPaths(s, cur, order, writes)
  {
    var rest := Listing(todo);
    all := order + rest;
    forall i, j | 0 <= i < j < |all| ensures all[i] != all[j] {
      if i < |order| <= j {
        assert all[i] in order && all[j] in rest;
      }
    }
    assert Enumerates(all, writes);
    SetPathsConcat(s, cur, order, rest, writes);
  }

  // Documents that are trees.

  datatype Tree = Scalar(j: Json) | Map(at: nat, kids: map<string, Tree>) | Array(at: nat, elems: seq<Tree>)

  function Denote(t: Tree): Json {
    match t
    case Scalar(j) => j
    case Map(_, kids) => Obj(map k | k in kids :: Denote(kids[k]))
    case Array(_, elems) => Arr(seq(|elems|, i requires 0 <= i < |elems| => Denote(elems[i])))
  }

  predicate IsScalar(j: Json) {
    !j.Obj? && !j.Arr?
  }

  predicate Owns(t: Tree, a: nat) {
    match t
    case Scalar(_) => false
    case Map(at, kids) => a == at || exists k | k in kids :: Owns(kids[k], a)
    case Array(at, elems) => a == at || exists i | 0 <= i < |elems| :: Owns(elems[i], a)
  }

  /** The cells reachable from `v` hold the tree. */
  predicate Matches(cells: map<nat, Cell>, v: Val, t: Tree)
    decreases t
  {
    match t
    case Scalar(j) => IsScalar(j) && v == Leaf(j)
    case Map(at, kids) =>
      && v == Ref(at) && at in cells && cells[at].ObjCell? && cells[at].fields.Keys == kids.Keys
      && forall k | k in kids :: Matches(cells, cells[at].fields[k], kids[k])
    case Array(at, elems) =>
      && v == Ref(at) && at in cells && cells[at].ArrCell? && |cells[at].elems| == |elems|
      && forall i | 0 <= i < |elems| :: Matches(cells, cells[at].elems[i], elems[i])
  }

  ghost predicate Apart(t: Tree, u: Tree) {
    forall a: nat :: !(Owns(t, a) && Owns(u, a))
  }

  /** No map or array has two parents in the tree. */
  ghost predicate Separated(t: Tree) {
    match t
    case Scalar(_) => true
    case Map(at, kids) =>
      && (forall k | k in kids :: Separated(kids[k]) && !Owns(kids[k], at))
      && (forall k, l | k in kids && l in kids && k != l :: Apart(kids[k], kids[l]))
    case Array(at, elems) =>
      && (forall i | 0 <= i < |elems| :: Separated(elems[i]) && !Owns(elems[i], at))
      && (forall i, j | 0 <= i < |elems| && 0 <= j < |elems| && i != j :: Apart(elems[i], elems[j]))
  }

  ghost predicate Below(t: Tree, n: nat) {
    forall a: nat | Owns(t, a) :: a < n
  }

  lemma {:induction false} MatchesFrame(cells: map<nat, Cell>, cells': map<nat, Cell>, v: Val, t: Tree)
    requires Matches(cells, v, t)
    requires forall a: nat | Owns(t, a) && a in cells :: a in cells' && cells'[a] == cells[a]
    ensures Matches(cells', v, t)
    decreases t
  {
    match t {
      case Scalar(_) =>
      case Map(at, kids) =>
        assert Owns(t, at);
        forall k | k in kids
          ensures Matches(cells', cells[at].fields[k], kids[k])
        {
          MatchesFrame(cells, cells', cells[at].fields[k], kids[k]);
        }
      case Array(at, elems) =>
        assert Owns(t, at);
        forall i | 0 <= i < |elems|
          ensures Matches(cells', cells[at].elems[i], elems[i])
        {
          MatchesFrame(cells, cells', cells[at].elems[i], elems[i]);
        }
    }
  }

  /** The document after a write, as a tree over the new cells. */
  ghost predicate Written(s: Store, s': Store, t: Tree, t': Tree, tv: Tree) {
    && s.next <= s'.next
    && Separated(t')
    && (forall a: nat | Owns(t', a) :: Owns(t, a) || Owns(tv, a) || s.next <= a < s'.next)
    && (forall a: nat | a < s.next && a in s.cells && !Owns(t, a) :: a in s'.cells && s'.cells[a] == s.cells[a])
  }

  /** A document and the value to be written, both trees, without a common part. */
  ghost predicate Writable(s: Store, cur: Val, t: Tree, val: Val, tv: Tree) {
    && Matches(s.cells, cur, t) && Separated(t) && Below(t, s.next)
    && Matches(s.cells, val, tv) && Separated(tv) && Below(tv, s.next)
    && Apart(t, tv)
  }

  /** The part of a tree that is replaced, if there is one. */
  ghost predicate OldKid(kids: map<string, Tree>, key: string, a: nat) {
    key in kids && Owns(kids[key], a)
  }

  ghost predicate NewOwner(s: Store, s': Store, t: Tree, tv: Tree, a: nat) {
    Owns(t, a) || Owns(tv, a) || s.next <= a < s'.next
  }

  lemma KidMatches(s: Store, s': Store, at: nat, kids: map<string, Tree>, key: string, kid: Tree, v: Val)
    requires Matches(s.cells, Ref(at), Map(at, kids)) && Separated(Map(at, kids)) && Below(Map(at, kids), s.next)
    requires at in s'.cells && s'.cells[at] == ObjCell(s.cells[at].fields[key := v])
    requires Matches(s'.cells, v, kid)
    requires forall a: nat | a < s.next && a in s.cells && a != at && !OldKid(kids, key, a) ::
      a in s'.cells && s'.cells[a] == s.cells[a]
    ensures Matches(s'.cells, Ref(at), Map(at, kids[key := kid]))
  {
    var kids' := kids[key := kid];
    var m' := s'.cells[at].fields;
    forall k | k in kids'
      ensures Matches(s'.cells, m'[k], kids'[k])
    {
      if k != key {
        assert Matches(s.cells, s.cells[at].fields[k], kids[k]);
        forall a: nat | Owns(kids[k], a) && a in s.cells
          ensures a in s'.cells && s'.cells[a] == s.cells[a]
        {
          assert Owns(Map(at, kids), a);
          assert key in kids ==> Apart(kids[k], kids[key]);
        }
        MatchesFrame(s.cells, s'.cells, s.cells[at].fields[k], kids[k]);
      }
    }
  }

  lemma KidSeparated(s: Store, s': Store, at: nat, kids: map<string, Tree>, key: string, kid: Tree, tv: Tree)
    requires Separated(Map(at, kids)) && Below(Map(at, kids), s.next) && Apart(Map(at, kids), tv) && Separated(kid)
    requires forall a: nat | Owns(kid, a) :: OldKid(kids, key, a) || Owns(tv, a) || s.next <= a < s'.next
    ensures Separated(Map(at, kids[key := kid]))
    ensures forall a: nat | Owns(Map(at, kids[key := kid]), a) :: NewOwner(s, s', Map(at, kids), tv, a)
  {
    var t, kids' := Map(at, kids), kids[key := kid];
    assert Owns(t, at);
    assert !OldKid(kids, key, at) && !Owns(tv, at) && at < s.next;
    forall k, l | k in kids' && l in kids' && k != l
      ensures Apart(kids'[k], kids'[l])
    {
      if k == key {
        KidApart(s, s', at, kids, key, kid, tv, l);
      } else if l == key {
        KidApart(s, s', at, kids, key, kid, tv, k);
      }
    }
    forall a: nat | Owns(Map(at, kids'), a)
      ensures NewOwner(s, s', t, tv, a)
    {
      if a != at {
        var k :| k in kids' && Owns(kids'[k], a);
        if k != key {
          assert Owns(kids[k], a);
        } else if OldKid(kids, key, a) {
          assert Owns(kids[key], a);
        }
      }
    }
  }

  lemma KidApart(s: Store, s': Store, at: nat, kids: map<string, Tree>, key: string, kid: Tree, tv: Tree, k: string)
    requires Separated(Map(at, kids)) && Below(Map(at, kids), s.next) && Apart(Map(at, kids), tv)
    requires forall a: nat | Owns(kid, a) :: OldKid(kids, key, a) || Owns(tv, a) || s.next <= a < s'.next
    requires k in kids && k != key
    ensures Apart(kid, kids[k]) && Apart(kids[k], kid)
  {
    forall a: nat
      ensures !(Owns(kid, a) && Owns(kids[k], a))
    {
      if Owns(kids[k], a) {
        assert Owns(Map(at, kids), a);
        assert key in kids ==> Apart(kids[key], kids[k]);
      }
    }
  }

  lemma DenoteKid(at: nat, kids: map<string, Tree>, key: string, kid: Tree)
    ensures Denote(Map(at, kids[key := kid])) == Obj(Denote(Map(at, kids)).fields[key := Denote(kid)])
  {
  }

  lemma ElemMatches(s: Store, s': Store, at: nat, elems: seq<Tree>, i: nat, kid: Tree, v: Val)
    requires i < |elems|
    requires Matches(s.cells, Ref(at), Array(at, elems))
    requires Separated(Array(at, elems)) && Below(Array(at, elems), s.next)
    requires at in s'.cells && s'.cells[at] == ArrCell(s.cells[at].elems[i := v])
    requires Matches(s'.cells, v, kid)
    requires forall a: nat | a < s.next && a in s.cells && a != at && !Owns(elems[i], a) ::
      a in s'.cells && s'.cells[a] == s.cells[a]
    ensures Matches(s'.cells, Ref(at), Array(at, elems[i := kid]))
  {
    forall k | 0 <= k < |elems|
      ensures Matches(s'.cells, s'.cells[at].elems[k], elems[i := kid][k])
    {
      if k != i {
        forall a: nat | Owns(elems[k], a) && a in s.cells
          ensures a in s'.cells && s'.cells[a] == s.cells[a]
        {
          assert Owns(Array(at, elems), a);
          assert Apart(elems[k], elems[i]);
        }
        MatchesFrame(s.cells, s'.cells, s.cells[at].elems[k], elems[k]);
      }
    }
  }

  lemma ElemApart(s: Store, s': Store, at: nat, elems: seq<Tree>, i: nat, kid: Tree, tv: Tree, k: nat)
    requires i < |elems| && k < |elems| && k != i
    requires Separated(Array(at, elems)) && Below(Array(at, elems), s.next) && Apart(Array(at, elems), tv)
    requires forall a: nat | Owns(kid, a) :: Owns(elems[i], a) || Owns(tv, a) || s.next <= a < s'.next
    ensures Apart(kid, elems[k]) && Apart(elems[k], kid)
  {
    assert Apart(elems[i], elems[k]);
    forall a: nat
      ensures !(Owns(kid, a) && Owns(elems[k], a))
    {
      if Owns(elems[k], a) {
        assert Owns(Array(at, elems), a);
      }
    }
  }

  lemma ElemSeparated(s: Store, s': Store, at: nat, elems: seq<Tree>, i: nat, kid: Tree, tv: Tree)
    requires i < |elems|
    requires Separated(Array(at, elems)) && Below(Array(at, elems), s.next) && Apart(Array(at, elems), tv)
    requires Separated(kid)
    requires forall a: nat | Owns(kid, a) :: Owns(elems[i], a) || Owns(tv, a) || s.next <= a < s'.next
    ensures Separated(Array(at, elems[i := kid]))
    ensures forall a: nat | Owns(Array(at, elems[i := kid]), a) :: NewOwner(s, s', Array(at, elems), tv, a)
  {
    var t, elems' := Array(at, elems), elems[i := kid];
    assert Owns(t, at);
    assert !Owns(elems[i], at) && !Owns(tv, at) && at < s.next;
    forall k, l | 0 <= k < |elems| && 0 <= l < |elems| && k != l
      ensures Apart(elems'[k], elems'[l])
    {
      if k == i {
        ElemApart(s, s', at, elems, i, kid, tv, l);
      } else if l == i {
        ElemApart(s, s', at, elems, i, kid, tv, k);
      }
    }
    forall a: nat | Owns(Array(at, elems'), a)
      ensures NewOwner(s, s', t, tv, a)
    {
      if a != at {
        var k :| 0 <= k < |elems'| && Owns(elems'[k], a);
        assert k != i ==> Owns(elems[k], a);
        assert k == i && Owns(elems[i], a) ==> Owns(t, a);
      }
    }
  }

  lemma DenoteElem(at: nat, elems: seq<Tree>, i: nat, kid: Tree)
    requires i < |elems|
    ensures Denote(Array(at, elems[i := kid])) == Arr(Denote(Array(at, elems)).elems[i := Denote(kid)])
  {
  }

  /** The part of a tree in the slot that a path names. */
  function TreeAt(t: Tree, path: Path): Option<Tree>
    decreases |path|
  {
    if path == [] then Some(t)
    else
      match t
      case Map(_, kids) => if path[0] in kids then TreeAt(kids[path[0]], path[1..]) else None
      case Array(_, elems) =>
        var slot := Slot(|elems|, path[0]);
        if slot.Some? then TreeAt(elems[slot.value], path[1..]) else None
      case Scalar(_) => None
  }

  lemma NewKidAt(at: nat, kids: map<string, Tree>, path: Path, kid: Tree)
    requires path != []
    ensures TreeAt(Map(at, kids[path[0] := kid]), path) == TreeAt(kid, path[1..])
  {
  }

  lemma NewElemAt(at: nat, elems: seq<Tree>, path: Path, i: nat, kid: Tree)
    requires path != [] && i < |elems| && Slot(|elems|, path[0]) == Some(i)
    ensures TreeAt(Array(at, elems[i := kid]), path) == TreeAt(kid, path[1..])
  {
  }

  /** What the walk below one slot has to leave behind for the map or array above it. */
  ghost predicate Agrees(s: Store, s': Store, ok: bool, cur: Val, t: Tree, t': Tree, path: Path, tv: Tree)
    requires path != []
  {
    && (Denote(t'), ok) == Put(Denote(t), path, Denote(tv))
    && Matches(s'.cells, cur, t')
    && Written(s, s', t, t', tv)
    && (ok ==> TreeAt(t', path) == Some(tv))
  }

  lemma InMap(s: Store, s': Store, ok: bool, t: Tree, path: Path, tv: Tree, v: Val, kid: Tree) returns (t': Tree)
    requires path != [] && t.Map? && Matches(s.cells, Ref(t.at), t) && Separated(t) && Below(t, s.next) && Apart(t, tv)
    requires t.at in s'.cells && s'.cells[t.at] == ObjCell(s.cells[t.at].fields[path[0] := v])
    requires s.next <= s'.next && Matches(s'.cells, v, kid) && Separated(kid)
    requires forall a: nat | Owns(kid, a) :: OldKid(t.kids, path[0], a) || Owns(tv, a) || s.next <= a < s'.next
    requires forall a: nat | a < s.next && a in s.cells && a != t.at && !OldKid(t.kids, path[0], a) ::
      a in s'.cells && s'.cells[a] == s.cells[a]
    requires Put(Denote(t), path, Denote(tv)) == (Obj(Denote(t).fields[path[0] := Denote(kid)]), ok)
    requires ok ==> TreeAt(kid, path[1..]) == Some(tv)
    ensures Agrees(s, s', ok, Ref(t.at), t, t', path, tv)
  {
    t' := Map(t.at, t.kids[path[0] := kid]);
    KidMatches(s, s', t.at, t.kids, path[0], kid, v);
    KidSeparated(s, s', t.at, t.kids, path[0], kid, tv);
    DenoteKid(t.at, t.kids, path[0], kid);
    NewKidAt(t.at, t.kids, path, kid);
    forall a: nat | a < s.next && a in s.cells && !Owns(t, a)
      ensures a in s'.cells && s'.cells[a] == s.cells[a]
    {
      assert a != t.at && !OldKid(t.kids, path[0], a);
    }
  }

  lemma InArray(s: Store, s': Store, ok: bool, t: Tree, path: Path, tv: Tree, i: nat, v: Val, kid: Tree)
    returns (t': Tree)
    requires path != [] && t.Array? && i < |t.elems|
    requires Matches(s.cells, Ref(t.at), t) && Separated(t) && Below(t, s.next) && Apart(t, tv)
    requires t.at in s'.cells && s'.cells[t.at] == ArrCell(s.cells[t.at].elems[i := v])
    requires s.next <= s'.next && Matches(s'.cells, v, kid) && Separated(kid)
    requires forall a: nat | Owns(kid, a) :: Owns(t.elems[i], a) || Owns(tv, a) || s.next <= a < s'.next
    requires forall a: nat | a < s.next && a in s.cells && a != t.at && !Owns(t.elems[i], a) ::
      a in s'.cells && s'.cells[a] == s.cells[a]
    requires Put(Denote(t), path, Denote(tv)) == (Arr(Denote(t).elems[i := Denote(kid)]), ok)
    requires Slot(|t.elems|, path[0]) == Some(i) && (ok ==> TreeAt(kid, path[1..]) == Some(tv))
    ensures Agrees(s, s', ok, Ref(t.at), t, t', path, tv)
  {
    t' := Array(t.at, t.elems[i := kid]);
    ElemMatches(s, s', t.at, t.elems, i, kid, v);
    ElemSeparated(s, s', t.at, t.elems, i, kid, tv);
    DenoteElem(t.at, t.elems, i, kid);
    NewElemAt(t.at, t.elems, path, i, kid);
    assert Denote(t') == Arr(Denote(t).elems[i := Denote(kid)]);
    forall a: nat | a < s.next && a in s.cells && !Owns(t, a)
      ensures a in s'.cells && s'.cells[a] == s.cells[a]
    {
      assert a != t.at && !Owns(t.elems[i], a);
    }
  }

  lemma ChildWritable(s: Store, cur: Val, t: Tree, val: Val, tv: Tree, v: Val, child: Tree)
    requires Writable(s, cur, t, val, tv)
    requires Matches(s.cells, v, child) && Separated(child) && forall a: nat | Owns(child, a) :: Owns(t, a)
    ensures Writable(s, v, child, val, tv)
  {
  }

  lemma LastInMap(s: Store, cur: Val, t: Tree, path: Path, val: Val, tv: Tree) returns (t': Tree)
    requires |path| == 1 && Writable(s, cur, t, val, tv) && t.Map?
    ensures var (s', ok) := SetPath(s, cur, path, val); Agrees(s, s', ok, cur, t, t', path, tv)
  {
    var (s', ok) := SetPath(s, cur, path, val);
    assert Owns(t, t.at);
    MatchesFrame(s.cells, s'.cells, val, tv);
    t' := InMap(s, s', ok, t, path, tv, val, tv);
  }

  lemma LastInArray(s: Store, cur: Val, t: Tree, path: Path, val: Val, tv: Tree) returns (t': Tree)
    requires |path| == 1 && Writable(s, cur, t, val, tv) && t.Array?
    ensures var (s', ok) := SetPath(s, cur, path, val); Agrees(s, s', ok, cur, t, t', path, tv)
  {
    var (s', ok) := SetPath(s, cur, path, val);
    var slot := Slot(|t.elems|, path[0]);
    assert Owns(t, t.at);
    if slot.None? {
      t' := t;
    } else {
      MatchesFrame(s.cells, s'.cells, val, tv);
      t' := InArray(s, s', ok, t, path, tv, slot.value, val, tv);
    }
  }

  /**
   The walk and the value-level write agree on a document that is a tree, and leave a tree that
   has the written value itself in the slot.
   */
  lemma {:induction false} WriteRefinesPut(s: Store, cur: Val, t: Tree, path: Path, val: Val, tv: Tree)
    returns (t': Tree)
    requires path != [] && Writable(s, cur, t, val, tv)
    ensures var (s', ok) := SetPath(s, cur, path, val); Agrees(s, s', ok, cur, t, t', path, tv)
    decreases |path|, 1
  {
    if t.Scalar? {
      t' := t;
    } else if |path| == 1 {
      if t.Map? {
        t' := LastInMap(s, cur, t, path, val, tv);
      } else {
        t' := LastInArray(s, cur, t, path, val, tv);
      }
    } else if t.Array? {
      t' := DownArray(s, cur, t, path, val, tv);
    } else if path[0] in t.kids {
      t' := DownMap(s, cur, t, path, val, tv);
    } else {
      t' := DownNewMap(s, cur, t, path, val, tv);
    }
  }

  lemma {:induction false} DownMap(s: Store, cur: Val, t: Tree, path: Path, val: Val, tv: Tree) returns (t': Tree)
    requires |path| > 1 && Writable(s, cur, t, val, tv) && t.Map? && path[0] in t.kids
    ensures var (s', ok) := SetPath(s, cur, path, val); Agrees(s, s', ok, cur, t, t', path, tv)
    decreases |path|, 0
  {
    var m, child := s.cells[t.at].fields, t.kids[path[0]];
    assert Owns(t, t.at);
    ChildWritable(s, cur, t, val, tv, m[path[0]], child);
    var kid := WriteRefinesPut(s, m[path[0]], child, path[1..], val, tv);
    var (s', ok) := SetPath(s, cur, path, val);
    assert Agrees(s, s', ok, m[path[0]], child, kid, path[1..], tv);
    assert s'.cells[t.at] == s.cells[t.at] && m[path[0] := m[path[0]]] == m;
    t' := InMap(s, s', ok, t, path, tv, m[path[0]], kid);
  }

  lemma {:induction false} DownArray(s: Store, cur: Val, t: Tree, path: Path, val: Val, tv: Tree) returns (t': Tree)
    requires |path| > 1 && Writable(s, cur, t, val, tv) && t.Array?
    ensures var (s', ok) := SetPath(s, cur, path, val); Agrees(s, s', ok, cur, t, t', path, tv)
    decreases |path|, 0
  {
    var slot := Slot(|t.elems|, path[0]);
    if slot.None? {
      t' := t;
    } else {
      var i := slot.value;
      var a, child := s.cells[t.at].elems, t.elems[i];
      assert Owns(t, t.at);
      ChildWritable(s, cur, t, val, tv, a[i], child);
      var kid := WriteRefinesPut(s, a[i], child, path[1..], val, tv);
      var (s', ok) := SetPath(s, cur, path, val);
      assert Agrees(s, s', ok, a[i], child, kid, path[1..], tv);
      assert s'.cells[t.at] == s.cells[t.at] && a[i := a[i]] == a;
      t' := InArray(s, s', ok, t, path, tv, i, a[i], kid);
    }
  }

  lemma NewChildWritable(s: Store, cur: Val, t: Tree, key: string, val: Val, tv: Tree)
    requires Writable(s, cur, t, val, tv) && t.Map?
    ensures Writable(WithChild(s, t.at, s.cells[t.at].fields, key), Ref(s.next), Map(s.next, map[]), val, tv)
  {
    assert Owns(t, t.at);
    MatchesFrame(s.cells, WithChild(s, t.at, s.cells[t.at].fields, key).cells, val, tv);
  }

  lemma {:induction false} DownNewMap(s: Store, cur: Val, t: Tree, path: Path, val: Val, tv: Tree) returns (t': Tree)
    requires |path| > 1 && Writable(s, cur, t, val, tv) && t.Map? && path[0] !in t.kids
    ensures var (s', ok) := SetPath(s, cur, path, val); Agrees(s, s', ok, cur, t, t', path, tv)
    decreases |path|, 0
  {
    var s1 := WithChild(s, t.at, s.cells[t.at].fields, path[0]);
    var v, child := Ref(s.next), Map(s.next, map[]);
    assert Owns(t, t.at);
    NewChildWritable(s, cur, t, path[0], val, tv);
    var kid := WriteRefinesPut(s1, v, child, path[1..], val, tv);
    var (s', ok) := SetPath(s, cur, path, val);
    assert Agrees(s1, s', ok, v, child, kid, path[1..], tv);
    assert Denote(child) == Obj(map[]);
    t' := InMap(s, s', ok, t, path, tv, v, kid);
  }

  // Whole patches.

  /** The values of a patch, as trees without common parts. */
  ghost predicate PatchTrees(s: Store, cur: Val, t: Tree, order: seq<string>, writes: map<string, Val>,
                             trees: map<string, Tree>)
  {
    && (forall k | k in order :: k in writes && k in trees && Writable(s, cur, t, writes[k], trees[k]))
    && (forall k, l | k in order && l in order && k != l :: Apart(trees[k], trees[l]))
  }

  function Values(trees: map<string, Tree>): map<string, Json> {
    map k | k in trees :: Denote(trees[k])
  }

  /** After one of the writes the other values are still apart from the document. */
  lemma PatchTreesAfter(s: Store, cur: Val, t: Tree, k: string, rest: seq<string>, writes: map<string, Val>,
                        trees: map<string, Tree>, t': Tree)
    requires PatchTrees(s, cur, t, [k] + rest, writes, trees) && k !in rest && k in writes && k in trees
    requires var (s', ok) := SetPath(s, cur, SplitDots(k), writes[k]);
      Agrees(s, s', ok, cur, t, t', SplitDots(k), trees[k])
    ensures PatchTrees(SetPath(s, cur, SplitDots(k), writes[k]).0, cur, t', rest, writes, trees)
  {
    var s' := SetPath(s, cur, SplitDots(k), writes[k]).0;
    assert k in [k] + rest;
    forall l | l in rest ensures l in writes && l in trees && Writable(s', cur, t', writes[l], trees[l]) {
      assert l in [k] + rest;
      StillWritable(s, s', cur, t, t', trees[k], writes[l], trees[l]);
    }
    assert forall l | l in rest :: l in [k] + rest;
  }

  lemma StillWritable(s: Store, s': Store, cur: Val, t: Tree, t': Tree, tv: Tree, val: Val, tw: Tree)
    requires Writable(s, cur, t, val, tw) && Apart(tv, tw) && Below(tv, s.next)
    requires Matches(s'.cells, cur, t') && Written(s, s', t, t', tv)
    ensures Writable(s', cur, t', val, tw)
  {
    forall a: nat | Owns(tw, a) && a in s.cells ensures a in s'.cells && s'.cells[a] == s.cells[a] {
      assert a < s.next && !Owns(t, a);
    }
    MatchesFrame(s.cells, s'.cells, val, tw);
  }

  /**
   The whole loop over a patch, in whatever order and changing the document in place, comes to the
   result that the value-level writes have in that order.
   */
  lemma {:induction false} PatchRefines(
    s: Store, cur: Val, t: Tree, order: seq<string>, writes: map<string, Val>, trees: map<string, Tree>)
    returns (t': Tree)
    requires Distinct(order) && PatchTrees(s, cur, t, order, writes, trees)
    requires Matches(s.cells, cur, t)
    ensures var (s', ok) := SetPaths(s, cur, order, writes);
      && Matches(s'.cells, cur, t')
      && ApplyInOrder(Denote(t), order, Values(trees)) == (if ok then Some(Denote(t')) else None)
    decreases |order|
  {
    if order == [] {
      t' := t;
    } else {
      var k, rest := order[0], order[1..];
      assert order == [k] + rest && k in order;
      var mid := WriteRefinesPut(s, cur, t, SplitDots(k), writes[k], trees[k]);
      PatchTreesAfter(s, cur, t, k, rest, writes, trees, mid);
      if SetPath(s, cur, SplitDots(k), writes[k]).1 {
        t' := PatchRefines(SetPath(s, cur, SplitDots(k), writes[k]).0, cur, mid, rest, writes, trees);
      } else {
        t' := mid;
      }
    }
  }

  /** Two orders, run in place, leave the same document when no two paths clash. */
  lemma InPlaceOrderIrrelevant(
    s: Store, cur: Val, t: Tree, o1: seq<string>, o2: seq<string>, writes: map<string, Val>, trees: map<string, Tree>)
    returns (t1: Tree, t2: Tree)
    requires Enumerates(o1, Values(trees)) && Enumerates(o2, Values(trees)) && writes.Keys == trees.Keys
    requires Matches(s.cells, cur, t) && PatchTrees(s, cur, t, o1, writes, trees)
    requires forall k, l :: !Clash(trees.Keys, k, l)
    ensures var (s1, ok1) := SetPaths(s, cur, o1, writes);
      var (s2, ok2) := SetPaths(s, cur, o2, writes);
      && Matches(s1.cells, cur, t1) && Matches(s2.cells, cur, t2)
      && ok1 == ok2 && (ok1 ==> Denote(t1) == Denote(t2))
  {
    t1 := PatchRefines(s, cur, t, o1, writes, trees);
    t2 := PatchRefines(s, cur, t, o2, writes, trees);
    assert Values(trees).Keys == trees.Keys;
    NoClashNoDifference(Denote(t), o1, o2, Values(trees));
  }

  // Sharing with the rule.

  /** The container that a walk writes to or extends: the only existing one it changes. */
  function LastContainer(s: Store, cur: Val, path: Path): Option<nat>
    requires path != []
    decreases |path|
  {
    if cur.Leaf? || cur.at !in s.cells then None
    else
      match s.cells[cur.at]
      case ObjCell(m) =>
        if |path| == 1 || path[0] !in m then Some(cur.at) else LastContainer(s, m[path[0]], path[1..])
      case ArrCell(a) =>
        var slot := Slot(|a|, path[0]);
        if slot.None? then None
        else if |path| == 1 then Some(cur.at)
        else LastContainer(s, a[slot.value], path[1..])
  }

  /** The slot in which the walk ends holds the value before the write. */
  predicate AlreadyHolds(s: Store, cur: Val, path: Path, val: Val)
    requires path != []
    decreases |path|
  {
    cur.Ref? && cur.at in s.cells &&
    match s.cells[cur.at]
    case ObjCell(m) =>
      path[0] in m && (if |path| == 1 then m[path[0]] == val else AlreadyHolds(s, m[path[0]], path[1..], val))
    case ArrCell(a) =>
      var slot := Slot(|a|, path[0]);
      slot.Some? && (if |path| == 1 then a[slot.value] == val else AlreadyHolds(s, a[slot.value], path[1..], val))
  }

  ghost predicate CellsBelow(s: Store) {
    forall a | a in s.cells :: a < s.next
  }

  ghost predicate Changed(s: Store, s': Store, a: nat)
    requires a in s.cells
  {
    !(a in s'.cells && s'.cells[a] == s.cells[a])
  }

  /** A walk changes an existing cell exactly if it ends there and writes something new. */
  lemma {:induction false} ChangesExactly(s: Store, cur: Val, path: Path, val: Val, a: nat)
    requires path != [] && CellsBelow(s) && a in s.cells
    ensures Changed(s, SetPath(s, cur, path, val).0, a) <==>
      LastContainer(s, cur, path) == Some(a) && !AlreadyHolds(s, cur, path, val)
    decreases |path|
  {
    if cur.Ref? && cur.at in s.cells {
      match s.cells[cur.at] {
        case ObjCell(m) =>
          if |path| == 1 {
            assert m[path[0] := val][path[0]] == val;
            assert path[0] in m && m[path[0]] == val ==> m[path[0] := val] == m;
          } else if path[0] in m {
            ChangesExactly(s, m[path[0]], path[1..], val, a);
          } else {
            assert path[0] in m[path[0] := Ref(s.next)];
            NewChainOnly(WithChild(s, cur.at, m, path[0]), s.next, path[1..], val, a);
          }
        case ArrCell(e) =>
          var slot := Slot(|e|, path[0]);
          if slot.Some? && |path| == 1 {
            assert e[slot.value := val][slot.value] == val;
            assert e[slot.value] == val ==> e[slot.value := val] == e;
          } else if slot.Some? {
            ChangesExactly(s, e[slot.value], path[1..], val, a);
          }
      }
    }
  }

  lemma {:induction false} NewChainOnly(s: Store, at: nat, path: Path, val: Val, a: nat)
    requires path != [] && at in s.cells && s.cells[at] == ObjCell(map[]) && at < s.next
    requires a in s.cells && a < at
    ensures !Changed(s, SetPath(s, Ref(at), path, val).0, a)
    decreases |path|
  {
    if |path| > 1 {
      NewChainOnly(WithChild(s, at, map[], path[0]), s.next, path[1..], val, a);
    }
  }

  lemma {:induction false} StaysBelow(s: Store, cur: Val, path: Path, val: Val)
    requires path != [] && CellsBelow(s)
    ensures CellsBelow(SetPath(s, cur, path, val).0)
    decreases |path|
  {
    if cur.Ref? && cur.at in s.cells && |path| > 1 {
      match s.cells[cur.at] {
        case ObjCell(m) =>
          if path[0] in m {
            StaysBelow(s, m[path[0]], path[1..], val);
          } else {
            StaysBelow(WithChild(s, cur.at, m, path[0]), Ref(s.next), path[1..], val);
          }
        case ArrCell(e) =>
          if Slot(|e|, path[0]).Some? {
            StaysBelow(s, e[Slot(|e|, path[0]).value], path[1..], val);
          }
      }
    }
  }

  /** The longer path goes on through the slot that the shorter one names. */
  predicate Through(t: Tree, p: Path, q: Path) {
    |p| < |q| && MeetIn(Denote(t), p, q)
  }

  lemma {:induction false} PartOwnsLess(t: Tree, p: Path, tv: Tree, a: nat)
    requires TreeAt(t, p) == Some(tv) && Owns(tv, a)
    ensures Owns(t, a)
    decreases |p|
  {
    if p != [] {
      match t {
        case Map(_, kids) => PartOwnsLess(kids[p[0]], p[1..], tv, a);
        case Array(_, elems) => PartOwnsLess(elems[Slot(|elems|, p[0]).value], p[1..], tv, a);
        case _ =>
      }
    }
  }

  lemma {:induction false} LastIsOwned(s: Store, v: Val, t: Tree, q: Path)
    requires q != [] && Matches(s.cells, v, t) && LastContainer(s, v, q).Some?
    ensures Owns(t, LastContainer(s, v, q).value)
    decreases |q|
  {
    match t {
      case Map(at, kids) =>
        if |q| > 1 && q[0] in kids {
          LastIsOwned(s, s.cells[at].fields[q[0]], kids[q[0]], q[1..]);
        }
      case Array(at, elems) =>
        if |q| > 1 {
          var i := Slot(|elems|, q[0]).value;
          LastIsOwned(s, s.cells[at].elems[i], elems[i], q[1..]);
        }
      case _ =>
    }
  }

  /** A walk through the slot is a walk from the value in it. */
  lemma {:induction false} WalksOn(s: Store, v: Val, t: Tree, p: Path, tv: Tree, q: Path, w: Val)
    requires Matches(s.cells, v, t) && TreeAt(t, p) == Some(tv) && !tv.Scalar? && Through(t, p, q)
    ensures SetPath(s, v, q, w) == SetPath(s, Ref(tv.at), q[|p|..], w)
    ensures LastContainer(s, v, q) == LastContainer(s, Ref(tv.at), q[|p|..])
    ensures AlreadyHolds(s, v, q, w) == AlreadyHolds(s, Ref(tv.at), q[|p|..], w)
    decreases |p|
  {
    if p == [] {
      assert q[0..] == q;
    } else {
      assert q[1..][|p[1..]|..] == q[|p|..];
      match t {
        case Map(at, kids) =>
          assert ChildOf(Denote(t).fields, p[0]) == Denote(kids[p[0]]);
          WalksOn(s, s.cells[at].fields[p[0]], kids[p[0]], p[1..], tv, q[1..], w);
        case Array(at, elems) =>
          var i := Slot(|elems|, p[0]).value;
          assert Denote(t).elems[i] == Denote(elems[i]);
          WalksOn(s, s.cells[at].elems[i], elems[i], p[1..], tv, q[1..], w);
        case _ =>
      }
    }
  }

  /** A walk that does not go on through the slot ends outside of what is in it. */
  lemma {:induction false} EndsOutside(s: Store, v: Val, t: Tree, p: Path, tv: Tree, q: Path)
    requires Matches(s.cells, v, t) && Separated(t) && TreeAt(t, p) == Some(tv) && q != [] && !Through(t, p, q)
    requires LastContainer(s, v, q).Some?
    ensures !Owns(tv, LastContainer(s, v, q).value)
    decreases |p|
  {
    var a := LastContainer(s, v, q).value;
    match t {
      case Map(at, kids) =>
        assert ChildOf(Denote(t).fields, p[0]) == Denote(kids[p[0]]);
        if Owns(tv, a) {
          PartOwnsLess(kids[p[0]], p[1..], tv, a);
        }
        if |q| > 1 && q[0] == p[0] {
          EndsOutside(s, s.cells[at].fields[p[0]], kids[p[0]], p[1..], tv, q[1..]);
        } else if |q| > 1 && q[0] in kids {
          LastIsOwned(s, s.cells[at].fields[q[0]], kids[q[0]], q[1..]);
          assert Apart(kids[q[0]], kids[p[0]]);
        }
      case Array(at, elems) =>
        var i, j := Slot(|elems|, p[0]).value, Slot(|elems|, q[0]).value;
        assert Denote(t).elems[i] == Denote(elems[i]);
        if Owns(tv, a) {
          PartOwnsLess(elems[i], p[1..], tv, a);
        }
        if |q| > 1 && i == j {
          EndsOutside(s, s.cells[at].elems[i], elems[i], p[1..], tv, q[1..]);
        } else if |q| > 1 {
          LastIsOwned(s, s.cells[at].elems[j], elems[j], q[1..]);
          assert Apart(elems[j], elems[i]);
        }
      case _ =>
    }
  }

  /** A write to the value alone would end in one of its containers and change it. */
  predicate WouldChange(s: Store, v: Val, path: Path, w: Val)
    requires path != []
  {
    LastContainer(s, v, path).Some? && !AlreadyHolds(s, v, path, w)
  }

  /**
   A composite value is written by reference. A later write to the document changes the rule the
   value came from exactly if its path goes on through the slot and the rest of the path, taken from
   the rule's value, would change that.
   */
  lemma LaterWriteChangesRule(s: Store, cur: Val, t: Tree, p: Path, val: Val, tv: Tree, q: Path, w: Val)
    returns (t1: Tree)
    requires p != [] && q != [] && Writable(s, cur, t, val, tv) && !tv.Scalar? && CellsBelow(s)
    requires SetPath(s, cur, p, val).1
    ensures var s1 := SetPath(s, cur, p, val).0;
      var s2 := SetPath(s1, cur, q, w).0;
      && Denote(t1) == Put(Denote(t), p, Denote(tv)).0 && Matches(s1.cells, cur, t1)
      && ((exists a :: Owns(tv, a) && a in s1.cells && Changed(s1, s2, a)) <==>
            Through(t1, p, q) && WouldChange(s1, val, q[|p|..], w))
  {
    var s1 := SetPath(s, cur, p, val).0;
    var s2 := SetPath(s1, cur, q, w).0;
    t1 := WriteRefinesPut(s, cur, t, p, val, tv);
    StaysBelow(s, cur, p, val);
    RuleIsKept(s, s1, t, t1, val, tv);
    var last := LastContainer(s1, cur, q);
    if Through(t1, p, q) {
      WalksOn(s1, cur, t1, p, tv, q, w);
      if last.Some? {
        LastIsOwned(s1, val, tv, q[|p|..]);
        LastIsThere(s1, cur, q);
        ChangesExactly(s1, cur, q, w, last.value);
      }
    } else if last.Some? {
      EndsOutside(s1, cur, t1, p, tv, q);
    }
    forall a: nat | Owns(tv, a) && a in s1.cells && Changed(s1, s2, a)
      ensures Through(t1, p, q) && WouldChange(s1, val, q[|p|..], w)
    {
      ChangesExactly(s1, cur, q, w, a);
    }
  }

  lemma RuleIsKept(s: Store, s1: Store, t: Tree, t1: Tree, val: Val, tv: Tree)
    requires Matches(s.cells, val, tv) && Below(tv, s.next) && Apart(t, tv) && Written(s, s1, t, t1, tv)
    ensures Matches(s1.cells, val, tv) && Below(tv, s1.next)
  {
    MatchesFrame(s.cells, s1.cells, val, tv);
  }

  lemma {:induction false} LastIsThere(s: Store, v: Val, path: Path)
    requires path != [] && LastContainer(s, v, path).Some?
    ensures LastContainer(s, v, path).value in s.cells
    decreases |path|
  {
    if |path| > 1 {
      match s.cells[v.at] {
        case ObjCell(m) =>
          if path[0] in m {
            LastIsThere(s, m[path[0]], path[1..]);
          }
        case ArrCell(e) => LastIsThere(s, e[Slot(|e|, path[0]).value], path[1..]);
      }
    }
  }

  /** What the rule's value is then: itself, written at the rest of the path. */
  lemma RuleBecomes(s: Store, cur: Val, t: Tree, p: Path, val: Val, tv: Tree, q: Path, w: Val, tw: Tree)
    returns (t1: Tree, rule: Tree)
    requires p != [] && Writable(s, cur, t, val, tv) && !tv.Scalar? && SetPath(s, cur, p, val).1
    requires Writable(s, cur, t, w, tw) && Apart(tv, tw)
    ensures Denote(t1) == Put(Denote(t), p, Denote(tv)).0
    ensures Through(t1, p, q) ==>
      var s2 := SetPath(SetPath(s, cur, p, val).0, cur, q, w).0;
      Matches(s2.cells, val, rule) && Denote(rule) == Put(Denote(tv), q[|p|..], Denote(tw)).0
  {
    var s1 := SetPath(s, cur, p, val).0;
    t1 := WriteRefinesPut(s, cur, t, p, val, tv);
    rule := tv;
    if Through(t1, p, q) {
      WalksOn(s1, cur, t1, p, tv, q, w);
      RuleIsKept(s, s1, t, t1, val, tv);
      StillWritable(s, s1, cur, t, t1, tv, w, tw);
      assert Writable(s1, val, tv, w, tw);
      rule := WriteRefinesPut(s1, val, tv, q[|p|..], w, tw);
    }
  }
}
