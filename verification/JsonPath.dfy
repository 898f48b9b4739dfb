/** Dotted paths into JSON documents: the writer, the reader, and the laws between them. */
module JsonPath {
  import opened Wrappers

  datatype Json =
    | Null
    | Bool(b: bool)
    | Number(text: string)
    | Str(s: string)
    | Arr(elems: seq<Json>)
    | Obj(fields: map<string, Json>)

  type Path = seq<string>

  /** strings.Split(s, "."). */
  function SplitDots(s: string): (parts: Path)
    ensures parts != []
  {
    if s == "" then [""]
    else
      var r := SplitDots(s[1..]);
      if s[0] == '.' then [""] + r else [[s[0]] + r[0]] + r[1..]
  }

  predicate IsDigit(c: char) {
    '0' <= c <= '9'
  }

  predicate AllDigits(s: string) {
    s != "" && forall i | 0 <= i < |s| :: IsDigit(s[i])
  }

  function DigitValue(c: char): nat
    requires IsDigit(c)
  {
    c as int - '0' as int
  }

  function Value(s: string): nat
    requires forall i | 0 <= i < |s| :: IsDigit(s[i])
  {
    if s == "" then 0 else Value(s[..|s| - 1]) * 10 + DigitValue(s[|s| - 1])
  }

  const MAX_INT := 0x7fff_ffff_ffff_ffff

  /** strconv.Atoi: an optional sign and digits; numbers that do not fit 64 bits are errors. */
  function ParseIndex(s: string): Option<int> {
    if AllDigits(s) then InRange(Value(s))
    else if s != "" && (s[0] == '+' || s[0] == '-') && AllDigits(s[1..])
    then
      var n: int := Value(s[1..]);
      InRange(if s[0] == '-' then -n else n)
    else None
  }

  function InRange(n: int): Option<int> {
    if -MAX_INT - 1 <= n <= MAX_INT then Some(n) else None
  }

  /** The element of an array that a segment names. */
  function Slot(n: nat, segment: string): Option<nat> {
    var i := ParseIndex(segment);
    if i.Some? && 0 <= i.value < n then Some(i.value) else None
  }

  /**
   setJSONPath. The Boolean tells whether the write succeeded; the document is the one that is
   left behind either way, because intermediate maps are created on the way down.
   */
  function Put(v: Json, path: Path, val: Json): (Json, bool)
    requires path != []
    decreases |path|
  {
    var segment := path[0];
    if |path| == 1 then
      match v
      case Obj(m) => (Obj(m[segment := val]), true)
      case Arr(a) =>
        var slot := Slot(|a|, segment);
        if slot.Some? then (Arr(a[slot.value := val]), true) else (v, false)
      case _ => (v, false)
    else
      match v
      case Obj(m) =>
        var (child, ok) := Put(if segment in m then m[segment] else Obj(map[]), path[1..], val);
        (Obj(m[segment := child]), ok)
      case Arr(a) =>
        var slot := Slot(|a|, segment);
        if slot.None? then (v, false)
        else
          var (child, ok) := Put(a[slot.value], path[1..], val);
          (Arr(a[slot.value := child]), ok)
      case _ => (v, false)
  }

  /** One step of the reader; the flag says that the reader gives up with null. */
  function Child(v: Json, segment: string): (Json, bool) {
    match v
    case Obj(m) => (if segment in m then m[segment] else Null, true)
    case Arr(a) =>
      var slot := Slot(|a|, segment);
      if slot.Some? then (a[slot.value], true) else (Null, false)
    case _ => (Null, false)
  }

  /** getNestedValueAny; empty segments are skipped. */
  function Get(v: Json, path: Path): Json
    decreases |path|
  {
    if path == [] then v
    else if path[0] == "" then Get(v, path[1..])
    else
      var (child, ok) := Child(v, path[0]);
      if ok then Get(child, path[1..]) else Null
  }

  /** The reader's loop over the segments. */
  method GetNestedValueAny(root: Json, path: string) returns (r: Json)
    ensures r == Get(root, SplitDots(path))
  {
    var parts := SplitDots(path);
    var cur := root;
    for i := 0 to |parts|
      invariant Get(cur, parts[i..]) == Get(root, parts)
    {
      assert parts[i..][1..] == parts[i + 1..];
      if parts[i] == "" {
        continue;
      }
      var (child, ok) := Child(cur, parts[i]);
      if !ok {
        return Null;
      }
      cur := child;
    }
    return cur;
  }

  ghost predicate NoEmptySegment(path: Path) {
    "" !in path
  }

  /** Every step of the path meets a map with the key or an array with the element. */
  predicate Present(v: Json, path: Path) {
    path == [] ||
    match v
    case Obj(m) => path[0] in m && Present(m[path[0]], path[1..])
    case Arr(a) => Slot(|a|, path[0]).Some? && Present(a[Slot(|a|, path[0]).value], path[1..])
    case _ => false
  }

  // The lens laws.

  /** A map that is created on the way down accepts every path. */
  lemma {:induction false} PutInEmpty(path: Path, val: Json)
    requires path != []
    ensures Put(Obj(map[]), path, val).1
  {
    if |path| > 1 {
      PutInEmpty(path[1..], val);
    }
  }

  /** A failing write leaves the whole document as it was. */
  lemma {:induction false} PutFails(v: Json, path: Path, val: Json)
    requires path != [] && !Put(v, path, val).1
    ensures Put(v, path, val).0 == v
    decreases |path|
  {
    if |path| > 1 {
      match v {
        case Obj(m) =>
          if path[0] in m {
            PutFails(m[path[0]], path[1..], val);
          } else {
            PutInEmpty(path[1..], val);
          }
        case Arr(a) =>
          var slot := Slot(|a|, path[0]);
          if slot.Some? {
            PutFails(a[slot.value], path[1..], val);
          }
        case _ =>
      }
    }
  }

  /** What was written is read back. */
  lemma {:induction false} PutGet(v: Json, path: Path, val: Json)
    requires path != [] && NoEmptySegment(path) && Put(v, path, val).1
    ensures Get(Put(v, path, val).0, path) == val
    decreases |path|
  {
    assert path[0] in path;
    if |path| == 1 {
      assert path[1..] == [];
    } else {
      assert NoEmptySegment(path[1..]);
      match v {
        case Obj(m) =>
          PutGet(if path[0] in m then m[path[0]] else Obj(map[]), path[1..], val);
        case Arr(a) =>
          PutGet(a[Slot(|a|, path[0]).value], path[1..], val);
        case _ =>
      }
    }
  }

  /** Writing back what is there changes nothing. */
  lemma {:induction false} GetPut(v: Json, path: Path)
    requires path != [] && NoEmptySegment(path) && Present(v, path)
    ensures Put(v, path, Get(v, path)) == (v, true)
    decreases |path|
  {
    assert path[0] in path;
    if |path| == 1 {
      assert path[1..] == [];
      match v {
        case Obj(m) => assert m[path[0] := m[path[0]]] == m;
        case Arr(a) => assert a[Slot(|a|, path[0]).value := a[Slot(|a|, path[0]).value]] == a;
        case _ =>
      }
    } else {
      assert NoEmptySegment(path[1..]);
      match v {
        case Obj(m) =>
          GetPut(m[path[0]], path[1..]);
          assert m[path[0] := m[path[0]]] == m;
        case Arr(a) =>
          var i := Slot(|a|, path[0]).value;
          GetPut(a[i], path[1..]);
          assert a[i := a[i]] == a;
        case _ =>
      }
    }
  }

  /** The value a write stores under its first segment. */
  function Below(child: Json, path: Path, val: Json): (Json, bool)
    requires path != []
  {
    if |path| == 1 then (val, true) else Put(child, path[1..], val)
  }

  function ChildOf(m: map<string, Json>, key: string): Json {
    if key in m then m[key] else Obj(map[])
  }

  lemma PutField(m: map<string, Json>, path: Path, val: Json)
    requires path != []
    ensures var (c, ok) := Below(ChildOf(m, path[0]), path, val);
      Put(Obj(m), path, val) == (Obj(m[path[0] := c]), ok)
  {
  }

  lemma PutElem(a: seq<Json>, path: Path, val: Json)
    requires path != []
    ensures Slot(|a|, path[0]).None? ==> Put(Arr(a), path, val) == (Arr(a), false)
    ensures Slot(|a|, path[0]).Some? ==>
      var i := Slot(|a|, path[0]).value;
      var (c, ok) := Below(a[i], path, val);
      Put(Arr(a), path, val) == (Arr(a[i := c]), ok)
  {
  }

  /** The child written last is the one that stays, however it was written before. */
  predicate LastWins(child: Json, path: Path, x: Json, y: Json)
    requires path != []
  {
    Below(Below(child, path, x).0, path, y) == Below(child, path, y)
  }

  lemma FieldTwice(m: map<string, Json>, path: Path, x: Json, y: Json)
    requires path != [] && LastWins(ChildOf(m, path[0]), path, x, y)
    ensures Put(Put(Obj(m), path, x).0, path, y) == Put(Obj(m), path, y)
  {
    var child := ChildOf(m, path[0]);
    var c, z := Below(child, path, x).0, Below(child, path, y).0;
    PutField(m, path, x);
    PutField(m, path, y);
    PutField(m[path[0] := c], path, y);
    assert m[path[0] := c][path[0] := z] == m[path[0] := z];
  }

  lemma ElemTwice(a: seq<Json>, path: Path, x: Json, y: Json)
    requires path != [] && (Slot(|a|, path[0]).Some? ==> LastWins(a[Slot(|a|, path[0]).value], path, x, y))
    ensures Put(Put(Arr(a), path, x).0, path, y) == Put(Arr(a), path, y)
  {
    var slot := Slot(|a|, path[0]);
    PutElem(a, path, x);
    PutElem(a, path, y);
    if slot.Some? {
      var i := slot.value;
      var c, z := Below(a[i], path, x).0, Below(a[i], path, y).0;
      PutElem(a[i := c], path, y);
      assert a[i := c][i := z] == a[i := z];
    }
  }

  /** The last write wins. */
  lemma {:induction false} PutPut(v: Json, path: Path, x: Json, y: Json)
    requires path != []
    ensures Put(Put(v, path, x).0, path, y) == Put(v, path, y)
    decreases |path|
  {
    match v {
      case Obj(m) =>
        if |path| > 1 {
          PutPut(ChildOf(m, path[0]), path[1..], x, y);
        }
        FieldTwice(m, path, x, y);
      case Arr(a) =>
        var slot := Slot(|a|, path[0]);
        if slot.Some? && |path| > 1 {
          PutPut(a[slot.value], path[1..], x, y);
        }
        ElemTwice(a, path, x, y);
      case _ =>
    }
  }

  // Independent paths.

  /** An array index without sign and leading zeros; other segments are unrestricted. */
  predicate Canonical(segment: string) {
    var i := ParseIndex(segment);
    i.Some? && i.value >= 0 ==> AllDigits(segment) && (|segment| == 1 || segment[0] != '0')
  }

  ghost predicate CanonicalPath(path: Path) {
    forall i | 0 <= i < |path| :: Canonical(path[i])
  }

  /** Neither path is a prefix of the other. */
  predicate Independent(p: Path, q: Path) {
    p != [] && q != [] && (p[0] != q[0] || Independent(p[1..], q[1..]))
  }

  lemma {:induction false} IndependentMeansNoPrefix(p: Path, q: Path)
    ensures Independent(p, q) <==> !(p <= q) && !(q <= p)
  {
    if p != [] && q != [] && p[0] == q[0] {
      IndependentMeansNoPrefix(p[1..], q[1..]);
      assert p == [p[0]] + p[1..] && q == [q[0]] + q[1..];
    }
  }

  lemma {:induction false} ValuePositive(s: string)
    requires AllDigits(s) && s[0] != '0'
    ensures Value(s) > 0
  {
    if |s| > 1 {
      ValuePositive(s[..|s| - 1]);
    }
  }

  /** Canonical numerals are determined by their value. */
  lemma {:induction false} NumeralsDiffer(s: string, t: string)
    requires AllDigits(s) && AllDigits(t) && Value(s) == Value(t)
    requires (|s| == 1 || s[0] != '0') && (|t| == 1 || t[0] != '0')
    ensures s == t
    decreases |s|
  {
    var m, n := |s| - 1, |t| - 1;
    assert DigitValue(s[m]) == Value(s) % 10 && DigitValue(t[n]) == Value(t) % 10;
    assert s[m] == t[n];
    if m > 0 && n > 0 {
      NumeralsDiffer(s[..m], t[..n]);
    } else if m > 0 {
      ValuePositive(s[..m]);
    } else if n > 0 {
      ValuePositive(t[..n]);
    }
    assert s == s[..m] + [s[m]] && t == t[..n] + [t[n]];
  }

  lemma SlotsDiffer(s: string, t: string)
    requires Canonical(s) && Canonical(t) && SameIndex(s, t)
    ensures s == t
  {
    NumeralsDiffer(s, t);
  }

  // When two paths meet.

  /** Both segments name one and the same element of an array that is long enough. */
  predicate SameIndex(s: string, t: string) {
    ParseIndex(s).Some? && ParseIndex(s).value >= 0 && ParseIndex(s) == ParseIndex(t)
  }

  /** Along the shorter path, the segments are equal or name the same index. */
  predicate MayMeet(p: Path, q: Path) {
    p == [] || q == [] || ((p[0] == q[0] || SameIndex(p[0], q[0])) && MayMeet(p[1..], q[1..]))
  }

  /** In this document the walk of the longer path comes through the slot the shorter one writes. */
  predicate MeetIn(v: Json, p: Path, q: Path)
    decreases |p|
  {
    p == [] || q == [] ||
    match v
    case Obj(m) => p[0] == q[0] && MeetIn(ChildOf(m, p[0]), p[1..], q[1..])
    case Arr(a) =>
      && Slot(|a|, p[0]).Some? && Slot(|a|, p[0]) == Slot(|a|, q[0])
      && MeetIn(a[Slot(|a|, p[0]).value], p[1..], q[1..])
    case _ => false
  }

  lemma {:induction false} MeetInSym(v: Json, p: Path, q: Path)
    ensures MeetIn(v, p, q) == MeetIn(v, q, p)
    decreases |p|
  {
    if p != [] && q != [] {
      match v {
        case Obj(m) => MeetInSym(ChildOf(m, p[0]), p[1..], q[1..]);
        case Arr(a) =>
          if Slot(|a|, p[0]).Some? {
            MeetInSym(a[Slot(|a|, p[0]).value], p[1..], q[1..]);
          }
        case _ =>
      }
    }
  }

  lemma {:induction false} MeetingPathsMayMeet(v: Json, p: Path, q: Path)
    requires MeetIn(v, p, q)
    ensures MayMeet(p, q)
    decreases |p|
  {
    if p != [] && q != [] {
      match v {
        case Obj(m) => MeetingPathsMayMeet(ChildOf(m, p[0]), p[1..], q[1..]);
        case Arr(a) => MeetingPathsMayMeet(a[Slot(|a|, p[0]).value], p[1..], q[1..]);
        case _ =>
      }
    }
  }

  /** With canonical indices, paths of which neither is a prefix of the other meet in no document. */
  lemma {:induction false} IndependentNeverMeet(p: Path, q: Path)
    requires CanonicalPath(p) && CanonicalPath(q) && Independent(p, q)
    ensures !MayMeet(p, q)
  {
    if SameIndex(p[0], q[0]) {
      SlotsDiffer(p[0], q[0]);
    }
    if p[0] == q[0] {
      IndependentNeverMeet(p[1..], q[1..]);
    }
  }

  /** A write does not change what a path reads that it does not meet. */
  lemma {:induction false} PutKeepsOthers(v: Json, p: Path, q: Path, val: Json)
    requires p != [] && !MeetIn(v, p, q) && NoEmptySegment(q)
    ensures Get(Put(v, p, val).0, q) == Get(v, q)
    decreases |p|
  {
    assert q[0] in q;
    if v.Obj? && p[0] == q[0] {
      assert |p| > 1 && |q| > 1;
      assert NoEmptySegment(q[1..]);
      PutKeepsOthers(ChildOf(v.fields, p[0]), p[1..], q[1..], val);
      if p[0] !in v.fields {
        NullReadsNull(q[1..]);
      }
    } else if v.Arr? && Slot(|v.elems|, p[0]).Some? && Slot(|v.elems|, p[0]) == Slot(|v.elems|, q[0]) {
      assert |p| > 1 && |q| > 1;
      assert NoEmptySegment(q[1..]);
      PutKeepsOthers(v.elems[Slot(|v.elems|, p[0]).value], p[1..], q[1..], val);
    }
  }

  /** Below a missing key and in an empty map the reader finds null. */
  lemma {:induction false} NullReadsNull(q: Path)
    requires NoEmptySegment(q) && q != []
    ensures Get(Null, q) == Null && Get(Obj(map[]), q) == Null
  {
    assert q[0] in q;
    if |q| > 1 {
      assert NoEmptySegment(q[1..]);
      NullReadsNull(q[1..]);
    } else {
      assert q[1..] == [];
    }
  }

  /** The second write has the result and the success it would have had alone, wherever it is done. */
  predicate Commute(v: Json, p: Path, x: Json, q: Path, y: Json)
    requires p != [] && q != []
  {
    && Put(Put(v, p, x).0, q, y).0 == Put(Put(v, q, y).0, p, x).0
    && Put(Put(v, p, x).0, q, y).1 == Put(v, q, y).1
    && Put(Put(v, q, y).0, p, x).1 == Put(v, p, x).1
  }

  /** Writes that do not meet commute, and neither decides over the success of the other. */
  lemma {:induction false} PutsCommute(v: Json, p: Path, x: Json, q: Path, y: Json)
    requires p != [] && q != [] && !MeetIn(v, p, q)
    ensures Commute(v, p, x, q, y)
    decreases |p|
  {
    match v {
      case Obj(m) =>
        if p[0] == q[0] {
          PutsCommute(ChildOf(m, p[0]), p[1..], x, q[1..], y);
          CommuteField(m, p, x, q, y);
        } else {
          CommuteFields(m, p, x, q, y);
        }
      case Arr(a) =>
        var slot := Slot(|a|, p[0]);
        if slot.Some? && slot == Slot(|a|, q[0]) {
          PutsCommute(a[slot.value], p[1..], x, q[1..], y);
          CommuteElem(a, p, x, q, y);
        } else {
          CommuteElems(a, p, x, q, y);
        }
      case _ =>
    }
  }

  lemma CommuteFields(m: map<string, Json>, p: Path, x: Json, q: Path, y: Json)
    requires p != [] && q != [] && p[0] != q[0]
    ensures Commute(Obj(m), p, x, q, y)
  {
    var c, d := Below(ChildOf(m, p[0]), p, x).0, Below(ChildOf(m, q[0]), q, y).0;
    PutTwoFields(m, p, x, q, y);
    PutTwoFields(m, q, y, p, x);
    assert m[p[0] := c][q[0] := d] == m[q[0] := d][p[0] := c];
  }

  lemma PutTwoFields(m: map<string, Json>, p: Path, x: Json, q: Path, y: Json)
    requires p != [] && q != [] && p[0] != q[0]
    ensures var c, d := Below(ChildOf(m, p[0]), p, x).0, Below(ChildOf(m, q[0]), q, y).0;
      Put(Put(Obj(m), p, x).0, q, y) == (Obj(m[p[0] := c][q[0] := d]), Put(Obj(m), q, y).1)
  {
    var m1 := m[p[0] := Below(ChildOf(m, p[0]), p, x).0];
    PutField(m, p, x);
    PutField(m, q, y);
    assert ChildOf(m1, q[0]) == ChildOf(m, q[0]);
    PutField(m1, q, y);
  }

  lemma CommuteElems(a: seq<Json>, p: Path, x: Json, q: Path, y: Json)
    requires p != [] && q != [] && (Slot(|a|, p[0]).Some? ==> Slot(|a|, p[0]) != Slot(|a|, q[0]))
    ensures Commute(Arr(a), p, x, q, y)
  {
    var i, j := Slot(|a|, p[0]), Slot(|a|, q[0]);
    if i.Some? && j.Some? {
      var c, d := Below(a[i.value], p, x).0, Below(a[j.value], q, y).0;
      PutTwoElems(a, p, x, q, y);
      PutTwoElems(a, q, y, p, x);
      assert a[i.value := c][j.value := d] == a[j.value := d][i.value := c];
    } else if j.None? {
      PutBesideNothing(a, p, x, q, y);
    } else {
      PutBesideNothing(a, q, y, p, x);
    }
  }

  /** A path that misses the array misses it after another write, too. */
  lemma PutBesideNothing(a: seq<Json>, p: Path, x: Json, q: Path, y: Json)
    requires p != [] && q != [] && Slot(|a|, q[0]).None?
    ensures Put(Arr(a), q, y) == (Arr(a), false)
    ensures Put(Put(Arr(a), p, x).0, q, y) == (Put(Arr(a), p, x).0, false)
  {
    PutElem(a, p, x);
    PutElem(a, q, y);
    PutElem(Put(Arr(a), p, x).0.elems, q, y);
  }

  lemma PutTwoElems(a: seq<Json>, p: Path, x: Json, q: Path, y: Json)
    requires p != [] && q != [] && Slot(|a|, p[0]).Some? && Slot(|a|, q[0]).Some?
    requires Slot(|a|, p[0]) != Slot(|a|, q[0])
    ensures var i, j := Slot(|a|, p[0]).value, Slot(|a|, q[0]).value;
      var c, d := Below(a[i], p, x).0, Below(a[j], q, y).0;
      Put(Put(Arr(a), p, x).0, q, y) == (Arr(a[i := c][j := d]), Put(Arr(a), q, y).1)
  {
    var i := Slot(|a|, p[0]).value;
    PutElem(a, p, x);
    PutElem(a, q, y);
    PutElem(a[i := Below(a[i], p, x).0], q, y);
  }

  lemma CommuteField(m: map<string, Json>, p: Path, x: Json, q: Path, y: Json)
    requires |p| > 1 && |q| > 1 && p[0] == q[0] && Commute(ChildOf(m, p[0]), p[1..], x, q[1..], y)
    ensures Commute(Obj(m), p, x, q, y)
  {
    var k, child := p[0], ChildOf(m, p[0]);
    var c, d := Put(child, p[1..], x).0, Put(child, q[1..], y).0;
    PutField(m, p, x);
    PutField(m, q, y);
    PutField(m[k := c], q, y);
    PutField(m[k := d], p, x);
    var z := Put(c, q[1..], y).0;
    assert m[k := c][k := z] == m[k := d][k := z];
  }

  lemma CommuteElem(a: seq<Json>, p: Path, x: Json, q: Path, y: Json)
    requires |p| > 1 && |q| > 1 && Slot(|a|, p[0]).Some? && Slot(|a|, p[0]) == Slot(|a|, q[0])
    requires Commute(a[Slot(|a|, p[0]).value], p[1..], x, q[1..], y)
    ensures Commute(Arr(a), p, x, q, y)
  {
    var i := Slot(|a|, p[0]).value;
    PutElem(a, p, x);
    PutElem(a, q, y);
    var c, d := Put(a[i], p[1..], x).0, Put(a[i], q[1..], y).0;
    PutElem(a[i := c], q, y);
    PutElem(a[i := d], p, x);
    var z := Put(c, q[1..], y).0;
    assert a[i := c][i := z] == a[i := d][i := z];
  }

  /** A write leaves the walk of a path alone that it does not meet: it meets what it met before. */
  lemma {:induction false} PutKeepsMeetings(v: Json, h: Path, x: Json, q: Path, r: Path)
    requires h != [] && !MeetIn(v, h, q)
    ensures MeetIn(Put(v, h, x).0, q, r) == MeetIn(v, q, r)
    decreases |h|
  {
    if r != [] {
      match v {
        case Obj(m) =>
          PutField(m, h, x);
          if h[0] == q[0] {
            PutKeepsMeetings(ChildOf(m, h[0]), h[1..], x, q[1..], r[1..]);
          }
        case Arr(a) =>
          PutElem(a, h, x);
          var slot := Slot(|a|, h[0]);
          if slot.Some? && slot == Slot(|a|, q[0]) {
            PutKeepsMeetings(a[slot.value], h[1..], x, q[1..], r[1..]);
          }
        case _ =>
      }
    }
  }

  // What segments name.

  function JoinDots(parts: Path): string {
    if parts == [] then "" else if |parts| == 1 then parts[0] else parts[0] + "." + JoinDots(parts[1..])
  }

  /** The segments are the parts between all dots. */
  lemma {:induction false} SegmentsJoin(s: string)
    ensures JoinDots(SplitDots(s)) == s && forall p | p in SplitDots(s) :: '.' !in p
  {
    if s != "" {
      var r := SplitDots(s[1..]);
      SegmentsJoin(s[1..]);
      assert s == [s[0]] + s[1..];
      if s[0] == '.' {
        assert ([""] + r)[1..] == r;
      } else {
        var parts := [[s[0]] + r[0]] + r[1..];
        assert parts[1..] == r[1..] && r == [r[0]] + r[1..];
        JoinFirst(s[0], r);
      }
    }
  }

  lemma JoinFirst(c: char, r: Path)
    requires r != []
    ensures JoinDots([[c] + r[0]] + r[1..]) == [c] + JoinDots(r)
  {
    var parts := [[c] + r[0]] + r[1..];
    assert parts[1..] == r[1..];
    if |r| > 1 {
      assert [c] + r[0] + "." + JoinDots(r[1..]) == [c] + (r[0] + "." + JoinDots(r[1..]));
    }
  }

  function Decimal(n: nat): string {
    var last := [('0' as int + n % 10) as char];
    if n < 10 then last else Decimal(n / 10) + last
  }

  lemma {:induction false} DecimalValue(n: nat)
    ensures AllDigits(Decimal(n)) && Value(Decimal(n)) == n
  {
    var s := Decimal(n);
    if n >= 10 {
      DecimalValue(n / 10);
      assert s[..|s| - 1] == Decimal(n / 10);
    } else {
      assert s[..0] == "" && Value("") == 0;
    }
  }

  /** Numbers are written in decimal, with a sign or without; those beyond 64 bits are none. */
  lemma NumbersParse(n: nat)
    ensures n <= 9223372036854775807 ==>
      && ParseIndex(Decimal(n)) == Some(n) && ParseIndex("+" + Decimal(n)) == Some(n)
      && ParseIndex("-" + Decimal(n)) == Some(-(n as int))
    ensures n > 9223372036854775807 ==> ParseIndex(Decimal(n)) == None && ParseIndex("+" + Decimal(n)) == None
  {
    DecimalValue(n);
    assert ("+" + Decimal(n))[1..] == Decimal(n) && ("-" + Decimal(n))[1..] == Decimal(n);
    assert !IsDigit("+"[0]) && !IsDigit("-"[0]);
    assert ("+" + Decimal(n))[0] == '+' && ("-" + Decimal(n))[0] == '-';
  }

  /** In a map a segment is a key, and a missing one is added; in an array it is an index that must exist. */
  lemma SegmentsName(m: map<string, Json>, a: seq<Json>, k: string, i: nat, rest: Path, x: Json)
    requires i <= 9223372036854775807
    ensures Put(Obj(m), [k], x) == (Obj(m[k := x]), true)
    ensures i < |a| ==> Put(Arr(a), [Decimal(i)], x) == (Arr(a[i := x]), true)
    ensures i >= |a| ==> Put(Arr(a), [Decimal(i)], x) == (Arr(a), false)
    ensures rest != [] ==>
      var (child, ok) := Put(if k in m then m[k] else Obj(map[]), rest, x);
      Put(Obj(m), [k] + rest, x) == (Obj(m[k := child]), ok)
    ensures rest != [] && i < |a| ==>
      var (child, ok) := Put(a[i], rest, x); Put(Arr(a), [Decimal(i)] + rest, x) == (Arr(a[i := child]), ok)
    ensures k != "" ==> Get(Obj(m), [k] + rest) == Get(if k in m then m[k] else Null, rest)
    ensures i < |a| ==> Get(Arr(a), [Decimal(i)] + rest) == Get(a[i], rest)
    ensures i >= |a| ==> Get(Arr(a), [Decimal(i)] + rest) == Null
    ensures Get(Obj(m), [""] + rest) == Get(Obj(m), rest) && Get(Obj(m), []) == Obj(m)
  {
    assert ([""] + rest)[1..] == rest;
    NumbersParse(i);
    DecimalValue(i);
    assert ([k] + rest)[1..] == rest && ([Decimal(i)] + rest)[1..] == rest;
  }

  /** Below a value that is neither a map nor an array nothing is found and nothing can be written. */
  lemma LeavesHaveNoParts(v: Json, k: string, rest: Path, x: Json)
    requires !v.Obj? && !v.Arr?
    ensures Put(v, [k] + rest, x) == (v, false)
    ensures k != "" ==> Get(v, [k] + rest) == Null
  {
  }

  /** Canonical segments are the decimal numbers of 64 bits and everything that is no such number. */
  lemma CanonicalMeans(s: string, n: nat)
    ensures n <= 9223372036854775807 ==> Canonical(Decimal(n))
    ensures ParseIndex(s) == None ==> Canonical(s)
    ensures ParseIndex(s) == Some(n) ==> (Canonical(s) <==> s == Decimal(n))
  {
    NumbersParse(n);
    DecimalIsCanonical(n);
    if ParseIndex(s) == Some(n) && Canonical(s) {
      NumeralsDiffer(s, Decimal(n));
    }
  }

  lemma {:induction false} DecimalIsCanonical(n: nat)
    ensures AllDigits(Decimal(n)) && (|Decimal(n)| == 1 || Decimal(n)[0] != '0')
    ensures n > 0 ==> Decimal(n)[0] != '0'
  {
    DecimalValue(n);
    if n >= 10 {
      DecimalIsCanonical(n / 10);
    }
  }

  /** Only a sign in front may stand beside the digits, and a sign alone is no number. */
  lemma OthersAreNoNumbers(s: string, i: nat)
    requires i < |s| && !('0' <= s[i] <= '9') && (i > 0 || (s[0] != '+' && s[0] != '-'))
    ensures ParseIndex(s) == None
    ensures ParseIndex("") == ParseIndex("+") == ParseIndex("-") == None
  {
    assert !IsDigit(s[i]);
    assert i > 0 ==> s[1..][i - 1] == s[i];
    assert "+"[1..] == "" && "-"[1..] == "" && !IsDigit("+"[0]) && !IsDigit("-"[0]);
  }
}
