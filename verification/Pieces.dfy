/** strings.Split and strings.SplitN, and what a limit takes away. */
module Pieces {
  import opened Wrappers

  /** strings.Index: the first occurrence of a separator that is not empty. */
  function Find(s: string, sep: string): (m: Option<nat>)
    requires sep != ""
    ensures m.Some? ==> m.value + |sep| <= |s|
    decreases |s|
  {
    if |s| < |sep| then None
    else if s[..|sep|] == sep then Some(0)
    else
      var m := Find(s[1..], sep);
      if m.Some? then Some(m.value + 1) else None
  }

  /** No piece is left, the last one, or a first one with what stands behind it and where the next begins. */
  datatype Head = Nothing | Last | First(piece: string, rest: string, next: string)

  /** An empty separator cuts between all characters. */
  function HeadOf(s: string, sep: string): (h: Head)
    ensures h.First? ==> s == h.piece + h.rest && |h.next| < |s| && |h.next| <= |h.rest|
  {
    if sep == "" then if s == "" then Nothing else First([s[0]], s[1..], s[1..])
    else
      var m := Find(s, sep);
      if m.None? then Last else First(s[..m.value], s[m.value..], s[m.value + |sep|..])
  }

  /** strings.Split. */
  function Cut(s: string, sep: string): seq<string>
    decreases |s|
  {
    match HeadOf(s, sep)
    case Nothing => []
    case Last => [s]
    case First(piece, _, next) => [piece] + Cut(next, sep)
  }

  /** strings.SplitN with a positive limit: the last piece is what is left. */
  function CutN(s: string, sep: string, n: nat): seq<string>
    requires n > 0
    decreases |s|
  {
    match HeadOf(s, sep)
    case Nothing => []
    case Last => [s]
    case First(piece, _, next) => if n == 1 then [s] else [piece] + CutN(next, sep, n - 1)
  }

  /** splitTemplatePart. */
  function Part(val: string, index: int, delim: string, limit: int): string {
    At(if limit > 0 then CutN(val, delim, limit) else Cut(val, delim), index)
  }

  function At(parts: seq<string>, index: int): string {
    if index < 0 || index >= |parts| then "" else parts[index]
  }

  /** What stands behind the n-th piece, from the separator on. */
  function After(s: string, sep: string, n: nat): string
    requires n > 0
    decreases |s|
  {
    match HeadOf(s, sep)
    case Nothing => ""
    case Last => ""
    case First(_, rest, next) => if n == 1 then rest else After(next, sep, n - 1)
  }

  /** A limit leaves the earlier pieces alone and gives the last one everything behind it. */
  lemma {:induction false} LimitKeepsRest(s: string, sep: string, n: nat)
    requires n > 0
    ensures Limited(Cut(s, sep), CutN(s, sep, n), After(s, sep, n), n)
    decreases |s|
  {
    var h := HeadOf(s, sep);
    if h.First? {
      if n > 1 {
        LimitKeepsRest(h.next, sep, n - 1);
        LimitedFurther(h.piece, Cut(h.next, sep), CutN(h.next, sep, n - 1), After(h.next, sep, n - 1), n - 1);
      } else {
        LimitedAtOnce(h.piece, Cut(h.next, sep), h.rest);
      }
    }
  }

  predicate Limited(all: seq<string>, some: seq<string>, rest: string, n: nat)
    requires n > 0
  {
    if |all| < n then some == all && rest == ""
    else if |all| == n && rest == "" then some == all
    else some == all[..n - 1] + [all[n - 1] + rest]
  }

  lemma LimitedAtOnce(piece: string, others: seq<string>, rest: string)
    ensures Limited([piece] + others, [piece + rest], rest, 1)
  {
    assert piece + "" == piece;
  }

  lemma LimitedFurther(piece: string, all: seq<string>, some: seq<string>, rest: string, n: nat)
    requires n > 0 && Limited(all, some, rest, n)
    ensures Limited([piece] + all, [piece] + some, rest, n + 1)
  {
    if |all| >= n {
      assert ([piece] + all)[..n] == [piece] + all[..n - 1] && ([piece] + all)[n] == all[n - 1];
    }
  }

  /** The limit is the piece's own position, and the text `t` is all that stands behind the piece. */
  predicate CutsOff(val: string, delim: string, index: int, limit: int, t: string) {
    limit > 0 && limit == index + 1 && After(val, delim, limit) == t
  }

  /** A piece with a text behind it is the piece with a limit exactly if the limit hands it that text. */
  lemma LimitedPart(val: string, delim: string, index: int, limit: int, t: string)
    requires t != ""
    ensures Part(val, index, delim, limit) == Part(val, index, delim, 0) + t <==>
      CutsOff(val, delim, index, limit, t)
    ensures limit <= 0 || limit != index + 1 || After(val, delim, limit) == "" ==>
      |Part(val, index, delim, limit)| < |Part(val, index, delim, 0) + t|
  {
    var piece := Part(val, index, delim, 0);
    assert |piece + t| > |piece|;
    if limit > 0 {
      SamePrefix(piece, After(val, delim, limit), t);
      LimitKeepsRest(val, delim, limit);
      LimitedAt(Cut(val, delim), CutN(val, delim, limit), After(val, delim, limit), limit, index);
    }
  }

  lemma SamePrefix(piece: string, a: string, b: string)
    ensures piece + a == piece + b <==> a == b
  {
    assert (piece + a)[|piece|..] == a && (piece + b)[|piece|..] == b;
  }

  lemma LimitedAt(all: seq<string>, some: seq<string>, rest: string, n: nat, index: int)
    requires n > 0 && Limited(all, some, rest, n)
    ensures At(some, index) ==
      if index + 1 < n then At(all, index) else if index + 1 == n then At(all, index) + rest else ""
  {
    if index + 1 == n {
      assert At(all, index) + "" == At(all, index);
    }
  }

  /** It is an end of the text. */
  lemma {:induction false} AfterIsSuffix(s: string, sep: string, n: nat)
    requires n > 0
    ensures SameEnd(After(s, sep, n), s)
    decreases |s|
  {
    match HeadOf(s, sep)
    case Nothing =>
    case Last =>
    case First(piece, rest, next) =>
      SameEnds(s, sep, First(piece, rest, next));
      if n > 1 {
        var r := After(next, sep, n - 1);
        AfterIsSuffix(next, sep, n - 1);
        SameEndChain(r, next, s);
        assert After(s, sep, n) == r;
      }
  }

  lemma SameEndChain(a: string, b: string, s: string)
    requires SameEnd(a, b) && SameEnd(b, s)
    ensures SameEnd(a, s)
  {
  }

  /** The first text is empty, or ends with the last character of the second. */
  predicate SameEnd(a: string, s: string) {
    a == "" || (s != "" && a[|a| - 1] == s[|s| - 1])
  }

  lemma SameEnds(s: string, sep: string, h: Head)
    requires h == HeadOf(s, sep) && h.First?
    ensures SameEnd(h.rest, s) && SameEnd(h.next, s)
  {
  }

  /** A separator that is longer than the text does not occur in it. */
  lemma LongSeparator(s: string, sep: string, n: nat)
    requires n > 0 && |sep| > |s|
    ensures After(s, sep, n) == ""
  {
  }

  // What the pieces are: the parts between all separators, and nothing else.

  predicate OccursAt(s: string, sep: string, j: int) {
    0 <= j && j + |sep| <= |s| && s[j..j + |sep|] == sep
  }

  /** The first occurrence is an occurrence, and there is none before it. */
  lemma {:induction false} FindIsFirst(s: string, sep: string)
    requires sep != ""
    ensures Find(s, sep).Some? ==>
      OccursAt(s, sep, Find(s, sep).value) && forall j | 0 <= j < Find(s, sep).value :: !OccursAt(s, sep, j)
    ensures Find(s, sep).None? ==> forall j :: !OccursAt(s, sep, j)
    decreases |s|
  {
    if |s| >= |sep| && s[..|sep|] != sep {
      var m := Find(s[1..], sep);
      FindIsFirst(s[1..], sep);
      forall j | 0 < j ensures OccursAt(s, sep, j) <==> OccursAt(s[1..], sep, j - 1) {
        OccursLater(s, sep, j);
      }
      if m.Some? {
        forall j | 0 <= j < m.value + 1 ensures !OccursAt(s, sep, j) {
          assert j > 0 ==> !OccursAt(s[1..], sep, j - 1);
        }
      } else {
        forall j ensures !OccursAt(s, sep, j) {
          assert !OccursAt(s[1..], sep, j - 1);
        }
      }
    }
  }

  lemma OccursLater(s: string, sep: string, j: int)
    requires s != "" && 0 < j
    ensures OccursAt(s, sep, j) <==> OccursAt(s[1..], sep, j - 1)
  {
    if j + |sep| <= |s| {
      assert s[j..j + |sep|] == s[1..][j - 1..j - 1 + |sep|];
    }
  }

  function JoinWith(parts: seq<string>, sep: string): string {
    if parts == [] then ""
    else if |parts| == 1 then parts[0]
    else parts[0] + sep + JoinWith(parts[1..], sep)
  }

  /** Put together with the separator, the pieces are the text. */
  lemma {:induction false} PiecesJoin(s: string, sep: string)
    ensures JoinWith(Cut(s, sep), sep) == s
    ensures sep != "" || s != "" ==> Cut(s, sep) != []
    decreases |s|
  {
    match HeadOf(s, sep)
    case Nothing =>
    case Last =>
    case First(piece, rest, next) =>
      PiecesJoin(next, sep);
      HeadIs(s, sep, piece, rest, next);
      var more := Cut(next, sep);
      assert ([piece] + more)[1..] == more;
      if more == [] {
        assert next == "";
      }
  }

  lemma HeadIs(s: string, sep: string, piece: string, rest: string, next: string)
    requires HeadOf(s, sep) == First(piece, rest, next)
    ensures s == piece + sep + next
  {
    if sep == "" {
      assert s == [s[0]] + "" + s[1..];
    } else {
      FindIsFirst(s, sep);
      var m := Find(s, sep).value;
      assert s == s[..m] + s[m..m + |sep|] + s[m + |sep|..];
    }
  }

  /** No piece holds the separator; with an empty one each is a single character. */
  lemma {:induction false} PiecesAreFree(s: string, sep: string)
    ensures forall p | p in Cut(s, sep) :: if sep == "" then |p| == 1 else forall j :: !OccursAt(p, sep, j)
    decreases |s|
  {
    match HeadOf(s, sep)
    case Nothing =>
    case Last =>
      FindIsFirst(s, sep);
    case First(piece, _, next) =>
      PiecesAreFree(next, sep);
      if sep != "" {
        FirstIsFree(s, sep, piece);
      }
  }

  lemma FirstIsFree(s: string, sep: string, piece: string)
    requires sep != "" && Find(s, sep).Some? && piece == s[..Find(s, sep).value]
    ensures forall j :: !OccursAt(piece, sep, j)
  {
    FindIsFirst(s, sep);
    forall j ensures !OccursAt(piece, sep, j) {
      if OccursAt(piece, sep, j) {
        assert piece[j..j + |sep|] == s[j..j + |sep|];
        assert OccursAt(s, sep, j);
      }
    }
  }
}
