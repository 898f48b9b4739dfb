/** extractOutermostJSONObject: counting braces outside strings. */
module BraceScanner {
  // The scanner's input is any text with a JSON object in it; JSON texts are given by their concrete
  // syntax (RFC 8259, sections 2 to 7), with all whitespace and every way to write a string.

  /** What the scanner knows after a prefix of its input; `start` is -1 before the first brace. */
  datatype State = State(start: int, depth: nat, inString: bool, escape: bool)

  const IDLE := State(-1, 0, false, false)

  /** One character at position `i`; the flag says that an object has just been closed. */
  function Scan(st: State, c: char, i: int): (State, bool) {
    if st.inString then
      if st.escape then (st.(escape := false), false)
      else if c == '\\' then (st.(escape := true), false)
      else if c == '"' then (st.(inString := false), false)
      else (st, false)
    else if c == '"' then (st.(inString := true), false)
    else if c == '{' then (st.(start := if st.depth == 0 then i else st.start, depth := st.depth + 1), false)
    else if c == '}' && st.depth > 0 then
      (st.(depth := st.depth - 1), st.depth == 1 && st.start >= 0)
    else (st, false)
  }

  datatype Result = Running(st: State) | Closed(from: int, to: int)

  /** The scanner over a text that starts at position `i`. */
  function ScanAll(st: State, s: string, i: int): Result
    decreases |s|
  {
    if s == "" then Running(st)
    else
      var (next, closed) := Scan(st, s[0], i);
      if closed then Closed(next.start, i + 1) else ScanAll(next, s[1..], i + 1)
  }

  method ExtractOutermostJsonObject(s: string) returns (r: string)
    ensures ScanAll(IDLE, s, 0).Running? ==> r == ""
    ensures ScanAll(IDLE, s, 0).Closed? ==>
      var found := ScanAll(IDLE, s, 0);
      0 <= found.from < found.to <= |s| && r == s[found.from..found.to]
  {
    var start, depth, inString, escape := -1, 0, false, false;
    for i := 0 to |s|
      invariant -1 <= start < i || start == -1
      invariant depth >= 0 && (depth > 0 ==> start >= 0)
      invariant ScanAll(IDLE, s, 0) == ScanAll(State(start, depth, inString, escape), s[i..], i)
    {
      var c := s[i];
      assert s[i..][0] == c && s[i..][1..] == s[i + 1..];
      if inString {
        if escape {
          escape := false;
          continue;
        }
        if c == '\\' {
          escape := true;
          continue;
        }
        if c == '"' {
          inString := false;
        }
        continue;
      }
      if c == '"' {
        inString := true;
      } else if c == '{' {
        if depth == 0 {
          start := i;
        }
        depth := depth + 1;
      } else if c == '}' {
        if depth > 0 {
          depth := depth - 1;
          if depth == 0 && start >= 0 {
            return s[start..i + 1];
          }
        }
      }
    }
    return "";
  }

  // Concrete syntax of JSON texts.

  datatype StringChar = Plain(c: char) | Escaped(c: char)

  /** A value with all its whitespace: `pad` fields stand before and after the parts they name. */
  datatype Text =
    | Scalar(chars: string)
    | Quoted(content: seq<StringChar>)
    | ArrayOf(items: Items)
    | ObjectOf(members: Members)

  datatype Items = NoItems(pad: string) | Item(before: string, value: Text, after: string, rest: Items)

  datatype Members =
    | NoMembers(pad: string)
    | Member(before: string, key: seq<StringChar>, afterKey: string, beforeValue: string, value: Text,
             after: string, rest: Members)

  /** Characters that mean nothing to the scanner outside a string. */
  predicate Neutral(s: string) {
    forall i | 0 <= i < |s| :: s[i] != '"' && s[i] != '{' && s[i] != '}'
  }

  /** Plain characters exclude the quote and the backslash; an escape may be followed by anything. */
  predicate WellQuoted(content: seq<StringChar>) {
    forall i | 0 <= i < |content| :: content[i].Plain? ==> content[i].c != '"' && content[i].c != '\\'
  }

  predicate WellFormed(t: Text) {
    match t
    case Scalar(chars) => Neutral(chars)
    case Quoted(content) => WellQuoted(content)
    case ArrayOf(items) => WellFormedItems(items)
    case ObjectOf(members) => WellFormedMembers(members)
  }

  predicate WellFormedItems(items: Items) {
    match items
    case NoItems(pad) => Neutral(pad)
    case Item(before, value, after, rest) =>
      Neutral(before) && WellFormed(value) && Neutral(after) && WellFormedItems(rest)
  }

  predicate WellFormedMembers(members: Members) {
    match members
    case NoMembers(pad) => Neutral(pad)
    case Member(before, key, afterKey, beforeValue, value, after, rest) =>
      && Neutral(before) && WellQuoted(key) && Neutral(afterKey) && Neutral(beforeValue)
      && WellFormed(value) && Neutral(after) && WellFormedMembers(rest)
  }

  function PrintContent(content: seq<StringChar>): string {
    if content == [] then ""
    else (if content[0].Plain? then [content[0].c] else ['\\', content[0].c]) + PrintContent(content[1..])
  }

  function PrintString(content: seq<StringChar>): string {
    "\"" + PrintContent(content) + "\""
  }

  function Print(t: Text): string {
    match t
    case Scalar(chars) => chars
    case Quoted(content) => PrintString(content)
    case ArrayOf(items) => "[" + PrintItems(items) + "]"
    case ObjectOf(members) => "{" + PrintMembers(members) + "}"
  }

  function PrintItems(items: Items): string {
    match items
    case NoItems(pad) => pad
    case Item(before, value, after, rest) =>
      before + Print(value) + after + (if rest.Item? then "," else "") + PrintItems(rest)
  }

  function PrintMembers(members: Members): string {
    match members
    case NoMembers(pad) => pad
    case Member(before, key, afterKey, beforeValue, value, after, rest) =>
      before + PrintString(key) + afterKey + ":" + beforeValue + Print(value) + after +
      (if rest.Member? then "," else "") + PrintMembers(rest)
  }

  // What the scanner does on each piece.

  predicate Outside(st: State) {
    !st.inString && !st.escape
  }

  /** The text leaves the scanner, started between tokens at depth at least one, where it was. */
  ghost predicate Transparent(s: string) {
    forall st: State, i: int, rest: string | Outside(st) && st.depth > 0 ::
      ScanAll(st, s + rest, i) == ScanAll(st, rest, i + |s|)
  }

  lemma {:induction false} NeutralPasses(s: string, st: State, i: int, rest: string)
    requires Neutral(s) && Outside(st)
    ensures ScanAll(st, s + rest, i) == ScanAll(st, rest, i + |s|)
    decreases |s|
  {
    if s == "" {
      assert s + rest == rest;
    } else {
      assert (s + rest)[1..] == s[1..] + rest;
      NeutralPasses(s[1..], st, i + 1, rest);
    }
  }

  lemma {:induction false} ContentPasses(content: seq<StringChar>, st: State, i: int, rest: string)
    requires WellQuoted(content) && st.inString && !st.escape
    ensures ScanAll(st, PrintContent(content) + rest, i) == ScanAll(st, rest, i + |PrintContent(content)|)
    decreases |content|
  {
    var s := PrintContent(content);
    if content == [] {
      assert s + rest == rest;
    } else {
      var tail := PrintContent(content[1..]);
      if content[0].Plain? {
        assert s + rest == [content[0].c] + (tail + rest);
        assert (s + rest)[1..] == tail + rest;
        ContentPasses(content[1..], st, i + 1, rest);
      } else {
        assert s + rest == ['\\', content[0].c] + (tail + rest);
        assert (s + rest)[1..] == [content[0].c] + (tail + rest);
        assert (s + rest)[1..][1..] == tail + rest;
        ContentPasses(content[1..], st, i + 2, rest);
      }
    }
  }

  lemma StringPasses(content: seq<StringChar>, st: State, i: int, rest: string)
    requires WellQuoted(content) && Outside(st)
    ensures ScanAll(st, PrintString(content) + rest, i) == ScanAll(st, rest, i + |PrintString(content)|)
  {
    var inner := PrintContent(content);
    var s := PrintString(content) + rest;
    assert s[1..] == inner + ("\"" + rest);
    ContentPasses(content, st.(inString := true), i + 1, "\"" + rest);
    assert ("\"" + rest)[1..] == rest;
  }

  lemma NeutralTransparent(s: string)
    requires Neutral(s)
    ensures Transparent(s)
  {
    forall st: State, i: int, rest: string | Outside(st) && st.depth > 0
      ensures ScanAll(st, s + rest, i) == ScanAll(st, rest, i + |s|)
    {
      NeutralPasses(s, st, i, rest);
    }
  }

  lemma StringTransparent(content: seq<StringChar>)
    requires WellQuoted(content)
    ensures Transparent(PrintString(content))
  {
    var s := PrintString(content);
    forall st: State, i: int, rest: string | Outside(st) && st.depth > 0
      ensures ScanAll(st, s + rest, i) == ScanAll(st, rest, i + |s|)
    {
      StringPasses(content, st, i, rest);
    }
  }

  lemma ConcatTransparent(a: string, b: string)
    requires Transparent(a) && Transparent(b)
    ensures Transparent(a + b)
  {
    forall st: State, i: int, rest: string | Outside(st) && st.depth > 0
      ensures ScanAll(st, a + b + rest, i) == ScanAll(st, rest, i + |a + b|)
    {
      assert a + b + rest == a + (b + rest);
    }
  }

  /** A closed pair of braces deeper inside brings the scanner back to where it was. */
  lemma BracesTransparent(a: string)
    requires Transparent(a)
    ensures Transparent("{" + a + "}")
  {
    var s := "{" + a + "}";
    forall st: State, i: int, rest: string | Outside(st) && st.depth > 0
      ensures ScanAll(st, s + rest, i) == ScanAll(st, rest, i + |s|)
    {
      var inner := st.(depth := st.depth + 1);
      assert (s + rest)[1..] == a + ("}" + rest);
      assert ScanAll(st, s + rest, i) == ScanAll(inner, a + ("}" + rest), i + 1);
      assert ("}" + rest)[1..] == rest;
    }
  }

  lemma {:induction false} ValueTransparent(t: Text)
    requires WellFormed(t)
    ensures Transparent(Print(t))
  {
    match t {
      case Scalar(chars) => NeutralTransparent(chars);
      case Quoted(content) => StringTransparent(content);
      case ArrayOf(items) =>
        ItemsTransparent(items);
        NeutralTransparent("[");
        NeutralTransparent("]");
        ConcatTransparent("[", PrintItems(items));
        ConcatTransparent("[" + PrintItems(items), "]");
      case ObjectOf(members) =>
        MembersTransparent(members);
        BracesTransparent(PrintMembers(members));
    }
  }

  lemma {:induction false} ItemsTransparent(items: Items)
    requires WellFormedItems(items)
    ensures Transparent(PrintItems(items))
  {
    match items {
      case NoItems(pad) => NeutralTransparent(pad);
      case Item(before, value, after, rest) =>
        var comma := if rest.Item? then "," else "";
        NeutralTransparent(before);
        ValueTransparent(value);
        NeutralTransparent(after);
        NeutralTransparent(comma);
        ItemsTransparent(rest);
        ConcatTransparent(before, Print(value));
        ConcatTransparent(before + Print(value), after);
        ConcatTransparent(before + Print(value) + after, comma);
        ConcatTransparent(before + Print(value) + after + comma, PrintItems(rest));
    }
  }

  lemma {:induction false} MembersTransparent(members: Members)
    requires WellFormedMembers(members)
    ensures Transparent(PrintMembers(members))
  {
    match members {
      case NoMembers(pad) => NeutralTransparent(pad);
      case Member(before, key, afterKey, beforeValue, value, after, rest) =>
        var comma := if rest.Member? then "," else "";
        NeutralTransparent(before);
        StringTransparent(key);
        NeutralTransparent(afterKey);
        NeutralTransparent(":");
        NeutralTransparent(beforeValue);
        ValueTransparent(value);
        NeutralTransparent(after);
        NeutralTransparent(comma);
        MembersTransparent(rest);
        var a := before + PrintString(key) + afterKey + ":" + beforeValue;
        ConcatTransparent(before, PrintString(key));
        ConcatTransparent(before + PrintString(key), afterKey);
        ConcatTransparent(before + PrintString(key) + afterKey, ":");
        ConcatTransparent(before + PrintString(key) + afterKey + ":", beforeValue);
        ConcatTransparent(a, Print(value));
        ConcatTransparent(a + Print(value), after);
        ConcatTransparent(a + Print(value) + after, comma);
        ConcatTransparent(a + Print(value) + after + comma, PrintMembers(rest));
    }
  }

  /** A prefix after which the scanner is between tokens at depth zero. */
  ghost predicate LeavesIdle(prefix: string) {
    ScanAll(IDLE, prefix, 0).Running? &&
    var st := ScanAll(IDLE, prefix, 0).st;
    Outside(st) && st.depth == 0
  }

  lemma {:induction false} ScanSplits(st: State, a: string, b: string, i: int)
    ensures ScanAll(st, a + b, i) ==
      match ScanAll(st, a, i)
      case Closed(from, to) => Closed(from, to)
      case Running(next) => ScanAll(next, b, i + |a|)
    decreases |a|
  {
    if a == "" {
      assert a + b == b;
    } else {
      assert (a + b)[1..] == a[1..] + b;
      var (next, closed) := Scan(st, a[0], i);
      if !closed {
        ScanSplits(next, a[1..], b, i + 1);
      }
    }
  }

  lemma ObjectIsFound(prefix: string, members: Members, suffix: string)
    requires LeavesIdle(prefix) && WellFormedMembers(members)
    ensures var obj := Print(ObjectOf(members));
      ScanAll(IDLE, prefix + obj + suffix, 0) == Closed(|prefix|, |prefix| + |obj|)
  {
    var inner := PrintMembers(members);
    var obj := Print(ObjectOf(members));
    var st, n := ScanAll(IDLE, prefix, 0).st, |prefix|;
    assert prefix + obj + suffix == prefix + (obj + suffix);
    ScanSplits(IDLE, prefix, obj + suffix, 0);
    var open := st.(start := n, depth := 1);
    assert (obj + suffix)[1..] == inner + ("}" + suffix);
    assert ScanAll(st, obj + suffix, n) == ScanAll(open, inner + ("}" + suffix), n + 1);
    MembersTransparent(members);
    assert ScanAll(open, inner + ("}" + suffix), n + 1) == ScanAll(open, "}" + suffix, n + 1 + |inner|);
  }

  lemma {:induction false} NeutralLeavesIdle(prefix: string)
    requires forall i | 0 <= i < |prefix| :: prefix[i] != '"' && prefix[i] != '{'
    ensures LeavesIdle(prefix)
  {
    ClosingPasses(prefix, 0);
  }

  lemma {:induction false} ClosingPasses(s: string, i: int)
    requires forall j | 0 <= j < |s| :: s[j] != '"' && s[j] != '{'
    ensures ScanAll(IDLE, s, i) == Running(IDLE)
    decreases |s|
  {
    if s != "" {
      ClosingPasses(s[1..], i + 1);
    }
  }

  /**
   Any printed object between a prefix without a quote or an opening brace and any suffix is
   what the scan delimits, to the character.
   */
  lemma ScannerRecoversObject(prefix: string, members: Members, suffix: string)
    requires WellFormedMembers(members)
    requires forall i | 0 <= i < |prefix| :: prefix[i] != '"' && prefix[i] != '{'
    ensures var obj := Print(ObjectOf(members));
      var s := prefix + obj + suffix;
      && ScanAll(IDLE, s, 0) == Closed(|prefix|, |prefix| + |obj|)
      && s[|prefix|..|prefix| + |obj|] == obj
  {
    NeutralLeavesIdle(prefix);
    ObjectIsFound(prefix, members, suffix);
  }

  lemma {:induction false} StartStaysBelow(st: State, s: string, i: int)
    requires st.start < i
    ensures ScanAll(st, s, i).Running? ==> ScanAll(st, s, i).st.start < i + |s|
    ensures ScanAll(st, s, i).Closed? ==> ScanAll(st, s, i).from < ScanAll(st, s, i).to <= i + |s|
    decreases |s|
  {
    if s != "" {
      var (next, closed) := Scan(st, s[0], i);
      if !closed {
        StartStaysBelow(next, s[1..], i + 1);
      }
    }
  }

  lemma {:induction false} EscapeIsInString(st: State, s: string, i: int)
    requires st.escape ==> st.inString
    ensures ScanAll(st, s, i).Running? && ScanAll(st, s, i).st.escape ==> ScanAll(st, s, i).st.inString
    decreases |s|
  {
    if s != "" {
      var (next, closed) := Scan(st, s[0], i);
      if !closed {
        EscapeIsInString(next, s[1..], i + 1);
      }
    }
  }

  /** A position already passed and not recorded as the start never becomes the start. */
  lemma {:induction false} StartAvoids(st: State, s: string, i: int, n: int)
    requires st.start != n && n < i
    ensures ScanAll(st, s, i).Closed? ==> ScanAll(st, s, i).from != n
    decreases |s|
  {
    if s != "" {
      var (next, closed) := Scan(st, s[0], i);
      if !closed {
        StartAvoids(next, s[1..], i + 1, n);
      }
    }
  }

  /**
  The condition on the prefix is exact: for every well-formed object and every suffix, the scan
  delimits that object if and only if the prefix leaves the scanner between tokens at depth zero.
  */
  lemma PrefixConditionIsExact(prefix: string, members: Members, suffix: string)
    requires WellFormedMembers(members)
    ensures var obj := Print(ObjectOf(members));
      ScanAll(IDLE, prefix + obj + suffix, 0) == Closed(|prefix|, |prefix| + |obj|) <==> LeavesIdle(prefix)
  {
    var obj := Print(ObjectOf(members));
    var n, b := |prefix|, obj + suffix;
    if LeavesIdle(prefix) {
      ObjectIsFound(prefix, members, suffix);
    } else {
      assert prefix + obj + suffix == prefix + b;
      ScanSplits(IDLE, prefix, b, 0);
      StartStaysBelow(IDLE, prefix, 0);
      EscapeIsInString(IDLE, prefix, 0);
      if ScanAll(IDLE, prefix, 0).Running? {
        var st := ScanAll(IDLE, prefix, 0).st;
        assert b[0] == '{';
        StartAvoids(Scan(st, b[0], n).0, b[1..], n + 1, n);
      }
    }
  }
}
