/** White space and letter case. */
module Strings {

  /** unicode.IsSpace. */
  predicate IsSpace(c: char) {
    var n := c as int;
    || 9 <= n <= 13 || n == 32 || n == 0x85 || n == 0xA0 || n == 0x1680
    || 0x2000 <= n <= 0x200a || n == 0x2028 || n == 0x2029 || n == 0x202f || n == 0x205f || n == 0x3000
  }

  function TrimLeft(s: string): string {
    if s != "" && IsSpace(s[0]) then TrimLeft(s[1..]) else s
  }

  function TrimRight(s: string): string {
    if s != "" && IsSpace(s[|s| - 1]) then TrimRight(s[..|s| - 1]) else s
  }

  /** strings.TrimSpace. */
  function Trim(s: string): string {
    TrimRight(TrimLeft(s))
  }

  /** strings.TrimSuffix for a single character. */
  function DropLast(s: string, c: char): string {
    if s != "" && s[|s| - 1] == c then s[..|s| - 1] else s
  }

  function LowerChar(c: char): char {
    if 'A' <= c <= 'Z' then (c as int + 32) as char else c
  }

  function Lower(s: string): string {
    seq(|s|, i requires 0 <= i < |s| => LowerChar(s[i]))
  }

  function Repeat(s: string, k: nat): string {
    if k == 0 then "" else s + Repeat(s, k - 1)
  }

  lemma {:induction false} TrimRightIsPrefix(s: string)
    ensures TrimRight(s) <= s
    ensures TrimRight(s) != "" ==> !IsSpace(TrimRight(s)[|TrimRight(s)| - 1])
    decreases |s|
  {
    if s != "" && IsSpace(s[|s| - 1]) {
      TrimRightIsPrefix(s[..|s| - 1]);
    }
  }

  lemma {:induction false} TrimLeftStarts(s: string)
    ensures TrimLeft(s) != "" ==> !IsSpace(TrimLeft(s)[0])
    ensures |TrimLeft(s)| <= |s|
    decreases |s|
  {
    if s != "" && IsSpace(s[0]) {
      TrimLeftStarts(s[1..]);
    }
  }

  lemma TrimIsIdempotent(s: string)
    ensures Trim(Trim(s)) == Trim(s)
  {
    TrimLeftStarts(s);
    TrimRightIsPrefix(TrimLeft(s));
  }

  lemma TrimIsShorter(s: string)
    ensures |Trim(s)| <= |s|
  {
    TrimLeftStarts(s);
    TrimRightIsPrefix(TrimLeft(s));
  }

  lemma {:induction false} RepeatMembers(s: string, k: nat)
    ensures forall c | c in Repeat(s, k) :: c in s
    ensures |Repeat(s, k)| == k * |s|
  {
    if k > 0 {
      RepeatMembers(s, k - 1);
      assert k * |s| == |s| + (k - 1) * |s|;
    }
  }

  /** Spaces behind a text do not survive trimming. */
  lemma {:induction false} TrimDropsSpaces(s: string, spaces: string)
    requires s == "" || (!IsSpace(s[0]) && !IsSpace(s[|s| - 1]))
    requires forall c | c in spaces :: IsSpace(c)
    ensures Trim(s + spaces) == s
  {
    if s == "" {
      assert s + spaces == spaces;
      AllSpaces(spaces);
    } else {
      assert TrimLeft(s + spaces) == s + spaces;
      TrimRightDrops(s, spaces);
    }
  }

  lemma {:induction false} AllSpaces(s: string)
    requires forall c | c in s :: IsSpace(c)
    ensures TrimLeft(s) == ""
    decreases |s|
  {
    if s != "" {
      assert s[0] in s && forall c | c in s[1..] :: c in s;
      AllSpaces(s[1..]);
    }
  }

  lemma {:induction false} TrimRightDrops(s: string, spaces: string)
    requires s != "" && !IsSpace(s[|s| - 1]) && forall c | c in spaces :: IsSpace(c)
    ensures TrimRight(s + spaces) == s
    decreases |spaces|
  {
    if spaces == "" {
      assert s + spaces == s;
    } else {
      var n := |spaces| - 1;
      assert spaces[n] in spaces && forall c | c in spaces[..n] :: c in spaces;
      assert (s + spaces)[..|s + spaces| - 1] == s + spaces[..n];
      TrimRightDrops(s, spaces[..n]);
    }
  }

  // What trimming and folding do, said without them.

  /** Trimming takes away spaces at both ends and nothing else. */
  lemma TrimIs(s: string) returns (before: string, after: string)
    ensures s == before + Trim(s) + after
    ensures forall c | c in before + after :: IsSpace(c)
    ensures Trim(s) != "" ==> !IsSpace(Trim(s)[0]) && !IsSpace(Trim(s)[|Trim(s)| - 1])
  {
    before := TrimLeftIs(s);
    after := TrimRightIs(TrimLeft(s));
    TrimLeftStarts(s);
    TrimRightIsPrefix(TrimLeft(s));
  }

  lemma {:induction false} TrimLeftIs(s: string) returns (before: string)
    ensures s == before + TrimLeft(s) && forall c | c in before :: IsSpace(c)
    decreases |s|
  {
    before := "";
    if s != "" && IsSpace(s[0]) {
      var more := TrimLeftIs(s[1..]);
      before := [s[0]] + more;
    }
  }

  lemma {:induction false} TrimRightIs(s: string) returns (after: string)
    ensures s == TrimRight(s) + after && forall c | c in after :: IsSpace(c)
    decreases |s|
  {
    after := "";
    if s != "" && IsSpace(s[|s| - 1]) {
      var more := TrimRightIs(s[..|s| - 1]);
      after := more + [s[|s| - 1]];
    }
  }

  /** Among the first 128 characters, tab to carriage return and the blank are spaces. */
  lemma SpacesAre(c: char)
    ensures c as int < 128 ==> (IsSpace(c) <==> c as int in {9, 10, 11, 12, 13, 32})
  {
  }

  lemma LowerIs(s: string)
    ensures |Lower(s)| == |s|
    ensures forall i | 0 <= i < |s| ::
      Lower(s)[i] as int == if 65 <= s[i] as int <= 90 then s[i] as int + 32 else s[i] as int
  {
  }

  lemma DropLastIs(s: string, c: char)
    ensures DropLast(s + [c], c) == s && (s == "" || s[|s| - 1] != c ==> DropLast(s, c) == s)
  {
    assert (s + [c])[..|s|] == s;
  }
}
