/** base64.StdEncoding.DecodeString, with one character for each decoded byte. */
module Base64 {
  import opened Strings
  import opened Wrappers

  function Sextet(c: char): Option<nat> {
    if 'A' <= c <= 'Z' then Some(c as int - 'A' as int)
    else if 'a' <= c <= 'z' then Some(c as int - 'a' as int + 26)
    else if '0' <= c <= '9' then Some(c as int - '0' as int + 52)
    else if c == '+' then Some(62)
    else if c == '/' then Some(63)
    else None
  }

  /** Line breaks are ignored wherever they stand. */
  function OneLine(s: string): string {
    if s == "" then ""
    else (if s[0] == '\r' || s[0] == '\n' then "" else [s[0]]) + OneLine(s[1..])
  }

  function Byte(n: int): char {
    (n % 256) as char
  }

  /** Four characters are three bytes; the last group may be padded to two or one. */
  function Groups(s: string): Option<string> {
    if s == "" then Some("")
    else if |s| < 4 then None
    else
      var a, b, c, d := Sextet(s[0]), Sextet(s[1]), Sextet(s[2]), Sextet(s[3]);
      if a.None? || b.None? then None
      else if c.Some? && d.Some? then
        var bits, rest := ((a.value * 64 + b.value) * 64 + c.value) * 64 + d.value, Groups(s[4..]);
        if rest.None? then None else Some([Byte(bits / 65536), Byte(bits / 256), Byte(bits)] + rest.value)
      else if |s| > 4 || s[3] != '=' then None
      else if c.Some? then
        var bits := (a.value * 64 + b.value) * 64 + c.value;
        Some([Byte(bits / 1024), Byte(bits / 4)])
      else if s[2] == '=' then Some([Byte((a.value * 64 + b.value) / 16)])
      else None
  }

  function Decode(s: string): Option<string> {
    Groups(OneLine(s))
  }

  lemma {:induction false} OneLineConcat(a: string, b: string)
    ensures OneLine(a + b) == OneLine(a) + OneLine(b)
  {
    if a == "" {
      assert a + b == b;
    } else {
      assert (a + b)[0] == a[0] && (a + b)[1..] == a[1..] + b;
      OneLineConcat(a[1..], b);
    }
  }

  lemma {:induction false} BreaksVanish(k: nat)
    ensures OneLine(Repeat("\n", k)) == ""
  {
    if k > 0 {
      OneLineConcat("\n", Repeat("\n", k - 1));
      BreaksVanish(k - 1);
      assert OneLine("\n") == "" by {
        assert "\n"[1..] == "";
      }
    }
  }

  /** Line breaks behind a text do not matter. */
  lemma BreaksDoNotMatter(s: string, k: nat)
    ensures Decode(s + Repeat("\n", k)) == Decode(s)
  {
    OneLineConcat(s, Repeat("\n", k));
    BreaksVanish(k);
    assert OneLine(s) + "" == OneLine(s);
  }

  lemma {:induction false} LettersDecode(k: nat)
    ensures Decode(Repeat("AAAA", k)).Some?
  {
    if k > 0 {
      OneLineConcat("AAAA", Repeat("AAAA", k - 1));
      FourStay("AAAA");
      LettersDecode(k - 1);
      assert ("AAAA" + OneLine(Repeat("AAAA", k - 1)))[4..] == OneLine(Repeat("AAAA", k - 1));
    }
  }

  lemma FourStay(s: string)
    requires |s| == 4 && forall c | c in s :: c != '\r' && c != '\n'
    ensures OneLine(s) == s
  {
    assert s[0] in s && s[1] in s && s[2] in s && s[3] in s;
    assert s[1..][1..] == s[2..] && s[2..][1..] == s[3..] && s[3..][1..] == "";
    assert OneLine(s[3..]) == [s[3]] + OneLine("") == s[3..];
    assert OneLine(s[2..]) == [s[2]] + OneLine(s[3..]) == s[2..];
    assert OneLine(s[1..]) == [s[1]] + OneLine(s[2..]) == s[1..];
    assert OneLine(s) == [s[0]] + OneLine(s[1..]);
  }

  lemma DigitsDecode()
    ensures Decode("1234").Some?
  {
    FourStay("1234");
    assert "1234"[4..] == "";
  }

  // The encoder, and that decoding undoes it.

  function Letter(n: int): char
    requires 0 <= n < 64
  {
    if n < 26 then ('A' as int + n) as char
    else if n < 52 then ('a' as int + n - 26) as char
    else if n < 62 then ('0' as int + n - 52) as char
    else if n == 62 then '+'
    else '/'
  }

  predicate IsBytes(b: string) {
    forall i | 0 <= i < |b| :: b[i] as int < 256
  }

  /** The standard encoding with padding, of bytes kept one in each character. */
  function Encode(b: string): string
    requires IsBytes(b)
  {
    if b == "" then ""
    else
      var x := b[0] as int;
      if |b| == 1 then [Letter(x / 4), Letter(x % 4 * 16), '=', '=']
      else
        var y := b[1] as int;
        if |b| == 2 then [Letter(x / 4), Letter(x % 4 * 16 + y / 16), Letter(y % 16 * 4), '=']
        else
          var z := b[2] as int;
          [Letter(x / 4), Letter(x % 4 * 16 + y / 16), Letter(y % 16 * 4 + z / 64), Letter(z % 64)] + Encode(b[3..])
  }

  lemma LetterIsSextet(n: int)
    requires 0 <= n < 64
    ensures Sextet(Letter(n)) == Some(n) && Letter(n) != '\r' && Letter(n) != '\n' && Letter(n) != '='
  {
  }

  lemma Three(x: int, y: int, z: int)
    requires 0 <= x < 256 && 0 <= y < 256 && 0 <= z < 256
    ensures var bits := (((x / 4) * 64 + (x % 4 * 16 + y / 16)) * 64 + (y % 16 * 4 + z / 64)) * 64 + z % 64;
      bits == (x * 256 + y) * 256 + z && bits / 65536 == x && bits / 256 % 256 == y && bits % 256 == z
  {
  }

  lemma BytesBack(x: int, y: int, z: int)
    requires 0 <= x < 256 && 0 <= y < 256 && 0 <= z < 256
    ensures var bits := (x * 256 + y) * 256 + z;
      Byte(bits / 65536) == x as char && Byte(bits / 256) == y as char && Byte(bits) == z as char
  {
  }

  lemma {:induction false} GroupsUndoEncode(b: string)
    requires IsBytes(b)
    ensures Groups(Encode(b)) == Some(b)
    decreases |b|
  {
    if |b| == 1 {
      LastOne(b);
    } else if |b| == 2 {
      LastTwo(b);
    } else if |b| > 2 {
      GroupsUndoEncode(b[3..]);
      FirstThree(b);
    }
  }

  /** The numbers of the letters for two bytes, and how the bytes come back from them. */
  lemma TwoBytes(b: string) returns (i: int, j: int, k: int)
    requires IsBytes(b) && |b| == 2
    ensures 0 <= i < 64 && 0 <= j < 64 && 0 <= k < 64
    ensures Encode(b) == [Letter(i), Letter(j), Letter(k), '=']
    ensures Byte(((i * 64 + j) * 64 + k) / 1024) == b[0] && Byte(((i * 64 + j) * 64 + k) / 4) == b[1]
  {
    var x, y := b[0] as int, b[1] as int;
    i, j, k := x / 4, x % 4 * 16 + y / 16, y % 16 * 4;
    TwoInNumbers(x, y, i, j, k);
  }

  lemma TwoInNumbers(x: int, y: int, i: int, j: int, k: int)
    requires 0 <= x < 256 && 0 <= y < 256 && i == x / 4 && j == x % 4 * 16 + y / 16 && k == y % 16 * 4
    ensures var bits := (i * 64 + j) * 64 + k; bits / 1024 % 256 == x && bits / 4 % 256 == y
  {
    var bits := (i * 64 + j) * 64 + k;
    assert bits == x * 1024 + y * 4;
    assert bits / 1024 == x && bits / 4 == x * 256 + y;
  }

  lemma OneByte(b: string) returns (i: int, j: int)
    requires IsBytes(b) && |b| == 1
    ensures 0 <= i < 64 && 0 <= j < 64
    ensures Encode(b) == [Letter(i), Letter(j), '=', '=']
    ensures Byte((i * 64 + j) / 16) == b[0]
  {
    var x := b[0] as int;
    i, j := x / 4, x % 4 * 16;
    assert i * 64 + j == x * 16 && x * 16 / 16 == x;
  }

  /** What a group of four characters stands for; each is the letter of a number. */
  lemma PaddedGroups(i: int, j: int, k: int)
    requires 0 <= i < 64 && 0 <= j < 64 && 0 <= k < 64
    ensures Groups([Letter(i), Letter(j), '=', '=']) == Some([Byte((i * 64 + j) / 16)])
    ensures Groups([Letter(i), Letter(j), Letter(k), '=']) ==
      Some([Byte(((i * 64 + j) * 64 + k) / 1024), Byte(((i * 64 + j) * 64 + k) / 4)])
  {
    LetterIsSextet(i);
    LetterIsSextet(j);
    LetterIsSextet(k);
    assert Sextet('=').None?;
  }

  lemma FullGroup(i: int, j: int, k: int, l: int, rest: string)
    requires 0 <= i < 64 && 0 <= j < 64 && 0 <= k < 64 && 0 <= l < 64 && Groups(rest).Some?
    ensures var bits := ((i * 64 + j) * 64 + k) * 64 + l;
      Groups([Letter(i), Letter(j), Letter(k), Letter(l)] + rest) ==
        Some([Byte(bits / 65536), Byte(bits / 256), Byte(bits)] + Groups(rest).value)
  {
    LetterIsSextet(i);
    LetterIsSextet(j);
    LetterIsSextet(k);
    LetterIsSextet(l);
    assert ([Letter(i), Letter(j), Letter(k), Letter(l)] + rest)[4..] == rest;
  }

  lemma LastOne(b: string)
    requires IsBytes(b) && |b| == 1
    ensures Groups(Encode(b)) == Some(b)
  {
    var i, j := OneByte(b);
    PaddedGroups(i, j, 0);
    assert b == [b[0]];
  }

  lemma LastTwo(b: string)
    requires IsBytes(b) && |b| == 2
    ensures Groups(Encode(b)) == Some(b)
  {
    var i, j, k := TwoBytes(b);
    PaddedGroups(i, j, k);
    assert b == [b[0], b[1]];
  }

  lemma {:induction false} FirstThree(b: string)
    requires IsBytes(b) && |b| > 2 && Groups(Encode(b[3..])) == Some(b[3..])
    ensures Groups(Encode(b)) == Some(b)
  {
    var x, y, z := b[0] as int, b[1] as int, b[2] as int;
    var i, j, k, l := x / 4, x % 4 * 16 + y / 16, y % 16 * 4 + z / 64, z % 64;
    FullGroup(i, j, k, l, Encode(b[3..]));
    Three(x, y, z);
    BytesBack(x, y, z);
    assert b == [x as char, y as char, z as char] + b[3..];
    assert Encode(b) == [Letter(i), Letter(j), Letter(k), Letter(l)] + Encode(b[3..]);
  }

  lemma {:induction false} NoBreaks(s: string)
    requires forall i | 0 <= i < |s| :: s[i] != '\r' && s[i] != '\n'
    ensures OneLine(s) == s
  {
    if s != "" {
      NoBreaks(s[1..]);
      assert s == [s[0]] + s[1..];
    }
  }

  lemma {:induction false} EncodingHasNoBreaks(b: string)
    requires IsBytes(b)
    ensures forall i | 0 <= i < |Encode(b)| :: Encode(b)[i] != '\r' && Encode(b)[i] != '\n'
    decreases |b|
  {
    if |b| > 2 {
      EncodingHasNoBreaks(b[3..]);
    }
  }

  /** Decoding undoes encoding, also with line breaks behind the text. */
  lemma DecodeUndoesEncode(b: string, k: nat)
    requires IsBytes(b)
    ensures Decode(Encode(b) + Repeat("\n", k)) == Decode(Encode(b)) == Some(b)
  {
    EncodingHasNoBreaks(b);
    NoBreaks(Encode(b));
    GroupsUndoEncode(b);
    BreaksDoNotMatter(Encode(b), k);
  }

  /** A text whose length is no multiple of four, breaks aside, is refused. */
  lemma {:induction false} OddLengthsAreRefused(s: string)
    requires |s| % 4 != 0
    ensures Groups(s).None?
  {
    if |s| >= 4 {
      OddLengthsAreRefused(s[4..]);
    }
  }

  predicate FourLetters(s: string)
    requires |s| >= 4
  {
    Sextet(s[0]).Some? && Sextet(s[1]).Some? && Sextet(s[2]).Some? && Sextet(s[3]).Some?
  }

  lemma GroupsGoOn(s: string)
    requires |s| > 4
    ensures Groups(s).Some? <==> FourLetters(s) && Groups(s[4..]).Some?
  {
  }

  lemma GroupedGoesOn(s: string)
    requires |s| > 4
    ensures Grouped(s) <==> FourLetters(s) && Grouped(s[4..])
  {
    var rest := s[4..];
    assert |s| % 4 == |rest| % 4;
    assert forall i | 0 <= i < |rest| :: rest[i] == s[i + 4];
    if FourLetters(s) && Grouped(rest) {
      forall i | 0 <= i < |s| - 2
        ensures Sextet(s[i]).Some?
      {
        assert i >= 4 ==> Sextet(rest[i - 4]).Some?;
      }
    }
  }

  /** A text decodes exactly if it is groups of four letters, of which the last may end in one or two `=`. */
  lemma {:induction false} DecodesExactly(s: string)
    ensures Groups(s).Some? <==> Grouped(s)
    decreases |s|
  {
    if |s| > 4 {
      DecodesExactly(s[4..]);
      GroupsGoOn(s);
      GroupedGoesOn(s);
    }
  }

  predicate Grouped(s: string) {
    s != "" ==>
      && |s| % 4 == 0 && (forall i | 0 <= i < |s| - 2 :: Sextet(s[i]).Some?)
      && (Sextet(s[|s| - 1]).Some? || s[|s| - 1] == '=')
      && (Sextet(s[|s| - 2]).Some? || (s[|s| - 2] == '=' && s[|s| - 1] == '='))
  }
}
