/** splitTemplateArgs: cutting the inside of a placeholder into arguments. */
module TemplateArgs {
  // Arguments are cut at blanks that stand outside quotes; joining any run of arguments with single
  // spaces and cutting again gives the run back.

  /** The splitter's `inQuote` value outside quotes: the zero rune. */
  const OPEN: char := '\0'

  predicate IsQuote(c: char) {
    c == '"' || c == '\''
  }

  predicate IsBlank(c: char) {
    c == ' ' || c == '\t'
  }

  /** The quote that is open after character `c`, when `quote` was open and `cur` is the argument so far. */
  function NextQuote(quote: char, cur: string, c: char): char {
    if quote != OPEN then
      if c == quote && !(cur != "" && cur[|cur| - 1] == '\\') then OPEN else quote
    else if IsQuote(c) then c
    else OPEN
  }

  function Flush(cur: string): seq<string> {
    if cur == "" then [] else [cur]
  }

  /** The arguments of the rest of a text, in the middle of argument `cur`. */
  function SplitFrom(quote: char, cur: string, s: string): seq<string>
    decreases |s|
  {
    if s == "" then Flush(cur)
    else if quote == OPEN && IsBlank(s[0]) then Flush(cur) + SplitFrom(OPEN, "", s[1..])
    else SplitFrom(NextQuote(quote, cur, s[0]), cur + [s[0]], s[1..])
  }

  function Split(s: string): seq<string> {
    SplitFrom(OPEN, "", s)
  }

  method SplitTemplateArgs(s: string) returns (args: seq<string>)
    ensures args == Split(s)
  {
    args := [];
    var cur, inQuote := "", OPEN;
    for i := 0 to |s|
      invariant inQuote != OPEN ==> i > 0 && cur != "" && cur[|cur| - 1] == s[i - 1] && IsQuote(inQuote)
      invariant args + SplitFrom(inQuote, cur, s[i..]) == Split(s)
    {
      var r := s[i];
      assert s[i..][0] == r && s[i..][1..] == s[i + 1..];
      if inQuote != OPEN {
        assert r == OPEN ==> r != inQuote;
        cur := cur + [r];
        if r == inQuote && (i == 0 || s[i - 1] != '\\') {
          inQuote := OPEN;
        }
      } else if r == '"' || r == '\'' {
        inQuote := r;
        cur := cur + [r];
      } else if r == ' ' || r == '\t' {
        if |cur| > 0 {
          args := args + [cur];
          cur := "";
        }
      } else {
        cur := cur + [r];
      }
    }
    if |cur| > 0 {
      args := args + [cur];
    }
  }

  // What an argument is, said without the splitter.

  /** The quote open at the end of `a` when the scan starts in the middle of argument `cur`. */
  function QuoteAfter(quote: char, cur: string, a: string): char
    decreases |a|
  {
    if a == "" then quote else QuoteAfter(NextQuote(quote, cur, a[0]), cur + [a[0]], a[1..])
  }

  /** No blank of `a` stands outside quotes. */
  predicate Solid(quote: char, cur: string, a: string)
    decreases |a|
  {
    a == "" ||
    (!(quote == OPEN && IsBlank(a[0])) && Solid(NextQuote(quote, cur, a[0]), cur + [a[0]], a[1..]))
  }

  predicate IsArgument(a: string) {
    a != "" && Solid(OPEN, "", a)
  }

  predicate Terminated(a: string) {
    QuoteAfter(OPEN, "", a) == OPEN
  }

  /** A list of arguments of which only the last may leave a quote open. */
  predicate IsArguments(args: seq<string>) {
    && (forall i | 0 <= i < |args| :: IsArgument(args[i]))
    && (forall i | 0 <= i < |args| - 1 :: Terminated(args[i]))
  }

  predicate Blanks(s: string) {
    forall i | 0 <= i < |s| :: IsBlank(s[i])
  }

  /** `s` consists of the arguments in order, with blanks before, between (at least one) and after them. */
  ghost predicate Layout(s: string, args: seq<string>)
    decreases |args|, 1
  {
    if args == [] then Blanks(s)
    else
      exists pad: string, rest: string :: StartsWith(s, args, pad, rest)
  }

  ghost predicate StartsWith(s: string, args: seq<string>, pad: string, rest: string)
    requires args != []
    decreases |args|, 0
  {
    && s == pad + args[0] + rest
    && Blanks(pad)
    && (if |args| == 1 then (if Terminated(args[0]) then Blanks(rest) else rest == "")
        else rest != "" && IsBlank(rest[0]) && Layout(rest, args[1..]))
  }

  function Join(args: seq<string>): string {
    if args == [] then ""
    else if |args| == 1 then args[0]
    else args[0] + " " + Join(args[1..])
  }

  // The splitter on one argument.

  lemma {:induction false} SplitSolid(quote: char, cur: string, a: string, rest: string)
    requires Solid(quote, cur, a)
    ensures SplitFrom(quote, cur, a + rest) == SplitFrom(QuoteAfter(quote, cur, a), cur + a, rest)
    decreases |a|
  {
    if a == "" {
      assert a + rest == rest && cur + a == cur;
    } else {
      assert (a + rest)[0] == a[0] && (a + rest)[1..] == a[1..] + rest;
      assert cur + [a[0]] + a[1..] == cur + a;
      SplitSolid(NextQuote(quote, cur, a[0]), cur + [a[0]], a[1..], rest);
    }
  }

  lemma {:induction false} SplitBlanks(pad: string, rest: string)
    requires Blanks(pad)
    ensures Split(pad + rest) == Split(rest)
    decreases |pad|
  {
    if pad == "" {
      assert pad + rest == rest;
    } else {
      assert (pad + rest)[1..] == pad[1..] + rest;
      SplitBlanks(pad[1..], rest);
    }
  }

  /** Every layout of a list of arguments is cut into exactly that list. */
  lemma {:induction false} LayoutSplits(s: string, args: seq<string>)
    requires IsArguments(args) && Layout(s, args)
    ensures Split(s) == args
    decreases |args|
  {
    if args == [] {
      assert s + "" == s;
      SplitBlanks(s, "");
    } else {
      var pad: string, rest: string :| StartsWith(s, args, pad, rest);
      assert s == pad + (args[0] + rest);
      SplitBlanks(pad, args[0] + rest);
      SplitSolid(OPEN, "", args[0], rest);
      assert "" + args[0] == args[0];
      if rest != "" {
        assert Blanks([rest[0]]) && rest == [rest[0]] + rest[1..];
        SplitBlanks([rest[0]], rest[1..]);
        assert Split(s) == [args[0]] + Split(rest);
        if |args| == 1 {
          assert rest + "" == rest;
          SplitBlanks(rest, "");
        } else {
          LayoutSplits(rest, args[1..]);
        }
      }
    }
  }

  // The converse: the splitter's output is a list of arguments and its input a layout of it.

  lemma {:induction false} SolidExtends(quote: char, cur: string, a: string, c: char)
    requires Solid(quote, cur, a)
    requires !(QuoteAfter(quote, cur, a) == OPEN && IsBlank(c))
    ensures Solid(quote, cur, a + [c])
    ensures QuoteAfter(quote, cur, a + [c]) == NextQuote(QuoteAfter(quote, cur, a), cur + a, c)
    decreases |a|
  {
    if a == "" {
      assert a + [c] == [c] && cur + a == cur && [c][1..] == "";
    } else {
      assert (a + [c])[0] == a[0] && (a + [c])[1..] == a[1..] + [c];
      assert cur + [a[0]] + a[1..] == cur + a;
      SolidExtends(NextQuote(quote, cur, a[0]), cur + [a[0]], a[1..], c);
    }
  }

  lemma {:induction false} SplitGivesLayout(quote: char, cur: string, s: string)
    requires Solid(OPEN, "", cur) && quote == QuoteAfter(OPEN, "", cur)
    ensures IsArguments(SplitFrom(quote, cur, s)) && Layout(cur + s, SplitFrom(quote, cur, s))
    decreases |s|
  {
    if s == "" {
      if cur != "" {
        assert StartsWith(cur + s, [cur], "", "");
      }
    } else if quote == OPEN && IsBlank(s[0]) {
      SplitGivesLayout(OPEN, "", s[1..]);
      assert "" + s[1..] == s[1..];
      assert s == [s[0]] + s[1..];
      BlankBefore(s[0], s[1..], Split(s[1..]));
      ArgumentBefore(cur, s, Split(s[1..]));
    } else {
      SolidExtends(OPEN, "", cur, s[0]);
      assert "" + cur == cur;
      assert cur + [s[0]] + s[1..] == cur + s;
      SplitGivesLayout(NextQuote(quote, cur, s[0]), cur + [s[0]], s[1..]);
    }
  }

  lemma ArgumentBefore(cur: string, s: string, more: seq<string>)
    requires Solid(OPEN, "", cur) && Terminated(cur)
    requires s != "" && IsBlank(s[0]) && IsArguments(more) && Layout(s, more)
    ensures IsArguments(Flush(cur) + more) && Layout(cur + s, Flush(cur) + more)
  {
    var args := Flush(cur) + more;
    if cur == "" {
      assert args == more && cur + s == s;
    } else {
      assert args[0] == cur && args[1..] == more;
      assert StartsWith(cur + s, args, "", s);
    }
  }

  lemma BlankBefore(c: char, s: string, args: seq<string>)
    requires IsBlank(c) && Layout(s, args)
    ensures Layout([c] + s, args)
  {
    if args != [] {
      var pad: string, rest: string :| StartsWith(s, args, pad, rest);
      assert [c] + s == ([c] + pad) + args[0] + rest;
      assert StartsWith([c] + s, args, [c] + pad, rest);
    }
  }

  /** The splitter returns the one list of arguments of which its input is a layout, and nothing else. */
  lemma SplitIsExact(s: string, args: seq<string>)
    ensures Split(s) == args <==> IsArguments(args) && Layout(s, args)
  {
    if IsArguments(args) && Layout(s, args) {
      LayoutSplits(s, args);
    }
    assert "" + s == s;
    SplitGivesLayout(OPEN, "", s);
  }

  // Rejoining.

  lemma {:induction false} JoinIsLayout(args: seq<string>)
    requires IsArguments(args)
    ensures Layout(Join(args), args)
    decreases |args|
  {
    if |args| == 1 {
      assert StartsWith(Join(args), args, "", "");
    } else if |args| > 1 {
      var rest := " " + Join(args[1..]);
      JoinIsLayout(args[1..]);
      BlankBefore(' ', Join(args[1..]), args[1..]);
      assert StartsWith(Join(args), args, "", rest);
    }
  }

  /** Joining any run of the splitter's output with spaces and cutting again gives the run back. */
  lemma RejoinedSliceSplits(s: string, lo: nat, hi: nat)
    requires lo <= hi <= |Split(s)|
    ensures Split(Join(Split(s)[lo..hi])) == Split(s)[lo..hi]
  {
    SplitIsExact(s, Split(s));
    JoinIsLayout(Split(s)[lo..hi]);
    LayoutSplits(Join(Split(s)[lo..hi]), Split(s)[lo..hi]);
  }

  // What quotes hold together.

  predicate Plain(p: string) {
    forall i | 0 <= i < |p| :: p[i] != ' ' && p[i] != '\t' && p[i] != '"' && p[i] != '\''
  }

  /** Behind `before`, each quote of `t` follows a backslash, and a closing quote behind `t` would not. */
  predicate Enclosed(q: char, before: char, t: string) {
    && (t != "" && t[0] == q ==> before == '\\')
    && (forall i | 0 < i < |t| :: t[i] == q ==> t[i - 1] == '\\')
    && (if t == "" then before else t[|t| - 1]) != '\\'
  }

  lemma {:induction false} PlainIsSolid(cur: string, p: string)
    requires Plain(p)
    ensures Solid(OPEN, cur, p) && QuoteAfter(OPEN, cur, p) == OPEN
    decreases |p|
  {
    if p != "" {
      PlainIsSolid(cur + [p[0]], p[1..]);
    }
  }

  lemma {:induction false} EnclosedIsSolid(q: char, cur: string, t: string)
    requires IsQuote(q) && cur != "" && Enclosed(q, cur[|cur| - 1], t)
    ensures Solid(q, cur, t + [q]) && QuoteAfter(q, cur, t + [q]) == OPEN
    decreases |t|
  {
    if t == "" {
      assert t + [q] == [q] && [q][1..] == "";
    } else {
      var next := cur + [t[0]];
      assert next[|next| - 1] == t[0] && (t + [q])[0] == t[0] && (t + [q])[1..] == t[1..] + [q];
      assert forall i | 0 <= i < |t| - 1 :: t[1..][i] == t[i + 1];
      EnclosedIsSolid(q, next, t[1..]);
    }
  }

  lemma {:induction false} PlainThen(cur: string, p: string, b: string)
    requires Plain(p)
    ensures Solid(OPEN, cur, p + b) == Solid(OPEN, cur + p, b)
    ensures QuoteAfter(OPEN, cur, p + b) == QuoteAfter(OPEN, cur + p, b)
    decreases |p|
  {
    if p == "" {
      assert p + b == b && cur + p == cur;
    } else {
      assert (p + b)[0] == p[0] && (p + b)[1..] == p[1..] + b && cur + [p[0]] + p[1..] == cur + p;
      PlainThen(cur + [p[0]], p[1..], b);
    }
  }

  /** A quoted text is one argument whatever blanks it holds, up to the first quote no backslash precedes. */
  lemma QuotesHold(p: string, q: char, t: string, rest: string)
    requires Plain(p) && (q == '"' || q == '\'') && Enclosed(q, q, t)
    ensures Split(p + [q] + t + [q]) == [p + [q] + t + [q]]
    ensures Split(p + [q] + t + [q] + " " + rest) == [p + [q] + t + [q]] + Split(rest)
  {
    var a, b := p + [q] + t + [q], [q] + (t + [q]);
    assert a == p + b && "" + p == p && b[0] == q && b[1..] == t + [q];
    PlainThen("", p, b);
    assert NextQuote(OPEN, p, q) == q;
    EnclosedIsSolid(q, p + [q], t);
    assert IsArgument(a) && Terminated(a);
    SplitThenBlank(a, rest);
  }

  lemma SplitThenBlank(a: string, rest: string)
    requires IsArgument(a) && Terminated(a)
    ensures Split(a) == [a] && Split(a + " " + rest) == [a] + Split(rest)
  {
    assert a + "" == a && "" + a == a && StartsWith(a, [a], "", "");
    SplitIsExact(a, [a]);
    assert a + " " + rest == a + (" " + rest) && (" " + rest)[1..] == rest;
    SplitSolid(OPEN, "", a, " " + rest);
  }

  /** Outside quotes every blank ends an argument. */
  lemma BlanksCut(p: string, c: char, rest: string)
    requires Plain(p) && (c == ' ' || c == '\t')
    ensures Split(p + [c] + rest) == (if p == "" then [] else [p]) + Split(rest)
  {
    PlainIsSolid("", p);
    assert p + [c] + rest == p + ([c] + rest) && ([c] + rest)[1..] == rest && "" + p == p;
    SplitSolid(OPEN, "", p, [c] + rest);
  }
}
