/**
 Inputs that show what the conditions on the readings of a `concat` are for: one whose value is not
 the written one, one where the number that is taken makes no difference, and one where two places
 that each change the value make up for each other.
 */
module TemplateExamples {
  import opened TemplateArgs
  import opened TemplateEval
  import opened TemplateItems
  import opened TemplateReadings
  import opened TemplateExact
  import opened Strings
  import opened Pieces
  import opened Wrappers
  import JsonPath

  const COMMA := "\",\""

  /** A word without blanks and quotes is an argument. */
  lemma {:induction false} WordIsSolid(cur: string, s: string)
    requires forall c | c in s :: !IsBlank(c) && !IsQuote(c)
    ensures Solid(OPEN, cur, s) && QuoteAfter(OPEN, cur, s) == OPEN
    decreases |s|
  {
    if s != "" {
      assert s[0] in s && forall c | c in s[1..] :: c in s;
      WordIsSolid(cur + [s[0]], s[1..]);
    }
  }

  lemma QuotedComma()
    ensures IsArgument(COMMA) && Terminated(COMMA)
  {
    var q := '"';
    assert COMMA == [q, ',', q] && COMMA[1..] == [',', q] && [',', q][1..] == [q] && [q][1..] == "";
    assert "" + [q] == [q] && [q] + [','] == [q, ','];
  }

  lemma {:induction false} Texts()
    ensures Atoi("0") == Some(0) && Atoi("1") == Some(1) && Atoi("2") == Some(2)
    ensures Trim("0") == "0" && Trim("1") == "1" && Trim("2") == "2" && Trim(COMMA) == COMMA
  {
    assert "0"[..0] == "" && "1"[..0] == "" && "2"[..0] == "";
    assert JsonPath.Value("") == 0;
  }

  lemma VariableX()
    ensures RefOf("var.x") == Variable("x")
  {
    var s := "var.x";
    assert Trim(s) == s;
    assert s[1..] == "ar.x" && s[2..] == "r.x" && s[3..] == ".x" && s[4..] == "x";
    assert Source(s[3..]) == "" && Source(s[2..]) == "r" && Source(s[1..]) == "ar" && Source(s) == "var";
    assert s[3] == '.' && Lower("var") == "var";
    assert Trim("x") == "x";
  }

  const VAR_X_THEN_2 := [Call("split_part", ["var.x", "0", COMMA]), Plain("2")]
  const VAR_X_WORDS := ["concat", "split_part", "var.x", "0", COMMA, "2"]

  const END_WORDS := ["var.x", "0", COMMA, "2"]
  const END_TEXT := "var.x 0 \",\" 2"

  /** The text: concat split_part var.x 0 "," 2. */
  const VAR_X_TEXT := "concat" + " " + ("split_part" + " " + END_TEXT)

  /** A word in front of a list, and in front of the list's text. */
  lemma Lead(word: string, words: seq<string>, text: string)
    requires IsArgument(word) && Terminated(word) && IsArguments(words) && words != [] && Join(words) == text
    ensures IsArguments([word] + words) && Join([word] + words) == word + " " + text
  {
    var all := [word] + words;
    assert all[1..] == words;
    forall i | 0 <= i < |all| ensures IsArgument(all[i]) && (i < |all| - 1 ==> Terminated(all[i])) {
      assert i > 0 ==> all[i] == words[i - 1];
    }
  }

  lemma EndIsWritten()
    ensures IsArguments(END_WORDS) && Join(END_WORDS) == END_TEXT
  {
    ShortWords();
    QuotedComma();
    var last := ["2"];
    Lead(COMMA, last, "2");
    Lead("0", [COMMA] + last, COMMA + " " + "2");
    Lead("var.x", ["0"] + ([COMMA] + last), "0" + " " + (COMMA + " " + "2"));
    assert END_WORDS == ["var.x"] + (["0"] + ([COMMA] + last));
    assert END_TEXT == "var.x" + " " + ("0" + " " + (COMMA + " " + "2"));
  }

  lemma AllIsWritten()
    ensures IsArguments(VAR_X_WORDS) && Join(VAR_X_WORDS) == VAR_X_TEXT
  {
    LongWords();
    EndIsWritten();
    Lead("split_part", END_WORDS, END_TEXT);
    Lead("concat", ["split_part"] + END_WORDS, "split_part" + " " + END_TEXT);
    assert VAR_X_WORDS == ["concat"] + (["split_part"] + END_WORDS);
  }

  lemma LongWords()
    ensures IsArgument("concat") && Terminated("concat") && IsArgument("split_part") && Terminated("split_part")
  {
    WordIsSolid("", "concat");
    WordIsSolid("", "split_part");
  }

  lemma ShortWords()
    ensures IsArgument("var.x") && Terminated("var.x")
    ensures IsArgument("0") && Terminated("0") && IsArgument("2") && Terminated("2")
  {
    WordIsSolid("", "var.x");
    WordIsSolid("", "0");
    WordIsSolid("", "2");
  }

  lemma WrittenOut()
    ensures Split(VAR_X_TEXT) == VAR_X_WORDS
  {
    AllIsWritten();
    Rejoins(VAR_X_WORDS);
  }

  lemma FnSplitPart()
    ensures Lower("split_part") == "split_part" && FnNamed("split_part") == Some(SplitPart)
    ensures Lower("concat") == "concat" && !IsFn("2") && !IsFn("1")
  {
    Texts();
  }

  lemma TakesTwo()
    ensures AllItems(VAR_X_THEN_2) && ["concat"] + AllWords(VAR_X_THEN_2) == VAR_X_WORDS
    ensures Taken(VAR_X_THEN_2) == [Place(VAR_X_THEN_2[0], "2")]
    ensures Greedy(VAR_X_THEN_2) == [Filled(VAR_X_THEN_2[0], "2")]
  {
    FnSplitPart();
    Texts();
    var items := VAR_X_THEN_2;
    assert items[2..] == [] && items[1..] == [Plain("2")] && [Plain("2")][1..] == [];
    assert AllWords(items[1..]) == ["2"] + AllWords([]) == ["2"];
    assert AllWords(items) == (["split_part"] + ["var.x", "0", COMMA]) + ["2"];
    assert ["concat"] + AllWords(items) == VAR_X_WORDS;
  }

  lemma PiecesOfAB()
    ensures Part("a,b", 0, ",", 0) == "a" && Part("a,b", 0, ",", 2) == "a"
  {
    assert "a,b"[1..] == ",b" && ",b"[..1] == "," && "a,b"[..1] == "a";
    assert HeadOf("a,b", ",") == First("a", ",b", "b") by {
      assert Find(",b", ",") == Some(0);
      assert "a,b"[2..] == "b";
    }
  }

  /** With x = "a,b" the written items say "a2", and the source says "a". */
  lemma RealInputDiffers(env: Env)
    requires "x" in env.vars && env.vars["x"] == "a,b"
    ensures AllItems(VAR_X_THEN_2)
    ensures Split(VAR_X_TEXT) == ["concat"] + AllWords(VAR_X_THEN_2)
    ensures Meanings(env, VAR_X_THEN_2) == Ok("a2")
    ensures EvalExpr(env, VAR_X_TEXT) == Ok("a")
  {
    WrittenOut();
    TakesTwo();
    FnSplitPart();
    ConcatMeansGreedily(env, VAR_X_TEXT, "concat", VAR_X_THEN_2);
    ValuesAtX(env);
    var call := VAR_X_THEN_2[0];
    assert VAR_X_THEN_2[1..] == [Plain("2")] && [Plain("2")][1..] == [];
    assert Meanings(env, [Plain("2")]) == Then(Ok("2"), Ok(""));
    assert [Filled(call, "2")][1..] == [];
    assert "a" + ("2" + "") == "a2" && "a" + "" == "a";
  }

  lemma ValuesAtX(env: Env)
    requires "x" in env.vars && env.vars["x"] == "a,b"
    ensures AllItems(VAR_X_THEN_2) && IsItem(Filled(VAR_X_THEN_2[0], "2"))
    ensures Meaning(env, VAR_X_THEN_2[0]) == Meaning(env, Filled(VAR_X_THEN_2[0], "2")) == Ok("a")
    ensures EvalArg(env, "2") == Ok("2")
  {
    var p := Place(VAR_X_THEN_2[0], "2");
    TakesTwo();
    FnSplitPart();
    TakenArePlaces(VAR_X_THEN_2);
    Texts();
    VariableX();
    CommaIsFixed();
    NumbersMeanThemselves(env, "2");
    PiecesOfAB();
    CallMeanings(env, p);
  }

  lemma CommaIsFixed()
    ensures RefOf(COMMA) == Fixed(",")
  {
    Texts();
    assert COMMA[1..2] == ",";
  }

  // Places that do not show.

  /** A list of one place, in which text, index, separator and number are plain words. */
  function OnePlace(text: string, delim: string, number: string): seq<Item> {
    [Call("split_part", [text, "0", delim]), Plain(number)]
  }

  lemma FixedWords()
    ensures RefOf("a1") == Fixed("a1") && RefOf("1") == Fixed("1") && RefOf("a") == Fixed("a")
    ensures RefOf(";") == Fixed(";") && RefOf("21") == Fixed("21") && RefOf("2") == Fixed("2")
  {
    assert Trim("a1") == "a1" && Trim("a") == "a" && Trim(";") == ";" && Trim("21") == "21";
    Texts();
  }

  lemma OneIsTaken(text: string, delim: string, number: string, more: seq<Item>)
    requires number == "1" || number == "2"
    ensures var items := OnePlace(text, delim, number);
      var p := Place(items[0], number);
      && AllItems(items) && !Separable(items + more) && IsPlace(p) && Index(p) == Some(0) && Takes(items + more)
      && Taken(items + more) == [p] + Taken(more)
      && Greedy(items + more) == [Filled(items[0], number)] + Greedy(more)
  {
    FnSplitPart();
    Texts();
    var all := OnePlace(text, delim, number) + more;
    assert all[2..] == more && all[0] == OnePlace(text, delim, number)[0] && all[1] == Plain(number);
    assert OpenEnded(all[0]) && 0 < |all| - 1 && Words(all[1])[0] == number;
  }

  /** Both meanings of a place with fixed text and separator. */
  lemma FixedPlace(env: Env, text: string, delim: string, number: string)
    requires number == "1" || number == "2"
    requires RefOf(text) == Fixed(text) && RefOf(delim) == Fixed(delim)
    ensures var call := OnePlace(text, delim, number)[0];
      && IsItem(call) && IsItem(Filled(call, number))
      && Meaning(env, call) == Ok(Part(text, 0, delim, 0))
      && Meaning(env, Filled(call, number)) == Ok(Part(text, 0, delim, Atoi(number).value))
  {
    var p := Place(OnePlace(text, delim, number)[0], number);
    OneIsTaken(text, delim, number, []);
    FnSplitPart();
    Texts();
    CallMeanings(env, p);
  }

  lemma PiecesOfA1()
    ensures Part("a1", 0, "1", 0) == "a" && Part("a1", 0, "1", 1) == "a1"
    ensures CutsOff("a1", "1", 0, 1, "1")
  {
    assert "a1"[1..] == "1" && "1"[..1] == "1" && "a1"[..1] == "a";
    assert Find("1", "1") == Some(0) && Find("a1", "1") == Some(1);
    assert HeadOf("a1", "1") == First("a", "1", "");
  }

  lemma PiecesOf21()
    ensures Part("21", 0, "2", 0) == "" && Part("21", 0, "2", 1) == "21"
    ensures Part("a", 0, ";", 0) == "a" && Part("a", 0, ";", 2) == "a"
  {
    assert "21"[..1] == "2" && "21"[..0] == "" && "21"[1..] == "1";
    assert HeadOf("21", "2") == First("", "21", "1");
    assert Find("a", ";") == None by {
      assert "a"[..1] == "a" && "a"[1..] == "";
    }
  }

  /** Both readings of a place and what follows it. */
  lemma BothReadings(env: Env, text: string, delim: string, number: string, more: seq<Item>)
    requires number == "1" || number == "2"
    requires RefOf(text) == Fixed(text) && RefOf(delim) == Fixed(delim) && AllItems(more)
    ensures var items := OnePlace(text, delim, number) + more;
      && AllItems(items) && AllItems(Greedy(items)) && AllItems(Greedy(more))
      && Meanings(env, items) == Then(Ok(Part(text, 0, delim, 0)), Then(Ok(number), Meanings(env, more)))
      && Meanings(env, Greedy(items)) ==
           Then(Ok(Part(text, 0, delim, Atoi(number).value)), Meanings(env, Greedy(more)))
  {
    var items := OnePlace(text, delim, number) + more;
    OneIsTaken(text, delim, number, more);
    FixedPlace(env, text, delim, number);
    assert items[0] == OnePlace(text, delim, number)[0] && items[1] == Plain(number) && items[2..] == more;
    assert AllItems(items);
    GreedyReads(items);
    GreedyReads(more);
    TakenMeanings(env, items);
    Texts();
    NumbersMeanThemselves(env, number);
  }

  /** The same with values. */
  lemma BothValues(
    env: Env, text: string, delim: string, number: string, more: seq<Item>, a: string, b: string, m: string, g: string)
    requires number == "1" || number == "2"
    requires RefOf(text) == Fixed(text) && RefOf(delim) == Fixed(delim)
    requires AllItems(more) && AllItems(Greedy(more))
    requires Part(text, 0, delim, 0) == a && Part(text, 0, delim, if number == "1" then 1 else 2) == b
    requires Meanings(env, more) == Ok(m) && Meanings(env, Greedy(more)) == Ok(g)
    ensures var items := OnePlace(text, delim, number) + more;
      && AllItems(items) && AllItems(Greedy(items))
      && Meanings(env, items) == Ok(a + (number + m)) && Meanings(env, Greedy(items)) == Ok(b + g)
  {
    BothReadings(env, text, delim, number, more);
    Texts();
  }

  lemma Sums()
    ensures "a" + ("1" + "") == "a1" && "a1" + "" == "a1" && "" + ("1" + "") == "1" && "21" + "" == "21"
    ensures "a" + ("2" + "1") == "a21" && "a" + "21" == "a21"
  {
  }

  /** The limit can hand a piece exactly what the number would have said: split_part a1 0 1, and 1. */
  lemma HarmlessInput(env: Env)
    ensures var items := OnePlace("a1", "1", "1") + [];
      && AllItems(items) && !Separable(items) && AllItems(Greedy(items))
      && Meanings(env, items) == Meanings(env, Greedy(items)) == Ok("a1")
  {
    OneIsTaken("a1", "1", "1", []);
    FixedWords();
    PiecesOfA1();
    BothValues(env, "a1", "1", "1", [], "a", "a1", "", "");
    Sums();
  }

  /**
   Two harmful places can make up for each other: split_part a 0 ; and 2 loses the 2 that
   split_part 21 0 2 and 1 gains, in every environment.
   */
  lemma TwoPlacesCancel(env: Env)
    ensures var items := OnePlace("a", ";", "2") + (OnePlace("21", "2", "1") + []);
      && AllItems(items) && AllItems(Greedy(items)) && (forall p | p in Taken(items) :: IsPlace(p))
      && Harmful(Taken(items)) == 2
      && Meanings(env, items) == Meanings(env, Greedy(items)) == Ok("a21")
  {
    var second := SecondPlace(env);
    FixedWords();
    PiecesOf21();
    BothValues(env, "a", ";", "2", second, "a", "a", "1", "21");
    BothAreHarmful();
    Sums();
  }

  lemma SecondPlace(env: Env) returns (items: seq<Item>)
    ensures items == OnePlace("21", "2", "1") + [] && AllItems(items) && AllItems(Greedy(items))
    ensures Meanings(env, items) == Ok("1") && Meanings(env, Greedy(items)) == Ok("21")
  {
    items := OnePlace("21", "2", "1") + [];
    FixedWords();
    PiecesOf21();
    BothValues(env, "21", "2", "1", [], "", "21", "", "");
    Sums();
  }

  lemma BothAreHarmful()
    ensures var items := OnePlace("a", ";", "2") + (OnePlace("21", "2", "1") + []);
      (forall p | p in Taken(items) :: IsPlace(p)) && Harmful(Taken(items)) == 2
  {
    var p, q := Place(OnePlace("a", ";", "2")[0], "2"), Place(OnePlace("21", "2", "1")[0], "1");
    OneIsTaken("21", "2", "1", []);
    OneIsTaken("a", ";", "2", OnePlace("21", "2", "1") + []);
    SecondIsHarmful(q);
    FirstIsHarmful(p);
    assert ([p] + ([q] + []))[1..] == [q] && [q][1..] == [];
    assert Harmful([q]) == 1;
  }

  lemma FirstIsHarmful(p: Place)
    requires p == Place(OnePlace("a", ";", "2")[0], "2") && IsPlace(p)
    ensures !Harmless(p)
  {
    Texts();
  }

  lemma SecondIsHarmful(q: Place)
    requires q == Place(OnePlace("21", "2", "1")[0], "1") && IsPlace(q)
    ensures !Harmless(q)
  {
    FixedWords();
    assert "21"[..1] == "2" && "21"[0..] == "21";
    assert HeadOf("21", "2").rest == "21";
    Texts();
  }
}
