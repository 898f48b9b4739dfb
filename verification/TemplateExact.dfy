/** The exact condition under which a `concat` always has the values of its items. */
module TemplateExact {
  import opened TemplateArgs
  import opened TemplateEval
  import opened TemplateItems
  import opened TemplateReadings
  import opened Strings
  import opened Pieces
  import opened Base64
  import opened Wrappers
  import JsonPath

  // What the items say by themselves.

  /** The call or argument has a value in no environment. */
  predicate AlwaysFails(item: Item)
    requires IsItem(item)
  {
    match item
    case Plain(arg) => RefOf(arg).Unresolved?
    case Call(name, args) =>
      match FnNamed(Lower(name)).value
      case SplitPart => RefOf(args[0]).Unresolved? || Atoi(Trim(args[1])).None? || RefOf(args[2]).Unresolved?
      case UrlEncode => RefOf(args[0]).Unresolved?
      case Base64Decode =>
        RefOf(args[0]).Unresolved? || (RefOf(args[0]).Fixed? && Decode(RefOf(args[0]).text).None?)
      case LookupJson => Trim(args[1]) == ""
      case Concat => false
      case RandomPort => false
  }

  predicate SomeFails(items: seq<Item>)
    requires AllItems(items)
  {
    exists i :: 0 <= i < |items| && AlwaysFails(items[i])
  }

  /** Text and separator are fixed, and the limit hands the piece exactly the digits it takes away. */
  predicate Harmless(p: Place)
    requires IsPlace(p)
  {
    ValueRef(p).Fixed? && DelimRef(p).Fixed? && Index(p).Some? &&
    CutsOff(ValueRef(p).text, DelimRef(p).text, Index(p).value, Number(p), Trim(p.number))
  }

  /** As before with an empty separator, where the separator is a nested field of the order. */
  predicate Doubtful(p: Place)
    requires IsPlace(p)
  {
    ValueRef(p).Fixed? && DelimRef(p).Nested? && Index(p).Some? &&
    CutsOff(ValueRef(p).text, "", Index(p).value, Number(p), Trim(p.number))
  }

  function Harmful(places: seq<Place>): nat
    requires forall p | p in places :: IsPlace(p)
  {
    if places == [] then 0 else (if Harmless(places[0]) then 0 else 1) + Harmful(places[1..])
  }

  // An environment in which everything succeeds that can.

  /** The text of a reference there: a number for each variable, and breaks or letters for the columns. */
  function Plainly(ref: Ref, k: nat): string {
    match ref
    case Fixed(text) => text
    case Variable(_) => "1234" + Repeat("\n", k)
    case OrderColumn(_) => Repeat("\n", k)
    case Nested(_) => ""
    case Address => Repeat("AAAA", k)
    case SupplierColumn(_) => Repeat("\n", k)
    case Unresolved => ""
  }

  function Ground(lib: Lib, names: set<string>, k: nat): Env {
    Env(lib, map n | n in names :: "1234" + Repeat("\n", k), (c: string) => Repeat("\n", k),
        (c: string) => if c == "url" then Repeat("AAAA", k) else Repeat("\n", k), Some("80"))
  }

  /** A number is a JSON text, and a path that is not blank can be looked up in it. */
  ghost predicate Sound(lib: Lib) {
    forall path | path != "" :: lib.query("1234", path).Ok?
  }

  ghost predicate Names(names: set<string>, word: string) {
    (RefOf(word).Variable? ==> RefOf(word).key in names) && LookedUp(word) in names
  }

  lemma LettersStay(k: nat)
    ensures DropLast(Trim(Repeat("AAAA", k)), '/') == Repeat("AAAA", k)
  {
    var s := Repeat("AAAA", k);
    RepeatMembers("AAAA", k);
    if k > 0 {
      assert s[0] in s && s[|s| - 1] in s;
      TrimDropsSpaces(s, "");
      assert s + "" == s;
    }
  }

  lemma BreaksTrim(k: nat)
    ensures Trim(Repeat("\n", k)) == "" && Trim("1234" + Repeat("\n", k)) == "1234"
  {
    RepeatMembers("\n", k);
    assert "" + Repeat("\n", k) == Repeat("\n", k);
    TrimDropsSpaces("", Repeat("\n", k));
    TrimDropsSpaces("1234", Repeat("\n", k));
  }

  lemma GroundReads(lib: Lib, names: set<string>, k: nat, word: string)
    requires Names(names, word) && !RefOf(word).Unresolved?
    ensures Read(Ground(lib, names, k), RefOf(word)) == Ok(Plainly(RefOf(word), k))
  {
    LettersStay(k);
    BreaksTrim(k);
  }

  lemma GroundDecodes(k: nat, ref: Ref)
    requires ref.Fixed? ==> Decode(ref.text).Some?
    ensures Decode(Plainly(ref, k)).Some?
  {
    BreaksDoNotMatter("", k);
    assert "" + Repeat("\n", k) == Repeat("\n", k);
    DigitsDecode();
    BreaksDoNotMatter("1234", k);
    LettersDecode(k);
  }

  lemma GroundLooksUp(lib: Lib, names: set<string>, k: nat, name: string, path: string)
    requires Sound(lib) && LookedUp(name) in names && Trim(path) != ""
    ensures LookUp(Ground(lib, names, k), name, path).Ok?
  {
    BreaksTrim(k);
  }

  lemma GroundWorks(lib: Lib, names: set<string>, k: nat, item: Item)
    requires Sound(lib) && IsItem(item) && !AlwaysFails(item)
    requires forall w | w in Words(item) :: Names(names, w)
    ensures Meaning(Ground(lib, names, k), item).Ok?
  {
    var env := Ground(lib, names, k);
    if item.Plain? {
      assert item.arg in Words(item);
      GroundReads(lib, names, k, item.arg);
    } else {
      var args := [item.name] + item.args;
      assert forall i | 0 <= i < |item.args| :: args[i + 1] == item.args[i] && item.args[i] in Words(item);
      GroundCallWorks(lib, names, k, item, args);
    }
  }

  lemma GroundCallWorks(lib: Lib, names: set<string>, k: nat, item: Item, args: seq<string>)
    requires Sound(lib) && IsItem(item) && item.Call? && !AlwaysFails(item) && args == [item.name] + item.args
    requires forall i | 0 <= i < |item.args| :: args[i + 1] == item.args[i] && Names(names, item.args[i])
    ensures Meaning(Ground(lib, names, k), item).Ok?
  {
    match FnNamed(Lower(item.name)).value
    case SplitPart =>
      GroundReads(lib, names, k, args[1]);
      GroundReads(lib, names, k, args[3]);
    case UrlEncode => GroundReads(lib, names, k, args[1]);
    case Base64Decode =>
      GroundReads(lib, names, k, args[1]);
      GroundDecodes(k, RefOf(args[1]));
    case LookupJson => GroundLooksUp(lib, names, k, args[1], args[2]);
    case Concat =>
    case RandomPort =>
  }

  lemma {:induction false} GroundWorksForAll(lib: Lib, names: set<string>, k: nat, items: seq<Item>)
    requires Sound(lib) && AllItems(items) && !SomeFails(items)
    requires forall w | w in AllWords(items) :: Names(names, w)
    ensures Meanings(Ground(lib, names, k), items).Ok?
    decreases |items|
  {
    if items != [] {
      assert IsItem(items[0]) && !AlwaysFails(items[0]);
      assert forall i | 0 <= i < |items[1..]| :: items[1..][i] == items[i + 1];
      GroundWorks(lib, names, k, items[0]);
      GroundWorksForAll(lib, names, k, items[1..]);
    }
  }

  /** A place whose call has a value in that environment, with `k` large enough. */
  ghost predicate Ready(names: set<string>, k: nat, p: Place) {
    && IsPlace(p) && !AlwaysFails(p.call)
    && Names(names, p.call.args[0]) && Names(names, p.call.args[2]) && k > |p.call.args[0]|
  }

  /** A harmful place that is not doubtful disagrees there. */
  lemma HarmDisagrees(lib: Lib, names: set<string>, k: nat, p: Place)
    requires Ready(names, k, p) && !Harmless(p) && !Doubtful(p)
    ensures !Agrees(Ground(lib, names, k), p)
  {
    var v, d, t := Plainly(ValueRef(p), k), Plainly(DelimRef(p), k), Trim(p.number);
    GroundReads(lib, names, k, p.call.args[0]);
    GroundReads(lib, names, k, p.call.args[2]);
    NumbersMeanThemselves(Ground(lib, names, k), p.number);
    if !ValueRef(p).Fixed? {
      NoDigitAtEnd(ValueRef(p), k);
      NoDigitNoNumber(v, d, Number(p), t);
    } else if !DelimRef(p).Fixed? && !DelimRef(p).Nested? {
      FixedIsShort(p.call.args[0]);
      LongTexts(DelimRef(p), k);
      LongNoNumber(v, d, Number(p), t);
    }
  }

  lemma NoDigitNoNumber(v: string, d: string, n: int, t: string)
    requires t != "" && JsonPath.IsDigit(t[|t| - 1]) && (v != "" ==> !JsonPath.IsDigit(v[|v| - 1]))
    ensures n > 0 ==> After(v, d, n) != t
  {
    if n > 0 {
      AfterIsSuffix(v, d, n);
    }
  }

  lemma LongNoNumber(v: string, d: string, n: int, t: string)
    requires t != "" && |d| > |v|
    ensures n > 0 ==> After(v, d, n) != t
  {
    if n > 0 {
      LongSeparator(v, d, n);
    }
  }

  lemma FixedIsShort(raw: string)
    requires RefOf(raw).Fixed?
    ensures |RefOf(raw).text| <= |raw|
  {
    TrimIsShorter(raw);
  }

  lemma LongTexts(ref: Ref, k: nat)
    requires !ref.Fixed? && !ref.Nested? && !ref.Unresolved?
    ensures |Plainly(ref, k)| >= k
  {
    RepeatMembers("\n", k);
    RepeatMembers("AAAA", k);
  }

  lemma NoDigitAtEnd(ref: Ref, k: nat)
    requires !ref.Fixed? && k > 0
    ensures var v := Plainly(ref, k); v != "" ==> !JsonPath.IsDigit(v[|v| - 1])
  {
    RepeatMembers("\n", k);
    RepeatMembers("AAAA", k);
    var a, b := Repeat("\n", k), Repeat("AAAA", k);
    assert a[|a| - 1] in a && b[|b| - 1] in b;
  }

  // The exact condition.

  function Length(words: seq<string>): nat {
    if words == [] then 1 else |words[0]| + Length(words[1..])
  }

  lemma {:induction false} WordsAreShorter(words: seq<string>)
    ensures forall w | w in words :: |w| < Length(words)
    ensures Length(words) > 0
  {
    if words != [] {
      WordsAreShorter(words[1..]);
    }
  }

  lemma {:induction false} WordsOfItems(items: seq<Item>)
    ensures forall item, w | item in items && w in Words(item) :: w in AllWords(items)
  {
    if items != [] {
      WordsOfItems(items[1..]);
    }
  }

  /**
   Either at most one place is harmful, or each harmful one loses text in the environment above, so
   that they cannot make up for each other.
   */
  predicate CannotCancel(items: seq<Item>)
    requires AllItems(items) && forall p | p in Taken(items) :: IsPlace(p)
  {
    var k := Length(AllWords(items));
    Harmful(Taken(items)) <= 1 ||
    forall p | p in Taken(items) ::
      Harmless(p) || (Index(p).Some? && Loses(Plainly(ValueRef(p), k), Plainly(DelimRef(p), k), p))
  }

  predicate Settled(items: seq<Item>)
    requires AllItems(items)
  {
    && (forall p | p in Taken(items) :: IsPlace(p))
    && (forall p | p in Taken(items) :: !Doubtful(p))
    && CannotCancel(items)
  }

  /** A call that always fails fails. */
  lemma CertainlyFails(env: Env, item: Item)
    requires IsItem(item) && AlwaysFails(item)
    ensures Meaning(env, item).Err?
  {
    if item.Call? {
      var args := [item.name] + item.args;
      assert forall i | 0 <= i < |item.args| :: args[i + 1] == item.args[i];
      match FnNamed(Lower(item.name)).value
      case SplitPart => UnresolvedFails(env, args[1], args[3]);
      case UrlEncode => UnresolvedFails(env, args[1], args[1]);
      case Base64Decode => UnresolvedFails(env, args[1], args[1]);
      case LookupJson => assert args[2] == item.args[1];
      case Concat =>
      case RandomPort =>
    }
  }

  lemma UnresolvedFails(env: Env, a: string, b: string)
    ensures RefOf(a).Unresolved? ==> EvalArg(env, a).Err?
    ensures RefOf(b).Unresolved? ==> EvalArg(env, b).Err?
    ensures RefOf(a).Fixed? && Decode(RefOf(a).text).None? ==> Decoded(EvalArg(env, a)).Err?
  {
  }

  lemma {:induction false} SomeFailsFails(env: Env, items: seq<Item>)
    requires AllItems(items) && SomeFails(items)
    ensures Meanings(env, items).Err?
    decreases |items|
  {
    var i :| 0 <= i < |items| && AlwaysFails(items[i]);
    if i == 0 {
      CertainlyFails(env, items[0]);
    } else {
      assert items[1..][i - 1] == items[i];
      SomeFailsFails(env, items[1..]);
    }
  }

  lemma {:induction false} HarmlessAgree(env: Env, places: seq<Place>)
    requires forall p | p in places :: IsPlace(p)
    requires Harmful(places) == 0
    ensures Disagreeing(env, places) == 0
  {
    if places != [] {
      assert forall p | p in places[1..] :: p in places;
      HarmlessAgree(env, places[1..]);
    }
  }

  lemma {:induction false} HarmfulDisagree(lib: Lib, names: set<string>, k: nat, places: seq<Place>)
    requires forall p | p in places :: IsPlace(p)
    requires forall p | p in places :: Ready(names, k, p) && !Doubtful(p)
    ensures Disagreeing(Ground(lib, names, k), places) == Harmful(places)
  {
    if places != [] {
      var p := places[0];
      assert p in places && forall x | x in places[1..] :: x in places;
      HarmfulDisagree(lib, names, k, places[1..]);
      if !Harmless(p) {
        HarmDisagrees(lib, names, k, p);
      }
    }
  }

  function NamesIn(items: seq<Item>): set<string> {
    (set w | w in AllWords(items) && RefOf(w).Variable? :: RefOf(w).key) + set w | w in AllWords(items) :: LookedUp(w)
  }

  lemma NamesAreIn(items: seq<Item>)
    ensures forall w | w in AllWords(items) :: Names(NamesIn(items), w)
  {
  }

  /** In that environment the readings differ, unless an item always fails or all places are harmless. */
  lemma GroundDiffers(lib: Lib, items: seq<Item>)
    requires Sound(lib) && AllItems(items) && Settled(items) && !SomeFails(items) && Harmful(Taken(items)) > 0
    ensures AllItems(Greedy(items))
    ensures var env := Ground(lib, NamesIn(items), Length(AllWords(items)));
      Meanings(env, items) != Meanings(env, Greedy(items))
  {
    var names, k := NamesIn(items), Length(AllWords(items));
    var env := Ground(lib, names, k);
    NamesAreIn(items);
    GroundWorksForAll(lib, names, k, items);
    ReadingsCompare(env, items);
    PlacesAreKnown(items, names, k);
    HarmfulDisagree(lib, names, k, Taken(items));
    if Harmful(Taken(items)) > 1 {
      LosersLose(lib, names, k, items);
      LosingReadings(env, items);
    }
  }

  lemma PlacesAreKnown(items: seq<Item>, names: set<string>, k: nat)
    requires AllItems(items) && !SomeFails(items) && k == Length(AllWords(items))
    requires forall w | w in AllWords(items) :: Names(names, w)
    ensures forall p | p in Taken(items) :: Ready(names, k, p)
  {
    TakenArePlaces(items);
    WordsOfItems(items);
    WordsAreShorter(AllWords(items));
    forall p | p in Taken(items) ensures Ready(names, k, p) {
      var i :| 0 <= i < |items| && items[i] == p.call;
      assert p.call.args[0] in Words(p.call) && p.call.args[2] in Words(p.call);
    }
  }

  lemma LosersLose(lib: Lib, names: set<string>, k: nat, items: seq<Item>)
    requires AllItems(items) && Settled(items) && Harmful(Taken(items)) > 1 && k == Length(AllWords(items))
    requires forall p | p in Taken(items) :: Ready(names, k, p)
    ensures AllAgreeOrLose(Ground(lib, names, k), Taken(items))
  {
    forall p | p in Taken(items) && !Harmless(p)
      ensures Loses(TextOf(Ground(lib, names, k), ValueRef(p)), TextOf(Ground(lib, names, k), DelimRef(p)), p)
    {
      GroundReads(lib, names, k, p.call.args[0]);
      GroundReads(lib, names, k, p.call.args[2]);
    }
  }

  /**
   A `concat` has the values of its written items whatever the variables, the columns and the port
   are, exactly if one of the items always fails or every place is harmless.
   */
  lemma ConcatMeansItemsExactly(lib: Lib, inner: string, name: string, items: seq<Item>)
    requires Sound(lib) && Lower(name) == "concat" && AllItems(items) && Settled(items)
    requires Split(inner) == [name] + AllWords(items)
    ensures (forall env: Env | env.lib == lib :: EvalExpr(env, inner) == Meanings(env, items)) <==>
      SomeFails(items) || Harmful(Taken(items)) == 0
  {
    if SomeFails(items) || Harmful(Taken(items)) == 0 {
      forall env: Env | env.lib == lib ensures EvalExpr(env, inner) == Meanings(env, items) {
        ConcatMeansGreedily(env, inner, name, items);
        ReadingsFailAlike(env, items);
        if SomeFails(items) {
          SomeFailsFails(env, items);
        } else if Meanings(env, items).Ok? {
          ReadingsCompare(env, items);
          HarmlessAgree(env, Taken(items));
        }
      }
    } else {
      var env := Ground(lib, NamesIn(items), Length(AllWords(items)));
      GroundDiffers(lib, items);
      ConcatMeansGreedily(env, inner, name, items);
      assert env.lib == lib;
    }
  }

  /** Every list of items has values in some environment, unless one of them always fails. */
  lemma SomeEnvironmentSucceeds(lib: Lib, items: seq<Item>)
    requires Sound(lib) && AllItems(items)
    ensures (exists env: Env :: env.lib == lib && Meanings(env, items).Ok?) <==> !SomeFails(items)
  {
    if SomeFails(items) {
      forall env: Env ensures Meanings(env, items).Err? {
        SomeFailsFails(env, items);
      }
    } else {
      NamesAreIn(items);
      GroundWorksForAll(lib, NamesIn(items), 0, items);
      assert Ground(lib, NamesIn(items), 0).lib == lib;
    }
  }
}
