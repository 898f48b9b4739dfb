/** When the greedy reading of a `concat` has the value of the written items. */
module TemplateReadings {
  import opened TemplateArgs
  import opened TemplateEval
  import opened TemplateItems
  import opened Strings
  import opened Pieces
  import opened Base64
  import opened Wrappers
  import JsonPath

  /** A `split_part` and the number behind it that becomes its limit. */
  datatype Place = Place(call: Item, number: string)

  /** The places at which the greedy reading takes a number. */
  function Taken(items: seq<Item>): seq<Place>
    decreases |items|
  {
    if items == [] then []
    else if Takes(items) then [Place(items[0], items[1].arg)] + Taken(items[2..])
    else Taken(items[1..])
  }

  predicate IsPlace(p: Place) {
    OpenEnded(p.call) && IsItem(p.call) && Atoi(Trim(p.number)).Some?
  }

  function ValueRef(p: Place): Ref
    requires IsPlace(p)
  {
    RefOf(p.call.args[0])
  }

  function DelimRef(p: Place): Ref
    requires IsPlace(p)
  {
    RefOf(p.call.args[2])
  }

  function Index(p: Place): Option<int>
    requires IsPlace(p)
  {
    Atoi(Trim(p.call.args[1]))
  }

  function Number(p: Place): int
    requires IsPlace(p)
  {
    Atoi(Trim(p.number)).value
  }

  lemma {:induction false} TakenArePlaces(items: seq<Item>)
    requires AllItems(items)
    ensures forall p | p in Taken(items) :: IsPlace(p) && p.call in items
    ensures Taken(items) == [] <==> Greedy(items) == items
    decreases |items|
  {
    if Takes(items) {
      assert IsItem(items[0]) && items[0] in items;
      TakenArePlaces(items[2..]);
      assert Greedy(items)[0] == Filled(items[0], items[1].arg) != items[0];
    } else if items != [] {
      TakenArePlaces(items[1..]);
      assert items == [items[0]] + items[1..] && Greedy(items)[1..] == Greedy(items[1..]);
    }
  }

  // In one environment.

  function TextOf(env: Env, ref: Ref): string {
    if Read(env, ref).Ok? then Read(env, ref).text else ""
  }

  /** The limit hands the piece exactly the digits it takes away from behind it. */
  predicate Agrees(env: Env, p: Place)
    requires IsPlace(p)
  {
    Index(p).Some? &&
    CutsOff(TextOf(env, ValueRef(p)), TextOf(env, DelimRef(p)), Index(p).value, Number(p), Trim(p.number))
  }

  /** With these texts the limit hands the piece nothing. */
  predicate Loses(val: string, delim: string, p: Place)
    requires IsPlace(p) && Index(p).Some?
  {
    Number(p) <= 0 || Number(p) != Index(p).value + 1 || After(val, delim, Number(p)) == ""
  }

  lemma NumbersMeanThemselves(env: Env, number: string)
    requires Atoi(Trim(number)).Some?
    ensures EvalArg(env, number) == Ok(Trim(number)) && Trim(number) != ""
    ensures JsonPath.IsDigit(Trim(number)[|Trim(number)| - 1])
  {
    var n := Trim(number);
    forall k | 0 <= k < |n| ensures n[k] != '.' && !IsQuote(n[k]) {
      if k > 0 && !JsonPath.AllDigits(n) {
        assert n[1..][k - 1] == n[k] && JsonPath.IsDigit(n[1..][k - 1]);
      }
    }
    if !JsonPath.AllDigits(n) {
      assert JsonPath.IsDigit(n[1..][|n| - 2]);
    }
  }

  /** The meanings of a call with and without the number, as far as it has one. */
  lemma CallMeanings(env: Env, p: Place)
    requires IsPlace(p)
    ensures IsItem(Filled(p.call, p.number))
    ensures var a, b := Meaning(env, p.call), Meaning(env, Filled(p.call, p.number));
      && (a.Err? || b.Err? ==> a == b)
      && (Index(p).None? ==> a.Err?)
      && (a.Ok? ==>
            var val, delim := TextOf(env, ValueRef(p)), TextOf(env, DelimRef(p));
            && Index(p).Some? && a.text == Part(val, Index(p).value, delim, 0)
            && b.Ok? && b.text == Part(val, Index(p).value, delim, Number(p)))
  {
    FilledIsItem(p.call, p.number);
    var a, b := [p.call.name] + p.call.args, [p.call.name] + Filled(p.call, p.number).args;
    assert a[1] == b[1] == p.call.args[0] && a[2] == b[2] == p.call.args[1] && a[3] == b[3] == p.call.args[2];
    assert |a| == 4 && |b| == 5 && b[4] == p.number;
  }

  /** A place has the same value in both readings exactly if it agrees. */
  lemma PlaceMeans(env: Env, p: Place)
    requires IsPlace(p) && Meaning(env, p.call).Ok?
    ensures IsItem(Filled(p.call, p.number)) && Meaning(env, Filled(p.call, p.number)).Ok? && Index(p).Some?
    ensures var written := Meaning(env, p.call).text + Trim(p.number);
      var limited := Meaning(env, Filled(p.call, p.number)).text;
      && (written == limited <==> Agrees(env, p))
      && (Loses(TextOf(env, ValueRef(p)), TextOf(env, DelimRef(p)), p) ==> |limited| < |written|)
  {
    CallMeanings(env, p);
    NumbersMeanThemselves(env, p.number);
    LimitedPart(TextOf(env, ValueRef(p)), TextOf(env, DelimRef(p)), Index(p).value, Number(p), Trim(p.number));
  }

  /** Both readings fail in the same environments, with the same error. */
  lemma {:induction false} ReadingsFailAlike(env: Env, items: seq<Item>)
    requires AllItems(items)
    ensures AllItems(Greedy(items))
    ensures Meanings(env, items).Err? || Meanings(env, Greedy(items)).Err? ==>
      Meanings(env, items) == Meanings(env, Greedy(items))
    decreases |items|
  {
    GreedyReads(items);
    if Takes(items) {
      var p, rest := Place(items[0], items[1].arg), items[2..];
      assert IsItem(items[0]);
      CallMeanings(env, p);
      NumbersMeanThemselves(env, p.number);
      ReadingsFailAlike(env, rest);
      TakenMeanings(env, items);
    } else if items != [] {
      ReadingsFailAlike(env, items[1..]);
      assert Greedy(items)[0] == items[0] && Greedy(items)[1..] == Greedy(items[1..]);
    }
  }

  /** Both readings of a list that begins with a place. */
  lemma TakenMeanings(env: Env, items: seq<Item>)
    requires AllItems(items) && Takes(items) && AllItems(Greedy(items)) && AllItems(Greedy(items[2..]))
    requires IsItem(Filled(items[0], items[1].arg))
    ensures AllItems(items[2..])
    ensures Meanings(env, items) ==
      Then(Meaning(env, items[0]), Then(EvalArg(env, items[1].arg), Meanings(env, items[2..])))
    ensures Meanings(env, Greedy(items)) ==
      Then(Meaning(env, Filled(items[0], items[1].arg)), Meanings(env, Greedy(items[2..])))
  {
    assert items[1..][0] == items[1] && items[1..][1..] == items[2..];
    assert Greedy(items)[0] == Filled(items[0], items[1].arg) && Greedy(items)[1..] == Greedy(items[2..]);
  }

  /** At how many places the readings differ. */
  function Disagreeing(env: Env, places: seq<Place>): nat
    requires forall p | p in places :: IsPlace(p)
  {
    if places == [] then 0
    else (if Agrees(env, places[0]) then 0 else 1) + Disagreeing(env, places[1..])
  }

  /**
   In every environment in which the items have values: if no place disagrees, the two readings have
   the same value, and if exactly one does, they have not.
   */
  lemma {:induction false} ReadingsCompare(env: Env, items: seq<Item>)
    requires AllItems(items) && Meanings(env, items).Ok?
    ensures AllItems(Greedy(items)) && Meanings(env, Greedy(items)).Ok?
    ensures forall p | p in Taken(items) :: IsPlace(p)
    ensures var same := Meanings(env, items).text == Meanings(env, Greedy(items)).text;
      && (Disagreeing(env, Taken(items)) == 0 ==> same)
      && (Disagreeing(env, Taken(items)) == 1 ==> !same)
    decreases |items|
  {
    ReadingsFailAlike(env, items);
    TakenArePlaces(items);
    if Takes(items) {
      CompareTaken(env, items);
    } else if items != [] {
      ReadingsCompare(env, items[1..]);
      assert Greedy(items)[0] == items[0] && Greedy(items)[1..] == Greedy(items[1..]);
      SamePrefix(Meaning(env, items[0]).text, Meanings(env, items[1..]).text, Meanings(env, Greedy(items[1..])).text);
    }
  }

  lemma {:induction false} CompareTaken(env: Env, items: seq<Item>)
    requires AllItems(items) && Meanings(env, items).Ok? && Takes(items) && AllItems(Greedy(items))
    requires forall p | p in Taken(items) :: IsPlace(p)
    ensures Meanings(env, Greedy(items)).Ok?
    ensures var same := Meanings(env, items).text == Meanings(env, Greedy(items)).text;
      && (Disagreeing(env, Taken(items)) == 0 ==> same)
      && (Disagreeing(env, Taken(items)) == 1 ==> !same)
    decreases |items|, 0
  {
    var p, rest := Place(items[0], items[1].arg), items[2..];
    assert Taken(items)[0] == p && Taken(items)[1..] == Taken(rest) && p in Taken(items);
    GreedyReads(rest);
    CallMeanings(env, p);
    TakenMeanings(env, items);
    NumbersMeanThemselves(env, p.number);
    ReadingsCompare(env, rest);
    PlaceMeans(env, p);
    Compare(Meaning(env, p.call).text, Trim(p.number), Meanings(env, rest).text,
            Meaning(env, Filled(p.call, p.number)).text, Meanings(env, Greedy(rest)).text);
  }

  lemma Compare(a: string, t: string, more: string, b: string, rest: string)
    ensures a + (t + more) == (a + t) + more
    ensures a + t == b ==> (a + (t + more) == b + rest <==> more == rest)
    ensures more == rest ==> (a + (t + more) == b + rest <==> a + t == b)
  {
    assert a + (t + more) == (a + t) + more;
    SamePrefix(b, more, rest);
    SameSuffix(a + t, b, more);
  }

  lemma SameSuffix(a: string, b: string, rest: string)
    ensures a + rest == b + rest <==> a == b
  {
    if a + rest == b + rest {
      assert |a| == |b|;
      assert (a + rest)[..|a|] == a && (b + rest)[..|b|] == b;
    }
  }

  ghost predicate AllAgreeOrLose(env: Env, places: seq<Place>)
    requires forall p | p in places :: IsPlace(p)
  {
    forall p | p in places ::
      Agrees(env, p) || (Index(p).Some? && Loses(TextOf(env, ValueRef(p)), TextOf(env, DelimRef(p)), p))
  }

  /** Places that only lose text cannot make up for each other. */
  lemma {:induction false} LosingReadings(env: Env, items: seq<Item>)
    requires AllItems(items) && Meanings(env, items).Ok?
    requires forall p | p in Taken(items) :: IsPlace(p)
    requires AllAgreeOrLose(env, Taken(items))
    ensures AllItems(Greedy(items)) && Meanings(env, Greedy(items)).Ok?
    ensures var a, b := Meanings(env, items).text, Meanings(env, Greedy(items)).text;
      |b| <= |a| && (Disagreeing(env, Taken(items)) > 0 ==> |b| < |a|)
    decreases |items|
  {
    ReadingsFailAlike(env, items);
    if Takes(items) {
      var p, rest := Place(items[0], items[1].arg), items[2..];
      assert Taken(items)[0] == p && Taken(items)[1..] == Taken(rest) && p in Taken(items);
      assert forall x | x in Taken(rest) :: x in Taken(items);
      GreedyReads(rest);
      CallMeanings(env, p);
      TakenMeanings(env, items);
      NumbersMeanThemselves(env, p.number);
      LosingReadings(env, rest);
      PlaceMeans(env, p);
    } else if items != [] {
      LosingReadings(env, items[1..]);
      assert Greedy(items)[0] == items[0] && Greedy(items)[1..] == Greedy(items[1..]);
    }
  }
}
