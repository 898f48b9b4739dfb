/** What a `concat` means: the items it is written of, and the greedy reading of them. */
module TemplateItems {
  import opened TemplateArgs
  import opened TemplateEval
  import opened Strings
  import opened Wrappers
  import JsonPath

  datatype Item = Plain(arg: string) | Call(name: string, args: seq<string>)

  predicate IsItem(item: Item) {
    match item
    case Plain(arg) => !IsFn(arg)
    case Call(name, args) =>
      FnNamed(Lower(name)).Some? &&
      match FnNamed(Lower(name)).value
      case SplitPart => |args| == 3 || (|args| == 4 && Atoi(Trim(args[3])).Some?)
      case UrlEncode => |args| == 1
      case Base64Decode => |args| == 1
      case LookupJson => |args| == 2
      case Concat => |args| == 0
      case RandomPort => |args| == 0
  }

  predicate AllItems(items: seq<Item>) {
    forall i | 0 <= i < |items| :: IsItem(items[i])
  }

  function Words(item: Item): seq<string> {
    match item
    case Plain(arg) => [arg]
    case Call(name, args) => [name] + args
  }

  function AllWords(items: seq<Item>): seq<string> {
    if items == [] then [] else Words(items[0]) + AllWords(items[1..])
  }

  /** A `split_part` without its optional last argument. */
  predicate OpenEnded(item: Item) {
    item.Call? && FnNamed(Lower(item.name)) == Some(SplitPart) && |item.args| == 3
  }

  /** No word that reads as an integer follows a `split_part` written without its last argument. */
  predicate Separable(items: seq<Item>) {
    forall i | 0 <= i < |items| - 1 ::
      OpenEnded(items[i]) ==> Words(items[i + 1]) != [] && Atoi(Trim(Words(items[i + 1])[0])).None?
  }

  function Meaning(env: Env, item: Item): Result
    requires IsItem(item)
  {
    match item
    case Plain(arg) => EvalArg(env, arg)
    case Call(name, args) => Apply(env, FnNamed(Lower(name)).value, [name] + args)
  }

  function Meanings(env: Env, items: seq<Item>): Result
    requires AllItems(items)
  {
    if items == [] then Ok("") else Then(Meaning(env, items[0]), Meanings(env, items[1..]))
  }

  /** A function's name is not changed by trimming. */
  lemma NameIsTrimmed(name: string)
    requires FnNamed(Lower(name)).Some?
    ensures Trim(name) == name
  {
    assert name != "" && Lower(name)[0] == LowerChar(name[0]);
    assert Lower(name)[|name| - 1] == LowerChar(name[|name| - 1]);
    assert !IsSpace(Lower(name)[0]) && !IsSpace(Lower(name)[|name| - 1]);
  }

  lemma CallEndsAfterItem(before: seq<string>, item: Item, after: seq<string>)
    requires item.Call? && IsItem(item)
    requires OpenEnded(item) && after != [] ==> Atoi(Trim(after[0])).None?
    ensures IsFn(item.name)
    ensures CallEnd(before + Words(item) + after, |before|) == Some(|before| + |Words(item)|)
  {
    var words := before + Words(item) + after;
    NameIsTrimmed(item.name);
    assert words[|before|] == item.name;
    if FnNamed(Lower(item.name)) == Some(SplitPart) {
      if |item.args| == 4 {
        assert words[|before| + 4] == item.args[3];
      } else if after != [] {
        assert words[|before| + 4] == after[0];
      }
    }
  }

  lemma CallMeans(env: Env, item: Item)
    requires item.Call? && IsItem(item)
    ensures EvalArgs(env, Words(item)) == Meaning(env, item)
  {
    assert Words(item)[0] == item.name;
  }

  lemma {:induction false} WordsMean(env: Env, before: seq<string>, items: seq<Item>)
    requires before != [] && Separable(items)
    requires AllItems(items)
    ensures ConcatArgs(env, before + AllWords(items), |before|) == Meanings(env, items)
    decreases |items|
  {
    if items != [] {
      var item, after := items[0], AllWords(items[1..]);
      var words, i, next := before + AllWords(items), |before|, |before| + |Words(items[0])|;
      assert words == before + Words(item) + after;
      assert words[i..next] == Words(item);
      WordsMean(env, before + Words(item), items[1..]);
      assert before + Words(item) + AllWords(items[1..]) == words;
      if item.Plain? {
        assert words[i] == item.arg;
      } else {
        if |items| > 1 {
          assert Words(items[1]) != [] && after[0] == Words(items[1])[0];
        }
        CallEndsAfterItem(before, item, after);
        CallMeans(env, item);
        assert words[i] == item.name;
      }
    }
  }

  /**
  The source's evaluator gives a `concat` the meaning its items have: `inner` may be laid out
  with any blanks between the words of the items.
  */
  lemma {:induction false} ConcatMeansItsItems(env: Env, inner: string, name: string, items: seq<Item>)
    requires Lower(name) == "concat" && Separable(items)
    requires AllItems(items)
    requires Split(inner) == [name] + AllWords(items)
    ensures EvalExpr(env, inner) == Meanings(env, items)
  {
    EvalIsOverArguments(env, inner);
    WordsMean(env, [name], items);
  }

  // The reading that the evaluator gives any list of items.

  /** A `split_part` with its optional last argument filled in. */
  function Filled(call: Item, number: string): Item
    requires call.Call?
  {
    Call(call.name, call.args + [number])
  }

  predicate IsNumber(item: Item) {
    item.Plain? && Atoi(Trim(item.arg)).Some?
  }

  /** The first item is a `split_part` that takes the number after it as its last argument. */
  predicate Takes(items: seq<Item>) {
    |items| > 1 && OpenEnded(items[0]) && IsNumber(items[1])
  }

  function Greedy(items: seq<Item>): seq<Item>
    decreases |items|
  {
    if items == [] then []
    else if Takes(items) then [Filled(items[0], items[1].arg)] + Greedy(items[2..])
    else [items[0]] + Greedy(items[1..])
  }

  lemma NamesAreNoNumbers(name: string)
    requires FnNamed(Lower(name)).Some?
    ensures Atoi(Trim(name)).None?
  {
    NameIsTrimmed(name);
    assert Lower(name)[0] == LowerChar(name[0]);
    assert !JsonPath.IsDigit(name[0]);
  }

  /** Without a number to take, the next item does not read as one. */
  lemma NextIsNoNumber(items: seq<Item>)
    requires AllItems(items) && |items| > 1 && OpenEnded(items[0]) && !IsNumber(items[1])
    ensures Words(items[1]) != [] && Atoi(Trim(Words(items[1])[0])).None?
  {
    if items[1].Call? {
      NamesAreNoNumbers(items[1].name);
    }
  }

  lemma FilledIsItem(call: Item, number: string)
    requires OpenEnded(call) && IsItem(call) && Atoi(Trim(number)).Some?
    ensures IsItem(Filled(call, number)) && !OpenEnded(Filled(call, number))
  {
    assert Filled(call, number).args[3] == number;
  }

  lemma TakenWords(items: seq<Item>)
    requires Takes(items)
    ensures AllWords(items) == Words(Filled(items[0], items[1].arg)) + AllWords(items[2..])
    ensures Words(Filled(items[0], items[1].arg))[0] == Words(items[0])[0]
  {
    var call, number, rest := items[0], items[1].arg, items[2..];
    assert items[1..][0] == Plain(number) && items[1..][1..] == rest;
    assert AllWords(items[1..]) == [number] + AllWords(rest);
    assert [call.name] + call.args + ([number] + AllWords(rest)) ==
      [call.name] + (call.args + [number]) + AllWords(rest);
  }

  /** The greedy reading has the same words and leaves nothing more to take. */
  lemma {:induction false} GreedyReads(items: seq<Item>)
    requires AllItems(items)
    ensures AllItems(Greedy(items)) && Separable(Greedy(items))
    ensures AllWords(Greedy(items)) == AllWords(items)
    ensures items != [] ==> Greedy(items) != [] && Words(Greedy(items)[0])[0] == Words(items[0])[0]
    decreases |items|
  {
    if Takes(items) {
      var item := Filled(items[0], items[1].arg);
      assert IsItem(items[0]) && IsItem(items[1]);
      FilledIsItem(items[0], items[1].arg);
      GreedyReads(items[2..]);
      Prepend(item, Greedy(items[2..]));
      TakenWords(items);
    } else if items != [] {
      GreedyReads(items[1..]);
      if |items| > 1 && OpenEnded(items[0]) {
        NextIsNoNumber(items);
      }
      Prepend(items[0], Greedy(items[1..]));
    }
  }

  lemma Prepend(item: Item, items: seq<Item>)
    requires IsItem(item) && AllItems(items) && Separable(items)
    requires OpenEnded(item) && items != [] ==> Words(items[0]) != [] && Atoi(Trim(Words(items[0])[0])).None?
    ensures AllItems([item] + items) && Separable([item] + items)
    ensures AllWords([item] + items) == Words(item) + AllWords(items)
  {
    var all := [item] + items;
    forall i | 0 <= i < |all| - 1 && OpenEnded(all[i])
      ensures Words(all[i + 1]) != [] && Atoi(Trim(Words(all[i + 1])[0])).None?
    {
      if i > 0 {
        assert all[i] == items[i - 1] && all[i + 1] == items[i];
      }
    }
  }

  predicate NoNumberNext(items: seq<Item>)
    requires |items| > 1
  {
    Words(items[1]) != [] && Atoi(Trim(Words(items[1])[0])).None?
  }

  lemma SeparableSplits(items: seq<Item>)
    requires items != []
    ensures Separable(items) <==>
      (|items| > 1 && OpenEnded(items[0]) ==> NoNumberNext(items)) && Separable(items[1..])
  {
    var rest := items[1..];
    assert forall i | 0 <= i < |rest| :: rest[i] == items[i + 1];
    if Separable(items) {
      forall i | 0 <= i < |rest| - 1 && OpenEnded(rest[i])
        ensures Words(rest[i + 1]) != [] && Atoi(Trim(Words(rest[i + 1])[0])).None?
      {
        assert OpenEnded(items[i + 1]);
      }
    }
    if (|items| > 1 && OpenEnded(items[0]) ==> NoNumberNext(items)) && Separable(rest) {
      forall i | 0 <= i < |items| - 1 && OpenEnded(items[i])
        ensures Words(items[i + 1]) != [] && Atoi(Trim(Words(items[i + 1])[0])).None?
      {
        if i > 0 {
          assert OpenEnded(rest[i - 1]);
        }
      }
    }
  }

  /** Nothing is taken exactly from separable lists. */
  lemma {:induction false} GreedyTakesNothing(items: seq<Item>)
    requires AllItems(items)
    ensures Greedy(items) == items <==> Separable(items)
    decreases |items|
  {
    if items != [] {
      SeparableSplits(items);
      if Takes(items) {
        TakenIsDifferent(items);
      } else {
        GreedyTakesNothing(items[1..]);
        if |items| > 1 && OpenEnded(items[0]) {
          NextIsNoNumber(items);
        }
        assert Greedy(items)[1..] == Greedy(items[1..]) && [items[0]] + items[1..] == items;
      }
    }
  }

  lemma TakenIsDifferent(items: seq<Item>)
    requires AllItems(items) && Takes(items)
    ensures Greedy(items) != items && OpenEnded(items[0]) && !NoNumberNext(items)
  {
    assert Words(items[1])[0] == items[1].arg;
    assert Greedy(items)[0] == Filled(items[0], items[1].arg) != items[0];
  }

  /** Whatever the items, the evaluator gives a `concat` the meaning of their greedy reading. */
  lemma ConcatMeansGreedily(env: Env, inner: string, name: string, items: seq<Item>)
    requires Lower(name) == "concat" && AllItems(items)
    requires Split(inner) == [name] + AllWords(items)
    ensures AllItems(Greedy(items))
    ensures EvalExpr(env, inner) == Meanings(env, Greedy(items))
  {
    GreedyReads(items);
    ConcatMeansItsItems(env, inner, name, Greedy(items));
  }
}
