/** The template evaluator, by joining and splitting and on lists. */
module TemplateEval {
  import opened TemplateArgs
  import opened Strings
  import opened Pieces
  import opened Base64
  import opened Wrappers
  import JsonPath

  // Expressions are evaluated over the arguments of a placeholder; `concat` cuts its argument list into
  // calls that it joins and evaluates as expressions again.

  datatype Error =
    | EmptyTemplate | MissingArguments | BadIndex | NoPort | EmptyVariable | UnknownFunction
    | UnknownSource | BadBase64 | EmptyPath | EmptyJson | Foreign(message: string)

  datatype Result = Ok(text: string) | Err(error: Error)

  /**
   The library functions this model does not define: query escaping, the lookup of a path in a JSON
   text, and the nested fields of an order's JSON column.
   */
  datatype Lib = Lib(
    escape: string -> string,
    query: (string, string) -> Result,
    nested: (string, string) -> string)

  /** What differs between evaluations: the variables, the columns of order and supplier, the port. */
  datatype Env = Env(
    lib: Lib,
    vars: map<string, string>,
    order: string -> string,
    supplier: string -> string,
    port: Option<string>)

  function Atoi(s: string): Option<int> {
    JsonPath.ParseIndex(s)
  }

  // Functions of the template language.

  datatype Fn = UrlEncode | Base64Decode | Concat | SplitPart | RandomPort | LookupJson

  function FnNamed(name: string): Option<Fn> {
    if name == "urlencode" then Some(UrlEncode)
    else if name == "base64_decode" then Some(Base64Decode)
    else if name == "concat" then Some(Concat)
    else if name == "split_part" then Some(SplitPart)
    else if name == "random_port" then Some(RandomPort)
    else if name == "json_path" then Some(LookupJson)
    else None
  }

  /** isSubmitTemplateFn: the name is trimmed here, though not when the call is evaluated. */
  predicate IsFn(name: string) {
    FnNamed(Lower(Trim(name))).Some?
  }

  /** templateFnArity. */
  function Arity(name: string): nat {
    match FnNamed(Lower(Trim(name)))
    case Some(SplitPart) => 3
    case Some(UrlEncode) => 1
    case Some(Base64Decode) => 1
    case Some(LookupJson) => 2
    case Some(Concat) => 0
    case Some(RandomPort) => 0
    case None => 0
  }

  // Evaluation of one argument.

  /** What stands before the first dot. */
  function Source(s: string): string {
    if s == "" || s[0] == '.' then "" else [s[0]] + Source(s[1..])
  }

  lemma {:induction false} SourceIsShorter(s: string)
    requires '.' in s
    ensures |Source(s)| < |s|
  {
    if s[0] != '.' {
      assert '.' in s[1..];
      SourceIsShorter(s[1..]);
    }
  }

  /** What an argument says: a fixed text, a variable, or a column of the order or its supplier. */
  datatype Ref =
    | Fixed(text: string)
    | Variable(key: string)
    | OrderColumn(column: string)
    | Nested(subkey: string)
    | Address
    | SupplierColumn(column: string)
    | Unresolved

  const COLUMNS: seq<string> := [
    "oid", "hid", "user", "pass", "school", "noun", "kcid", "kcname", "utime", "uscore", "study_speed",
    "is_submit_exam", "exam_time", "name", "status", "process", "remarks", "dockstatus", "yid", "isck",
    "simple_day_score", "simple_total_score", "simple_learn_time", "ikun_study_ip", "expand"]

  /** Second spellings of columns. */
  function Spelled(key: string): string {
    if key == "u_time" then "utime"
    else if key == "u_score" then "uscore"
    else if key == "dock_status" then "dockstatus"
    else if key == "is_ck" then "isck"
    else key
  }

  /** orderField; a column that is not known reads as an empty text. */
  function OrderRef(key: string): Ref {
    var column := Spelled(Lower(Trim(key)));
    if column in COLUMNS then OrderColumn(column)
    else if |key| >= 7 && Lower(key[..7]) == "expand." then Nested(Lower(Trim(key[7..])))
    else Fixed("")
  }

  /** huoyuanField. */
  function SupplierRef(key: string): Ref {
    if key == "url" || key == "URL" then Address
    else if key == "user" || key == "pass" || key == "token" || key == "cookie" then SupplierColumn(key)
    else Fixed("")
  }

  /** An argument without quotes. */
  function Unquoted(arg: string): Ref {
    if '.' !in arg then Fixed(arg)
    else
      SourceIsShorter(arg);
      var source, key := Source(arg), arg[|Source(arg)| + 1..];
      if Lower(source) == "var" then Variable(Trim(key))
      else if source == "order" then OrderRef(key)
      else if source == "huoyuan" then SupplierRef(key)
      else Unresolved
  }

  function RefOf(raw: string): Ref {
    var arg := Trim(raw);
    if |arg| >= 2 && IsQuote(arg[0]) && arg[|arg| - 1] == arg[0] then Fixed(arg[1..|arg| - 1]) else Unquoted(arg)
  }

  function Var(env: Env, key: string): string {
    if key in env.vars then env.vars[key] else ""
  }

  function Read(env: Env, ref: Ref): Result {
    match ref
    case Fixed(text) => Ok(text)
    case Variable(key) => Ok(Var(env, key))
    case OrderColumn(column) => Ok(env.order(column))
    case Nested(subkey) =>
      Ok(if Trim(env.order("expand")) == "" then "" else env.lib.nested(env.order("expand"), subkey))
    case Address => Ok(DropLast(Trim(env.supplier("url")), '/'))
    case SupplierColumn(column) => Ok(env.supplier(column))
    case Unresolved => Err(UnknownSource)
  }

  /** evalSubmitTemplateArg. */
  function EvalArg(env: Env, raw: string): Result {
    Read(env, RefOf(raw))
  }

  function Decoded(val: Result): Result {
    if val.Err? then val
    else if Decode(val.text).None? then Err(BadBase64)
    else Ok(Decode(val.text).value)
  }

  function Limit(args: seq<string>): int {
    if |args| < 5 then 0
    else
      var n := Atoi(Trim(args[4]));
      if n.Some? then n.value else 0
  }

  function PartOf(env: Env, val: Result, args: seq<string>, delim: Result): Result
    requires |args| >= 4
  {
    if val.Err? then val
    else if Atoi(Trim(args[2])).None? then Err(BadIndex)
    else if delim.Err? then delim
    else Ok(Part(val.text, Atoi(Trim(args[2])).value, delim.text, Limit(args)))
  }

  function DropVarPrefix(s: string): string {
    if |s| >= 4 && s[..4] == "var." then s[4..] else s
  }

  /** jsonPathString. */
  function JsonPathString(env: Env, raw: string, path: string): Result {
    if Trim(path) == "" then Err(EmptyPath)
    else if Trim(raw) == "" then Err(EmptyJson)
    else env.lib.query(Trim(raw), Trim(path))
  }

  /** The variable that a `json_path` reads. */
  function LookedUp(name: string): string {
    Trim(DropVarPrefix(Trim(name)))
  }

  function LookUp(env: Env, name: string, path: string): Result {
    var raw := Var(env, LookedUp(name));
    if raw == "" then Err(EmptyVariable) else JsonPathString(env, raw, path)
  }

  // Evaluation of expressions, as the source runs it: by joining and splitting.

  /** Where the call that starts at argument `i` of a `concat` ends. */
  function CallEnd(args: seq<string>, i: nat): (end: Option<nat>)
    requires i < |args|
    ensures end.Some? ==> i < end.value <= |args|
  {
    if Lower(args[i]) == "split_part" then
      if i + 4 > |args| then None
      else if i + 4 < |args| && Atoi(Trim(args[i + 4])).Some? then Some(i + 5)
      else Some(i + 4)
    else if i + 1 + Arity(args[i]) > |args| then None
    else Some(i + 1 + Arity(args[i]))
  }

  /** evalSubmitTemplateExpr. The measure is the number of arguments. */
  function EvalExpr(env: Env, inner: string): Result
    decreases |Split(inner)|, 2, 0
  {
    var args := Split(inner);
    SplitIsExact(inner, args);
    if args == [] then Err(EmptyTemplate)
    else
      var fn := Lower(args[0]);
      if fn == "urlencode" then
        if |args| < 2 then Err(MissingArguments)
        else
          var val := EvalArg(env, args[1]);
          if val.Err? then val else Ok(env.lib.escape(val.text))
      else if fn == "base64_decode" then
        if |args| < 2 then Err(MissingArguments)
        else Decoded(EvalArg(env, args[1]))
      else if fn == "concat" then EvalConcat(env, args, 1)
      else if fn == "split_part" then
        if |args| < 4 then Err(MissingArguments)
        else
          TrimmedArgument(args[1]);
          TrimmedArgument(args[3]);
          PartOf(env, EvalArgOrExpr(env, args[1]), args, EvalArgOrExpr(env, args[3]))
      else if fn == "random_port" then
        if env.port.Some? then Ok(env.port.value) else Err(NoPort)
      else if fn == "json_path" then
        if |args| < 3 then Err(MissingArguments) else LookUp(env, args[1], args[2])
      else if '.' in fn && |args| == 1 then EvalArg(env, args[0])
      else Err(UnknownFunction)
  }

  /** evalConcatTemplateArgs from argument `i` on. */
  function EvalConcat(env: Env, args: seq<string>, i: nat): Result
    requires IsArguments(args) && i >= 1
    decreases |args|, 1, if i < |args| then |args| - i else 0
  {
    if i >= |args| then Ok("")
    else if IsFn(args[i]) then
      var end := CallEnd(args, i);
      if end.None? then Err(MissingArguments)
      else
        Rejoins(args[i..end.value]);
        Then(EvalExpr(env, Join(args[i..end.value])), EvalConcat(env, args, end.value))
    else
      TrimmedArgument(args[i]);
      Then(EvalArgOrExpr(env, args[i]), EvalConcat(env, args, i + 1))
  }

  function Then(a: Result, b: Result): Result {
    if a.Err? then a else if b.Err? then b else Ok(a.text + b.text)
  }

  /** evalSubmitTemplateArgOrExpr, which may evaluate its argument as an expression. */
  function EvalArgOrExpr(env: Env, raw: string): Result
    decreases |Split(Trim(raw))|, 3, 0
  {
    var arg := Trim(raw);
    if ' ' in arg && Redispatches(arg) then EvalExpr(env, arg) else EvalArg(env, arg)
  }

  predicate Redispatches(arg: string) {
    var parts := Split(arg);
    |parts| > 0 && IsFn(parts[0])
  }

  method CallEndOf(args: seq<string>, i: nat) returns (r: Option<nat>)
    requires i < |args|
    ensures r == CallEnd(args, i)
  {
    var end := i + 1 + Arity(args[i]);
    if Lower(args[i]) == "split_part" {
      if i + 1 + 3 > |args| {
        return None;
      }
      end := i + 1 + 3;
      if end < |args| {
        var n := Atoi(Trim(args[end]));
        if n.Some? {
          end := end + 1;
        }
      }
    }
    if end > |args| {
      return None;
    }
    r := Some(end);
  }

  lemma ConcatAtCall(env: Env, args: seq<string>, i: nat, end: nat)
    requires IsArguments(args) && 1 <= i < |args| && IsFn(args[i]) && CallEnd(args, i) == Some(end)
    ensures EvalConcat(env, args, i) == Then(EvalExpr(env, Join(args[i..end])), EvalConcat(env, args, end))
  {
  }

  lemma ConcatAtArgument(env: Env, args: seq<string>, i: nat)
    requires IsArguments(args) && 1 <= i < |args| && !IsFn(args[i])
    ensures EvalConcat(env, args, i) == Then(EvalArgOrExpr(env, args[i]), EvalConcat(env, args, i + 1))
  {
  }

  /** The value of the argument or call at `i`, and where the next one starts. */
  method EvalNext(env: Env, args: seq<string>, i: nat) returns (val: Result, next: nat)
    requires IsArguments(args) && 1 <= i < |args|
    ensures i < next
    ensures EvalConcat(env, args, i) == Then(val, EvalConcat(env, args, next))
  {
    if IsFn(args[i]) {
      var end := CallEndOf(args, i);
      if end.None? {
        val, next := Err(MissingArguments), |args|;
      } else {
        ConcatAtCall(env, args, i, end.value);
        val, next := EvalExpr(env, Join(args[i..end.value])), end.value;
      }
    } else {
      ConcatAtArgument(env, args, i);
      val, next := EvalArgOrExpr(env, args[i]), i + 1;
    }
  }

  method EvalConcatTemplateArgs(env: Env, args: seq<string>) returns (r: Result)
    requires IsArguments(args)
    ensures r == EvalConcat(env, args, 1)
  {
    var b, i := "", 1;
    Regroup("", Ok(""), EvalConcat(env, args, 1));
    while i < |args|
      invariant i >= 1
      invariant EvalConcat(env, args, 1) == Then(Ok(b), EvalConcat(env, args, i))
      decreases |args| - i
    {
      var val, next := EvalNext(env, args, i);
      if val.Err? {
        return val;
      }
      Regroup(b, val, EvalConcat(env, args, next));
      b, i := b + val.text, next;
    }
    assert b + "" == b;
    r := Ok(b);
  }

  lemma Regroup(b: string, val: Result, rest: Result)
    requires val.Ok?
    ensures Then(Ok(b), Then(val, rest)) == Then(Ok(b + val.text), rest)
  {
    if rest.Ok? {
      assert b + (val.text + rest.text) == b + val.text + rest.text;
    }
  }

  lemma Rejoins(args: seq<string>)
    requires IsArguments(args)
    ensures Split(Join(args)) == args
  {
    JoinIsLayout(args);
    LayoutSplits(Join(args), args);
  }

  // Trimming an argument leaves an argument, or nothing.

  lemma {:induction false} SolidFrom(quote: char, cur: string, other: string, a: string)
    requires quote == OPEN || (cur != "" && other != "" && cur[|cur| - 1] == other[|other| - 1])
    ensures Solid(quote, cur, a) == Solid(quote, other, a)
    decreases |a|
  {
    if a != "" {
      SolidFrom(NextQuote(quote, cur, a[0]), cur + [a[0]], other + [a[0]], a[1..]);
    }
  }

  lemma {:induction false} SolidPrefix(quote: char, cur: string, a: string, b: string)
    requires Solid(quote, cur, a + b)
    ensures Solid(quote, cur, a)
    decreases |a|
  {
    if a != "" {
      assert (a + b)[0] == a[0] && (a + b)[1..] == a[1..] + b;
      SolidPrefix(NextQuote(quote, cur, a[0]), cur + [a[0]], a[1..], b);
    }
  }

  lemma {:induction false} TrimLeftSolid(a: string)
    requires Solid(OPEN, "", a)
    ensures Solid(OPEN, "", TrimLeft(a))
    decreases |a|
  {
    if a != "" && IsSpace(a[0]) {
      SolidFrom(OPEN, [a[0]], "", a[1..]);
      assert "" + [a[0]] == [a[0]];
      TrimLeftSolid(a[1..]);
    }
  }

  lemma TrimmedArgument(a: string)
    requires IsArgument(a)
    ensures Split(Trim(a)) == Flush(Trim(a))
  {
    TrimLeftSolid(a);
    var left, arg := TrimLeft(a), Trim(a);
    TrimRightIsPrefix(left);
    assert left == arg + left[|arg|..];
    SolidPrefix(OPEN, "", arg, left[|arg|..]);
    assert arg + "" == arg && "" + arg == arg;
    SplitSolid(OPEN, "", arg, "");
  }

  lemma FnNamesHaveNoSpace(name: string)
    requires FnNamed(name).Some?
    ensures ' ' !in name
  {
  }

  /** No argument that came from the splitter is evaluated as an expression again. */
  lemma RedispatchUnreachable(env: Env, a: string)
    requires IsArgument(a)
    ensures !(' ' in Trim(a) && Redispatches(Trim(a)))
    ensures EvalArgOrExpr(env, a) == EvalArg(env, a)
  {
    var arg := Trim(a);
    TrimmedArgument(a);
    TrimIsIdempotent(a);
    if ' ' in arg && IsFn(arg) {
      var k :| 0 <= k < |arg| && arg[k] == ' ';
      assert Lower(arg)[k] == ' ';
      FnNamesHaveNoSpace(Lower(arg));
      assert false;
    }
  }

  // Evaluation over argument lists, without joining or splitting.

  /** One call: the function's name and its arguments in a list. */
  function EvalArgs(env: Env, args: seq<string>): Result
    decreases |args|, 1, 0
  {
    if args == [] then Err(EmptyTemplate)
    else
      match FnNamed(Lower(args[0]))
      case Some(Concat) => ConcatArgs(env, args, 1)
      case Some(UrlEncode) => Apply(env, UrlEncode, args)
      case Some(Base64Decode) => Apply(env, Base64Decode, args)
      case Some(SplitPart) => Apply(env, SplitPart, args)
      case Some(RandomPort) => Apply(env, RandomPort, args)
      case Some(LookupJson) => Apply(env, LookupJson, args)
      case None =>
        if '.' in args[0] && |args| == 1 then EvalArg(env, args[0]) else Err(UnknownFunction)
  }

  /** The functions that take plain arguments. */
  function Apply(env: Env, fn: Fn, args: seq<string>): Result
    requires args != []
  {
    match fn
    case UrlEncode =>
      if |args| < 2 then Err(MissingArguments)
      else
        var val := EvalArg(env, args[1]);
        if val.Err? then val else Ok(env.lib.escape(val.text))
    case Base64Decode =>
      if |args| < 2 then Err(MissingArguments)
      else Decoded(EvalArg(env, args[1]))
    case Concat => Ok("")
    case SplitPart =>
      if |args| < 4 then Err(MissingArguments)
      else PartOf(env, EvalArg(env, args[1]), args, EvalArg(env, args[3]))
    case RandomPort => if env.port.Some? then Ok(env.port.value) else Err(NoPort)
    case LookupJson => if |args| < 3 then Err(MissingArguments) else LookUp(env, args[1], args[2])
  }

  function ConcatArgs(env: Env, args: seq<string>, i: nat): Result
    requires i >= 1
    decreases |args|, 0, if i < |args| then |args| - i else 0
  {
    if i >= |args| then Ok("")
    else if IsFn(args[i]) then
      var end := CallEnd(args, i);
      if end.None? then Err(MissingArguments)
      else Then(EvalArgs(env, args[i..end.value]), ConcatArgs(env, args, end.value))
    else Then(EvalArg(env, args[i]), ConcatArgs(env, args, i + 1))
  }

  lemma DotSurvivesLower(s: string)
    ensures '.' in Lower(s) <==> '.' in s
  {
    if '.' in s {
      var k :| 0 <= k < |s| && s[k] == '.';
      assert Lower(s)[k] == '.';
    }
    if '.' in Lower(s) {
      var k :| 0 <= k < |s| && Lower(s)[k] == '.';
      assert s[k] == '.';
    }
  }

  /** Joining a call and splitting it again is invisible: evaluation works on the argument list. */
  lemma {:induction false} EvalIsOverArguments(env: Env, inner: string)
    ensures EvalExpr(env, inner) == EvalArgs(env, Split(inner))
    decreases |Split(inner)|, 1, 0
  {
    var args := Split(inner);
    SplitIsExact(inner, args);
    if args != [] {
      var fn := Lower(args[0]);
      DotSurvivesLower(args[0]);
      if fn == "concat" {
        ConcatIsOverArguments(env, args, 1);
      } else if fn == "split_part" && |args| >= 4 {
        RedispatchUnreachable(env, args[1]);
        RedispatchUnreachable(env, args[3]);
      }
    }
  }

  lemma {:induction false} ConcatIsOverArguments(env: Env, args: seq<string>, i: nat)
    requires IsArguments(args) && i >= 1
    ensures EvalConcat(env, args, i) == ConcatArgs(env, args, i)
    decreases |args|, 0, if i < |args| then |args| - i else 0
  {
    if i < |args| {
      if IsFn(args[i]) {
        var end := CallEnd(args, i);
        if end.Some? {
          Rejoins(args[i..end.value]);
          EvalIsOverArguments(env, Join(args[i..end.value]));
          ConcatIsOverArguments(env, args, end.value);
        }
      } else {
        RedispatchUnreachable(env, args[i]);
        ConcatIsOverArguments(env, args, i + 1);
      }
    }
  }
}
