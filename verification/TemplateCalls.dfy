/** What each argument and each function of the template language yields. */
module TemplateCalls {
  import opened TemplateArgs
  import opened TemplateEval
  import opened Strings
  import opened Pieces
  import opened Base64
  import opened Wrappers
  import JsonPath

  // Arguments.

  lemma {:induction false} SourceIs(source: string, key: string)
    requires '.' !in source
    ensures Source(source + "." + key) == source
  {
    var s := source + "." + key;
    if source != "" {
      assert source[0] in source && forall c | c in source[1..] :: c in source;
      assert s[0] == source[0] && s[1..] == source[1..] + "." + key;
      SourceIs(source[1..], key);
    }
  }

  /** In quotes an argument is its text; without quotes and dots it is itself. */
  lemma TextsAreFixed(env: Env, raw: string, q: char, text: string)
    ensures (q == '"' || q == '\'') && Trim(raw) == [q] + text + [q] ==> EvalArg(env, raw) == Ok(text)
    ensures Trim(raw) == text && '.' !in text && !(text != "" && (text[0] == '"' || text[0] == '\'')) ==>
      EvalArg(env, raw) == Ok(text)
  {
    if IsQuote(q) && Trim(raw) == [q] + text + [q] {
      assert ([q] + text + [q])[1..|text| + 1] == text;
    }
  }

  /** A source and a key: `var` in any case, `order` and `huoyuan` as written, nothing else. */
  lemma DottedArgument(env: Env, raw: string, source: string, key: string)
    requires Trim(raw) == source + "." + key && '.' !in source && !(source != "" && IsQuote(source[0]))
    ensures Lower(source) == "var" ==>
      EvalArg(env, raw) == Ok(if Trim(key) in env.vars then env.vars[Trim(key)] else "")
    ensures source == "order" ==> RefOf(raw) == OrderRef(key)
    ensures source == "huoyuan" ==> RefOf(raw) == SupplierRef(key)
    ensures Lower(source) != "var" && source != "order" && source != "huoyuan" ==> EvalArg(env, raw).Err?
  {
    var arg := source + "." + key;
    SourceIs(source, key);
    assert arg[|source|] == '.' && arg[|source| + 1..] == key;
    assert arg != "" ==> arg[0] == if source == "" then '.' else source[0];
    Cases();
  }

  lemma Cases()
    ensures Lower("order") == "order" && Lower("huoyuan") == "huoyuan" && "order" != "var" && "huoyuan" != "var"
  {
  }

  // Columns.

  lemma ColumnsAre()
    ensures COLUMNS == [
      "oid", "hid", "user", "pass", "school", "noun", "kcid", "kcname", "utime", "uscore", "study_speed",
      "is_submit_exam", "exam_time", "name", "status", "process", "remarks", "dockstatus", "yid", "isck",
      "simple_day_score", "simple_total_score", "simple_learn_time", "ikun_study_ip", "expand"]
  {
  }

  lemma SpellingsAre()
    ensures Spelled("u_time") == "utime" && Spelled("u_score") == "uscore"
    ensures Spelled("dock_status") == "dockstatus" && Spelled("is_ck") == "isck"
    ensures "utime" in COLUMNS && "uscore" in COLUMNS && "dockstatus" in COLUMNS && "isck" in COLUMNS
  {
    assert COLUMNS[8] == "utime" && COLUMNS[9] == "uscore" && COLUMNS[17] == "dockstatus" && COLUMNS[19] == "isck";
  }

  lemma NoSecondSpelling(i: nat)
    requires i < |COLUMNS|
    ensures COLUMNS[i] != "u_time" && COLUMNS[i] != "u_score"
    ensures COLUMNS[i] != "dock_status" && COLUMNS[i] != "is_ck"
  {
    var c := COLUMNS[i];
    if |c| == 5 {
      assert c[2] != '_';
    }
    if |c| == 6 || |c| == 7 {
      assert c[1] != '_';
    }
    if |c| == 11 {
      assert c[4] != '_';
    }
  }

  /** A column stands for itself. */
  lemma ColumnsAreKnown(column: string)
    ensures column in COLUMNS ==> Spelled(column) == column
  {
    if column in COLUMNS {
      var i :| 0 <= i < |COLUMNS| && COLUMNS[i] == column;
      NoSecondSpelling(i);
    }
  }

  /** The order's columns; spaces around a name and the case of its letters do not matter. */
  lemma OrderColumns(env: Env, key: string)
    ensures Lower(Trim(key)) in COLUMNS ==>
      Read(env, OrderRef(key)) == Ok(env.order(Lower(Trim(key))))
    ensures Lower(Trim(key)) == "u_time" ==> Read(env, OrderRef(key)) == Ok(env.order("utime"))
    ensures Lower(Trim(key)) == "u_score" ==> Read(env, OrderRef(key)) == Ok(env.order("uscore"))
    ensures Lower(Trim(key)) == "dock_status" ==> Read(env, OrderRef(key)) == Ok(env.order("dockstatus"))
    ensures Lower(Trim(key)) == "is_ck" ==> Read(env, OrderRef(key)) == Ok(env.order("isck"))
  {
    ColumnsAreKnown(Lower(Trim(key)));
    SpellingsAre();
  }

  /** A key that is no column is a nested field of the column `expand`, or empty. */
  lemma OtherKeys(env: Env, key: string)
    requires Spelled(Lower(Trim(key))) !in COLUMNS
    ensures !(|key| >= 7 && Lower(key[..7]) == "expand.") ==> Read(env, OrderRef(key)) == Ok("")
    ensures |key| >= 7 && Lower(key[..7]) == "expand." ==>
      Read(env, OrderRef(key)) ==
        Ok(if Trim(env.order("expand")) == "" then ""
           else env.lib.nested(env.order("expand"), Lower(Trim(key[7..]))))
  {
  }

  /** The supplier's columns; its address is trimmed and loses one slash at the end. */
  lemma SupplierColumns(env: Env, key: string)
    ensures key in ["user", "pass", "token", "cookie"] ==> Read(env, SupplierRef(key)) == Ok(env.supplier(key))
    ensures key in ["url", "URL"] ==>
      Read(env, SupplierRef(key)) ==
        Ok(var u := Trim(env.supplier("url")); if u != "" && u[|u| - 1] == '/' then u[..|u| - 1] else u)
    ensures key !in ["user", "pass", "token", "cookie", "url", "URL"] ==> Read(env, SupplierRef(key)) == Ok("")
  {
  }

  // Functions. Their names may be written in any case.

  lemma UrlEncodeMeans(env: Env, inner: string, name: string, a: string, more: seq<string>)
    requires Lower(name) == "urlencode"
    ensures Split(inner) == [name, a] + more && EvalArg(env, a).Ok? ==>
      EvalExpr(env, inner) == Ok(env.lib.escape(EvalArg(env, a).text))
    ensures Split(inner) == [name, a] + more && EvalArg(env, a).Err? ==> EvalExpr(env, inner) == EvalArg(env, a)
    ensures Split(inner) == [name] ==> EvalExpr(env, inner) == Err(MissingArguments)
  {
    assert ([name, a] + more)[0] == name && ([name, a] + more)[1] == a;
  }

  /** Bytes that were encoded come back; other texts that do not decode are errors. */
  lemma Base64DecodeMeans(env: Env, inner: string, name: string, a: string, more: seq<string>, bytes: string)
    requires Lower(name) == "base64_decode" && IsBytes(bytes)
    ensures Split(inner) == [name, a] + more && EvalArg(env, a) == Ok(Encode(bytes)) ==>
      EvalExpr(env, inner) == Ok(bytes)
    ensures Split(inner) == [name, a] + more && EvalArg(env, a).Ok? && Decode(EvalArg(env, a).text).None? ==>
      EvalExpr(env, inner).Err?
    ensures Split(inner) == [name, a] + more && EvalArg(env, a).Err? ==> EvalExpr(env, inner) == EvalArg(env, a)
    ensures Split(inner) == [name] ==> EvalExpr(env, inner) == Err(MissingArguments)
  {
    DecodeUndoesEncode(bytes, 0);
    assert ([name, a] + more)[0] == name && ([name, a] + more)[1] == a;
    assert Lower(name) != "urlencode";
  }

  /** Text, index and separator each in its place; a number behind them limits the pieces. */
  lemma SplitPartMeans(env: Env, inner: string, name: string, v: string, i: string, d: string, more: seq<string>)
    requires Lower(name) == "split_part" && Split(inner) == [name, v, i, d] + more
    ensures EvalArg(env, v).Ok? && EvalArg(env, d).Ok? && Atoi(Trim(i)).Some? ==>
      EvalExpr(env, inner) == Ok(Part(
        EvalArg(env, v).text, Atoi(Trim(i)).value, EvalArg(env, d).text,
        if more != [] && Atoi(Trim(more[0])).Some? then Atoi(Trim(more[0])).value else 0))
    ensures EvalArg(env, v).Ok? && Atoi(Trim(i)).None? ==> EvalExpr(env, inner) == Err(BadIndex)
  {
    var args := [name, v, i, d] + more;
    SplitIsExact(inner, args);
    assert args[0] == name && args[1] == v && args[2] == i && args[3] == d;
    assert more != [] ==> args[4] == more[0];
    RedispatchUnreachable(env, args[1]);
    RedispatchUnreachable(env, args[3]);
    NotThese(name);
  }

  lemma NotThese(name: string)
    requires Lower(name) == "split_part"
    ensures Lower(name) != "urlencode" && Lower(name) != "base64_decode" && Lower(name) != "concat"
  {
  }

  lemma RandomPortMeans(env: Env, inner: string, name: string, more: seq<string>)
    requires Lower(name) == "random_port" && Split(inner) == [name] + more
    ensures EvalExpr(env, inner) == if env.port.Some? then Ok(env.port.value) else Err(NoPort)
  {
    assert ([name] + more)[0] == name;
    assert Lower(name) != "urlencode" && Lower(name) != "base64_decode" && Lower(name) != "concat";
    assert Lower(name) != "split_part";
  }

  /** The variable may be written with `var.` in front; its text is looked up at the path. */
  lemma JsonPathMeans(env: Env, inner: string, name: string, v: string, path: string, key: string, more: seq<string>)
    requires Lower(name) == "json_path" && Split(inner) == [name, v, path] + more
    requires Trim(v) == "var." + key || (Trim(v) == key && !(|key| >= 4 && key[..4] == "var."))
    ensures (Trim(key) in env.vars && Trim(env.vars[Trim(key)]) != "" && Trim(path) != "") ==>
      EvalExpr(env, inner) == env.lib.query(Trim(env.vars[Trim(key)]), Trim(path))
    ensures Trim(key) !in env.vars || Trim(env.vars[Trim(key)]) == "" || Trim(path) == "" ==>
      EvalExpr(env, inner).Err?
  {
    var args := [name, v, path] + more;
    assert args[0] == name && args[1] == v && args[2] == path;
    assert ("var." + key)[..4] == "var." && ("var." + key)[4..] == key;
    assert DropVarPrefix(Trim(v)) == key;
    NotBefore(name);
  }

  lemma NotBefore(name: string)
    requires Lower(name) == "json_path"
    ensures Lower(name) != "urlencode" && Lower(name) != "base64_decode" && Lower(name) != "concat"
    ensures Lower(name) != "split_part" && Lower(name) != "random_port"
  {
  }

  /** A single argument with a dot is a reference; any other name is an error. */
  lemma ReferenceMeans(env: Env, inner: string, a: string)
    requires Split(inner) == [a] && FnNamed(Lower(a)).None?
    ensures EvalExpr(env, inner) == if '.' in a then EvalArg(env, a) else Err(UnknownFunction)
  {
    DotSurvivesLower(a);
  }

  /** The functions there are, and how many arguments a `concat` gives each. */
  lemma Functions(name: string)
    ensures FnNamed(name).Some? <==>
      name in ["urlencode", "base64_decode", "concat", "split_part", "random_port", "json_path"]
    ensures Lower(Trim(name)) in ["urlencode", "base64_decode"] ==> Arity(name) == 1
    ensures Lower(Trim(name)) == "split_part" ==> Arity(name) == 3
    ensures Lower(Trim(name)) == "json_path" ==> Arity(name) == 2
    ensures Lower(Trim(name)) in ["concat", "random_port"] ==> Arity(name) == 0
  {
  }
}
