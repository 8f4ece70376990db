/** From a filter string to a parameterised SQL clause (src/records/QueryFilterParser.ts). */
module QueryFilterParser {
  import opened Strings
  import opened Values
  import opened Scanner
  import FilterCodec
  import LikePattern

  // ---------------------------------------------------------------- literals and names

  /** `/^[a-zA-Z0-9_]+$/` */
  predicate IsIdentifier(s: string) {
    s != "" && forall i :: 0 <= i < |s| ==>
      'a' <= s[i] <= 'z' || 'A' <= s[i] <= 'Z' || '0' <= s[i] <= '9' || s[i] == '_'
  }

  predicate Allowed(field: string, fields: Option<set<string>>) {
    fields.Some? ==> field in fields.value || field in {"id", "created", "updated"}
  }

  function ExtractLiteralValue(raw: string, w: World): Value {
    var t := Trim(raw);
    if FilterCodec.Quoted(t) then Str(FilterCodec.Decode(t))
    else if LowerAscii(t) == "true" then ONE
    else if LowerAscii(t) == "false" then ZERO
    else if LowerAscii(t) == "null" then Null
    else if w.number(t).Some? && t != "" then Num(w.number(t).value)
    else Str(t)
  }

  // ---------------------------------------------------------------- the clause as a tree

  datatype Sql =
    | Compare(field: string, op: string, param: Value)
    | IsNull(field: string, negated: bool)
    | Like(field: string, pattern: string, negated: bool)
    | AnyOf(parts: seq<Sql>)
    | AllOf(parts: seq<Sql>)
    | Grouped(inner: Sql)

  /** The clause text; `prefix` is the quoted table name and dot, or empty. */
  function Text(sql: Sql, prefix: string): string {
    match sql
    case Compare(f, op, _) => prefix + "\"" + f + "\" " + op + " ?"
    case IsNull(f, n) => prefix + "\"" + f + "\"" + (if n then " IS NOT NULL" else " IS NULL")
    case Like(f, _, n) => prefix + "\"" + f + "\"" + (if n then " NOT LIKE ? ESCAPE '\\'" else " LIKE ? ESCAPE '\\'")
    case AnyOf(ps) => "(" + Join(Texts(ps, prefix), " OR ") + ")"
    case AllOf(ps) => "(" + Join(Texts(ps, prefix), " AND ") + ")"
    case Grouped(s) => "(" + Text(s, prefix) + ")"
  }

  function Texts(sqls: seq<Sql>, prefix: string): (r: seq<string>)
    ensures |r| == |sqls|
  {
    if sqls == [] then [] else [Text(sqls[0], prefix)] + Texts(sqls[1..], prefix)
  }

  /** The bound parameters, in the order in which they are pushed. */
  function Params(sql: Sql): seq<Value> {
    match sql
    case Compare(_, _, p) => [p]
    case IsNull(_, _) => []
    case Like(_, p, _) => [Str(p)]
    case AnyOf(ps) => AllParams(ps)
    case AllOf(ps) => AllParams(ps)
    case Grouped(s) => Params(s)
  }

  function AllParams(sqls: seq<Sql>): seq<Value> {
    if sqls == [] then [] else Params(sqls[0]) + AllParams(sqls[1..])
  }

  /** What the clause says of a row; LIKE and NOT LIKE say nothing of a null column, so neither admits it. */
  predicate Holds(sql: Sql, row: Row, w: World) {
    match sql
    case Compare(f, op, p) => w.sqlCompare(op, Column(row, f), p)
    case IsNull(f, n) => w.sqlCompare(if n then "!=" else "=", Column(row, f), Null)
    case Like(f, p, n) => Stored(Column(row, f)) && LikePattern.Like(p, w.text(Column(row, f)), w.fold) != n
    case AnyOf(ps) => exists i :: 0 <= i < |ps| && Holds(ps[i], row, w)
    case AllOf(ps) => forall i :: 0 <= i < |ps| ==> Holds(ps[i], row, w)
    case Grouped(s) => Holds(s, row, w)
  }

  // ---------------------------------------------------------------- the conversion as a function

  const OPERATORS: seq<string> := ["!=", ">=", "<=", "=", ">", "<", "!~", "~"]

  function Comparison(field: string, op: string, value: Value, w: World): Sql {
    if op == "=" && value.Null? then IsNull(field, false)
    else if op == "!=" && value.Null? then IsNull(field, true)
    else if op == "~" then Like(field, LikePattern.ContainsPattern(StringOf(value, w)), false)
    else if op == "!~" then Like(field, LikePattern.ContainsPattern(StringOf(value, w)), true)
    else Compare(field, op, value)
  }

  function Leaf(s: string, ops: seq<string>, fields: Option<set<string>>, w: World): Option<Sql>
    requires "" !in ops
  {
    match FirstOperator(s, ops, true)
    case None => None
    case Some((op, i)) =>
      FoundFits(START, s, op, None, true);
      LeafAt(s, op, i, fields, w)
  }

  function Operation(field: string, op: string, raw: string, fields: Option<set<string>>, w: World): Option<Sql> {
    if IsIdentifier(field) && Allowed(field, fields) then Some(Comparison(field, op, ExtractLiteralValue(raw, w), w))
    else None
  }

  /** A comparison whose operator has been found. */
  function LeafAt(s: string, op: string, i: nat, fields: Option<set<string>>, w: World): Option<Sql>
    requires i + |op| <= |s|
  {
    Operation(Trim(s[..i]), op, Trim(s[i + |op|..]), fields, w)
  }

  predicate Wrapped(t: string) {
    |t| >= 2 && t[0] == '(' && t[|t| - 1] == ')'
  }

  /** `None` is the empty clause that the callers filter out. */
  function Convert(expr: string, fields: Option<set<string>>, w: World): Option<Sql>
    decreases |expr|, 1, 0
  {
    PartsAreShorter(expr, "||");
    PartsAreShorter(expr, "&&");
    var ors := SplitTopLevelSpec(expr, "||");
    if |ors| > 1 then
      var parts := ConvertParts(ors, |expr|, fields, w);
      if parts == [] then None else Some(AnyOf(parts))
    else
      var ands := SplitTopLevelSpec(expr, "&&");
      if |ands| > 1 then
        var parts := ConvertParts(ands, |expr|, fields, w);
        if parts == [] then None else Some(AllOf(parts))
      else ConvertOperand(Trim(expr), fields, w)
  }

  function ConvertOperand(t: string, fields: Option<set<string>>, w: World): Option<Sql>
    decreases |t|, 0, 0
  {
    if Wrapped(t) && EnclosedFrom(START, t) then
      var inner := Convert(Trim(t[1..|t| - 1]), fields, w);
      if inner.None? then None else Some(Grouped(inner.value))
    else Leaf(t, OPERATORS, fields, w)
  }

  function ConvertParts(parts: seq<string>, bound: nat, fields: Option<set<string>>, w: World): seq<Sql>
    requires forall i :: 0 <= i < |parts| ==> |parts[i]| < bound
    decreases bound, 0, |parts|
  {
    if parts == [] then []
    else
      var first := Convert(Trim(parts[0]), fields, w);
      (if first.Some? then [first.value] else []) + ConvertParts(parts[1..], bound, fields, w)
  }

  // ---------------------------------------------------------------- the conversion as the code runs it

  /** The parameter array that every call of the conversion appends to. */
  class ParamList {
    var items: seq<Value>

    constructor ()
      ensures items == []
    {
      items := [];
    }

    method Push(v: Value)
      modifies this
      ensures items == old(items) + [v]
    {
      items := items + [v];
    }
  }

  function ClauseText(sql: Option<Sql>, prefix: string): string {
    if sql.None? then "" else Text(sql.value, prefix)
  }

  function ClauseParams(sql: Option<Sql>): seq<Value> {
    if sql.None? then [] else Params(sql.value)
  }

  method ParseSingleComparison(s: string, ops: seq<string>, params: ParamList, fields: Option<set<string>>,
                               prefix: string, w: World)
    returns (clause: string)
    requires "" !in ops && forall op :: op in ops ==> op in OPERATORS
    modifies params
    ensures clause == ClauseText(Leaf(s, ops, fields, w), prefix)
    ensures params.items == old(params.items) + ClauseParams(Leaf(s, ops, fields, w))
  {
    var found := FindFirstOperator(s, ops, true);
    if found.None? {
      return "";
    }
    var (op, i) := found.value;
    FoundFits(START, s, op, None, true);
    clause := ParseAt(s, op, i, params, fields, prefix, w);
  }

  method ParseAt(s: string, op: string, i: nat, params: ParamList, fields: Option<set<string>>, prefix: string,
      w: World)
    returns (clause: string)
    requires i + |op| <= |s| && op in OPERATORS
    modifies params
    ensures clause == ClauseText(LeafAt(s, op, i, fields, w), prefix)
    ensures params.items == old(params.items) + ClauseParams(LeafAt(s, op, i, fields, w))
  {
    var field, raw := Trim(s[..i]), Trim(s[i + |op|..]);
    clause := EmitOperation(field, op, raw, params, fields, prefix, w);
  }

  method EmitOperation(field: string, op: string, raw: string, params: ParamList, fields: Option<set<string>>,
                       prefix: string, w: World)
    returns (clause: string)
    requires op in OPERATORS
    modifies params
    ensures clause == ClauseText(Operation(field, op, raw, fields, w), prefix)
    ensures params.items == old(params.items) + ClauseParams(Operation(field, op, raw, fields, w))
  {
    if !IsIdentifier(field) || !Allowed(field, fields) {
      return "";
    }
    clause := EmitComparison(field, op, ExtractLiteralValue(raw, w), params, prefix, w);
  }

  /** The switch over the operator. */
  method EmitComparison(field: string, op: string, value: Value, params: ParamList, prefix: string, w: World)
    returns (clause: string)
    requires op in OPERATORS
    modifies params
    ensures clause == Text(Comparison(field, op, value, w), prefix)
    ensures params.items == old(params.items) + Params(Comparison(field, op, value, w))
  {
    var column := prefix + "\"" + field + "\"";
    match op {
      case "=" =>
        if value.Null? {
          return column + " IS NULL";
        }
        params.Push(value);
        return prefix + "\"" + field + "\" = ?";
      case "!=" =>
        if value.Null? {
          return column + " IS NOT NULL";
        }
        params.Push(value);
        return prefix + "\"" + field + "\" != ?";
      case "~" =>
        params.Push(Str(LikePattern.ContainsPattern(StringOf(value, w))));
        return column + " LIKE ? ESCAPE '\\'";
      case "!~" =>
        params.Push(Str(LikePattern.ContainsPattern(StringOf(value, w))));
        return column + " NOT LIKE ? ESCAPE '\\'";
      case _ =>
        params.Push(value);
        return prefix + "\"" + field + "\" " + op + " ?";
    }
  }

  method ConvertFilterExpression(expr: string, params: ParamList, fields: Option<set<string>>, prefix: string, w: World)
    returns (clause: string)
    modifies params
    ensures clause == ClauseText(Convert(expr, fields, w), prefix)
    ensures params.items == old(params.items) + ClauseParams(Convert(expr, fields, w))
    decreases |expr|, 2, 0
  {
    PartsAreShorter(expr, "||");
    PartsAreShorter(expr, "&&");
    var ors := SplitTopLevel(expr, "||");
    if |ors| > 1 {
      clause := ConvertJoined(ors, |expr|, " OR ", params, fields, prefix, w);
      return;
    }
    var ands := SplitTopLevel(expr, "&&");
    if |ands| > 1 {
      clause := ConvertJoined(ands, |expr|, " AND ", params, fields, prefix, w);
      return;
    }
    clause := ConvertUnsplit(Trim(expr), params, fields, prefix, w);
  }

  method ConvertUnsplit(t: string, params: ParamList, fields: Option<set<string>>, prefix: string, w: World)
    returns (clause: string)
    modifies params
    ensures clause == ClauseText(ConvertOperand(t, fields, w), prefix)
    ensures params.items == old(params.items) + ClauseParams(ConvertOperand(t, fields, w))
    decreases |t|, 1, 0
  {
    if Wrapped(t) {
      var enclosed := IsFullyEnclosed(t);
      if enclosed {
        var inner := ConvertFilterExpression(Trim(t[1..|t| - 1]), params, fields, prefix, w);
        ConvertedIsNotBlank(Trim(t[1..|t| - 1]), fields, prefix, w);
        return if inner == "" then "" else "(" + inner + ")";
      }
    }
    clause := ParseSingleComparison(t, OPERATORS, params, fields, prefix, w);
  }

  /** `parts.map(convert).filter(Boolean)`, joined and parenthesised. */
  method ConvertJoined(parts: seq<string>, ghost bound: nat, sep: string, params: ParamList,
                       fields: Option<set<string>>, prefix: string, w: World)
    returns (clause: string)
    requires forall i :: 0 <= i < |parts| ==> |parts[i]| < bound
    modifies params
    ensures var sqls := ConvertParts(parts, bound, fields, w);
            && clause == (if sqls == [] then "" else "(" + Join(Texts(sqls, prefix), sep) + ")")
            && params.items == old(params.items) + AllParams(sqls)
    decreases bound, 0, 0
  {
    var texts: seq<string>, k := [], 0;
    ghost var sqls, done: seq<Sql> := ConvertParts(parts, bound, fields, w), [];
    ghost var before := params.items;
    assert parts[0..] == parts;
    while k < |parts|
      invariant 0 <= k <= |parts|
      invariant sqls == done + ConvertParts(parts[k..], bound, fields, w)
      invariant texts == Texts(done, prefix) && params.items == before + AllParams(done)
    {
      texts, done := ConvertPart(parts, k, bound, sqls, done, before, texts, params, fields, prefix, w);
      k := k + 1;
    }
    assert parts[k..] == [] && sqls == done;
    return if texts == [] then "" else "(" + Join(texts, sep) + ")";
  }

  /** One part: its clause joins the texts unless it is empty. `done` are the clauses so far. */
  method ConvertPart(parts: seq<string>, k: nat, ghost bound: nat, ghost sqls: seq<Sql>, ghost done: seq<Sql>,
                     ghost before: seq<Value>, texts: seq<string>, params: ParamList, fields: Option<set<string>>,
                     prefix: string, w: World)
    returns (joined: seq<string>, ghost now: seq<Sql>)
    requires k < |parts| && forall i :: 0 <= i < |parts| ==> |parts[i]| < bound
    requires sqls == done + ConvertParts(parts[k..], bound, fields, w)
    requires texts == Texts(done, prefix) && params.items == before + AllParams(done)
    modifies params
    ensures sqls == now + ConvertParts(parts[k + 1..], bound, fields, w)
    ensures joined == Texts(now, prefix) && params.items == before + AllParams(now)
    decreases |parts[k]|, 3, 0
  {
    PartJoins(parts, k, bound, fields, w, done, prefix);
    var text := ConvertFilterExpression(Trim(parts[k]), params, fields, prefix, w);
    now := done + Listed(Convert(Trim(parts[k]), fields, w));
    joined := if text != "" then texts + [text] else texts;
  }

  function Listed(sql: Option<Sql>): seq<Sql> {
    if sql.Some? then [sql.value] else []
  }

  lemma ConvertPartsStep(parts: seq<string>, k: nat, bound: nat, fields: Option<set<string>>, w: World)
    requires k < |parts| && forall i :: 0 <= i < |parts| ==> |parts[i]| < bound
    ensures ConvertParts(parts[k..], bound, fields, w)
         == Listed(Convert(Trim(parts[k]), fields, w)) + ConvertParts(parts[k + 1..], bound, fields, w)
  {
    assert parts[k..][0] == parts[k] && parts[k..][1..] == parts[k + 1..];
  }

  /** What the next part adds to the clauses, their texts and the parameters. */
  lemma PartJoins(parts: seq<string>, k: nat, bound: nat, fields: Option<set<string>>, w: World, done: seq<Sql>,
      prefix: string)
    requires k < |parts| && forall i :: 0 <= i < |parts| ==> |parts[i]| < bound
    ensures var sql := Convert(Trim(parts[k]), fields, w);
      var done' := done + Listed(sql);
      && done + ConvertParts(parts[k..], bound, fields, w) == done' + ConvertParts(parts[k + 1..], bound, fields, w)
      && Texts(done', prefix)
         == Texts(done, prefix) + (if ClauseText(sql, prefix) != "" then [ClauseText(sql, prefix)] else [])
      && AllParams(done') == AllParams(done) + ClauseParams(sql)
  {
    var sql := Convert(Trim(parts[k]), fields, w);
    ConvertPartsStep(parts, k, bound, fields, w);
    ConvertedIsNotBlank(Trim(parts[k]), fields, prefix, w);
    assert (done + Listed(sql)) + ConvertParts(parts[k + 1..], bound, fields, w)
        == done + (Listed(sql) + ConvertParts(parts[k + 1..], bound, fields, w));
    if sql.Some? {
      ListsAppend(done, sql.value, prefix);
    } else {
      assert done + [] == done;
    }
  }

  lemma {:induction false} ListsAppend(sqls: seq<Sql>, sql: Sql, prefix: string)
    ensures Texts(sqls + [sql], prefix) == Texts(sqls, prefix) + [Text(sql, prefix)]
    ensures AllParams(sqls + [sql]) == AllParams(sqls) + Params(sql)
  {
    if sqls == [] {
      assert [] + [sql] == [sql] && [sql][1..] == [];
    } else {
      ListsAppend(sqls[1..], sql, prefix);
      assert (sqls + [sql])[1..] == sqls[1..] + [sql];
    }
  }

  lemma ConvertedIsNotBlank(expr: string, fields: Option<set<string>>, prefix: string, w: World)
    ensures ClauseText(Convert(expr, fields, w), prefix) == "" <==> Convert(expr, fields, w).None?
  {
    var sql := Convert(expr, fields, w);
    if sql.Some? {
      assert |Text(sql.value, prefix)| > 0;
    }
  }

  /** The entry point: a blank filter gives no clause at all. */
  method ParseFilter(filter: string, fields: Option<set<string>>, prefix: string, w: World)
    returns (clause: string, params: seq<Value>)
    ensures var sql := if Trim(filter) == "" then None else Convert(Trim(filter), fields, w);
            && clause == (if sql.None? then "" else "WHERE " + Text(sql.value, prefix))
            && params == ClauseParams(sql)
  {
    var t := Trim(filter);
    if t == "" {
      return "", [];
    }
    var list := new ParamList();
    var parsed := ConvertFilterExpression(t, list, fields, prefix, w);
    ConvertedIsNotBlank(t, fields, prefix, w);
    return if parsed == "" then "" else "WHERE " + parsed, list.items;
  }
}
