/** The text of a converted clause and its parameter list fit together, for every input string. */
module ClauseText {
  import opened Strings
  import opened Values
  import opened Scanner
  import opened QueryFilterParser

  /** A clause with its parameters in place. */
  datatype Token = Ch(c: char) | Bound(v: Value)

  function Chars(s: string): seq<Token> {
    seq(|s|, i requires 0 <= i < |s| => Ch(s[i]))
  }

  /** What the database sees: each `?` takes the next parameter; a missing parameter leaves the `?`. */
  function Bind(text: string, params: seq<Value>): seq<Token> {
    if text == "" then []
    else if text[0] == '?' && params != [] then [Bound(params[0])] + Bind(text[1..], params[1..])
    else [Ch(text[0])] + Bind(text[1..], params)
  }

  /** The clause printed with every value where it belongs. */
  function Render(sql: Sql, prefix: string): seq<Token> {
    match sql
    case Compare(f, op, p) => Chars(prefix + "\"" + f + "\" " + op + " ") + [Bound(p)]
    case IsNull(f, n) => Chars(prefix + "\"" + f + "\"" + if n then " IS NOT NULL" else " IS NULL")
    case Like(f, p, n) =>
      Chars(prefix + "\"" + f + "\"" + if n then " NOT LIKE " else " LIKE ") + [Bound(Str(p))] + Chars(" ESCAPE '\\'")
    case AnyOf(ps) => Chars("(") + RenderAll(ps, " OR ", prefix) + Chars(")")
    case AllOf(ps) => Chars("(") + RenderAll(ps, " AND ", prefix) + Chars(")")
    case Grouped(s) => Chars("(") + Render(s, prefix) + Chars(")")
  }

  function RenderAll(sqls: seq<Sql>, sep: string, prefix: string): seq<Token> {
    if sqls == [] then []
    else if |sqls| == 1 then Render(sqls[0], prefix)
    else Render(sqls[0], prefix) + Chars(sep) + RenderAll(sqls[1..], sep, prefix)
  }

  /** Free of the three characters that carry structure in a clause. */
  predicate Plain(s: string) {
    forall i :: 0 <= i < |s| ==> s[i] != '?' && s[i] != '(' && s[i] != ')'
  }

  predicate WellFormed(sql: Sql) {
    match sql
    case Compare(f, op, _) => IsIdentifier(f) && Plain(op)
    case IsNull(f, _) => IsIdentifier(f)
    case Like(f, _, _) => IsIdentifier(f)
    case AnyOf(ps) => ps != [] && forall i :: 0 <= i < |ps| ==> WellFormed(ps[i])
    case AllOf(ps) => ps != [] && forall i :: 0 <= i < |ps| ==> WellFormed(ps[i])
    case Grouped(s) => WellFormed(s)
  }

  lemma {:induction false} BindPlain(s: string, rest: string, params: seq<Value>)
    requires Plain(s)
    ensures Bind(s + rest, params) == Chars(s) + Bind(rest, params)
  {
    if s == "" {
      assert s + rest == rest;
    } else {
      BindPlain(s[1..], rest, params);
      assert (s + rest)[1..] == s[1..] + rest;
      assert Chars(s) == [Ch(s[0])] + Chars(s[1..]);
    }
  }

  /** Parentheses are legal for one-character text pieces too; only `?` matters for binding. */
  lemma BindChar(c: char, rest: string, params: seq<Value>)
    requires c != '?'
    ensures Bind([c] + rest, params) == Chars([c]) + Bind(rest, params)
  {
    assert ([c] + rest)[1..] == rest;
  }

  lemma BindMark(rest: string, v: Value, params: seq<Value>)
    ensures Bind("?" + rest, [v] + params) == [Bound(v)] + Bind(rest, params)
  {
    assert ("?" + rest)[1..] == rest && ([v] + params)[1..] == params;
  }

  lemma BindCompare(sql: Sql, prefix: string, rest: string, params: seq<Value>)
    requires WellFormed(sql) && sql.Compare? && Plain(prefix)
    ensures Bind(Text(sql, prefix) + rest, Params(sql) + params) == Render(sql, prefix) + Bind(rest, params)
  {
    var head := prefix + "\"" + sql.field + "\" " + sql.op + " ";
    BindMarked(head, sql.param, "", rest, params);
    assert Text(sql, prefix) == head + "?" + "";
    assert Chars(head) + [Bound(sql.param)] + Chars("") == Render(sql, prefix);
  }

  lemma BindIsNull(sql: Sql, prefix: string, rest: string, params: seq<Value>)
    requires WellFormed(sql) && sql.IsNull? && Plain(prefix)
    ensures Bind(Text(sql, prefix) + rest, Params(sql) + params) == Render(sql, prefix) + Bind(rest, params)
  {
    assert Params(sql) + params == params;
    BindPlain(Text(sql, prefix), rest, params);
  }

  lemma BindLike(sql: Sql, prefix: string, rest: string, params: seq<Value>)
    requires WellFormed(sql) && sql.Like? && Plain(prefix)
    ensures Bind(Text(sql, prefix) + rest, Params(sql) + params) == Render(sql, prefix) + Bind(rest, params)
  {
    var head := prefix + "\"" + sql.field + "\"" + if sql.negated then " NOT LIKE " else " LIKE ";
    var tail := " ESCAPE '\\'";
    assert Text(sql, prefix) == head + "?" + tail;
    BindMarked(head, Str(sql.pattern), tail, rest, params);
  }

  /** Each part of the clause consumes exactly its own parameters, left to right. */
  lemma {:induction false} BindClause(sql: Sql, prefix: string, rest: string, params: seq<Value>)
    requires WellFormed(sql) && Plain(prefix)
    ensures Bind(Text(sql, prefix) + rest, Params(sql) + params) == Render(sql, prefix) + Bind(rest, params)
    decreases sql, 1, 0
  {
    match sql
    case Compare(_, _, _) => BindCompare(sql, prefix, rest, params);
    case IsNull(_, _) => BindIsNull(sql, prefix, rest, params);
    case Like(_, _, _) => BindLike(sql, prefix, rest, params);
    case AnyOf(ps) => BindGroup(ps, " OR ", prefix, rest, params);
    case AllOf(ps) => BindGroup(ps, " AND ", prefix, rest, params);
    case Grouped(s) =>
      BindGrouped(Text(s, prefix), rest, Params(s), params);
      BindClause(s, prefix, ")" + rest, params);
  }

  lemma BindMarked(head: string, v: Value, tail: string, rest: string, params: seq<Value>)
    requires Plain(head) && Plain(tail)
    ensures Bind(head + "?" + tail + rest, [v] + params) == Chars(head) + [Bound(v)] + Chars(tail) + Bind(rest, params)
  {
    assert head + "?" + tail + rest == head + ("?" + (tail + rest));
    BindPlain(head, "?" + (tail + rest), [v] + params);
    BindMark(tail + rest, v, params);
    BindPlain(tail, rest, params);
  }

  /** Parentheses around some text pass through the binding. */
  lemma BindGrouped(body: string, rest: string, own: seq<Value>, params: seq<Value>)
    ensures Bind("(" + body + ")" + rest, own + params) == Chars("(") + Bind(body + (")" + rest), own + params)
    ensures Bind(")" + rest, params) == Chars(")") + Bind(rest, params)
  {
    assert "(" + body + ")" + rest == "(" + (body + (")" + rest));
    BindChar('(', body + (")" + rest), own + params);
    BindChar(')', rest, params);
  }

  lemma {:induction false} BindGroup(sqls: seq<Sql>, sep: string, prefix: string, rest: string, params: seq<Value>)
    requires sqls != [] && AllWellFormed(sqls) && Plain(prefix) && Plain(sep)
    ensures Bind("(" + Join(Texts(sqls, prefix), sep) + ")" + rest, AllParams(sqls) + params)
         == Chars("(") + RenderAll(sqls, sep, prefix) + Chars(")") + Bind(rest, params)
    decreases sqls, 1, 0
  {
    var body := Join(Texts(sqls, prefix), sep);
    BindGrouped(body, rest, AllParams(sqls), params);
    BindList(sqls, sep, prefix, ")" + rest, params);
  }

  lemma Reassociate(a: seq<Token>, b: seq<Token>, c: seq<Token>, d: seq<Token>)
    ensures a + (b + (c + d)) == a + b + c + d
  {
  }

  lemma {:induction false} BindList(sqls: seq<Sql>, sep: string, prefix: string, rest: string, params: seq<Value>)
    requires sqls != [] && AllWellFormed(sqls) && Plain(prefix) && Plain(sep)
    ensures Bind(Join(Texts(sqls, prefix), sep) + rest, AllParams(sqls) + params)
         == RenderAll(sqls, sep, prefix) + Bind(rest, params)
    decreases sqls, 0, 0
  {
    var texts := Texts(sqls, prefix);
    if |sqls| == 1 {
      assert AllParams(sqls) + params == Params(sqls[0]) + params;
      BindClause(sqls[0], prefix, rest, params);
    } else {
      var more := Join(texts[1..], sep) + rest;
      assert texts[1..] == Texts(sqls[1..], prefix);
      assert Join(texts, sep) + rest == texts[0] + (sep + more);
      assert AllParams(sqls) + params == Params(sqls[0]) + (AllParams(sqls[1..]) + params);
      var left := AllParams(sqls[1..]) + params;
      BindClause(sqls[0], prefix, sep + more, left);
      BindPlain(sep, more, left);
      BindList(sqls[1..], sep, prefix, rest, params);
      Reassociate(Render(sqls[0], prefix), Chars(sep), RenderAll(sqls[1..], sep, prefix), Bind(rest, params));
    }
  }

  /** Parentheses read left to right from depth `d`: never negative, and closed at the end. */
  predicate Closes(s: string, d: nat) {
    if s == "" then d == 0
    else if s[0] == '(' then Closes(s[1..], d + 1)
    else if s[0] == ')' then d > 0 && Closes(s[1..], d - 1)
    else Closes(s[1..], d)
  }

  lemma {:induction false} ClosesPlain(s: string, rest: string, d: nat)
    requires Plain(s)
    ensures Closes(s + rest, d) == Closes(rest, d)
  {
    if s == "" {
      assert s + rest == rest;
    } else {
      ClosesPlain(s[1..], rest, d);
      assert (s + rest)[1..] == s[1..] + rest;
    }
  }

  lemma {:induction false} ClosesLeaf(s: string, mark: string, tail: string, rest: string, d: nat)
    requires Plain(s) && Plain(tail) && (mark == "?" || mark == "")
    ensures Closes(s + mark + tail + rest, d) == Closes(rest, d)
  {
    assert s + mark + tail + rest == s + (mark + (tail + rest));
    ClosesPlain(s, mark + (tail + rest), d);
    assert mark == "?" ==> (mark + (tail + rest))[1..] == tail + rest;
    assert mark == "" ==> mark + (tail + rest) == tail + rest;
    ClosesPlain(tail, rest, d);
  }

  lemma ClosesCompare(sql: Sql, prefix: string, rest: string, d: nat)
    requires WellFormed(sql) && sql.Compare? && Plain(prefix)
    ensures Closes(Text(sql, prefix) + rest, d) == Closes(rest, d)
  {
    var head := prefix + "\"" + sql.field + "\" " + sql.op + " ";
    ClosesLeaf(head, "?", "", rest, d);
    assert Text(sql, prefix) == head + "?" + "";
  }

  lemma ClosesLike(sql: Sql, prefix: string, rest: string, d: nat)
    requires WellFormed(sql) && sql.Like? && Plain(prefix)
    ensures Closes(Text(sql, prefix) + rest, d) == Closes(rest, d)
  {
    var head := prefix + "\"" + sql.field + "\"" + if sql.negated then " NOT LIKE " else " LIKE ";
    ClosesLeaf(head, "?", " ESCAPE '\\'", rest, d);
    assert Text(sql, prefix) == head + "?" + " ESCAPE '\\'";
  }

  lemma {:induction false} ClosesClause(sql: Sql, prefix: string, rest: string, d: nat)
    requires WellFormed(sql) && Plain(prefix)
    ensures Closes(Text(sql, prefix) + rest, d) == Closes(rest, d)
    decreases sql, 1
  {
    match sql
    case Compare(_, _, _) => ClosesCompare(sql, prefix, rest, d);
    case IsNull(_, _) => ClosesPlain(Text(sql, prefix), rest, d);
    case Like(_, _, _) => ClosesLike(sql, prefix, rest, d);
    case AnyOf(ps) => ClosesGroup(ps, " OR ", prefix, rest, d);
    case AllOf(ps) => ClosesGroup(ps, " AND ", prefix, rest, d);
    case Grouped(s) =>
      ClosesGrouped(Text(s, prefix), rest, d);
      ClosesClause(s, prefix, ")" + rest, d + 1);
  }

  lemma ClosesGrouped(body: string, rest: string, d: nat)
    ensures Closes("(" + body + ")" + rest, d) == Closes(body + (")" + rest), d + 1)
    ensures Closes(")" + rest, d + 1) == Closes(rest, d)
  {
    assert "(" + body + ")" + rest == "(" + (body + (")" + rest));
    assert ("(" + (body + (")" + rest)))[1..] == body + (")" + rest);
    assert (")" + rest)[1..] == rest;
  }

  lemma {:induction false} ClosesGroup(sqls: seq<Sql>, sep: string, prefix: string, rest: string, d: nat)
    requires sqls != [] && AllWellFormed(sqls) && Plain(prefix) && Plain(sep)
    ensures Closes("(" + Join(Texts(sqls, prefix), sep) + ")" + rest, d) == Closes(rest, d)
    decreases sqls, 1
  {
    var body := Join(Texts(sqls, prefix), sep);
    ClosesGrouped(body, rest, d);
    ClosesList(sqls, sep, prefix, ")" + rest, d + 1);
  }

  lemma {:induction false} ClosesList(sqls: seq<Sql>, sep: string, prefix: string, rest: string, d: nat)
    requires sqls != [] && AllWellFormed(sqls) && Plain(prefix) && Plain(sep)
    ensures Closes(Join(Texts(sqls, prefix), sep) + rest, d) == Closes(rest, d)
    decreases sqls, 0
  {
    var texts := Texts(sqls, prefix);
    if |sqls| == 1 {
      ClosesClause(sqls[0], prefix, rest, d);
    } else {
      var more := Join(texts[1..], sep) + rest;
      assert texts[1..] == Texts(sqls[1..], prefix);
      assert Join(texts, sep) + rest == texts[0] + (sep + more);
      ClosesClause(sqls[0], prefix, sep + more, d);
      ClosesPlain(sep, more, d);
      ClosesList(sqls[1..], sep, prefix, rest, d);
    }
  }

  predicate AllWellFormed(sqls: seq<Sql>) {
    forall i :: 0 <= i < |sqls| ==> WellFormed(sqls[i])
  }

  lemma {:induction false} ConvertWellFormed(expr: string, fields: Option<set<string>>, w: World)
    ensures Convert(expr, fields, w).Some? ==> WellFormed(Convert(expr, fields, w).value)
    decreases |expr|, 1, 0
  {
    PartsAreShorter(expr, "||");
    PartsAreShorter(expr, "&&");
    var ors := SplitTopLevelSpec(expr, "||");
    var ands := SplitTopLevelSpec(expr, "&&");
    if |ors| > 1 {
      PartsWellFormed(ors, |expr|, fields, w);
    } else if |ands| > 1 {
      PartsWellFormed(ands, |expr|, fields, w);
    } else {
      OperandWellFormed(Trim(expr), fields, w);
    }
  }

  lemma {:induction false} OperandWellFormed(t: string, fields: Option<set<string>>, w: World)
    ensures ConvertOperand(t, fields, w).Some? ==> WellFormed(ConvertOperand(t, fields, w).value)
    decreases |t|, 0, 0
  {
    if Wrapped(t) && EnclosedFrom(START, t) {
      ConvertWellFormed(Trim(t[1..|t| - 1]), fields, w);
    } else {
      LeafWellFormed(t, OPERATORS, fields, w);
    }
  }

  lemma LeafWellFormed(s: string, ops: seq<string>, fields: Option<set<string>>, w: World)
    requires "" !in ops && forall op :: op in ops ==> Plain(op)
    ensures Leaf(s, ops, fields, w).Some? ==> WellFormed(Leaf(s, ops, fields, w).value)
  {
  }

  lemma {:induction false} PartsWellFormed(parts: seq<string>, bound: nat, fields: Option<set<string>>, w: World)
    requires forall i :: 0 <= i < |parts| ==> |parts[i]| < bound
    ensures AllWellFormed(ConvertParts(parts, bound, fields, w))
    decreases bound, 0, |parts|
  {
    if parts != [] {
      ConvertWellFormed(Trim(parts[0]), fields, w);
      PartsWellFormed(parts[1..], bound, fields, w);
    }
  }

  /**
   * For every input string, well-formed or not: binding the pushed parameters to the question marks of the
   * clause puts each value exactly where the clause means it, none missing and none left over, and the
   * parentheses of the clause are balanced.
   */
  lemma {:induction false} ParametersFitClause(expr: string, fields: Option<set<string>>, prefix: string, w: World,
                                               extra: seq<Value>)
    requires Convert(expr, fields, w).Some? && Plain(prefix)
    ensures var sql := Convert(expr, fields, w).value;
            Bind(Text(sql, prefix), Params(sql) + extra) == Render(sql, prefix) && Closes(Text(sql, prefix), 0)
  {
    var sql := Convert(expr, fields, w).value;
    ConvertWellFormed(expr, fields, w);
    assert Text(sql, prefix) + "" == Text(sql, prefix);
    BindClause(sql, prefix, "", extra);
    ClosesClause(sql, prefix, "", 0);
  }
}
