/**
 * The rule compiler preserves meaning through its strings: a rule is partially evaluated and printed as a filter,
 * the filter is re-read and turned into SQL, and the SQL admits a row exactly when the rule holds for it.
 */
module ListFilter {
  import opened Strings
  import opened Values
  import opened Scanner
  import opened BalancedText
  import opened FilterTokens
  import FilterCodec
  import LikePattern
  import P = QueryFilterParser
  import R = RuleEngine

  /** What stays fixed while one rule is compiled for one request and judged against one row. */
  datatype Case = Case(ctx: R.Context, fields: set<string>, row: Row, w: World)

  /** The clause that a filter string turns into, judged against the row; an empty clause restricts nothing. */
  predicate Admits(filter: string, c: Case) {
    var sql := P.Convert(filter, Some(c.fields), c.w);
    sql.None? || P.Holds(sql.value, c.row, c.w)
  }

  // ---------------------------------------------------------------- conjunctions of units

  predicate Converts(s: string, c: Case) {
    P.Convert(s, Some(c.fields), c.w).Some?
  }

  predicate AllConvert(parts: seq<string>, c: Case) {
    forall i :: 0 <= i < |parts| ==> Converts(parts[i], c)
  }

  predicate AllAdmit(parts: seq<string>, c: Case) {
    forall i :: 0 <= i < |parts| ==> Admits(parts[i], c)
  }

  predicate AllUnits(parts: seq<string>) {
    forall i :: 0 <= i < |parts| ==> Unit(parts[i])
  }

  /** A generated filter: units joined by `&&`, each of which the parser understands. */
  predicate Conjunction(filter: string, units: seq<string>, c: Case) {
    units != [] && AllUnits(units) && AllConvert(units, c) && filter == Join(units, " && ")
  }

  lemma {:induction false} PiecesConvert(pieces: seq<string>, parts: seq<string>, bound: nat, c: Case)
    requires TrimTo(pieces, parts) && AllConvert(parts, c)
    requires forall i :: 0 <= i < |pieces| ==> |pieces[i]| < bound
    ensures var sqls := P.ConvertParts(pieces, bound, Some(c.fields), c.w);
            |sqls| == |parts|
            && forall i :: 0 <= i < |parts| ==> sqls[i] == P.Convert(parts[i], Some(c.fields), c.w).value
    decreases |pieces|
  {
    if pieces != [] {
      assert Converts(parts[0], c);
      assert AllConvert(parts[1..], c) by {
        forall i | 0 <= i < |parts[1..]| ensures Converts(parts[1..][i], c) { assert parts[1..][i] == parts[i + 1]; }
      }
      assert TrimTo(pieces[1..], parts[1..]) by {
        forall i | 0 <= i < |parts[1..]| ensures Trim(pieces[1..][i]) == parts[1..][i] {
          assert Trim(pieces[i + 1]) == parts[i + 1];
        }
      }
      PiecesConvert(pieces[1..], parts[1..], bound, c);
    }
  }

  lemma UnitsAreOperands(units: seq<string>)
    requires AllUnits(units)
    ensures AreOperands(units) && FreeOf(units, "||") && FreeOf(units, "&&")
  {
    forall i | 0 <= i < |units|
      ensures Operand(units[i]) && NoTop(START, units[i], "||") && NoTop(START, units[i], "&&")
    {
      assert Unit(units[i]);
    }
  }

  /** Re-reading a conjunction conjoins its units. */
  lemma {:induction false} ConjunctionIsRead(filter: string, units: seq<string>, c: Case)
    requires Conjunction(filter, units, c)
    ensures Operand(filter) && NoTop(START, filter, "||") && Converts(filter, c)
    ensures Admits(filter, c) <==> AllAdmit(units, c)
  {
    UnitsAreOperands(units);
    JoinedIsBalanced(units, "&&");
    JoinedHasNoOther(units, "&&", "||");
    assert Spaced("&&") == " && ";
    if |units| == 1 {
      assert Converts(units[0], c);
    } else {
      ManyUnitsAreRead(filter, units, c);
    }
  }

  lemma {:induction false} ManyUnitsAreRead(filter: string, units: seq<string>, c: Case)
    requires Conjunction(filter, units, c) && |units| > 1 && NoTop(START, filter, "||") && filter != ""
    ensures Converts(filter, c)
    ensures Admits(filter, c) <==> AllAdmit(units, c)
  {
    UnitsAreOperands(units);
    SplitWithoutSeparator(START, filter, "||", "");
    assert "" + filter == filter && Spaced("&&") == " && ";
    SplitJoined(units, "&&", "");
    var pieces := SplitTopLevelSpec(filter, "&&");
    PartsAreShorter(filter, "&&");
    PiecesConvert(pieces, units, |filter|, c);
    var sqls := P.ConvertParts(pieces, |filter|, Some(c.fields), c.w);
    assert P.Convert(filter, Some(c.fields), c.w) == Some(P.AllOf(sqls));
    forall i | 0 <= i < |units| ensures Admits(units[i], c) <==> P.Holds(sqls[i], c.row, c.w) {
      assert Converts(units[i], c);
    }
  }

  /** Parentheses around a generated filter give one unit with the same meaning. */
  lemma {:induction false} GroupIsRead(filter: string, c: Case)
    requires Operand(filter) && Converts(filter, c)
    ensures Unit(Parens(filter)) && Converts(Parens(filter), c)
    ensures Admits(Parens(filter), c) <==> Admits(filter, c)
  {
    ParensMakeUnit(filter);
    TrimPadded(filter);
    UnitConverts(Parens(filter), Some(c.fields), c.w);
  }

  /** Clauses that say of the row what the filters do: some of the ones hold iff some of the others admit it. */
  lemma SomeMatches(filters: seq<string>, sqls: seq<P.Sql>, c: Case)
    requires |sqls| == |filters|
    requires forall i :: 0 <= i < |filters| ==> (Admits(filters[i], c) <==> P.Holds(sqls[i], c.row, c.w))
    ensures P.Holds(P.AnyOf(sqls), c.row, c.w) <==> exists i :: 0 <= i < |filters| && Admits(filters[i], c)
  {
    if i :| 0 <= i < |sqls| && P.Holds(sqls[i], c.row, c.w) {
      assert Admits(filters[i], c);
    }
    if i :| 0 <= i < |filters| && Admits(filters[i], c) {
      assert P.Holds(sqls[i], c.row, c.w);
    }
  }

  lemma DisjunctionConverts(body: string, sqls: seq<P.Sql>, c: Case)
    requires |SplitTopLevelSpec(body, "||")| > 1 && sqls != []
    requires forall i :: 0 <= i < |SplitTopLevelSpec(body, "||")| ==> |SplitTopLevelSpec(body, "||")[i]| < |body|
    requires sqls == P.ConvertParts(SplitTopLevelSpec(body, "||"), |body|, Some(c.fields), c.w)
    ensures P.Convert(body, Some(c.fields), c.w) == Some(P.AnyOf(sqls))
  {
  }

  lemma DisjunctionText(filters: seq<string>)
    requires |filters| > 1 && AreOperands(filters) && FreeOf(filters, "||")
    ensures var body := Join(filters, " || ");
      Operand(body) && TrimTo(SplitTopLevelSpec(body, "||"), filters)
  {
    var body := Join(filters, " || ");
    assert Spaced("||") == " || " && "" + body == body;
    JoinedIsBalanced(filters, "||");
    SplitJoined(filters, "||", "");
  }

  /** Text that splits into these filters means their disjunction. */
  lemma DisjunctsAreRead(body: string, filters: seq<string>, c: Case)
    requires |filters| > 1 && AllConvert(filters, c) && TrimTo(SplitTopLevelSpec(body, "||"), filters)
    ensures Converts(body, c)
    ensures Admits(body, c) <==> exists i :: 0 <= i < |filters| && Admits(filters[i], c)
  {
    var pieces := SplitTopLevelSpec(body, "||");
    PartsAreShorter(body, "||");
    PiecesConvert(pieces, filters, |body|, c);
    var sqls := P.ConvertParts(pieces, |body|, Some(c.fields), c.w);
    DisjunctionConverts(body, sqls, c);
    forall i | 0 <= i < |filters| ensures Admits(filters[i], c) <==> P.Holds(sqls[i], c.row, c.w) {
      assert Converts(filters[i], c);
    }
    SomeMatches(filters, sqls, c);
  }

  /** A parenthesised disjunction of generated filters gives one unit that means their disjunction. */
  lemma {:induction false} DisjunctionIsRead(filters: seq<string>, c: Case)
    requires |filters| > 1 && AreOperands(filters) && FreeOf(filters, "||") && AllConvert(filters, c)
    ensures var f := Parens(Join(filters, " || "));
            && Unit(f) && Converts(f, c)
            && (Admits(f, c) <==> exists i :: 0 <= i < |filters| && Admits(filters[i], c))
  {
    DisjunctionText(filters);
    DisjunctsAreRead(Join(filters, " || "), filters, c);
    GroupIsRead(Join(filters, " || "), c);
  }

  // ---------------------------------------------------------------- what is asked of the comparisons

  /** The number's printed text is bare, is no keyword, and is read back as the same number. */
  predicate PrintsBack(t: string, w: World) {
    && t != "" && Trimmed(t) && Bare(t) && w.number(t) == Some(t)
    && LowerAscii(t) !in {"true", "false", "null"}
  }

  predicate IsReference(t: string) {
    StartsWith(t, R.AUTH) || StartsWith(t, R.QUERY)
  }

  function Referenced(t: string, ctx: R.Context): Value
    requires IsReference(t)
  {
    if StartsWith(t, R.AUTH) then R.Property(ctx.auth, t[|R.AUTH|..]) else R.Property(ctx.query, t[|R.QUERY|..])
  }

  predicate IsKeyword(t: string) {
    LowerAscii(t) in {"true", "false", "null"}
  }

  /**
   * The right-hand side of a row-level comparison: a quoted literal, a bare number or keyword, or any reference into
   * the request.
   */
  predicate IsOperand(t: string, c: Case) {
    if IsReference(t) then
      && Trimmed(t) && c.w.number(t).None?
      && (Referenced(t, c.ctx).Num? ==> PrintsBack(Referenced(t, c.ctx).text, c.w))
    else
      Literal(t) || (t != "" && Trimmed(t) && Bare(t) && c.w.number(t).Some? != IsKeyword(t))
  }

  /**
   * The parameter bound for an operand: booleans as numbers, and a property of the request that is absent or null as
   * the empty string. Only the word null is bound as null.
   */
  function Bound(t: string, c: Case): Value {
    match R.ResolveValue(t, WithRow(c), c.w)
    case Bool(b) => if b then ONE else ZERO
    case Undefined => Str("")
    case Null => if IsReference(t) then Str("") else Null
    case v => v
  }

  /**
   * The two runtimes judge this one comparison alike. For `~` that is so when the operand reads the same in both, and
   * the column is stored or the text looked for is not empty; for the others it is left to the runtimes.
   */
  predicate Agree(op: string, left: Value, right: Value, bound: Value, w: World) {
    if op == "~" then StringOf(bound, w) == TextOf(right, w) && (Stored(left) || TextOf(right, w) != "")
    else w.jsCompare(op, left, right) == w.sqlCompare(op, left, bound)
  }

  function WithRow(c: Case): R.Context {
    c.ctx.(record := Some(c.row))
  }

  /** The row has no column of this name outside the allowed ones. */
  predicate NoHiddenColumn(name: string, c: Case) {
    name in c.row ==> name in c.fields
  }

  /**
   * The leaves this theorem is about. Request-level leaves are unrestricted but for `!~` and for the name of a column
   * that listing may not use.
   */
  predicate GoodLeafAt(t: string, found: Option<(string, nat)>, c: Case)
    requires R.Fits(t, found)
  {
    match found
    case Some(f) =>
      var left, right := R.LeftOf(t, f), R.RightOf(t, f);
      && f.0 != "!~"
      && if left in c.fields then
           && P.IsIdentifier(left) && IsOperand(right, c) && PlainName(left, c)
           && var value := R.ResolveValue(right, WithRow(c), c.w);
              Agree(R.Normalized(f.0), Column(c.row, left), value, Bound(right, c), c.w)
         else right !in c.fields && NoHiddenColumn(left, c) && NoHiddenColumn(right, c)
    case None =>
      if t in c.fields then
        && P.IsIdentifier(t) && PlainName(t, c)
        && c.w.truthy(Column(c.row, t)) == c.w.sqlCompare("=", Column(c.row, t), ONE)
      else NoHiddenColumn(t, c)
  }

  predicate GoodLeaf(t: string, c: Case) {
    R.FirstOperatorFits(t, R.LIST_OPERATORS);
    GoodLeafAt(t, FirstOperator(t, R.LIST_OPERATORS, false), c)
  }

  /** A column name is not itself a number or a keyword. */
  predicate PlainName(name: string, c: Case) {
    c.w.number(name).None? && !IsKeyword(name)
  }

  /** Every leaf that the descent into the rule reaches is good. */
  predicate GoodRule(expr: string, c: Case)
    decreases |expr|, 1, 0
  {
    PartsAreShorter(expr, "||");
    PartsAreShorter(expr, "&&");
    var ors := SplitTopLevelSpec(expr, "||");
    var ands := SplitTopLevelSpec(expr, "&&");
    if |ors| > 1 then GoodParts(ors, |expr|, c)
    else if |ands| > 1 then GoodParts(ands, |expr|, c)
    else
      var t := Trim(expr);
      if R.Wrapped(t) && EnclosedIgnoringQuotes(0, t) then GoodRule(Trim(t[1..|t| - 1]), c) else GoodLeaf(t, c)
  }

  predicate GoodParts(parts: seq<string>, bound: nat, c: Case)
    requires forall i :: 0 <= i < |parts| ==> |parts[i]| < bound
    decreases bound, 0, |parts|
  {
    parts == [] || (GoodRule(Trim(parts[0]), c) && GoodParts(parts[1..], bound, c))
  }

  /** Listing knows the user and the query but no record and no body. */
  predicate ListRequest(c: Case) {
    !c.ctx.isAdmin && c.ctx.data.None? && c.ctx.record.None?
  }

  // ---------------------------------------------------------------- leaves

  lemma FixedTexts()
    ensures Token("true") && Token("false") && Token("''") && FilterCodec.Encode("") == "''"
    ensures LowerAscii("true") == "true" && LowerAscii("false") == "false" && LowerAscii("null") == "null"
  {
    assert FilterCodec.EscapeChain("") == "";
    EncodedIsLiteral("");
  }

  /** A reference is printed as a token that is read back as the value bound for it. */
  lemma ReferenceIsPushed(t: string, c: Case)
    requires IsReference(t) && IsOperand(t, c)
    ensures Token(R.Printed(Referenced(t, c.ctx)))
    ensures P.ExtractLiteralValue(R.Printed(Referenced(t, c.ctx)), c.w) == Bound(t, c)
  {
    FixedTexts();
    ReferenceResolves(t, c);
    var v := Referenced(t, c.ctx);
    var p := R.Printed(v);
    if v.Str? {
      EncodedIsLiteral(v.s);
    }
    if v.Str? || v.Undefined? || v.Null? {
      LiteralIsQuoted(p);
      FilterCodec.RoundTrip(if v.Str? then v.s else "");
    }
    TrimPadded(p);
  }

  lemma ReferenceResolves(t: string, c: Case)
    requires IsReference(t) && IsOperand(t, c)
    ensures R.SubstituteVariables(t, c.ctx) == R.Printed(Referenced(t, c.ctx))
    ensures R.ResolveValue(t, WithRow(c), c.w) == Referenced(t, c.ctx)
  {
    TrimPadded(t);
    assert t[0] == '@' && LowerAscii(t)[0] == '@';
    assert t[9] == 'a' || t[9] == 'q';
    assert !StartsWith(t, R.DATA);
  }

  lemma LiteralResolves(t: string, c: Case)
    requires Literal(t)
    ensures R.SubstituteVariables(t, c.ctx) == t
    ensures P.ExtractLiteralValue(t, c.w) == R.ResolveValue(t, WithRow(c), c.w) == Bound(t, c)
  {
    LiteralIsQuoted(t);
    TrimPadded(t);
    assert t[0] != '@';
  }

  lemma BareResolves(t: string, c: Case)
    requires !IsReference(t) && t != "" && Trimmed(t) && Bare(t) && c.w.number(t).Some? != IsKeyword(t)
    ensures R.SubstituteVariables(t, c.ctx) == t
    ensures P.ExtractLiteralValue(t, c.w) == Bound(t, c)
  {
    TrimPadded(t);
    assert !FilterCodec.Quoted(t);
  }

  /** An operand is substituted by a token that the parser reads as the value bound for it. */
  lemma OperandIsPushed(t: string, c: Case)
    requires IsOperand(t, c)
    ensures Token(R.SubstituteVariables(t, c.ctx))
    ensures P.ExtractLiteralValue(R.SubstituteVariables(t, c.ctx), c.w) == Bound(t, c)
  {
    if IsReference(t) {
      ReferenceResolves(t, c);
      ReferenceIsPushed(t, c);
    } else if Literal(t) {
      LiteralResolves(t, c);
    } else {
      BareResolves(t, c);
    }
  }

  /** Access computed without the row, joined with the clause's verdict on the row, against a truth value. */
  predicate Sound(a: R.Access, units: seq<string>, holds: bool, c: Case) {
    && (a.filter.Some? ==> a.allowed && Conjunction(a.filter.value, units, c))
    && (holds <==> a.allowed && (a.filter.None? || Admits(a.filter.value, c)))
  }

  lemma ColumnResolves(name: string, c: Case)
    requires ListRequest(c) && P.IsIdentifier(name) && PlainName(name, c)
    ensures R.ResolveValue(name, WithRow(c), c.w) == Column(c.row, name)
    ensures R.SubstituteVariables(name, c.ctx) == name
  {
    IdentifierIsBare(name);
    TrimPadded(name);
    assert name[0] != '@' && !FilterCodec.Quoted(name);
  }

  /**
   * For `~`, with an operand that reads the same in both: SQL says of the row what the rule says if and only if the
   * column is stored or the text looked for is not empty. LIKE never admits a null, which a rule takes as empty text.
   */
  lemma LikeAgreesIff(field: string, right: Value, bound: Value, c: Case)
    requires StringOf(bound, c.w) == TextOf(right, c.w)
    ensures (P.Holds(P.Comparison(field, "~", bound, c.w), c.row, c.w)
             <==> R.CompareValues("~", Column(c.row, field), right, c.w))
       <==> Stored(Column(c.row, field)) || TextOf(right, c.w) != ""
  {
    var text := TextOf(Column(c.row, field), c.w);
    LikePattern.ContainsExactly(TextOf(right, c.w), text, c.w.fold);
    if TextOf(right, c.w) == "" {
      assert LikePattern.PrefixFolded("", text[0..], c.w.fold);
    }
  }

  /** The SQL comparison says of the row what the rule's comparison says. */
  lemma ComparisonMeans(field: string, op: string, right: Value, bound: Value, c: Case)
    requires Operator(op) && op != "!~" && Agree(op, Column(c.row, field), right, bound, c.w)
    ensures P.Holds(P.Comparison(field, op, bound, c.w), c.row, c.w)
        <==> R.CompareValues(op, Column(c.row, field), right, c.w)
  {
    if op == "~" {
      LikeAgreesIff(field, right, bound, c);
    }
  }

  lemma {:induction false} FirstOperatorAppend(s: string, a: seq<string>, b: seq<string>)
    ensures FirstOperator(s, a + b, false)
         == if FirstOperator(s, a, false).Some? then FirstOperator(s, a, false) else FirstOperator(s, b, false)
  {
    if a == [] {
      assert a + b == b;
    } else {
      assert (a + b)[1..] == a[1..] + b;
      FirstOperatorAppend(s, a[1..], b);
    }
  }

  /** The list compiler and the evaluator pick the same operator if and only if it is not `!~`. */
  lemma SameOperatorIff(t: string)
    ensures var l := FirstOperator(t, R.LIST_OPERATORS, false);
            FirstOperator(t, R.EVAL_OPERATORS, false) == l <==> l.None? || l.value.0 != "!~"
  {
    var shared := ["!=", "==", ">=", "<=", "=", ">", "<"];
    FirstOperatorAppend(t, shared, ["~"]);
    FirstOperatorAppend(t, shared, ["!~", "~"]);
    assert R.EVAL_OPERATORS == shared + ["~"] && R.LIST_OPERATORS == shared + ["!~", "~"];
    FirstOperatorAppend(t, ["!~"], ["~"]);
    assert ["!~"] + ["~"] == ["!~", "~"];
    assert ["!~"][1..] == [];
  }

  /** A token that names no column means the same with and without the row. */
  lemma UnnamedResolves(t: string, c: Case)
    requires ListRequest(c) && Trim(t) !in c.row
    ensures R.ResolveValue(t, WithRow(c), c.w) == R.ResolveValue(t, c.ctx, c.w)
  {
  }

  /** A request-level leaf has the same verdict with and without the row. */
  lemma RequestLeaf(t: string, found: Option<(string, nat)>, c: Case)
    requires ListRequest(c) && R.Fits(t, found)
    requires match found case Some(f) => R.LeftOf(t, f) !in c.row && R.RightOf(t, f) !in c.row
                         case None => Trimmed(t) && t !in c.row
    ensures R.EvaluateAt(t, found, WithRow(c), c.w) == R.EvaluateAt(t, found, c.ctx, c.w)
  {
    match found
    case Some(f) =>
      TrimTwice(t[..f.1]);
      TrimTwice(t[f.1 + |f.0|..]);
      UnnamedResolves(R.LeftOf(t, f), c);
      UnnamedResolves(R.RightOf(t, f), c);
    case None =>
      if t != "" {
        TrimPadded(t);
      }
      UnnamedResolves(t, c);
  }

  lemma TrimTwice(s: string)
    ensures Trim(Trim(s)) == Trim(s)
  {
    TrimIsTrimmed(s);
    if Trim(s) != "" {
      TrimPadded(Trim(s));
    }
  }

  lemma PrintedLeafSound(field: string, op: string, token: string, right: Value, bound: Value, c: Case)
    requires P.IsIdentifier(field) && field in c.fields && Operator(op) && op != "!~" && Token(token)
    requires P.ExtractLiteralValue(token, c.w) == bound && Agree(op, Column(c.row, field), right, bound, c.w)
    ensures Conjunction(Printed(field, op, token), [Printed(field, op, token)], c)
    ensures Admits(Printed(field, op, token), c) <==> R.CompareValues(op, Column(c.row, field), right, c.w)
  {
    PrintedLeaf(field, op, token, Some(c.fields), c.w);
    ComparisonMeans(field, op, right, bound, c);
  }

  lemma RowComparison(t: string, f: (string, nat), c: Case)
    requires ListRequest(c) && R.Fits(t, Some(f)) && GoodLeafAt(t, Some(f), c) && f.0 in R.LIST_OPERATORS
    requires R.LeftOf(t, f) in c.fields
    ensures var filter := R.SubstituteVariables(R.LeftOf(t, f), c.ctx) + " " + R.Normalized(f.0) + " "
                          + R.SubstituteVariables(R.RightOf(t, f), c.ctx);
            Conjunction(filter, [filter], c) && (Admits(filter, c) <==> R.EvaluateAt(t, Some(f), WithRow(c), c.w))
  {
    var left, right := R.LeftOf(t, f), R.RightOf(t, f);
    ColumnResolves(left, c);
    OperandIsPushed(right, c);
    var op, value := R.Normalized(f.0), R.ResolveValue(right, WithRow(c), c.w);
    PrintedLeafSound(left, op, R.SubstituteVariables(right, c.ctx), value, Bound(right, c), c);
    assert R.CompareValues(op, Column(c.row, left), value, c.w)
        == R.CompareValues(f.0, Column(c.row, left), value, c.w);
  }

  lemma TrueIsOne(w: World)
    ensures Token("true") && P.ExtractLiteralValue("true", w) == ONE
  {
    FixedTexts();
    TrimPadded("true");
  }

  lemma PrintedFlag(field: string, op: string, token: string, c: Case)
    requires P.IsIdentifier(field) && field in c.fields && op == "=" && Token(token)
    requires P.ExtractLiteralValue(token, c.w) == ONE
    ensures Conjunction(Printed(field, op, token), [Printed(field, op, token)], c)
    ensures Admits(Printed(field, op, token), c) <==> c.w.sqlCompare("=", Column(c.row, field), ONE)
  {
    PrintedLeaf(field, op, token, Some(c.fields), c.w);
  }

  lemma RowFlag(t: string, c: Case)
    requires ListRequest(c) && Trimmed(t) && GoodLeafAt(t, None, c) && t in c.fields
    ensures Conjunction(t + " = true", [t + " = true"], c)
    ensures Admits(t + " = true", c) <==> R.EvaluateAt(t, None, WithRow(c), c.w)
  {
    ColumnResolves(t, c);
    TrueIsOne(c.w);
    PrintedFlag(t, "=", "true", c);
    assert t + " = true" == Printed(t, "=", "true");
  }

  lemma LeafSound(t: string, c: Case) returns (units: seq<string>)
    requires ListRequest(c) && GoodLeaf(t, c) && Trimmed(t)
    ensures Sound(R.ResolveLeaf(t, c.ctx, c.fields, c.w), units, R.EvaluateComparison(t, WithRow(c), c.w), c)
  {
    R.FirstOperatorFits(t, R.LIST_OPERATORS);
    SameOperatorIff(t);
    units := LeafSoundAt(t, FirstOperator(t, R.LIST_OPERATORS, false), c);
  }

  lemma LeafSoundAt(t: string, found: Option<(string, nat)>, c: Case) returns (units: seq<string>)
    requires ListRequest(c) && Trimmed(t) && R.Fits(t, found) && GoodLeafAt(t, found, c)
    requires found.Some? ==> found.value.0 in R.LIST_OPERATORS
    ensures Sound(R.ResolveAt(t, found, R.EvaluateAt(t, found, c.ctx, c.w), c.ctx, c.fields, c.w), units,
                  R.EvaluateAt(t, found, WithRow(c), c.w), c)
  {
    var a := R.ResolveAt(t, found, R.EvaluateAt(t, found, c.ctx, c.w), c.ctx, c.fields, c.w);
    if a.filter.None? {
      RequestLeaf(t, found, c);
      units := [];
    } else {
      match found {
        case Some(f) => RowComparison(t, f, c);
        case None => RowFlag(t, c);
      }
      units := [a.filter.value];
    }
  }

  // ---------------------------------------------------------------- disjunction and conjunction

  predicate AllSound(results: seq<R.Access>, units: seq<seq<string>>, verdicts: seq<bool>, c: Case) {
    && |results| == |units| == |verdicts|
    && forall i :: 0 <= i < |results| ==> Sound(results[i], units[i], verdicts[i], c)
  }

  lemma AllSoundTail(results: seq<R.Access>, units: seq<seq<string>>, verdicts: seq<bool>, c: Case)
    requires AllSound(results, units, verdicts, c) && results != []
    ensures AllSound(results[1..], units[1..], verdicts[1..], c)
  {
    forall i | 0 <= i < |results[1..]| ensures Sound(results[1..][i], units[1..][i], verdicts[1..][i], c) {
      assert Sound(results[i + 1], units[i + 1], verdicts[i + 1], c);
    }
  }

  predicate SomeTrue(verdicts: seq<bool>) {
    verdicts != [] && (verdicts[0] || SomeTrue(verdicts[1..]))
  }

  predicate EveryTrue(verdicts: seq<bool>) {
    verdicts == [] || (verdicts[0] && EveryTrue(verdicts[1..]))
  }

  lemma {:induction false} SomeAt(verdicts: seq<bool>)
    ensures SomeTrue(verdicts) <==> exists i :: 0 <= i < |verdicts| && verdicts[i]
  {
    if verdicts != [] {
      SomeAt(verdicts[1..]);
      if i :| 0 <= i < |verdicts| && verdicts[i] {
        assert i > 0 ==> verdicts[1..][i - 1];
      }
    }
  }

  lemma {:induction false} EveryAt(verdicts: seq<bool>)
    ensures EveryTrue(verdicts) <==> forall i :: 0 <= i < |verdicts| ==> verdicts[i]
  {
    if verdicts != [] {
      EveryAt(verdicts[1..]);
      if EveryTrue(verdicts) {
        forall i | 0 <= i < |verdicts| ensures verdicts[i] { assert i > 0 ==> verdicts[1..][i - 1]; }
      }
    }
  }

  lemma SoundFilter(a: R.Access, units: seq<string>, verdict: bool, c: Case)
    requires Sound(a, units, verdict, c)
    ensures R.Unconditional(a) <==> a.allowed && a.filter.None?
    ensures a.filter.Some?
        ==> Operand(a.filter.value) && NoTop(START, a.filter.value, "||") && Converts(a.filter.value, c)
  {
    if a.filter.Some? {
      ConjunctionIsRead(a.filter.value, units, c);
    }
  }

  predicate GoodFilters(filters: seq<string>, c: Case) {
    AreOperands(filters) && FreeOf(filters, "||") && AllConvert(filters, c)
  }

  predicate SomeAdmits(filters: seq<string>, c: Case) {
    exists i :: 0 <= i < |filters| && Admits(filters[i], c)
  }

  lemma PrependFilter(f: string, filters: seq<string>, c: Case)
    requires Operand(f) && NoTop(START, f, "||") && Converts(f, c) && GoodFilters(filters, c)
    ensures GoodFilters([f] + filters, c)
    ensures SomeAdmits([f] + filters, c) <==> Admits(f, c) || SomeAdmits(filters, c)
  {
    PrependGood(f, filters, c);
    PrependAdmits(f, filters, c);
  }

  lemma PrependGood(f: string, filters: seq<string>, c: Case)
    requires Operand(f) && NoTop(START, f, "||") && Converts(f, c) && GoodFilters(filters, c)
    ensures GoodFilters([f] + filters, c)
  {
    var all := [f] + filters;
    forall i | 0 <= i < |all| ensures Operand(all[i]) && NoTop(START, all[i], "||") && Converts(all[i], c) {
      assert i > 0 ==> all[i] == filters[i - 1] && Operand(filters[i - 1]) && Converts(filters[i - 1], c);
    }
  }

  lemma PrependAdmits(f: string, filters: seq<string>, c: Case)
    ensures SomeAdmits([f] + filters, c) <==> Admits(f, c) || SomeAdmits(filters, c)
  {
    var all := [f] + filters;
    if Admits(f, c) {
      assert Admits(all[0], c);
    }
    if i :| 0 <= i < |filters| && Admits(filters[i], c) {
      assert Admits(all[i + 1], c);
    }
    if i :| 0 <= i < |all| && Admits(all[i], c) {
      assert i > 0 ==> Admits(filters[i - 1], c);
    }
  }

  /** Without an unconditional branch, the collected filters admit the row iff some branch holds. */
  lemma {:induction false} CollectedFilters(results: seq<R.Access>, units: seq<seq<string>>, verdicts: seq<bool>,
      c: Case)
    returns (first: seq<string>)
    requires AllSound(results, units, verdicts, c)
    requires forall i :: 0 <= i < |results| ==> !R.Unconditional(results[i])
    ensures var filters := R.RowFilters(results);
            && GoodFilters(filters, c)
            && (SomeAdmits(filters, c) <==> SomeTrue(verdicts))
            && (filters != [] ==> Conjunction(filters[0], first, c))
    decreases |results|
  {
    first := [];
    if results != [] {
      AllSoundTail(results, units, verdicts, c);
      first := CollectedFilters(results[1..], units[1..], verdicts[1..], c);
      assert Sound(results[0], units[0], verdicts[0], c);
      SoundFilter(results[0], units[0], verdicts[0], c);
      if results[0].allowed {
        PrependFilter(results[0].filter.value, R.RowFilters(results[1..]), c);
        first := units[0];
      } else {
        assert [] + R.RowFilters(results[1..]) == R.RowFilters(results[1..]);
      }
    }
  }

  lemma {:induction false} AnySound(results: seq<R.Access>, units: seq<seq<string>>, verdicts: seq<bool>, c: Case)
    returns (joined: seq<string>)
    requires AllSound(results, units, verdicts, c)
    ensures Sound(R.AnyAccess(results), joined, SomeTrue(verdicts), c)
  {
    joined := [];
    SomeAt(verdicts);
    if i :| 0 <= i < |results| && R.Unconditional(results[i]) {
      assert Sound(results[i], units[i], verdicts[i], c);
      SoundFilter(results[i], units[i], verdicts[i], c);
    } else {
      joined := CollectedFilters(results, units, verdicts, c);
      var filters := R.RowFilters(results);
      if |filters| > 1 {
        DisjunctionIsRead(filters, c);
        var f := Parens(Join(filters, " || "));
        joined := [f];
        assert Conjunction(f, joined, c);
      } else if |filters| == 1 {
        assert SomeAdmits(filters, c) <==> Admits(filters[0], c);
      }
    }
  }

  /** The units of all collected filters, in order. */
  function RowUnits(results: seq<R.Access>, units: seq<seq<string>>): seq<string>
    requires |results| == |units|
  {
    if results == [] then []
    else (if results[0].filter.Some? then units[0] else []) + RowUnits(results[1..], units[1..])
  }

  lemma UnitsConcat(a: seq<string>, b: seq<string>, c: Case)
    requires AllUnits(a) && AllUnits(b) && AllConvert(a, c) && AllConvert(b, c)
    ensures AllUnits(a + b) && AllConvert(a + b, c)
    ensures AllAdmit(a + b, c) <==> AllAdmit(a, c) && AllAdmit(b, c)
  {
    var all := a + b;
    forall i | 0 <= i < |all| ensures Unit(all[i]) && Converts(all[i], c) {
      assert if i < |a| then all[i] == a[i] && Unit(a[i]) && Converts(a[i], c)
             else all[i] == b[i - |a|] && Unit(b[i - |a|]) && Converts(b[i - |a|], c);
    }
    if AllAdmit(all, c) {
      forall i | 0 <= i < |a| ensures Admits(a[i], c) { assert Admits(all[i], c); }
      forall i | 0 <= i < |b| ensures Admits(b[i], c) { assert Admits(all[|a| + i], c); }
    }
    if AllAdmit(a, c) && AllAdmit(b, c) {
      forall i | 0 <= i < |all| ensures Admits(all[i], c) {
        assert if i < |a| then all[i] == a[i] else all[i] == b[i - |a|];
      }
    }
  }

  lemma {:induction false} CollectedUnits(results: seq<R.Access>, units: seq<seq<string>>, verdicts: seq<bool>, c: Case)
    requires AllSound(results, units, verdicts, c)
    requires forall i :: 0 <= i < |results| ==> results[i].allowed
    ensures var filters, all := R.RowFilters(results), RowUnits(results, units);
            && AllUnits(all) && AllConvert(all, c)
            && (filters == [] <==> all == [])
            && Join(filters, " && ") == Join(all, " && ")
            && (AllAdmit(all, c) <==> EveryTrue(verdicts))
    decreases |results|
  {
    if results != [] {
      AllSoundTail(results, units, verdicts, c);
      CollectedUnits(results[1..], units[1..], verdicts[1..], c);
      assert Sound(results[0], units[0], verdicts[0], c);
      SoundFilter(results[0], units[0], verdicts[0], c);
      if results[0].filter.Some? {
        var f, rest, more := results[0].filter.value, R.RowFilters(results[1..]), RowUnits(results[1..], units[1..]);
        ConjunctionIsRead(f, units[0], c);
        UnitsConcat(units[0], more, c);
        if more != [] {
          JoinConcat(units[0], more, " && ");
          assert ([f] + rest)[1..] == rest;
        } else {
          assert units[0] + more == units[0] && [f] + rest == [f];
        }
      } else {
        assert [] + R.RowFilters(results[1..]) == R.RowFilters(results[1..]);
        assert [] + RowUnits(results[1..], units[1..]) == RowUnits(results[1..], units[1..]);
      }
    }
  }

  lemma {:induction false} EverySound(results: seq<R.Access>, units: seq<seq<string>>, verdicts: seq<bool>, c: Case)
    returns (joined: seq<string>)
    requires AllSound(results, units, verdicts, c)
    ensures Sound(R.EveryAccess(results), joined, EveryTrue(verdicts), c)
  {
    joined := [];
    EveryAt(verdicts);
    if i :| 0 <= i < |results| && !results[i].allowed {
      assert Sound(results[i], units[i], verdicts[i], c);
    } else {
      CollectedUnits(results, units, verdicts, c);
      joined := RowUnits(results, units);
      if joined != [] {
        ConjunctionIsRead(Join(joined, " && "), joined, c);
      }
    }
  }

  // ---------------------------------------------------------------- whole rules

  /** What the compiler makes of the answer for the rule inside parentheses. */
  function Grouped(a: R.Access): R.Access {
    if !a.allowed then R.DENIED
    else if R.Unconditional(a) then R.UNRESTRICTED
    else R.Access(true, Some("(" + a.filter.value + ")"))
  }

  /** A rule in parentheses: the filter keeps them, and reads as one unit. */
  lemma GroupSound(a: R.Access, units: seq<string>, holds: bool, c: Case) returns (grouped: seq<string>)
    requires Sound(a, units, holds, c)
    ensures Sound(Grouped(a), grouped, holds, c)
  {
    SoundFilter(a, units, holds, c);
    grouped := units;
    if a.filter.Some? {
      GroupIsRead(a.filter.value, c);
      grouped := [Parens(a.filter.value)];
    }
  }

  /** An expression that neither OR nor AND splits is a parenthesised one or a leaf. */
  lemma UnsplitResolves(expr: string, c: Case)
    requires |SplitTopLevelSpec(expr, "||")| <= 1 && |SplitTopLevelSpec(expr, "&&")| <= 1
    ensures var t, a := Trim(expr), R.ResolveListExpression(expr, c.ctx, c.fields, c.w);
      var holds := R.EvaluateExpression(expr, WithRow(c), c.w);
      if R.Wrapped(t) && EnclosedIgnoringQuotes(0, t) then
        var inner := Trim(t[1..|t| - 1]);
        && a == Grouped(R.ResolveListExpression(inner, c.ctx, c.fields, c.w))
        && holds == R.EvaluateExpression(inner, WithRow(c), c.w)
        && (GoodRule(expr, c) <==> GoodRule(inner, c))
      else
        && a == R.ResolveLeaf(t, c.ctx, c.fields, c.w)
        && holds == R.EvaluateComparison(t, WithRow(c), c.w)
        && (GoodRule(expr, c) <==> GoodLeaf(t, c))
  {
  }

  lemma {:induction false} ExpressionSound(expr: string, c: Case) returns (units: seq<string>)
    requires ListRequest(c) && GoodRule(expr, c)
    ensures Sound(R.ResolveListExpression(expr, c.ctx, c.fields, c.w), units,
        R.EvaluateExpression(expr, WithRow(c), c.w), c)
    decreases |expr|, 1, 0
  {
    PartsAreShorter(expr, "||");
    PartsAreShorter(expr, "&&");
    var ors := SplitTopLevelSpec(expr, "||");
    var ands := SplitTopLevelSpec(expr, "&&");
    if |ors| > 1 {
      var us, vs := PartsSound(ors, |expr|, c);
      units := AnySound(R.ResolveParts(ors, |expr|, c.ctx, c.fields, c.w), us, vs, c);
    } else if |ands| > 1 {
      var us, vs := PartsSound(ands, |expr|, c);
      units := EverySound(R.ResolveParts(ands, |expr|, c.ctx, c.fields, c.w), us, vs, c);
    } else {
      var t := Trim(expr);
      TrimIsTrimmed(expr);
      UnsplitResolves(expr, c);
      if R.Wrapped(t) && EnclosedIgnoringQuotes(0, t) {
        var inner := Trim(t[1..|t| - 1]);
        units := ExpressionSound(inner, c);
        units := GroupSound(R.ResolveListExpression(inner, c.ctx, c.fields, c.w), units,
          R.EvaluateExpression(inner, WithRow(c), c.w), c);
      } else {
        units := LeafSound(t, c);
      }
    }
  }

  lemma {:induction false} PartsSound(parts: seq<string>, bound: nat, c: Case)
    returns (units: seq<seq<string>>, verdicts: seq<bool>)
    requires forall i :: 0 <= i < |parts| ==> |parts[i]| < bound
    requires ListRequest(c) && GoodParts(parts, bound, c)
    ensures AllSound(R.ResolveParts(parts, bound, c.ctx, c.fields, c.w), units, verdicts, c)
    ensures R.EvaluateSome(parts, bound, WithRow(c), c.w) <==> SomeTrue(verdicts)
    ensures R.EvaluateEvery(parts, bound, WithRow(c), c.w) <==> EveryTrue(verdicts)
    decreases bound, 0, |parts|
  {
    units, verdicts := [], [];
    if parts != [] {
      var u := ExpressionSound(Trim(parts[0]), c);
      var us, vs := PartsSound(parts[1..], bound, c);
      var v := R.EvaluateExpression(Trim(parts[0]), WithRow(c), c.w);
      units, verdicts := [u] + us, [v] + vs;
      AllSoundCons(R.ResolveListExpression(Trim(parts[0]), c.ctx, c.fields, c.w), u, v,
                   R.ResolveParts(parts[1..], bound, c.ctx, c.fields, c.w), us, vs, c);
      assert verdicts[1..] == vs;
    }
  }

  lemma AllSoundCons(a: R.Access, u: seq<string>, v: bool, results: seq<R.Access>, us: seq<seq<string>>, vs: seq<bool>,
      c: Case)
    requires Sound(a, u, v, c) && AllSound(results, us, vs, c)
    ensures AllSound([a] + results, [u] + us, [v] + vs, c)
  {
    forall i | 0 <= i < |results| + 1 ensures Sound(([a] + results)[i], ([u] + us)[i], ([v] + vs)[i], c) {
      assert i > 0 ==> Sound(results[i - 1], us[i - 1], vs[i - 1], c);
    }
  }

  /**
   * The compiler preserves meaning: for every rule string whose leaves are good, every request and every row, the
   * rule holds for the row iff listing is allowed and the generated filter, re-read and turned into SQL, admits it.
   */
  lemma {:induction false} CompilerPreservesMeaning(rule: Option<string>, c: Case)
    requires ListRequest(c)
    requires rule.Some? && Trim(rule.value) != "" ==> GoodRule(Trim(rule.value), c)
    ensures var a := R.BuildListFilter(rule, c.ctx, c.fields, c.w);
            R.Evaluate(rule, WithRow(c), c.w) <==> a.allowed && (a.filter.None? || Admits(a.filter.value, c))
  {
    if rule.Some? && Trim(rule.value) != "" {
      var units := ExpressionSound(Trim(rule.value), c);
    }
  }

  // ---------------------------------------------------------------- which comparisons survive

  /** A printed comparison restricts the list iff its left side is an allowed column; otherwise the parser drops it. */
  lemma {:induction false} ComparisonSurvivesIff(left: string, op: string, right: string, c: Case)
    requires Token(left) && Token(right) && Operator(op)
    ensures Converts(Printed(left, op, right), c) <==> P.IsIdentifier(left) && P.Allowed(left, Some(c.fields))
    ensures !Converts(Printed(left, op, right), c) ==> Admits(Printed(left, op, right), c)
  {
    PrintedLeaf(left, op, right, Some(c.fields), c.w);
  }

  /** With the column on the right, the printed comparison is dropped and every row is admitted. */
  lemma {:induction false} ColumnOnTheRightIsDropped(c: Case)
    ensures Admits("'u1' = owner", c) && !Converts("'u1' = owner", c)
  {
    var st := Next(START, '\'');
    assert "'u1'"[1..] == "u1'" && "u1'"[1..] == "1'" && "1'"[1..] == "'";
    assert Sealed(st, "'");
    assert Sealed(st, "1'");
    assert Sealed(st, "u1'");
    assert Printed("'u1'", "=", "owner") == "'u1' = owner";
    assert !P.IsIdentifier("'u1'") by { assert "'u1'"[0] == '\''; }
    ComparisonSurvivesIff("'u1'", "=", "owner", c);
  }

  // ---------------------------------------------------------------- the two pattern operators, over whole rules

  /** Where a scan of `field op token` finds an operator that lies behind the field. */
  lemma FoundBehind(field: string, op: string, token: string, sought: string)
    requires Bare(field) && field != "" && Sign(sought) && op != ""
    ensures var s, b := Printed(field, op, token), op + " " + token;
      FindOperatorIndexSpec(s, sought, false)
      == var r := FindOp(START, b, sought, Some(' '), false); if r == -1 then -1 else |field| + 1 + r
  {
    var b := op + " " + token;
    assert Printed(field, op, token) == field + (" " + b);
    SkipBareWith(field, " " + b, sought, None, false);
    assert Bare(" ");
    SkipBareWith(" ", b, sought, Some(field[|field| - 1]), false);
  }

  /** Behind the operator comes a blank and a token, and nothing is found. */
  lemma NoSignBehind(token: string, sought: string, prev: Option<char>)
    requires Token(token) && Sign(sought)
    ensures FindOp(START, " " + token, sought, prev, false) == -1
  {
    assert Bare(" ");
    SkipBareWith(" ", token, sought, prev, false);
    TokenHasNoSign(token, sought, Some(' '), false);
  }

  /** Where an operator is found in the text from a pattern operator on. */
  function PatternHit(op: string, sought: string): int {
    if sought == op then 0 else if sought == "~" then 1 else -1
  }

  lemma FoundInTail(op: string, token: string, sought: string)
    requires Token(token) && (op == "~" || op == "!~") && sought in R.LIST_OPERATORS
    ensures FindOp(START, op + " " + token, sought, Some(' '), false) == PatternHit(op, sought)
  {
    var b := op + " " + token;
    assert Sign(sought);
    NoSignBehind(token, sought, Some('~'));
    assert Next(START, '~') == START && Next(START, '!') == START;
    if op == "~" {
      assert b[0] == '~' && b[1..] == " " + token;
      assert Hit(START, b, sought) <==> sought == "~";
    } else {
      var tail := b[1..];
      assert b[0] == '!' && b[1] == '~' && tail[0] == '~' && tail[1..] == " " + token;
      assert Hit(START, b, sought) <==> sought == "!~";
      assert Hit(START, tail, sought) <==> sought == "~";
    }
  }

  lemma PatternOperatorIndex(field: string, op: string, token: string, sought: string)
    requires Bare(field) && field != "" && Token(token) && (op == "~" || op == "!~") && sought in R.LIST_OPERATORS
    ensures FindOperatorIndexSpec(Printed(field, op, token), sought, false)
         == if PatternHit(op, sought) == -1 then -1 else |field| + 1 + PatternHit(op, sought)
  {
    assert Sign(sought);
    FoundBehind(field, op, token, sought);
    FoundInTail(op, token, sought);
  }

  lemma OnlyPatternOperators(s: string, shared: seq<string>)
    requires shared == ["!=", "==", ">=", "<=", "=", ">", "<"] && FirstOperator(s, shared, false).None?
    requires FindOperatorIndexSpec(s, "~", false) != -1
    ensures var i, j := FindOperatorIndexSpec(s, "!~", false), FindOperatorIndexSpec(s, "~", false);
      && FirstOperator(s, R.EVAL_OPERATORS, false) == Some(("~", j))
      && FirstOperator(s, R.LIST_OPERATORS, false) == Some(if i != -1 then ("!~", i) else ("~", j))
  {
    assert ["!~", "~"][1..] == ["~"];
    FirstOperatorAppend(s, shared, ["~"]);
    FirstOperatorAppend(s, shared, ["!~", "~"]);
    assert R.EVAL_OPERATORS == shared + ["~"] && R.LIST_OPERATORS == shared + ["!~", "~"];
  }

  lemma PatternOperatorIsFound(field: string, op: string, token: string)
    requires Bare(field) && field != "" && Token(token) && (op == "~" || op == "!~")
    ensures var s := Printed(field, op, token);
      && FirstOperator(s, R.LIST_OPERATORS, false) == Some((op, |field| + 1))
      && FirstOperator(s, R.EVAL_OPERATORS, false) == Some(("~", |field| + |op|))
  {
    var s, shared := Printed(field, op, token), ["!=", "==", ">=", "<=", "=", ">", "<"];
    forall other | other in shared ensures FindOperatorIndexSpec(s, other, false) == -1 {
      PatternOperatorIndex(field, op, token, other);
    }
    NoneOfThese(s, shared);
    PatternOperatorIndex(field, op, token, "~");
    PatternOperatorIndex(field, op, token, "!~");
    OnlyPatternOperators(s, shared);
  }

  lemma {:induction false} NoneOfThese(s: string, ops: seq<string>)
    requires forall op :: op in ops ==> FindOperatorIndexSpec(s, op, false) == -1
    ensures FirstOperator(s, ops, false).None?
  {
    if ops != [] {
      NoneOfThese(s, ops[1..]);
    }
  }

  /** A printed comparison is neither split nor unwrapped. */
  lemma PrintedIsOneLeaf(field: string, op: string, token: string)
    requires P.IsIdentifier(field) && Token(token) && Operator(op)
    ensures var s := Printed(field, op, token);
      && Trim(s) == s != "" && !R.Wrapped(s)
      && |SplitTopLevelSpec(s, "||")| == 1 && |SplitTopLevelSpec(s, "&&")| == 1
  {
    var s := Printed(field, op, token);
    IdentifierIsBare(field);
    PrintedIsUnit(field, op, token);
    TrimPadded(s);
    SplitWithoutSeparator(START, s, "||", "");
    SplitWithoutSeparator(START, s, "&&", "");
    assert "" + s == s && s[0] == field[0];
  }

  lemma LeafIsEvaluated(s: string, ctx: R.Context, w: World)
    requires Trim(s) == s != "" && !R.Wrapped(s)
    requires |SplitTopLevelSpec(s, "||")| == 1 && |SplitTopLevelSpec(s, "&&")| == 1
    ensures R.EvaluateExpression(s, ctx, w) == R.EvaluateComparison(s, ctx, w)
  {
  }

  lemma LeafIsResolved(s: string, ctx: R.Context, fields: set<string>, w: World)
    requires Trim(s) == s != "" && !R.Wrapped(s)
    requires |SplitTopLevelSpec(s, "||")| == 1 && |SplitTopLevelSpec(s, "&&")| == 1
    ensures R.ResolveListExpression(s, ctx, fields, w) == R.ResolveLeaf(s, ctx, fields, w)
  {
  }

  /** A rule of one printed comparison is its leaf. */
  lemma OneLeafRule(field: string, op: string, token: string, c: Case)
    requires ListRequest(c) && P.IsIdentifier(field) && Token(token) && Operator(op)
    ensures var s := Printed(field, op, token);
      && R.Evaluate(Some(s), WithRow(c), c.w) == R.EvaluateComparison(s, WithRow(c), c.w)
      && R.BuildListFilter(Some(s), c.ctx, c.fields, c.w) == R.ResolveLeaf(s, c.ctx, c.fields, c.w)
  {
    var s := Printed(field, op, token);
    PrintedIsOneLeaf(field, op, token);
    LeafIsEvaluated(s, WithRow(c), c.w);
    LeafIsResolved(s, c.ctx, c.fields, c.w);
  }

  /** The evaluator cuts `field !~ token` at the tilde. */
  lemma CutAtTilde(field: string, token: string)
    requires P.IsIdentifier(field) && token != "" && Trimmed(token)
    ensures var s := Printed(field, "!~", token);
      R.LeftOf(s, ("~", |field| + 2)) == field + " !" && R.RightOf(s, ("~", |field| + 2)) == token
  {
    var s, left := Printed(field, "!~", token), field + " !";
    IdentifierIsBare(field);
    assert s == left + ("~ " + token);
    assert s[..|field| + 2] == left && s[|field| + 3..] == " " + token;
    TrimPadded(left);
    TrimPadded(token);
  }

  /** The compiler cuts a pattern comparison at its operator. */
  lemma CutAtOperator(field: string, op: string, token: string)
    requires Trimmed(field) && field != "" && token != "" && Trimmed(token)
    ensures var s, f := Printed(field, op, token), (op, |field| + 1);
      R.Fits(s, Some(f)) && R.LeftOf(s, f) == field && R.RightOf(s, f) == token
  {
    PrintedSides(field, op, token);
  }

  lemma PatternOperands(field: string, op: string, token: string)
    requires P.IsIdentifier(field) && token != "" && Trimmed(token) && (op == "~" || op == "!~")
    ensures var s := Printed(field, op, token);
      && R.LeftOf(s, (op, |field| + 1)) == field && R.RightOf(s, (op, |field| + 1)) == token
      && R.LeftOf(s, ("~", |field| + |op|)) == (if op == "~" then field else field + " !")
      && R.RightOf(s, ("~", |field| + |op|)) == token
  {
    IdentifierIsBare(field);
    CutAtOperator(field, op, token);
    if op == "!~" {
      CutAtTilde(field, token);
    }
  }

  lemma ResolvedAtOperator(s: string, found: Option<(string, nat)>, ctx: R.Context, fields: set<string>, w: World)
    requires R.Fits(s, found) && FirstOperator(s, R.LIST_OPERATORS, false) == found
    ensures R.ResolveLeaf(s, ctx, fields, w)
         == R.ResolveAt(s, found, R.EvaluateComparison(s, ctx, w), ctx, fields, w)
  {
  }

  lemma EvaluatedAtOperator(s: string, found: Option<(string, nat)>, ctx: R.Context, w: World)
    requires R.Fits(s, found) && FirstOperator(s, R.EVAL_OPERATORS, false) == found
    ensures R.EvaluateComparison(s, ctx, w) == R.EvaluateAt(s, found, ctx, w)
  {
  }

  /** A row-level leaf, given its operator and operands. */
  lemma LeafFilter(s: string, f: (string, nat), evaluated: bool, ctx: R.Context, fields: set<string>, w: World)
    requires R.Fits(s, Some(f)) && R.LeftOf(s, f) in fields
    ensures R.ResolveAt(s, Some(f), evaluated, ctx, fields, w)
         == R.Access(true, Some(R.SubstituteVariables(R.LeftOf(s, f), ctx) + " " + R.Normalized(f.0) + " "
                                + R.SubstituteVariables(R.RightOf(s, f), ctx)))
  {
  }

  /** What a pattern comparison is compiled into: itself, with the token substituted. */
  lemma PatternIsPrinted(field: string, op: string, token: string, c: Case)
    requires ListRequest(c) && P.IsIdentifier(field) && field in c.fields && PlainName(field, c)
    requires Token(token) && (op == "~" || op == "!~")
    ensures R.BuildListFilter(Some(Printed(field, op, token)), c.ctx, c.fields, c.w)
         == R.Access(true, Some(Printed(field, op, R.SubstituteVariables(token, c.ctx))))
  {
    var s := Printed(field, op, token);
    IdentifierIsBare(field);
    OneLeafRule(field, op, token, c);
    PatternOperatorIsFound(field, op, token);
    TokenIsOpaque(token);
    PatternOperands(field, op, token);
    ColumnResolves(field, c);
    var f := (op, |field| + 1);
    ResolvedAtOperator(s, Some(f), c.ctx, c.fields, c.w);
    LeafFilter(s, f, R.EvaluateComparison(s, c.ctx, c.w), c.ctx, c.fields, c.w);
  }

  /** What listing does with a pattern comparison: the filter is the pattern test of the column. */
  lemma PatternFilter(field: string, op: string, token: string, c: Case)
    requires ListRequest(c) && P.IsIdentifier(field) && field in c.fields && PlainName(field, c)
    requires IsOperand(token, c) && Token(token) && (op == "~" || op == "!~")
    ensures var a := R.BuildListFilter(Some(Printed(field, op, token)), c.ctx, c.fields, c.w);
      && a.allowed && a.filter.Some?
      && (Admits(a.filter.value, c) <==> P.Holds(P.Comparison(field, op, Bound(token, c), c.w), c.row, c.w))
  {
    IdentifierIsBare(field);
    PatternIsPrinted(field, op, token, c);
    OperandIsPushed(token, c);
    PrintedLeaf(field, op, R.SubstituteVariables(token, c.ctx), Some(c.fields), c.w);
  }

  /** What the evaluator makes of it: a substring test of whatever stands before the tilde. */
  lemma PatternIsEvaluated(field: string, op: string, token: string, c: Case)
    requires ListRequest(c) && P.IsIdentifier(field) && Token(token)
    requires op == "~" || op == "!~"
    ensures R.Evaluate(Some(Printed(field, op, token)), WithRow(c), c.w)
       <==> R.CompareValues("~", R.ResolveValue(if op == "~" then field else field + " !", WithRow(c), c.w),
                            R.ResolveValue(token, WithRow(c), c.w), c.w)
  {
    var s := Printed(field, op, token);
    IdentifierIsBare(field);
    OneLeafRule(field, op, token, c);
    PatternOperatorIsFound(field, op, token);
    TokenIsOpaque(token);
    PatternOperands(field, op, token);
    EvaluatedAtOperator(s, Some(("~", |field| + |op|)), WithRow(c), c.w);
  }

  /**
   * The rule `field ~ token`, from its text on: it holds for a row exactly when listing admits the row, if and only if
   * the column is stored or the text looked for is not empty.
   */
  lemma LikeRuleAgreesIff(field: string, token: string, c: Case)
    requires ListRequest(c) && P.IsIdentifier(field) && field in c.fields && PlainName(field, c)
    requires IsOperand(token, c) && Token(token)
    requires StringOf(Bound(token, c), c.w) == TextOf(R.ResolveValue(token, WithRow(c), c.w), c.w)
    ensures var rule := Printed(field, "~", token);
      var a := R.BuildListFilter(Some(rule), c.ctx, c.fields, c.w);
      && a.allowed && a.filter.Some?
      && ((R.Evaluate(Some(rule), WithRow(c), c.w) <==> Admits(a.filter.value, c))
          <==> Stored(Column(c.row, field)) || TextOf(R.ResolveValue(token, WithRow(c), c.w), c.w) != "")
  {
    PatternFilter(field, "~", token, c);
    PatternIsEvaluated(field, "~", token, c);
    ColumnResolves(field, c);
    LikeAgreesIff(field, R.ResolveValue(token, WithRow(c), c.w), Bound(token, c), c);
  }

  /** A reference into the request that finds nothing, and a row without the column. */
  lemma NullColumnIsNotListed(field: string, ref: string, c: Case)
    requires ListRequest(c) && P.IsIdentifier(field) && field in c.fields && PlainName(field, c)
    requires IsReference(ref) && IsOperand(ref, c) && Token(ref) && Referenced(ref, c.ctx) == Undefined
    requires c.w.text(Str("")) == "" && Column(c.row, field) == Null
    ensures var rule := Printed(field, "~", ref);
      var a := R.BuildListFilter(Some(rule), c.ctx, c.fields, c.w);
      && a.allowed && a.filter.Some?
      && R.Evaluate(Some(rule), WithRow(c), c.w) && !Admits(a.filter.value, c)
  {
    ReferenceResolves(ref, c);
    assert Bound(ref, c) == Str("");
    LikeRuleAgreesIff(field, ref, c);
    PatternFilter(field, "~", ref, c);
  }

  const SEARCH := "@request.query.q"

  lemma SearchIsReference(ctx: R.Context)
    ensures IsReference(SEARCH) && Token(SEARCH) && Trimmed(SEARCH)
    ensures ctx.query == Some(map[]) ==> Referenced(SEARCH, ctx) == Undefined
  {
    assert SEARCH[|R.QUERY|..] == "q" && SEARCH[9] != R.AUTH[9];
    assert Bare(SEARCH);
  }

  /** The rule holds for the row, and listing leaves the row out. */
  predicate HoldsUnlisted(rule: string, c: Case) {
    var a := R.BuildListFilter(Some(rule), c.ctx, c.fields, c.w);
    R.Evaluate(Some(rule), WithRow(c), c.w) && a.allowed && a.filter.Some? && !Admits(a.filter.value, c)
  }

  lemma SearchRuleText()
    ensures Printed("title", "~", SEARCH) == "title ~ @request.query.q" && P.IsIdentifier("title")
  {
  }

  lemma NullTitleMisses(title: string, c: Case)
    requires ListRequest(c) && c.ctx.query == Some(map[]) && title in c.fields && PlainName(title, c)
    requires P.IsIdentifier(title)
    requires c.w.number(SEARCH).None? && c.w.text(Str("")) == "" && Column(c.row, title) == Null
    ensures HoldsUnlisted(Printed(title, "~", SEARCH), c)
  {
    SearchIsReference(c.ctx);
    NullColumnIsNotListed(title, SEARCH, c);
  }

  /** Such an input: no search text in the query, and a row whose title is null. */
  lemma NullTitleIsNotListed(c: Case)
    requires ListRequest(c) && c.ctx.query == Some(map[]) && "title" in c.fields && PlainName("title", c)
    requires c.w.number(SEARCH).None? && c.w.text(Str("")) == "" && Column(c.row, "title") == Null
    ensures HoldsUnlisted("title ~ @request.query.q", c)
  {
    SearchRuleText();
    NullTitleMisses("title", c);
  }

  /**
   * The rule `field !~ token`: listing takes it as the negated pattern test, while the evaluator, which has no such
   * operator, reads `field !` as the left side of `~` and so asks only whether the text looked for is empty.
   */
  lemma NotLikeIsReadTwice(field: string, token: string, c: Case)
    requires ListRequest(c) && P.IsIdentifier(field) && field in c.fields && PlainName(field, c)
    requires IsOperand(token, c) && Token(token)
    requires c.w.number(field + " !").None? && field + " !" !in c.row
    ensures var rule := Printed(field, "!~", token);
      var a := R.BuildListFilter(Some(rule), c.ctx, c.fields, c.w);
      && a.allowed && a.filter.Some?
      && (R.Evaluate(Some(rule), WithRow(c), c.w) <==> TextOf(R.ResolveValue(token, WithRow(c), c.w), c.w) == "")
      && (Admits(a.filter.value, c) <==>
            Stored(Column(c.row, field))
              && !LikePattern.Occurs(StringOf(Bound(token, c), c.w), c.w.text(Column(c.row, field)), c.w.fold))
  {
    PatternFilter(field, "!~", token, c);
    PatternIsEvaluated(field, "!~", token, c);
    LikePattern.ContainsExactly(StringOf(Bound(token, c), c.w), c.w.text(Column(c.row, field)), c.w.fold);
    NothingBeforeTilde(field, c);
    var needle := TextOf(R.ResolveValue(token, WithRow(c), c.w), c.w);
    if needle == "" {
      assert LikePattern.PrefixFolded(needle, ""[0..], c.w.fold);
    }
  }

  lemma NothingBeforeTilde(field: string, c: Case)
    requires ListRequest(c) && P.IsIdentifier(field)
    requires c.w.number(field + " !").None? && field + " !" !in c.row
    ensures R.ResolveValue(field + " !", WithRow(c), c.w) == Undefined
  {
    var left := field + " !";
    IdentifierIsBare(field);
    TrimPadded(left);
    assert left[0] == field[0] && LowerAscii(left)[|field|] == ' ';
  }
}
