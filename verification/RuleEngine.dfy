/** Access rules: evaluation, and partial evaluation into a list filter (src/rules/RuleEngine.ts). */
module RuleEngine {
  import opened Strings
  import opened Values
  import opened Scanner
  import FilterCodec
  import LikePattern

  /** The request context; `auth` and `query` map property names to values, a missing property is undefined. */
  datatype Context = Context(isAdmin: bool, auth: Option<Row>, query: Option<Row>, data: Option<Row>,
        record: Option<Row>)

  const AUTH := "@request.auth."
  const DATA := "@request.data."
  const QUERY := "@request.query."

  function Property(o: Option<Row>, name: string): Value {
    if o.Some? then Column(o.value, name) else Undefined
  }

  function ResolveValue(token: string, ctx: Context, w: World): Value {
    var t := Trim(token);
    if FilterCodec.Quoted(t) then Str(FilterCodec.Decode(t))
    else if w.number(t).Some? && t != "" then Num(w.number(t).value)
    else if LowerAscii(t) == "true" then Bool(true)
    else if LowerAscii(t) == "false" then Bool(false)
    else if LowerAscii(t) == "null" then Null
    else if StartsWith(t, AUTH) then Property(ctx.auth, t[|AUTH|..])
    else if StartsWith(t, DATA) then Property(ctx.data, t[|DATA|..])
    else if StartsWith(t, QUERY) then Property(ctx.query, t[|QUERY|..])
    else if ctx.record.Some? && t in ctx.record.value then ctx.record.value[t]
    else if ctx.data.Some? && t in ctx.data.value then ctx.data.value[t]
    else Undefined
  }

  // ---------------------------------------------------------------- evaluation against a record

  const EVAL_OPERATORS: seq<string> := ["!=", "==", ">=", "<=", "=", ">", "<", "~"]

  function Normalized(op: string): string {
    if op == "==" then "=" else op
  }

  predicate CompareValues(op: string, left: Value, right: Value, w: World) {
    if op == "~" then LikePattern.Occurs(TextOf(right, w), TextOf(left, w), w.fold)
    else w.jsCompare(Normalized(op), left, right)
  }

  /** An operator and its position, as the scanners find it. */
  predicate Fits(s: string, found: Option<(string, nat)>) {
    found.Some? ==> found.value.1 + |found.value.0| <= |s|
  }

  function LeftOf(s: string, found: (string, nat)): string
    requires Fits(s, Some(found))
  {
    Trim(s[..found.1])
  }

  function RightOf(s: string, found: (string, nat)): string
    requires Fits(s, Some(found))
  {
    Trim(s[found.1 + |found.0|..])
  }

  lemma {:induction false} FirstOperatorFits(s: string, ops: seq<string>)
    requires "" !in ops
    ensures Fits(s, FirstOperator(s, ops, false))
  {
    if FirstOperator(s, ops, false).Some? {
      var (op, i) := FirstOperator(s, ops, false).value;
      FoundFits(START, s, op, None, false);
    }
  }

  predicate EvaluateAt(s: string, found: Option<(string, nat)>, ctx: Context, w: World)
    requires Fits(s, found)
  {
    match found
    case Some(f) =>
      CompareValues(f.0, ResolveValue(LeftOf(s, f), ctx, w), ResolveValue(RightOf(s, f), ctx, w), w)
    case None => w.truthy(ResolveValue(s, ctx, w))
  }

  predicate EvaluateComparison(s: string, ctx: Context, w: World) {
    FirstOperatorFits(s, EVAL_OPERATORS);
    EvaluateAt(s, FirstOperator(s, EVAL_OPERATORS, false), ctx, w)
  }

  predicate Wrapped(t: string) {
    |t| >= 2 && t[0] == '(' && t[|t| - 1] == ')'
  }

  predicate EvaluateExpression(expr: string, ctx: Context, w: World)
    decreases |expr|, 1, 0
  {
    PartsAreShorter(expr, "||");
    PartsAreShorter(expr, "&&");
    var ors := SplitTopLevelSpec(expr, "||");
    if |ors| > 1 then EvaluateSome(ors, |expr|, ctx, w)
    else
      var ands := SplitTopLevelSpec(expr, "&&");
      if |ands| > 1 then EvaluateEvery(ands, |expr|, ctx, w)
      else
        var t := Trim(expr);
        if Wrapped(t) && EnclosedIgnoringQuotes(0, t) then EvaluateExpression(Trim(t[1..|t| - 1]), ctx, w)
        else EvaluateComparison(t, ctx, w)
  }

  predicate EvaluateSome(parts: seq<string>, bound: nat, ctx: Context, w: World)
    requires forall i :: 0 <= i < |parts| ==> |parts[i]| < bound
    decreases bound, 0, |parts|
  {
    parts != [] && (EvaluateExpression(Trim(parts[0]), ctx, w) || EvaluateSome(parts[1..], bound, ctx, w))
  }

  predicate EvaluateEvery(parts: seq<string>, bound: nat, ctx: Context, w: World)
    requires forall i :: 0 <= i < |parts| ==> |parts[i]| < bound
    decreases bound, 0, |parts|
  {
    parts == [] || (EvaluateExpression(Trim(parts[0]), ctx, w) && EvaluateEvery(parts[1..], bound, ctx, w))
  }

  /** `None` stands for a null or undefined rule. */
  predicate Evaluate(rule: Option<string>, ctx: Context, w: World) {
    ctx.isAdmin || (rule.Some? && (Trim(rule.value) == "" || EvaluateExpression(Trim(rule.value), ctx, w)))
  }

  // ---------------------------------------------------------------- partial evaluation into a filter

  datatype Access = Access(allowed: bool, filter: Option<string>)

  const DENIED := Access(false, None)
  const UNRESTRICTED := Access(true, None)

  const LIST_OPERATORS: seq<string> := ["!=", "==", ">=", "<=", "=", ">", "<", "!~", "~"]

  function Printed(v: Value): string {
    match v
    case Undefined => "''"
    case Null => "''"
    case Num(t) => t
    case Bool(b) => if b then "true" else "false"
    case Str(s) => FilterCodec.Encode(s)
  }

  function SubstituteVariables(token: string, ctx: Context): string {
    var t := Trim(token);
    if StartsWith(t, AUTH) then Printed(Property(ctx.auth, t[|AUTH|..]))
    else if StartsWith(t, QUERY) then Printed(Property(ctx.query, t[|QUERY|..]))
    else t
  }

  /** `evaluated` is the verdict of the comparison without a row. */
  function ResolveAt(t: string, found: Option<(string, nat)>, evaluated: bool, ctx: Context, fields: set<string>,
      w: World): Access
    requires Fits(t, found)
  {
    match found
    case Some(f) =>
      var left, right := LeftOf(t, f), RightOf(t, f);
      if left in fields || right in fields then
        Access(true,
          Some(SubstituteVariables(left, ctx) + " " + Normalized(f.0) + " " + SubstituteVariables(right, ctx)))
      else Access(evaluated, None)
    case None =>
      if t in fields then Access(true, Some(t + " = true"))
      else Access(w.truthy(ResolveValue(t, ctx, w)), None)
  }

  function ResolveLeaf(t: string, ctx: Context, fields: set<string>, w: World): Access {
    FirstOperatorFits(t, LIST_OPERATORS);
    ResolveAt(t, FirstOperator(t, LIST_OPERATORS, false), EvaluateComparison(t, ctx, w), ctx, fields, w)
  }

  predicate Unconditional(a: Access) {
    a.allowed && (a.filter.None? || a.filter.value == "")
  }

  function RowFilters(results: seq<Access>): seq<string> {
    if results == [] then []
    else (if results[0].allowed && !Unconditional(results[0]) then [results[0].filter.value] else [])
         + RowFilters(results[1..])
  }

  function AnyAccess(results: seq<Access>): Access {
    if exists i :: 0 <= i < |results| && Unconditional(results[i]) then UNRESTRICTED
    else FromFilters(RowFilters(results))
  }

  function FromFilters(filters: seq<string>): Access {
    if filters == [] then DENIED
    else Access(true, Some(if |filters| > 1 then "(" + Join(filters, " || ") + ")" else filters[0]))
  }

  function EveryAccess(results: seq<Access>): Access {
    var filters := RowFilters(results);
    if exists i :: 0 <= i < |results| && !results[i].allowed then DENIED
    else Access(true, if filters == [] then None else Some(Join(filters, " && ")))
  }

  function ResolveListExpression(expr: string, ctx: Context, fields: set<string>, w: World): Access
    decreases |expr|, 1, 0
  {
    PartsAreShorter(expr, "||");
    PartsAreShorter(expr, "&&");
    var ors := SplitTopLevelSpec(expr, "||");
    if |ors| > 1 then AnyAccess(ResolveParts(ors, |expr|, ctx, fields, w))
    else
      var ands := SplitTopLevelSpec(expr, "&&");
      if |ands| > 1 then EveryAccess(ResolveParts(ands, |expr|, ctx, fields, w))
      else
        var t := Trim(expr);
        if Wrapped(t) && EnclosedIgnoringQuotes(0, t) then
          var inner := ResolveListExpression(Trim(t[1..|t| - 1]), ctx, fields, w);
          if !inner.allowed then DENIED
          else if Unconditional(inner) then UNRESTRICTED
          else Access(true, Some("(" + inner.filter.value + ")"))
        else ResolveLeaf(t, ctx, fields, w)
  }

  function ResolveParts(parts: seq<string>, bound: nat, ctx: Context, fields: set<string>, w: World): (r: seq<Access>)
    requires forall i :: 0 <= i < |parts| ==> |parts[i]| < bound
    ensures |r| == |parts|
    decreases bound, 0, |parts|
  {
    if parts == [] then []
    else [ResolveListExpression(Trim(parts[0]), ctx, fields, w)] + ResolveParts(parts[1..], bound, ctx, fields, w)
  }

  function BuildListFilter(rule: Option<string>, ctx: Context, fields: set<string>, w: World): Access {
    if ctx.isAdmin then UNRESTRICTED
    else if rule.None? then DENIED
    else if Trim(rule.value) == "" then UNRESTRICTED
    else ResolveListExpression(Trim(rule.value), ctx, fields, w)
  }

  // ---------------------------------------------------------------- partial evaluation as the code runs it

  /** The results of all branches, one by one. */
  lemma {:induction false} ResolvedOneByOne(parts: seq<string>, bound: nat, ctx: Context, fields: set<string>, w: World)
    requires forall j :: 0 <= j < |parts| ==> |parts[j]| < bound
    ensures OneByOne(parts, ResolveParts(parts, bound, ctx, fields, w), ctx, fields, w)
  {
    if parts != [] {
      ResolvedOneByOne(parts[1..], bound, ctx, fields, w);
      var rest := ResolveParts(parts[1..], bound, ctx, fields, w);
      forall i | 0 <= i < |parts|
        ensures IsResult(ResolveParts(parts, bound, ctx, fields, w)[i], parts[i], ctx, fields, w)
      {
        assert i > 0 ==> IsResult(rest[i - 1], parts[1..][i - 1], ctx, fields, w);
      }
    }
  }

  predicate IsResult(a: Access, part: string, ctx: Context, fields: set<string>, w: World) {
    a == ResolveListExpression(Trim(part), ctx, fields, w)
  }

  predicate OneByOne(parts: seq<string>, results: seq<Access>, ctx: Context, fields: set<string>, w: World) {
    && |parts| == |results|
    && forall i {:trigger IsResult(results[i], parts[i], ctx, fields, w)} ::
         0 <= i < |parts| ==> IsResult(results[i], parts[i], ctx, fields, w)
  }

  method ListPart(parts: seq<string>, k: nat, ghost bound: nat, ghost results: seq<Access>, ctx: Context,
                  fields: set<string>, w: World)
    returns (a: Access)
    requires k < |parts| && |parts[k]| < bound && OneByOne(parts, results, ctx, fields, w)
    ensures a == results[k]
    decreases bound, 0
  {
    a := ListExpression(Trim(parts[k]), ctx, fields, w);
    assert IsResult(results[k], parts[k], ctx, fields, w);
  }

  lemma RowFiltersStep(results: seq<Access>, k: nat, done: seq<string>)
    requires k < |results| && RowFilters(results) == done + RowFilters(results[k..])
    ensures RowFilters(results)
         == done + (if results[k].allowed && !Unconditional(results[k]) then [results[k].filter.value] else [])
            + RowFilters(results[k + 1..])
  {
    assert results[k..][0] == results[k] && results[k..][1..] == results[k + 1..];
  }

  method ListExpression(expr: string, ctx: Context, fields: set<string>, w: World) returns (a: Access)
    ensures a == ResolveListExpression(expr, ctx, fields, w)
    decreases |expr|, 2
  {
    PartsAreShorter(expr, "||");
    PartsAreShorter(expr, "&&");
    var ors := SplitTopLevel(expr, "||");
    if |ors| > 1 {
      ResolvedOneByOne(ors, |expr|, ctx, fields, w);
      a := ListAny(ors, |expr|, ResolveParts(ors, |expr|, ctx, fields, w), ctx, fields, w);
      return;
    }
    var ands := SplitTopLevel(expr, "&&");
    if |ands| > 1 {
      ResolvedOneByOne(ands, |expr|, ctx, fields, w);
      a := ListEvery(ands, |expr|, ResolveParts(ands, |expr|, ctx, fields, w), ctx, fields, w);
      return;
    }
    var t := Trim(expr);
    if Wrapped(t) {
      var enclosed := IsFullyEnclosedIgnoringQuotes(t);
      if enclosed {
        var inner := ListExpression(Trim(t[1..|t| - 1]), ctx, fields, w);
        if !inner.allowed {
          return DENIED;
        }
        return if Unconditional(inner) then UNRESTRICTED else Access(true, Some("(" + inner.filter.value + ")"));
      }
    }
    var found := FindFirstOperator(t, LIST_OPERATORS, false);
    FirstOperatorFits(t, LIST_OPERATORS);
    return ResolveAt(t, found, EvaluateComparison(t, ctx, w), ctx, fields, w);
  }

  /** The loop over the branches of `||`: an unconditional branch ends it. */
  method ListAny(parts: seq<string>, ghost bound: nat, ghost results: seq<Access>, ctx: Context, fields: set<string>,
      w: World)
    returns (a: Access)
    requires forall i :: 0 <= i < |parts| ==> |parts[i]| < bound
    requires OneByOne(parts, results, ctx, fields, w)
    ensures a == AnyAccess(results)
    decreases bound, 1
  {
    var rowFilters: seq<string>, k := [], 0;
    while k < |parts|
      invariant 0 <= k <= |parts|
      invariant forall i :: 0 <= i < k ==> !Unconditional(results[i])
      invariant RowFilters(results) == rowFilters + RowFilters(results[k..])
    {
      var res := ListPart(parts, k, bound, results, ctx, fields, w);
      RowFiltersStep(results, k, rowFilters);
      if Unconditional(res) {
        return UNRESTRICTED;
      }
      if res.allowed {
        rowFilters := rowFilters + [res.filter.value];
      }
      k := k + 1;
    }
    assert results[k..] == [] && RowFilters(results) == rowFilters;
    a := FromFilters(rowFilters);
  }

  /** The loop over the operands of `&&`: a denied operand ends it. */
  method ListEvery(parts: seq<string>, ghost bound: nat, ghost results: seq<Access>, ctx: Context, fields: set<string>,
      w: World)
    returns (a: Access)
    requires forall i :: 0 <= i < |parts| ==> |parts[i]| < bound
    requires OneByOne(parts, results, ctx, fields, w)
    ensures a == EveryAccess(results)
    decreases bound, 1
  {
    var rowFilters: seq<string>, k := [], 0;
    while k < |parts|
      invariant 0 <= k <= |parts|
      invariant forall i :: 0 <= i < k ==> results[i].allowed
      invariant RowFilters(results) == rowFilters + RowFilters(results[k..])
    {
      var res := ListPart(parts, k, bound, results, ctx, fields, w);
      RowFiltersStep(results, k, rowFilters);
      if !res.allowed {
        return DENIED;
      }
      if !Unconditional(res) {
        rowFilters := rowFilters + [res.filter.value];
      }
      k := k + 1;
    }
    assert results[k..] == [] && RowFilters(results) == rowFilters;
    return Access(true, if |rowFilters| > 0 then Some(Join(rowFilters, " && ")) else None);
  }
}
