/**
 * The filter of the caller beside the filter of the rule: the list request pastes both into one text, each in
 * parentheses, without looking at the parentheses of either (src/records/RecordService.ts).
 */
module UserFilter {
  import opened Strings
  import opened Values
  import opened Scanner
  import opened BalancedText
  import opened FilterTokens
  import opened ListFilter
  import FilterCodec
  import LikePattern
  import P = QueryFilterParser
  import R = RuleEngine

  // ---------------------------------------------------------------- clauses of many parts

  predicate AllHold(sqls: seq<P.Sql>, c: Case) {
    forall i :: 0 <= i < |sqls| ==> P.Holds(sqls[i], c.row, c.w)
  }

  predicate SomeHolds(sqls: seq<P.Sql>, c: Case) {
    exists i :: 0 <= i < |sqls| && P.Holds(sqls[i], c.row, c.w)
  }

  /** Every piece admits the row; one that turns into no clause admits every row. */
  predicate EachAdmits(pieces: seq<string>, c: Case) {
    pieces == [] || (Admits(Trim(pieces[0]), c) && EachAdmits(pieces[1..], c))
  }

  /** Some piece turns into a clause that admits the row. */
  predicate SomeListed(pieces: seq<string>, c: Case) {
    pieces != [] && ((Converts(Trim(pieces[0]), c) && Admits(Trim(pieces[0]), c)) || SomeListed(pieces[1..], c))
  }

  predicate SomeConverts(pieces: seq<string>, c: Case) {
    pieces != [] && (Converts(Trim(pieces[0]), c) || SomeConverts(pieces[1..], c))
  }

  lemma HoldCons(sql: P.Sql, sqls: seq<P.Sql>, c: Case)
    ensures AllHold([sql] + sqls, c) <==> P.Holds(sql, c.row, c.w) && AllHold(sqls, c)
    ensures SomeHolds([sql] + sqls, c) <==> P.Holds(sql, c.row, c.w) || SomeHolds(sqls, c)
  {
    var all := [sql] + sqls;
    assert all[0] == sql && forall i :: 0 <= i < |sqls| ==> all[i + 1] == sqls[i];
    if AllHold(all, c) {
      forall i | 0 <= i < |sqls| ensures P.Holds(sqls[i], c.row, c.w) { assert P.Holds(all[i + 1], c.row, c.w); }
    }
    if i :| 0 <= i < |sqls| && P.Holds(sqls[i], c.row, c.w) {
      assert P.Holds(all[i + 1], c.row, c.w);
    }
  }

  lemma {:induction false} PartsMean(pieces: seq<string>, bound: nat, c: Case)
    requires forall i :: 0 <= i < |pieces| ==> |pieces[i]| < bound
    ensures var sqls := P.ConvertParts(pieces, bound, Some(c.fields), c.w);
      && (AllHold(sqls, c) <==> EachAdmits(pieces, c))
      && (SomeHolds(sqls, c) <==> SomeListed(pieces, c))
      && (sqls != [] <==> SomeConverts(pieces, c))
    decreases |pieces|
  {
    if pieces != [] {
      PartsMean(pieces[1..], bound, c);
      var rest := P.ConvertParts(pieces[1..], bound, Some(c.fields), c.w);
      var first := P.Convert(Trim(pieces[0]), Some(c.fields), c.w);
      if first.Some? {
        HoldCons(first.value, rest, c);
      } else {
        assert [] + rest == rest;
      }
    }
  }

  /** Text that splits at `||` is the OR of the pieces that turn into clauses, or restricts nothing if none does. */
  lemma DisjunctsMean(t: string, c: Case)
    requires |SplitTopLevelSpec(t, "||")| > 1
    ensures var ors := SplitTopLevelSpec(t, "||"); Admits(t, c) <==> SomeListed(ors, c) || !SomeConverts(ors, c)
  {
    PartsAreShorter(t, "||");
    PartsMean(SplitTopLevelSpec(t, "||"), |t|, c);
  }

  lemma ConjunctsMean(t: string, c: Case)
    requires |SplitTopLevelSpec(t, "||")| <= 1 && |SplitTopLevelSpec(t, "&&")| > 1
    ensures var ands := SplitTopLevelSpec(t, "&&");
      && (Admits(t, c) <==> EachAdmits(ands, c)) && (Converts(t, c) <==> SomeConverts(ands, c))
  {
    PartsAreShorter(t, "&&");
    PartsMean(SplitTopLevelSpec(t, "&&"), |t|, c);
  }

  // ---------------------------------------------------------------- how the joined text splits

  /** RecordService.getList: the rule's filter and the caller's, each in parentheses. */
  function WithUserFilter(ruleFilter: string, userFilter: string): string {
    "(" + ruleFilter + ") && (" + userFilter + ")"
  }

  /** Where the scanners stand when they come to the user's text. */
  const INSIDE := START.(depth := 1)

  function Head(ruleFilter: string): string {
    Parens(ruleFilter) + " && ("
  }

  lemma HeadScan(f: string)
    requires Balanced(f)
    ensures Run(START, Head(f)) == INSIDE && NoTop(START, Head(f), "||")
  {
    ParensMakeUnit(f);
    SpacedIsBalanced("&&");
    assert Spaced("&&") == " && ";
    var a := Parens(f) + " && ";
    BalancedConcat(Parens(f), " && ");
    NoTopConcat(START, Parens(f), " && ", "||");
    assert Head(f) == a + "(";
    RunConcat(START, a, "(");
    RunChar(START, '(');
    assert NoTop(START, "(", "||") by { assert "("[1..] == ""; }
    NoTopConcat(START, a, "(", "||");
  }

  /** Splitting passes over text without the separator and goes on behind it. */
  lemma {:induction false} SplitPassesOver(st: Scan, a: string, rest: string, d: string, current: string)
    requires Separator(d) && NoTop(st, a, d) && (a != "" ==> a[|a| - 1] != d[0])
    ensures Split(st, a + rest, d, current) == Split(Run(st, a), rest, d, current + a)
    decreases |a|
  {
    if a == "" {
      assert a + rest == rest && current + a == current;
    } else {
      HitStaysLeft(st, a, rest, d);
      assert (a + rest)[1..] == a[1..] + rest && current + [a[0]] + a[1..] == current + a;
      SplitPassesOver(Next(st, a[0]), a[1..], rest, d, current + [a[0]]);
    }
  }

  /** What was read before belongs to the first piece. */
  lemma {:induction false} SplitCarries(st: Scan, s: string, d: string, x: string, y: string)
    requires Separator(d) && (s != "" || y != "")
    ensures var r := Split(st, s, d, y); r != [] && Split(st, s, d, x + y) == [x + r[0]] + r[1..]
    decreases |s|
  {
    if s == "" {
      assert [y][1..] == [];
    } else if Hit(st, s, d) {
      var rest := Split(Run(st, d), s[2..], d, "");
      assert ([y] + rest)[1..] == rest;
    } else {
      assert x + y + [s[0]] == x + (y + [s[0]]);
      SplitCarries(Next(st, s[0]), s[1..], d, x, y + [s[0]]);
    }
  }

  /** The pieces into which `||` cuts the user's text and the parenthesis behind it. */
  function UserPieces(userFilter: string): seq<string> {
    Split(INSIDE, userFilter + ")", "||", "")
  }

  lemma JoinedPieces(f: string, u: string)
    requires Balanced(f)
    ensures UserPieces(u) != []
    ensures SplitTopLevelSpec(WithUserFilter(f, u), "||") == [Head(f) + UserPieces(u)[0]] + UserPieces(u)[1..]
  {
    HeadScan(f);
    assert WithUserFilter(f, u) == Head(f) + (u + ")");
    SplitPassesOver(START, Head(f), u + ")", "||", "");
    assert "" + Head(f) == Head(f) == Head(f) + "";
    SplitCarries(INSIDE, u + ")", "||", Head(f), "");
  }

  /** The text before the first separator. */
  function FirstPiece(st: Scan, s: string, d: string): (r: string)
    ensures r <= s
    decreases |s|
  {
    if s == "" || Hit(st, s, d) then "" else [s[0]] + FirstPiece(Next(st, s[0]), s[1..], d)
  }

  lemma {:induction false} FirstPieceIsFirst(st: Scan, s: string, d: string, current: string)
    requires Separator(d) && (s != "" || current != "")
    ensures Split(st, s, d, current) != [] && Split(st, s, d, current)[0] == current + FirstPiece(st, s, d)
    decreases |s|
  {
    if s == "" || Hit(st, s, d) {
      assert current + "" == current;
    } else {
      FirstPieceIsFirst(Next(st, s[0]), s[1..], d, current + [s[0]]);
      var rest := FirstPiece(Next(st, s[0]), s[1..], d);
      assert current + [s[0]] + rest == current + ([s[0]] + rest);
    }
  }

  lemma {:induction false} FirstPieceIsFree(st: Scan, s: string, d: string)
    requires d != ""
    ensures NoTop(st, FirstPiece(st, s, d), d)
    decreases |s|
  {
    var q := FirstPiece(st, s, d);
    if q != "" {
      FirstPieceIsFree(Next(st, s[0]), s[1..], d);
      assert q[1..] == FirstPiece(Next(st, s[0]), s[1..], d);
      assert d <= q ==> d <= s;
    }
  }

  lemma {:induction false} NoTopPrefix(st: Scan, a: string, b: string, d: string)
    requires d != "" && NoTop(st, a + b, d)
    ensures NoTop(st, a, d)
    decreases |a|
  {
    if a != "" {
      assert (a + b)[1..] == a[1..] + b && (a + b)[0] == a[0];
      assert d <= a ==> d <= a + b;
      NoTopPrefix(Next(st, a[0]), a[1..], b, d);
    }
  }

  lemma {:induction false} OnePieceIsFree(st: Scan, s: string, d: string, current: string)
    requires Separator(d) && s != "" && s[|s| - 1] != d[1] && |Split(st, s, d, current)| <= 1
    ensures NoTop(st, s, d)
    decreases |s|
  {
    if Hit(st, s, d) {
      assert s[2..] != "" by { assert s[1] == d[1]; }
      SplitCarries(Run(st, d), s[2..], d, "", "");
    } else if |s| > 1 {
      OnePieceIsFree(Next(st, s[0]), s[1..], d, current + [s[0]]);
    }
  }

  /** Without a separator at its own level the user's text stays in one piece. */
  lemma FreeIsOnePiece(u: string)
    requires NoTop(INSIDE, u, "||")
    ensures UserPieces(u) == [u + ")"] && NoTop(INSIDE, u + ")", "||")
  {
    assert NoTop(Run(INSIDE, u), ")", "||") by { assert ")"[1..] == ""; }
    NoTopConcat(INSIDE, u, ")", "||");
    SplitWithoutSeparator(INSIDE, u + ")", "||", "");
    assert "" + (u + ")") == u + ")";
  }

  // ---------------------------------------------------------------- what the joined text means

  /** The conjuncts that the user's text opens, from the parenthesis before it on. */
  function UserConjuncts(text: string): seq<string> {
    SplitTopLevelSpec(" (" + text, "&&")
  }

  /** Parentheses around any balanced text change nothing. */
  lemma ParensAdmit(text: string, c: Case)
    requires Balanced(text)
    ensures Admits(Parens(text), c) <==> Admits(Trim(text), c)
    ensures Converts(Parens(text), c) <==> Converts(Trim(text), c)
  {
    ParensMakeUnit(text);
    UnitConverts(Parens(text), Some(c.fields), c.w);
  }

  lemma HeadSplits(f: string, v: string)
    requires Balanced(f) && NoTop(INSIDE, v, "||")
    ensures var t := Head(f) + v;
      |SplitTopLevelSpec(t, "||")| <= 1 && SplitTopLevelSpec(t, "&&") == [Parens(f) + " "] + UserConjuncts(v)
    ensures UserConjuncts(v) != []
  {
    var t, a := Head(f) + v, Parens(f) + " ";
    HeadScan(f);
    NoTopConcat(START, Head(f), v, "||");
    SplitWithoutSeparator(START, t, "||", "");
    ParensMakeUnit(f);
    PadUnit(Parens(f), "&&", "", " ");
    assert "" + Parens(f) + " " == a && "" + a == a;
    assert t == a + ("&&" + (" (" + v));
    SplitAtSeparator(START, a, " (" + v, "&&", "");
    SplitCarries(START, " (" + v, "&&", "", "");
  }

  /** The rule's filter, and beside it whatever the user's text opens, as long as no `||` comes up: a conjunction. */
  lemma HeadMeans(f: string, v: string, c: Case)
    requires Balanced(f) && NoTop(INSIDE, v, "||")
    ensures Admits(Head(f) + v, c) <==> Admits(Trim(f), c) && EachAdmits(UserConjuncts(v), c)
    ensures Converts(Head(f) + v, c) <==> Converts(Trim(f), c) || SomeConverts(UserConjuncts(v), c)
  {
    HeadSplits(f, v);
    var ands := [Parens(f) + " "] + UserConjuncts(v);
    assert ands[1..] == UserConjuncts(v);
    ConjunctsMean(Head(f) + v, c);
    ParensMakeUnit(f);
    TrimPadded(Parens(f));
    ParensAdmit(f, c);
  }

  lemma {:induction false} TrimEndBehind(h: string, q: string)
    requires h != "" && !IsSpace(h[|h| - 1])
    ensures TrimEnd(h + q) == h + TrimEnd(q) && TrimEnd(q) <= q
    decreases |q|
  {
    if q == "" {
      assert h + q == h;
    } else {
      assert (h + q)[..|h + q| - 1] == h + q[..|q| - 1];
      TrimEndBehind(h, q[..|q| - 1]);
    }
  }

  lemma TrimHead(f: string, q: string)
    ensures Trim(Head(f) + q) == Head(f) + TrimEnd(q) && TrimEnd(q) <= q
  {
    TrimEndBehind(Head(f), q);
    assert (Head(f) + q)[0] == '(';
  }

  /** The user's text up to its first `||`, without white space at the end. */
  function FirstText(u: string): string {
    TrimEnd(FirstPiece(INSIDE, u + ")", "||"))
  }

  lemma FirstTextIsFree(u: string)
    ensures NoTop(INSIDE, FirstText(u), "||")
  {
    var q := FirstPiece(INSIDE, u + ")", "||");
    FirstPieceIsFree(INSIDE, u + ")", "||");
    TrimHead("", q);
    assert q == FirstText(u) + q[|FirstText(u)|..];
    NoTopPrefix(INSIDE, FirstText(u), q[|FirstText(u)|..], "||");
  }

  /** The first of several pieces: the rule's filter and what the user's text opens before its first `||`. */
  lemma FirstMeans(f: string, u: string, c: Case)
    requires Balanced(f)
    ensures UserPieces(u) != []
    ensures var first := Trim(Head(f) + UserPieces(u)[0]);
      && (Admits(first, c) <==> Admits(Trim(f), c) && EachAdmits(UserConjuncts(FirstText(u)), c))
      && (Converts(first, c) <==> Converts(Trim(f), c) || SomeConverts(UserConjuncts(FirstText(u)), c))
  {
    FirstPieceIsFirst(INSIDE, u + ")", "||", "");
    assert UserPieces(u)[0] == FirstPiece(INSIDE, u + ")", "||");
    TrimHead(f, UserPieces(u)[0]);
    FirstTextIsFree(u);
    HeadMeans(f, FirstText(u), c);
  }

  /** A piece of the user's text behind its first top-level `||` turns into a clause that admits the row. */
  predicate Escapes(userFilter: string, c: Case) {
    var pieces := UserPieces(userFilter);
    pieces != [] && SomeListed(pieces[1..], c)
  }

  /**
   * What the joined text says of a row, for every user filter, balanced or not. In one piece it is the conjunction of
   * the rule's filter with the user's conjuncts. In several, it is the OR of that conjunction and the later pieces, as
   * far as they turn into clauses.
   */
  lemma JoinedMeans(f: string, u: string, c: Case)
    requires Balanced(f)
    ensures UserPieces(u) != []
    ensures |UserPieces(u)| == 1 ==>
      (Admits(WithUserFilter(f, u), c) <==> Admits(Trim(f), c) && EachAdmits(UserConjuncts(u + ")"), c))
    ensures |UserPieces(u)| > 1 ==>
      var first := Trim(Head(f) + UserPieces(u)[0]);
      (Admits(WithUserFilter(f, u), c)
       <==> (Converts(first, c) && Admits(first, c)) || Escapes(u, c)
            || !(Converts(first, c) || SomeConverts(UserPieces(u)[1..], c)))
  {
    JoinedPieces(f, u);
    var pieces := UserPieces(u);
    if |pieces| == 1 {
      OnePieceIsFree(INSIDE, u + ")", "||", "");
      assert WithUserFilter(f, u) == Head(f) + (u + ")");
      HeadMeans(f, u + ")", c);
    } else {
      var ors := [Head(f) + pieces[0]] + pieces[1..];
      assert ors[1..] == pieces[1..];
      DisjunctsMean(WithUserFilter(f, u), c);
    }
  }

  /**
   * Exactly when a row that the rule's filter does not admit is listed all the same: when a later piece of the user's
   * text admits it. Such a piece is enough in any case.
   */
  lemma WidensIffEscapes(f: string, u: string, c: Case)
    requires Balanced(f)
    ensures !Admits(Trim(f), c) ==> (Admits(WithUserFilter(f, u), c) <==> Escapes(u, c))
    ensures Escapes(u, c) ==> Admits(WithUserFilter(f, u), c)
  {
    JoinedMeans(f, u, c);
    FirstMeans(f, u, c);
  }

  /** Without a `||` at its own level a user filter, balanced or not, only narrows: a condition to check beforehand. */
  lemma UserFilterNarrows(f: string, u: string, c: Case)
    requires Balanced(f) && NoTop(INSIDE, u, "||")
    ensures Admits(WithUserFilter(f, u), c) <==> Admits(Trim(f), c) && EachAdmits(UserConjuncts(u + ")"), c)
    ensures !Escapes(u, c)
  {
    FreeIsOnePiece(u);
    JoinedMeans(f, u, c);
  }

  // ---------------------------------------------------------------- for every rule

  /** A filter that no row passes. */
  function Impossible(): string {
    Printed("id", "~", FilterCodec.Encode("a")) + " && " + Printed("id", "!~", FilterCodec.Encode("a"))
  }

  lemma PatternUnit(op: string, c: Case)
    requires op == "~" || op == "!~"
    ensures var s := Printed("id", op, FilterCodec.Encode("a"));
      var pattern := LikePattern.ContainsPattern(c.w.text(Str("a")));
      Unit(s) && Converts(s, c) && (Admits(s, c) <==> P.Holds(P.Like("id", pattern, op == "!~"), c.row, c.w))
  {
    EncodedIsLiteral("a");
    assert P.IsIdentifier("id");
    IdentifierIsBare("id");
    PrintedLeaf("id", op, FilterCodec.Encode("a"), Some(c.fields), c.w);
    EncodedParameter("id", op, "a", Some(c.fields), c.w);
  }

  lemma NothingPassesImpossible(c: Case)
    ensures Balanced(Impossible()) && !Admits(Trim(Impossible()), c)
  {
    PatternUnit("~", c);
    PatternUnit("!~", c);
    var units := [Printed("id", "~", FilterCodec.Encode("a")), Printed("id", "!~", FilterCodec.Encode("a"))];
    assert Join(units, " && ") == Impossible() by { assert units[1..] == [units[1]]; }
    assert Conjunction(Impossible(), units, c);
    ConjunctionIsRead(Impossible(), units, c);
    TrimPadded(Impossible());
    assert !(Admits(units[0], c) && Admits(units[1], c));
  }

  /** The user's filter narrows what the rule lists, whatever the rule. */
  ghost predicate NarrowsEveryRule(u: string, c: Case) {
    forall f :: Balanced(f) && Admits(WithUserFilter(f, u), c) ==> Admits(Trim(f), c)
  }

  /** It does so for a row if and only if none of its later pieces admits the row. */
  lemma NarrowsEveryRuleIff(u: string, c: Case)
    ensures NarrowsEveryRule(u, c) <==> !Escapes(u, c)
  {
    if Escapes(u, c) {
      NothingPassesImpossible(c);
      WidensIffEscapes(Impossible(), u, c);
    } else {
      forall f | Balanced(f) && Admits(WithUserFilter(f, u), c) ensures Admits(Trim(f), c) {
        WidensIffEscapes(f, u, c);
      }
    }
  }

  // ---------------------------------------------------------------- balanced filters, and filters closed too early

  /** For balanced text on both sides, the combined filter admits a row iff each side does. */
  lemma UserFilterOnlyNarrows(ruleFilter: string, userFilter: string, c: Case)
    requires Balanced(ruleFilter) && Balanced(userFilter)
    ensures Admits(WithUserFilter(ruleFilter, userFilter), c)
       <==> Admits(Trim(ruleFilter), c) && Admits(Trim(userFilter), c)
    ensures !Escapes(userFilter, c)
  {
    var u := userFilter;
    InsideParens(START, u, "||");
    UserFilterNarrows(ruleFilter, u, c);
    ParensMakeUnit(u);
    assert " (" + (u + ")") == " " + Parens(u);
    SplitOnly(Parens(u), "&&", " ");
    ParensAdmit(u, c);
    var pieces := UserConjuncts(u + ")");
    assert |pieces| == 1 && Trim(pieces[0]) == Parens(u) && pieces[1..] == [];
  }

  /** Two balanced texts between which the parenthesis is closed and opened again. */
  function ClosedEarly(a: string, b: string): string {
    a + ") || (" + b
  }

  lemma ClosedScan(a: string)
    requires Balanced(a)
    ensures Run(INSIDE, a + ") ") == START && NoTop(INSIDE, a + ") ", "||")
  {
    InsideParens(START, a, "||");
    Deepen(START, a);
    RunConcat(INSIDE, a, ") ");
    assert ") "[1..] == " " && " "[1..] == "";
    assert NoTop(INSIDE, ") ", "||");
    NoTopConcat(INSIDE, a, ") ", "||");
  }

  lemma PaddedUnitSplits(b: string)
    requires Balanced(b)
    ensures Split(START, " " + Parens(b), "||", "") == [" " + Parens(b)]
  {
    var y := " " + Parens(b);
    ParensMakeUnit(b);
    PadUnit(Parens(b), "||", " ", "");
    assert y + "" == y && "" + y == y;
    SplitWithoutSeparator(START, y, "||", "");
  }

  lemma ClosedEarlyPieces(a: string, b: string)
    requires Balanced(a) && Balanced(b)
    ensures UserPieces(ClosedEarly(a, b)) == [a + ") ", " " + Parens(b)]
  {
    var x, y := a + ") ", " " + Parens(b);
    ClosedScan(a);
    PaddedUnitSplits(b);
    ClosedEarlyText(a, b);
    SplitAtSeparator(INSIDE, x, y, "||", "");
    assert "" + x == x;
  }

  lemma ClosedEarlyText(a: string, b: string)
    ensures ClosedEarly(a, b) + ")" == (a + ") ") + ("||" + (" " + Parens(b)))
  {
  }

  /** Such a filter lists, beside what the rule allows, every row that its second part admits. */
  lemma ClosedEarlyEscapesIff(a: string, b: string, c: Case)
    requires Balanced(a) && Balanced(b)
    ensures Escapes(ClosedEarly(a, b), c) <==> Converts(Trim(b), c) && Admits(Trim(b), c)
  {
    ClosedEarlyPieces(a, b);
    var pieces, later := UserPieces(ClosedEarly(a, b)), [" " + Parens(b)];
    assert pieces[1..] == later && later[1..] == [];
    ParensMakeUnit(b);
    TrimPadded(Parens(b));
    ParensAdmit(b, c);
    assert SomeListed(later, c) <==> Converts(Parens(b), c) && Admits(Parens(b), c);
  }

  lemma IdComparison(op: string, c: Case)
    requires op == "=" || op == "!="
    ensures var s := Printed("id", op, "'x'"); Unit(s) && Trim(s) == s && Converts(s, c)
  {
    var st := Next(START, '\'');
    assert "'x'"[1..] == "x'" && "x'"[1..] == "'";
    assert Sealed(st, "'");
    assert Sealed(st, "x'");
    assert P.IsIdentifier("id");
    IdentifierIsBare("id");
    PrintedLeaf("id", op, "'x'", Some(c.fields), c.w);
    TrimPadded(Printed("id", op, "'x'"));
  }

  lemma ClosedEarlyInput()
    ensures Printed("id", "!=", "'x'") == "id != 'x'"
    ensures ClosedEarly(Printed("id", "=", "'x'"), Printed("id", "!=", "'x'")) == "id = 'x') || (id != 'x'"
  {
  }

  /** An input: with this user filter, every row of another id is listed beside any rule's filter. */
  lemma ClosedEarlyWidens(f: string, c: Case)
    requires Balanced(f) && Admits("id != 'x'", c)
    ensures Admits(WithUserFilter(f, "id = 'x') || (id != 'x'"), c)
  {
    ClosedEarlyInput();
    IdComparison("=", c);
    IdComparison("!=", c);
    ClosedEarlyEscapes(Printed("id", "=", "'x'"), Printed("id", "!=", "'x'"), f, c);
  }

  lemma ClosedEarlyEscapes(a: string, b: string, f: string, c: Case)
    requires Balanced(a) && Balanced(b) && Balanced(f) && Trim(b) == b && Converts(b, c) && Admits(b, c)
    ensures Admits(WithUserFilter(f, ClosedEarly(a, b)), c)
  {
    ClosedEarlyEscapesIff(a, b, c);
    WidensIffEscapes(f, ClosedEarly(a, b), c);
  }

  // ---------------------------------------------------------------- the whole list request

  /** The filter of the request: the rule's, the user's, or both. */
  function Effective(ruleFilter: Option<string>, userFilter: string): string {
    if ruleFilter.None? || ruleFilter.value == "" then userFilter
    else if Trim(userFilter) != "" then WithUserFilter(ruleFilter.value, userFilter)
    else ruleFilter.value
  }

  /** The parser trims the filter, and a blank one restricts nothing. */
  predicate Lists(filter: string, c: Case) {
    Trim(filter) == "" || Admits(Trim(filter), c)
  }

  /** The row is in the answer; without permission there is none. */
  predicate Listed(rule: Option<string>, userFilter: string, c: Case) {
    var a := R.BuildListFilter(rule, c.ctx, c.fields, c.w);
    a.allowed && Lists(Effective(a.filter, userFilter), c)
  }

  /** What a rule's filter is: balanced text whose verdict, with the permission, is the rule's. */
  lemma RuleFilterMeans(rule: Option<string>, c: Case)
    requires ListRequest(c)
    requires rule.Some? && Trim(rule.value) != "" ==> GoodRule(Trim(rule.value), c)
    ensures var a := R.BuildListFilter(rule, c.ctx, c.fields, c.w);
      && (R.Evaluate(rule, WithRow(c), c.w) <==> a.allowed && (a.filter.None? || Admits(a.filter.value, c)))
      && (a.filter.Some? ==> a.allowed && Operand(a.filter.value) && Trim(a.filter.value) == a.filter.value)
  {
    CompilerPreservesMeaning(rule, c);
    var a := R.BuildListFilter(rule, c.ctx, c.fields, c.w);
    if a.filter.Some? {
      var units := ExpressionSound(Trim(rule.value), c);
      ConjunctionIsRead(a.filter.value, units, c);
      TrimPadded(a.filter.value);
    }
  }

  lemma JoinedIsTrimmed(f: string, u: string)
    ensures Trim(WithUserFilter(f, u)) == WithUserFilter(f, u) != ""
  {
    var s := WithUserFilter(f, u);
    assert s[0] == '(' && s[|s| - 1] == ')';
    TrimPadded(s);
  }

  /**
   * The whole list request, for every user filter: a row that fails the rule is listed if and only if the rule left a
   * filter to join and a later piece of the user's text admits the row. With a balanced user filter exactly the rows
   * are listed that pass the rule and the filter.
   */
  lemma ListRequestIsExact(rule: Option<string>, userFilter: string, c: Case)
    requires ListRequest(c)
    requires rule.Some? && Trim(rule.value) != "" ==> GoodRule(Trim(rule.value), c)
    ensures !R.Evaluate(rule, WithRow(c), c.w) ==>
      (Listed(rule, userFilter, c) <==>
        R.BuildListFilter(rule, c.ctx, c.fields, c.w).filter.Some? && Trim(userFilter) != "" && Escapes(userFilter, c))
    ensures Balanced(userFilter) ==>
      (Listed(rule, userFilter, c) <==> R.Evaluate(rule, WithRow(c), c.w) && Lists(userFilter, c))
  {
    RuleFilterMeans(rule, c);
    var a := R.BuildListFilter(rule, c.ctx, c.fields, c.w);
    if a.filter.Some? && Trim(userFilter) != "" {
      var f := a.filter.value;
      JoinedIsTrimmed(f, userFilter);
      WidensIffEscapes(f, userFilter, c);
      if Balanced(userFilter) {
        UserFilterOnlyNarrows(f, userFilter, c);
      }
    }
  }

  /** So a user filter without a `||` at its own level never lists a row that fails the rule. */
  lemma ListRequestIsSafe(rule: Option<string>, userFilter: string, c: Case)
    requires ListRequest(c) && NoTop(INSIDE, userFilter, "||")
    requires rule.Some? && Trim(rule.value) != "" ==> GoodRule(Trim(rule.value), c)
    ensures Listed(rule, userFilter, c) ==> R.Evaluate(rule, WithRow(c), c.w)
  {
    ListRequestIsExact(rule, userFilter, c);
    FreeIsOnePiece(userFilter);
  }
}
