/** Operands of a comparison are opaque to every scanner, and a printed comparison is read back unchanged. */
module FilterTokens {
  import opened Strings
  import opened Values
  import opened Scanner
  import opened BalancedText
  import opened QueryFilterParser
  import FilterCodec
  import LikePattern

  /** Text without any character that scanners or operators react to. */
  predicate Bare(s: string) {
    forall i :: 0 <= i < |s| ==> s[i] !in {'"', '\'', '(', ')', '\\', '|', '&', '=', '!', '<', '>', '~'}
  }

  /** Inside a quote up to the last character, which closes it. */
  predicate Sealed(st: Scan, s: string)
    decreases |s|
  {
    && st.quote.Some? && s != ""
    && if |s| == 1 then Next(st, s[0]) == START else Sealed(Next(st, s[0]), s[1..])
  }

  /** One quoted literal from its opening to its closing quote. */
  predicate Literal(s: string) {
    |s| >= 2 && (s[0] == '"' || s[0] == '\'') && Sealed(Next(START, s[0]), s[1..])
  }

  predicate Token(s: string) {
    Literal(s) || (s != "" && Trimmed(s) && Bare(s))
  }

  predicate Operator(op: string) {
    op in {"!=", ">=", "<=", "=", ">", "<", "!~", "~"}
  }

  /** `op` is found nowhere in `s`, whatever character comes before. */
  ghost predicate NoOperator(st: Scan, s: string, op: string) {
    forall prev :: FindOp(st, s, op, prev, true) == -1
  }

  // ---------------------------------------------------------------- bare text

  lemma {:induction false} BareText(s: string)
    requires Bare(s)
    ensures Balanced(s)
    ensures forall d :: Separator(d) ==> NoTop(START, s, d)
    decreases |s|
  {
    if s != "" {
      assert Next(START, s[0]) == START;
      BareText(s[1..]);
    }
  }

  /** Operators of either table: signs only. */
  predicate Sign(op: string) {
    op != "" && forall i :: 0 <= i < |op| ==> op[i] in {'=', '!', '<', '>', '~'}
  }

  lemma {:induction false} SkipBareWith(a: string, b: string, op: string, prev: Option<char>, guardTilde: bool)
    requires Bare(a) && a != "" && Sign(op)
    ensures var r := FindOp(START, b, op, Some(a[|a| - 1]), guardTilde);
            FindOp(START, a + b, op, prev, guardTilde) == if r == -1 then -1 else |a| + r
    decreases |a|
  {
    var s := a + b;
    assert s[0] == a[0] && s[1..] == a[1..] + b;
    assert Next(START, s[0]) == START;
    assert !Hit(START, s, op);
    if |a| == 1 {
      assert s[1..] == b;
    } else {
      SkipBareWith(a[1..], b, op, Some(a[0]), guardTilde);
    }
  }

  lemma SkipBare(a: string, b: string, op: string, prev: Option<char>)
    requires Bare(a) && a != "" && Operator(op)
    ensures var r := FindOp(START, b, op, Some(a[|a| - 1]), true);
            FindOp(START, a + b, op, prev, true) == if r == -1 then -1 else |a| + r
  {
    SkipBareWith(a, b, op, prev, true);
  }

  lemma BareHasNoOperator(s: string, op: string)
    requires Bare(s) && Operator(op)
    ensures NoOperator(START, s, op)
  {
    if s != "" {
      assert s + "" == s;
      forall prev ensures FindOp(START, s, op, prev, true) == -1 {
        SkipBare(s, "", op, prev);
      }
    }
  }

  // ---------------------------------------------------------------- quoted literals

  lemma {:induction false} SealedText(st: Scan, s: string)
    requires Sealed(st, s) && st.depth == 0
    ensures Run(st, s) == START && NonNegative(st, s)
    ensures forall d :: Separator(d) ==> NoTop(st, s, d)
    decreases |s|
  {
    if |s| == 1 {
      assert s[1..] == "";
    } else {
      SealedText(Next(st, s[0]), s[1..]);
    }
  }

  lemma {:induction false} SealedHasNoOperator(st: Scan, s: string, op: string, prev: Option<char>)
    requires Sealed(st, s) && st.depth == 0 && Operator(op)
    ensures FindOp(st, s, op, prev, true) == -1
    decreases |s|
  {
    if |s| == 1 {
      assert s[1..] == "";
      assert s[0] == '"' || s[0] == '\'';
    } else {
      SealedHasNoOperator(Next(st, s[0]), s[1..], op, Some(s[0]));
    }
  }

  lemma {:induction false} SkipSealed(st: Scan, a: string, b: string, op: string, prev: Option<char>)
    requires Sealed(st, a) && st.depth == 0 && Operator(op)
    ensures var r := FindOp(START, b, op, Some(a[|a| - 1]), true);
            FindOp(st, a + b, op, prev, true) == if r == -1 then -1 else |a| + r
    decreases |a|
  {
    var s := a + b;
    assert s[0] == a[0] && s[1..] == a[1..] + b;
    SealedIsNoHit(st, a, b, op);
    if |a| == 1 {
      assert s[1..] == b;
    } else {
      SkipSealed(Next(st, a[0]), a[1..], b, op, Some(a[0]));
    }
  }

  lemma SealedIsNoHit(st: Scan, a: string, b: string, op: string)
    requires Sealed(st, a) && st.depth == 0 && Operator(op)
    ensures !Hit(st, a + b, op) && (|a| == 1 ==> Next(st, a[0]) == START)
  {
    assert (a + b)[0] == a[0];
    if |a| == 1 {
      assert a[0] == '"' || a[0] == '\'';
    }
  }

  lemma SkipToken(a: string, b: string, op: string, prev: Option<char>)
    requires Token(a) && Operator(op)
    ensures var r := FindOp(START, b, op, Some(a[|a| - 1]), true);
            FindOp(START, a + b, op, prev, true) == if r == -1 then -1 else |a| + r
  {
    if Literal(a) {
      assert (a + b)[0] == a[0] && (a + b)[1..] == a[1..] + b;
      SkipSealed(Next(START, a[0]), a[1..], b, op, Some(a[0]));
    } else {
      SkipBare(a, b, op, prev);
    }
  }

  lemma {:induction false} SealedEnd(st: Scan, s: string)
    requires Sealed(st, s)
    ensures s[|s| - 1] == st.quote.value
    decreases |s|
  {
    if |s| > 1 {
      SealedEnd(Next(st, s[0]), s[1..]);
      assert Next(st, s[0]).quote == st.quote;
    }
  }

  lemma LiteralIsQuoted(s: string)
    requires Literal(s)
    ensures FilterCodec.Quoted(s) && Trimmed(s)
  {
    SealedEnd(Next(START, s[0]), s[1..]);
  }

  /** What the scanners and the operator search see of a token: nothing. */
  lemma TokenIsOpaque(s: string)
    requires Token(s)
    ensures Unit(s)
    ensures forall op :: Operator(op) ==> NoOperator(START, s, op)
  {
    if Literal(s) {
      LiteralIsQuoted(s);
      SealedText(Next(START, s[0]), s[1..]);
      forall op, prev | Operator(op) ensures FindOp(START, s, op, prev, true) == -1 {
        SealedHasNoOperator(Next(START, s[0]), s[1..], op, Some(s[0]));
      }
    } else {
      BareText(s);
      forall op | Operator(op) ensures NoOperator(START, s, op) {
        BareHasNoOperator(s, op);
      }
    }
  }

  lemma {:induction false} EscapedIsSealed(s: string)
    ensures Sealed(Scan(0, Some('\''), false), FilterCodec.Escaped(s) + "'")
    decreases |s|
  {
    var st := Scan(0, Some('\''), false);
    if s == "" {
      assert FilterCodec.Escaped(s) + "'" == "'";
    } else {
      EscapedIsSealed(s[1..]);
      var e, rest := FilterCodec.EscapeChar(s[0]), FilterCodec.Escaped(s[1..]) + "'";
      assert FilterCodec.Escaped(s) + "'" == e + rest;
      SealAfterEscape(s[0], rest);
    }
  }

  /** One escaped character leaves the scanner inside the quote and outside any backslash run. */
  lemma SealAfterEscape(c: char, rest: string)
    requires Sealed(Scan(0, Some('\''), false), rest)
    ensures Sealed(Scan(0, Some('\''), false), FilterCodec.EscapeChar(c) + rest)
  {
    var st := Scan(0, Some('\''), false);
    var e := FilterCodec.EscapeChar(c);
    var t := e + rest;
    if |e| == 1 {
      assert Next(st, t[0]) == st && t[1..] == rest;
    } else {
      assert Next(st, t[0]) == st.(odd := true) && t[1..] == [e[1]] + rest;
      assert Next(Next(st, t[0]), e[1]) == st && t[1..][1..] == rest;
      assert Sealed(Next(st, t[0]), t[1..]);
    }
  }

  /** Whatever string is encoded, the scanners see one closed literal. */
  lemma EncodedIsLiteral(s: string)
    ensures Literal(FilterCodec.Encode(s))
  {
    FilterCodec.ChainIsOnePass(s);
    EscapedIsSealed(s);
    assert FilterCodec.Encode(s) == "'" + (FilterCodec.Escaped(s) + "'");
    assert FilterCodec.Encode(s)[1..] == FilterCodec.Escaped(s) + "'";
  }

  // ---------------------------------------------------------------- printed comparisons

  lemma IdentifierIsBare(s: string)
    requires IsIdentifier(s)
    ensures Bare(s) && Trimmed(s) && Token(s)
  {
  }

  function Printed(left: string, op: string, token: string): string {
    left + " " + op + " " + token
  }

  /** Around an operator nothing earlier in the operator table is found. */
  lemma OperatorHits(op: string, token: string)
    requires Operator(op)
    ensures FindOp(START, op + " " + token, op, Some(' '), true) == 0
  {
    assert Hit(START, op + " " + token, op);
  }

  /** Behind the operator: a blank and an opaque token, in which nothing is found. */
  lemma NothingBehind(op: string, earlier: string, token: string)
    requires Operator(op) && Operator(earlier) && Token(token)
    ensures FindOp(START, " " + token, earlier, Some(op[|op| - 1]), true) == -1
  {
    TokenIsOpaque(token);
    assert Bare(" ");
    SkipBare(" ", token, earlier, Some(op[|op| - 1]));
  }

  /** An operator's own characters change no state, and an earlier operator is not found in them. */
  lemma OperatorIsPassed(op: string, earlier: string, rest: string)
    requires Operator(op) && Operator(earlier) && earlier != op && Precedes(earlier, op) && rest != "" && rest[0] == ' '
    ensures var s := op + rest;
      && |op| <= 2 && Next(START, op[0]) == START && !Hit(START, s, earlier)
      && (|op| == 2 ==>
            && Next(START, op[1]) == START
            && (!Hit(START, s[1..], earlier) || PartOfLonger(earlier, Some(op[0]), true)))
  {
    var s := op + rest;
    assert s[0] == op[0] && s[|op|] == ' ';
    if |op| == 2 {
      assert s[1..] == [op[1]] + rest && s[1] == op[1];
    }
  }

  lemma OperatorIsFoundFirst(op: string, earlier: string, token: string)
    requires Operator(op) && Operator(earlier) && Token(token)
    requires earlier == op || Precedes(earlier, op)
    ensures FindOp(START, op + " " + token, earlier, Some(' '), true) == if earlier == op then 0 else -1
  {
    if earlier == op {
      OperatorHits(op, token);
    } else {
      EarlierIsNotFound(op, earlier, token, " " + token);
    }
  }

  lemma EarlierIsNotFound(op: string, earlier: string, token: string, rest: string)
    requires Operator(op) && Operator(earlier) && Token(token) && rest == " " + token
    requires earlier != op && Precedes(earlier, op)
    ensures FindOp(START, op + " " + token, earlier, Some(' '), true) == -1
  {
    NothingBehind(op, earlier, token);
    OperatorIsPassed(op, earlier, rest);
    SkipsOperator(op, earlier, rest);
    assert op + " " + token == op + rest;
  }

  lemma SkipsOperator(op: string, earlier: string, rest: string)
    requires 1 <= |op| <= 2 && earlier != "" && Next(START, op[0]) == START && !Hit(START, op + rest, earlier)
    requires |op| == 2 ==>
      Next(START, op[1]) == START
        && (!Hit(START, (op + rest)[1..], earlier) || PartOfLonger(earlier, Some(op[0]), true))
    requires FindOp(START, rest, earlier, Some(op[|op| - 1]), true) == -1
    ensures FindOp(START, op + rest, earlier, Some(' '), true) == -1
  {
    var s := op + rest;
    if |op| == 1 {
      assert s[1..] == rest;
    } else {
      assert s[1..] == [op[1]] + rest && s[1..][1..] == rest;
    }
  }

  /** `earlier` stands before `op` in the parser's operator table. */
  predicate Precedes(earlier: string, op: string) {
    exists i, j :: 0 <= i < j < |OPERATORS| && OPERATORS[i] == earlier && OPERATORS[j] == op
  }

  lemma {:induction false} PrintedOperatorIndex(left: string, op: string, earlier: string, token: string)
    requires Token(left) && Operator(op) && Operator(earlier) && Token(token)
    requires earlier == op || Precedes(earlier, op)
    ensures FindOperatorIndexSpec(Printed(left, op, token), earlier, true) == if earlier == op then |left| + 1 else -1
  {
    var b := op + " " + token;
    assert Printed(left, op, token) == left + (" " + b);
    SkipToken(left, " " + b, earlier, None);
    assert Bare(" ");
    SkipBare(" ", b, earlier, Some(left[|left| - 1]));
    OperatorIsFoundFirst(op, earlier, token);
  }

  lemma {:induction false} PrintedFirstOperator(left: string, op: string, token: string, ops: seq<string>, k: nat)
    requires Token(left) && Operator(op) && Token(token)
    requires k < |ops| && ops[k] == op
    requires forall i :: 0 <= i < k ==> Operator(ops[i]) && ops[i] != op && Precedes(ops[i], op)
    ensures FirstOperator(Printed(left, op, token), ops, true) == Some((op, |left| + 1))
    decreases k
  {
    PrintedOperatorIndex(left, op, ops[0], token);
    if k > 0 {
      PrintedFirstOperator(left, op, token, ops[1..], k - 1);
    }
  }

  lemma OperatorRank(op: string) returns (k: nat)
    requires Operator(op)
    ensures k < |OPERATORS| && OPERATORS[k] == op
    ensures forall i :: 0 <= i < k ==> Operator(OPERATORS[i]) && OPERATORS[i] != op && Precedes(OPERATORS[i], op)
  {
    k := match op
      case "!=" => 0
      case ">=" => 1
      case "<=" => 2
      case "=" => 3
      case ">" => 4
      case "<" => 5
      case "!~" => 6
      case _ => 7;
  }

  /** The two sides of a printed comparison, cut at its operator. */
  lemma PrintedSides(left: string, op: string, token: string)
    requires Trimmed(left) && left != "" && Trimmed(token) && token != ""
    ensures var s, i := Printed(left, op, token), |left| + 1;
      && i + |op| <= |s| && Trim(s[..i]) == left && Trim(s[i + |op|..]) == token
  {
    var s := Printed(left, op, token);
    assert s[..|left| + 1] == left + " ";
    assert s[|left| + 1 + |op|..] == " " + token;
    TrimPadded(left);
    TrimPadded(token);
  }

  lemma PrintedIsRead(left: string, op: string, token: string, fields: Option<set<string>>, w: World)
    requires Token(left) && Operator(op) && Token(token)
    ensures Leaf(Printed(left, op, token), OPERATORS, fields, w) == Operation(left, op, token, fields, w)
  {
    var k := OperatorRank(op);
    PrintedFirstOperator(left, op, token, OPERATORS, k);
    TokenIsOpaque(left);
    TokenIsOpaque(token);
    PrintedSides(left, op, token);
    LeafAtOperator(Printed(left, op, token), op, |left| + 1, fields, w);
  }

  lemma LeafAtOperator(s: string, op: string, i: nat, fields: Option<set<string>>, w: World)
    requires FirstOperator(s, OPERATORS, true) == Some((op, i)) && i + |op| <= |s|
    ensures Leaf(s, OPERATORS, fields, w) == LeafAt(s, op, i, fields, w)
  {
  }

  /** The parser reads `left op token` back as that left side, that operator and that token. */
  lemma {:induction false} PrintedLeaf(left: string, op: string, token: string, fields: Option<set<string>>, w: World)
    requires Token(left) && Operator(op) && Token(token)
    ensures Unit(Printed(left, op, token))
    ensures Convert(Printed(left, op, token), fields, w) == Operation(left, op, token, fields, w)
  {
    var s := Printed(left, op, token);
    PrintedIsUnit(left, op, token);
    PrintedIsRead(left, op, token, fields, w);
    UnitConverts(s, fields, w);
    assert !Wrapped(s) by { assert s[0] == left[0] && left[0] != '('; }
  }

  lemma {:induction false} PrintedIsUnit(left: string, op: string, token: string)
    requires Token(left) && Operator(op) && Token(token)
    ensures Unit(Printed(left, op, token))
  {
    TokenIsOpaque(left);
    TokenIsOpaque(token);
    var a := left + " ";
    OperatorText(op);
    BareText(" ");
    BalancedConcat(left, " ");
    BalancedConcat(a, op);
    BalancedConcat(a + op, " ");
    BalancedConcat(a + op + " ", token);
    forall d | d == "||" || d == "&&" ensures NoTop(START, Printed(left, op, token), d) {
      NoTopConcat(START, left, " ", d);
      NoTopConcat(START, a, op, d);
      NoTopConcat(START, a + op, " ", d);
      NoTopConcat(START, a + op + " ", token, d);
      assert a + op + " " + token == Printed(left, op, token);
    }
  }

  lemma OperatorText(op: string)
    requires Operator(op)
    ensures Balanced(op) && NoTop(START, op, "||") && NoTop(START, op, "&&")
  {
    assert |op| == 2 ==> op[1..] == [op[1]];
    assert op[1..] != "" ==> op[1..][1..] == "";
  }

  /** A unit is not split, so its conversion is that of an operand. */
  lemma UnitConverts(u: string, fields: Option<set<string>>, w: World)
    requires Unit(u)
    ensures Convert(u, fields, w) == ConvertOperand(u, fields, w)
  {
    SplitWithoutSeparator(START, u, "||", "");
    SplitWithoutSeparator(START, u, "&&", "");
    assert "" + u == u;
    TrimPadded(u);
  }

  // ---------------------------------------------------------------- encoded literals anywhere in a filter

  /** In a token no operator is found, by either scanner. */
  lemma TokenHasNoSign(s: string, op: string, prev: Option<char>, guardTilde: bool)
    requires Token(s) && Sign(op)
    ensures FindOp(START, s, op, prev, guardTilde) == -1
  {
    if Literal(s) {
      assert s[1..] + "" == s[1..];
      SealedThenRest(Next(START, s[0]), s[1..], "", 0, op, Some(s[0]), guardTilde);
    } else {
      assert s + "" == s;
      SkipBareWith(s, "", op, prev, guardTilde);
    }
  }

  /** A separator or an operator, none of whose characters is a quote. */
  predicate Unquoted(d: string) {
    d != "" && forall i :: 0 <= i < |d| ==> d[i] != '"' && d[i] != '\''
  }

  /** The scanners pass over sealed text and then see what follows it as if it stood alone. */
  lemma {:induction false} SealedThenRest(st: Scan, s: string, rest: string, depth: int, d: string, prev: Option<char>,
      guardTilde: bool)
    requires Sealed(st, s) && st.depth == 0 && Unquoted(d)
    ensures var inside, outside := st.(depth := depth), START.(depth := depth);
      && Run(inside, s + rest) == Run(outside, rest)
      && NoTop(inside, s + rest, d) == NoTop(outside, rest, d)
      && FindOp(inside, s + rest, d, prev, guardTilde)
         == var r := FindOp(outside, rest, d, Some(s[|s| - 1]), guardTilde); if r == -1 then -1 else |s| + r
    decreases |s|
  {
    var inside, t := st.(depth := depth), s + rest;
    assert t[0] == s[0] && t[1..] == s[1..] + rest;
    if |s| == 1 {
      assert s[0] == '"' || s[0] == '\'';
      assert t[1..] == rest;
    } else {
      SealedThenRest(Next(st, s[0]), s[1..], rest, depth, d, Some(s[0]), guardTilde);
    }
  }

  /**
   * Literal opacity: wherever an encoded string stands outside quotes and not right after an odd run of
   * backslashes, at any depth and whatever follows it, the scanners go on behind it as they were before it: it shows
   * them no separator, no operator and no parenthesis, and so its length is all they learn of it.
   */
  lemma {:induction false} EncodedIsOpaque(s: string, rest: string, depth: int, d: string, prev: Option<char>,
      guardTilde: bool)
    requires Unquoted(d)
    ensures var st, t := START.(depth := depth), FilterCodec.Encode(s);
      && Run(st, t + rest) == Run(st, rest)
      && NoTop(st, t + rest, d) == NoTop(st, rest, d)
      && FindOp(st, t + rest, d, prev, guardTilde)
         == var r := FindOp(st, rest, d, Some('\''), guardTilde); if r == -1 then -1 else |t| + r
  {
    EncodedIsLiteral(s);
    var t := FilterCodec.Encode(s);
    assert (t + rest)[1..] == t[1..] + rest;
    SealedThenRest(Next(START, t[0]), t[1..], rest, depth, d, Some(t[0]), guardTilde);
  }

  /** Splitting passes over it too: what it finds behind the literal, it finds with the literal kept whole. */
  lemma {:induction false} EncodedIsNotSplit(s: string, rest: string, depth: int, d: string, current: string)
    requires Separator(d)
    ensures var st, t := START.(depth := depth), FilterCodec.Encode(s);
      Split(st, t + rest, d, current) == Split(st, rest, d, current + t)
  {
    EncodedIsLiteral(s);
    var t := FilterCodec.Encode(s);
    assert (t + rest)[1..] == t[1..] + rest;
    assert current + [t[0]] + t[1..] == current + t;
    SealedIsNotSplit(Next(START, t[0]), t[1..], rest, depth, d, current + [t[0]]);
  }

  lemma {:induction false} SealedIsNotSplit(st: Scan, s: string, rest: string, depth: int, d: string, current: string)
    requires Sealed(st, s) && st.depth == 0 && Separator(d)
    ensures Split(st.(depth := depth), s + rest, d, current) == Split(START.(depth := depth), rest, d, current + s)
    decreases |s|
  {
    var t := s + rest;
    assert t[0] == s[0] && t[1..] == s[1..] + rest;
    assert current + [s[0]] + s[1..] == current + s;
    if |s| == 1 {
      assert s[0] == '"' || s[0] == '\'';
      assert t[1..] == rest && s == [s[0]];
    } else {
      SealedIsNotSplit(Next(st, s[0]), s[1..], rest, depth, d, current + [s[0]]);
    }
  }

  lemma EncodedValue(s: string, w: World)
    ensures ExtractLiteralValue(FilterCodec.Encode(s), w) == Str(s)
  {
    EncodedIsLiteral(s);
    LiteralIsQuoted(FilterCodec.Encode(s));
    TrimPadded(FilterCodec.Encode(s));
    FilterCodec.RoundTrip(s);
  }

  /**
   * The parameter bound for `field op encode(s)` is `s` itself, or for the two pattern operators its pattern, whatever
   * characters `s` has.
   */
  lemma {:induction false} EncodedParameter(field: string, op: string, s: string, fields: Option<set<string>>, w: World)
    requires IsIdentifier(field) && Allowed(field, fields) && Operator(op)
    ensures var sql := Convert(Printed(field, op, FilterCodec.Encode(s)), fields, w);
      var pattern := LikePattern.ContainsPattern(w.text(Str(s)));
      && sql.Some?
      && Params(sql.value) == [if op == "~" || op == "!~" then Str(pattern) else Str(s)]
      && sql.value == if op == "~" || op == "!~" then Like(field, pattern, op == "!~") else Compare(field, op, Str(s))
  {
    EncodedIsLiteral(s);
    EncodedValue(s, w);
    IdentifierIsBare(field);
    PrintedLeaf(field, op, FilterCodec.Encode(s), fields, w);
  }
}
