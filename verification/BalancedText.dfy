/** How the scanners see text that was glued together from balanced pieces. */
module BalancedText {
  import opened Strings
  import opened Scanner

  predicate NonNegative(st: Scan, s: string)
    decreases |s|
  {
    s == "" || (Next(st, s[0]).depth >= 0 && NonNegative(Next(st, s[0]), s[1..]))
  }

  /** Every parenthesis closes after it opens and every quote is closed. */
  predicate Balanced(s: string) {
    Run(START, s) == START && NonNegative(START, s)
  }

  /** No top-level `d` starts anywhere in `s`. */
  predicate NoTop(st: Scan, s: string, d: string)
    decreases |s|
  {
    s == "" || (!Hit(st, s, d) && NoTop(Next(st, s[0]), s[1..], d))
  }

  predicate Operand(p: string) {
    p != "" && Trimmed(p) && Balanced(p)
  }

  predicate AreOperands(parts: seq<string>) {
    forall i :: 0 <= i < |parts| ==> Operand(parts[i])
  }

  predicate FreeOf(parts: seq<string>, d: string) {
    forall i :: 0 <= i < |parts| ==> NoTop(START, parts[i], d)
  }

  /** An operand of a generated filter: balanced and free of top-level `||` and `&&`. */
  predicate Unit(u: string) {
    Operand(u) && NoTop(START, u, "||") && NoTop(START, u, "&&")
  }

  lemma RunChar(st: Scan, c: char)
    ensures Run(st, [c]) == Next(st, c)
  {
    assert [c][1..] == "";
  }

  lemma {:induction false} NonNegativeConcat(st: Scan, a: string, b: string)
    ensures NonNegative(st, a + b) == (NonNegative(st, a) && NonNegative(Run(st, a), b))
    decreases |a|
  {
    if a == "" {
      assert a + b == b;
    } else {
      NonNegativeConcat(Next(st, a[0]), a[1..], b);
      assert (a + b)[1..] == a[1..] + b;
    }
  }

  lemma {:induction false} BalancedConcat(a: string, b: string)
    requires Balanced(a) && Balanced(b)
    ensures Balanced(a + b)
  {
    RunConcat(START, a, b);
    NonNegativeConcat(START, a, b);
  }

  /** A separator of the scanned text cannot straddle the seam of `a` and `b`. */
  predicate CleanSeam(a: string, b: string, d: string) {
    a == "" || b == "" || |d| != 2 || a[|a| - 1] != d[0] || b[0] != d[1]
  }

  lemma HitStaysLeft(st: Scan, a: string, b: string, d: string)
    requires a != "" && |d| == 2 && CleanSeam(a, b, d)
    ensures Hit(st, a + b, d) ==> Hit(st, a, d)
  {
    var s := a + b;
    assert s[0] == a[0];
    assert |a| == 1 && b != "" ==> s[1] == b[0];
    assert |a| >= 2 ==> s[..2] == a[..2];
  }

  lemma {:induction false} NoTopConcat(st: Scan, a: string, b: string, d: string)
    requires |d| == 2 && CleanSeam(a, b, d)
    requires NoTop(st, a, d) && NoTop(Run(st, a), b, d)
    ensures NoTop(st, a + b, d)
    decreases |a|
  {
    if a == "" {
      assert a + b == b;
    } else {
      NoTopConcat(Next(st, a[0]), a[1..], b, d);
      assert (a + b)[1..] == a[1..] + b;
      HitStaysLeft(st, a, b, d);
    }
  }

  lemma {:induction false} Deepen(st: Scan, s: string)
    ensures Run(st.(depth := st.depth + 1), s) == Run(st, s).(depth := Run(st, s).depth + 1)
    decreases |s|
  {
    if s != "" {
      Deepen(Next(st, s[0]), s[1..]);
    }
  }

  lemma {:induction false} InsideParens(st: Scan, s: string, d: string)
    requires st.depth >= 0 && NonNegative(st, s)
    ensures NonNegative(st.(depth := st.depth + 1), s) && NoTop(st.(depth := st.depth + 1), s, d)
    decreases |s|
  {
    if s != "" {
      InsideParens(Next(st, s[0]), s[1..], d);
    }
  }

  lemma {:induction false} EnclosedUpToEnd(st: Scan, s: string)
    requires st.depth >= 0 && NonNegative(st, s) && Run(st, s) == START
    ensures EnclosedFrom(st.(depth := st.depth + 1), s + ")")
    decreases |s|
  {
    if s == "" {
      assert s + ")" == ")" && ")"[1..] == "";
      assert EnclosedFrom(Next(START.(depth := 1), ')'), "");
    } else {
      EnclosedUpToEnd(Next(st, s[0]), s[1..]);
      assert (s + ")")[1..] == s[1..] + ")";
      assert (s + ")")[0] == s[0];
    }
  }

  function Parens(s: string): string {
    "(" + s + ")"
  }

  /** Parenthesising balanced text gives a unit that the quote-aware scanner recognises as enclosed. */
  lemma {:induction false} ParensMakeUnit(s: string)
    requires Balanced(s)
    ensures Unit(Parens(s)) && EnclosedFrom(START, Parens(s))
    ensures Parens(s)[1..|Parens(s)| - 1] == s
  {
    var t := Parens(s);
    assert t == "(" + (s + ")") && t[1..] == s + ")";
    var one := START.(depth := 1);
    Deepen(START, s);
    RunChar(one, ')');
    RunConcat(one, s, ")");
    assert Run(START, t) == Run(one, s + ")") == START;
    InsideParens(START, s, "||");
    InsideParens(START, s, "&&");
    NonNegativeConcat(one, s, ")");
    assert NonNegative(one, ")") by { assert ")"[1..] == ""; }
    forall d | Separator(d) ensures NoTop(START, t, d) {
      InsideParens(START, s, d);
      assert NoTop(one, ")", d) by { assert ")"[1..] == ""; }
      NoTopConcat(one, s, ")", d);
    }
    EnclosedUpToEnd(START, s);
  }

  // ---------------------------------------------------------------- splitting what was joined

  lemma {:induction false} SplitAtSeparator(st: Scan, a: string, rest: string, d: string, current: string)
    requires Separator(d) && NoTop(st, a, d)
    requires a != "" ==> a[|a| - 1] != d[0]
    requires Run(st, a).depth == 0 && Run(st, a).quote.None?
    ensures Split(st, a + (d + rest), d, current)
         == [current + a] + Split(Run(st, a).(odd := false), rest, d, "")
    decreases |a|
  {
    var s := a + (d + rest);
    if a == "" {
      assert s == d + rest && s[2..] == rest && current + a == current;
      SeparatorIsInert(st, d);
      assert Hit(st, s, d);
    } else {
      SplitAtSeparator(Next(st, a[0]), a[1..], rest, d, current + [a[0]]);
      assert s[1..] == a[1..] + (d + rest) && s[0] == a[0];
      assert current + [a[0]] + a[1..] == current + a;
      HitStaysLeft(st, a, d + rest, d);
    }
  }

  lemma {:induction false} SplitWithoutSeparator(st: Scan, a: string, d: string, current: string)
    requires Separator(d) && NoTop(st, a, d)
    ensures Split(st, a, d, current) == if current + a == "" then [] else [current + a]
    decreases |a|
  {
    if a == "" {
      assert current + a == current;
    } else {
      SplitWithoutSeparator(Next(st, a[0]), a[1..], d, current + [a[0]]);
      assert current + [a[0]] + a[1..] == current + a;
    }
  }

  function Spaced(d: string): string {
    " " + d + " "
  }

  lemma Blank(d: string)
    requires Separator(d)
    ensures Balanced(" ") && NoTop(START, " ", d) && Balanced("")
  {
    assert " "[1..] == "";
  }

  lemma {:induction false} PadUnit(u: string, d: string, left: string, right: string)
    requires Separator(d) && Balanced(u) && NoTop(START, u, d)
    requires (left == "" || left == " ") && (right == "" || right == " ")
    ensures Balanced(left + u + right) && NoTop(START, left + u + right, d)
  {
    Blank(d);
    assert "" + u == u;
    assert left + u + "" == left + u;
    BalancedConcat(left, u);
    BalancedConcat(left + u, right);
    NoTopConcat(START, left, u, d);
    NoTopConcat(START, left + u, right, d);
  }

  predicate TrimTo(pieces: seq<string>, parts: seq<string>) {
    |pieces| == |parts| && forall i :: 0 <= i < |parts| ==> Trim(pieces[i]) == parts[i]
  }

  lemma TrimToCons(piece: string, pieces: seq<string>, parts: seq<string>)
    requires parts != [] && Trim(piece) == parts[0] && TrimTo(pieces, parts[1..])
    ensures TrimTo([piece] + pieces, parts)
  {
    forall i | 0 <= i < |parts| ensures Trim(([piece] + pieces)[i]) == parts[i] {
      if i > 0 {
        assert parts[i] == parts[1..][i - 1];
      }
    }
  }

  /** Splitting a join gives back its parts, up to the blanks around the separators. */
  lemma {:induction false} SplitJoined(parts: seq<string>, d: string, lead: string)
    requires Separator(d) && parts != [] && (lead == "" || lead == " ")
    requires AreOperands(parts) && FreeOf(parts, d)
    ensures TrimTo(SplitTopLevelSpec(lead + Join(parts, Spaced(d)), d), parts)
  {
    var p := parts[0];
    if |parts| == 1 {
      SplitOnly(p, d, lead);
    } else {
      var rest := Join(parts[1..], Spaced(d));
      SplitJoined(parts[1..], d, " ");
      SplitFirst(p, rest, d, lead);
      TrimToCons(lead + p + " ", SplitTopLevelSpec(" " + rest, d), parts);
    }
  }

  lemma SplitOnly(p: string, d: string, lead: string)
    requires Separator(d) && (lead == "" || lead == " ") && Operand(p) && NoTop(START, p, d)
    ensures TrimTo(SplitTopLevelSpec(lead + p, d), [p])
  {
    PadUnit(p, d, lead, "");
    assert lead + p + "" == lead + p == "" + (lead + p);
    SplitWithoutSeparator(START, lead + p, d, "");
    TrimPadded(p);
    assert "" + p == p;
  }

  lemma SplitFirst(p: string, rest: string, d: string, lead: string)
    requires Separator(d) && (lead == "" || lead == " ") && Operand(p) && NoTop(START, p, d)
    ensures SplitTopLevelSpec(lead + (p + Spaced(d) + rest), d) == [lead + p + " "] + SplitTopLevelSpec(" " + rest, d)
    ensures Trim(lead + p + " ") == p
  {
    TrimAround(p, lead, " ");
    PadUnit(p, d, lead, " ");
    var a := lead + p + " ";
    SplitAtSeparator(START, a, " " + rest, d, "");
    assert "" + a == a;
    Reassociate(lead, p, d, rest);
  }

  lemma Reassociate(lead: string, p: string, d: string, rest: string)
    ensures lead + (p + Spaced(d) + rest) == lead + p + " " + (d + (" " + rest))
  {
  }

  lemma TrimAround(p: string, left: string, right: string)
    requires Trimmed(p) && p != "" && (left == "" || left == " ") && (right == "" || right == " ")
    ensures Trim(left + p + right) == p
  {
    TrimPadded(p);
    assert "" + p == p && left + p + "" == left + p;
  }

  lemma {:induction false} JoinedIsBalanced(parts: seq<string>, d: string)
    requires Separator(d) && parts != []
    requires AreOperands(parts)
    ensures Operand(Join(parts, Spaced(d)))
  {
    if |parts| > 1 {
      JoinedIsBalanced(parts[1..], d);
      var rest := Join(parts[1..], Spaced(d));
      SpacedIsBalanced(d);
      BalancedConcat(parts[0], Spaced(d));
      BalancedConcat(parts[0] + Spaced(d), rest);
    }
  }

  lemma SpacedIsBalanced(d: string)
    requires Separator(d)
    ensures Balanced(Spaced(d))
    ensures forall e :: Separator(e) && e != d ==> NoTop(START, Spaced(d), e)
  {
    Blank(d);
    assert d[1..] == [d[1]] && d[1..][1..] == "";
    assert Balanced(d);
    BalancedConcat(" ", d);
    BalancedConcat(" " + d, " ");
    forall e | Separator(e) && e != d ensures NoTop(START, Spaced(d), e) {
      assert NoTop(START, d, e);
      assert NoTop(START, " ", e);
      NoTopConcat(START, " ", d, e);
      NoTopConcat(START, " " + d, " ", e);
    }
  }

  /** Joining with one separator creates no occurrence of the other. */
  lemma {:induction false} JoinedHasNoOther(parts: seq<string>, d: string, e: string)
    requires Separator(d) && Separator(e) && e != d && parts != []
    requires AreOperands(parts) && FreeOf(parts, e)
    ensures NoTop(START, Join(parts, Spaced(d)), e)
  {
    if |parts| > 1 {
      JoinedHasNoOther(parts[1..], d, e);
      var rest := Join(parts[1..], Spaced(d));
      SpacedIsBalanced(d);
      JoinedIsBalanced(parts[1..], d);
      BalancedConcat(parts[0], Spaced(d));
      NoTopConcat(START, parts[0], Spaced(d), e);
      NoTopConcat(START, parts[0] + Spaced(d), rest, e);
    }
  }
}
