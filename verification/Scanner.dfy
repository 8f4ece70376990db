/**
 * The character scanners that RuleEngine and QueryFilterParser share. Both files hold the same
 * `isCharEscaped` and `splitTopLevel`; `findOperatorIndex` differs in one guard and
 * `isFullyEnclosed` in whether it looks at quotes.
 */
module Scanner {
  import opened Strings

  /**
   * What a scanner knows before it reads the next character: the parenthesis depth, the quote it is
   * inside of, and whether an odd run of backslashes comes right before.
   */
  datatype Scan = Scan(depth: int, quote: Option<char>, odd: bool)

  const START := Scan(0, None, false)

  function Next(st: Scan, c: char): Scan {
    var q :=
      if (c == '"' || c == '\'') && !st.odd then
        if st.quote.None? then Some(c) else if st.quote.value == c then None else st.quote
      else st.quote;
    var d := if q.None? then (if c == '(' then st.depth + 1 else if c == ')' then st.depth - 1 else st.depth)
             else st.depth;
    Scan(d, q, c == '\\' && !st.odd)
  }

  function Run(st: Scan, s: string): Scan
    decreases |s|
  {
    if s == "" then st else Run(Next(st, s[0]), s[1..])
  }

  lemma {:induction false} RunConcat(st: Scan, a: string, b: string)
    ensures Run(st, a + b) == Run(Run(st, a), b)
    decreases |a|
  {
    if a == "" {
      assert a + b == b;
    } else {
      RunConcat(Next(st, a[0]), a[1..], b);
      assert (a + b)[1..] == a[1..] + b;
    }
  }

  lemma {:induction false} RunPrefix(s: string, i: nat)
    requires i < |s|
    ensures Run(START, s[..i + 1]) == Next(Run(START, s[..i]), s[i])
  {
    assert s[..i + 1] == s[..i] + [s[i]];
    RunConcat(START, s[..i], [s[i]]);
    assert [s[i]][1..] == "";
    assert Run(Run(START, s[..i]), [s[i]]) == Run(Next(Run(START, s[..i]), s[i]), "");
  }

  /** A delimiter or operator `d` starts at the head of `s`, outside quotes and parentheses. */
  predicate Hit(st: Scan, s: string, d: string) {
    && s != ""
    && Next(st, s[0]).quote.None? && s[0] != '(' && s[0] != ')'
    && st.depth == 0 && d <= s
  }

  /** A separator: two equal characters that no scanner reacts to. */
  predicate Separator(d: string) {
    |d| == 2 && d[0] == d[1] && (d[0] == '|' || d[0] == '&')
  }

  function Split(st: Scan, s: string, d: string, current: string): seq<string>
    requires Separator(d)
    decreases |s|
  {
    if s == "" then (if current == "" then [] else [current])
    else if Hit(st, s, d) then [current] + Split(Run(st, d), s[2..], d, "")
    else Split(Next(st, s[0]), s[1..], d, current + [s[0]])
  }

  /** The parts are the text between top-level separators; an empty last part is dropped. */
  function SplitTopLevelSpec(s: string, d: string): seq<string>
    requires Separator(d)
  {
    Split(START, s, d, "")
  }

  function TotalLength(parts: seq<string>): nat {
    if parts == [] then 0 else |parts[0]| + TotalLength(parts[1..])
  }

  lemma {:induction false} SplitShrinks(st: Scan, s: string, d: string, current: string)
    requires Separator(d)
    ensures var parts := Split(st, s, d, current);
            TotalLength(parts) <= |current| + |s| && (|parts| > 1 ==> TotalLength(parts) < |current| + |s|)
    decreases |s|
  {
    if s != "" {
      if Hit(st, s, d) {
        SplitShrinks(Run(st, d), s[2..], d, "");
        var rest := Split(Run(st, d), s[2..], d, "");
        assert ([current] + rest)[1..] == rest;
      } else {
        SplitShrinks(Next(st, s[0]), s[1..], d, current + [s[0]]);
      }
    } else if current != "" {
      assert [current][1..] == [];
    }
  }

  lemma {:induction false} PartWithinTotal(parts: seq<string>, i: nat)
    requires i < |parts|
    ensures |parts[i]| <= TotalLength(parts)
  {
    if i > 0 {
      PartWithinTotal(parts[1..], i - 1);
    }
  }

  /** What makes the recursive descent end: once there are several parts, each is shorter than the whole. */
  lemma {:induction false} PartsAreShorter(s: string, d: string)
    requires Separator(d)
    ensures var parts := SplitTopLevelSpec(s, d);
            |parts| > 1 ==> forall i :: 0 <= i < |parts| ==> |parts[i]| < |s|
  {
    SplitShrinks(START, s, d, "");
    var parts := SplitTopLevelSpec(s, d);
    forall i | 0 <= i < |parts| ensures |parts[i]| <= TotalLength(parts) {
      PartWithinTotal(parts, i);
    }
  }

  /** `=` is not an operator of its own after `!`, `<` or `>`; only the filter parser also guards `~` after `!`. */
  predicate PartOfLonger(op: string, prev: Option<char>, guardTilde: bool) {
    || (op == "=" && prev.Some? && prev.value in {'!', '<', '>'})
    || (guardTilde && op == "~" && prev == Some('!'))
  }

  function FindOp(st: Scan, s: string, op: string, prev: Option<char>, guardTilde: bool): (r: int)
    ensures -1 <= r < |s|
    decreases |s|
  {
    if s == "" then -1
    else if Hit(st, s, op) && !PartOfLonger(op, prev, guardTilde) then 0
    else
      var r := FindOp(Next(st, s[0]), s[1..], op, Some(s[0]), guardTilde);
      if r == -1 then -1 else r + 1
  }

  function FindOperatorIndexSpec(s: string, op: string, guardTilde: bool): (r: int)
    ensures -1 <= r < |s|
  {
    FindOp(START, s, op, None, guardTilde)
  }

  lemma {:induction false} FoundFits(st: Scan, s: string, op: string, prev: Option<char>, guardTilde: bool)
    requires op != ""
    ensures var r := FindOp(st, s, op, prev, guardTilde); r == -1 || r + |op| <= |s|
    ensures var r := FindOp(st, s, op, prev, guardTilde); r != -1 ==> op <= s[r..]
    decreases |s|
  {
    if s != "" && !(Hit(st, s, op) && !PartOfLonger(op, prev, guardTilde)) {
      FoundFits(Next(st, s[0]), s[1..], op, Some(s[0]), guardTilde);
      var r := FindOp(Next(st, s[0]), s[1..], op, Some(s[0]), guardTilde);
      if r != -1 {
        assert s[1..][r..] == s[r + 1..];
      }
    }
  }

  /** The first operator of the list that occurs at top level, and where. */
  function FirstOperator(s: string, ops: seq<string>, guardTilde: bool): (r: Option<(string, nat)>)
    ensures r.Some? ==> r.value.0 in ops && r.value.1 == FindOperatorIndexSpec(s, r.value.0, guardTilde)
  {
    if ops == [] then None
    else
      var i := FindOperatorIndexSpec(s, ops[0], guardTilde);
      if i != -1 then Some((ops[0], i)) else FirstOperator(s, ops[1..], guardTilde)
  }

  /** The quote-aware test: the depth is never 0 outside quotes before the last character, and 0 at the end. */
  predicate EnclosedFrom(st: Scan, s: string)
    decreases |s|
  {
    if s == "" then st.depth == 0
    else
      var st' := Next(st, s[0]);
      !(st'.quote.None? && st'.depth == 0 && |s| > 1) && EnclosedFrom(st', s[1..])
  }

  /** RuleEngine's test counts parentheses inside quotes too. */
  predicate EnclosedIgnoringQuotes(depth: int, s: string)
    decreases |s|
  {
    if s == "" then depth == 0
    else
      var d := if s[0] == '(' then depth + 1 else if s[0] == ')' then depth - 1 else depth;
      !(d == 0 && |s| > 1) && EnclosedIgnoringQuotes(d, s[1..])
  }

  // ---------------------------------------------------------------- the loops themselves

  /** Counting backslashes backwards gives the parity that the forward scan carries along. */
  method IsCharEscaped(s: string, index: nat) returns (escaped: bool)
    requires index <= |s|
    ensures escaped == Run(START, s[..index]).odd
  {
    var count := 0;
    var i: int := index - 1;
    while i >= 0 && s[i] == '\\'
      invariant -1 <= i < index && count == index - 1 - i
      invariant Run(START, s[..index]).odd == (Run(START, s[..i + 1]).odd == (count % 2 == 0))
    {
      RunPrefix(s, i);
      count := count + 1;
      i := i - 1;
    }
    if i >= 0 {
      RunPrefix(s, i);
    }
    return count % 2 == 1;
  }

  /** The quote bookkeeping at the top of every scanning loop body. */
  method TrackQuote(s: string, i: nat, quote: Option<char>) returns (quote': Option<char>)
    requires i < |s| && quote == Run(START, s[..i]).quote
    ensures quote' == Run(START, s[..i + 1]).quote
  {
    quote' := quote;
    var escaped := IsCharEscaped(s, i);
    if (s[i] == '"' || s[i] == '\'') && !escaped {
      if quote.None? {
        quote' := Some(s[i]);
      } else if s[i] == quote.value {
        quote' := None;
      }
    }
    RunPrefix(s, i);
  }

  method SplitTopLevel(s: string, d: string) returns (parts: seq<string>)
    requires Separator(d)
    ensures parts == SplitTopLevelSpec(s, d)
  {
    parts := [];
    var current, depth, quote, i := "", 0, None, 0;
    while i < |s|
      invariant 0 <= i <= |s|
      invariant Run(START, s[..i]).depth == depth && Run(START, s[..i]).quote == quote
      invariant SplitTopLevelSpec(s, d) == parts + Split(Run(START, s[..i]), s[i..], d, current)
    {
      ghost var st := Run(START, s[..i]);
      RunPrefix(s, i);
      assert s[i..][0] == s[i] && s[i..][1..] == s[i + 1..];
      quote := TrackQuote(s, i, quote);
      if quote.None? && s[i] == '(' {
        depth := depth + 1;
      } else if quote.None? && s[i] == ')' {
        depth := depth - 1;
      } else if quote.None? && depth == 0 && d <= s[i..] {
        assert Hit(st, s[i..], d);
        assert s[..i + 2] == s[..i] + d && s[i..][2..] == s[i + 2..];
        RunConcat(START, s[..i], d);
        SeparatorIsInert(st, d);
        parts := parts + [current];
        current := "";
        i := i + 2;
        continue;
      }
      current := current + [s[i]];
      i := i + 1;
    }
    assert s[i..] == "";
    if current != "" {
      parts := parts + [current];
    }
  }

  lemma SeparatorIsInert(st: Scan, d: string)
    requires Separator(d)
    ensures Run(st, d) == st.(odd := false)
  {
    assert d[1..] == [d[1]] && d[1..][1..] == "";
    assert Run(st, d) == Run(Next(st, d[0]), d[1..]);
    assert Run(Next(st, d[0]), d[1..]) == Run(Next(Next(st, d[0]), d[1]), "");
  }

  method FindOperatorIndex(s: string, op: string, guardTilde: bool) returns (index: int)
    ensures index == FindOperatorIndexSpec(s, op, guardTilde)
  {
    var depth, quote, i := 0, None, 0;
    while i < |s|
      invariant 0 <= i <= |s|
      invariant Run(START, s[..i]).depth == depth && Run(START, s[..i]).quote == quote
      invariant var r := FindOp(Run(START, s[..i]), s[i..], op, if i == 0 then None else Some(s[i - 1]), guardTilde);
                FindOperatorIndexSpec(s, op, guardTilde) == if r == -1 then -1 else i + r
    {
      RunPrefix(s, i);
      assert s[i..][0] == s[i] && s[i..][1..] == s[i + 1..];
      quote := TrackQuote(s, i, quote);
      if quote.None? && s[i] == '(' {
        depth := depth + 1;
      } else if quote.None? && s[i] == ')' {
        depth := depth - 1;
      } else if quote.None? && depth == 0 && op <= s[i..] {
        if !PartOfLonger(op, if i == 0 then None else Some(s[i - 1]), guardTilde) {
          return i;
        }
      }
      i := i + 1;
    }
    return -1;
  }

  /** The loop over the operator table. */
  method FindFirstOperator(s: string, ops: seq<string>, guardTilde: bool) returns (r: Option<(string, nat)>)
    ensures r == FirstOperator(s, ops, guardTilde)
  {
    var k := 0;
    while k < |ops|
      invariant 0 <= k <= |ops|
      invariant FirstOperator(s, ops, guardTilde) == FirstOperator(s, ops[k..], guardTilde)
    {
      var i := FindOperatorIndex(s, ops[k], guardTilde);
      assert ops[k..][0] == ops[k] && ops[k..][1..] == ops[k + 1..];
      if i != -1 {
        return Some((ops[k], i));
      }
      k := k + 1;
    }
    return None;
  }

  /** QueryFilterParser.isFullyEnclosed */
  method IsFullyEnclosed(s: string) returns (enclosed: bool)
    ensures enclosed == EnclosedFrom(START, s)
  {
    var depth, quote, i := 0, None, 0;
    while i < |s|
      invariant 0 <= i <= |s|
      invariant Run(START, s[..i]).depth == depth && Run(START, s[..i]).quote == quote
      invariant EnclosedFrom(START, s) == EnclosedFrom(Run(START, s[..i]), s[i..])
    {
      RunPrefix(s, i);
      assert s[i..][0] == s[i] && s[i..][1..] == s[i + 1..];
      quote := TrackQuote(s, i, quote);
      if quote.None? {
        if s[i] == '(' {
          depth := depth + 1;
        } else if s[i] == ')' {
          depth := depth - 1;
        }
        if depth == 0 && i < |s| - 1 {
          return false;
        }
      }
      i := i + 1;
    }
    return depth == 0;
  }

  /** RuleEngine.isFullyEnclosed */
  method IsFullyEnclosedIgnoringQuotes(s: string) returns (enclosed: bool)
    ensures enclosed == EnclosedIgnoringQuotes(0, s)
  {
    var depth, i := 0, 0;
    while i < |s|
      invariant 0 <= i <= |s|
      invariant EnclosedIgnoringQuotes(0, s) == EnclosedIgnoringQuotes(depth, s[i..])
    {
      assert s[i..][0] == s[i] && s[i..][1..] == s[i + 1..];
      if s[i] == '(' {
        depth := depth + 1;
      } else if s[i] == ')' {
        depth := depth - 1;
      }
      if depth == 0 && i < |s| - 1 {
        return false;
      }
      i := i + 1;
    }
    return depth == 0;
  }
}
