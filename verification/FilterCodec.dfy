/** The shared literal encoder and decoder of filter strings (src/records/FilterCodec.ts). */
module FilterCodec {
  import opened Strings

  /** The five chained global replacements of the encoder. */
  function EscapeChain(s: string): string {
    var a := ReplaceChar(s, '\\', "\\\\");
    var b := ReplaceChar(a, '\'', "\\'");
    var c := ReplaceChar(b, '\n', "\\n");
    var d := ReplaceChar(c, '\r', "\\r");
    ReplaceChar(d, '\t', "\\t")
  }

  function Encode(s: string): string {
    "'" + EscapeChain(s) + "'"
  }

  function EscapeChar(c: char): string {
    match c
    case '\\' => "\\\\"
    case '\'' => "\\'"
    case '\n' => "\\n"
    case '\r' => "\\r"
    case '\t' => "\\t"
    case _ => [c]
  }

  /** The same text produced in one pass. */
  function Escaped(s: string): string {
    if s == "" then "" else EscapeChar(s[0]) + Escaped(s[1..])
  }

  function UnescapeChar(c: char): char {
    match c
    case 'n' => '\n'
    case 'r' => '\r'
    case 't' => '\t'
    case _ => c
  }

  /** Left-to-right replacement of every backslash and the character after it; a final lone backslash stays. */
  function Unescape(s: string): string {
    if |s| < 2 then s
    else if s[0] == '\\' then [UnescapeChar(s[1])] + Unescape(s[2..])
    else [s[0]] + Unescape(s[1..])
  }

  predicate Quoted(s: string) {
    s != "" && (s[0] == s[|s| - 1] == '"' || s[0] == s[|s| - 1] == '\'')
  }

  function Decode(s: string): string {
    var t := Trim(s);
    if Quoted(t) then Unescape(if |t| < 2 then "" else t[1..|t| - 1]) else t
  }

  lemma ReplaceOneChar(x: char, c: char, r: string)
    ensures ReplaceChar([x], c, r) == if x == c then r else [x]
  {
    assert [x][1..] == "";
    assert ReplaceChar([x], c, r) == (if x == c then r else [x]) + "";
  }

  lemma ReplaceEscape(x: char, y: char, c: char, r: string)
    requires x != c && y != c
    ensures ReplaceChar([x, y], c, r) == [x, y]
  {
    ReplaceOneChar(y, c, r);
    assert [x, y][1..] == [y];
  }

  lemma {:induction false} ChainOnOneChar(c: char)
    ensures EscapeChain([c]) == EscapeChar(c)
  {
    ReplaceOneChar(c, '\\', "\\\\");
    ReplaceOneChar(c, '\'', "\\'");
    ReplaceOneChar(c, '\n', "\\n");
    ReplaceOneChar(c, '\r', "\\r");
    ReplaceOneChar(c, '\t', "\\t");
    ReplaceEscape('\\', '\\', '\'', "\\'");
    ReplaceEscape('\\', '\\', '\n', "\\n");
    ReplaceEscape('\\', '\\', '\r', "\\r");
    ReplaceEscape('\\', '\\', '\t', "\\t");
    ReplaceEscape('\\', '\'', '\n', "\\n");
    ReplaceEscape('\\', '\'', '\r', "\\r");
    ReplaceEscape('\\', '\'', '\t', "\\t");
    ReplaceEscape('\\', 'n', '\r', "\\r");
    ReplaceEscape('\\', 'n', '\t', "\\t");
    ReplaceEscape('\\', 'r', '\t', "\\t");
  }

  lemma {:induction false} ChainConcat(a: string, b: string)
    ensures EscapeChain(a + b) == EscapeChain(a) + EscapeChain(b)
  {
    ReplaceCharConcat(a, b, '\\', "\\\\");
    var a1, b1 := ReplaceChar(a, '\\', "\\\\"), ReplaceChar(b, '\\', "\\\\");
    ReplaceCharConcat(a1, b1, '\'', "\\'");
    var a2, b2 := ReplaceChar(a1, '\'', "\\'"), ReplaceChar(b1, '\'', "\\'");
    ReplaceCharConcat(a2, b2, '\n', "\\n");
    var a3, b3 := ReplaceChar(a2, '\n', "\\n"), ReplaceChar(b2, '\n', "\\n");
    ReplaceCharConcat(a3, b3, '\r', "\\r");
    var a4, b4 := ReplaceChar(a3, '\r', "\\r"), ReplaceChar(b3, '\r', "\\r");
    ReplaceCharConcat(a4, b4, '\t', "\\t");
  }

  /** Because backslashes are replaced first, the chain is a character-by-character escape. */
  lemma {:induction false} ChainIsOnePass(s: string)
    ensures EscapeChain(s) == Escaped(s)
  {
    if s != "" {
      assert s == [s[0]] + s[1..];
      ChainOnOneChar(s[0]);
      ChainConcat([s[0]], s[1..]);
      ChainIsOnePass(s[1..]);
    }
  }

  lemma UnescapePlain(c: char, rest: string)
    requires c != '\\'
    ensures Unescape([c] + rest) == [c] + Unescape(rest)
  {
    if rest == "" {
      assert [c] + rest == [c];
    } else {
      assert ([c] + rest)[1..] == rest;
    }
  }

  lemma UnescapePair(c: char, rest: string)
    ensures Unescape(['\\', c] + rest) == [UnescapeChar(c)] + Unescape(rest)
  {
    assert (['\\', c] + rest)[2..] == rest;
  }

  lemma {:induction false} UnescapeEscaped(s: string)
    ensures Unescape(Escaped(s)) == s
  {
    if s != "" {
      UnescapeEscaped(s[1..]);
      var e := EscapeChar(s[0]);
      if |e| == 1 {
        UnescapePlain(s[0], Escaped(s[1..]));
      } else {
        UnescapePair(e[1], Escaped(s[1..]));
        assert e == ['\\', e[1]];
      }
    }
  }

  /** Decoding undoes encoding, for every string. */
  lemma {:induction false} RoundTrip(s: string)
    ensures Decode(Encode(s)) == s
  {
    ChainIsOnePass(s);
    UnescapeEscaped(s);
    var t := Encode(s);
    TrimPadded(t);
    assert t[1..|t| - 1] == Escaped(s);
  }
}
