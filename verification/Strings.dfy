/** String helpers with JavaScript's meaning: `trim`, `join`, `replace(/c/g, r)` and `toLowerCase`. */
module Strings {

  datatype Option<+T> = None | Some(value: T)

  /** White space and line terminators that `String.prototype.trim` removes. */
  predicate IsSpace(c: char) {
    || c == ' ' || '\t' <= c <= '\r' || c == '\U{00A0}' || c == '\U{1680}'
    || '\U{2000}' <= c <= '\U{200A}' || c == '\U{2028}' || c == '\U{2029}'
    || c == '\U{202F}' || c == '\U{205F}' || c == '\U{3000}' || c == '\U{FEFF}'
  }

  function TrimStart(s: string): string {
    if s != "" && IsSpace(s[0]) then TrimStart(s[1..]) else s
  }

  function TrimEnd(s: string): string {
    if s != "" && IsSpace(s[|s| - 1]) then TrimEnd(s[..|s| - 1]) else s
  }

  function Trim(s: string): (r: string)
    ensures |r| <= |s|
  {
    TrimStartShorter(s);
    TrimEndShorter(TrimStart(s));
    TrimEnd(TrimStart(s))
  }

  lemma TrimStartShorter(s: string)
    ensures |TrimStart(s)| <= |s|
  {
  }

  lemma TrimEndShorter(s: string)
    ensures |TrimEnd(s)| <= |s|
  {
  }

  /** Neither the first nor the last character is white space. */
  predicate Trimmed(s: string) {
    s != "" ==> !IsSpace(s[0]) && !IsSpace(s[|s| - 1])
  }

  lemma TrimStartOfTrimmed(s: string)
    requires Trimmed(s)
    ensures TrimStart(s) == s && TrimStart(" " + s) == s
  {
    assert (" " + s)[1..] == s;
  }

  /** One blank on either side is all that trimming removes from a trimmed string. */
  lemma {:induction false} TrimPadded(s: string)
    requires Trimmed(s) && s != ""
    ensures Trim(s) == s && Trim(" " + s) == s && Trim(s + " ") == s && Trim(" " + s + " ") == s
  {
    TrimStartOfTrimmed(s);
    assert (s + " ")[..|s|] == s;
    assert TrimEnd(s + " ") == TrimEnd(s) == s;
    assert TrimStart(s + " ") == s + " ";
    assert (" " + s + " ")[1..] == s + " ";
  }

  lemma {:induction false} TrimStartProgress(s: string)
    ensures TrimStart(s) == "" || !IsSpace(TrimStart(s)[0])
  {
    if s != "" && IsSpace(s[0]) {
      TrimStartProgress(s[1..]);
    }
  }

  lemma {:induction false} TrimEndProgress(s: string)
    requires s == "" || !IsSpace(s[0])
    ensures Trimmed(TrimEnd(s))
  {
    if s != "" && IsSpace(s[|s| - 1]) {
      TrimEndProgress(s[..|s| - 1]);
    }
  }

  lemma {:induction false} TrimIsTrimmed(s: string)
    ensures Trimmed(Trim(s))
  {
    TrimStartProgress(s);
    TrimEndProgress(TrimStart(s));
  }

  function Join(parts: seq<string>, sep: string): string {
    if parts == [] then ""
    else if |parts| == 1 then parts[0]
    else parts[0] + sep + Join(parts[1..], sep)
  }

  lemma {:induction false} JoinConcat(a: seq<string>, b: seq<string>, sep: string)
    requires a != [] && b != []
    ensures Join(a + b, sep) == Join(a, sep) + sep + Join(b, sep)
  {
    assert (a + b)[1..] == a[1..] + b;
    if |a| > 1 {
      JoinConcat(a[1..], b, sep);
    } else {
      assert a[1..] + b == b;
    }
  }

  /** `s.replace(/c/g, r)` for a single character `c`. */
  function ReplaceChar(s: string, c: char, r: string): string {
    if s == "" then "" else (if s[0] == c then r else [s[0]]) + ReplaceChar(s[1..], c, r)
  }

  lemma {:induction false} ReplaceCharConcat(a: string, b: string, c: char, r: string)
    ensures ReplaceChar(a + b, c, r) == ReplaceChar(a, c, r) + ReplaceChar(b, c, r)
  {
    if a == "" {
      assert a + b == b;
    } else {
      ReplaceCharConcat(a[1..], b, c, r);
      assert (a + b)[1..] == a[1..] + b;
      var first, x, y := if a[0] == c then r else [a[0]], ReplaceChar(a[1..], c, r), ReplaceChar(b, c, r);
      assert first + (x + y) == (first + x) + y;
    }
  }

  /** Lower case of a keyword: only ASCII capitals can turn into the letters of `true`, `false` and `null`. */
  function LowerAscii(s: string): string {
    seq(|s|, i requires 0 <= i < |s| => if 'A' <= s[i] <= 'Z' then s[i] - 'A' + 'a' else s[i])
  }

  predicate StartsWith(s: string, prefix: string) {
    prefix <= s
  }
}
