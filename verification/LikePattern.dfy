/** The LIKE patterns of the `~` and `!~` filter operators (src/records/QueryFilterParser.ts). */
module LikePattern {
  import opened Strings

  /** Three chained replacements: backslash first, then the two wildcards. */
  function EscapeLike(s: string): string {
    var a := ReplaceChar(s, '\\', "\\\\");
    var b := ReplaceChar(a, '%', "\\%");
    ReplaceChar(b, '_', "\\_")
  }

  function ContainsPattern(s: string): string {
    "%" + EscapeLike(s) + "%"
  }

  /**
   * `t LIKE p ESCAPE '\'`, characters compared after folding: `%` matches any run, `_` any one character,
   * and a backslash makes the next pattern character literal.
   */
  predicate Like(p: string, t: string, fold: char -> char)
    decreases |p|
  {
    if p == "" then t == ""
    else if p[0] == '%' then exists k: nat :: k <= |t| && Like(p[1..], t[k..], fold)
    else if p[0] == '_' then t != "" && Like(p[1..], t[1..], fold)
    else if p[0] == '\\' then |p| > 1 && t != "" && fold(p[1]) == fold(t[0]) && Like(p[2..], t[1..], fold)
    else t != "" && fold(p[0]) == fold(t[0]) && Like(p[1..], t[1..], fold)
  }

  /** `s` is a prefix of `t` up to folding. */
  predicate PrefixFolded(s: string, t: string, fold: char -> char) {
    |s| <= |t| && forall i :: 0 <= i < |s| ==> fold(s[i]) == fold(t[i])
  }

  /** `s` occurs in `t` up to folding: `fold(t).includes(fold(s))`. */
  predicate Occurs(s: string, t: string, fold: char -> char) {
    exists k: nat :: k <= |t| && PrefixFolded(s, t[k..], fold)
  }

  function EscapeLikeChar(c: char): string {
    if c == '\\' || c == '%' || c == '_' then ['\\', c] else [c]
  }

  lemma {:induction false} EscapeLikeCons(c: char, s: string)
    ensures EscapeLike([c] + s) == EscapeLikeChar(c) + EscapeLike(s)
  {
    var a := ReplaceChar([c], '\\', "\\\\");
    var b := ReplaceChar(a, '%', "\\%");
    ReplaceCharConcat([c], s, '\\', "\\\\");
    ReplaceCharConcat(a, ReplaceChar(s, '\\', "\\\\"), '%', "\\%");
    ReplaceCharConcat(b, ReplaceChar(ReplaceChar(s, '\\', "\\\\"), '%', "\\%"), '_', "\\_");
    assert [c][1..] == "";
    assert a == if c == '\\' then "\\\\" else [c];
    assert a == "\\\\" ==> a[1..] == "\\" && a[1..][1..] == "";
    assert b == if c == '\\' then "\\\\" else if c == '%' then "\\%" else [c];
    assert |b| == 2 ==> b[1..] == [b[1]] && b[1..][1..] == "";
    assert ReplaceChar(b, '_', "\\_") == EscapeLikeChar(c);
  }

  /** An escaped text followed by `%` matches exactly the texts that start with it. */
  lemma {:induction false} EscapedThenAnything(s: string, t: string, fold: char -> char)
    ensures Like(EscapeLike(s) + "%", t, fold) <==> PrefixFolded(s, t, fold)
    decreases |s|
  {
    if s == "" {
      assert EscapeLike(s) + "%" == "%" && "%"[1..] == "";
      assert t[|t|..] == "";
      assert Like("", t[|t|..], fold);
    } else {
      EscapeLikeCons(s[0], s[1..]);
      assert s == [s[0]] + s[1..];
      var e, rest := EscapeLikeChar(s[0]), EscapeLike(s[1..]) + "%";
      var p := e + rest;
      assert EscapeLike(s) + "%" == p && p[|e|..] == rest;
      if t != "" {
        EscapedThenAnything(s[1..], t[1..], fold);
        PrefixFoldedCons(s, t, fold);
      }
    }
  }

  lemma PrefixFoldedCons(s: string, t: string, fold: char -> char)
    requires s != "" && t != ""
    ensures PrefixFolded(s, t, fold) <==> fold(s[0]) == fold(t[0]) && PrefixFolded(s[1..], t[1..], fold)
  {
    if fold(s[0]) == fold(t[0]) && PrefixFolded(s[1..], t[1..], fold) {
      forall i | 0 <= i < |s| ensures fold(s[i]) == fold(t[i]) {
        if i > 0 {
          assert s[i] == s[1..][i - 1] && t[i] == t[1..][i - 1];
        }
      }
    }
  }

  /** The pattern built for `~` matches `t` exactly when `s` occurs in `t`, whatever wildcards `s` contains. */
  lemma {:induction false} ContainsExactly(s: string, t: string, fold: char -> char)
    ensures Like(ContainsPattern(s), t, fold) <==> Occurs(s, t, fold)
  {
    var p := EscapeLike(s) + "%";
    assert ContainsPattern(s) == "%" + p && ("%" + p)[1..] == p;
    forall k: nat | k <= |t| ensures Like(p, t[k..], fold) <==> PrefixFolded(s, t[k..], fold) {
      EscapedThenAnything(s, t[k..], fold);
    }
  }
}
