/** Literal search through a pattern language: three textual replacements make a
    search term match only itself. */
module LikeEscape {

  function ReplaceAll(s: string, c: char, text: string): string {
    if s == "" then "" else (if s[0] == c then text else [s[0]]) + ReplaceAll(s[1..], c, text)
  }

  /** Backslash first, then percent, then underscore. */
  function EscapeLike(value: string): string {
    ReplaceAll(ReplaceAll(ReplaceAll(value, '\\', "\\\\"), '%', "\\%"), '_', "\\_")
  }

  predicate Special(c: char) { c == '\\' || c == '%' || c == '_' }

  /** Each special character gets one backslash, every other stays. */
  function EscapeEach(value: string): string {
    if value == "" then "" else (if Special(value[0]) then ['\\', value[0]] else [value[0]]) + EscapeEach(value[1..])
  }

  /** Pattern matching with escape character backslash. `fold` maps a character to
      the representative of its letter case, as ILIKE compares them. */
  predicate Matches(fold: char -> char, p: string, s: string)
    decreases |p|, |s|
  {
    if p == "" then s == ""
    else if p[0] == '\\' then |p| > 1 && s != "" && fold(p[1]) == fold(s[0]) && Matches(fold, p[2..], s[1..])
    else if p[0] == '%' then Matches(fold, p[1..], s) || (s != "" && Matches(fold, p, s[1..]))
    else if p[0] == '_' then s != "" && Matches(fold, p[1..], s[1..])
    else s != "" && fold(p[0]) == fold(s[0]) && Matches(fold, p[1..], s[1..])
  }

  predicate SameFolded(fold: char -> char, a: string, b: string) {
    |a| == |b| && forall i :: 0 <= i < |a| ==> fold(a[i]) == fold(b[i])
  }

  predicate At(fold: char -> char, s: string, v: string, i: nat) {
    i + |v| <= |s| && SameFolded(fold, s[i..i + |v|], v)
  }

  /** Somewhere in `s` stands `v`. */
  ghost predicate Contains(fold: char -> char, s: string, v: string) {
    exists i: nat :: At(fold, s, v, i)
  }

  // ----------------------------------------------------- three passes are one map

  lemma {:induction false} ReplaceAppends(a: string, b: string, c: char, text: string)
    ensures ReplaceAll(a + b, c, text) == ReplaceAll(a, c, text) + ReplaceAll(b, c, text)
    decreases |a|
  {
    if a == "" {
      assert a + b == b;
    } else {
      ReplaceAppends(a[1..], b, c, text);
      assert (a + b)[1..] == a[1..] + b;
    }
  }

  /** The later replacements never touch what an earlier one inserted. */
  lemma {:induction false} EscapeIsPerCharacter(value: string)
    ensures EscapeLike(value) == EscapeEach(value)
    decreases |value|
  {
    if value != "" {
      var c, rest := value[0], value[1..];
      EscapeIsPerCharacter(rest);
      var r1 := ReplaceAll(rest, '\\', "\\\\");
      var r2 := ReplaceAll(r1, '%', "\\%");
      var h1: string := if c == '\\' then "\\\\" else [c];
      var h2: string := if c == '%' then "\\%" else h1;
      assert ReplaceAll(value, '\\', "\\\\") == h1 + r1;
      ReplaceAppends(h1, r1, '%', "\\%");
      OnePass(h1, c);
      ReplaceAppends(h2, r2, '_', "\\_");
      LastPass(h2, c);
    }
  }

  lemma Short(a: char, b: char, c: char, text: string)
    ensures ReplaceAll([a], c, text) == if a == c then text else [a]
    ensures ReplaceAll([a, b], c, text) == (if a == c then text else [a]) + (if b == c then text else [b])
  {
    assert [a][1..] == "" && [b][1..] == "" && [a, b][1..] == [b];
  }

  lemma OnePass(h: string, c: char)
    requires h == if c == '\\' then "\\\\" else [c]
    ensures ReplaceAll(h, '%', "\\%") == if c == '%' then "\\%" else h
  {
    Short(c, c, '%', "\\%");
    if c == '\\' { assert h == [c, c]; }
  }

  lemma LastPass(h: string, c: char)
    requires h == if c == '%' then "\\%" else if c == '\\' then "\\\\" else [c]
    ensures ReplaceAll(h, '_', "\\_") == if Special(c) then ['\\', c] else [c]
  {
    Short('\\', c, '_', "\\_");
    Short(c, c, '_', "\\_");
    if c == '%' || c == '\\' { assert h == ['\\', c]; }
  }

  // ------------------------------------------------------------ matching is exact

  /** What is left of a match after an escaped term is a match of the rest. */
  lemma {:induction false} EscapedMatchesPrefix(fold: char -> char, v: string, tail: string, s: string)
    ensures Matches(fold, EscapeEach(v) + tail, s)
            <==> |v| <= |s| && SameFolded(fold, s[..|v|], v) && Matches(fold, tail, s[|v|..])
    decreases |v|
  {
    var p := EscapeEach(v) + tail;
    if v == "" {
      assert p == tail && s[0..] == s;
    } else {
      var rest := EscapeEach(v[1..]) + tail;
      if Special(v[0]) {
        assert p[0] == '\\' && p[1] == v[0] && p[2..] == rest;
      } else {
        assert p[0] == v[0] && p[1..] == rest;
      }
      if s != "" {
        EscapedMatchesPrefix(fold, v[1..], tail, s[1..]);
        if |v| <= |s| {
          assert s[1..][..|v| - 1] == s[..|v|][1..] && s[1..][|v| - 1..] == s[|v|..];
          FoldedStep(fold, s[..|v|], v);
        }
      }
    }
  }

  lemma FoldedStep(fold: char -> char, a: string, b: string)
    requires |a| == |b| > 0
    ensures SameFolded(fold, a, b) <==> fold(a[0]) == fold(b[0]) && SameFolded(fold, a[1..], b[1..])
  {
    if fold(a[0]) == fold(b[0]) && SameFolded(fold, a[1..], b[1..]) {
      forall i | 0 <= i < |a| ensures fold(a[i]) == fold(b[i]) {
        if i > 0 { assert a[i] == a[1..][i - 1] && b[i] == b[1..][i - 1]; }
      }
    }
  }

  lemma {:induction false} PercentMatchesAll(fold: char -> char, s: string)
    ensures Matches(fold, "%", s)
    decreases |s|
  {
    assert "%"[1..] == "";
    if s != "" { PercentMatchesAll(fold, s[1..]); }
  }

  /** Search is literal: for every term and every text, the text matches the escaped
      term between two percent signs if and only if it contains the term, letter case
      aside. */
  lemma {:induction false} SearchIsLiteral(fold: char -> char, v: string, s: string)
    ensures Matches(fold, "%" + EscapeLike(v) + "%", s) <==> Contains(fold, s, v)
    decreases |s|
  {
    EscapeIsPerCharacter(v);
    var tail := EscapeEach(v) + "%";
    var p := "%" + EscapeLike(v) + "%";
    assert p == "%" + tail && p[1..] == tail;
    EscapedMatchesPrefix(fold, v, "%", s);
    if |v| <= |s| { PercentMatchesAll(fold, s[|v|..]); }
    assert Matches(fold, tail, s) <==> |v| <= |s| && SameFolded(fold, s[..|v|], v);
    ContainsStep(fold, s, v);
    if s != "" { SearchIsLiteral(fold, v, s[1..]); }
  }

  lemma ContainsStep(fold: char -> char, s: string, v: string)
    ensures Contains(fold, s, v)
            <==> (|v| <= |s| && SameFolded(fold, s[..|v|], v)) || (s != "" && Contains(fold, s[1..], v))
  {
    if Contains(fold, s, v) {
      var i: nat :| At(fold, s, v, i);
      if i > 0 {
        assert s[1..][i - 1..i - 1 + |v|] == s[i..i + |v|];
        assert At(fold, s[1..], v, i - 1);
      } else {
        assert s[0..0 + |v|] == s[..|v|];
      }
    }
    if |v| <= |s| && SameFolded(fold, s[..|v|], v) {
      assert s[0..0 + |v|] == s[..|v|];
      assert At(fold, s, v, 0);
    }
    if s != "" && Contains(fold, s[1..], v) {
      var i: nat :| At(fold, s[1..], v, i);
      assert s[i + 1..i + 1 + |v|] == s[1..][i..i + |v|];
      assert At(fold, s, v, i + 1);
    }
  }
}
