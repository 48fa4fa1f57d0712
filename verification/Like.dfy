// SQL LIKE with `ESCAPE '\'` and the escaping the store applies to names before it
// builds a pattern (src/state/items.rs).
module Like {
  // SQLite's LIKE compares ASCII letters without regard to case.
  function Fold(c: char): char {
    if 'A' <= c <= 'Z' then (c as int + 32) as char else c
  }

  predicate FoldEq(a: string, b: string) {
    |a| == |b| && forall i :: 0 <= i < |a| ==> Fold(a[i]) == Fold(b[i])
  }

  // text LIKE pattern ESCAPE '\'
  predicate Matches(pattern: string, text: string)
    decreases |pattern|, |text|
  {
    if pattern == "" then text == ""
    else if pattern[0] == '\\' && |pattern| > 1 then
      text != "" && Fold(text[0]) == Fold(pattern[1]) && Matches(pattern[2..], text[1..])
    else if pattern[0] == '%' then
      Matches(pattern[1..], text) || (text != "" && Matches(pattern, text[1..]))
    else
      text != "" && (pattern[0] == '_' || Fold(text[0]) == Fold(pattern[0])) && Matches(pattern[1..], text[1..])
  }

  // `str::replace` for a one-character needle.
  function Replace(s: string, needle: char, repl: string): string {
    if s == "" then ""
    else (if s[0] == needle then repl else [s[0]]) + Replace(s[1..], needle, repl)
  }

  // The three successive replacements of the source.
  function EscapeLike(s: string): string {
    Replace(Replace(Replace(s, '\\', "\\\\"), '%', "\\%"), '_', "\\_")
  }

  predicate Meta(c: char) { c == '\\' || c == '%' || c == '_' }

  // Each metacharacter gets exactly one escape in front of it.
  function EscapePerChar(s: string): string {
    if s == "" then ""
    else (if Meta(s[0]) then ['\\', s[0]] else [s[0]]) + EscapePerChar(s[1..])
  }

  lemma ReplaceConcat(a: string, b: string, needle: char, repl: string)
    ensures Replace(a + b, needle, repl) == Replace(a, needle, repl) + Replace(b, needle, repl)
  {
    if a == "" {
      assert a + b == b;
    } else {
      assert (a + b)[1..] == a[1..] + b;
      ReplaceConcat(a[1..], b, needle, repl);
    }
  }

  // The order of the replacements matters: the backslash goes first, so no escape is escaped again.
  lemma {:induction false} EscapeIsPerCharacter(s: string)
    ensures EscapeLike(s) == EscapePerChar(s)
  {
    if s != "" {
      var c, rest := s[0], s[1..];
      EscapeIsPerCharacter(rest);
      var head := if c == '\\' then "\\\\" else [c];
      ReplaceConcat(head, Replace(rest, '\\', "\\\\"), '%', "\\%");
      ReplaceConcat(Replace(head, '%', "\\%"), Replace(Replace(rest, '\\', "\\\\"), '%', "\\%"), '_', "\\_");
      assert Replace(s, '\\', "\\\\") == head + Replace(rest, '\\', "\\\\");
      EscapeOneChar(c);
      assert EscapeLike(s) == Replace(Replace(head, '%', "\\%"), '_', "\\_") + EscapeLike(rest);
    }
  }

  lemma EscapeOneChar(c: char)
    ensures Replace(Replace(if c == '\\' then "\\\\" else [c], '%', "\\%"), '_', "\\_")
         == if Meta(c) then ['\\', c] else [c]
  {
    var head := if c == '\\' then "\\\\" else [c];
    if c == '\\' {
      ReplaceConcat("\\", "\\", '%', "\\%");
      ReplaceConcat("\\", "\\", '_', "\\_");
      assert head == "\\" + "\\" == ['\\', c];
    } else if c == '%' {
      assert Replace(head, '%', "\\%") == "\\" + "%";
      ReplaceConcat("\\", "%", '_', "\\_");
      assert "\\" + "%" == ['\\', c];
    } else if c == '_' {
      assert Replace(head, '%', "\\%") == [c];
      assert Replace([c], '_', "\\_") == "\\_" == ['\\', c];
    }
  }

  // An escaped string followed by any pattern matches exactly the texts that begin with the
  // string up to ASCII case and continue with the pattern.
  lemma {:induction false} EscapedPrefix(s: string, pattern: string, text: string)
    ensures Matches(EscapePerChar(s) + pattern, text) <==>
            |s| <= |text| && FoldEq(text[..|s|], s) && Matches(pattern, text[|s|..])
  {
    if s == "" {
      assert EscapePerChar(s) + pattern == pattern;
      assert text[0..] == text;
    } else {
      var whole := EscapePerChar(s) + pattern;
      var tail := EscapePerChar(s[1..]) + pattern;
      if Meta(s[0]) {
        assert whole == ['\\', s[0]] + tail;
        assert whole[2..] == tail;
      } else {
        assert whole == [s[0]] + tail;
        assert whole[1..] == tail;
      }
      if text != "" {
        EscapedPrefix(s[1..], pattern, text[1..]);
        if |s| <= |text| {
          assert text[1..][|s| - 1..] == text[|s|..];
          assert text[1..][..|s| - 1] == text[..|s|][1..];
          assert FoldEq(text[..|s|], s) <==> Fold(text[0]) == Fold(s[0]) && FoldEq(text[..|s|][1..], s[1..]) by {
            FoldEqHead(text[..|s|], s);
          }
        }
      }
    }
  }

  lemma FoldEqHead(a: string, b: string)
    requires |a| == |b| > 0
    ensures FoldEq(a, b) <==> Fold(a[0]) == Fold(b[0]) && FoldEq(a[1..], b[1..])
  {
    assert forall i :: 0 < i < |a| ==> a[i] == a[1..][i - 1] && b[i] == b[1..][i - 1];
    assert forall i :: 0 <= i < |a| - 1 ==> a[1..][i] == a[i + 1] && b[1..][i] == b[i + 1];
  }

  lemma {:induction false} PercentMatchesAll(text: string)
    ensures Matches("%", text)
  {
    assert "%"[1..] == "";
    if text != "" { PercentMatchesAll(text[1..]); }
  }

  // p lies below d once ASCII case is ignored; the separator is a literal `/`.
  predicate FoldBelow(p: string, d: string) {
    |d| < |p| && FoldEq(p[..|d|], d) && p[|d|] == '/'
  }

  // The subtree query `relative_path LIKE escape(d) || '/%'` selects exactly the paths below d, up
  // to ASCII case, whatever metacharacters d contains.
  lemma SubtreePattern(d: string, p: string)
    ensures Matches(EscapeLike(d) + "/%", p) <==> FoldBelow(p, d)
  {
    EscapeIsPerCharacter(d);
    EscapedPrefix(d, "/%", p);
    if |d| <= |p| {
      var rest := p[|d|..];
      assert "/%"[1..] == "%";
      assert Matches("/%", rest) <==> rest != "" && Fold(rest[0]) == Fold('/') && Matches("%", rest[1..]);
      if rest != "" {
        PercentMatchesAll(rest[1..]);
        assert rest[0] == p[|d|];
        assert Fold(rest[0]) == '/' <==> rest[0] == '/';
      }
    }
  }
}
