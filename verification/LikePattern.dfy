/**
 Searching the history for a literal text.  The query is escaped into a LIKE pattern with backslash as
 the escape character; ILIKE compares the case-folded text with the case-folded pattern.
 */
module LikePattern {
  const PERCENT := '%'
  const UNDERSCORE := '_'
  const BACKSLASH := '\\'

  predicate Special(c: char) {
    c == PERCENT || c == UNDERSCORE || c == BACKSLASH
  }

  /** Replace every occurrence of one character. */
  function Replace(s: string, c: char, with: string): string {
    if s == "" then "" else (if s[0] == c then with else [s[0]]) + Replace(s[1..], c, with)
  }

  /** The three replacements in the order they are made. */
  function Escaped(query: string): string {
    Replace(Replace(Replace(query, BACKSLASH, [BACKSLASH, BACKSLASH]),
                    PERCENT, [BACKSLASH, PERCENT]),
            UNDERSCORE, [BACKSLASH, UNDERSCORE])
  }

  function Pattern(query: string): string {
    [PERCENT] + Escaped(query) + [PERCENT]
  }

  /** The same escape one character at a time. */
  function Quoted(query: string): string {
    if query == "" then "" else (if Special(query[0]) then [BACKSLASH, query[0]] else [query[0]]) + Quoted(query[1..])
  }

  lemma {:induction false} ReplaceAppend(s: string, t: string, c: char, with: string)
    ensures Replace(s + t, c, with) == Replace(s, c, with) + Replace(t, c, with)
    decreases |s|
  {
    if s == "" {
      assert s + t == t;
    } else {
      assert (s + t)[0] == s[0] && (s + t)[1..] == s[1..] + t;
      ReplaceAppend(s[1..], t, c, with);
    }
  }

  lemma EscapedAppend(s: string, t: string)
    ensures Escaped(s + t) == Escaped(s) + Escaped(t)
  {
    ReplaceAppend(s, t, BACKSLASH, [BACKSLASH, BACKSLASH]);
    var s1, t1 := Replace(s, BACKSLASH, [BACKSLASH, BACKSLASH]), Replace(t, BACKSLASH, [BACKSLASH, BACKSLASH]);
    ReplaceAppend(s1, t1, PERCENT, [BACKSLASH, PERCENT]);
    ReplaceAppend(Replace(s1, PERCENT, [BACKSLASH, PERCENT]), Replace(t1, PERCENT, [BACKSLASH, PERCENT]),
                  UNDERSCORE, [BACKSLASH, UNDERSCORE]);
  }

  lemma ReplaceOne(c: char, x: char, with: string)
    ensures Replace([x], c, with) == if x == c then with else [x]
  {
    assert [x][1..] == "";
  }

  lemma ReplaceTwo(c: char, x: char, y: char, with: string)
    ensures Replace([x, y], c, with) == (if x == c then with else [x]) + (if y == c then with else [y])
  {
    assert [x, y] == [x] + [y];
    ReplaceAppend([x], [y], c, with);
    ReplaceOne(c, x, with);
    ReplaceOne(c, y, with);
  }

  lemma EscapedOne(x: char)
    ensures Escaped([x]) == if Special(x) then [BACKSLASH, x] else [x]
  {
    ReplaceOne(BACKSLASH, x, [BACKSLASH, BACKSLASH]);
    ReplaceOne(PERCENT, x, [BACKSLASH, PERCENT]);
    ReplaceTwo(PERCENT, BACKSLASH, BACKSLASH, [BACKSLASH, PERCENT]);
    ReplaceOne(UNDERSCORE, x, [BACKSLASH, UNDERSCORE]);
    ReplaceTwo(UNDERSCORE, BACKSLASH, BACKSLASH, [BACKSLASH, UNDERSCORE]);
    ReplaceTwo(UNDERSCORE, BACKSLASH, PERCENT, [BACKSLASH, UNDERSCORE]);
  }

  /** Because the backslash is doubled first, the three passes amount to one escape per character. */
  lemma {:induction false} ReplacesQuote(query: string)
    ensures Escaped(query) == Quoted(query)
    decreases |query|
  {
    if query != "" {
      assert query == [query[0]] + query[1..];
      EscapedAppend([query[0]], query[1..]);
      EscapedOne(query[0]);
      ReplacesQuote(query[1..]);
    }
  }

  // ---------- LIKE ----------

  /** SQL LIKE; a pattern that ends in the escape character is an error and matches nothing. */
  predicate Like(text: string, pattern: string)
    decreases |pattern|, |text|
  {
    if pattern == "" then text == ""
    else if pattern[0] == PERCENT then
      Like(text, pattern[1..]) || (text != "" && Like(text[1..], pattern))
    else if pattern[0] == BACKSLASH then
      |pattern| > 1 && text != "" && text[0] == pattern[1] && Like(text[1..], pattern[2..])
    else if pattern[0] == UNDERSCORE then text != "" && Like(text[1..], pattern[1..])
    else text != "" && text[0] == pattern[0] && Like(text[1..], pattern[1..])
  }

  /** No escape character is left dangling at the end. */
  predicate WellFormed(pattern: string) {
    pattern == ""
    || (if pattern[0] == BACKSLASH then |pattern| > 1 && WellFormed(pattern[2..]) else WellFormed(pattern[1..]))
  }

  function Fold(fold: char -> char, s: string): string {
    seq(|s|, i requires 0 <= i < |s| => fold(s[i]))
  }

  /** Case folding keeps the three special characters apart from all others. */
  ghost predicate Folds(fold: char -> char) {
    (forall c :: Special(c) ==> fold(c) == c) && (forall c :: Special(fold(c)) ==> Special(c))
  }

  predicate ILike(fold: char -> char, text: string, pattern: string) {
    Like(Fold(fold, text), Fold(fold, pattern))
  }

  predicate OccursAt(text: string, part: string, i: int) {
    0 <= i <= |text| - |part| && text[i..i + |part|] == part
  }

  ghost predicate Contains(text: string, part: string) {
    exists i :: OccursAt(text, part, i)
  }

  /** A quoted text matches itself at the front and nothing else. */
  lemma {:induction false} QuotedMatches(text: string, query: string, rest: string)
    ensures Like(text, Quoted(query) + rest)
            <==> |text| >= |query| && text[..|query|] == query && Like(text[|query|..], rest)
    decreases |query|
  {
    if query == "" {
      assert Quoted(query) + rest == rest && text[0..] == text;
    } else {
      var head := if Special(query[0]) then [BACKSLASH, query[0]] else [query[0]];
      var pattern := Quoted(query) + rest;
      var tail := Quoted(query[1..]) + rest;
      assert pattern == head + tail;
      if text != "" {
        assert pattern[|head|..] == tail;
        QuotedMatches(text[1..], query[1..], rest);
        if |text| >= |query| {
          assert text[..|query|] == [text[0]] + text[1..][..|query| - 1];
          assert query == [query[0]] + query[1..];
          assert text[1..][|query| - 1..] == text[|query|..];
        }
      }
    }
  }

  lemma {:induction false} TrailingPercent(text: string)
    ensures Like(text, [PERCENT])
    decreases |text|
  {
    if text != "" {
      TrailingPercent(text[1..]);
    } else {
      assert [PERCENT][1..] == "";
    }
  }

  /** A leading percent sign matches any front part. */
  lemma {:induction false} LeadingPercent(text: string, rest: string)
    ensures Like(text, [PERCENT] + rest) <==> exists i :: 0 <= i <= |text| && Like(text[i..], rest)
    decreases |text|
  {
    var pattern := [PERCENT] + rest;
    assert pattern[1..] == rest;
    assert text[0..] == text;
    if text != "" {
      LeadingPercent(text[1..], rest);
      if Like(text[1..], pattern) {
        var i :| 0 <= i <= |text[1..]| && Like(text[1..][i..], rest);
        assert text[1..][i..] == text[i + 1..];
      }
      forall i | 0 < i <= |text| && Like(text[i..], rest)
        ensures Like(text[1..], pattern)
      {
        assert text[i..] == text[1..][i - 1..];
      }
    }
  }

  lemma PatternMatches(text: string, query: string)
    ensures Like(text, [PERCENT] + Quoted(query) + [PERCENT]) <==> Contains(text, query)
  {
    var rest := Quoted(query) + [PERCENT];
    assert [PERCENT] + Quoted(query) + [PERCENT] == [PERCENT] + rest;
    LeadingPercent(text, rest);
    forall i | 0 <= i <= |text|
      ensures Like(text[i..], rest) <==> OccursAt(text, query, i)
    {
      QuotedMatches(text[i..], query, [PERCENT]);
      if i <= |text| - |query| {
        TrailingPercent(text[i..][|query|..]);
        assert text[i..][..|query|] == text[i..i + |query|];
      }
    }
  }

  lemma FoldAppend(fold: char -> char, s: string, t: string)
    ensures Fold(fold, s + t) == Fold(fold, s) + Fold(fold, t)
  {
  }

  lemma {:induction false} FoldQuoted(fold: char -> char, query: string)
    requires Folds(fold)
    ensures Fold(fold, Quoted(query)) == Quoted(Fold(fold, query))
    decreases |query|
  {
    if query != "" {
      var head := if Special(query[0]) then [BACKSLASH, query[0]] else [query[0]];
      FoldAppend(fold, head, Quoted(query[1..]));
      FoldQuoted(fold, query[1..]);
      var folded := Fold(fold, query);
      assert folded[0] == fold(query[0]) && folded[1..] == Fold(fold, query[1..]);
      assert Fold(fold, head) == if Special(folded[0]) then [BACKSLASH, folded[0]] else [folded[0]];
    }
  }

  /** The history filter finds exactly the entries that contain the query, letter case aside. */
  lemma FindsSubstrings(fold: char -> char, text: string, query: string)
    requires Folds(fold)
    ensures ILike(fold, text, Pattern(query)) <==> Contains(Fold(fold, text), Fold(fold, query))
  {
    ReplacesQuote(query);
    FoldAppend(fold, [PERCENT], Escaped(query));
    FoldAppend(fold, [PERCENT] + Escaped(query), [PERCENT]);
    FoldQuoted(fold, query);
    assert Special(PERCENT);
    assert Fold(fold, [PERCENT]) == [PERCENT];
    PatternMatches(Fold(fold, text), Fold(fold, query));
  }

  /** The pattern never ends in a dangling escape, which the database would reject. */
  lemma {:induction false} QuotedWellFormed(query: string, rest: string)
    requires WellFormed(rest)
    ensures WellFormed(Quoted(query) + rest)
    decreases |query|
  {
    if query == "" {
      assert Quoted(query) + rest == rest;
    } else {
      var head := if Special(query[0]) then [BACKSLASH, query[0]] else [query[0]];
      QuotedWellFormed(query[1..], rest);
      assert Quoted(query) + rest == head + (Quoted(query[1..]) + rest);
      assert (Quoted(query) + rest)[|head|..] == Quoted(query[1..]) + rest;
    }
  }

  lemma PatternAccepted(query: string)
    ensures WellFormed(Pattern(query))
  {
    ReplacesQuote(query);
    assert [PERCENT][1..] == "";
    QuotedWellFormed(query, [PERCENT]);
    assert Pattern(query)[1..] == Quoted(query) + [PERCENT];
  }
}
