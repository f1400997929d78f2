/**
 * The lexical normaliser of project/src/lib/transcription.ts
 * (`normalizeTranscription`): a table of Russian words is replaced by
 * Ukrainian ones (keeping the case of the match), then whitespace, quotes,
 * punctuation and immediately repeated words are tidied and the result is
 * trimmed.
 *
 * Each `String.prototype.replace` with a global regular expression is a
 * scanner over the ORIGINAL string: `F(s, i)` is what the replacement makes
 * of `s[i..]`, so a match may look at `s[i - 1]` as the regex engine does.
 */
module Normalize {
  import opened Text

  /** `[.,!?]`. */
  predicate IsPunct(c: char)
  {
    c == '.' || c == ',' || c == '!' || c == '?'
  }

  /** `[А-ЯЁа-яёA-Za-z]`. */
  predicate IsLetter(c: char)
  {
    ('\U{0410}' <= c <= '\U{042F}') || c == '\U{0401}' || ('\U{0430}' <= c <= '\U{044F}') || c == '\U{0451}'
    || ('A' <= c <= 'Z') || ('a' <= c <= 'z')
  }

  // ---------------------------------------------------------------------
  // The shape of the output

  /** Every whitespace character is a plain space. */
  predicate OnlySpaces(t: string)
  {
    forall k :: 0 <= k < |t| ==> IsSpace(t[k]) ==> t[k] == ' '
  }

  /** No whitespace run is longer than one character. */
  predicate NoDoubleSpace(t: string)
  {
    forall k :: 0 <= k < |t| - 1 ==> !(IsSpace(t[k]) && IsSpace(t[k + 1]))
  }

  /** No whitespace stands directly before `.`, `,`, `!` or `?`. */
  predicate NoSpaceBeforePunct(t: string)
  {
    forall k :: 0 <= k < |t| - 1 ==> !(IsSpace(t[k]) && IsPunct(t[k + 1]))
  }

  predicate PairOk(a: char, b: char)
  {
    !(IsSpace(a) && IsSpace(b)) && !(IsSpace(a) && IsPunct(b))
  }

  /** The three properties together. */
  predicate Tidy(t: string)
  {
    OnlySpaces(t) && NoDoubleSpace(t) && NoSpaceBeforePunct(t)
  }

  lemma TidyConcat(a: string, b: string)
    requires Tidy(a) && Tidy(b)
    requires |a| > 0 && |b| > 0 ==> PairOk(a[|a| - 1], b[0])
    ensures Tidy(a + b)
  {
    var t := a + b;
    forall k | 0 <= k < |t| - 1
      ensures PairOk(t[k], t[k + 1])
    {
      if k < |a| - 1 {
        assert t[k] == a[k] && t[k + 1] == a[k + 1];
      } else if k == |a| - 1 {
        assert t[k] == a[|a| - 1] && t[k + 1] == b[0];
      } else {
        assert t[k] == b[k - |a|] && t[k + 1] == b[k - |a| + 1];
      }
    }
  }

  lemma TidySlice(t: string, a: nat, b: nat)
    requires Tidy(t) && a <= b <= |t|
    ensures Tidy(t[a..b])
  {
    var u := t[a..b];
    assert forall k :: 0 <= k < |u| ==> u[k] == t[a + k];
  }

  // ---------------------------------------------------------------------
  // The replacement table

  /** The case of the match carried over to the replacement (`preserveCase`). */
  function PreserveCase(original: string, replacement: string): (r: string)
    ensures |r| == |replacement|
    ensures original == Lower(original) ==> r == replacement
  {
    if original == Lower(original) then replacement
    else if original == Upper(original) then Upper(replacement)
    else if original[0] == UpperChar(original[0]) then
      if replacement == "" then "" else [UpperChar(replacement[0])] + replacement[1..]
    else replacement
  }

  lemma LowerUpperChar(c: char)
    requires LowerChar(c) == c
    ensures LowerChar(UpperChar(c)) == c
  {
  }

  /** Only the case of a lower-case replacement changes: its letters stay. */
  lemma PreserveCaseLetters(original: string, replacement: string)
    requires Lower(replacement) == replacement
    ensures Lower(PreserveCase(original, replacement)) == replacement
  {
    var r := PreserveCase(original, replacement);
    forall k | 0 <= k < |replacement|
      ensures LowerChar(UpperChar(replacement[k])) == replacement[k]
    {
      assert LowerChar(replacement[k]) == Lower(replacement)[k];
      LowerUpperChar(replacement[k]);
    }
    if original == Lower(original) {
    } else if original == Upper(original) {
      assert forall k :: 0 <= k < |r| ==> Lower(r)[k] == LowerChar(UpperChar(replacement[k]));
    } else if original[0] == UpperChar(original[0]) && replacement != "" {
      assert r == [UpperChar(replacement[0])] + replacement[1..];
      assert forall k :: 0 < k < |r| ==> Lower(r)[k] == LowerChar(replacement[k]);
      assert Lower(r)[0] == LowerChar(UpperChar(replacement[0]));
    }
  }

  /** An all-capitals match gives an all-capitals replacement. */
  lemma PreserveCaseUpper(original: string, replacement: string)
    requires original != Lower(original) && original == Upper(original)
    ensures PreserveCase(original, replacement) == Upper(replacement)
  {
  }

  /** A capitalised match gives a capitalised replacement. */
  lemma PreserveCaseCapital(original: string, replacement: string)
    requires original != Lower(original) && original != Upper(original)
    requires |original| > 0 && original[0] == UpperChar(original[0]) && |replacement| > 0
    ensures PreserveCase(original, replacement)[0] == UpperChar(replacement[0])
    ensures PreserveCase(original, replacement)[1..] == replacement[1..]
  {
  }

  /** `\b` without the `u` flag: an ASCII word character on exactly one side of `p`. */
  predicate WordBoundary(s: string, p: nat)
    requires p <= |s|
  {
    (p > 0 && IsWordChar(s[p - 1])) != (p < |s| && IsWordChar(s[p]))
  }

  /** The `i` flag without `u`: characters compare by their upper-case forms. */
  predicate MatchesAt(s: string, i: nat, pattern: string)
  {
    i + |pattern| <= |s| && forall k :: 0 <= k < |pattern| ==> UpperChar(s[i + k]) == UpperChar(pattern[k])
  }

  /** `s.replace(new RegExp('\\b' + pattern + '\\b', 'gi'), m => preserveCase(m, replacement))` from `i` on. */
  function ReplaceWord(s: string, i: nat, pattern: string, replacement: string): string
    requires i <= |s| && |pattern| > 0
    decreases |s| - i
  {
    if i == |s| then ""
    else if WordBoundary(s, i) && MatchesAt(s, i, pattern) && WordBoundary(s, i + |pattern|) then
      PreserveCase(s[i..i + |pattern|], replacement) + ReplaceWord(s, i + |pattern|, pattern, replacement)
    else [s[i]] + ReplaceWord(s, i + 1, pattern, replacement)
  }

  predicate NoWordChars(s: string)
  {
    forall k :: 0 <= k < |s| ==> !IsWordChar(s[k])
  }

  /**
   * Without an ASCII word character there is no `\b`, so no replacement
   * fires: the Cyrillic table only applies next to `[A-Za-z0-9_]`.
   */
  lemma {:induction false} ReplaceWordNoAscii(s: string, i: nat, pattern: string, replacement: string)
    requires i <= |s| && |pattern| > 0 && NoWordChars(s)
    ensures ReplaceWord(s, i, pattern, replacement) == s[i..]
    decreases |s| - i
  {
    if i < |s| {
      assert !WordBoundary(s, i);
      ReplaceWordNoAscii(s, i + 1, pattern, replacement);
      assert s[i..] == [s[i]] + s[i + 1..];
    }
  }

  /** Between ASCII letters the table does fire: "aдаb" becomes "aтакb". */
  lemma ReplaceWordBetweenAscii()
    ensures ReplaceWord("aдаb", 0, "да", "так") == "aтакb"
  {
    var s := "aдаb";
    assert ReplaceWord(s, 4, "да", "так") == "";
    assert !MatchesAt(s, 3, "да");
    assert ReplaceWord(s, 3, "да", "так") == "b";
    assert s[1..3] == "да";
    assert Lower("да") == "да";
    assert WordBoundary(s, 1) && MatchesAt(s, 1, "да") && WordBoundary(s, 3);
    assert ReplaceWord(s, 1, "да", "так") == "так" + "b";
    assert !MatchesAt(s, 0, "да");
  }

  const Replacements: seq<(string, string)> := [
    ("да", "так"), ("нет", "ні"), ("щас", "зараз"), ("сейчас", "зараз"),
    ("пока", "поки"), ("спасибо", "дякую"), ("пожалуйста", "будь ласка"),
    ("конечно", "звичайно"), ("тоже", "також"), ("вообще", "взагалі"),
    ("короче", "коротше"), ("ладно", "гаразд"), ("хорошо", "добре"),
    ("ого", "ого-го"), ("ну", "ну"), ("всё", "все"), ("что", "що"),
    ("если", "якщо"), ("просто", "просто"), ("только", "тільки")
  ]

  predicate NonEmptyKeys(table: seq<(string, string)>)
  {
    forall k :: 0 <= k < |table| ==> |table[k].0| > 0
  }

  /** The table applied entry by entry, each to the result of the previous one. */
  function ReplaceAll(t: string, table: seq<(string, string)>): string
    requires NonEmptyKeys(table)
    decreases |table|
  {
    if table == [] then t else ReplaceAll(ReplaceWord(t, 0, table[0].0, table[0].1), table[1..])
  }

  lemma {:induction false} ReplaceAllNoAscii(t: string, table: seq<(string, string)>)
    requires NonEmptyKeys(table) && NoWordChars(t)
    ensures ReplaceAll(t, table) == t
  {
    if table != [] {
      ReplaceWordNoAscii(t, 0, table[0].0, table[0].1);
      assert t[0..] == t;
      ReplaceAllNoAscii(t, table[1..]);
    }
  }

  lemma ReplacementKeys()
    ensures NonEmptyKeys(Replacements)
  {
  }

  /** The replacement loop of `normalizeTranscription`, over any table. */
  method ApplyReplacements(text: string, table: seq<(string, string)>) returns (r: string)
    requires NonEmptyKeys(table)
    ensures r == ReplaceAll(text, table)
    ensures NoWordChars(text) ==> r == text
  {
    r := text;
    for k := 0 to |table|
      invariant NonEmptyKeys(table[k..])
      invariant ReplaceAll(r, table[k..]) == ReplaceAll(text, table)
    {
      assert table[k..][1..] == table[k + 1..];
      r := ReplaceWord(r, 0, table[k].0, table[k].1);
    }
    assert table[|table|..] == [];
    if NoWordChars(text) {
      ReplaceAllNoAscii(text, table);
    }
  }

  // ---------------------------------------------------------------------
  // The clean-up chain

  /** `.replace(/\s+/g, ' ')` from `i` on. */
  function CollapseWs(s: string, i: nat): (r: string)
    requires i <= |s|
    ensures OnlySpaces(r) && NoDoubleSpace(r)
    ensures |r| > 0 <==> i < |s|
    ensures |r| > 0 ==> (IsSpace(r[0]) <==> IsSpace(s[i]))
    decreases |s| - i
  {
    if i == |s| then ""
    else if IsSpace(s[i]) then " " + CollapseWs(s, SpanSpace(s, i))
    else [s[i]] + CollapseWs(s, i + 1)
  }

  /** A run of whitespace starts at `i` and is followed by punctuation. */
  predicate PunctAfterSpaces(s: string, i: nat)
    requires i < |s|
  {
    IsSpace(s[i]) && SpanSpace(s, i) < |s| && IsPunct(s[SpanSpace(s, i)])
  }

  /** `.replace(/\s+([.,!?])/g, '$1')` from `i` on. */
  function DropSpaceBeforePunct(s: string, i: nat): (r: string)
    requires i <= |s|
    ensures NoSpaceBeforePunct(r)
    ensures OnlySpaces(s) ==> OnlySpaces(r)
    ensures OnlySpaces(s) && NoDoubleSpace(s) ==> NoDoubleSpace(r)
    ensures |r| > 0 <==> i < |s|
    ensures |r| > 0 ==> r[0] == if PunctAfterSpaces(s, i) then s[SpanSpace(s, i)] else s[i]
    decreases |s| - i
  {
    if i == |s| then ""
    else if PunctAfterSpaces(s, i) then [s[SpanSpace(s, i)]] + DropSpaceBeforePunct(s, SpanSpace(s, i) + 1)
    else [s[i]] + DropSpaceBeforePunct(s, i + 1)
  }

  /** End of the run of copies of `s[i]` that starts at `i`. */
  function SpanSame(s: string, i: nat, c: char): (j: nat)
    requires i <= |s|
    ensures i <= j <= |s|
    ensures forall k :: i <= k < j ==> s[k] == c
    ensures j == |s| || s[j] != c
    decreases |s| - i
  {
    if i == |s| || s[i] != c then i else SpanSame(s, i + 1, c)
  }

  /** Putting one character in front keeps a string tidy when the new pair is fine. */
  lemma TidyCons(c: char, t: string)
    requires Tidy(t) && (IsSpace(c) ==> c == ' ')
    requires |t| > 0 ==> PairOk(c, t[0])
    ensures Tidy([c] + t)
  {
    TidyConcat([c], t);
  }

  /** No two neighbouring characters form a pair `bad` rejects. */
  predicate NoPair(t: string, bad: (char, char) -> bool)
  {
    forall k :: 0 <= k < |t| - 1 ==> !bad(t[k], t[k + 1])
  }

  lemma NoPairCons(c: char, t: string, bad: (char, char) -> bool)
    requires NoPair(t, bad) && (|t| > 0 ==> !bad(c, t[0]))
    ensures NoPair([c] + t, bad)
  {
    var u := [c] + t;
    forall k | 0 <= k < |u| - 1
      ensures !bad(u[k], u[k + 1])
    {
      if k > 0 {
        assert u[k] == t[k - 1] && u[k + 1] == t[k];
      }
    }
  }

  lemma NoPairTail(t: string, bad: (char, char) -> bool)
    requires NoPair(t, bad) && |t| > 0
    ensures NoPair(t[1..], bad)
  {
    var u := t[1..];
    assert forall k :: 0 <= k < |u| ==> u[k] == t[k + 1];
  }

  /** The characters of `t` that `keep` accepts, in order. */
  function Filter(t: string, keep: char -> bool): (r: string)
    ensures |r| <= |t|
  {
    if t == [] then [] else (if keep(t[0]) then [t[0]] else []) + Filter(t[1..], keep)
  }

  lemma {:induction false} FilterConcat(a: string, b: string, keep: char -> bool)
    ensures Filter(a + b, keep) == Filter(a, keep) + Filter(b, keep)
  {
    if a == [] {
      assert a + b == b;
    } else {
      var h := if keep(a[0]) then [a[0]] else [];
      assert (a + b)[0] == a[0] && (a + b)[1..] == a[1..] + b;
      assert Filter(a + b, keep) == h + Filter(a[1..] + b, keep);
      assert Filter(a, keep) == h + Filter(a[1..], keep);
      FilterConcat(a[1..], b, keep);
      assert h + (Filter(a[1..], keep) + Filter(b, keep)) == (h + Filter(a[1..], keep)) + Filter(b, keep);
    }
  }

  lemma {:induction false} FilterNone(t: string, keep: char -> bool)
    requires forall k :: 0 <= k < |t| ==> !keep(t[k])
    ensures Filter(t, keep) == []
  {
    if t != [] {
      assert forall k :: 0 <= k < |t| - 1 ==> t[1..][k] == t[k + 1];
      FilterNone(t[1..], keep);
    }
  }

  /** Splitting `s[i..]` after its first character. */
  lemma FilterFirst(s: string, i: nat, keep: char -> bool)
    requires i < |s|
    ensures Filter(s[i..], keep) == Filter([s[i]], keep) + Filter(s[i + 1..], keep)
  {
    assert s[i..] == [s[i]] + s[i + 1..];
    FilterConcat([s[i]], s[i + 1..], keep);
  }

  /** Splitting `s[i..]` at `j`. */
  lemma FilterSplit(s: string, i: nat, j: nat, keep: char -> bool)
    requires i <= j <= |s|
    ensures Filter(s[i..], keep) == Filter(s[i..j], keep) + Filter(s[j..], keep)
  {
    assert s[i..] == s[i..j] + s[j..];
    FilterConcat(s[i..j], s[j..], keep);
  }

  /** A run of dropped characters replaced by its first one drops out the same. */
  lemma RunDropped(s: string, i: nat, j: nat, rest: string, keep: char -> bool)
    requires i < j <= |s| && forall k :: i <= k < j ==> !keep(s[k])
    requires Filter(rest, keep) == Filter(s[j..], keep)
    ensures Filter([s[i]] + rest, keep) == Filter(s[i..], keep)
  {
    FilterConcat([s[i]], rest, keep);
    FilterOne(s[i], keep);
    FilterSplit(s, i, j, keep);
    FilterNone(s[i..j], keep);
  }

  predicate QuotePair(a: char, b: char)
  {
    a == '"' && b == '"'
  }

  predicate NotQuote(c: char)
  {
    c != '"'
  }

  /** `.replace(/"+/g, '"')` from `i` on. */
  function CollapseQuotes(s: string, i: nat): (r: string)
    requires i <= |s|
    ensures |r| > 0 <==> i < |s|
    ensures |r| > 0 ==> r[0] == s[i]
    decreases |s| - i
  {
    if i == |s| then ""
    else if s[i] == '"' then "\"" + CollapseQuotes(s, SpanSame(s, i, '"'))
    else [s[i]] + CollapseQuotes(s, i + 1)
  }

  lemma {:induction false} CollapseQuotesTidy(s: string, i: nat)
    requires i <= |s| && Tidy(s)
    ensures Tidy(CollapseQuotes(s, i))
    decreases |s| - i
  {
    if i < |s| {
      if s[i] == '"' {
        CollapseQuotesTidy(s, SpanSame(s, i, '"'));
        TidyCons('"', CollapseQuotes(s, SpanSame(s, i, '"')));
      } else {
        CollapseQuotesTidy(s, i + 1);
        if i + 1 < |s| {
          assert PairOk(s[i], s[i + 1]);
        }
        TidyCons(s[i], CollapseQuotes(s, i + 1));
      }
    }
  }

  /** After the quote rewrite no two quotes are neighbours. */
  lemma {:induction false} CollapseQuotesNoPair(s: string, i: nat)
    requires i <= |s|
    ensures NoPair(CollapseQuotes(s, i), QuotePair)
    decreases |s| - i
  {
    if i < |s| {
      if s[i] == '"' {
        CollapseQuotesNoPair(s, SpanSame(s, i, '"'));
        NoPairCons('"', CollapseQuotes(s, SpanSame(s, i, '"')), QuotePair);
      } else {
        CollapseQuotesNoPair(s, i + 1);
        NoPairCons(s[i], CollapseQuotes(s, i + 1), QuotePair);
      }
    }
  }

  /** Only quotes are dropped: every other character is kept, in order. */
  lemma {:induction false} CollapseQuotesKeeps(s: string, i: nat)
    requires i <= |s|
    ensures Filter(CollapseQuotes(s, i), NotQuote) == Filter(s[i..], NotQuote)
    decreases |s| - i
  {
    if i < |s| {
      if s[i] == '"' {
        var j := SpanSame(s, i, '"');
        CollapseQuotesKeeps(s, j);
        RunDropped(s, i, j, CollapseQuotes(s, j), NotQuote);
      } else {
        CollapseQuotesKeeps(s, i + 1);
        FilterConcat([s[i]], CollapseQuotes(s, i + 1), NotQuote);
        FilterFirst(s, i, NotQuote);
      }
    }
  }

  /** Text with no doubled quote is left as it is. */
  lemma {:induction false} CollapseQuotesKeepsSingle(s: string, i: nat)
    requires i <= |s| && NoPair(s, QuotePair)
    ensures CollapseQuotes(s, i) == s[i..]
    decreases |s| - i
  {
    if i < |s| {
      CollapseQuotesKeepsSingle(s, i + 1);
      if s[i] == '"' {
        assert i + 1 == |s| || !QuotePair(s[i], s[i + 1]);
        assert SpanSame(s, i, '"') == i + 1;
      }
      assert s[i..] == [s[i]] + s[i + 1..];
    }
  }

  /** Collapsing quotes twice is collapsing them once. */
  lemma CollapseQuotesIdempotent(s: string)
    ensures CollapseQuotes(CollapseQuotes(s, 0), 0) == CollapseQuotes(s, 0)
  {
    var t := CollapseQuotes(s, 0);
    CollapseQuotesNoPair(s, 0);
    CollapseQuotesKeepsSingle(t, 0);
    assert t[0..] == t;
  }

  predicate PunctLetterPair(a: char, b: char)
  {
    IsPunct(a) && IsLetter(b)
  }

  predicate NotPlainSpace(c: char)
  {
    c != ' '
  }

  /** `.replace(/([.,!?])([А-ЯЁа-яёA-Za-z])/g, '$1 $2')` from `i` on. */
  function SpaceAfterPunct(s: string, i: nat): (r: string)
    requires i <= |s|
    ensures |r| > 0 <==> i < |s|
    ensures |r| > 0 ==> r[0] == s[i]
    decreases |s| - i
  {
    if i == |s| then ""
    else if i + 1 < |s| && IsPunct(s[i]) && IsLetter(s[i + 1]) then [s[i], ' ', s[i + 1]] + SpaceAfterPunct(s, i + 2)
    else [s[i]] + SpaceAfterPunct(s, i + 1)
  }

  lemma {:induction false} SpaceAfterPunctTidy(s: string, i: nat)
    requires i <= |s| && Tidy(s)
    ensures Tidy(SpaceAfterPunct(s, i))
    decreases |s| - i
  {
    if i < |s| {
      if i + 1 < |s| && IsPunct(s[i]) && IsLetter(s[i + 1]) {
        var rest := SpaceAfterPunct(s, i + 2);
        SpaceAfterPunctTidy(s, i + 2);
        if i + 2 < |s| {
          assert PairOk(s[i + 1], s[i + 2]);
        }
        TidyCons(s[i + 1], rest);
        TidyCons(' ', [s[i + 1]] + rest);
        TidyCons(s[i], [' '] + ([s[i + 1]] + rest));
        assert [s[i], ' ', s[i + 1]] + rest == [s[i]] + ([' '] + ([s[i + 1]] + rest));
      } else {
        SpaceAfterPunctTidy(s, i + 1);
        if i + 1 < |s| {
          assert PairOk(s[i], s[i + 1]);
        }
        TidyCons(s[i], SpaceAfterPunct(s, i + 1));
      }
    }
  }

  /** After the rewrite no punctuation mark stands directly before a letter. */
  lemma {:induction false} SpaceAfterPunctNoPair(s: string, i: nat)
    requires i <= |s|
    ensures NoPair(SpaceAfterPunct(s, i), PunctLetterPair)
    decreases |s| - i
  {
    if i < |s| {
      if i + 1 < |s| && IsPunct(s[i]) && IsLetter(s[i + 1]) {
        var rest := SpaceAfterPunct(s, i + 2);
        SpaceAfterPunctNoPair(s, i + 2);
        NoPairCons(s[i + 1], rest, PunctLetterPair);
        NoPairCons(' ', [s[i + 1]] + rest, PunctLetterPair);
        NoPairCons(s[i], [' '] + ([s[i + 1]] + rest), PunctLetterPair);
        assert [s[i], ' ', s[i + 1]] + rest == [s[i]] + ([' '] + ([s[i + 1]] + rest));
      } else {
        SpaceAfterPunctNoPair(s, i + 1);
        NoPairCons(s[i], SpaceAfterPunct(s, i + 1), PunctLetterPair);
      }
    }
  }

  /** Only spaces are added: with the plain spaces taken out, the text is unchanged. */
  lemma {:induction false} SpaceAfterPunctKeeps(s: string, i: nat)
    requires i <= |s|
    ensures Filter(SpaceAfterPunct(s, i), NotPlainSpace) == Filter(s[i..], NotPlainSpace)
    decreases |s| - i
  {
    if i < |s| {
      if i + 1 < |s| && IsPunct(s[i]) && IsLetter(s[i + 1]) {
        var rest := SpaceAfterPunct(s, i + 2);
        SpaceAfterPunctKeeps(s, i + 2);
        SpacedPairKeeps(s, i, rest);
      } else {
        SpaceAfterPunctKeeps(s, i + 1);
        FilterConcat([s[i]], SpaceAfterPunct(s, i + 1), NotPlainSpace);
        FilterFirst(s, i, NotPlainSpace);
      }
    }
  }

  lemma SpacedPairKeeps(s: string, i: nat, rest: string)
    requires i + 1 < |s| && IsPunct(s[i]) && IsLetter(s[i + 1])
    requires Filter(rest, NotPlainSpace) == Filter(s[i + 2..], NotPlainSpace)
    ensures Filter([s[i], ' ', s[i + 1]] + rest, NotPlainSpace) == Filter(s[i..], NotPlainSpace)
  {
    FilterSpaced(s[i], s[i + 1], rest);
    FilterUnspaced(s, i);
  }

  lemma FilterSpaced(x: char, y: char, rest: string)
    requires x != ' ' && y != ' '
    ensures Filter([x, ' ', y] + rest, NotPlainSpace) == [x, y] + Filter(rest, NotPlainSpace)
  {
    var t, t1, t2 := [x, ' ', y] + rest, [' ', y] + rest, [y] + rest;
    assert t[0] == x && t[1..] == t1;
    assert t1[0] == ' ' && t1[1..] == t2;
    assert t2[0] == y && t2[1..] == rest;
    assert Filter(t2, NotPlainSpace) == [y] + Filter(rest, NotPlainSpace);
    assert Filter(t1, NotPlainSpace) == Filter(t2, NotPlainSpace);
  }

  lemma FilterUnspaced(s: string, i: nat)
    requires i + 1 < |s| && s[i] != ' ' && s[i + 1] != ' '
    ensures Filter(s[i..], NotPlainSpace) == [s[i], s[i + 1]] + Filter(s[i + 2..], NotPlainSpace)
  {
    var u, u1 := s[i..], s[i + 1..];
    assert u[0] == s[i] && u[1..] == u1;
    assert u1[0] == s[i + 1] && u1[1..] == s[i + 2..];
    assert Filter(u1, NotPlainSpace) == [s[i + 1]] + Filter(s[i + 2..], NotPlainSpace);
  }

  lemma FilterOne(c: char, keep: char -> bool)
    ensures Filter([c], keep) == if keep(c) then [c] else []
  {
    assert [c][1..] == [];
  }

  /** Text where no punctuation touches a letter is left as it is. */
  lemma {:induction false} SpaceAfterPunctKeepsSpaced(s: string, i: nat)
    requires i <= |s| && NoPair(s, PunctLetterPair)
    ensures SpaceAfterPunct(s, i) == s[i..]
    decreases |s| - i
  {
    if i < |s| {
      SpaceAfterPunctKeepsSpaced(s, i + 1);
      assert i + 1 == |s| || !PunctLetterPair(s[i], s[i + 1]);
      assert s[i..] == [s[i]] + s[i + 1..];
    }
  }

  /** Spacing punctuation twice is spacing it once. */
  lemma SpaceAfterPunctIdempotent(s: string)
    ensures SpaceAfterPunct(SpaceAfterPunct(s, 0), 0) == SpaceAfterPunct(s, 0)
  {
    var t := SpaceAfterPunct(s, 0);
    SpaceAfterPunctNoPair(s, 0);
    SpaceAfterPunctKeepsSpaced(t, 0);
    assert t[0..] == t;
  }

  predicate SamePunctPair(a: char, b: char)
  {
    IsPunct(a) && b == a
  }

  predicate NotPunct(c: char)
  {
    !IsPunct(c)
  }

  /** `.replace(/([.,!?])\1+/g, '$1')` from `i` on. */
  function CollapsePunctRuns(s: string, i: nat): (r: string)
    requires i <= |s|
    ensures |r| > 0 <==> i < |s|
    ensures |r| > 0 ==> r[0] == s[i]
    decreases |s| - i
  {
    if i == |s| then ""
    else if i + 1 < |s| && IsPunct(s[i]) && s[i + 1] == s[i] then [s[i]] + CollapsePunctRuns(s, SpanSame(s, i, s[i]))
    else [s[i]] + CollapsePunctRuns(s, i + 1)
  }

  lemma {:induction false} CollapsePunctRunsTidy(s: string, i: nat)
    requires i <= |s| && Tidy(s)
    ensures Tidy(CollapsePunctRuns(s, i))
    decreases |s| - i
  {
    if i < |s| {
      if i + 1 < |s| && IsPunct(s[i]) && s[i + 1] == s[i] {
        CollapsePunctRunsTidy(s, SpanSame(s, i, s[i]));
        TidyCons(s[i], CollapsePunctRuns(s, SpanSame(s, i, s[i])));
      } else {
        CollapsePunctRunsTidy(s, i + 1);
        if i + 1 < |s| {
          assert PairOk(s[i], s[i + 1]);
        }
        TidyCons(s[i], CollapsePunctRuns(s, i + 1));
      }
    }
  }

  /** After the rewrite no punctuation mark is followed by the same mark. */
  lemma {:induction false} CollapsePunctRunsNoPair(s: string, i: nat)
    requires i <= |s|
    ensures NoPair(CollapsePunctRuns(s, i), SamePunctPair)
    decreases |s| - i
  {
    if i < |s| {
      if i + 1 < |s| && IsPunct(s[i]) && s[i + 1] == s[i] {
        CollapsePunctRunsNoPair(s, SpanSame(s, i, s[i]));
        NoPairCons(s[i], CollapsePunctRuns(s, SpanSame(s, i, s[i])), SamePunctPair);
      } else {
        CollapsePunctRunsNoPair(s, i + 1);
        NoPairCons(s[i], CollapsePunctRuns(s, i + 1), SamePunctPair);
      }
    }
  }

  /** Only punctuation is dropped: every other character is kept, in order. */
  lemma {:induction false} CollapsePunctRunsKeeps(s: string, i: nat)
    requires i <= |s|
    ensures Filter(CollapsePunctRuns(s, i), NotPunct) == Filter(s[i..], NotPunct)
    decreases |s| - i
  {
    if i < |s| {
      if i + 1 < |s| && IsPunct(s[i]) && s[i + 1] == s[i] {
        var j := SpanSame(s, i, s[i]);
        CollapsePunctRunsKeeps(s, j);
        RunDropped(s, i, j, CollapsePunctRuns(s, j), NotPunct);
      } else {
        CollapsePunctRunsKeeps(s, i + 1);
        FilterConcat([s[i]], CollapsePunctRuns(s, i + 1), NotPunct);
        FilterFirst(s, i, NotPunct);
      }
    }
  }

  /** Text with no doubled punctuation mark is left as it is. */
  lemma {:induction false} CollapsePunctRunsKeepsSingle(s: string, i: nat)
    requires i <= |s| && NoPair(s, SamePunctPair)
    ensures CollapsePunctRuns(s, i) == s[i..]
    decreases |s| - i
  {
    if i < |s| {
      CollapsePunctRunsKeepsSingle(s, i + 1);
      assert i + 1 == |s| || !SamePunctPair(s[i], s[i + 1]);
      assert s[i..] == [s[i]] + s[i + 1..];
    }
  }

  /** Collapsing punctuation runs twice is collapsing them once. */
  lemma CollapsePunctRunsIdempotent(s: string)
    ensures CollapsePunctRuns(CollapsePunctRuns(s, 0), 0) == CollapsePunctRuns(s, 0)
  {
    var t := CollapsePunctRuns(s, 0);
    CollapsePunctRunsNoPair(s, 0);
    CollapsePunctRunsKeepsSingle(t, 0);
    assert t[0..] == t;
  }

  /** End of the run of `\w` characters that starts at `i`. */
  function SpanWord(s: string, i: nat): (j: nat)
    requires i <= |s|
    ensures i <= j <= |s|
    ensures forall k :: i <= k < j ==> IsWordChar(s[k])
    ensures j == |s| || !IsWordChar(s[j])
    decreases |s| - i
  {
    if i == |s| || !IsWordChar(s[i]) then i else SpanWord(s, i + 1)
  }

  /**
   * End of the repetitions `(\s+\1\b)+` of the word `s[i..q]` that follow
   * position `e`; `e` itself when there is none.
   */
  function RepeatEnd(s: string, i: nat, q: nat, e: nat): (r: nat)
    requires i <= q <= e <= |s|
    ensures e <= r <= |s|
    ensures r > e ==> r == |s| || !IsWordChar(s[r])
    decreases |s| - e
  {
    var j := SpanSpace(s, e);
    var n := q - i;
    if j > e && j + n <= |s| && s[j..j + n] == s[i..q] && n > 0 && (j + n == |s| || !IsWordChar(s[j + n])) then
      RepeatEnd(s, i, q, j + n)
    else e
  }

  /** A `\b\w` position: a word character with none before it. */
  predicate WordStart(s: string, i: nat)
    requires i < |s|
  {
    IsWordChar(s[i]) && (i == 0 || !IsWordChar(s[i - 1]))
  }

  /** `.replace(/\b(\w+)(\s+\1\b)+/g, '$1')` from `i` on (ASCII, case-sensitive). */
  function CollapseRepeatedWords(s: string, i: nat): (r: string)
    requires i <= |s|
    ensures |r| > 0 <==> i < |s|
    ensures |r| > 0 ==> r[0] == s[i]
    decreases |s| - i
  {
    if i == |s| then ""
    else if WordStart(s, i) && RepeatEnd(s, i, SpanWord(s, i), SpanWord(s, i)) > SpanWord(s, i) then
      s[i..SpanWord(s, i)] + CollapseRepeatedWords(s, RepeatEnd(s, i, SpanWord(s, i), SpanWord(s, i)))
    else [s[i]] + CollapseRepeatedWords(s, i + 1)
  }

  lemma {:induction false} CollapseRepeatedWordsTidy(s: string, i: nat)
    requires i <= |s| && Tidy(s)
    ensures Tidy(CollapseRepeatedWords(s, i))
    decreases |s| - i
  {
    if i < |s| {
      var q := SpanWord(s, i);
      if WordStart(s, i) && RepeatEnd(s, i, q, q) > q {
        var e := RepeatEnd(s, i, q, q);
        CollapseRepeatedWordsTidy(s, e);
        TidySlice(s, i, q);
        assert !IsSpace(s[q - 1]);
        TidyConcat(s[i..q], CollapseRepeatedWords(s, e));
      } else {
        CollapseRepeatedWordsTidy(s, i + 1);
        if i + 1 < |s| {
          assert PairOk(s[i], s[i + 1]);
        }
        TidyCons(s[i], CollapseRepeatedWords(s, i + 1));
      }
    }
  }

  /** The repetitions found after `e` end no earlier than the first one. */
  lemma RepeatEndPast(s: string, i: nat, q: nat, e: nat)
    requires i < q <= e <= |s|
    requires SpanSpace(s, e) > e && SpanSpace(s, e) + (q - i) <= |s|
    requires s[SpanSpace(s, e)..SpanSpace(s, e) + (q - i)] == s[i..q]
    requires SpanSpace(s, e) + (q - i) == |s| || !IsWordChar(s[SpanSpace(s, e) + (q - i)])
    ensures RepeatEnd(s, i, q, e) >= SpanSpace(s, e) + (q - i)
  {
  }

  /**
   * A word followed by whitespace and the same word, ending where a word
   * ends, collapses: the word is kept once, and the scan resumes at or past
   * the end of that repetition.
   */
  lemma RepeatedWordCollapses(s: string, i: nat, q: nat, j: nat)
    requires i < |s| && WordStart(s, i)
    requires q == SpanWord(s, i) && j == SpanSpace(s, q)
    requires j > q && j + (q - i) <= |s| && s[j..j + (q - i)] == s[i..q]
    requires j + (q - i) == |s| || !IsWordChar(s[j + (q - i)])
    ensures exists e :: j + (q - i) <= e <= |s| && CollapseRepeatedWords(s, i) == s[i..q] + CollapseRepeatedWords(s, e)
  {
    RepeatEndPast(s, i, q, q);
    var e := RepeatEnd(s, i, q, q);
    assert CollapseRepeatedWords(s, i) == s[i..q] + CollapseRepeatedWords(s, e);
  }

  /** A word, whitespace, and the same word again: only the word is left. */
  lemma RepeatedWordPair(w: string, sp: string)
    requires |w| > 0 && forall k :: 0 <= k < |w| ==> IsWordChar(w[k])
    requires |sp| > 0 && AllSpace(sp)
    ensures CollapseRepeatedWords(w + sp + w, 0) == w
  {
    var s := w + sp + w;
    var n, j := |w|, |w| + |sp|;
    PairShape(w, sp);
    RepeatedWordCollapses(s, 0, n, j);
    var e :| j + n <= e <= |s| && CollapseRepeatedWords(s, 0) == s[0..n] + CollapseRepeatedWords(s, e);
    assert e == |s|;
  }

  /** Where the word and the whitespace of `w + sp + w` end. */
  lemma PairShape(w: string, sp: string)
    requires |w| > 0 && forall k :: 0 <= k < |w| ==> IsWordChar(w[k])
    requires |sp| > 0 && AllSpace(sp)
    ensures SpanWord(w + sp + w, 0) == |w| && SpanSpace(w + sp + w, |w|) == |w| + |sp|
    ensures (w + sp + w)[0..|w|] == w && (w + sp + w)[|w| + |sp|..] == w
  {
    var s := w + sp + w;
    var n, j := |w|, |w| + |sp|;
    assert forall k :: 0 <= k < n ==> s[k] == w[k];
    assert forall k :: n <= k < j ==> s[k] == sp[k - n];
    assert s[j] == w[0] && s[n] == sp[0];
    SpanWordUpTo(s, 0, n);
    SpanSpaceUpTo(s, n, j);
    assert s[0..n] == w;
    assert s[j..] == w;
  }

  lemma {:induction false} SpanWordUpTo(s: string, i: nat, n: nat)
    requires i <= n < |s| && !IsWordChar(s[n])
    requires forall k :: i <= k < n ==> IsWordChar(s[k])
    ensures SpanWord(s, i) == n
    decreases n - i
  {
    if i < n {
      SpanWordUpTo(s, i + 1, n);
    }
  }

  lemma {:induction false} SpanSpaceUpTo(s: string, i: nat, n: nat)
    requires i <= n < |s| && !IsSpace(s[n])
    requires forall k :: i <= k < n ==> IsSpace(s[k])
    ensures SpanSpace(s, i) == n
    decreases n - i
  {
    if i < n {
      SpanSpaceUpTo(s, i + 1, n);
    }
  }

  /** Only ASCII words collapse, and only with the same case: "go go" does, "Go go" does not. */
  lemma RepeatedWordsExamples()
    ensures CollapseRepeatedWords("go go", 0) == "go"
    ensures CollapseRepeatedWords("Go go", 0) == "Go go"
  {
    SameCaseCollapses();
    OtherCaseStays();
  }

  lemma SameCaseCollapses()
    ensures CollapseRepeatedWords("go go", 0) == "go"
  {
    var s := "go go";
    assert SpanWord(s, 5) == 5 && SpanWord(s, 4) == 5 && SpanWord(s, 3) == 5;
    assert SpanWord(s, 2) == 2 && SpanWord(s, 1) == 2 && SpanWord(s, 0) == 2;
    assert SpanSpace(s, 3) == 3 && SpanSpace(s, 2) == 3;
    assert s[3..5] == s[0..2];
    assert SpanSpace(s, 5) == 5;
    assert RepeatEnd(s, 0, 2, 5) == 5;
    assert RepeatEnd(s, 0, 2, 2) == 5;
    assert CollapseRepeatedWords(s, 5) == "";
  }

  lemma OtherCaseStays()
    ensures CollapseRepeatedWords("Go go", 0) == "Go go"
  {
    var t := "Go go";
    OtherCaseMiddle();
    OtherCaseNoRepeat();
    assert CollapseRepeatedWords(t, 0) == [t[0]] + CollapseRepeatedWords(t, 1);
    assert [t[0]] + "o go" == t;
  }

  /** "go" is not a repetition of "Go". */
  lemma OtherCaseNoRepeat()
    ensures SpanWord("Go go", 0) == 2 && RepeatEnd("Go go", 0, 2, 2) == 2
  {
    var t := "Go go";
    assert SpanWord(t, 2) == 2 && SpanWord(t, 1) == 2;
    assert SpanSpace(t, 3) == 3 && SpanSpace(t, 2) == 3;
    assert t[3..5] != t[0..2];
  }

  /** From the second letter of "Go go" on, nothing collapses. */
  lemma OtherCaseMiddle()
    ensures CollapseRepeatedWords("Go go", 1) == "o go"
  {
    var t := "Go go";
    OtherCaseTail();
    assert !WordStart(t, 1) && !WordStart(t, 2);
    assert CollapseRepeatedWords(t, 2) == " go";
  }

  /** The second word of "Go go" has nothing after it to collapse with. */
  lemma OtherCaseTail()
    ensures CollapseRepeatedWords("Go go", 3) == "go"
  {
    var t := "Go go";
    assert SpanWord(t, 5) == 5 && SpanWord(t, 4) == 5 && SpanWord(t, 3) == 5;
    assert SpanSpace(t, 5) == 5;
    assert RepeatEnd(t, 3, 5, 5) == 5;
    assert CollapseRepeatedWords(t, 5) == "";
    assert CollapseRepeatedWords(t, 4) == "o";
  }

  /** Trimming keeps a tidy string tidy. */
  lemma TrimTidy(t: string)
    requires Tidy(t)
    ensures Tidy(Trim(t))
  {
    TrimSlice(t);
    var a, b :| 0 <= a <= b <= |t| && Trim(t) == t[a..b] && AllSpace(t[..a]) && AllSpace(t[b..]);
    TidySlice(t, a, b);
  }

  /** The chain of regular-expression replacements after the table. */
  function TidyChain(t: string): string
  {
    var t2 := CollapseWs(t, 0);
    var t3 := DropSpaceBeforePunct(t2, 0);
    var t4 := CollapseQuotes(t3, 0);
    var t5 := SpaceAfterPunct(t4, 0);
    var t6 := CollapsePunctRuns(t5, 0);
    CollapseRepeatedWords(t6, 0)
  }

  /** Whatever the input, the chain leaves single plain spaces, none before punctuation. */
  lemma TidyChainTidy(t: string)
    ensures Tidy(TidyChain(t))
  {
    var t2 := CollapseWs(t, 0);
    var t3 := DropSpaceBeforePunct(t2, 0);
    var t4 := CollapseQuotes(t3, 0);
    var t5 := SpaceAfterPunct(t4, 0);
    var t6 := CollapsePunctRuns(t5, 0);
    CollapseQuotesTidy(t3, 0);
    SpaceAfterPunctTidy(t4, 0);
    CollapsePunctRunsTidy(t5, 0);
    CollapseRepeatedWordsTidy(t6, 0);
  }

  /**
   * `normalizeTranscription`: the table, then the chain, then `trim`. The
   * result is trimmed, its whitespace is single plain spaces, and no space
   * precedes `.`, `,`, `!` or `?`.
   */
  method NormalizeTranscription(text: string) returns (r: string)
    ensures r == Trim(TidyChain(ReplaceAll(text, Replacements)))
    ensures Trimmed(r) && OnlySpaces(r) && NoDoubleSpace(r) && NoSpaceBeforePunct(r)
  {
    ReplacementKeys();
    var normalizedText := ApplyReplacements(text, Replacements);
    normalizedText := TidyChain(normalizedText);
    TidyChainTidy(ReplaceAll(text, Replacements));
    TrimTidy(normalizedText);
    r := Trim(normalizedText);
  }
}
