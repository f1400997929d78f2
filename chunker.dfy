/**
 * The sentence chunker of project/src/lib/transcription.ts
 * (`splitTextForAnalysis`): the transcript is cut after `.`, `!` or `?`
 * followed by whitespace, and the sentences are packed greedily into chunks
 * of about 16000 characters for the analysis model.
 */
module Chunker {
  import opened Text

  const MaxChunkSize: nat := 16000

  predicate IsTerminator(c: char)
  {
    c == '.' || c == '!' || c == '?'
  }

  /** Position `k` starts a match of `(?<=[.!?])\s+`. */
  predicate BreakAt(s: string, k: nat)
    requires k < |s|
  {
    k > 0 && IsTerminator(s[k - 1]) && IsSpace(s[k])
  }

  /** First position at or after `i` where a sentence break starts, or `|s|`. */
  function FindBreak(s: string, i: nat): (k: nat)
    requires i <= |s|
    ensures i <= k <= |s|
    ensures k < |s| ==> BreakAt(s, k)
    ensures forall m :: i <= m < k ==> !BreakAt(s, m)
    decreases |s| - i
  {
    if i == |s| || BreakAt(s, i) then i else FindBreak(s, i + 1)
  }

  /** Total length of a list of strings. */
  function SumLen(ss: seq<string>): nat
  {
    if ss == [] then 0 else |ss[0]| + SumLen(ss[1..])
  }

  lemma {:induction false} SumLenAppend(a: seq<string>, b: seq<string>)
    ensures SumLen(a + b) == SumLen(a) + SumLen(b)
  {
    if a == [] {
      assert a + b == b;
    } else {
      assert (a + b)[1..] == a[1..] + b;
      SumLenAppend(a[1..], b);
    }
  }

  /**
   * `text.split(/(?<=[.!?])\s+/)`. Every piece but the last ends with a
   * terminator, and the pieces together with one character per separator
   * never outgrow the text (each separator is at least one whitespace).
   */
  function SplitSentences(s: string): (r: seq<string>)
    ensures |r| >= 1
    ensures SumLen(r) + |r| - 1 <= |s|
    ensures forall k :: 0 <= k < |r| - 1 ==> |r[k]| > 0 && IsTerminator(r[k][|r[k]| - 1])
    ensures (forall m :: 0 <= m < |s| ==> !IsTerminator(s[m])) ==> r == [s]
    decreases |s|
  {
    var k := FindBreak(s, 0);
    if k == |s| then [s]
    else
      var j := SpanSpace(s, k);
      var rest := SplitSentences(s[j..]);
      assert SumLen([s[..k]] + rest) == k + SumLen(rest) by {
        assert ([s[..k]] + rest)[1..] == rest;
      }
      [s[..k]] + rest
  }

  /** The whitespace runs `SplitSentences` cuts out, in order. */
  function Separators(s: string): (seps: seq<string>)
    ensures forall k :: 0 <= k < |seps| ==> |seps[k]| > 0 && AllSpace(seps[k])
    decreases |s|
  {
    var k := FindBreak(s, 0);
    if k == |s| then []
    else
      var j := SpanSpace(s, k);
      [s[k..j]] + Separators(s[j..])
  }

  /** The pieces with the separators put back between them. */
  function Woven(pieces: seq<string>, seps: seq<string>): string
    requires |pieces| == |seps| + 1
  {
    if seps == [] then pieces[0] else pieces[0] + seps[0] + Woven(pieces[1..], seps[1..])
  }

  /** No sentence break starts inside `p`. */
  predicate NoBreak(p: string)
  {
    forall m :: 0 <= m < |p| ==> !BreakAt(p, m)
  }

  /**
   * `split` is undone by putting the separators back: the text is its
   * pieces with one non-empty whitespace run between each two. No piece
   * holds a break, every piece but the first starts after the whole
   * whitespace run, and every piece but the last ends with a terminator,
   * so each cut sits exactly at a break.
   */
  lemma {:induction false} SplitRoundTrip(s: string)
    ensures |Separators(s)| == |SplitSentences(s)| - 1
    ensures Woven(SplitSentences(s), Separators(s)) == s
    ensures forall k :: 0 <= k < |SplitSentences(s)| ==> NoBreak(SplitSentences(s)[k])
    ensures forall k :: 0 < k < |SplitSentences(s)| ==>
      SplitSentences(s)[k] == "" || !IsSpace(SplitSentences(s)[k][0])
    decreases |s|
  {
    var k := FindBreak(s, 0);
    if k == |s| {
      forall m | 0 <= m < |s|
        ensures !BreakAt(s, m)
      {
      }
    } else {
      var j := SpanSpace(s, k);
      var t := s[j..];
      SplitRoundTrip(t);
      var r, rest := SplitSentences(s), SplitSentences(t);
      assert r == [s[..k]] + rest;
      assert Separators(s) == [s[k..j]] + Separators(t);
      WovenCons(s, k, j, rest, Separators(t));
      PrefixNoBreak(s, k);
      forall i | 0 < i < |r|
        ensures NoBreak(r[i])
      {
        assert r[i] == rest[i - 1];
      }
      forall i | 0 < i < |r|
        ensures r[i] == "" || !IsSpace(r[i][0])
      {
        assert r[i] == rest[i - 1];
        if i == 1 && rest[0] != "" {
          RestStart(t);
          assert j < |s| && t[0] == s[j];
        }
      }
      assert forall i :: 0 < i < |r| ==> r[i] == rest[i - 1];
    }
  }

  lemma WovenCons(s: string, k: nat, j: nat, rest: seq<string>, seps: seq<string>)
    requires k <= j <= |s| && |rest| == |seps| + 1 && Woven(rest, seps) == s[j..]
    ensures Woven([s[..k]] + rest, [s[k..j]] + seps) == s
  {
    var r := [s[..k]] + rest;
    assert r[1..] == rest;
    assert ([s[k..j]] + seps)[1..] == seps;
    assert s[..k] + s[k..j] == s[..j];
    assert s[..j] + s[j..] == s;
  }

  /** The text before the first break holds no break. */
  lemma PrefixNoBreak(s: string, k: nat)
    requires k <= |s| && forall m :: 0 <= m < k ==> !BreakAt(s, m)
    ensures NoBreak(s[..k])
  {
    var p := s[..k];
    forall m | 0 <= m < |p|
      ensures !BreakAt(p, m)
    {
      assert !BreakAt(s, m);
      if m > 0 {
        assert p[m - 1] == s[m - 1];
      }
      assert p[m] == s[m];
    }
  }

  /** The first piece is a prefix of the text. */
  lemma RestStart(t: string)
    requires SplitSentences(t)[0] != ""
    ensures |t| > 0 && SplitSentences(t)[0][0] == t[0]
  {
    var k := FindBreak(t, 0);
    if k < |t| {
      assert SplitSentences(t)[0] == t[..k];
    }
  }

  /** `cur += (cur ? ' ' : '') + sentence`. */
  function Append(cur: string, sentence: string): string
  {
    if cur == "" then sentence else cur + " " + sentence
  }

  /** The text a group of sentences becomes when appended one by one. */
  function Glue(g: seq<string>): string
  {
    if g == [] then "" else Append(Glue(g[..|g| - 1]), g[|g| - 1])
  }

  function Concat(gs: seq<seq<string>>): seq<string>
  {
    if gs == [] then [] else Concat(gs[..|gs| - 1]) + gs[|gs| - 1]
  }

  /** The test of the loop: `sentence` may join a chunk whose text is `cur`. */
  predicate Fits(cur: string, sentence: string)
  {
    cur == "" || |cur + sentence| <= MaxChunkSize
  }

  /** Inside a group, every sentence was added because it still fitted. */
  predicate Packed(g: seq<string>)
  {
    |g| <= 1 || (Packed(g[..|g| - 1]) && Fits(Glue(g[..|g| - 1]), g[|g| - 1]))
  }

  /**
   * What the chunker produces, stated on the groups of sentences behind the
   * chunks: the groups cover the sentences in order (only empty sentences
   * may be left over at the end), no group glues to "", each group was
   * packed while sentences fitted, and a group was closed only because the
   * next sentence did not fit.
   */
  predicate GreedyPacking(sentences: seq<string>, groups: seq<seq<string>>)
  {
    var covered := Concat(groups);
    |covered| <= |sentences| && covered == sentences[..|covered|]
    && (forall k :: |covered| <= k < |sentences| ==> sentences[k] == "")
    && Closed(groups)
  }

  /** A finished group: non-empty, with non-empty text, packed. */
  predicate GoodGroup(g: seq<string>)
  {
    |g| > 0 && Glue(g) != "" && Packed(g)
  }

  /** Each group is good, and each was closed because the next sentence did not fit. */
  predicate Closed(groups: seq<seq<string>>)
  {
    var n := |groups|;
    n == 0 ||
    (Closed(groups[..n - 1]) && GoodGroup(groups[n - 1])
     && (n > 1 ==> |Glue(groups[n - 2]) + groups[n - 1][0]| > MaxChunkSize))
  }

  /** What `Closed` says about one group and its successor. */
  lemma {:induction false} ClosedAt(groups: seq<seq<string>>, k: nat)
    requires Closed(groups) && k < |groups|
    ensures GoodGroup(groups[k])
    ensures k + 1 < |groups| ==> GoodGroup(groups[k + 1]) && |Glue(groups[k]) + groups[k + 1][0]| > MaxChunkSize
  {
    var n := |groups|;
    if k + 1 < n {
      ClosedAt(groups[..n - 1], k);
      assert groups[..n - 1][k] == groups[k];
      if k + 2 < n {
        assert groups[..n - 1][k + 1] == groups[k + 1];
      }
    }
  }

  lemma {:induction false} GlueEmpty(g: seq<string>)
    ensures Glue(g) == "" <==> forall k :: 0 <= k < |g| ==> g[k] == ""
  {
    if g != [] {
      GlueEmpty(g[..|g| - 1]);
      assert forall k :: 0 <= k < |g| - 1 ==> g[..|g| - 1][k] == g[k];
    }
  }

  /** Appending one sentence to the group being built keeps it packed. */
  lemma PackedExtend(g: seq<string>, s: string)
    requires Packed(g) && Fits(Glue(g), s)
    ensures Packed(g + [s])
    ensures Glue(g + [s]) == Append(Glue(g), s)
  {
    assert (g + [s])[..|g|] == g;
  }

  /** A group's text is at most 16001 long, unless it is one sentence. */
  lemma GroupSize(g: seq<string>)
    requires |g| > 0 && Packed(g)
    ensures |Glue(g)| <= MaxChunkSize + 1 || Glue(g) == g[|g| - 1]
  {
    var m := |g| - 1;
    if m > 0 {
      assert g[..m] == g[..|g| - 1];
    } else {
      assert g[..0] == [];
    }
  }

  lemma {:induction false} GlueLength(g: seq<string>)
    requires |g| > 0
    ensures |Glue(g)| <= SumLen(g) + |g| - 1
  {
    var n := |g|;
    SumLenAppend(g[..n - 1], [g[n - 1]]);
    assert g[..n - 1] + [g[n - 1]] == g;
    assert SumLen([g[n - 1]]) == |g[n - 1]| by { assert [g[n - 1]][1..] == []; }
    if n > 1 {
      GlueLength(g[..n - 1]);
    }
  }

  lemma {:induction false} ConcatFront(gs: seq<seq<string>>)
    requires |gs| >= 2
    ensures exists rest :: Concat(gs) == gs[0] + gs[1] + rest
  {
    var n := |gs|;
    if n == 2 {
      assert gs[..1][..0] == [];
      assert Concat(gs[..1]) == [] + gs[0];
      assert Concat(gs) == gs[0] + gs[1] + [];
    } else {
      ConcatFront(gs[..n - 1]);
      var rest :| Concat(gs[..n - 1]) == gs[..n - 1][0] + gs[..n - 1][1] + rest;
      assert Concat(gs) == gs[0] + gs[1] + (rest + gs[n - 1]);
    }
  }

  /** The first group and the next sentence fit in the sentences' own length. */
  lemma {:induction false} FrontLength(sentences: seq<string>, groups: seq<seq<string>>)
    requires |groups| >= 2 && |groups[0]| > 0 && |groups[1]| > 0
    requires |Concat(groups)| <= |sentences| && Concat(groups) == sentences[..|Concat(groups)|]
    ensures |Glue(groups[0])| + |groups[1][0]| + 1 <= SumLen(sentences) + |sentences| - 1
  {
    ConcatFront(groups);
    var rest :| Concat(groups) == groups[0] + groups[1] + rest;
    var covered := Concat(groups);
    assert sentences == covered + sentences[|covered|..];
    SumLenAppend(covered, sentences[|covered|..]);
    SumLenAppend(groups[0] + groups[1], rest);
    SumLenAppend(groups[0], groups[1]);
    assert groups[1] == [groups[1][0]] + groups[1][1..];
    SumLenAppend([groups[1][0]], groups[1][1..]);
    assert SumLen([groups[1][0]]) == |groups[1][0]| by { assert [groups[1][0]][1..] == []; }
    GlueLength(groups[0]);
  }

  /**
   * Sentences that fit in 16000 characters with one separator between each
   * two are never cut: the first group would have been closed only if it and
   * the next sentence did not fit, but both are among those sentences.
   */
  lemma ShortTextOneGroup(sentences: seq<string>, groups: seq<seq<string>>)
    requires SumLen(sentences) + |sentences| - 1 <= MaxChunkSize
    requires GreedyPacking(sentences, groups)
    ensures |groups| <= 1
  {
    if |groups| >= 2 {
      ClosedAt(groups, 0);
      ClosedAt(groups, 1);
      FrontLength(sentences, groups);
      assert false;
    }
  }

  /** Non-empty groups cover at least one sentence each. */
  lemma {:induction false} ConcatLength(groups: seq<seq<string>>)
    requires Closed(groups)
    ensures |Concat(groups)| >= |groups|
  {
    if groups != [] {
      ConcatLength(groups[..|groups| - 1]);
    }
  }

  lemma ConcatSnoc(gs: seq<seq<string>>, g: seq<string>)
    ensures Concat(gs + [g]) == Concat(gs) + g
  {
    assert (gs + [g])[..|gs|] == gs;
  }

  lemma CloseGroup(groups: seq<seq<string>>, group: seq<string>)
    requires Closed(groups)
    requires GoodGroup(group)
    requires |groups| > 0 ==> |Glue(groups[|groups| - 1]) + group[0]| > MaxChunkSize
    ensures Closed(groups + [group])
  {
    var gs := groups + [group];
    assert gs[..|groups|] == groups;
  }

  /** The chunks pushed for a list of groups: each group's text, trimmed. */
  function ChunkTexts(groups: seq<seq<string>>): (r: seq<string>)
    ensures |r| == |groups|
    ensures forall k :: 0 <= k < |groups| ==> r[k] == Trim(Glue(groups[k]))
  {
    if groups == [] then [] else ChunkTexts(groups[..|groups| - 1]) + [Trim(Glue(groups[|groups| - 1]))]
  }

  /** Every chunk is at most 16001 long, unless it is a single sentence. */
  lemma ChunkSizes(groups: seq<seq<string>>)
    requires Closed(groups)
    ensures forall k :: 0 <= k < |groups| ==>
      |ChunkTexts(groups)[k]| <= MaxChunkSize + 1 || ChunkTexts(groups)[k] == Trim(groups[k][|groups[k]| - 1])
  {
    forall k | 0 <= k < |groups|
      ensures |ChunkTexts(groups)[k]| <= MaxChunkSize + 1 || ChunkTexts(groups)[k] == Trim(groups[k][|groups[k]| - 1])
    {
      ClosedAt(groups, k);
      GroupSize(groups[k]);
    }
  }

  /**
   * The state of the packing loop after `i` sentences: closed groups and
   * the group being built cover the sentences read so far.
   */
  predicate Building(sentences: seq<string>, i: nat, groups: seq<seq<string>>, group: seq<string>)
  {
    i <= |sentences| && Packed(group)
    && Concat(groups) + group == sentences[..i]
    && (|groups| > 0 ==> |group| > 0)
    && Closed(groups)
    && (|groups| > 0 ==> |Glue(groups[|groups| - 1]) + group[0]| > MaxChunkSize)
  }

  /** The next sentence still fits (or the group has no text yet): it joins the group. */
  lemma ExtendStep(sentences: seq<string>, i: nat, groups: seq<seq<string>>, group: seq<string>)
    requires Building(sentences, i, groups, group) && i < |sentences|
    requires Glue(group) == "" || |Glue(group) + sentences[i]| <= MaxChunkSize
    ensures Building(sentences, i + 1, groups, group + [sentences[i]])
    ensures Glue(group + [sentences[i]]) == Append(Glue(group), sentences[i])
  {
    PackedExtend(group, sentences[i]);
    PrefixSnoc(sentences, i);
    assert Concat(groups) + (group + [sentences[i]]) == sentences[..i + 1];
  }

  /** Closing a group with text, once the next sentence does not fit. */
  lemma CloseGroupAt(sentences: seq<string>, i: nat, groups: seq<seq<string>>, group: seq<string>)
    requires Building(sentences, i, groups, group)
    requires Glue(group) != ""
    ensures Concat(groups + [group]) == sentences[..i]
    ensures Closed(groups + [group])
    ensures ChunkTexts(groups + [group]) == ChunkTexts(groups) + [Trim(Glue(group))]
  {
    assert |group| > 0;
    CloseGroup(groups, group);
    ConcatSnoc(groups, group);
    assert (groups + [group])[..|groups|] == groups;
  }

  /** The next sentence does not fit: the group is closed and a new one started. */
  lemma CloseStep(sentences: seq<string>, i: nat, groups: seq<seq<string>>, group: seq<string>)
    requires Building(sentences, i, groups, group) && i < |sentences|
    requires Glue(group) != "" && |Glue(group) + sentences[i]| > MaxChunkSize
    ensures Building(sentences, i + 1, groups + [group], [sentences[i]])
    ensures ChunkTexts(groups + [group]) == ChunkTexts(groups) + [Trim(Glue(group))]
    ensures Glue([sentences[i]]) == sentences[i]
  {
    var g, s := groups + [group], sentences[i];
    CloseGroupAt(sentences, i, groups, group);
    GlueOne(s);
    PrefixSnoc(sentences, i);
    assert |Glue(g[|g| - 1]) + [s][0]| > MaxChunkSize by {
      assert g[|g| - 1] == group;
    }
  }

  /** A group of one sentence glues to that sentence. */
  lemma GlueOne(s: string)
    ensures Glue([s]) == s && Packed([s])
  {
    assert [s][..0] == [];
  }

  /** After the last sentence, the group being built is closed if it has text. */
  lemma FinishPacking(sentences: seq<string>, groups: seq<seq<string>>, group: seq<string>)
    requires Building(sentences, |sentences|, groups, group)
    ensures Glue(group) != "" ==>
      (GreedyPacking(sentences, groups + [group])
       && ChunkTexts(groups + [group]) == ChunkTexts(groups) + [Trim(Glue(group))])
    ensures Glue(group) == "" ==> GreedyPacking(sentences, groups)
  {
    assert sentences[..|sentences|] == sentences;
    if Glue(group) != "" {
      CloseGroupAt(sentences, |sentences|, groups, group);
    } else {
      GlueEmpty(group);
      assert sentences == Concat(groups) + group;
    }
  }

  /**
   * The loop of `splitTextForAnalysis` as a function: the chunks it ends
   * with when it resumes at sentence `i` with `chunks` pushed and `current`
   * under construction.
   */
  function PackFrom(sentences: seq<string>, i: nat, chunks: seq<string>, current: string): seq<string>
    requires i <= |sentences|
    decreases |sentences| - i
  {
    if i == |sentences| then
      (if |current| > 0 then chunks + [Trim(current)] else chunks)
    else if |current + sentences[i]| > MaxChunkSize && |current| > 0 then
      PackFrom(sentences, i + 1, chunks + [Trim(current)], sentences[i])
    else
      PackFrom(sentences, i + 1, chunks, Append(current, sentences[i]))
  }

  lemma PackFromClose(sentences: seq<string>, i: nat, chunks: seq<string>, current: string)
    requires i < |sentences| && |current + sentences[i]| > MaxChunkSize && |current| > 0
    ensures PackFrom(sentences, i, chunks, current) == PackFrom(sentences, i + 1, chunks + [Trim(current)], sentences[i])
  {
  }

  lemma PackFromExtend(sentences: seq<string>, i: nat, chunks: seq<string>, current: string)
    requires i < |sentences| && !(|current + sentences[i]| > MaxChunkSize && |current| > 0)
    ensures PackFrom(sentences, i, chunks, current) == PackFrom(sentences, i + 1, chunks, Append(current, sentences[i]))
  {
  }

  /** One pass of the loop over the sentences: the sentence joins the chunk, or closes it and starts the next. */
  method PackSentence(sentences: seq<string>, i: nat, chunks: seq<string>, current: string,
                      ghost groups: seq<seq<string>>, ghost group: seq<string>)
    returns (chunks': seq<string>, current': string, ghost groups': seq<seq<string>>, ghost group': seq<string>)
    requires Building(sentences, i, groups, group) && i < |sentences|
    requires current == Glue(group) && chunks == ChunkTexts(groups)
    ensures Building(sentences, i + 1, groups', group')
    ensures current' == Glue(group') && chunks' == ChunkTexts(groups')
    ensures PackFrom(sentences, i + 1, chunks', current') == PackFrom(sentences, i, chunks, current)
  {
    var sentence := sentences[i];
    if |current + sentence| > MaxChunkSize && |current| > 0 {
      CloseStep(sentences, i, groups, group);
      PackFromClose(sentences, i, chunks, current);
      chunks' := chunks + [Trim(current)];
      groups' := groups + [group];
      group' := [sentence];
      current' := sentence;
    } else {
      ExtendStep(sentences, i, groups, group);
      PackFromExtend(sentences, i, chunks, current);
      group' := group + [sentence];
      current' := Append(current, sentence);
      chunks', groups' := chunks, groups;
    }
  }

  /** The loop over the sentences, up to the last push. */
  method PackLoop(sentences: seq<string>)
    returns (chunks: seq<string>, current: string, ghost groups: seq<seq<string>>, ghost group: seq<string>)
    ensures Building(sentences, |sentences|, groups, group)
    ensures current == Glue(group) && chunks == ChunkTexts(groups)
    ensures PackFrom(sentences, |sentences|, chunks, current) == PackFrom(sentences, 0, [], "")
  {
    chunks := [];
    groups := [];
    current := "";
    group := [];
    ghost var target := PackFrom(sentences, 0, chunks, current);
    var i := 0;
    while i < |sentences|
      invariant Building(sentences, i, groups, group)
      invariant current == Glue(group)
      invariant chunks == ChunkTexts(groups)
      invariant PackFrom(sentences, i, chunks, current) == target
    {
      chunks, current, groups, group := PackSentence(sentences, i, chunks, current, groups, group);
      i := i + 1;
    }
  }

  /**
   * `splitTextForAnalysis` on the sentences of a text: greedy packing, each
   * chunk the trimmed text of its group.
   */
  method Pack(sentences: seq<string>) returns (chunks: seq<string>, ghost groups: seq<seq<string>>)
    ensures chunks == PackFrom(sentences, 0, [], "")
    ensures GreedyPacking(sentences, groups)
    ensures chunks == ChunkTexts(groups)
  {
    var current;
    ghost var group;
    chunks, current, groups, group := PackLoop(sentences);
    FinishPacking(sentences, groups, group);
    if |current| > 0 {
      chunks := chunks + [Trim(current)];
      groups := groups + [group];
    }
  }

  /** The first group opens the covered sentences, and holds a non-empty one. */
  lemma {:induction false} ConcatFirst(groups: seq<seq<string>>)
    requires groups != []
    requires Closed(groups)
    ensures |groups[0]| <= |Concat(groups)| && Concat(groups)[..|groups[0]|] == groups[0]
    ensures exists k :: 0 <= k < |groups[0]| && groups[0][k] != ""
  {
    var n := |groups|;
    if n == 1 {
      assert groups[..0] == [];
      assert Concat(groups) == Concat(groups[..0]) + groups[0];
    } else {
      assert groups[..n - 1][0] == groups[0];
      ConcatFirst(groups[..n - 1]);
      assert Concat(groups) == Concat(groups[..n - 1]) + groups[n - 1];
    }
    ClosedAt(groups, 0);
    GlueEmpty(groups[0]);
  }

  /** An empty text has the one empty sentence, which no group can hold. */
  lemma EmptyTextNoGroups(groups: seq<seq<string>>)
    requires GreedyPacking([""], groups)
    ensures groups == []
  {
    if groups != [] {
      ConcatFirst(groups);
      assert false;
    }
  }

  /** A whitespace-only text is one sentence, which becomes one group. */
  lemma SpaceTextOneGroup(text: string, groups: seq<seq<string>>)
    requires text != ""
    requires GreedyPacking([text], groups)
    ensures groups == [[text]]
  {
    if |groups| == 0 {
      assert false;
    }
    ConcatLength(groups);
    assert |groups| == 1;
    assert groups[..0] == [];
    assert Concat(groups) == Concat(groups[..0]) + groups[0];
    assert groups[0] == [text];
    assert groups == [groups[0]];
  }

  /**
   * `splitTextForAnalysis(text)`. Every chunk is at most 16001 characters
   * (the size test omits the joining space) or a single sentence. Empty text
   * gives no chunk, a text of at most 16000 characters at most one, and a
   * text made only of whitespace one empty chunk.
   */
  method SplitTextForAnalysis(text: string) returns (chunks: seq<string>, ghost groups: seq<seq<string>>)
    ensures chunks == PackFrom(SplitSentences(text), 0, [], "")
    ensures GreedyPacking(SplitSentences(text), groups)
    ensures chunks == ChunkTexts(groups)
    ensures forall k :: 0 <= k < |chunks| ==>
      |chunks[k]| <= MaxChunkSize + 1 || chunks[k] == Trim(groups[k][|groups[k]| - 1])
    ensures text == "" ==> chunks == []
    ensures |text| <= MaxChunkSize ==> |chunks| <= 1
    ensures text != "" && AllSpace(text) ==> chunks == [""]
  {
    var sentences := SplitSentences(text);
    chunks, groups := Pack(sentences);
    ChunkSizes(groups);
    if |text| <= MaxChunkSize {
      ShortTextOneGroup(sentences, groups);
    }
    if text == "" {
      EmptyTextNoGroups(groups);
    }
    if text != "" && AllSpace(text) {
      assert sentences == [text];
      SpaceTextOneGroup(text, groups);
      assert Glue([text]) == text by { assert [text][..0] == []; }
    }
  }
}
