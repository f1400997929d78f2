/**
 * The transcript cleaner of project/src/lib/transcription.ts
 * (`cleanupTranscription`): the text is cut into sentences, repeated phrases
 * are dropped inside each sentence, and sentences too similar to an earlier
 * kept one are dropped.
 */
module Cleanup {
  import opened Text
  import opened Chunker

  /** Strictly above this bag-of-words similarity, two phrases count as repeats. */
  const Threshold: real := 0.8

  function SpanTerminators(s: string, i: nat): (j: nat)
    requires i <= |s|
    ensures i <= j <= |s|
    ensures forall k :: i <= k < j ==> IsTerminator(s[k])
    ensures j == |s| || !IsTerminator(s[j])
    decreases |s| - i
  {
    if i == |s| || !IsTerminator(s[i]) then i else SpanTerminators(s, i + 1)
  }

  function SpanNonTerminators(s: string, i: nat): (j: nat)
    requires i <= |s|
    ensures i <= j <= |s|
    ensures forall k :: i <= k < j ==> !IsTerminator(s[k])
    ensures j == |s| || IsTerminator(s[j])
    decreases |s| - i
  {
    if i == |s| || IsTerminator(s[i]) then i else SpanNonTerminators(s, i + 1)
  }

  /** `p` splits at `j` into a non-empty run of non-terminators and a non-empty run of terminators. */
  ghost predicate SplitsAt(p: string, j: int)
  {
    0 < j < |p|
    && (forall k :: 0 <= k < j ==> !IsTerminator(p[k]))
    && (forall k :: j <= k < |p| ==> IsTerminator(p[k]))
  }

  /** One match of `[^.!?]+[.!?]+`. */
  ghost predicate IsSentence(p: string)
  {
    exists j :: SplitsAt(p, j)
  }

  /** The strings of `ps` one after the other. */
  function Flatten(ps: seq<string>): string
  {
    if ps == [] then "" else ps[0] + Flatten(ps[1..])
  }

  /** One past the last terminator of `s`, or 0 when there is none. */
  function SentencesEnd(s: string): (e: nat)
    ensures e <= |s|
    ensures forall k :: e <= k < |s| ==> !IsTerminator(s[k])
    ensures e == 0 || IsTerminator(s[e - 1])
  {
    if |s| == 0 then 0
    else if IsTerminator(s[|s| - 1]) then |s|
    else SentencesEnd(s[..|s| - 1])
  }

  /** The last terminator is the only one with no terminator after it. */
  lemma SentencesEndUnique(s: string, e: nat)
    requires e <= |s|
    requires forall k :: e <= k < |s| ==> !IsTerminator(s[k])
    requires e == 0 || IsTerminator(s[e - 1])
    ensures e == SentencesEnd(s)
  {
  }

  /** Where the rest of the text after a match ends its sentences. */
  lemma SentencesEndAfter(s: string, c: nat)
    requires 0 < c <= |s| && IsTerminator(s[c - 1])
    ensures SentencesEnd(s) == c + SentencesEnd(s[c..])
  {
    var t := s[c..];
    var e := c + SentencesEnd(t);
    forall k | e <= k < |s|
      ensures !IsTerminator(s[k])
    {
      assert s[k] == t[k - c];
    }
    if SentencesEnd(t) > 0 {
      assert s[e - 1] == t[SentencesEnd(t) - 1];
    }
    SentencesEndUnique(s, e);
  }

  /**
   * `text.match(/[^.!?]+[.!?]+/g) || []`: every match is a run of
   * non-terminators followed by a run of terminators; the matches, one after
   * the other, are the text from its first non-terminator up to its last
   * terminator, so leading terminators and the text after the last
   * terminator are dropped.
   */
  function MatchSentences(s: string): (r: seq<string>)
    ensures forall k :: 0 <= k < |r| ==> IsSentence(r[k])
    ensures Flatten(r) + s[SentencesEnd(s)..] == s[SpanTerminators(s, 0)..]
    ensures (forall m :: 0 <= m < |s| ==> !IsTerminator(s[m])) ==> r == []
    decreases |s|
  {
    var a := SpanTerminators(s, 0);
    var b := SpanNonTerminators(s, a);
    if b == |s| then
      SentencesEndUnique(s, a);
      []
    else
      if a == b then
        // a terminator run follows the skipped one: impossible, both are maximal
        assert false; []
      else
        var c := SpanTerminators(s, b);
        var rest := MatchSentences(s[c..]);
        MatchStep(s, a, b, c, rest);
        [s[a..c]] + rest
  }

  /** The first match and the matches of the rest make up the sentences of `s`. */
  lemma MatchStep(s: string, a: nat, b: nat, c: nat, rest: seq<string>)
    requires a < b < c <= |s|
    requires forall k :: a <= k < b ==> !IsTerminator(s[k])
    requires forall k :: b <= k < c ==> IsTerminator(s[k])
    requires c == |s| || !IsTerminator(s[c])
    requires Flatten(rest) + s[c..][SentencesEnd(s[c..])..] == s[c..][SpanTerminators(s[c..], 0)..]
    requires forall k :: 0 <= k < |rest| ==> IsSentence(rest[k])
    ensures Flatten([s[a..c]] + rest) + s[SentencesEnd(s)..] == s[a..]
    ensures forall k :: 0 <= k < |[s[a..c]] + rest| ==> IsSentence(([s[a..c]] + rest)[k])
  {
    SentenceSlice(s, a, b, c);
    MatchesCons(s[a..c], rest);
    MatchFlatten(s, a, c, rest);
  }

  lemma MatchesCons(p: string, rest: seq<string>)
    requires IsSentence(p)
    requires forall k :: 0 <= k < |rest| ==> IsSentence(rest[k])
    ensures forall k :: 0 <= k < |[p] + rest| ==> IsSentence(([p] + rest)[k])
  {
    var r := [p] + rest;
    assert forall k :: 0 < k < |r| ==> r[k] == rest[k - 1];
  }

  lemma MatchFlatten(s: string, a: nat, c: nat, rest: seq<string>)
    requires a < c <= |s| && IsTerminator(s[c - 1])
    requires c == |s| || !IsTerminator(s[c])
    requires Flatten(rest) + s[c..][SentencesEnd(s[c..])..] == s[c..][SpanTerminators(s[c..], 0)..]
    ensures Flatten([s[a..c]] + rest) + s[SentencesEnd(s)..] == s[a..]
  {
    var t := s[c..];
    assert SpanTerminators(t, 0) == 0 by {
      if c < |s| {
        assert t[0] == s[c];
      }
    }
    assert t[0..] == t;
    FlattenCons(s, a, c, rest, SentencesEnd(t));
    SentencesEndAfter(s, c);
  }

  /** Non-terminators on `a .. b` then terminators on `b .. c` make one match. */
  lemma SentenceSlice(s: string, a: nat, b: nat, c: nat)
    requires a < b < c <= |s|
    requires forall k :: a <= k < b ==> !IsTerminator(s[k])
    requires forall k :: b <= k < c ==> IsTerminator(s[k])
    ensures IsSentence(s[a..c])
  {
    var p := s[a..c];
    forall k | 0 <= k < |p|
      ensures p[k] == s[a + k]
    {
    }
    assert SplitsAt(p, b - a);
  }

  lemma FlattenCons(s: string, a: nat, c: nat, rest: seq<string>, e: nat)
    requires a <= c <= |s| && e <= |s| - c
    requires Flatten(rest) + s[c..][e..] == s[c..]
    ensures Flatten([s[a..c]] + rest) + s[c + e..] == s[a..]
  {
    assert ([s[a..c]] + rest)[1..] == rest;
    assert s[c..][e..] == s[c + e..];
    assert s[a..c] + s[c..] == s[a..];
  }

  /** `intersection.length`: the words of `ws1`, repeats included, that occur in `ws2`. */
  function CountIn(ws1: seq<string>, ws2: seq<string>): (r: nat)
    ensures r <= |ws1|
    ensures (forall k :: 0 <= k < |ws1| ==> ws1[k] in ws2) ==> r == |ws1|
    ensures (forall k :: 0 <= k < |ws1| ==> ws1[k] !in ws2) ==> r == 0
  {
    if ws1 == [] then 0
    else CountIn(ws1[..|ws1| - 1], ws2) + (if ws1[|ws1| - 1] in ws2 then 1 else 0)
  }

  function Max(a: nat, b: nat): nat
  {
    if a >= b then a else b
  }

  /**
   * The bag-of-words `similarity`: the share of the first phrase's
   * lower-cased whitespace pieces found among the second's, over the larger
   * piece count.
   */
  function Similarity(a: string, b: string): (r: real)
    ensures 0.0 <= r <= 1.0
  {
    var words1 := SplitWs(Lower(a));
    var words2 := SplitWs(Lower(b));
    if |words1| == 0 || |words2| == 0 then 0.0
    else
      var n := Max(|words1|, |words2|);
      Share(CountIn(words1, words2), n)
  }

  /** `c / n` for a count `c` out of `n`. */
  function Share(c: nat, n: nat): (r: real)
    requires 0 < n && c <= n
    ensures 0.0 <= r <= 1.0
    ensures r == 1.0 <==> c == n
  {
    var q := c as real / n as real;
    assert q * n as real == c as real;
    q
  }

  /**
   * `similarity(a, b) > 0.8`, in whole numbers: more than four fifths of
   * the larger piece count is shared (`SimilarMeans`).
   */
  predicate Similar(a: string, b: string)
  {
    var words1, words2 := SplitWs(Lower(a)), SplitWs(Lower(b));
    |words1| > 0 && |words2| > 0 && 5 * CountIn(words1, words2) > 4 * Max(|words1|, |words2|)
  }

  /** A share of `c` out of `n` is above the threshold exactly when `5 * c > 4 * n`. */
  lemma ShareAbove(c: nat, n: nat)
    requires 0 < n && c <= n
    ensures Share(c, n) > Threshold <==> 5 * c > 4 * n
  {
    var q, total, count := Share(c, n), n as real, c as real;
    assert q * total == count;
    AboveByProduct(q, total, count);
  }

  /** `count / total > 0.8` exactly when `5 * count > 4 * total`, for a positive total. */
  lemma AboveByProduct(q: real, total: real, count: real)
    requires total > 0.0 && q * total == count
    ensures q > 0.8 <==> 5.0 * count > 4.0 * total
  {
    var d := q - 0.8;
    assert d * total == q * total - 0.8 * total;
    if q > 0.8 {
      assert d * total > 0.0;
    } else {
      assert -d * total >= 0.0;
    }
  }

  /** `Similar` is the source's test `similarity(a, b) > 0.8`. */
  lemma SimilarMeans(a: string, b: string)
    ensures Similar(a, b) <==> Similarity(a, b) > Threshold
  {
    var words1, words2 := SplitWs(Lower(a)), SplitWs(Lower(b));
    if |words1| > 0 && |words2| > 0 {
      ShareAbove(CountIn(words1, words2), Max(|words1|, |words2|));
    }
  }

  /** Every phrase is fully similar to itself. */
  lemma SimilaritySelf(a: string)
    ensures Similarity(a, a) == 1.0
  {
    var w := SplitWs(Lower(a));
    assert forall k :: 0 <= k < |w| ==> w[k] in w;
  }

  /** Similarity already ignores case, on either side. */
  lemma SimilarLower(a: string, b: string)
    ensures Similar(Lower(a), b) == Similar(a, b)
    ensures Similar(a, Lower(b)) == Similar(a, b)
  {
    LowerLower(a);
    LowerLower(b);
  }

  /** Similarity already ignores case, on either side. */
  lemma SimilarityLower(a: string, b: string)
    ensures Similarity(Lower(a), b) == Similarity(a, b)
    ensures Similarity(a, Lower(b)) == Similarity(a, b)
  {
    LowerLower(a);
    LowerLower(b);
  }

  lemma SplitTwoWords(c: char)
    requires c == 'x' || c == 'y'
    ensures SplitWs(Lower(['x', ' ', c])) == ["x", [c]]
  {
    var t := ['x', ' ', c];
    assert Lower(t) == t;
    assert SpanNonSpace([c], 1) == 1;
    assert SplitWs([c]) == [[c]];
    assert SpanNonSpace(t, 1) == 1;
    assert SpanNonSpace(t, 0) == 1;
    assert SpanSpace(t, 2) == 2;
    assert SpanSpace(t, 1) == 2;
    assert t[2..] == [c];
    assert t[..1] == "x";
    assert SplitWs(t) == [t[..1]] + SplitWs(t[2..]);
  }

  /** Repeats in the first phrase all count: "x x" is wholly similar to "x y". */
  lemma SimilarityRepeatsCount()
    ensures Similarity("x x", "x y") == 1.0
  {
    SplitTwoWords('x');
    SplitTwoWords('y');
  }

  /** ... while "x y" is only half similar to "x x": similarity is not symmetric. */
  lemma SimilarityNotSymmetric()
    ensures Similarity("x y", "x x") == 0.5
  {
    SplitTwoWords('x');
    SplitTwoWords('y');
    assert CountIn(["x", "y"], ["x", "x"]) == 1 by {
      assert ["x", "y"][..1] == ["x"];
      assert CountIn(["x"], ["x", "x"]) == 1;
    }
  }

  /** Some registered phrase repeats `phrase`. */
  predicate Repeats(phrase: string, used: seq<string>)
  {
    |used| > 0 && (Repeats(phrase, used[..|used| - 1]) || Similar(phrase, used[|used| - 1]))
  }

  /** `Repeats` is the search for a similar registered phrase. */
  lemma {:induction false} RepeatsExists(phrase: string, used: seq<string>)
    ensures Repeats(phrase, used) <==> exists u :: u in used && Similar(phrase, u)
  {
    if |used| > 0 {
      RepeatsExists(phrase, used[..|used| - 1]);
      MemberSnoc(used);
    }
  }

  /** `usedPhrases`' loop: does some registered phrase repeat `phrase`? */
  method AnySimilar(phrase: string, used: seq<string>) returns (found: bool)
    ensures found == Repeats(phrase, used)
    ensures found <==> exists u :: u in used && Similar(phrase, u)
  {
    found := false;
    var k := 0;
    while k < |used|
      invariant 0 <= k <= |used|
      invariant !Repeats(phrase, used[..k])
    {
      assert used[..k + 1][..k] == used[..k];
      SimilarMeans(phrase, used[k]);
      if Similarity(phrase, used[k]) > Threshold {
        found := true;
        break;
      }
      k := k + 1;
    }
    if !found {
      assert used[..k] == used;
    } else {
      RepeatsPrefix(phrase, used, k + 1);
    }
    RepeatsExists(phrase, used);
  }

  /** A repeat within a prefix of the registered phrases is a repeat. */
  lemma {:induction false} RepeatsPrefix(phrase: string, used: seq<string>, n: nat)
    requires n <= |used| && Repeats(phrase, used[..n])
    ensures Repeats(phrase, used)
    decreases |used| - n
  {
    if n < |used| {
      assert used[..n + 1][..n] == used[..n];
      RepeatsPrefix(phrase, used, n + 1);
    } else {
      assert used[..n] == used;
    }
  }

  /** `words.slice(i, i + len).join(' ').toLowerCase()`. */
  function Phrase(words: seq<string>, i: nat, len: nat): string
    requires i + len <= |words|
  {
    Lower(Join(" ", words[i..i + len]))
  }

  /** `Set.prototype.add` on a set kept in insertion order. */
  function Add(used: seq<string>, x: string): (r: seq<string>)
    ensures x in r
    ensures forall u :: u in r <==> u in used || u == x
  {
    if x in used then used else used + [x]
  }


  /**
   * The phrases the inner loop of `cleanSentence` tries at word `i`: one to
   * five words long, shortest first, none running past the last word.
   */
  function Candidates(words: seq<string>, i: nat): (ps: seq<string>)
    requires i < |words|
    ensures |ps| == if |words| - i < 5 then |words| - i else 5
    ensures forall k :: 0 <= k < |ps| ==> ps[k] == Phrase(words, i, k + 1)
  {
    var n := if |words| - i < 5 then |words| - i else 5;
    seq(n, k requires 0 <= k < n => Phrase(words, i, k + 1))
  }

  /**
   * The inner loop of `cleanSentence` over the candidate phrases `ps`, from
   * index `k` on, with `repeats` telling whether a phrase repeats a
   * registered one: whether the word is kept, and the registered phrases
   * after the loop.
   */
  function CheckFrom(ps: seq<string>, k: nat, used: seq<string>, repeats: (string, seq<string>) -> bool): (bool, seq<string>)
    decreases |ps| - k
  {
    if k >= |ps| then (true, used)
    else if repeats(ps[k], used) then (false, used)
    else CheckFrom(ps, k + 1, Add(used, ps[k]), repeats)
  }

  /** The registered phrases once the candidates before index `k` were added. */
  function Registered(ps: seq<string>, used: seq<string>, k: nat): seq<string>
    requires k <= |ps|
  {
    if k == 0 then used else Add(Registered(ps, used, k - 1), ps[k - 1])
  }

  /** Candidate `k` repeats a phrase registered before it. */
  predicate RejectsAt(ps: seq<string>, used: seq<string>, k: nat, repeats: (string, seq<string>) -> bool)
    requires k < |ps|
  {
    repeats(ps[k], Registered(ps, used, k))
  }

  /** Some candidate from index `k` on repeats a phrase registered before it. */
  ghost predicate RejectedFrom(ps: seq<string>, used: seq<string>, k: nat, repeats: (string, seq<string>) -> bool)
  {
    exists l :: k <= l < |ps| && RejectsAt(ps, used, l, repeats)
  }

  /** Candidate `l` is the first from index `k` on that repeats a phrase registered before it. */
  ghost predicate FirstReject(ps: seq<string>, used: seq<string>, k: nat, l: nat, repeats: (string, seq<string>) -> bool)
  {
    k <= l < |ps| && RejectsAt(ps, used, l, repeats) && forall m :: k <= m < l ==> !RejectsAt(ps, used, m, repeats)
  }

  /**
   * The word rule of `cleanSentence`, from candidate `k` on: the word is
   * dropped exactly when some candidate repeats a phrase registered before
   * it; the candidates before the first such one, or all of them, are
   * registered.
   */
  lemma {:induction false} CheckFromRule(ps: seq<string>, used: seq<string>, k: nat, repeats: (string, seq<string>) -> bool)
    requires k <= |ps|
    ensures !CheckFrom(ps, k, Registered(ps, used, k), repeats).0 <==> RejectedFrom(ps, used, k, repeats)
    ensures CheckFrom(ps, k, Registered(ps, used, k), repeats).0 ==>
      CheckFrom(ps, k, Registered(ps, used, k), repeats).1 == Registered(ps, used, |ps|)
    ensures !CheckFrom(ps, k, Registered(ps, used, k), repeats).0 ==>
      exists l :: FirstReject(ps, used, k, l, repeats) && CheckFrom(ps, k, Registered(ps, used, k), repeats).1 == Registered(ps, used, l)
    decreases |ps| - k
  {
    if k == |ps| {
      assert CheckFrom(ps, k, Registered(ps, used, k), repeats).0;
    } else if RejectsAt(ps, used, k, repeats) {
      assert FirstReject(ps, used, k, k, repeats);
    } else {
      CheckFromUnfold(ps, used, k, repeats);
      CheckFromRule(ps, used, k + 1, repeats);
      CheckFromStep(ps, used, k, repeats, CheckFrom(ps, k + 1, Registered(ps, used, k + 1), repeats));
    }
  }

  /** A candidate that repeats nothing is registered and the loop goes on. */
  lemma CheckFromUnfold(ps: seq<string>, used: seq<string>, k: nat, repeats: (string, seq<string>) -> bool)
    requires k < |ps| && !RejectsAt(ps, used, k, repeats)
    ensures CheckFrom(ps, k, Registered(ps, used, k), repeats) == CheckFrom(ps, k + 1, Registered(ps, used, k + 1), repeats)
  {
    assert Add(Registered(ps, used, k), ps[k]) == Registered(ps, used, k + 1);
  }

  /** The rule carries over from candidate `k + 1` to a candidate `k` that repeats nothing. */
  lemma CheckFromStep(ps: seq<string>, used: seq<string>, k: nat, repeats: (string, seq<string>) -> bool, out: (bool, seq<string>))
    requires k < |ps| && !RejectsAt(ps, used, k, repeats)
    requires !out.0 <==> RejectedFrom(ps, used, k + 1, repeats)
    requires out.0 ==> out.1 == Registered(ps, used, |ps|)
    requires !out.0 ==> exists l :: FirstReject(ps, used, k + 1, l, repeats) && out.1 == Registered(ps, used, l)
    ensures !out.0 <==> RejectedFrom(ps, used, k, repeats)
    ensures !out.0 ==> exists l :: FirstReject(ps, used, k, l, repeats) && out.1 == Registered(ps, used, l)
  {
    RejectedFromStep(ps, used, k, repeats);
    if !out.0 {
      var l :| FirstReject(ps, used, k + 1, l, repeats) && out.1 == Registered(ps, used, l);
      FirstRejectStep(ps, used, k, l, repeats);
    }
  }

  lemma RejectedFromStep(ps: seq<string>, used: seq<string>, k: nat, repeats: (string, seq<string>) -> bool)
    requires k < |ps| && !RejectsAt(ps, used, k, repeats)
    ensures RejectedFrom(ps, used, k, repeats) <==> RejectedFrom(ps, used, k + 1, repeats)
  {
    if RejectedFrom(ps, used, k, repeats) {
      var l :| k <= l < |ps| && RejectsAt(ps, used, l, repeats);
      assert k + 1 <= l;
    }
  }

  lemma FirstRejectStep(ps: seq<string>, used: seq<string>, k: nat, l: nat, repeats: (string, seq<string>) -> bool)
    requires k < |ps| && !RejectsAt(ps, used, k, repeats) && FirstReject(ps, used, k + 1, l, repeats)
    ensures FirstReject(ps, used, k, l, repeats)
  {
    forall m | k <= m < l
      ensures !RejectsAt(ps, used, m, repeats)
    {
      if m > k {
        assert k + 1 <= m < l;
      }
    }
  }

  /**
   * The inner loop of `cleanSentence` for word `i`: the phrases of one to
   * five words starting at `i` are checked in turn; each one that repeats
   * no registered phrase is registered, and the first one that does
   * rejects the word.
   */
  method CheckPhrases(words: seq<string>, i: nat, used: seq<string>) returns (shouldAdd: bool, used': seq<string>)
    requires i < |words|
    ensures (shouldAdd, used') == CheckFrom(Candidates(words, i), 0, used, Repeats)
    ensures !shouldAdd <==> RejectedFrom(Candidates(words, i), used, 0, Repeats)
    ensures shouldAdd ==> used' == Registered(Candidates(words, i), used, |Candidates(words, i)|)
    ensures !shouldAdd ==> exists l :: FirstReject(Candidates(words, i), used, 0, l, Repeats) && used' == Registered(Candidates(words, i), used, l)
  {
    shouldAdd := true;
    used' := used;
    ghost var ps := Candidates(words, i);
    ghost var target := CheckFrom(ps, 0, used, Repeats);
    var len := 1;
    while len <= 5 && i + len <= |words|
      invariant 1 <= len <= |ps| + 1
      invariant CheckFrom(ps, len - 1, used', Repeats) == target
    {
      var phrase := Phrase(words, i, len);
      assert phrase == ps[len - 1];
      var found := AnySimilar(phrase, used');
      if found {
        shouldAdd := false;
        break;
      }
      used' := Add(used', phrase);
      len := len + 1;
    }
    assert Registered(ps, used, 0) == used;
    CheckFromRule(ps, used, 0, Repeats);
  }

  /** The words of `xs` whose flag in `keep` is set, in order. */
  function Select<T>(xs: seq<T>, keep: seq<bool>): (r: seq<T>)
    requires |keep| == |xs|
    ensures |r| <= |xs|
  {
    if xs == [] then []
    else Select(xs[..|xs| - 1], keep[..|xs| - 1]) + (if keep[|xs| - 1] then [xs[|xs| - 1]] else [])
  }

  lemma SelectFirst<T>(xs: seq<T>, keep: seq<bool>)
    requires |keep| == |xs| && |xs| > 0 && keep[0]
    ensures |Select(xs, keep)| > 0 && Select(xs, keep)[0] == xs[0]
  {
    if |xs| > 1 {
      SelectFirst(xs[..|xs| - 1], keep[..|xs| - 1]);
    }
  }

  /** The phrases registered when word `i` of a sentence comes up. */
  function UsedBefore(words: seq<string>, i: nat): seq<string>
    requires 1 <= i <= |words|
    decreases i, 0
  {
    if i == 1 then [Lower(words[0])] else Verdict(words, i - 1).1
  }

  /** The phrase rule on word `i`: whether it is kept, and the phrases registered after it. */
  function Verdict(words: seq<string>, i: nat): (bool, seq<string>)
    requires 1 <= i < |words|
    decreases i, 1
  {
    CheckFrom(Candidates(words, i), 0, UsedBefore(words, i), Repeats)
  }

  /** Whether word `i` of a sentence is kept: the first always, the others by the phrase rule. */
  function KeepsWord(words: seq<string>, i: nat): bool
    requires i < |words|
  {
    i == 0 || Verdict(words, i).0
  }

  /** The keep flags of the words of a sentence. */
  function KeepFlags(words: seq<string>): (r: seq<bool>)
    ensures |r| == |words|
  {
    seq(|words|, k requires 0 <= k < |words| => KeepsWord(words, k))
  }

  /** What `cleanSentence` makes of a sentence: its kept words, joined by single spaces. */
  function CleanedSentence(sentence: string): (r: string)
    ensures |Words(sentence)| == 0 ==> r == sentence
    ensures |Words(sentence)| > 0 ==> StartsWith(r, Words(sentence)[0])
  {
    var words := Words(sentence);
    if |words| == 0 then sentence
    else
      var kept := Select(words, KeepFlags(words));
      SelectFirst(words, KeepFlags(words));
      JoinStartsWith(" ", kept);
      Join(" ", kept)
  }

  /**
   * The word rule of `cleanSentence`: a later word is dropped exactly when,
   * for some phrase length from 1 to 5, the phrase starting at it repeats
   * a phrase registered earlier in the sentence or a shorter phrase just
   * registered at the same word.
   */
  lemma WordRule(words: seq<string>, i: nat)
    requires 1 <= i < |words|
    ensures !KeepsWord(words, i) <==> RejectedFrom(Candidates(words, i), UsedBefore(words, i), 0, Repeats)
  {
    var u := UsedBefore(words, i);
    var ps := Candidates(words, i);
    assert Registered(ps, u, 0) == u;
    CheckFromRule(ps, u, 0, Repeats);
  }

  /**
   * `cleanSentence`: the first word is always kept; every later word is
   * kept or dropped as `CheckPhrases` decides, and the kept words are
   * joined by single spaces.
   */
  method CleanSentence(sentence: string) returns (r: string)
    ensures r == CleanedSentence(sentence)
  {
    var words := Words(sentence);
    if |words| == 0 {
      return sentence;
    }
    var result := KeptWords(words);
    r := Join(" ", result);
  }

  /** The word loop of `cleanSentence`: the words the phrase rule keeps, in order. */
  method KeptWords(words: seq<string>) returns (result: seq<string>)
    requires |words| > 0
    ensures result == Select(words, KeepFlags(words))
  {
    result := [words[0]];
    var usedPhrases := [Lower(words[0])];
    var i := 1;
    assert words[..1] == [words[0]] && KeepFlags(words)[..1] == [true];
    while i < |words|
      invariant 1 <= i <= |words|
      invariant usedPhrases == UsedBefore(words, i)
      invariant result == Select(words[..i], KeepFlags(words)[..i])
    {
      result, usedPhrases := WordStep(words, i, result, usedPhrases);
      i := i + 1;
    }
    assert words[..i] == words && KeepFlags(words)[..i] == KeepFlags(words);
  }

  /** One turn of the word loop: word `i` is judged and its phrases registered. */
  method WordStep(words: seq<string>, i: nat, result: seq<string>, used: seq<string>) returns (result': seq<string>, used': seq<string>)
    requires 1 <= i < |words| && used == UsedBefore(words, i)
    requires result == Select(words[..i], KeepFlags(words)[..i])
    ensures result' == Select(words[..i + 1], KeepFlags(words)[..i + 1])
    ensures used' == UsedBefore(words, i + 1)
  {
    var shouldAdd;
    shouldAdd, used' := CheckPhrases(words, i, used);
    PrefixSnoc(KeepFlags(words), i);
    PrefixSnoc(words, i);
    SelectSnoc(words[..i], KeepFlags(words)[..i], words[i], shouldAdd);
    result' := if shouldAdd then result + [words[i]] else result;
  }

  /** A string with a non-whitespace character has a first word. */
  lemma WordsNonEmpty(s: string)
    requires !AllSpace(s)
    ensures |Words(s)| > 0
  {
  }

  /** A matched sentence, trimmed, still has a first word (its terminator at least). */
  lemma SentenceHasWord(p: string)
    requires IsSentence(p)
    ensures |Words(Trim(p))| > 0
  {
    var j :| SplitsAt(p, j);
    assert IsTerminator(p[|p| - 1]);
    assert !IsSpace(p[|p| - 1]);
    var t := Trim(p);
    assert t != "";
    assert !IsSpace(t[0]);
    WordsNonEmpty(t);
  }

  /** A matched sentence never cleans to "": its first word survives. */
  lemma CleanedNonEmpty(p: string)
    requires IsSentence(p)
    ensures CleanedSentence(Trim(p)) != ""
  {
    SentenceHasWord(p);
  }

  /** What `cleanSentence` makes of each trimmed sentence, in order. */
  function CleanAll(sentences: seq<string>): (r: seq<string>)
    ensures |r| == |sentences|
  {
    seq(|sentences|, m requires 0 <= m < |sentences| => CleanedSentence(Trim(sentences[m])))
  }

  /** A cleaned sentence is kept iff it is non-empty and repeats no earlier kept one. */
  predicate KeptRule(cleaned: seq<string>, keep: seq<bool>)
  {
    |keep| == |cleaned|
    && forall m :: 0 <= m < |cleaned| ==>
      (keep[m] <==> cleaned[m] != "" && forall j :: 0 <= j < m && keep[j] ==> !Similar(cleaned[m], cleaned[j]))
  }

  lemma KeptStep(cleaned: seq<string>, keep: seq<bool>, c: string, kept: bool)
    requires KeptRule(cleaned, keep)
    requires kept <==> c != "" && forall j :: 0 <= j < |cleaned| && keep[j] ==> !Similar(c, cleaned[j])
    ensures KeptRule(cleaned + [c], keep + [kept])
  {
    var cs, ks := cleaned + [c], keep + [kept];
    forall m | 0 <= m < |cs|
      ensures ks[m] <==> cs[m] != "" && forall j :: 0 <= j < m && ks[j] ==> !Similar(cs[m], cs[j])
    {
      assert forall j :: 0 <= j < m ==> cs[j] == cleaned[j] && ks[j] == keep[j];
      if m < |cleaned| {
        assert cs[m] == cleaned[m] && ks[m] == keep[m];
      }
    }
  }

  lemma SelectSnoc<T>(xs: seq<T>, keep: seq<bool>, x: T, b: bool)
    requires |keep| == |xs|
    ensures Select(xs + [x], keep + [b]) == Select(xs, keep) + (if b then [x] else [])
  {
    assert (xs + [x])[..|xs|] == xs;
    assert (keep + [b])[..|xs|] == keep;
  }

  /** The `usedSentences` loop: does the cleaned sentence repeat a kept one? */
  method RepeatsUsed(cleaned: string, used: seq<string>) returns (isDuplicate: bool)
    ensures isDuplicate <==> exists u :: u in used && Similar(Lower(cleaned), Lower(u))
  {
    isDuplicate := false;
    var k := 0;
    while k < |used|
      invariant 0 <= k <= |used|
      invariant forall q :: 0 <= q < k ==> !Similar(Lower(cleaned), Lower(used[q]))
    {
      SimilarMeans(Lower(cleaned), Lower(used[k]));
      if Similarity(Lower(cleaned), Lower(used[k])) > Threshold {
        assert used[k] in used && Similar(Lower(cleaned), Lower(used[k]));
        isDuplicate := true;
        return;
      }
      k := k + 1;
    }
  }

  /** The registered sentences are the lower-cased kept ones. */
  ghost predicate UsedAreKept(used: seq<string>, cleaned: seq<string>, keep: seq<bool>)
    requires |keep| == |cleaned|
  {
    forall u :: u in used <==> exists j :: 0 <= j < |cleaned| && keep[j] && u == Lower(cleaned[j])
  }

  /** Repeating a registered sentence is repeating a kept one. */
  lemma RepeatsKept(c: string, used: seq<string>, cleaned: seq<string>, keep: seq<bool>)
    requires |keep| == |cleaned| && UsedAreKept(used, cleaned, keep)
    ensures (exists u :: u in used && Similar(Lower(c), Lower(u)))
      <==> exists j :: 0 <= j < |cleaned| && keep[j] && Similar(c, cleaned[j])
  {
    forall j | 0 <= j < |cleaned|
      ensures Similar(Lower(c), Lower(Lower(cleaned[j]))) == Similar(c, cleaned[j])
    {
      LowerLower(cleaned[j]);
      SimilarLower(c, Lower(cleaned[j]));
      SimilarLower(c, cleaned[j]);
    }
    if exists u :: u in used && Similar(Lower(c), Lower(u)) {
      var u :| u in used && Similar(Lower(c), Lower(u));
      var j :| 0 <= j < |cleaned| && keep[j] && u == Lower(cleaned[j]);
      assert Similar(c, cleaned[j]);
    }
    if exists j :: 0 <= j < |cleaned| && keep[j] && Similar(c, cleaned[j]) {
      var j :| 0 <= j < |cleaned| && keep[j] && Similar(c, cleaned[j]);
      assert Lower(cleaned[j]) in used;
    }
  }

  lemma UsedStep(used: seq<string>, cleaned: seq<string>, keep: seq<bool>, c: string, kept: bool)
    requires |keep| == |cleaned| && UsedAreKept(used, cleaned, keep)
    ensures UsedAreKept(if kept then Add(used, Lower(c)) else used, cleaned + [c], keep + [kept])
  {
    var cs, ks := cleaned + [c], keep + [kept];
    assert forall j :: 0 <= j < |cleaned| ==> cs[j] == cleaned[j] && ks[j] == keep[j];
    assert cs[|cleaned|] == c && ks[|cleaned|] == kept;
  }

  /**
   * The state of the sentence loop after `|cleaned|` sentences: `cleaned`
   * holds their cleaned texts, `keep` the verdicts `KeptRule` gives them,
   * `kept` the kept texts and `used` the registered, lower-cased ones.
   */
  ghost predicate Cleaning(sentences: seq<string>, cleaned: seq<string>, keep: seq<bool>, kept: seq<string>, used: seq<string>)
  {
    |cleaned| <= |sentences| && cleaned == CleanAll(sentences)[..|cleaned|]
    && KeptRule(cleaned, keep) && kept == Select(cleaned, keep)
    && UsedAreKept(used, cleaned, keep)
  }

  /**
   * One turn of the sentence loop: clean the next sentence and keep it
   * unless it is empty or repeats a sentence kept before.
   */
  method KeepSentence(sentences: seq<string>, m: nat, ghost cleaned: seq<string>, ghost keep: seq<bool>,
                      kept: seq<string>, used: seq<string>)
    returns (c: string, keeps: bool, kept': seq<string>, used': seq<string>)
    requires m == |cleaned| < |sentences| && IsSentence(sentences[m])
    requires Cleaning(sentences, cleaned, keep, kept, used)
    ensures c != "" && c == CleanAll(sentences)[m]
    ensures keeps <==> forall j :: 0 <= j < |cleaned| && keep[j] ==> !Similar(c, cleaned[j])
    ensures Cleaning(sentences, cleaned + [c], keep + [keeps], kept', used')
  {
    CleanedNonEmpty(sentences[m]);
    c := CleanSentence(Trim(sentences[m]));
    var isDuplicate := RepeatsUsed(c, used);
    keeps := !isDuplicate && |c| > 0;
    RepeatsKept(c, used, cleaned, keep);
    CleaningStep(sentences, cleaned, keep, kept, used, c, keeps);
    kept' := if keeps then kept + [c] else kept;
    used' := if keeps then Add(used, Lower(c)) else used;
  }

  /** The loop state after one more sentence, cleaned to `c` and kept or not by `keeps`. */
  lemma CleaningStep(sentences: seq<string>, cleaned: seq<string>, keep: seq<bool>, kept: seq<string>, used: seq<string>,
                     c: string, keeps: bool)
    requires |cleaned| < |sentences| && Cleaning(sentences, cleaned, keep, kept, used)
    requires c == CleanAll(sentences)[|cleaned|]
    requires keeps <==> c != "" && forall j :: 0 <= j < |cleaned| && keep[j] ==> !Similar(c, cleaned[j])
    ensures Cleaning(sentences, cleaned + [c], keep + [keeps], if keeps then kept + [c] else kept,
                     if keeps then Add(used, Lower(c)) else used)
  {
    PrefixSnoc(CleanAll(sentences), |cleaned|);
    KeptStep(cleaned, keep, c, keeps);
    UsedStep(used, cleaned, keep, c, keeps);
    SelectSnoc(cleaned, keep, c, keeps);
  }

  /** Every matched sentence cleans to a non-empty text. */
  lemma CleanAllNonEmpty(sentences: seq<string>)
    requires forall k :: 0 <= k < |sentences| ==> IsSentence(sentences[k])
    ensures forall m :: 0 <= m < |sentences| ==> CleanAll(sentences)[m] != ""
  {
    forall m | 0 <= m < |sentences|
      ensures CleanAll(sentences)[m] != ""
    {
      CleanedNonEmpty(sentences[m]);
    }
  }

  /**
   * `cleanupTranscription`: each matched sentence (so nothing after the
   * last terminator) is trimmed and cleaned, the cleaned sentences are kept
   * by `KeptRule`, and the kept ones are joined by spaces. No cleaned
   * sentence is empty, and text without a terminator cleans to "".
   */
  method CleanupTranscription(text: string) returns (r: string, ghost cleaned: seq<string>, ghost keep: seq<bool>)
    ensures |cleaned| == |MatchSentences(text)|
    ensures cleaned == CleanAll(MatchSentences(text))
    ensures forall m :: 0 <= m < |cleaned| ==> cleaned[m] != ""
    ensures KeptRule(cleaned, keep)
    ensures r == Trim(Join(" ", Select(cleaned, keep)))
    ensures (forall m :: 0 <= m < |text| ==> !IsTerminator(text[m])) ==> r == ""
  {
    var sentences := MatchSentences(text);
    var cleanedSentences: seq<string> := [];
    var usedSentences: seq<string> := [];
    cleaned, keep := [], [];
    var m := 0;
    while m < |sentences|
      invariant m == |cleaned| && Cleaning(sentences, cleaned, keep, cleanedSentences, usedSentences)
    {
      var c, kept;
      c, kept, cleanedSentences, usedSentences := KeepSentence(sentences, m, cleaned, keep, cleanedSentences, usedSentences);
      cleaned, keep := cleaned + [c], keep + [kept];
      m := m + 1;
    }
    CleaningDone(sentences, cleaned, keep, cleanedSentences, usedSentences);
    CleanAllNonEmpty(sentences);
    if sentences == [] {
      assert cleanedSentences == [];
    }
    r := Trim(Join(" ", cleanedSentences));
  }

  /** When every sentence has been seen, the loop has cleaned them all. */
  lemma CleaningDone(sentences: seq<string>, cleaned: seq<string>, keep: seq<bool>, kept: seq<string>, used: seq<string>)
    requires |cleaned| == |sentences| && Cleaning(sentences, cleaned, keep, kept, used)
    ensures cleaned == CleanAll(sentences)
  {
    assert CleanAll(sentences)[..|cleaned|] == CleanAll(sentences);
  }
}
