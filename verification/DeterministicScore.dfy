/** The keyword-overlap score and its blend with the embedding similarity, in exact arithmetic. */
module DeterministicScore {
  import opened RealArithmetic
  import opened Sequences
  import opened Keywords

  /** Rounding to the nearest integer, halves up. */
  function Round(x: real): int {
    (x + 0.5).Floor
  }

  datatype Deterministic = Deterministic(score: int, matchedKeywords: seq<string>, totalJobKeywords: nat)

  function Percentage(matched: nat, total: nat): int {
    if total == 0 then 0 else Round((matched as real / total as real) * 100.0)
  }

  function CandidateKeywords(skills: seq<string>, text: string): set<string> {
    (set k | 0 <= k < |skills| :: Lower(skills[k])) + (set w | w in ExtractKeywords(text))
  }

  function In(words: set<string>): string -> bool { (w: string) => w in words }

  function ComputeDeterministicScore(jobText: string, skills: seq<string>, candidateText: string): Deterministic {
    var jobKeywords := ExtractKeywords(jobText);
    var matched := Filter(In(CandidateKeywords(skills, candidateText)), jobKeywords);
    Deterministic(Percentage(|matched|, |jobKeywords|), matched, |jobKeywords|)
  }

  // ---- The rounded percentage.

  lemma ScaleOrder(a: real, b: real, n: real, an: real, bn: real)
    requires n > 0.0 && an == a * n && bn == b * n
    ensures a <= b ==> an <= bn
    ensures a < b ==> an < bn
  {
    if a < b { ProductPositive(b - a, n, bn - an); }
  }

  lemma CastProduct(a: int, n: nat, an: int)
    requires an == a * n
    ensures an as real == a as real * n as real
  {
  }

  /** An integer bound on twice the rounded quotient, scaled by the divisor. */
  lemma ScaledBound(a: int, x: real, n: nat, an: int, y: int)
    requires n > 0 && an == a * n && x * n as real == y as real
    ensures a as real <= 2.0 * x ==> an <= 2 * y
    ensures a as real > 2.0 * x ==> an > 2 * y
  {
    CastProduct(a, n, an);
    assert (2.0 * x) * n as real == 2.0 * y as real;
    ScaleOrder(a as real, 2.0 * x, n as real, an as real, 2.0 * y as real);
    ScaleOrder(2.0 * x, a as real, n as real, 2.0 * y as real, an as real);
  }

  /** Rounding y / n, in integers. */
  lemma Rounded(x: real, n: nat, y: int)
    requires n > 0 && x * n as real == y as real
    ensures (2 * Round(x) - 1) * n <= 2 * y < (2 * Round(x) + 1) * n
  {
    var r := Round(x);
    assert r as real <= x + 0.5 < r as real + 1.0;
    ScaledBound(2 * r - 1, x, n, (2 * r - 1) * n, y);
    ScaledBound(2 * r + 1, x, n, (2 * r + 1) * n, y);
  }

  lemma ShareTimesTotal(matched: nat, total: nat)
    requires total > 0
    ensures ((matched as real / total as real) * 100.0) * total as real == (100 * matched) as real
  {
    var q, n := matched as real / total as real, total as real;
    assert q * n == matched as real;
    assert (q * 100.0) * n == 100.0 * (q * n);
  }

  /** The score in integers: it is the number r with (2r - 1)·total <= 200·matched < (2r + 1)·total. */
  lemma PercentageExactly(matched: nat, total: nat)
    requires total > 0
    ensures var r := Percentage(matched, total); (2 * r - 1) * total <= 200 * matched < (2 * r + 1) * total
  {
    ShareTimesTotal(matched, total);
    Rounded((matched as real / total as real) * 100.0, total, 100 * matched);
  }

  /** Bounds, and when the two ends are reached. With rounding, 100 needs all keywords only below
      200 of them, and 0 means none only up to 200. */
  lemma PercentageEnds(matched: nat, total: nat)
    requires matched <= total
    ensures 0 <= Percentage(matched, total) <= 100
    ensures Percentage(matched, total) == 0 <==> total == 0 || 200 * matched < total
    ensures Percentage(matched, total) == 100 <==> total > 0 && 200 * (total - matched) <= total
  {
    if total > 0 {
      PercentageExactly(matched, total);
      var r := Percentage(matched, total);
      if r <= -1 { ProductOrder(2 * r + 1, -1, total); }
      if r >= 101 { ProductOrder(201, 2 * r - 1, total); }
      if r >= 1 { ProductOrder(1, 2 * r - 1, total); }
      if r <= 99 { ProductOrder(2 * r + 1, 199, total); }
    }
  }

  lemma ProductOrder(a: int, b: int, n: nat)
    requires a <= b
    ensures a * n <= b * n
  {
  }

  lemma PercentageMonotone(fewer: nat, more: nat, total: nat)
    requires fewer <= more
    ensures Percentage(fewer, total) <= Percentage(more, total)
  {
    if total > 0 {
      PercentageExactly(fewer, total);
      PercentageExactly(more, total);
      var r, s := Percentage(fewer, total), Percentage(more, total);
      if r > s { ProductOrder(2 * s + 1, 2 * r - 1, total); }
    }
  }

  // ---- The score of a text.

  predicate All(p: string -> bool, s: seq<string>) { forall w | w in s :: p(w) }
  predicate NoneOf(p: string -> bool, s: seq<string>) { forall w | w in s :: !p(w) }

  lemma {:induction false} FilterLength(p: string -> bool, s: seq<string>)
    ensures |Filter(p, s)| <= |s|
    ensures |Filter(p, s)| == |s| <==> All(p, s)
    ensures |Filter(p, s)| == 0 <==> NoneOf(p, s)
  {
    if |s| > 0 {
      var n := |s| - 1;
      FilterLength(p, s[..n]);
      LastOne(p, s);
    }
  }

  lemma LastOne(p: string -> bool, s: seq<string>)
    requires |s| > 0
    ensures All(p, s) <==> All(p, s[..|s| - 1]) && p(s[|s| - 1])
    ensures NoneOf(p, s) <==> NoneOf(p, s[..|s| - 1]) && !p(s[|s| - 1])
  {
    assert s == s[..|s| - 1] + [s[|s| - 1]];
  }

  lemma {:induction false} FilterGrows(p: string -> bool, q: string -> bool, s: seq<string>)
    requires forall w | w in s && p(w) :: q(w)
    ensures |Filter(p, s)| <= |Filter(q, s)|
  {
    if |s| > 0 {
      FilterGrows(p, q, s[..|s| - 1]);
    }
  }

  /** A keyword the candidate has: one of the skills, lower-cased, or a keyword of the resume's text. */
  predicate HasKeyword(skills: seq<string>, candidateText: string, w: string) {
    (exists k | 0 <= k < |skills| :: w == Lower(skills[k])) || w in ExtractKeywords(candidateText)
  }

  /** The score lies in 0..100; below 200 job keywords it is 100 exactly when there are some and the
      candidate has all of them; up to 200 it is 0 exactly when the candidate has none. */
  lemma ScoreBounds(jobText: string, skills: seq<string>, candidateText: string)
    ensures var r, job := ComputeDeterministicScore(jobText, skills, candidateText), ExtractKeywords(jobText);
            && 0 <= r.score <= 100
            && r.totalJobKeywords == |job|
            && (forall w :: w in r.matchedKeywords <==> w in job && HasKeyword(skills, candidateText, w))
            && (|job| < 200 ==>
                  (r.score == 100 <==> job != [] && forall w | w in job :: HasKeyword(skills, candidateText, w)))
            && (|job| <= 200 ==> (r.score == 0 <==> forall w | w in job :: !HasKeyword(skills, candidateText, w)))
  {
    var job, p := ExtractKeywords(jobText), In(CandidateKeywords(skills, candidateText));
    forall w ensures p(w) <==> HasKeyword(skills, candidateText, w) {
    }
    FilterMembers(p, job);
    FilterLength(p, job);
    PercentageEnds(|Filter(p, job)|, |job|);
  }

  /** The words of `part` are some of those of `whole`, in the same order. */
  predicate InSameOrder(part: seq<string>, whole: seq<string>) {
    forall a, b, i, k | 0 <= a < b < |part| && 0 <= i < |whole| && 0 <= k < |whole| ::
      part[a] == whole[i] && part[b] == whole[k] ==> i < k
  }

  lemma {:induction false} FilterKeepsOrder(p: string -> bool, s: seq<string>)
    requires Distinct(s)
    ensures Distinct(Filter(p, s)) && InSameOrder(Filter(p, s), s)
  {
    if |s| > 0 {
      var n := |s| - 1;
      var before, all := Filter(p, s[..n]), Filter(p, s);
      FilterKeepsOrder(p, s[..n]);
      FilterMembers(p, s[..n]);
      forall a, b, i, k | 0 <= a < b < |all| && 0 <= i < |s| && 0 <= k < |s| && all[a] == s[i] && all[b] == s[k]
        ensures i < k
      {
        assert before[a] in s[..n];
        if b < |before| { assert before[b] in s[..n]; }
      }
    }
  }

  /** The score exactly: the rounded percentage of the job's keywords that the candidate has, which are
      listed once each, in the job's order. */
  lemma ScoreExactly(jobText: string, skills: seq<string>, candidateText: string)
    ensures var r, job := ComputeDeterministicScore(jobText, skills, candidateText), ExtractKeywords(jobText);
            && r.totalJobKeywords == |job|
            && Distinct(r.matchedKeywords) && InSameOrder(r.matchedKeywords, job)
            && (forall w :: w in r.matchedKeywords <==> w in job && HasKeyword(skills, candidateText, w))
            && (if job == [] then r.score == 0
                else (2 * r.score - 1) * |job| <= 200 * |r.matchedKeywords| < (2 * r.score + 1) * |job|)
  {
    var job := ExtractKeywords(jobText);
    var matched := ComputeDeterministicScore(jobText, skills, candidateText).matchedKeywords;
    MatchedInOrder(jobText, skills, candidateText);
    forall w ensures w in matched <==> w in job && HasKeyword(skills, candidateText, w) {
      MatchedExactly(jobText, skills, candidateText, w);
    }
    if job != [] { PercentageExactly(|matched|, |job|); }
  }

  lemma MatchedInOrder(jobText: string, skills: seq<string>, candidateText: string)
    ensures var matched := ComputeDeterministicScore(jobText, skills, candidateText).matchedKeywords;
            Distinct(matched) && InSameOrder(matched, ExtractKeywords(jobText))
  {
    KeywordsAreRuns(jobText, "");
    FilterKeepsOrder(In(CandidateKeywords(skills, candidateText)), ExtractKeywords(jobText));
  }

  lemma MatchedExactly(jobText: string, skills: seq<string>, candidateText: string, w: string)
    ensures w in ComputeDeterministicScore(jobText, skills, candidateText).matchedKeywords <==>
              w in ExtractKeywords(jobText) && HasKeyword(skills, candidateText, w)
  {
    FilterMembers(In(CandidateKeywords(skills, candidateText)), ExtractKeywords(jobText));
  }

  /** Those thresholds are sharp: 199 of 200 keywords already score 100, and 1 of 201 scores 0. */
  lemma RoundingThresholds()
    ensures Percentage(199, 200) == 100 && Percentage(1, 201) == 0
  {
    PercentageEnds(199, 200);
    PercentageEnds(1, 201);
  }

  lemma ExtractionGrows(text: string, more: string)
    ensures forall w | w in ExtractKeywords(text) :: w in ExtractKeywords(text + "\n\n" + more)
  {
    WordsAroundBlankLine(text, more);
    DedupeMembers(Words(text));
    DedupeMembers(Words(text + "\n\n" + more));
  }

  /** More skills, or more text after a blank line, never lower the score. */
  lemma ScoreMonotone(jobText: string, skills: seq<string>, moreSkills: seq<string>, text: string, moreText: string)
    ensures ComputeDeterministicScore(jobText, skills, text).score
         <= ComputeDeterministicScore(jobText, skills + moreSkills, text + "\n\n" + moreText).score
  {
    var job := ExtractKeywords(jobText);
    var less, more := CandidateKeywords(skills, text), CandidateKeywords(skills + moreSkills, text + "\n\n" + moreText);
    ExtractionGrows(text, moreText);
    forall w | w in less ensures w in more {
      if k :| 0 <= k < |skills| && w == Lower(skills[k]) { assert (skills + moreSkills)[k] == skills[k]; }
    }
    FilterGrows(In(less), In(more), job);
    PercentageMonotone(|Filter(In(less), job)|, |Filter(In(more), job)|, |job|);
  }

  // ---- The blend with the embedding similarity.

  const DETERMINISTIC_WEIGHT := 0.4
  const EMBEDDING_WEIGHT := 0.6

  function Blend(deterministic: int, similarity: int): int {
    Round(DETERMINISTIC_WEIGHT * deterministic as real + EMBEDDING_WEIGHT * similarity as real)
  }

  /** The blend in integers: 40% and 60%, rounded with halves up. */
  lemma BlendExactly(d: int, s: int)
    ensures 5 * (2 * Blend(d, s) - 1) <= 4 * d + 6 * s < 5 * (2 * Blend(d, s) + 1)
  {
    var x := 0.4 * d as real + 0.6 * s as real;
    assert Round(x) as real <= x + 0.5 < Round(x) as real + 1.0;
    assert 10.0 * x == (4 * d + 6 * s) as real;
  }

  /** The blended score lies between its two inputs, and is monotone in both. */
  lemma BlendBetween(d: int, s: int)
    ensures (if d <= s then d else s) <= Blend(d, s) <= (if d <= s then s else d)
  {
    var x := 0.4 * d as real + 0.6 * s as real;
    assert Round(x) as real <= x + 0.5 < Round(x) as real + 1.0;
    if d <= s { assert d as real <= x <= s as real; } else { assert s as real <= x <= d as real; }
  }

  lemma BlendMonotone(d: int, d': int, s: int, s': int)
    requires d <= d' && s <= s'
    ensures Blend(d, s) <= Blend(d', s')
  {
    var x, y := 0.4 * d as real + 0.6 * s as real, 0.4 * d' as real + 0.6 * s' as real;
    assert x <= y;
    assert Round(x) as real <= x + 0.5 && y + 0.5 < Round(y) as real + 1.0;
  }
}
