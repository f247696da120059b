/** The browser's own relevance estimate: its tokenizer, and the score that sorts job listings. */
module JobRelevance {
  import opened RealArithmetic
  import opened Wrappers
  import opened Sequences
  import opened Keywords
  import opened DeterministicScore

  /** [a-z0-9+#.], case-insensitively. */
  predicate IsTokenChar(c: char) {
    'a' <= c <= 'z' || 'A' <= c <= 'Z' || '0' <= c <= '9' || c == '+' || c == '#' || c == '.'
  }

  function Tokenize(text: string): set<string> {
    set w | w in Split(IsTokenChar, Lower(text)) && |w| > 2
  }

  lemma {:induction false} SamePieces(tok: char -> bool, tok': char -> bool, s: string, i: nat)
    requires i <= |s| && forall k | 0 <= k < |s| :: tok(s[k]) == tok'(s[k])
    ensures Pieces(tok, s, i) == Pieces(tok', s, i)
    decreases |s| - i
  {
    SameStretch(tok, tok', true, s, i);
    var j := StretchEnd(tok, true, s, i);
    if j < |s| {
      SameStretch(tok, tok', false, s, j);
      SamePieces(tok, tok', s, StretchEnd(tok, false, s, j));
    }
  }

  lemma {:induction false} SameStretch(tok: char -> bool, tok': char -> bool, inside: bool, s: string, i: nat)
    requires i <= |s| && forall k | 0 <= k < |s| :: tok(s[k]) == tok'(s[k])
    ensures StretchEnd(tok, inside, s, i) == StretchEnd(tok', inside, s, i)
    decreases |s| - i
  {
    if i < |s| && tok(s[i]) == inside {
      SameStretch(tok, tok', inside, s, i + 1);
    }
  }

  /** The backend's keywords are, as a set, the browser's tokens without the stop words. */
  lemma KeywordsAreTokens(text: string)
    ensures (set w | w in ExtractKeywords(text)) == Tokenize(text) - STOPWORDS
  {
    SamePieces(IsWordChar, IsTokenChar, Lower(text), 0);
    DedupeMembers(Words(text));
    FilterMembers(Kept(), Split(IsWordChar, Lower(text)));
  }

  function Long(): string -> bool { (word: string) => |word| > 2 }

  lemma TokensAreWords(text: string)
    ensures Tokenize(text) == (set w | w in WordsFrom(IsWordChar, Long(), Lower(text), 0))
  {
    SamePieces(IsWordChar, IsTokenChar, Lower(text), 0);
    WordsAreFilteredPieces(IsWordChar, Long(), Lower(text), 0);
    FilterMembers(Long(), Split(IsWordChar, Lower(text)));
  }

  /** The tokens of a text are exactly its lower-cased maximal runs of token characters that have more than
      two of them. */
  lemma TokensAreRuns(text: string, word: string)
    ensures word in Tokenize(text) <==> |word| > 2 && exists i: nat :: OccursAt(Lower(text), word, i)
  {
    SamePieces(IsWordChar, IsTokenChar, Lower(text), 0);
    var pieces := Split(IsWordChar, Lower(text));
    if word in Tokenize(text) {
      var k :| 0 <= k < |pieces| && pieces[k] == word;
      PieceIsOccurrence(Lower(text), k);
    }
    if i: nat :| |word| > 2 && OccursAt(Lower(text), word, i) {
      var k := OccurrenceIsPiece(Lower(text), word, i);
    }
  }

  lemma TokensAroundSpace(a: string, b: string)
    ensures Tokenize(a + " " + b) == Tokenize(a) + Tokenize(b)
  {
    TokensAreWords(a);
    TokensAreWords(b);
    TokensAreWords(a + " " + b);
    LowerAround(a, ' ', b);
    WordsAtSeparator(IsWordChar, Long(), Lower(a), ' ', Lower(b), 0);
  }

  /** The tokens of texts joined by spaces are those of the texts. */
  lemma TokensOfFields(title: string, description: string, requirements: string)
    ensures Tokenize(title + " " + description + " " + requirements)
         == Tokenize(title) + Tokenize(description) + Tokenize(requirements)
  {
    TokensAroundSpace(title, description);
    TokensAroundSpace(title + " " + description, requirements);
  }

  datatype Parsed = Parsed(rawText: string, skills: seq<string>)

  function SkillTokens(skills: seq<string>): nat {
    if |skills| == 0 then 0 else SkillTokens(skills[..|skills| - 1]) + |Tokenize(skills[|skills| - 1])|
  }

  function SkillHits(skills: seq<string>, job: set<string>): nat {
    if |skills| == 0 then 0 else SkillHits(skills[..|skills| - 1], job) + |Tokenize(skills[|skills| - 1]) * job|
  }

  /** Each skill with each of its tokens. */
  function SkillPairs(skills: seq<string>): set<(nat, string)> {
    set k: nat, w | k < |skills| && w in Tokenize(skills[k]) :: (k, w)
  }

  function PairsOf(n: nat, tokens: set<string>): set<(nat, string)> {
    set w | w in tokens :: (n, w)
  }

  lemma {:induction false} PairsCount(n: nat, tokens: set<string>)
    ensures |PairsOf(n, tokens)| == |tokens|
  {
    if tokens != {} {
      var w :| w in tokens;
      PairsCount(n, tokens - {w});
      assert PairsOf(n, tokens) == PairsOf(n, tokens - {w}) + {(n, w)};
    }
  }

  function HitPairs(skills: seq<string>, job: set<string>): set<(nat, string)> {
    set p | p in SkillPairs(skills) && p.1 in job
  }

  lemma LastPairs(skills: seq<string>)
    requires |skills| > 0
    ensures var n := |skills| - 1;
            && SkillPairs(skills) == SkillPairs(skills[..n]) + PairsOf(n, Tokenize(skills[n]))
            && SkillPairs(skills[..n]) !! PairsOf(n, Tokenize(skills[n]))
  {
    var n := |skills| - 1;
    forall p ensures p in SkillPairs(skills) <==> p in SkillPairs(skills[..n]) || p in PairsOf(n, Tokenize(skills[n])) {
      assert p.0 < n ==> skills[..n][p.0] == skills[p.0];
    }
  }

  lemma LastHits(skills: seq<string>, job: set<string>)
    requires |skills| > 0
    ensures var n := |skills| - 1;
            && HitPairs(skills, job) == HitPairs(skills[..n], job) + PairsOf(n, Tokenize(skills[n]) * job)
            && HitPairs(skills[..n], job) !! PairsOf(n, Tokenize(skills[n]) * job)
  {
    LastPairs(skills);
  }

  /** A token counts once for each skill it occurs in: as a skill token, and as a hit if the job has it. */
  lemma {:induction false} SkillCounts(skills: seq<string>, job: set<string>)
    ensures SkillTokens(skills) == |SkillPairs(skills)| && SkillHits(skills, job) == |HitPairs(skills, job)|
  {
    if |skills| > 0 {
      var n := |skills| - 1;
      var tokens := Tokenize(skills[n]);
      SkillCounts(skills[..n], job);
      PairsCount(n, tokens);
      PairsCount(n, tokens * job);
      LastPairs(skills);
      LastHits(skills, job);
    }
  }

  function Share(hits: nat, total: nat): real {
    if total == 0 then 0.0 else hits as real / total as real
  }

  /** 70% skill hits, 30% overlap with the resume text, as a rounded percentage. */
  function Weighted(skillHits: nat, skillTokens: nat, overlap: nat, jobTokens: nat): int {
    var blend := Share(skillHits, skillTokens) * 0.7 + Share(overlap, jobTokens) * 0.3;
    Round((if blend < 1.0 then blend else 1.0) * 100.0)
  }

  function Relevance(jobText: string, parsed: Option<Parsed>): int {
    var job := Tokenize(jobText);
    if parsed.None? || |job| == 0 then 0
    else Weighted(SkillHits(parsed.value.skills, job), SkillTokens(parsed.value.skills),
                  |job * Tokenize(parsed.value.rawText)|, |job|)
  }

  lemma SubsetSize<T>(a: set<T>, b: set<T>)
    ensures |a * b| <= |a|
    ensures a <= b ==> |a * b| == |a|
    ensures |a * b| == |a| ==> a <= b
  {
    assert a == (a * b) + (a - b);
    assert |a| == |a * b| + |a - b|;
    if a <= b { assert a * b == a; }
    if |a * b| == |a| { assert a - b == {}; }
  }

  predicate AllIn(skills: seq<string>, job: set<string>) {
    forall k | 0 <= k < |skills| :: Tokenize(skills[k]) <= job
  }

  lemma {:induction false} HitsBounded(skills: seq<string>, job: set<string>)
    ensures SkillHits(skills, job) <= SkillTokens(skills)
    ensures AllIn(skills, job) ==> SkillHits(skills, job) == SkillTokens(skills)
  {
    if |skills| > 0 {
      var n := |skills| - 1;
      HitsBounded(skills[..n], job);
      SubsetSize(Tokenize(skills[n]), job);
      if AllIn(skills, job) { assert AllIn(skills[..n], job); }
    }
  }

  lemma ShareBounded(hits: nat, total: nat)
    requires hits <= total
    ensures 0.0 <= Share(hits, total) <= 1.0
    ensures total > 0 && hits == total ==> Share(hits, total) == 1.0
  {
    if total > 0 {
      var q := hits as real / total as real;
      assert q * total as real == hits as real;
      if q > 1.0 { ProductPositive(q - 1.0, total as real, hits as real - total as real); }
    }
  }

  /** The estimate lies in 0..100, is 0 without parsed data or job tokens, and is 100 when the skills
      have tokens, all of them in the job, and every job token is in the resume. */
  lemma RelevanceBounds(jobText: string, parsed: Option<Parsed>)
    ensures 0 <= Relevance(jobText, parsed) <= 100
    ensures parsed.Some? && Tokenize(jobText) != {} && SkillTokens(parsed.value.skills) > 0
            && AllIn(parsed.value.skills, Tokenize(jobText))
            && Tokenize(jobText) <= Tokenize(parsed.value.rawText)
            ==> Relevance(jobText, parsed) == 100
  {
    var job := Tokenize(jobText);
    if parsed.Some? && job != {} {
      HitsBounded(parsed.value.skills, job);
      SubsetSize(job, Tokenize(parsed.value.rawText));
      ShareBounded(SkillHits(parsed.value.skills, job), SkillTokens(parsed.value.skills));
      ShareBounded(|job * Tokenize(parsed.value.rawText)|, |job|);
    }
  }

  lemma ShareTimes(hits: nat, total: nat, other: nat)
    requires total > 0
    ensures Share(hits, total) * (total * other) as real == (hits * other) as real
  {
    var q := hits as real / total as real;
    assert q * total as real == hits as real;
    CastProduct(total, other, total * other);
    CastProduct(hits, other, hits * other);
    assert q * (total as real * other as real) == (q * total as real) * other as real;
  }

  lemma WeightedSum(a: real, b: real, n: real, an: real, bn: real)
    requires an == a * n && bn == b * n
    ensures ((a * 0.7 + b * 0.3) * 100.0) * n == 70.0 * an + 30.0 * bn
  {
  }

  lemma OverlapShare(overlap: nat, jobTokens: nat)
    requires overlap <= jobTokens && jobTokens > 0
    ensures var r := Weighted(0, 0, overlap, jobTokens);
            (2 * r - 1) * jobTokens <= 2 * (30 * overlap) < (2 * r + 1) * jobTokens
  {
    var b := Share(overlap, jobTokens);
    ShareBounded(overlap, jobTokens);
    ShareTimes(overlap, jobTokens, 1);
    WeightedSum(0.0, b, jobTokens as real, 0.0, overlap as real);
    Rounded((0.0 * 0.7 + b * 0.3) * 100.0, jobTokens, 30 * overlap);
  }

  lemma BothShares(skillHits: nat, skillTokens: nat, overlap: nat, jobTokens: nat)
    requires skillHits <= skillTokens && overlap <= jobTokens && skillTokens > 0 && jobTokens > 0
    ensures var r, n := Weighted(skillHits, skillTokens, overlap, jobTokens), skillTokens * jobTokens;
            (2 * r - 1) * n <= 2 * (70 * (skillHits * jobTokens) + 30 * (overlap * skillTokens)) < (2 * r + 1) * n
  {
    var a, b, n := Share(skillHits, skillTokens), Share(overlap, jobTokens), skillTokens * jobTokens;
    ShareBounded(skillHits, skillTokens);
    ShareBounded(overlap, jobTokens);
    ShareTimes(skillHits, skillTokens, jobTokens);
    ShareTimes(overlap, jobTokens, skillTokens);
    assert jobTokens * skillTokens == n;
    WeightedSum(a, b, n as real, (skillHits * jobTokens) as real, (overlap * skillTokens) as real);
    Rounded((a * 0.7 + b * 0.3) * 100.0, n, 70 * (skillHits * jobTokens) + 30 * (overlap * skillTokens));
  }

  /** 70 parts skill hits and 30 parts overlap, rounded; without any skill tokens the overlap's 30 parts
      alone. */
  predicate IsEstimate(r: int, skillHits: nat, skillTokens: nat, overlap: nat, jobTokens: nat) {
    var n := skillTokens * jobTokens;
    if skillTokens == 0
    then (2 * r - 1) * jobTokens <= 2 * (30 * overlap) < (2 * r + 1) * jobTokens
    else (2 * r - 1) * n <= 2 * (70 * (skillHits * jobTokens) + 30 * (overlap * skillTokens)) < (2 * r + 1) * n
  }

  lemma WeightedExactly(skillHits: nat, skillTokens: nat, overlap: nat, jobTokens: nat)
    requires skillHits <= skillTokens && overlap <= jobTokens && jobTokens > 0
    ensures IsEstimate(Weighted(skillHits, skillTokens, overlap, jobTokens), skillHits, skillTokens, overlap, jobTokens)
  {
    if skillTokens == 0 {
      OverlapShare(overlap, jobTokens);
    } else {
      BothShares(skillHits, skillTokens, overlap, jobTokens);
    }
  }

  /** How many elements of `tokens` lie in `other`, counted one by one. */
  method CountHits(tokens: set<string>, other: set<string>) returns (hits: nat)
    ensures hits == |tokens * other|
  {
    hits := 0;
    var pending := tokens;
    while pending != {}
      invariant pending <= tokens
      invariant hits == |(tokens - pending) * other|
      decreases pending
    {
      var token :| token in pending;
      ghost var seen := (tokens - pending) * other;
      if token in other {
        hits := hits + 1;
        assert (tokens - (pending - {token})) * other == seen + {token};
      } else {
        assert (tokens - (pending - {token})) * other == seen;
      }
      pending := pending - {token};
    }
    assert tokens - {} == tokens;
  }

  /** The tokens of all skills, and how many of them the job mentions. */
  method CountSkillHits(skills: seq<string>, job: set<string>) returns (skillTokens: nat, skillHits: nat)
    ensures skillTokens == SkillTokens(skills) && skillHits == SkillHits(skills, job)
  {
    skillTokens, skillHits := 0, 0;
    for k := 0 to |skills|
      invariant skillTokens == SkillTokens(skills[..k]) && skillHits == SkillHits(skills[..k], job)
    {
      assert skills[..k + 1][..k] == skills[..k];
      var tokens := Tokenize(skills[k]);
      var hits := CountHits(tokens, job);
      skillTokens := skillTokens + |tokens|;
      skillHits := skillHits + hits;
    }
    assert skills[..|skills|] == skills;
  }

  method ScoreJobRelevance(title: string, description: string, requirements: string, parsed: Option<Parsed>)
    returns (score: int)
    ensures score == Relevance(title + " " + description + " " + requirements, parsed)
    ensures 0 <= score <= 100
    ensures var job := Tokenize(title) + Tokenize(description) + Tokenize(requirements);
            if parsed.None? || job == {} then score == 0
            else IsEstimate(score, SkillHits(parsed.value.skills, job), SkillTokens(parsed.value.skills),
                            |job * Tokenize(parsed.value.rawText)|, |job|)
  {
    var jobText := title + " " + description + " " + requirements;
    RelevanceBounds(jobText, parsed);
    TokensOfFields(title, description, requirements);
    if parsed.None? {
      return 0;
    }
    var job := Tokenize(jobText);
    if |job| == 0 {
      return 0;
    }
    var skillTokens, skillHits := CountSkillHits(parsed.value.skills, job);
    var overlap := CountHits(job, Tokenize(parsed.value.rawText));
    score := Weighted(skillHits, skillTokens, overlap, |job|);
    HitsBounded(parsed.value.skills, job);
    SubsetSize(job, Tokenize(parsed.value.rawText));
    WeightedExactly(skillHits, skillTokens, overlap, |job|);
  }
}
