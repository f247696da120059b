/** Keyword extraction: lower-case, split on runs of other characters, drop short words and stop
    words, and keep the first occurrence of each. Case folding is ASCII. */
module Keywords {
  import opened Sequences

  function LowerChar(c: char): char {
    if 'A' <= c <= 'Z' then (c as int + 32) as char else c
  }

  function Lower(s: string): (r: string)
    ensures |r| == |s|
  {
    seq(|s|, i requires 0 <= i < |s| => LowerChar(s[i]))
  }

  /** Capital letters become the small ones at the same place of the alphabet, and nothing else changes. */
  lemma LowerAt(s: string, i: nat)
    requires i < |s|
    ensures var c := Lower(s)[i];
            if 'A' <= s[i] <= 'Z' then 'a' <= c <= 'z' && c as int - 'a' as int == s[i] as int - 'A' as int
            else c == s[i]
  {
  }

  /** The characters a keyword is made of: [a-z0-9+.#]. */
  predicate IsWordChar(c: char) {
    'a' <= c <= 'z' || '0' <= c <= '9' || c == '+' || c == '.' || c == '#'
  }

  const LETTERS := "abcdefghijklmnopqrstuvwxyz"
  const DIGITS := "0123456789"

  lemma LettersAre(c: char)
    ensures c in LETTERS <==> 'a' <= c <= 'z'
  {
    if 'a' <= c <= 'z' { assert LETTERS[c as int - 'a' as int] == c; }
  }

  lemma DigitsAre(c: char)
    ensures c in DIGITS <==> '0' <= c <= '9'
  {
    if '0' <= c <= '9' { assert DIGITS[c as int - '0' as int] == c; }
  }

  lemma WordCharsAre(c: char)
    ensures IsWordChar(c) <==> c in LETTERS || c in DIGITS || c in "+.#"
  {
    LettersAre(c);
    DigitsAre(c);
  }

  /** The end of the stretch from `i` on whose characters all are (`inside`), or all are not, token
      characters. */
  function StretchEnd(tok: char -> bool, inside: bool, s: string, i: nat): (j: nat)
    requires i <= |s|
    ensures i <= j <= |s|
    ensures forall k | i <= k < j :: tok(s[k]) == inside
    ensures j < |s| ==> tok(s[j]) != inside
    decreases |s| - i
  {
    if i == |s| || tok(s[i]) != inside then i else StretchEnd(tok, inside, s, i + 1)
  }

  /** A piece of a text, by its positions. */
  datatype Piece = Piece(from: nat, to: nat)

  /** Splitting the text from `i` on at every maximal run of non-token characters: the pieces
      between them, the first and the last possibly empty. */
  function Pieces(tok: char -> bool, s: string, i: nat): seq<Piece>
    requires i <= |s|
    decreases |s| - i
  {
    var j := StretchEnd(tok, true, s, i);
    if j == |s| then [Piece(i, j)] else [Piece(i, j)] + Pieces(tok, s, StretchEnd(tok, false, s, j))
  }

  function TextOf(s: string, piece: Piece): string {
    if piece.from <= piece.to <= |s| then s[piece.from..piece.to] else ""
  }

  function Texts(s: string, pieces: seq<Piece>): (r: seq<string>)
    ensures |r| == |pieces|
    ensures forall k | 0 <= k < |pieces| :: r[k] == TextOf(s, pieces[k])
  {
    if |pieces| == 0 then [] else [TextOf(s, pieces[0])] + Texts(s, pieces[1..])
  }

  function Split(tok: char -> bool, s: string): seq<string> {
    Texts(s, Pieces(tok, s, 0))
  }

  const STOPWORDS: set<string> := {
    "the", "and", "for", "are", "with", "you", "your", "our", "will", "have",
    "has", "that", "this", "from", "into", "who", "able", "not", "but",
    "can", "all", "any", "role", "team", "work", "working", "experience",
    "years", "year", "strong", "good", "excellent", "using", "use"}

  predicate IsKept(word: string) {
    |word| >= 3 && word !in STOPWORDS
  }

  function Kept(): string -> bool { (word: string) => IsKept(word) }

  /** First occurrences, in order. */
  function Dedupe<T(==)>(s: seq<T>): seq<T> {
    if |s| == 0 then []
    else Dedupe(s[..|s| - 1]) + (if s[|s| - 1] in s[..|s| - 1] then [] else [s[|s| - 1]])
  }

  function Words(text: string): seq<string> {
    Filter(Kept(), Split(IsWordChar, Lower(text)))
  }

  function ExtractKeywords(text: string): seq<string> {
    Dedupe(Words(text))
  }

  // ---- Where the pieces of a split lie in the text.

  /** A maximal run of token characters, from `i` up to `j`. */
  predicate MaximalRun(tok: char -> bool, s: string, i: nat, j: nat) {
    && i < j <= |s|
    && (forall k | i <= k < j :: tok(s[k]))
    && (i == 0 || !tok(s[i - 1]))
    && (j == |s| || !tok(s[j]))
  }

  /** The pieces lie in the text from `i` on, one after the other. */
  predicate InOrder(s: string, pieces: seq<Piece>, i: nat) {
    && (forall k | 0 <= k < |pieces| :: i <= pieces[k].from <= pieces[k].to <= |s|)
    && (forall k, l | 0 <= k < l < |pieces| :: pieces[k].to < pieces[l].from)
  }

  lemma {:induction false} PiecesInOrder(tok: char -> bool, s: string, i: nat)
    requires i <= |s|
    ensures InOrder(s, Pieces(tok, s, i), i)
    decreases |s| - i
  {
    var j := StretchEnd(tok, true, s, i);
    if j < |s| {
      PiecesInOrder(tok, s, StretchEnd(tok, false, s, j));
    }
  }

  lemma {:induction false} PieceIsRun(tok: char -> bool, s: string, i: nat, piece: Piece)
    requires i <= |s| && (i == 0 || !tok(s[i - 1])) && piece in Pieces(tok, s, i) && piece.from < piece.to
    ensures MaximalRun(tok, s, piece.from, piece.to)
    decreases |s| - i
  {
    var j := StretchEnd(tok, true, s, i);
    if piece != Piece(i, j) {
      PieceIsRun(tok, s, StretchEnd(tok, false, s, j), piece);
    }
  }

  lemma {:induction false} RunIsPiece(tok: char -> bool, s: string, i: nat, piece: Piece)
    requires i <= piece.from && MaximalRun(tok, s, piece.from, piece.to)
    ensures piece in Pieces(tok, s, i)
    decreases |s| - i
  {
    var j := StretchEnd(tok, true, s, i);
    if piece.from <= j {
      assert piece == Piece(i, j);
    } else {
      assert tok(s[piece.from]);
      RunIsPiece(tok, s, StretchEnd(tok, false, s, j), piece);
    }
  }

  /** The non-empty pieces of a split are exactly the maximal runs of token characters. */
  lemma PiecesAreRuns(tok: char -> bool, s: string, piece: Piece)
    ensures piece in Pieces(tok, s, 0) && piece.from < piece.to <==> MaximalRun(tok, s, piece.from, piece.to)
  {
    if MaximalRun(tok, s, piece.from, piece.to) { RunIsPiece(tok, s, 0, piece); }
    if piece in Pieces(tok, s, 0) && piece.from < piece.to { PieceIsRun(tok, s, 0, piece); }
  }

  // ---- Removing duplicates.

  predicate Distinct<T(==)>(s: seq<T>) {
    forall i, k | 0 <= i < k < |s| :: s[i] != s[k]
  }

  lemma {:induction false} DedupeMembers<T>(s: seq<T>)
    ensures Distinct(Dedupe(s))
    ensures forall x :: x in Dedupe(s) <==> x in s
  {
    if |s| > 0 {
      DedupeMembers(s[..|s| - 1]);
      assert s == s[..|s| - 1] + [s[|s| - 1]];
    }
  }

  lemma {:induction false} DedupeDistinct<T>(s: seq<T>)
    requires Distinct(s)
    ensures Dedupe(s) == s
  {
    if |s| > 0 {
      DedupeDistinct(s[..|s| - 1]);
    }
  }

  lemma {:induction false} DedupeTail<T>(s: seq<T>, t: seq<T>)
    ensures Dedupe(Dedupe(s) + t) == Dedupe(s + t)
  {
    DedupeMembers(s);
    if |t| == 0 {
      assert s + t == s && Dedupe(s) + t == Dedupe(s);
      DedupeDistinct(Dedupe(s));
    } else {
      var n := |t| - 1;
      DedupeTail(s, t[..n]);
      assert (s + t)[..|s + t| - 1] == s + t[..n];
      assert (Dedupe(s) + t)[..|Dedupe(s) + t| - 1] == Dedupe(s) + t[..n];
    }
  }

  lemma DedupeAppend<T>(s: seq<T>, x: T)
    ensures Dedupe(s + [x]) == Dedupe(s) + (if x in s then [] else [x])
  {
    assert (s + [x])[..|s|] == s;
  }

  lemma {:induction false} DedupeInner<T>(s: seq<T>, t: seq<T>)
    ensures Dedupe(s + Dedupe(t)) == Dedupe(s + t)
  {
    if |t| > 0 {
      var n := |t| - 1;
      var u := s + Dedupe(t[..n]);
      DedupeInner(s, t[..n]);
      DedupeMembers(t[..n]);
      assert s + t == (s + t[..n]) + [t[n]];
      DedupeAppend(s + t[..n], t[n]);
      if t[n] in t[..n] {
        assert Dedupe(t) == Dedupe(t[..n]) + [];
        assert t[n] in s + t[..n] && Dedupe(t) == Dedupe(t[..n]);
      } else {
        assert s + Dedupe(t) == u + [t[n]];
        DedupeAppend(u, t[n]);
        assert t[n] in u <==> t[n] in s + t[..n];
      }
    }
  }

  /** Of two results, the earlier one has an occurrence before which the later one never occurs. */
  lemma {:induction false} DedupeOrder(s: seq<string>, a: nat, b: nat) returns (i: nat)
    requires a < b < |Dedupe(s)|
    ensures i < |s| && s[i] == Dedupe(s)[a] && Dedupe(s)[b] !in s[..i + 1]
  {
    var n := |s| - 1;
    var before := s[..n];
    DedupeMembers(before);
    if b < |Dedupe(before)| {
      i := DedupeOrder(before, a, b);
      assert before[..i + 1] == s[..i + 1];
    } else {
      assert Dedupe(before)[a] in before;
      i :| 0 <= i < n && s[i] == Dedupe(before)[a];
      assert forall x | x in s[..i + 1] :: x in before;
    }
  }

  /** Filtering keeps order: the prefix of the filtered words is the filtered prefix of the words. */
  lemma {:induction false} FilterPrefix<T>(p: T -> bool, s: seq<T>, i: nat) returns (k: nat)
    requires i < |Filter(p, s)|
    ensures k < |s| && s[k] == Filter(p, s)[i] && Filter(p, s[..k + 1]) == Filter(p, s)[..i + 1]
  {
    var n := |s| - 1;
    if i < |Filter(p, s[..n])| {
      k := FilterPrefix(p, s[..n], i);
      assert s[..n][..k + 1] == s[..k + 1];
    } else {
      k := n;
      assert s[..n + 1] == s;
    }
  }

  // ---- What the keywords of a text are.

  ghost predicate OccursAt(text: string, word: string, i: nat) {
    i + |word| <= |text| && text[i..i + |word|] == word && MaximalRun(IsWordChar, text, i, i + |word|)
  }

  lemma PieceAt(text: string, piece: Piece) returns (k: nat)
    requires piece in Pieces(IsWordChar, text, 0)
    ensures var ps := Pieces(IsWordChar, text, 0);
            k < |ps| && ps[k] == piece && Split(IsWordChar, text)[k] == TextOf(text, piece)
  {
    var ps := Pieces(IsWordChar, text, 0);
    k :| 0 <= k < |ps| && ps[k] == piece;
  }

  lemma OccurrenceIsPiece(text: string, word: string, i: nat) returns (k: nat)
    requires OccursAt(text, word, i)
    ensures var ps := Pieces(IsWordChar, text, 0);
            k < |ps| && Split(IsWordChar, text)[k] == word && ps[k].from == i
  {
    var piece := Piece(i, i + |word|);
    PiecesAreRuns(IsWordChar, text, piece);
    k := PieceAt(text, piece);
  }

  lemma RunOccurs(text: string, from: nat, to: nat)
    requires MaximalRun(IsWordChar, text, from, to)
    ensures OccursAt(text, text[from..to], from)
  {
  }

  lemma PieceIsOccurrence(text: string, k: nat)
    requires k < |Split(IsWordChar, text)| && |Split(IsWordChar, text)[k]| > 0
    ensures OccursAt(text, Split(IsWordChar, text)[k], Pieces(IsWordChar, text, 0)[k].from)
  {
    var piece := Pieces(IsWordChar, text, 0)[k];
    PiecesAreRuns(IsWordChar, text, piece);
    RunOccurs(text, piece.from, piece.to);
  }

  /** The keywords of a text are distinct, and are exactly its lower-cased maximal runs of token
      characters that have length at least 3 and are no stop words. */
  lemma KeywordsAreRuns(text: string, word: string)
    ensures Distinct(ExtractKeywords(text))
    ensures word in ExtractKeywords(text) <==>
              |word| >= 3 && word !in STOPWORDS && exists i: nat :: OccursAt(Lower(text), word, i)
  {
    var pieces := Split(IsWordChar, Lower(text));
    DedupeMembers(Words(text));
    FilterMembers(Kept(), pieces);
    if word in ExtractKeywords(text) {
      var k :| 0 <= k < |pieces| && pieces[k] == word;
      PieceIsOccurrence(Lower(text), k);
    }
    if i: nat :| IsKept(word) && OccursAt(Lower(text), word, i) {
      var k := OccurrenceIsPiece(Lower(text), word, i);
    }
  }

  /** They are listed by first occurrence: some occurrence of the earlier keyword precedes every
      occurrence of the later one. */
  lemma KeywordsInFirstOccurrenceOrder(text: string, a: nat, b: nat) returns (i: nat)
    requires a < b < |ExtractKeywords(text)|
    ensures var ks := ExtractKeywords(text);
            OccursAt(Lower(text), ks[a], i) && forall j: nat | OccursAt(Lower(text), ks[b], j) :: i < j
  {
    var s, ks := Lower(text), ExtractKeywords(text);
    var words, ps := Split(IsWordChar, s), Pieces(IsWordChar, s, 0);
    var k := FirstPiece(words, a, b);
    PieceIsOccurrence(s, k);
    i := ps[k].from;
    PiecesInOrder(IsWordChar, s, 0);
    forall j: nat | OccursAt(s, ks[b], j) ensures i < j {
      var l := OccurrenceIsPiece(s, ks[b], j);
      assert l > k;
    }
  }

  /** The same, on the list of all pieces. */
  lemma FirstPiece(words: seq<string>, a: nat, b: nat) returns (k: nat)
    requires a < b < |Dedupe(Filter(Kept(), words))|
    ensures var ks := Dedupe(Filter(Kept(), words));
            k < |words| && words[k] == ks[a] && |words[k]| > 0
            && forall l | 0 <= l < |words| && words[l] == ks[b] :: l > k
  {
    var kept := Filter(Kept(), words);
    var ks := Dedupe(kept);
    var w := DedupeOrder(kept, a, b);
    k := FilterPrefix(Kept(), words, w);
    DedupeMembers(kept);
    FilterMembers(Kept(), words);
    FilterMembers(Kept(), words[..k + 1]);
    assert ks[a] in ks && ks[b] in ks;
    forall l | 0 <= l < |words| && words[l] == ks[b] ensures l > k {
      if l <= k {
        assert false;
      }
    }
  }

  // ---- Extraction of joined texts.

  lemma {:induction false} TextsConcat(s: string, p: seq<Piece>, q: seq<Piece>)
    ensures Texts(s, p + q) == Texts(s, p) + Texts(s, q)
  {
    assert forall k | 0 <= k < |p + q| :: Texts(s, p + q)[k] == (Texts(s, p) + Texts(s, q))[k];
  }

  function WordHere(p: string -> bool, word: string): seq<string> {
    if p(word) then [word] else []
  }

  /** The texts of the pieces from `i` on, that pass the filter `p`. */
  function WordsFrom(tok: char -> bool, p: string -> bool, s: string, i: nat): seq<string>
    requires i <= |s|
    decreases |s| - i
  {
    var j := StretchEnd(tok, true, s, i);
    var here := WordHere(p, s[i..j]);
    if j == |s| then here else here + WordsFrom(tok, p, s, StretchEnd(tok, false, s, j))
  }

  lemma {:induction false} WordsAreFilteredPieces(tok: char -> bool, p: string -> bool, s: string, i: nat)
    requires i <= |s|
    ensures Filter(p, Texts(s, Pieces(tok, s, i))) == WordsFrom(tok, p, s, i)
    decreases |s| - i
  {
    var j := StretchEnd(tok, true, s, i);
    var head := [Piece(i, j)];
    assert Texts(s, head) == [s[i..j]];
    assert Filter(p, [s[i..j]]) == if p(s[i..j]) then [s[i..j]] else [] by {
      FilterAppend(p, [], s[i..j]);
      assert [] + [s[i..j]] == [s[i..j]];
    }
    if j < |s| {
      var rest := Pieces(tok, s, StretchEnd(tok, false, s, j));
      WordsAreFilteredPieces(tok, p, s, StretchEnd(tok, false, s, j));
      TextsConcat(s, head, rest);
      FilterConcat(p, Texts(s, head), Texts(s, rest));
    }
  }

  lemma {:induction false} StretchShift(tok: char -> bool, inside: bool, x: string, s: string, i: nat)
    requires i <= |s|
    ensures StretchEnd(tok, inside, x + s, |x| + i) == |x| + StretchEnd(tok, inside, s, i)
    decreases |s| - i
  {
    if i < |s| && tok(s[i]) == inside {
      StretchShift(tok, inside, x, s, i + 1);
    }
  }

  lemma WordsStep(tok: char -> bool, p: string -> bool, s: string, i: nat, j: nat)
    requires i <= |s| && j == StretchEnd(tok, true, s, i)
    ensures j < |s| ==>
              WordsFrom(tok, p, s, i) == WordHere(p, s[i..j]) + WordsFrom(tok, p, s, StretchEnd(tok, false, s, j))
    ensures j == |s| ==> WordsFrom(tok, p, s, i) == WordHere(p, s[i..j])
  {
  }

  /** One word and the rest after it, moved right by `x`. */
  lemma WordShift(tok: char -> bool, x: string, s: string, i: nat, j: nat)
    requires i <= |s| && j == StretchEnd(tok, true, s, i)
    ensures StretchEnd(tok, true, x + s, |x| + i) == |x| + j && (x + s)[|x| + i..|x| + j] == s[i..j]
    ensures StretchEnd(tok, false, x + s, |x| + j) == |x| + StretchEnd(tok, false, s, j)
  {
    StretchShift(tok, true, x, s, i);
    StretchShift(tok, false, x, s, j);
  }

  lemma {:induction false} WordsShift(tok: char -> bool, p: string -> bool, x: string, s: string, i: nat)
    requires i <= |s|
    ensures WordsFrom(tok, p, x + s, |x| + i) == WordsFrom(tok, p, s, i)
    decreases |s| - i
  {
    var j := StretchEnd(tok, true, s, i);
    WordShift(tok, x, s, i, j);
    WordsStep(tok, p, s, i, j);
    WordsStep(tok, p, x + s, |x| + i, |x| + j);
    if j < |s| {
      WordsShift(tok, p, x, s, StretchEnd(tok, false, s, j));
    }
  }

  /** Starting at a separator, or past it, makes no difference once empty words are dropped. */
  lemma WordsAfterSeparators(tok: char -> bool, p: string -> bool, s: string, i: nat)
    requires i <= |s| && !p("") && (i < |s| ==> !tok(s[i]))
    ensures WordsFrom(tok, p, s, i) == WordsFrom(tok, p, s, StretchEnd(tok, false, s, i))
  {
    assert StretchEnd(tok, true, s, i) == i;
    assert s[i..i] == "";
  }

  lemma {:induction false} StretchInFirst(tok: char -> bool, inside: bool, a: string, b: string, i: nat)
    requires i <= |a|
    ensures StretchEnd(tok, inside, a, i) < |a| ==> StretchEnd(tok, inside, a + b, i) == StretchEnd(tok, inside, a, i)
    ensures StretchEnd(tok, inside, a, i) == |a| ==>
              StretchEnd(tok, inside, a + b, i) == StretchEnd(tok, inside, a + b, |a|)
    decreases |a| - i
  {
    if i < |a| {
      assert (a + b)[i] == a[i];
      if tok(a[i]) == inside {
        StretchInFirst(tok, inside, a, b, i + 1);
      }
    }
  }

  lemma SeparatorEnd(tok: char -> bool, head: string, b: string)
    requires |head| > 0 && !tok(head[|head| - 1])
    ensures StretchEnd(tok, false, head + b, |head| - 1) == |head| + StretchEnd(tok, false, b, 0)
  {
    StretchShift(tok, false, head, b, 0);
    assert (head + b)[|head| - 1] == head[|head| - 1];
  }

  lemma AfterTheCut(tok: char -> bool, p: string -> bool, head: string, b: string)
    requires |head| > 0 && !tok(head[|head| - 1]) && !p("")
    ensures WordsFrom(tok, p, head + b, StretchEnd(tok, false, head + b, |head| - 1)) == WordsFrom(tok, p, b, 0)
  {
    var e := StretchEnd(tok, false, b, 0);
    SeparatorEnd(tok, head, b);
    WordsShift(tok, p, head, b, e);
    if |b| == 0 || !tok(b[0]) { WordsAfterSeparators(tok, p, b, 0); }
  }

  /** Where a stretch of the first half ends once a separator and the second half follow. */
  lemma StretchBeforeCut(tok: char -> bool, a: string, c: char, b: string, i: nat)
    requires i <= |a| && !tok(c)
    ensures var s, j := a + [c] + b, StretchEnd(tok, true, a, i);
            && StretchEnd(tok, true, s, i) == j && s[i..j] == a[i..j]
            && StretchEnd(tok, false, s, j) == (if StretchEnd(tok, false, a, j) < |a| then StretchEnd(tok, false, a, j)
                                                else StretchEnd(tok, false, s, |a|))
  {
    var s, j := a + [c] + b, StretchEnd(tok, true, a, i);
    assert s == a + ([c] + b) && s[|a|] == c;
    StretchInFirst(tok, true, a, [c] + b, i);
    StretchInFirst(tok, false, a, [c] + b, j);
  }

  lemma JoinWords(x: seq<string>, y: seq<string>, z: seq<string>)
    ensures x + (y + z) == (x + y) + z
  {
  }

  /** Cutting a text at a separator splits its words into those of the two halves. */
  lemma {:induction false} WordsAtSeparator(tok: char -> bool, p: string -> bool, a: string, c: char, b: string, i: nat)
    requires i <= |a| && !tok(c) && !p("")
    ensures WordsFrom(tok, p, a + [c] + b, i) == WordsFrom(tok, p, a, i) + WordsFrom(tok, p, b, 0)
    decreases |a| - i
  {
    var s := a + [c] + b;
    var j := StretchEnd(tok, true, a, i);
    StretchBeforeCut(tok, a, c, b, i);
    WordsStep(tok, p, a, i, j);
    WordsStep(tok, p, s, i, j);
    AfterTheCut(tok, p, a + [c], b);
    if j < |a| {
      var m := StretchEnd(tok, false, a, j);
      if m < |a| {
        WordsAtSeparator(tok, p, a, c, b, m);
        JoinWords(WordHere(p, a[i..j]), WordsFrom(tok, p, a, m), WordsFrom(tok, p, b, 0));
      } else {
        NoWordsAtEnd(tok, p, a);
        assert WordHere(p, a[i..j]) + [] == WordHere(p, a[i..j]);
      }
    }
  }

  lemma NoWordsAtEnd(tok: char -> bool, p: string -> bool, a: string)
    requires !p("")
    ensures WordsFrom(tok, p, a, |a|) == []
  {
    assert a[|a|..|a|] == "";
  }

  lemma WordsOfText(text: string)
    ensures Words(text) == WordsFrom(IsWordChar, Kept(), Lower(text), 0)
  {
    WordsAreFilteredPieces(IsWordChar, Kept(), Lower(text), 0);
  }

  lemma LowerAround(a: string, c: char, b: string)
    ensures Lower(a + [c] + b) == Lower(a) + [LowerChar(c)] + Lower(b)
  {
  }

  lemma WordsAroundChar(a: string, c: char, b: string)
    requires !IsWordChar(LowerChar(c))
    ensures Words(a + [c] + b) == Words(a) + Words(b)
  {
    WordsOfText(a);
    WordsOfText(b);
    WordsOfText(a + [c] + b);
    LowerAround(a, c, b);
    WordsAtSeparator(IsWordChar, Kept(), Lower(a), LowerChar(c), Lower(b), 0);
  }

  function Join(parts: seq<string>, sep: string): string {
    if |parts| == 0 then ""
    else if |parts| == 1 then parts[0]
    else Join(parts[..|parts| - 1], sep) + sep + parts[|parts| - 1]
  }

  lemma EmptyText()
    ensures Words("") == []
  {
    WordsOfText("");
    assert Lower("") == "" && ""[0..0] == "";
  }

  lemma WordsAroundBlankLine(a: string, b: string)
    ensures Words(a + "\n\n" + b) == Words(a) + Words(b)
  {
    var first := a + ['\n'] + "";
    assert a + "\n\n" + b == first + ['\n'] + b;
    WordsAroundChar(first, '\n', b);
    WordsAroundChar(a, '\n', "");
    EmptyText();
  }

  function KeywordsOfEach(texts: seq<string>): seq<string> {
    if |texts| == 0 then [] else KeywordsOfEach(texts[..|texts| - 1]) + ExtractKeywords(texts[|texts| - 1])
  }

  /** Extracting from texts joined by blank lines gives the parts' keywords, one after the other,
      without repetitions. */
  lemma {:induction false} KeywordsOfJoinedTexts(texts: seq<string>)
    ensures ExtractKeywords(Join(texts, "\n\n")) == Dedupe(KeywordsOfEach(texts))
  {
    EmptyText();
    if |texts| == 1 {
      DedupeMembers(Words(texts[0]));
      DedupeDistinct(ExtractKeywords(texts[0]));
      assert KeywordsOfEach(texts) == [] + ExtractKeywords(texts[0]) == ExtractKeywords(texts[0]);
    } else if |texts| > 1 {
      var n := |texts| - 1;
      var before, last := Join(texts[..n], "\n\n"), texts[n];
      KeywordsOfJoinedTexts(texts[..n]);
      WordsAroundBlankLine(before, last);
      DedupeTail(Words(before), Words(last));
      DedupeTail(KeywordsOfEach(texts[..n]), Words(last));
      DedupeInner(KeywordsOfEach(texts[..n]), Words(last));
    }
  }

  lemma ThreeTexts(a: string, b: string, c: string)
    ensures Join([a, b, c], "\n\n") == a + "\n\n" + b + "\n\n" + c
    ensures KeywordsOfEach([a, b, c]) == ExtractKeywords(a) + ExtractKeywords(b) + ExtractKeywords(c)
  {
    assert [a, b, c][..2] == [a, b] && [a, b][..1] == [a] && [a][..0] == [];
    assert Join([a], "\n\n") == a && Join([a, b], "\n\n") == a + "\n\n" + b;
    assert KeywordsOfEach([a]) == ExtractKeywords(a);
  }

  lemma KeywordsOfThreeTexts(a: string, b: string, c: string)
    ensures ExtractKeywords(a + "\n\n" + b + "\n\n" + c)
         == Dedupe(ExtractKeywords(a) + ExtractKeywords(b) + ExtractKeywords(c))
  {
    ThreeTexts(a, b, c);
    KeywordsOfJoinedTexts([a, b, c]);
  }

  predicate IsKeyword(word: string) {
    IsKept(word) && forall i | 0 <= i < |word| :: IsWordChar(word[i])
  }

  lemma WordsOfKeyword(word: string)
    requires IsKeyword(word)
    ensures Words(word) == [word]
  {
    WordsOfText(word);
    assert Lower(word) == word;
    assert StretchEnd(IsWordChar, true, word, 0) == |word|;
    assert word[0..|word|] == word;
  }

  lemma WordsOfOneMore(words: seq<string>, last: string)
    requires |words| > 0
    ensures Words(Join(words + [last], " ")) == Words(Join(words, " ")) + Words(last)
  {
    var all := words + [last];
    assert all[..|all| - 1] == words;
    var before := Join(words, " ");
    assert Join(all, " ") == before + [' '] + last;
    WordsAroundChar(before, ' ', last);
  }

  lemma JoinOneMoreKeyword(words: seq<string>, last: string)
    requires |words| > 0 && Words(Join(words, " ")) == words && IsKeyword(last)
    ensures Words(Join(words + [last], " ")) == words + [last]
  {
    WordsOfOneMore(words, last);
    WordsOfKeyword(last);
  }

  predicate AllKeywords(words: seq<string>) {
    forall k | 0 <= k < |words| :: IsKeyword(words[k])
  }

  lemma {:induction false} WordsOfJoinedKeywords(words: seq<string>)
    requires AllKeywords(words)
    ensures Words(Join(words, " ")) == words
  {
    if |words| == 0 {
      EmptyText();
    } else if |words| == 1 {
      WordsOfKeyword(words[0]);
    } else {
      var n := |words| - 1;
      var before := words[..n];
      assert words == before + [words[n]];
      WordsOfJoinedKeywords(before);
      JoinOneMoreKeyword(before, words[n]);
    }
  }

  /** Round trip: extracting again from the keywords joined by spaces gives the same list. */
  lemma ExtractionRoundTrip(text: string)
    ensures ExtractKeywords(Join(ExtractKeywords(text), " ")) == ExtractKeywords(text)
  {
    var ks := ExtractKeywords(text);
    forall k | 0 <= k < |ks| ensures IsKeyword(ks[k]) {
      KeywordsAreRuns(text, ks[k]);
      var i: nat :| OccursAt(Lower(text), ks[k], i);
      assert forall l | 0 <= l < |ks[k]| :: ks[k][l] == Lower(text)[i + l];
    }
    WordsOfJoinedKeywords(ks);
    KeywordsAreRuns(text, "");
    DedupeDistinct(ks);
  }
}
