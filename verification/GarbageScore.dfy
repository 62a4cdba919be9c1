/** The local text-quality heuristic: 0 is clean text, 1 is garbage or nothing. Scores are
    exact reals; the program rounds the result to three places for display. */
module GarbageScore {

  datatype Heuristic = Heuristic(
    minLength: nat, wordRatioWeight: real, plausibleWeight: real, fragmentWeight: real,
    fragmentThreshold: real, plausibleMinLen: nat)

  const DEFAULT := Heuristic(40, 0.45, 0.45, 0.10, 2.5, 3)

  predicate Letter(c: char) {
    'a' <= c <= 'z' || 'A' <= c <= 'Z'
  }

  predicate Vowel(c: char) {
    c == 'a' || c == 'e' || c == 'i' || c == 'o' || c == 'u' || c == 'A' || c == 'E' || c == 'I' || c == 'O' || c == 'U'
  }

  /** Unicode white space, as both `strip` and the pattern for white space take it. */
  predicate Space(c: char) {
    || '\t' <= c <= '\r' || '\U{1c}' <= c <= ' ' || c == '\U{85}' || c == '\U{a0}' || c == '\U{1680}'
    || '\U{2000}' <= c <= '\U{200a}' || c == '\U{2028}' || c == '\U{2029}' || c == '\U{202f}' || c == '\U{205f}'
    || c == '\U{3000}'
  }

  // ----- the words ---------------------------------------------------------

  /** A word's place: from `start` up to, not including, `end`. */
  datatype Span = Span(start: nat, end: nat)

  /** The first index at or after `i` that holds no letter. */
  function RunEnd(t: string, i: nat): (j: nat)
    requires i <= |t|
    ensures i <= j <= |t|
    ensures forall k :: i <= k < j ==> Letter(t[k])
    ensures j < |t| ==> !Letter(t[j])
    decreases |t| - i
  {
    if i < |t| && Letter(t[i]) then RunEnd(t, i + 1) else i
  }

  /** Leftmost, greedy, non-overlapping matches of two letters or more. */
  function Words(t: string, i: nat): seq<Span>
    requires i <= |t|
    decreases |t| - i
  {
    if i == |t| then []
    else
      var j := RunEnd(t, i);
      if j >= i + 2 then [Span(i, j)] + Words(t, j) else Words(t, i + 1)
  }

  /** A run of letters that cannot be extended either way. */
  predicate MaximalRun(t: string, s: Span) {
    && s.start < s.end <= |t| && (forall k :: s.start <= k < s.end ==> Letter(t[k]))
    && (s.start > 0 ==> !Letter(t[s.start - 1]))
    && (s.end < |t| ==> !Letter(t[s.end]))
  }

  /** No run of letters goes across index `i`. */
  predicate Boundary(t: string, i: nat)
    requires i <= |t|
  {
    0 < i < |t| ==> !(Letter(t[i - 1]) && Letter(t[i]))
  }

  /** The matches are exactly the maximal runs of two letters or more. */
  lemma {:induction false} WordsAreMaximalRuns(t: string, i: nat, s: Span)
    requires i <= |t| && Boundary(t, i)
    ensures s in Words(t, i) <==> MaximalRun(t, s) && s.end - s.start >= 2 && i <= s.start
    decreases |t| - i
  {
    if i < |t| {
      var j := RunEnd(t, i);
      if j >= i + 2 {
        WordsAreMaximalRuns(t, j, s);
        if MaximalRun(t, s) && s.start == i {
          SameRun(t, s, Span(i, j), i);
        }
      } else {
        WordsAreMaximalRuns(t, i + 1, s);
      }
    }
  }

  function Letters(words: seq<Span>): int {
    if words == [] then 0 else words[0].end - words[0].start + Letters(words[1..])
  }

  function NonSpace(t: string, i: nat): nat
    requires i <= |t|
    decreases |t| - i
  {
    if i == |t| then 0 else (if Space(t[i]) then 0 else 1) + NonSpace(t, i + 1)
  }

  predicate Plausible(t: string, h: Heuristic, s: Span)
    requires s.end <= |t|
  {
    s.end - s.start >= h.plausibleMinLen && exists k :: s.start <= k < s.end && Vowel(t[k])
  }

  function PlausibleCount(t: string, h: Heuristic, words: seq<Span>): nat
    requires forall s :: s in words ==> s.end <= |t|
  {
    if words == [] then 0
    else (if Plausible(t, h, words[0]) then 1 else 0) + PlausibleCount(t, h, words[1..])
  }

  lemma {:induction false} WordsInText(t: string, i: nat)
    requires i <= |t|
    ensures forall s :: s in Words(t, i) ==> i <= s.start && s.start + 2 <= s.end <= |t|
    decreases |t| - i
  {
    if i < |t| {
      var j := RunEnd(t, i);
      WordsInText(t, if j >= i + 2 then j else i + 1);
    }
  }

  // ----- the score ---------------------------------------------------------

  function Max(a: int, b: int): int { if a >= b then a else b }

  /** Ends trimmed of white space. */
  function Stripped(t: string): string {
    if t == [] then t
    else if Space(t[0]) then Stripped(t[1..])
    else if Space(t[|t| - 1]) then Stripped(t[..|t| - 1])
    else t
  }

  /** The weighted sum before the clamp. */
  function RawScore(t: string, h: Heuristic): real {
    WordsInText(t, 0);
    var words := Words(t, 0);
    var wordRatio := Letters(words) as real / Max(NonSpace(t, 0), 1) as real;
    var plausibleRatio := PlausibleCount(t, h, words) as real / Max(|words|, 1) as real;
    var penalty := if AverageLength(words) < h.fragmentThreshold then 1.0 else 0.0;
    Combined(h, wordRatio, plausibleRatio, penalty)
  }

  function Combined(h: Heuristic, wordRatio: real, plausibleRatio: real, penalty: real): real {
    1.0 - (Share(h.wordRatioWeight, wordRatio) + Share(h.plausibleWeight, plausibleRatio)
           + Share(h.fragmentWeight, 1.0 - penalty))
  }

  function Share(weight: real, x: real): real {
    weight * x
  }

  function AverageLength(words: seq<Span>): real {
    Letters(words) as real / Max(|words|, 1) as real
  }

  function Clamp(x: real): real {
    if x > 1.0 then 1.0 else if x < 0.0 then 0.0 else x
  }

  function Score(t: string, h: Heuristic): real {
    if |Stripped(t)| < h.minLength then 1.0
    else if Words(t, 0) == [] then 1.0
    else Clamp(RawScore(t, h))
  }

  // ----- the counts --------------------------------------------------------

  lemma {:induction false} RunIsNonSpace(t: string, i: nat, j: nat)
    requires i <= j <= |t| && forall k :: i <= k < j ==> Letter(t[k])
    ensures NonSpace(t, i) == j - i + NonSpace(t, j)
    decreases j - i
  {
    if i < j {
      RunIsNonSpace(t, i + 1, j);
    }
  }

  /** Every non-space character from `i` on lies in one of these words. */
  ghost predicate Covered(t: string, i: nat, words: seq<Span>) {
    forall k :: i <= k < |t| && !Space(t[k]) ==> exists s :: s in words && s.start <= k < s.end
  }

  /** The words hold no more letters than there are non-space characters, and as many
      exactly when they cover them all. */
  lemma {:induction false} LettersAmongNonSpace(t: string, i: nat)
    requires i <= |t|
    ensures 2 * |Words(t, i)| <= Letters(Words(t, i)) <= NonSpace(t, i)
    ensures Letters(Words(t, i)) == NonSpace(t, i) <==> Covered(t, i, Words(t, i))
    decreases |t| - i
  {
    if i < |t| {
      var j := RunEnd(t, i);
      var n := if j >= i + 2 then j else i + 1;
      LettersAmongNonSpace(t, n);
      WordsInText(t, n);
      var words, rest := Words(t, i), Words(t, n);
      if j >= i + 2 {
        RunIsNonSpace(t, i, j);
        assert words[1..] == rest;
        assert words[0] in words;
        CoveredFrom(t, i, j, words, rest);
      } else {
        if !Space(t[i]) {
          forall s | s in words
            ensures !(s.start <= i < s.end)
          {
          }
          assert !Covered(t, i, words);
        } else {
          assert Covered(t, i, words) <==> Covered(t, n, words);
        }
      }
    }
  }

  lemma CoveredFrom(t: string, i: nat, j: nat, words: seq<Span>, rest: seq<Span>)
    requires i < j <= |t| && words == [Span(i, j)] + rest
    ensures Covered(t, i, words) <==> Covered(t, j, rest)
  {
    if Covered(t, j, rest) {
      forall k | i <= k < |t| && !Space(t[k])
        ensures exists s :: s in words && s.start <= k < s.end
      {
        if k < j {
          assert words[0] in words;
        } else {
          var s :| s in rest && s.start <= k < s.end;
          assert s in words;
        }
      }
    }
    if Covered(t, i, words) {
      forall k | j <= k < |t| && !Space(t[k])
        ensures exists s :: s in rest && s.start <= k < s.end
      {
        var s :| s in words && s.start <= k < s.end;
        assert s in rest;
      }
    }
  }

  lemma {:induction false} PlausibleAmongWords(t: string, h: Heuristic, words: seq<Span>)
    requires forall s :: s in words ==> s.end <= |t|
    ensures PlausibleCount(t, h, words) <= |words|
    ensures PlausibleCount(t, h, words) == |words| <==> forall s :: s in words ==> Plausible(t, h, s)
  {
    if words != [] {
      PlausibleAmongWords(t, h, words[1..]);
      assert words == [words[0]] + words[1..];
    }
  }

  lemma {:induction false} LongWords(words: seq<Span>, least: nat)
    requires forall s :: s in words ==> s.end - s.start >= least
    ensures Letters(words) >= least * |words|
  {
    if words != [] {
      LongWords(words[1..], least);
      assert words[0] in words;
      assert least * |words| == least * (|words| - 1) + least;
    }
  }

  lemma RatioAtMostOne(a: int, b: int)
    requires 0 <= a <= b
    ensures 0.0 <= a as real / Max(b, 1) as real <= 1.0
    ensures b > 0 ==> (a as real / Max(b, 1) as real == 1.0 <==> a == b)
  {
    var x, y := a as real, Max(b, 1) as real;
    assert y > 0.0 && x / y * y == x;
    if a == b && b > 0 {
      assert x / y == 1.0;
    }
  }

  /** With non-negative weights that sum to one, as the default ones do, the exact score is
      in [0, 1] before any clamp, for every text; and a text with words has an average
      word length of at least two. */
  lemma ScoreNeedsNoClamp(t: string, h: Heuristic)
    requires h.wordRatioWeight >= 0.0 && h.plausibleWeight >= 0.0 && h.fragmentWeight >= 0.0
    requires h.wordRatioWeight + h.plausibleWeight + h.fragmentWeight == 1.0
    ensures 0.0 <= RawScore(t, h) <= 1.0 && Clamp(RawScore(t, h)) == RawScore(t, h)
    ensures Words(t, 0) != [] ==> AverageLength(Words(t, 0)) >= 2.0
  {
    var words := Words(t, 0);
    WordsInText(t, 0);
    LettersAmongNonSpace(t, 0);
    PlausibleAmongWords(t, h, words);
    RatioAtMostOne(Letters(words), NonSpace(t, 0));
    RatioAtMostOne(PlausibleCount(t, h, words), |words|);
    var wr := Letters(words) as real / Max(NonSpace(t, 0), 1) as real;
    var pr := PlausibleCount(t, h, words) as real / Max(|words|, 1) as real;
    var penalty := if AverageLength(words) < h.fragmentThreshold then 1.0 else 0.0;
    WeightedSum(h, wr, pr, penalty);
    if words != [] {
      AverageAtLeast(Letters(words), |words|, 2.0);
    }
  }

  lemma WeightedSum(h: Heuristic, wr: real, pr: real, penalty: real)
    requires h.wordRatioWeight >= 0.0 && h.plausibleWeight >= 0.0 && h.fragmentWeight >= 0.0
    requires h.wordRatioWeight + h.plausibleWeight + h.fragmentWeight == 1.0
    requires 0.0 <= wr <= 1.0 && 0.0 <= pr <= 1.0 && (penalty == 0.0 || penalty == 1.0)
    ensures 0.0 <= Combined(h, wr, pr, penalty) <= 1.0
  {
    Weighted(h.wordRatioWeight, wr);
    Weighted(h.plausibleWeight, pr);
    Weighted(h.fragmentWeight, 1.0 - penalty);
    SharesOfOne(Share(h.wordRatioWeight, wr), h.wordRatioWeight, Share(h.plausibleWeight, pr), h.plausibleWeight,
                Share(h.fragmentWeight, 1.0 - penalty), h.fragmentWeight);
  }

  lemma SharesOfOne(a: real, x: real, b: real, y: real, c: real, z: real)
    requires 0.0 <= a <= x && 0.0 <= b <= y && 0.0 <= c <= z && x + y + z == 1.0
    ensures 0.0 <= 1.0 - (a + b + c) <= 1.0
  {
  }

  lemma Weighted(w: real, x: real)
    requires w >= 0.0 && 0.0 <= x <= 1.0
    ensures 0.0 <= Share(w, x) <= w
  {
    assert w - w * x == w * (1.0 - x);
  }

  lemma AverageAtLeast(sum: int, count: int, least: real)
    requires count > 0 && sum as real >= least * count as real
    ensures sum as real / Max(count, 1) as real >= least
  {
    var y := count as real;
    assert sum as real / y * y == sum as real;
  }

  /** The character at `k` lies in a plausible word: a maximal run of at least three
      letters with a vowel among them. */
  ghost predicate InPlausibleWord(t: string, k: nat) {
    exists s :: MaximalRun(t, s) && s.start <= k < s.end && Plausible(t, DEFAULT, s)
  }

  /** The default weights leave a sum of zero only when both ratios are full and no
      penalty applies. */
  lemma CombinedIsZero(wr: real, pr: real, penalty: real)
    requires 0.0 <= wr <= 1.0 && 0.0 <= pr <= 1.0 && (penalty == 0.0 || penalty == 1.0)
    ensures Combined(DEFAULT, wr, pr, penalty) == 0.0 <==> wr == 1.0 && pr == 1.0 && penalty == 0.0
  {
    assert Combined(DEFAULT, wr, pr, penalty) == 1.0 - (0.45 * wr + 0.45 * pr + 0.10 * (1.0 - penalty));
  }

  /** For a text with words, in terms of the counts. */
  lemma ZeroInCounts(t: string, words: seq<Span>)
    requires words == Words(t, 0) && words != []
    ensures forall s :: s in words ==> s.end <= |t|
    ensures RawScore(t, DEFAULT) == 0.0
            <==> Letters(words) == NonSpace(t, 0) && PlausibleCount(t, DEFAULT, words) == |words|
  {
    WordsInText(t, 0);
    LettersAmongNonSpace(t, 0);
    PlausibleAmongWords(t, DEFAULT, words);
    RatioAtMostOne(Letters(words), NonSpace(t, 0));
    RatioAtMostOne(PlausibleCount(t, DEFAULT, words), |words|);
    var wr := Letters(words) as real / Max(NonSpace(t, 0), 1) as real;
    var pr := PlausibleCount(t, DEFAULT, words) as real / Max(|words|, 1) as real;
    CombinedIsZero(wr, pr, if AverageLength(words) < DEFAULT.fragmentThreshold then 1.0 else 0.0);
    if PlausibleCount(t, DEFAULT, words) == |words| {
      PlausibleMeansLong(t, words);
    }
  }

  /** Plausible words are three letters long on average, so never fragments. */
  lemma PlausibleMeansLong(t: string, words: seq<Span>)
    requires words != [] && forall s :: s in words ==> s.end <= |t| && Plausible(t, DEFAULT, s)
    ensures AverageLength(words) >= 3.0
  {
    LongWords(words, 3);
    AverageAtLeast(Letters(words), |words|, 3.0);
  }

  /** The default score of a text is 0 exactly when it has at least 40 characters, ends
      trimmed, and each of its non-space characters lies in a plausible word. */
  lemma ZeroIffAllPlausible(t: string)
    ensures Score(t, DEFAULT) == 0.0
            <==> |Stripped(t)| >= 40 && forall k :: 0 <= k < |t| && !Space(t[k]) ==> InPlausibleWord(t, k)
  {
    var words := Words(t, 0);
    LettersAmongNonSpace(t, 0);
    ScoreNeedsNoClamp(t, DEFAULT);
    CoverageByWords(t);
    if |Stripped(t)| >= 40 {
      HasNonSpace(t);
      if words != [] {
        ZeroInCounts(t, words);
        PlausibleAmongWords(t, DEFAULT, words);
      }
    }
  }

  /** Read over the words: all words are plausible and cover the text. */
  lemma CoverageByWords(t: string)
    ensures (forall k :: 0 <= k < |t| && !Space(t[k]) ==> InPlausibleWord(t, k))
            <==> Covered(t, 0, Words(t, 0)) && forall s :: s in Words(t, 0) ==> s.end <= |t| && Plausible(t, DEFAULT, s)
  {
    var words := Words(t, 0);
    WordsInText(t, 0);
    if forall k :: 0 <= k < |t| && !Space(t[k]) ==> InPlausibleWord(t, k) {
      forall k | 0 <= k < |t| && !Space(t[k])
        ensures exists s :: s in words && s.start <= k < s.end
      {
        var s :| MaximalRun(t, s) && s.start <= k < s.end && Plausible(t, DEFAULT, s);
        WordsAreMaximalRuns(t, 0, s);
      }
      forall s | s in words
        ensures Plausible(t, DEFAULT, s)
      {
        WordsAreMaximalRuns(t, 0, s);
        assert !Space(t[s.start]);
        var r :| MaximalRun(t, r) && r.start <= s.start < r.end && Plausible(t, DEFAULT, r);
        SameRun(t, r, s, s.start);
      }
    }
    if Covered(t, 0, words) && forall s :: s in words ==> Plausible(t, DEFAULT, s) {
      forall k | 0 <= k < |t| && !Space(t[k])
        ensures InPlausibleWord(t, k)
      {
        var s :| s in words && s.start <= k < s.end;
        WordsAreMaximalRuns(t, 0, s);
      }
    }
  }

  /** Two maximal runs through one character are the same run. */
  lemma SameRun(t: string, r: Span, s: Span, k: nat)
    requires MaximalRun(t, r) && MaximalRun(t, s) && r.start <= k < r.end && s.start <= k < s.end
    ensures r == s
  {
  }

  /** A text that is not blank when trimmed has a non-space character. */
  lemma HasNonSpace(t: string)
    requires Stripped(t) != []
    ensures NonSpace(t, 0) > 0 && exists k :: 0 <= k < |t| && !Space(t[k])
  {
    StrippedFinds(t);
    var k :| 0 <= k < |t| && !Space(t[k]);
    CountsOne(t, 0, k);
  }

  lemma {:induction false} StrippedFinds(t: string)
    requires Stripped(t) != []
    ensures exists k :: 0 <= k < |t| && !Space(t[k])
    decreases |t|
  {
    if Space(t[0]) {
      StrippedFinds(t[1..]);
      var k :| 0 <= k < |t[1..]| && !Space(t[1..][k]);
      assert !Space(t[k + 1]);
    } else if Space(t[|t| - 1]) {
      assert !Space(t[0]);
    }
  }

  lemma {:induction false} CountsOne(t: string, i: nat, k: nat)
    requires i <= k < |t| && !Space(t[k])
    ensures NonSpace(t, i) > 0
    decreases |t| - i
  {
    if i < k {
      CountsOne(t, i + 1, k);
    }
  }

  // ----- the score, from what can be counted -------------------------------

  /** The indices from `i` on that hold no white space; and those that lie in a word. */
  ghost function InkFrom(t: string, i: nat): set<nat> {
    set k | i <= k < |t| && !Space(t[k])
  }

  ghost function WordCharsFrom(t: string, i: nat): set<nat> {
    set k | i <= k < |t| && InWord(t, k)
  }

  /** In a maximal run of two letters or more. */
  ghost predicate InWord(t: string, k: nat) {
    exists s :: MaximalRun(t, s) && s.end - s.start >= 2 && InSpan(s, k)
  }

  predicate InSpan(s: Span, k: nat) {
    s.start <= k < s.end
  }

  lemma {:induction false} NonSpaceCounts(t: string, i: nat)
    requires i <= |t|
    ensures NonSpace(t, i) == |InkFrom(t, i)|
    decreases |t| - i
  {
    if i == |t| {
      assert InkFrom(t, i) == {};
    } else {
      NonSpaceCounts(t, i + 1);
      assert InkFrom(t, i) == InkFrom(t, i + 1) + if Space(t[i]) then {} else {i};
    }
  }

  /** The indices of these words. */
  ghost function Within(words: seq<Span>): set<nat> {
    if words == [] then {} else Indices(words[0]) + Within(words[1..])
  }

  ghost function Indices(s: Span): set<nat> {
    set k | 0 <= k < s.end && InSpan(s, k)
  }

  lemma {:induction false} SpanLength(s: Span)
    requires s.start <= s.end
    ensures |Indices(s)| == s.end - s.start
    decreases s.end - s.start
  {
    if s.start == s.end {
      assert Indices(s) == {};
    } else {
      var rest := Span(s.start + 1, s.end);
      SpanLength(rest);
      assert Indices(s) == {s.start} + Indices(rest);
    }
  }

  lemma {:induction false} WithinMembers(words: seq<Span>, k: nat)
    ensures k in Within(words) <==> exists s :: s in words && InSpan(s, k)
  {
    if words != [] {
      WithinMembers(words[1..], k);
      assert words == [words[0]] + words[1..];
      if k in Indices(words[0]) {
        assert words[0] in words;
      }
    }
  }

  /** The words from `i` on are apart, so their letters add up. */
  lemma {:induction false} LettersCount(t: string, i: nat)
    requires i <= |t|
    ensures Letters(Words(t, i)) == |Within(Words(t, i))|
    decreases |t| - i
  {
    if i < |t| {
      var j := RunEnd(t, i);
      if j >= i + 2 {
        LettersCount(t, j);
        WordsInText(t, j);
        var words, rest := Words(t, i), Words(t, j);
        assert words[0] == Span(i, j) && words[1..] == rest;
        SpanLength(Span(i, j));
        forall k | k in Within(rest)
          ensures k >= j
        {
          WithinMembers(rest, k);
        }
        assert Indices(Span(i, j)) !! Within(rest);
      } else {
        LettersCount(t, i + 1);
      }
    }
  }

  lemma {:induction false} WordCharsAreWithin(t: string)
    ensures WordCharsFrom(t, 0) == Within(Words(t, 0))
  {
    WordsInText(t, 0);
    forall k: nat
      ensures k in WordCharsFrom(t, 0) <==> k in Within(Words(t, 0))
    {
      WithinMembers(Words(t, 0), k);
      if k in Within(Words(t, 0)) {
        var s :| s in Words(t, 0) && InSpan(s, k);
        WordsAreMaximalRuns(t, 0, s);
      }
      if k in WordCharsFrom(t, 0) {
        var s :| MaximalRun(t, s) && s.end - s.start >= 2 && InSpan(s, k);
        WordsAreMaximalRuns(t, 0, s);
      }
    }
  }

  /** The plausible ones among these words; no word occurs twice. */
  ghost function PlausibleOnes(t: string, h: Heuristic, words: seq<Span>): set<Span>
    requires forall s :: s in words ==> s.end <= |t|
  {
    set s | s in words && Plausible(t, h, s)
  }

  lemma OneMorePlausible(t: string, h: Heuristic, first: Span, rest: seq<Span>)
    requires first !in rest && first.end <= |t| && forall s :: s in rest ==> s.end <= |t|
    ensures forall s :: s in [first] + rest ==> s.end <= |t|
    ensures |PlausibleOnes(t, h, [first] + rest)| == |PlausibleOnes(t, h, rest)| + if Plausible(t, h, first) then 1 else 0
  {
    assert PlausibleOnes(t, h, [first] + rest) == PlausibleOnes(t, h, rest) + if Plausible(t, h, first) then {first} else {};
  }

  lemma {:induction false} PlausibleCounts(t: string, h: Heuristic, i: nat)
    requires i <= |t|
    ensures forall s :: s in Words(t, i) ==> i <= s.start && s.end <= |t|
    ensures PlausibleCount(t, h, Words(t, i)) == |PlausibleOnes(t, h, Words(t, i))|
    decreases |t| - i
  {
    WordsInText(t, i);
    if i < |t| {
      var j := RunEnd(t, i);
      if j >= i + 2 {
        PlausibleCounts(t, h, j);
        var rest := Words(t, j);
        assert Words(t, i) == [Span(i, j)] + rest && ([Span(i, j)] + rest)[1..] == rest;
        OneMorePlausible(t, h, Span(i, j), rest);
      } else {
        PlausibleCounts(t, h, i + 1);
      }
    } else {
      assert PlausibleOnes(t, h, []) == {};
    }
  }

  /** What the raw score puts together. */
  lemma {:induction false} RawScoreIs(t: string, h: Heuristic, words: seq<Span>, letters: int, ink: int, plausible: int)
    requires words == Words(t, 0) != [] && letters == Letters(words) && ink == NonSpace(t, 0) > 0
    requires (forall s :: s in words ==> s.end <= |t|) && plausible == PlausibleCount(t, h, words)
    ensures RawScore(t, h) == Combined(h, letters as real / ink as real, plausible as real / |words| as real,
                                       if letters as real / |words| as real < h.fragmentThreshold then 1.0 else 0.0)
  {
  }

  lemma SharesSpelled(h: Heuristic, wr: real, pr: real, penalty: real)
    ensures Combined(h, wr, pr, penalty) == 1.0 - (h.wordRatioWeight * wr + h.plausibleWeight * pr + h.fragmentWeight * (1.0 - penalty))
  {
  }

  ghost predicate Weights(h: Heuristic) {
    && h.wordRatioWeight >= 0.0 && h.plausibleWeight >= 0.0 && h.fragmentWeight >= 0.0
    && h.wordRatioWeight + h.plausibleWeight + h.fragmentWeight == 1.0
  }

  lemma {:induction false} LongEnoughScores(t: string, h: Heuristic)
    requires Weights(h) && |Stripped(t)| >= h.minLength && Words(t, 0) != []
    ensures NonSpace(t, 0) > 0 && Score(t, h) == RawScore(t, h)
  {
    ScoreNeedsNoClamp(t, h);
    LettersAmongNonSpace(t, 0);
    WordsInText(t, 0);
    LongWords(Words(t, 0), 2);
  }

  lemma {:induction false} ScoreIsCombined(t: string, h: Heuristic, words: seq<Span>, letters: nat, ink: nat, plausible: nat)
    requires Weights(h) && |Stripped(t)| >= h.minLength && words == Words(t, 0) != []
    requires letters == |WordCharsFrom(t, 0)| && ink == |InkFrom(t, 0)|
    requires (forall s :: s in words ==> s.end <= |t|) && plausible == |PlausibleOnes(t, h, words)|
    ensures ink > 0
    ensures Score(t, h) == Combined(h, letters as real / ink as real, plausible as real / |words| as real,
                                    if letters as real / |words| as real < h.fragmentThreshold then 1.0 else 0.0)
  {
    NonSpaceCounts(t, 0);
    LettersCount(t, 0);
    WordCharsAreWithin(t);
    PlausibleCounts(t, h, 0);
    LongEnoughScores(t, h);
    RawScoreIs(t, h, words, letters, ink, plausible);
  }

  /** The score of a text that is long enough and has words: one minus the weighted share of its
      ink that lies in words (`inWords`), share of its words that are plausible (`sound`), and
      reward for words that are long enough on average (`average`). */
  lemma {:induction false} ScoreIsWeightedShares(t: string, h: Heuristic, words: seq<Span>, inWords: real, sound: real, average: real)
    requires Weights(h) && |Stripped(t)| >= h.minLength && words == Words(t, 0) != [] && |InkFrom(t, 0)| > 0
    requires forall s :: s in words ==> s.end <= |t|
    requires inWords == |WordCharsFrom(t, 0)| as real / |InkFrom(t, 0)| as real
    requires sound == |PlausibleOnes(t, h, words)| as real / |words| as real
    requires average == |WordCharsFrom(t, 0)| as real / |words| as real
    ensures Score(t, h) == 1.0 - (h.wordRatioWeight * inWords + h.plausibleWeight * sound
                                  + h.fragmentWeight * (if average >= h.fragmentThreshold then 1.0 else 0.0))
  {
    ScoreIsCombined(t, h, words, |WordCharsFrom(t, 0)|, |InkFrom(t, 0)|, |PlausibleOnes(t, h, words)|);
    SharesSpelled(h, inWords, sound, if average < h.fragmentThreshold then 1.0 else 0.0);
  }

  /** A text scores 1 by default exactly if it has fewer than 40 characters, ends trimmed, or no
      two letters in a row. */
  lemma {:induction false} OneIffNothingToRead(t: string)
    ensures Score(t, DEFAULT) == 1.0 <==> |Stripped(t)| < 40 || !exists k :: 0 <= k < |t| - 1 && Letter(t[k]) && Letter(t[k + 1])
  {
    WordsIffPair(t, 0);
    if |Stripped(t)| >= 40 && Words(t, 0) != [] {
      LettersAmongNonSpace(t, 0);
      ScoreNeedsNoClamp(t, DEFAULT);
      WordsInText(t, 0);
      LongWords(Words(t, 0), 2);
      PlausibleAmongWords(t, DEFAULT, Words(t, 0));
      PositiveShare(Letters(Words(t, 0)), NonSpace(t, 0));
      RatioAtMostOne(PlausibleCount(t, DEFAULT, Words(t, 0)), |Words(t, 0)|);
      BelowOne(Letters(Words(t, 0)) as real / Max(NonSpace(t, 0), 1) as real,
               PlausibleCount(t, DEFAULT, Words(t, 0)) as real / Max(|Words(t, 0)|, 1) as real,
               if AverageLength(Words(t, 0)) < DEFAULT.fragmentThreshold then 1.0 else 0.0);
    }
  }

  lemma PositiveShare(a: int, b: int)
    requires 0 < a <= b
    ensures a as real / Max(b, 1) as real > 0.0
  {
  }

  lemma BelowOne(wr: real, pr: real, penalty: real)
    requires wr > 0.0 && pr >= 0.0 && (penalty == 0.0 || penalty == 1.0)
    ensures Combined(DEFAULT, wr, pr, penalty) < 1.0
  {
    assert Combined(DEFAULT, wr, pr, penalty) == 1.0 - (0.45 * wr + 0.45 * pr + 0.10 * (1.0 - penalty));
  }

  lemma {:induction false} WordsIffPair(t: string, i: nat)
    requires i <= |t|
    ensures Words(t, i) != [] <==> exists k :: i <= k < |t| - 1 && Letter(t[k]) && Letter(t[k + 1])
    decreases |t| - i
  {
    if i < |t| {
      var j := RunEnd(t, i);
      if j >= i + 2 {
        assert Letter(t[i]) && Letter(t[i + 1]);
      } else {
        WordsIffPair(t, i + 1);
        assert i < |t| - 1 && Letter(t[i]) ==> RunEnd(t, i) == RunEnd(t, i + 1);
      }
    }
  }

  // ----- one word for another ----------------------------------------------

  /** Letters where the other has letters, white space where it has white space. */
  ghost predicate SameShape(t: string, u: string) {
    |t| == |u| && forall k :: 0 <= k < |t| ==> Letter(t[k]) == Letter(u[k]) && Space(t[k]) == Space(u[k])
  }

  lemma {:induction false} SameWords(t: string, u: string, i: nat)
    requires SameShape(t, u) && i <= |t|
    ensures RunEnd(t, i) == RunEnd(u, i) && Words(t, i) == Words(u, i) && NonSpace(t, i) == NonSpace(u, i)
    decreases |t| - i
  {
    if i < |t| {
      SameWords(t, u, i + 1);
      var j := RunEnd(t, i);
      if j >= i + 2 {
        SameWords(t, u, j);
      }
    }
  }

  lemma {:induction false} SameTrim(t: string, u: string)
    requires SameShape(t, u)
    ensures |Stripped(t)| == |Stripped(u)|
    decreases |t|
  {
    if t != [] {
      if Space(t[0]) {
        SameTrim(t[1..], u[1..]);
      } else if Space(t[|t| - 1]) {
        SameTrim(t[..|t| - 1], u[..|u| - 1]);
      }
    }
  }

  lemma CombinedDiffers(h: Heuristic, wr: real, before: real, after: real, penalty: real)
    ensures Combined(h, wr, before, penalty) - Combined(h, wr, after, penalty) == Share(h.plausibleWeight, after) - Share(h.plausibleWeight, before)
  {
  }

  lemma ShareDiffers(weight: real, before: real, after: real)
    requires weight >= 0.0
    ensures Share(weight, after) - Share(weight, before) == Share(weight, after - before)
    ensures before <= after ==> Share(weight, after - before) >= 0.0
  {
  }

  lemma ByCount(before: nat, after: nat, count: nat)
    requires count > 0
    ensures after as real / count as real - before as real / count as real == (after as real - before as real) / count as real
    ensures before <= after ==> before as real / count as real <= after as real / count as real
  {
  }

  lemma {:induction false} FewerOrEqual(a: set<Span>, b: set<Span>)
    requires a <= b
    ensures |a| <= |b|
  {
    assert b == a + (b - a);
  }

  lemma {:induction false} SameButPlausible(t: string, u: string, h: Heuristic, words: seq<Span>, before: nat, after: nat)
    returns (wr: real, penalty: real)
    requires Weights(h) && SameShape(t, u) && words == Words(t, 0) != [] && |Stripped(t)| >= h.minLength
    requires forall s :: s in words ==> s.end <= |t|
    requires before == |PlausibleOnes(t, h, words)| && after == |PlausibleOnes(u, h, words)|
    ensures Score(t, h) == Combined(h, wr, before as real / |words| as real, penalty)
    ensures Score(u, h) == Combined(h, wr, after as real / |words| as real, penalty)
  {
    SameWords(t, u, 0);
    SameTrim(t, u);
    PlausibleCounts(t, h, 0);
    PlausibleCounts(u, h, 0);
    LongEnoughScores(t, h);
    LongEnoughScores(u, h);
    RawScoreIs(t, h, words, Letters(words), NonSpace(t, 0), before);
    RawScoreIs(u, h, words, Letters(words), NonSpace(t, 0), after);
    wr := Letters(words) as real / NonSpace(t, 0) as real;
    penalty := if Letters(words) as real / |words| as real < h.fragmentThreshold then 1.0 else 0.0;
  }

  /** Every word that becomes plausible lowers the score by its part of the plausible share, and
      nothing else about the letters of words does. */
  lemma {:induction false} PlausibleWordsLowerTheScore(t: string, u: string, h: Heuristic, words: seq<Span>, before: nat, after: nat)
    requires Weights(h) && SameShape(t, u) && words == Words(t, 0) != [] && |Stripped(t)| >= h.minLength
    requires forall s :: s in words ==> s.end <= |t|
    requires before == |PlausibleOnes(t, h, words)| && after == |PlausibleOnes(u, h, words)|
    ensures Score(t, h) - Score(u, h) == Share(h.plausibleWeight, (after as real - before as real) / |words| as real)
    ensures before <= after ==> Score(u, h) <= Score(t, h)
  {
    var wr, penalty := SameButPlausible(t, u, h, words, before, after);
    var x, y := before as real / |words| as real, after as real / |words| as real;
    CombinedDiffers(h, wr, x, y, penalty);
    ShareDiffers(h.plausibleWeight, x, y);
    ByCount(before, after, |words|);
  }

  /** Of a text too short, or without words, the letters do not matter at all. */
  lemma {:induction false} NothingToReadStays(t: string, u: string, h: Heuristic)
    requires SameShape(t, u) && (|Stripped(t)| < h.minLength || Words(t, 0) == [])
    ensures Score(t, h) == Score(u, h) == 1.0
  {
    SameWords(t, u, 0);
    SameTrim(t, u);
  }

  /** In particular: another word in the place of one, as long, all letters and plausible, never
      raises the score, and if the old one was not plausible lowers it by that one word's share. */
  lemma {:induction false} PlausibleReplacement(t: string, s: Span, word: string, u: string)
    requires MaximalRun(t, s) && |word| == s.end - s.start >= 3
    requires (forall k :: 0 <= k < |word| ==> Letter(word[k])) && exists k :: 0 <= k < |word| && Vowel(word[k])
    requires u == t[..s.start] + word + t[s.end..]
    ensures Score(u, DEFAULT) <= Score(t, DEFAULT)
    ensures Words(t, 0) != []
    ensures !Plausible(t, DEFAULT, s) && |Stripped(t)| >= 40 ==>
              Score(t, DEFAULT) - Score(u, DEFAULT) == Share(0.45, 1.0 / |Words(t, 0)| as real)
  {
    ReplacedShape(t, s, word, u);
    WordsInText(t, 0);
    WordsAreMaximalRuns(t, 0, s);
    var words := Words(t, 0);
    ReplacedCounts(t, u, s, word, words);
    MorePlausible(t, u, words, |PlausibleOnes(t, DEFAULT, words)|, |PlausibleOnes(u, DEFAULT, words)|);
  }

  lemma {:induction false} MorePlausible(t: string, u: string, words: seq<Span>, before: nat, after: nat)
    requires SameShape(t, u) && words == Words(t, 0) != [] && forall s :: s in words ==> s.end <= |t|
    requires before == |PlausibleOnes(t, DEFAULT, words)| <= after == |PlausibleOnes(u, DEFAULT, words)|
    ensures Score(u, DEFAULT) <= Score(t, DEFAULT)
    ensures after == before + 1 && |Stripped(t)| >= 40 ==> Score(t, DEFAULT) - Score(u, DEFAULT) == Share(0.45, 1.0 / |words| as real)
  {
    if |Stripped(t)| >= 40 {
      PlausibleWordsLowerTheScore(t, u, DEFAULT, words, before, after);
    } else {
      NothingToReadStays(t, u, DEFAULT);
    }
  }

  lemma {:induction false} ReplacedCounts(t: string, u: string, s: Span, word: string, words: seq<Span>)
    requires MaximalRun(t, s) && |word| == s.end - s.start >= 3 && exists k :: 0 <= k < |word| && Vowel(word[k])
    requires u == t[..s.start] + word + t[s.end..] && words == Words(t, 0) && (forall r :: r in words ==> r.end <= |t|) && s in words
    ensures |u| == |t|
    ensures |PlausibleOnes(t, DEFAULT, words)| <= |PlausibleOnes(u, DEFAULT, words)|
    ensures !Plausible(t, DEFAULT, s) ==> |PlausibleOnes(u, DEFAULT, words)| == |PlausibleOnes(t, DEFAULT, words)| + 1
  {
    ReplacedIsPlausible(t, u, s, word);
    FewerOrEqual(PlausibleOnes(t, DEFAULT, words), PlausibleOnes(u, DEFAULT, words));
    if !Plausible(t, DEFAULT, s) {
      assert PlausibleOnes(u, DEFAULT, words) == PlausibleOnes(t, DEFAULT, words) + {s};
    }
  }

  lemma {:induction false} ReplacedShape(t: string, s: Span, word: string, u: string)
    requires MaximalRun(t, s) && |word| == s.end - s.start && u == t[..s.start] + word + t[s.end..]
    requires forall k :: 0 <= k < |word| ==> Letter(word[k])
    ensures SameShape(t, u)
  {
    forall k | 0 <= k < |t|
      ensures Letter(t[k]) == Letter(u[k]) && Space(t[k]) == Space(u[k])
    {
      if s.start <= k < s.end {
        assert u[k] == word[k - s.start];
      }
    }
  }

  lemma {:induction false} ReplacedIsPlausible(t: string, u: string, s: Span, word: string)
    requires MaximalRun(t, s) && |word| == s.end - s.start >= 3 && exists k :: 0 <= k < |word| && Vowel(word[k])
    requires u == t[..s.start] + word + t[s.end..] && forall r :: r in Words(t, 0) ==> r.end <= |t|
    ensures s.end <= |u| == |t| && Plausible(u, DEFAULT, s)
    ensures forall r :: r in Words(t, 0) && r != s ==> (Plausible(u, DEFAULT, r) <==> Plausible(t, DEFAULT, r))
    ensures PlausibleOnes(t, DEFAULT, Words(t, 0)) <= PlausibleOnes(u, DEFAULT, Words(t, 0))
  {
    var k :| 0 <= k < |word| && Vowel(word[k]);
    assert u[s.start + k] == word[k];
    forall r | r in Words(t, 0) && r != s
      ensures Plausible(u, DEFAULT, r) <==> Plausible(t, DEFAULT, r)
    {
      WordsAreMaximalRuns(t, 0, r);
      assert r.end <= s.start || r.start >= s.end by {
        if r.start < s.end && s.start < r.end {
          var m := if r.start >= s.start then r.start else s.start;
          SameRun(t, r, s, m);
        }
      }
      assert forall m :: r.start <= m < r.end ==> u[m] == t[m];
    }
  }
}
