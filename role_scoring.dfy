/**
 * The popup's keyword score of one experience entry (`scoreRoleHeuristic`). Scores are
 * counted in half-points so that every weight is an integer: a title match is worth 6
 * (3 points), a company match 3 (1.5 points), a description match 2 (1 point) and a current
 * role starts at 2 (1 point).
 */
module RoleScoring {
  import opened Wrappers
  import opened Text

  /** One experience entry as the content script scrapes it; a missing field is `null`. */
  datatype Role = Role(
    title: Option<string>,
    company: Option<string>,
    desc: Option<string>,
    dates: Option<string>,
    isCurrent: bool)

  const TitlePoints: nat := 6
  const CompanyPoints: nat := 3
  const DescPoints: nat := 2
  const CurrentPoints: nat := 2

  /** The most one word can add. */
  const MaxWordPoints: nat := TitlePoints + CompanyPoints + DescPoints

  /** `(field || '').toLowerCase()`. */
  function Field(f: Option<string>): string {
    Lower(f.GetOr(""))
  }

  /** `role.isCurrent ? 1 : 0`. */
  function BasePoints(role: Role): (p: nat)
    ensures p == if role.isCurrent then CurrentPoints else 0
    ensures p <= CurrentPoints
  {
    if role.isCurrent then CurrentPoints else 0
  }

  /** What one keyword word adds: each field that contains it adds its weight. */
  function WordPoints(word: string, t: string, c: string, d: string): nat {
    (if Contains(t, word) then TitlePoints else 0)
    + (if Contains(c, word) then CompanyPoints else 0)
    + (if Contains(d, word) then DescPoints else 0)
  }

  /** The sum of `WordPoints` over `words`, a repeated word counting each time. */
  function WordsScore(words: seq<string>, t: string, c: string, d: string): nat
    decreases |words|
  {
    if words == [] then 0
    else
      var n := |words| - 1;
      WordsScore(words[..n], t, c, d) + WordPoints(words[n], t, c, d)
  }

  /** The score `scoreRoleHeuristic(role, keyword)` returns, in half-points. */
  function HeuristicScore(role: Role, keyword: string): int {
    var k := Trim(Lower(keyword));
    if k == [] then BasePoints(role)
    else BasePoints(role) + WordsScore(Words(k), Field(role.title), Field(role.company), Field(role.desc))
  }

  /** `scoreRoleHeuristic`: accumulates the score word by word. */
  method ScoreRoleHeuristic(role: Role, keyword: string) returns (score: int)
    ensures score == HeuristicScore(role, keyword)
  {
    var k := Trim(Lower(keyword));
    score := if role.isCurrent then CurrentPoints else 0;
    if k == [] {
      return;
    }
    score := AddWordPoints(score, Words(k), Field(role.title), Field(role.company), Field(role.desc));
  }

  /** The `for (const word of words)` loop of `scoreRoleHeuristic`, starting from `start`. */
  method AddWordPoints(start: int, words: seq<string>, t: string, c: string, d: string) returns (score: int)
    ensures score == start + WordsScore(words, t, c, d)
  {
    score := start;
    for i := 0 to |words|
      invariant score == start + WordsScore(words[..i], t, c, d)
    {
      var word := words[i];
      if Contains(t, word) { score := score + TitlePoints; }
      if Contains(c, word) { score := score + CompanyPoints; }
      if Contains(d, word) { score := score + DescPoints; }
      assert words[..i + 1][..i] == words[..i];
    }
    assert words[..|words|] == words;
  }

  // ---------------------------------------------------------------------------

  /** Each word adds between nothing and `MaxWordPoints`. */
  lemma {:induction false} WordsScoreBounds(words: seq<string>, t: string, c: string, d: string)
    ensures 0 <= WordsScore(words, t, c, d) <= MaxWordPoints * |words|
    decreases |words|
  {
    if words != [] {
      WordsScoreBounds(words[..|words| - 1], t, c, d);
    }
  }

  /** The score of a word list is the sum of the scores of its parts: every occurrence counts. */
  lemma {:induction false} WordsScoreAppend(a: seq<string>, b: seq<string>, t: string, c: string, d: string)
    ensures WordsScore(a + b, t, c, d) == WordsScore(a, t, c, d) + WordsScore(b, t, c, d)
    decreases |b|
  {
    if b == [] {
      assert a + b == a;
    } else {
      var n := |b| - 1;
      WordsScoreAppend(a, b[..n], t, c, d);
      assert (a + b)[..|a + b| - 1] == a + b[..n];
    }
  }

  /** `base <= score <= base + 5.5 * |words|`; in particular the score is never negative. */
  lemma ScoreBounds(role: Role, keyword: string)
    ensures var words := Words(Trim(Lower(keyword)));
      BasePoints(role) <= HeuristicScore(role, keyword) <= BasePoints(role) + MaxWordPoints * |words|
  {
    var k := Trim(Lower(keyword));
    WordsScoreBounds(Words(k), Field(role.title), Field(role.company), Field(role.desc));
  }

  /** An empty or blank keyword scores 1 point for a current role and nothing otherwise. */
  lemma BlankKeywordScoresBase(role: Role, keyword: string)
    requires AllSpace(keyword)
    ensures HeuristicScore(role, keyword) == if role.isCurrent then CurrentPoints else 0
  {
    var l := Lower(keyword);
    assert forall i :: 0 <= i < |l| ==> l[i] == LowerChar(keyword[i]);
    TrimEmptyIff(l);
  }

  // ---------------------------------------------------------------------------
  // Trimming does not change the words, so the early return agrees with the sum

  lemma {:induction false} WordLengthAppendSpace(s: string, c: char)
    requires IsSpace(c)
    ensures WordLength(s + [c]) == WordLength(s)
    decreases |s|
  {
    if s != [] && !IsSpace(s[0]) {
      assert (s + [c])[1..] == s[1..] + [c];
      WordLengthAppendSpace(s[1..], c);
    }
  }

  lemma {:induction false} WordsAppendSpace(s: string, c: char)
    requires IsSpace(c)
    ensures Words(s + [c]) == Words(s)
    decreases |s|
  {
    if s == [] {
      assert Words([c]) == Words([c][1..]);
    } else if IsSpace(s[0]) {
      assert (s + [c])[1..] == s[1..] + [c];
      WordsAppendSpace(s[1..], c);
    } else {
      var n := WordLength(s);
      WordLengthAppendSpace(s, c);
      assert (s + [c])[..n] == s[..n];
      assert (s + [c])[n..] == s[n..] + [c];
      WordsAppendSpace(s[n..], c);
    }
  }

  lemma {:induction false} WordsTrimEnd(s: string)
    ensures Words(TrimEnd(s)) == Words(s)
    decreases |s|
  {
    if s != [] && IsSpace(s[|s| - 1]) {
      var p := s[..|s| - 1];
      WordsTrimEnd(p);
      assert s == p + [s[|s| - 1]];
      WordsAppendSpace(p, s[|s| - 1]);
    }
  }

  lemma {:induction false} WordsTrimStart(s: string)
    ensures Words(TrimStart(s)) == Words(s)
    decreases |s|
  {
    if s != [] && IsSpace(s[0]) {
      WordsTrimStart(s[1..]);
    }
  }

  /**
   * The score is the base plus the points of the keyword's words, whether or not the keyword
   * was blank: the `if (!k)` shortcut returns what the loop would have.
   */
  lemma ScoreIsSumOverWords(role: Role, keyword: string)
    ensures HeuristicScore(role, keyword) ==
      BasePoints(role) + WordsScore(Words(Lower(keyword)), Field(role.title), Field(role.company), Field(role.desc))
  {
    var l := Lower(keyword);
    WordsTrimStart(l);
    WordsTrimEnd(TrimStart(l));
  }
}
