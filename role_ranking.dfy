/**
 * The heuristic stage of `rankAndShowRoles`: every role is tagged with its position and its
 * score, then the list is sorted by descending score. `Array.prototype.sort` is stable, so
 * roles with equal scores keep their scraped order; it is modelled by a stable insertion sort.
 */
module RoleRanking {
  import opened RoleScoring

  /** `{...role, index, score}`. */
  datatype RankedRole = RankedRole(role: Role, index: nat, score: int)

  /** `roles.map((role, index) => ({...role, index, score: scoreRoleHeuristic(role, keyword)}))`. */
  function Annotate(roles: seq<Role>, keyword: string): (r: seq<RankedRole>)
    ensures |r| == |roles|
    ensures forall i :: 0 <= i < |roles| ==> r[i] == RankedRole(roles[i], i, HeuristicScore(roles[i], keyword))
  {
    seq(|roles|, i requires 0 <= i < |roles| => RankedRole(roles[i], i, HeuristicScore(roles[i], keyword)))
  }

  ghost predicate NonIncreasing(s: seq<RankedRole>) {
    forall i, j :: 0 <= i < j < |s| ==> s[i].score >= s[j].score
  }

  /** Among equal scores, the earlier role comes first. */
  ghost predicate TiesInOrder(s: seq<RankedRole>) {
    forall i, j :: 0 <= i < j < |s| && s[i].score == s[j].score ==> s[i].index < s[j].index
  }

  ghost predicate IndicesIncrease(s: seq<RankedRole>) {
    forall i, j :: 0 <= i < j < |s| ==> s[i].index < s[j].index
  }

  /** Places `x` after every element whose score is at least its own. */
  function Insert(x: RankedRole, sorted: seq<RankedRole>): (r: seq<RankedRole>)
    ensures multiset(r) == multiset(sorted) + multiset{x}
    decreases |sorted|
  {
    if sorted == [] then [x]
    else if sorted[0].score >= x.score then
      assert sorted == [sorted[0]] + sorted[1..];
      [sorted[0]] + Insert(x, sorted[1..])
    else [x] + sorted
  }

  /** `.sort((a, b) => b.score - a.score)`. */
  function SortByScore(s: seq<RankedRole>): (r: seq<RankedRole>)
    ensures multiset(r) == multiset(s)
    decreases |s|
  {
    if s == [] then []
    else
      var n := |s| - 1;
      assert s == s[..n] + [s[n]];
      Insert(s[n], SortByScore(s[..n]))
  }

  /** The heuristic ranking of `rankAndShowRoles`. */
  function RankRoles(roles: seq<Role>, keyword: string): seq<RankedRole> {
    SortByScore(Annotate(roles, keyword))
  }

  // ---------------------------------------------------------------------------

  /** Every score in `s` is at most `v`. */
  ghost predicate ScoresAtMost(s: seq<RankedRole>, v: int) {
    forall k :: 0 <= k < |s| ==> s[k].score <= v
  }

  /** Every element of `s` scoring exactly `v` comes from a position after `idx`. */
  ghost predicate TiesAfter(s: seq<RankedRole>, v: int, idx: nat) {
    forall k :: 0 <= k < |s| && s[k].score == v ==> idx < s[k].index
  }

  /** Every element of `s` comes from a position before `idx`. */
  ghost predicate IndicesBelow(s: seq<RankedRole>, idx: nat) {
    forall k :: 0 <= k < |s| ==> s[k].index < idx
  }

  lemma ConsNonIncreasing(h: RankedRole, r: seq<RankedRole>)
    requires NonIncreasing(r) && ScoresAtMost(r, h.score)
    ensures NonIncreasing([h] + r)
  {
    var s := [h] + r;
    forall i, j | 0 <= i < j < |s|
      ensures s[i].score >= s[j].score
    {
      assert s[j] == r[j - 1];
      if i > 0 {
        assert s[i] == r[i - 1];
      }
    }
  }

  lemma ConsTiesInOrder(h: RankedRole, r: seq<RankedRole>)
    requires TiesInOrder(r) && TiesAfter(r, h.score, h.index)
    ensures TiesInOrder([h] + r)
  {
    var s := [h] + r;
    forall i, j | 0 <= i < j < |s| && s[i].score == s[j].score
      ensures s[i].index < s[j].index
    {
      assert s[j] == r[j - 1];
      if i > 0 {
        assert s[i] == r[i - 1];
      }
    }
  }

  lemma {:induction false} InsertScoresAtMost(x: RankedRole, sorted: seq<RankedRole>, v: int)
    requires ScoresAtMost(sorted, v) && x.score <= v
    ensures ScoresAtMost(Insert(x, sorted), v)
    decreases |sorted|
  {
    if sorted != [] && sorted[0].score >= x.score {
      InsertScoresAtMost(x, sorted[1..], v);
    }
  }

  lemma {:induction false} InsertTiesAfter(x: RankedRole, sorted: seq<RankedRole>, v: int, idx: nat)
    requires TiesAfter(sorted, v, idx) && (x.score == v ==> idx < x.index)
    ensures TiesAfter(Insert(x, sorted), v, idx)
    decreases |sorted|
  {
    if sorted != [] && sorted[0].score >= x.score {
      InsertTiesAfter(x, sorted[1..], v, idx);
    }
  }

  lemma {:induction false} InsertIndicesBelow(x: RankedRole, sorted: seq<RankedRole>, idx: nat)
    requires IndicesBelow(sorted, idx) && x.index < idx
    ensures IndicesBelow(Insert(x, sorted), idx)
    decreases |sorted|
  {
    if sorted != [] && sorted[0].score >= x.score {
      InsertIndicesBelow(x, sorted[1..], idx);
    }
  }

  lemma {:induction false} InsertNonIncreasing(x: RankedRole, sorted: seq<RankedRole>)
    requires NonIncreasing(sorted)
    ensures NonIncreasing(Insert(x, sorted))
    decreases |sorted|
  {
    if sorted != [] {
      if sorted[0].score >= x.score {
        InsertNonIncreasing(x, sorted[1..]);
        InsertScoresAtMost(x, sorted[1..], sorted[0].score);
        ConsNonIncreasing(sorted[0], Insert(x, sorted[1..]));
      } else {
        ConsNonIncreasing(x, sorted);
      }
    }
  }

  lemma {:induction false} InsertTiesInOrder(x: RankedRole, sorted: seq<RankedRole>)
    requires NonIncreasing(sorted) && TiesInOrder(sorted) && IndicesBelow(sorted, x.index)
    ensures TiesInOrder(Insert(x, sorted))
    decreases |sorted|
  {
    if sorted != [] {
      if sorted[0].score >= x.score {
        InsertTiesInOrder(x, sorted[1..]);
        InsertTiesAfter(x, sorted[1..], sorted[0].score, sorted[0].index);
        ConsTiesInOrder(sorted[0], Insert(x, sorted[1..]));
      } else {
        ConsTiesInOrder(x, sorted);
      }
    }
  }

  /** The sort orders by descending score. */
  lemma {:induction false} SortNonIncreasing(s: seq<RankedRole>)
    ensures NonIncreasing(SortByScore(s))
    decreases |s|
  {
    if s != [] {
      var n := |s| - 1;
      SortNonIncreasing(s[..n]);
      InsertNonIncreasing(s[n], SortByScore(s[..n]));
    }
  }

  lemma {:induction false} SortIndicesBelow(s: seq<RankedRole>, idx: nat)
    requires IndicesBelow(s, idx)
    ensures IndicesBelow(SortByScore(s), idx)
    decreases |s|
  {
    if s != [] {
      var n := |s| - 1;
      SortIndicesBelow(s[..n], idx);
      InsertIndicesBelow(s[n], SortByScore(s[..n]), idx);
    }
  }

  /** The sort is stable: equal scores keep their input order. */
  lemma {:induction false} SortStable(s: seq<RankedRole>)
    requires IndicesIncrease(s)
    ensures TiesInOrder(SortByScore(s))
    decreases |s|
  {
    if s != [] {
      var n := |s| - 1;
      SortStable(s[..n]);
      SortNonIncreasing(s[..n]);
      SortIndicesBelow(s[..n], s[n].index);
      InsertTiesInOrder(s[n], SortByScore(s[..n]));
    }
  }

  /**
   * The ranking is a permutation of the annotated roles: each role appears once, tagged with
   * its original position and its heuristic score; scores never increase along the result,
   * and roles with equal scores stay in their original order.
   */
  lemma RankRolesCorrect(roles: seq<Role>, keyword: string)
    ensures var r := RankRoles(roles, keyword);
      && |r| == |roles|
      && multiset(r) == multiset(Annotate(roles, keyword))
      && (forall k :: 0 <= k < |r| ==>
            r[k].index < |roles| && r[k].role == roles[r[k].index]
            && r[k].score == HeuristicScore(r[k].role, keyword))
      && NonIncreasing(r)
      && TiesInOrder(r)
  {
    var a := Annotate(roles, keyword);
    var r := RankRoles(roles, keyword);
    assert |r| == |multiset(r)| == |multiset(a)| == |a|;
    forall k | 0 <= k < |r|
      ensures r[k].index < |roles| && r[k].role == roles[r[k].index]
      ensures r[k].score == HeuristicScore(r[k].role, keyword)
    {
      assert r[k] in multiset(a);
      var i :| 0 <= i < |a| && a[i] == r[k];
    }
    SortNonIncreasing(a);
    SortStable(a);
  }
}
