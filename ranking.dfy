/** Ranking of the comparison scores in `call_face_plus_plus_api`
    (backend/celebrity_compare/views.py): `matches.sort(key=similarity, reverse=True)` followed by
    `matches[:3]`. Python's sort is stable also with `reverse=True`, so matches with equal
    similarity keep the order in which the celebrities were compared. */
module Ranking {

  /** One successful comparison: the celebrity's id and the similarity Face++ reported. */
  datatype Match = Match(celebrityId: nat, similarity: int)

  /** How many matches the view returns. */
  const MaxMatches: nat := 3

  predicate NonIncreasing(s: seq<Match>)
  {
    forall i, j :: 0 <= i < j < |s| ==> s[j].similarity <= s[i].similarity
  }

  /** The matches of `s` with similarity `v`, in their order in `s`. */
  function WithSimilarity(s: seq<Match>, v: int): (r: seq<Match>)
    ensures |r| <= |s|
  {
    if s == [] then []
    else (if s[0].similarity == v then [s[0]] else []) + WithSimilarity(s[1..], v)
  }

  /** Puts `m` in front of the first match whose similarity is not greater than its own. */
  function Insert(m: Match, s: seq<Match>): seq<Match>
  {
    if s == [] || s[0].similarity <= m.similarity then [m] + s
    else [s[0]] + Insert(m, s[1..])
  }

  /** Python's stable `sort(key=similarity, reverse=True)`, as an insertion sort. */
  function SortBySimilarity(s: seq<Match>): seq<Match>
  {
    if s == [] then [] else Insert(s[0], SortBySimilarity(s[1..]))
  }

  /** No match of `s` has similarity above `bound`. */
  predicate AtMost(s: seq<Match>, bound: int)
  {
    forall x :: x in s ==> x.similarity <= bound
  }

  predicate IsPrefix(p: seq<Match>, s: seq<Match>)
  {
    |p| <= |s| && s[..|p|] == p
  }

  lemma ConsNonIncreasing(a: Match, t: seq<Match>)
    requires NonIncreasing(t) && AtMost(t, a.similarity)
    ensures NonIncreasing([a] + t)
  {
    forall i, j | 0 <= i < j < |[a] + t|
      ensures ([a] + t)[j].similarity <= ([a] + t)[i].similarity
    {
      assert ([a] + t)[j] == t[j - 1];
      if i == 0 {
        assert t[j - 1] in t;
      } else {
        assert ([a] + t)[i] == t[i - 1];
      }
    }
  }

  lemma {:induction false} InsertSorted(m: Match, s: seq<Match>)
    requires NonIncreasing(s)
    ensures NonIncreasing(Insert(m, s))
    ensures multiset(Insert(m, s)) == multiset(s) + multiset{m}
  {
    if s == [] || s[0].similarity <= m.similarity {
      assert AtMost(s, m.similarity) by {
        forall x | x in s ensures x.similarity <= m.similarity {
          var i :| 0 <= i < |s| && s[i] == x;
        }
      }
      ConsNonIncreasing(m, s);
    } else {
      var t := Insert(m, s[1..]);
      InsertSorted(m, s[1..]);
      assert AtMost(t, s[0].similarity) by {
        forall x | x in t ensures x.similarity <= s[0].similarity {
          assert x in multiset(t);
          if x != m {
            assert x in multiset(s[1..]);
            var i :| 0 <= i < |s[1..]| && s[1..][i] == x;
            assert s[i + 1] == x;
          }
        }
      }
      ConsNonIncreasing(s[0], t);
      assert s == [s[0]] + s[1..];
    }
  }

  lemma {:induction false} InsertStable(m: Match, s: seq<Match>, v: int)
    ensures WithSimilarity(Insert(m, s), v) == (if m.similarity == v then [m] else []) + WithSimilarity(s, v)
  {
    if s == [] || s[0].similarity <= m.similarity {
      assert ([m] + s)[1..] == s;
    } else {
      InsertStable(m, s[1..], v);
      assert ([s[0]] + Insert(m, s[1..]))[1..] == Insert(m, s[1..]);
    }
  }

  /** The sorted list is non-increasing in similarity. */
  lemma {:induction false} SortedBySimilarity(s: seq<Match>)
    ensures NonIncreasing(SortBySimilarity(s))
    ensures multiset(SortBySimilarity(s)) == multiset(s)
    ensures |SortBySimilarity(s)| == |s|
  {
    if s != [] {
      SortedBySimilarity(s[1..]);
      InsertSorted(s[0], SortBySimilarity(s[1..]));
      assert s == [s[0]] + s[1..];
    }
  }

  /** The sort is stable: for every similarity value, the matches that carry it appear in the
      same order before and after sorting. */
  lemma {:induction false} SortIsStable(s: seq<Match>, v: int)
    ensures WithSimilarity(SortBySimilarity(s), v) == WithSimilarity(s, v)
  {
    if s != [] {
      SortIsStable(s[1..], v);
      InsertStable(s[0], SortBySimilarity(s[1..]), v);
    }
  }

  /** In a non-increasing list, a match outside the first `k` does not beat any match inside. */
  lemma LeftOutNotHigher(sorted: seq<Match>, k: nat, m: Match)
    requires NonIncreasing(sorted) && k <= |sorted| && m in sorted
    ensures m in sorted[..k] || forall x :: x in sorted[..k] ==> m.similarity <= x.similarity
  {
    var j :| 0 <= j < |sorted| && sorted[j] == m;
    if j < k {
      assert sorted[..k][j] == m;
    } else {
      forall x | x in sorted[..k] ensures m.similarity <= x.similarity {
        var i :| 0 <= i < k && sorted[..k][i] == x;
      }
    }
  }

  /** `matches[:3]` of the sorted list: at most three matches, best first, ties in comparison
      order, and no match left out scores higher than a match returned. */
  function TopMatches(matches: seq<Match>): (r: seq<Match>)
    ensures |r| == if |matches| < MaxMatches then |matches| else MaxMatches
    ensures NonIncreasing(r)
    ensures multiset(r) <= multiset(matches)
    ensures forall m :: m in matches && m !in r ==> forall x :: x in r ==> m.similarity <= x.similarity
    ensures forall v :: IsPrefix(WithSimilarity(r, v), WithSimilarity(matches, v))
  {
    var sorted := SortBySimilarity(matches);
    SortedBySimilarity(matches);
    var k := if |matches| < MaxMatches then |matches| else MaxMatches;
    assert sorted == sorted[..k] + sorted[k..];
    assert multiset(sorted) == multiset(sorted[..k]) + multiset(sorted[k..]);
    assert forall m :: m in matches && m !in sorted[..k] ==> forall x :: x in sorted[..k] ==> m.similarity <= x.similarity by {
      forall m | m in matches && m !in sorted[..k] ensures forall x :: x in sorted[..k] ==> m.similarity <= x.similarity {
        assert m in multiset(sorted);
        LeftOutNotHigher(sorted, k, m);
      }
    }
    assert forall v :: IsPrefix(WithSimilarity(sorted[..k], v), WithSimilarity(matches, v)) by {
      forall v ensures IsPrefix(WithSimilarity(sorted[..k], v), WithSimilarity(matches, v)) {
        WithSimilarityOfPrefix(sorted, sorted[..k], sorted[k..], v);
        SortIsStable(matches, v);
        var p := WithSimilarity(sorted[..k], v);
        assert WithSimilarity(matches, v) == p + WithSimilarity(sorted[k..], v);
        assert WithSimilarity(matches, v)[..|p|] == p;
      }
    }
    sorted[..k]
  }

  lemma {:induction false} WithSimilarityOfPrefix(s: seq<Match>, p: seq<Match>, q: seq<Match>, v: int)
    requires s == p + q
    ensures WithSimilarity(s, v) == WithSimilarity(p, v) + WithSimilarity(q, v)
  {
    if p != [] {
      assert (p + q)[1..] == p[1..] + q;
      WithSimilarityOfPrefix(s[1..], p[1..], q, v);
    } else {
      assert s == q;
    }
  }

  /** Five celebrities scored 10, 95, 40, 95 and 60 rank as the second, the fourth (equal score,
      compared later) and the fifth. */
  lemma TopMatchesExample()
    ensures TopMatches([Match(1, 10), Match(2, 95), Match(3, 40), Match(4, 95), Match(5, 60)])
            == [Match(2, 95), Match(4, 95), Match(5, 60)]
  {
    var s := [Match(1, 10), Match(2, 95), Match(3, 40), Match(4, 95), Match(5, 60)];
    assert SortBySimilarity(s[4..]) == [Match(5, 60)];
    assert SortBySimilarity(s[3..]) == [Match(4, 95), Match(5, 60)];
    assert Insert(Match(3, 40), [Match(5, 60)]) == [Match(5, 60), Match(3, 40)];
    assert Insert(Match(3, 40), [Match(4, 95), Match(5, 60)]) == [Match(4, 95), Match(5, 60), Match(3, 40)];
    assert SortBySimilarity(s[2..]) == [Match(4, 95), Match(5, 60), Match(3, 40)];
    assert SortBySimilarity(s[1..]) == [Match(2, 95), Match(4, 95), Match(5, 60), Match(3, 40)];
    var sorted1 := [Match(2, 95), Match(4, 95), Match(5, 60), Match(3, 40)];
    assert Insert(Match(1, 10), sorted1[3..]) == [Match(3, 40), Match(1, 10)];
    assert Insert(Match(1, 10), sorted1[2..]) == [Match(5, 60), Match(3, 40), Match(1, 10)];
    assert Insert(Match(1, 10), sorted1[1..]) == [Match(4, 95), Match(5, 60), Match(3, 40), Match(1, 10)];
    assert SortBySimilarity(s) == [Match(2, 95), Match(4, 95), Match(5, 60), Match(3, 40), Match(1, 10)];
  }
}
