/**
 * The shared-quiz leaderboard: attempts ordered by score, best first, the
 * top score, which rows are highlighted, the medal or rank shown for each
 * position, and the attempt count label.
 *
 * `Array.prototype.sort` is stable, so sorting a copy by `b.score - a.score`
 * has exactly one possible result: the attempts in non-increasing score
 * order with equal scores kept in their original order. `SortByScore`
 * computes that result by insertion; `SortedIsDescending`,
 * `SortedIsPermutation` and `SortedIsStable` pin it down.
 */
module Leaderboard {
  import opened Text

  datatype Attempt = Attempt(playerName: string, score: int, completedAt: string)

  /** Non-increasing scores. */
  predicate Descending(s: seq<Attempt>) {
    forall i, j :: 0 <= i < j < |s| ==> s[i].score >= s[j].score
  }

  /** The attempts with score `v`, in their order in `s`. */
  function WithScore(s: seq<Attempt>, v: int): seq<Attempt> {
    if s == [] then []
    else Keep(s[0], v) + WithScore(s[1..], v)
  }

  /** `x` placed after every attempt of `s` that scores at least as much. */
  function Insert(x: Attempt, s: seq<Attempt>): (r: seq<Attempt>)
    ensures |r| == |s| + 1
  {
    if s == [] then [x]
    else if s[0].score >= x.score then [s[0]] + Insert(x, s[1..])
    else [x] + s
  }

  /** `[...attempts].sort((a, b) => b.score - a.score)`: each attempt in turn inserted into the sorted prefix. */
  function SortByScore(attempts: seq<Attempt>): (r: seq<Attempt>)
    ensures |r| == |attempts|
  {
    if attempts == [] then []
    else Insert(attempts[|attempts| - 1], SortByScore(attempts[..|attempts| - 1]))
  }

  /** Inserting adds `x` and nothing else. */
  lemma {:induction false} InsertPermutation(x: Attempt, s: seq<Attempt>)
    ensures multiset(Insert(x, s)) == multiset(s) + multiset{x}
    decreases |s|
  {
    if s != [] && s[0].score >= x.score {
      InsertPermutation(x, s[1..]);
      assert s == [s[0]] + s[1..];
    }
  }

  lemma DescendingTail(s: seq<Attempt>)
    requires s != [] && Descending(s)
    ensures Descending(s[1..])
    ensures forall k :: 0 <= k < |s| ==> s[k].score <= s[0].score
  {
    var rest := s[1..];
    forall i, j | 0 <= i < j < |rest| ensures rest[i].score >= rest[j].score {
      assert rest[i] == s[i + 1] && rest[j] == s[j + 1];
    }
  }

  lemma DescendingCons(h: Attempt, t: seq<Attempt>)
    requires Descending(t)
    requires forall k :: 0 <= k < |t| ==> t[k].score <= h.score
    ensures Descending([h] + t)
  {
    var r := [h] + t;
    forall i, j | 0 <= i < j < |r| ensures r[i].score >= r[j].score {
      assert r[j] == t[j - 1];
      if i > 0 {
        assert r[i] == t[i - 1];
      }
    }
  }

  /** Inserting under a bound keeps every score under it. */
  lemma {:induction false} InsertBounded(x: Attempt, s: seq<Attempt>, bound: int)
    requires x.score <= bound
    requires forall k :: 0 <= k < |s| ==> s[k].score <= bound
    ensures forall k :: 0 <= k < |Insert(x, s)| ==> Insert(x, s)[k].score <= bound
    decreases |s|
  {
    if s != [] && s[0].score >= x.score {
      var rest := s[1..];
      assert forall k :: 0 <= k < |rest| ==> rest[k] == s[k + 1];
      InsertBounded(x, rest, bound);
      var r := Insert(x, s);
      assert r == [s[0]] + Insert(x, rest);
      assert forall k :: 1 <= k < |r| ==> r[k] == Insert(x, rest)[k - 1];
    } else if s != [] {
      var r := Insert(x, s);
      assert r == [x] + s;
      assert forall k :: 1 <= k < |r| ==> r[k] == s[k - 1];
    }
  }

  lemma {:induction false} InsertDescending(x: Attempt, s: seq<Attempt>)
    requires Descending(s)
    ensures Descending(Insert(x, s))
    decreases |s|
  {
    if s != [] && s[0].score >= x.score {
      var rest := s[1..];
      DescendingTail(s);
      assert forall k :: 0 <= k < |rest| ==> rest[k] == s[k + 1];
      InsertDescending(x, rest);
      InsertBounded(x, rest, s[0].score);
      DescendingCons(s[0], Insert(x, rest));
      assert Insert(x, s) == [s[0]] + Insert(x, rest);
    } else if s != [] {
      DescendingTail(s);
      DescendingCons(x, s);
      assert Insert(x, s) == [x] + s;
    }
  }

  lemma {:induction false} SortedIsDescending(attempts: seq<Attempt>)
    ensures Descending(SortByScore(attempts))
    decreases |attempts|
  {
    if attempts != [] {
      var init := attempts[..|attempts| - 1];
      SortedIsDescending(init);
      InsertDescending(attempts[|attempts| - 1], SortByScore(init));
    }
  }

  /** The order is a rearrangement: every attempt appears exactly as often as in the input. */
  lemma {:induction false} SortedIsPermutation(attempts: seq<Attempt>)
    ensures multiset(SortByScore(attempts)) == multiset(attempts)
    decreases |attempts|
  {
    if attempts != [] {
      var init := attempts[..|attempts| - 1];
      var last := attempts[|attempts| - 1];
      SortedIsPermutation(init);
      InsertPermutation(last, SortByScore(init));
      assert attempts == init + [last];
    }
  }

  /** `[a]` when `a` scores `v`, else nothing: one step of `WithScore`. */
  function Keep(a: Attempt, v: int): seq<Attempt> {
    if a.score == v then [a] else []
  }

  lemma WithScoreCons(h: Attempt, t: seq<Attempt>, v: int)
    ensures WithScore([h] + t, v) == Keep(h, v) + WithScore(t, v)
  {
    var r := [h] + t;
    assert r[0] == h && r[1..] == t;
  }

  lemma {:induction false} WithScoreAppend(a: seq<Attempt>, b: seq<Attempt>, v: int)
    ensures WithScore(a + b, v) == WithScore(a, v) + WithScore(b, v)
    decreases |a|
  {
    if a != [] {
      assert a + b == [a[0]] + (a[1..] + b);
      WithScoreCons(a[0], a[1..] + b, v);
      WithScoreAppend(a[1..], b, v);
      WithScoreCons(a[0], a[1..], v);
      assert a == [a[0]] + a[1..];
    } else {
      assert a + b == b;
    }
  }

  /** Below the insertion point of a descending sequence nothing scores as much as `x`. */
  lemma {:induction false} InsertWithScore(x: Attempt, s: seq<Attempt>, v: int)
    requires Descending(s)
    ensures WithScore(Insert(x, s), v) == WithScore(s, v) + Keep(x, v)
    decreases |s|
  {
    if s == [] {
      WithScoreCons(x, [], v);
      assert Insert(x, s) == [x] + [];
    } else if s[0].score >= x.score {
      var rest := s[1..];
      var inserted := Insert(x, rest);
      assert Descending(rest) by {
        DescendingTail(s);
      }
      InsertWithScore(x, rest, v);
      assert Insert(x, s) == [s[0]] + inserted;
      calc {
        WithScore(Insert(x, s), v);
        == { WithScoreCons(s[0], inserted, v); }
        Keep(s[0], v) + WithScore(inserted, v);
        == 
        Keep(s[0], v) + (WithScore(rest, v) + Keep(x, v));
        ==
        (Keep(s[0], v) + WithScore(rest, v)) + Keep(x, v);
        == { WithScoreCons(s[0], rest, v); assert s == [s[0]] + rest; }
        WithScore(s, v) + Keep(x, v);
      }
    } else {
      InsertInFront(x, s, v);
    }
  }

  lemma InsertInFront(x: Attempt, s: seq<Attempt>, v: int)
    requires s != [] && s[0].score < x.score && Descending(s)
    ensures WithScore(Insert(x, s), v) == WithScore(s, v) + Keep(x, v)
  {
    assert Insert(x, s) == [x] + s;
    WithScoreCons(x, s, v);
    if x.score == v {
      assert forall k :: 0 <= k < |s| ==> s[k].score < v by {
        DescendingTail(s);
      }
      NoneWithScore(s, v);
    } else {
      assert Keep(x, v) == [];
    }
  }

  lemma {:induction false} NoneWithScore(s: seq<Attempt>, v: int)
    requires forall k :: 0 <= k < |s| ==> s[k].score < v
    ensures WithScore(s, v) == []
    decreases |s|
  {
    if s != [] {
      NoneWithScore(s[1..], v);
    }
  }

  lemma WithScoreSnoc(init: seq<Attempt>, last: Attempt, v: int)
    ensures WithScore(init + [last], v) == WithScore(init, v) + Keep(last, v)
  {
    WithScoreAppend(init, [last], v);
    assert [last][1..] == [];
  }

  /** Attempts with equal scores keep their original relative order. */
  lemma {:induction false} SortedIsStable(attempts: seq<Attempt>, v: int)
    ensures WithScore(SortByScore(attempts), v) == WithScore(attempts, v)
    decreases |attempts|
  {
    if attempts != [] {
      var init := attempts[..|attempts| - 1];
      var last := attempts[|attempts| - 1];
      SortedIsStable(init, v);
      assert Descending(SortByScore(init)) by {
        SortedIsDescending(init);
      }
      InsertWithScore(last, SortByScore(init), v);
      assert attempts == init + [last];
      WithScoreSnoc(init, last, v);
    }
  }

  /** `sortedAttempts[0]?.score || 0`. */
  function TopScore(sorted: seq<Attempt>): int {
    if sorted == [] || sorted[0].score == 0 then 0 else sorted[0].score
  }

  /** The top score is the best score of all attempts, and 0 when there are none. */
  lemma TopScoreIsMaximum(attempts: seq<Attempt>)
    ensures attempts == [] ==> TopScore(SortByScore(attempts)) == 0
    ensures forall k :: 0 <= k < |attempts| ==> attempts[k].score <= TopScore(SortByScore(attempts))
    ensures attempts != [] ==> exists k :: 0 <= k < |attempts| && attempts[k].score == TopScore(SortByScore(attempts))
  {
    var sorted := SortByScore(attempts);
    SortedIsDescending(attempts);
    SortedIsPermutation(attempts);
    if attempts != [] {
      forall k | 0 <= k < |attempts| ensures attempts[k].score <= TopScore(sorted) {
        assert attempts[k] in multiset(sorted);
      }
      assert sorted[0] in multiset(attempts);
    }
  }

  /** What is shown in front of a row: a medal for the first three places, the place number after that. */
  datatype Badge = GoldMedal | SilverMedal | BronzeMedal | Place(number: nat)

  function BadgeAt(index: nat): (b: Badge)
    ensures index < 3 <==> !b.Place?
    ensures b == GoldMedal <==> index == 0
    ensures b == SilverMedal <==> index == 1
    ensures b == BronzeMedal <==> index == 2
    ensures b.Place? ==> b.number == index + 1 && b.number > 3
  {
    if index == 0 then GoldMedal
    else if index == 1 then SilverMedal
    else if index == 2 then BronzeMedal
    else Place(index + 1)
  }

  datatype Row = Row(attempt: Attempt, highlighted: bool, badge: Badge)

  /** The rendered leaderboard: the count label and either the ranking or the empty-state invitation. */
  datatype View = View(count: nat, countWord: string, rows: seq<Row>, emptyState: bool)

  /** `attempts.length === 1 ? 'attempt' : 'attempts'`. */
  function AttemptWord(n: nat): (w: string)
    ensures StartsWith(w, "attempt")
    ensures w == "attempt" <==> n == 1
  {
    if n == 1 then "attempt" else "attempts"
  }

  function Render(attempts: seq<Attempt>): (v: View)
    ensures v.count == |attempts|
    ensures v.countWord == AttemptWord(|attempts|)
    ensures v.emptyState <==> attempts == []
    ensures v.emptyState ==> v.rows == []
    ensures !v.emptyState ==> |v.rows| == |attempts|
    ensures forall i :: 0 <= i < |v.rows| ==>
              && v.rows[i].attempt == SortByScore(attempts)[i]
              && v.rows[i].badge == BadgeAt(i)
              && (v.rows[i].highlighted <==> SortByScore(attempts)[i].score == TopScore(SortByScore(attempts)))
  {
    var sorted := SortByScore(attempts);
    var top := TopScore(sorted);
    View(|attempts|, AttemptWord(|attempts|),
         if attempts == [] then []
         else seq(|sorted|, i requires 0 <= i < |sorted| => Row(sorted[i], sorted[i].score == top, BadgeAt(i))),
         attempts == [])
  }

  /**
   * The highlighted rows are exactly the attempts with the best score, and
   * with at least one attempt the first row is one of them.
   */
  lemma HighlightMarksBestScores(attempts: seq<Attempt>)
    requires attempts != []
    ensures Render(attempts).rows[0].highlighted
    ensures forall i :: 0 <= i < |Render(attempts).rows| ==>
              (Render(attempts).rows[i].highlighted <==>
                 forall k :: 0 <= k < |attempts| ==> attempts[k].score <= Render(attempts).rows[i].attempt.score)
  {
    var sorted := SortByScore(attempts);
    var rows := Render(attempts).rows;
    TopScoreIsMaximum(attempts);
    SortedIsPermutation(attempts);
    forall i | 0 <= i < |rows|
      ensures rows[i].highlighted <==> forall k :: 0 <= k < |attempts| ==> attempts[k].score <= rows[i].attempt.score
    {
      assert sorted[i] in multiset(attempts);
      var k :| 0 <= k < |attempts| && attempts[k].score == TopScore(sorted);
    }
  }
}
