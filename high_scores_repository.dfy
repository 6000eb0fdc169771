/**
 * The bounded leaderboard (data/HighScoresRepository.kt). Submitting a score appends it,
 * sorts the list by score, highest first, with a stable sort, and keeps the first ten.
 *
 * The stable sort is modelled as an insertion sort and characterised independently of
 * that choice: its result is sorted and, for every score, lists the entries with that
 * score in their original order; exactly one sequence has both properties.
 */
module HighScoresData {
  import opened HighScoreModel

  const MaxHighScores: int := 10

  ghost predicate SortedByScore(s: seq<HighScore>) {
    forall i, j :: 0 <= i < j < |s| ==> s[i].score >= s[j].score
  }

  /** The entries of `s` whose score is `v`, in their order in `s`. */
  function ScoreClass(s: seq<HighScore>, v: int): seq<HighScore>
    decreases |s|
  {
    if s == [] then []
    else ScoreClass(s[..|s| - 1], v) + (if s[|s| - 1].score == v then [s[|s| - 1]] else [])
  }

  /** Places `x` after every entry of the sorted `t` whose score is at least its own. */
  function InsertByScore(t: seq<HighScore>, x: HighScore): (r: seq<HighScore>)
    ensures multiset(r) == multiset(t) + multiset{x}
    ensures |r| == |t| + 1
    decreases |t|
  {
    if t == [] || t[|t| - 1].score >= x.score then t + [x]
    else
      assert t == t[..|t| - 1] + [t[|t| - 1]];
      InsertByScore(t[..|t| - 1], x) + [t[|t| - 1]]
  }

  /** Kotlin's `sortedByDescending { it.score }`, a stable sort. */
  function SortByScoreDescending(s: seq<HighScore>): (r: seq<HighScore>)
    ensures multiset(r) == multiset(s)
    ensures |r| == |s|
    decreases |s|
  {
    if s == [] then []
    else
      assert s == s[..|s| - 1] + [s[|s| - 1]];
      InsertByScore(SortByScoreDescending(s[..|s| - 1]), s[|s| - 1])
  }

  /**
   * `(current + entry).sortedByDescending { it.score }.take(10)`. The kept list is sorted
   * by score, holds min(|current| + 1, 10) entries, all taken from the current list and
   * the new entry, without any entry invented or altered.
   */
  function Rank(current: seq<HighScore>, entry: HighScore): (r: seq<HighScore>)
    ensures SortedByScore(r)
    ensures |r| == if |current| + 1 <= MaxHighScores then |current| + 1 else MaxHighScores
    ensures multiset(r) <= multiset(current + [entry])
  {
    var sorted := SortByScoreDescending(current + [entry]);
    SortIsSorted(current + [entry]);
    if |sorted| <= MaxHighScores then sorted
    else
      assert sorted == sorted[..MaxHighScores] + sorted[MaxHighScores..];
      sorted[..MaxHighScores]
  }

  lemma SortAppend(s: seq<HighScore>, x: HighScore)
    ensures SortByScoreDescending(s + [x]) == InsertByScore(SortByScoreDescending(s), x)
  {
    assert (s + [x])[..|s|] == s;
  }

  lemma ScoreClassAppend(s: seq<HighScore>, x: HighScore, v: int)
    ensures ScoreClass(s + [x], v) == ScoreClass(s, v) + (if x.score == v then [x] else [])
  {
    assert (s + [x])[..|s|] == s;
  }

  lemma {:induction false} ScoreClassMembers(s: seq<HighScore>, v: int, x: HighScore)
    ensures x in ScoreClass(s, v) <==> x in s && x.score == v
    decreases |s|
  {
    if s != [] {
      assert s == s[..|s| - 1] + [s[|s| - 1]];
      ScoreClassMembers(s[..|s| - 1], v, x);
    }
  }

  lemma SortedAppend(s: seq<HighScore>, x: HighScore)
    requires SortedByScore(s)
    requires forall y :: y in s ==> y.score >= x.score
    ensures SortedByScore(s + [x])
  {
    forall i, j | 0 <= i < j < |s + [x]|
      ensures (s + [x])[i].score >= (s + [x])[j].score
    {
      if j == |s| {
        assert (s + [x])[i] == s[i] && s[i] in s;
      }
    }
  }

  /** Every entry of a sorted list scores at least as much as its last one. */
  lemma SortedLast(s: seq<HighScore>)
    requires SortedByScore(s) && s != []
    ensures forall y :: y in s ==> y.score >= s[|s| - 1].score
  {
  }

  lemma {:induction false} InsertSorted(t: seq<HighScore>, x: HighScore)
    requires SortedByScore(t)
    ensures SortedByScore(InsertByScore(t, x))
    decreases |t|
  {
    if t == [] || t[|t| - 1].score >= x.score {
      if t != [] {
        SortedLast(t);
      }
      SortedAppend(t, x);
    } else {
      var init, last := t[..|t| - 1], t[|t| - 1];
      assert t == init + [last];
      InsertSorted(init, x);
      var r := InsertByScore(init, x);
      forall y | y in r
        ensures y.score >= last.score
      {
        assert y in multiset(r);
        if y != x {
          assert y in init;
        }
      }
      SortedAppend(r, last);
    }
  }

  /** Inserting `x` adds it at the end of its own score class and leaves the others alone. */
  lemma {:induction false} InsertScoreClass(t: seq<HighScore>, x: HighScore, v: int)
    ensures ScoreClass(InsertByScore(t, x), v)
            == ScoreClass(t, v) + (if x.score == v then [x] else [])
    decreases |t|
  {
    if t == [] || t[|t| - 1].score >= x.score {
      ScoreClassAppend(t, x, v);
    } else {
      var init, last := t[..|t| - 1], t[|t| - 1];
      assert t == init + [last];
      InsertScoreClass(init, x, v);
      ScoreClassAppend(InsertByScore(init, x), last, v);
      ScoreClassAppend(init, last, v);
    }
  }

  lemma {:induction false} SortIsSorted(s: seq<HighScore>)
    ensures SortedByScore(SortByScoreDescending(s))
    decreases |s|
  {
    if s != [] {
      SortIsSorted(s[..|s| - 1]);
      InsertSorted(SortByScoreDescending(s[..|s| - 1]), s[|s| - 1]);
    }
  }

  /** The sort is stable: entries of equal score keep their relative order. */
  lemma {:induction false} SortIsStable(s: seq<HighScore>, v: int)
    ensures ScoreClass(SortByScoreDescending(s), v) == ScoreClass(s, v)
    decreases |s|
  {
    if s != [] {
      var init, last := s[..|s| - 1], s[|s| - 1];
      SortIsStable(init, v);
      InsertScoreClass(SortByScoreDescending(init), last, v);
    }
  }

  lemma LastInOwnClass(s: seq<HighScore>)
    requires s != []
    ensures var c := ScoreClass(s, s[|s| - 1].score); c != [] && c[|c| - 1] == s[|s| - 1]
  {
  }

  /** `r` and `q` hold the same entries of every score, in the same order. */
  ghost predicate SameClasses(r: seq<HighScore>, q: seq<HighScore>) {
    forall v :: ScoreClass(r, v) == ScoreClass(q, v)
  }

  /** Two sorted lists with the same score classes are the same list. */
  lemma {:induction false} SortedUnique(r: seq<HighScore>, q: seq<HighScore>)
    requires SortedByScore(r) && SortedByScore(q) && SameClasses(r, q)
    ensures r == q
    decreases |r|
  {
    if r == [] && q != [] {
      LastInOwnClass(q);
    } else if r != [] && q == [] {
      LastInOwnClass(r);
    } else if r != [] {
      var r', q' := r[..|r| - 1], q[..|q| - 1];
      DropLastOfBoth(r, q);
      SortedUnique(r', q');
      assert r == r' + [r[|r| - 1]] && q == q' + [q[|q| - 1]];
    }
  }

  /**
   * Two non-empty sorted lists with the same score classes end with the same entry and,
   * without it, are again sorted lists with the same score classes.
   */
  lemma DropLastOfBoth(r: seq<HighScore>, q: seq<HighScore>)
    requires SortedByScore(r) && SortedByScore(q) && r != [] && q != [] && SameClasses(r, q)
    ensures r[|r| - 1] == q[|q| - 1]
    ensures SortedByScore(r[..|r| - 1]) && SortedByScore(q[..|q| - 1])
    ensures SameClasses(r[..|r| - 1], q[..|q| - 1])
  {
    SameLastEntry(r, q);
    var r', q', a := r[..|r| - 1], q[..|q| - 1], r[|r| - 1];
    assert r' + [a] == r && q' + [a] == q;
    SameClassesDropLast(r', q', a);
  }

  /** Two non-empty sorted lists with the same score classes end with the same entry. */
  lemma SameLastEntry(r: seq<HighScore>, q: seq<HighScore>)
    requires SortedByScore(r) && SortedByScore(q) && r != [] && q != [] && SameClasses(r, q)
    ensures r[|r| - 1] == q[|q| - 1]
  {
    LastScoresAgree(r, q);
    LastInOwnClass(r);
    LastInOwnClass(q);
    assert ScoreClass(r, r[|r| - 1].score) == ScoreClass(q, q[|q| - 1].score);
  }

  /** Two non-empty sorted lists with the same score classes end with equal scores. */
  lemma LastScoresAgree(r: seq<HighScore>, q: seq<HighScore>)
    requires SortedByScore(r) && SortedByScore(q) && r != [] && q != [] && SameClasses(r, q)
    ensures r[|r| - 1].score == q[|q| - 1].score
  {
    var a, b := r[|r| - 1], q[|q| - 1];
    assert a in q by {
      ScoreClassMembers(r, a.score, a);
      ScoreClassMembers(q, a.score, a);
      assert ScoreClass(r, a.score) == ScoreClass(q, a.score);
    }
    assert b in r by {
      ScoreClassMembers(q, b.score, b);
      ScoreClassMembers(r, b.score, b);
      assert ScoreClass(r, b.score) == ScoreClass(q, b.score);
    }
    SortedLast(r);
    SortedLast(q);
  }

  /** Lists whose score classes agree once the same entry is appended agree without it. */
  lemma SameClassesDropLast(r: seq<HighScore>, q: seq<HighScore>, a: HighScore)
    requires SameClasses(r + [a], q + [a])
    ensures SameClasses(r, q)
  {
    forall v
      ensures ScoreClass(r, v) == ScoreClass(q, v)
    {
      var extra := if a.score == v then [a] else [];
      ScoreClassAppend(r, a, v);
      ScoreClassAppend(q, a, v);
      assert ScoreClass(r + [a], v) == ScoreClass(q + [a], v);
      assert ScoreClass(r, v) + extra == ScoreClass(q, v) + extra;
      assert (ScoreClass(r, v) + extra)[..|ScoreClass(r, v)|] == ScoreClass(r, v);
      assert (ScoreClass(q, v) + extra)[..|ScoreClass(q, v)|] == ScoreClass(q, v);
    }
  }

  /**
   * The sort is the one and only ordering of `s` that is sorted by score and stable:
   * `r` is its result exactly when both hold.
   */
  lemma SortCharacterization(s: seq<HighScore>, r: seq<HighScore>)
    ensures r == SortByScoreDescending(s) ==> SortedByScore(r)
    ensures r == SortByScoreDescending(s) ==> SameClasses(r, s)
    ensures SortedByScore(r) && SameClasses(r, s) ==> r == SortByScoreDescending(s)
  {
    var sorted := SortByScoreDescending(s);
    SortIsSorted(s);
    forall v
      ensures ScoreClass(sorted, v) == ScoreClass(s, v)
    {
      SortIsStable(s, v);
    }
    if SortedByScore(r) && SameClasses(r, s) {
      forall v
        ensures ScoreClass(r, v) == ScoreClass(sorted, v)
      {
        assert ScoreClass(r, v) == ScoreClass(s, v);
      }
      SortedUnique(r, sorted);
    }
  }

  /** Sorting a list that is already sorted leaves it as it is. */
  lemma SortOfSorted(s: seq<HighScore>)
    requires SortedByScore(s)
    ensures SortByScoreDescending(s) == s
  {
    SortCharacterization(s, s);
  }

  lemma ScoreClassPrefix(s: seq<HighScore>, k: nat, v: int)
    requires k <= |s|
    ensures ScoreClass(s[..k], v) <= ScoreClass(s, v)
    decreases |s| - k
  {
    if k < |s| {
      var init := s[..|s| - 1];
      assert init[..k] == s[..k];
      ScoreClassPrefix(init, k, v);
      assert ScoreClass(s, v) == ScoreClass(init, v) + (if s[|s| - 1].score == v then [s[|s| - 1]] else []);
    } else {
      assert s[..k] == s;
    }
  }

  /** In a sorted list, everything before position k scores at least everything after it. */
  lemma SortedSplit(s: seq<HighScore>, k: nat)
    requires SortedByScore(s) && k <= |s|
    ensures forall x, y :: x in s[..k] && y in s[k..] ==> x.score >= y.score
  {
    forall x, y | x in s[..k] && y in s[k..]
      ensures x.score >= y.score
    {
      var i :| 0 <= i < k && s[..k][i] == x;
      var j :| 0 <= j < |s| - k && s[k..][j] == y;
      assert s[i] == x && s[k + j] == y;
    }
  }

  /** Top-ten retention: no dropped entry scores more than a kept one. */
  lemma RankKeepsTheBest(current: seq<HighScore>, entry: HighScore)
    ensures forall x, y :: x in Rank(current, entry)
              && y in multiset(current + [entry]) - multiset(Rank(current, entry))
              ==> x.score >= y.score
  {
    var sorted := SortByScoreDescending(current + [entry]);
    SortIsSorted(current + [entry]);
    if |sorted| > MaxHighScores {
      var kept, dropped := sorted[..MaxHighScores], sorted[MaxHighScores..];
      assert sorted == kept + dropped;
      assert multiset(current + [entry]) == multiset(kept) + multiset(dropped);
      assert multiset(current + [entry]) - multiset(kept) == multiset(dropped);
      SortedSplit(sorted, MaxHighScores);
    }
  }

  /**
   * Stability of the submission: for every score, the kept entries with that score are
   * the first ones of the stored entries with that score followed by the new entry.
   */
  lemma RankIsStable(current: seq<HighScore>, entry: HighScore, v: int)
    ensures ScoreClass(Rank(current, entry), v)
            <= ScoreClass(current, v) + (if entry.score == v then [entry] else [])
  {
    var sorted := SortByScoreDescending(current + [entry]);
    SortIsStable(current + [entry], v);
    ScoreClassAppend(current, entry, v);
    ScoreClassPrefix(sorted, if |sorted| <= MaxHighScores then |sorted| else MaxHighScores, v);
    assert |sorted| <= MaxHighScores ==> sorted[..|sorted|] == sorted;
  }

  /**
   * A full, sorted board whose tenth score is at least the new score is left unchanged
   * by the submission.
   */
  lemma RankFullBoardUnchanged(current: seq<HighScore>, entry: HighScore)
    requires SortedByScore(current) && |current| == MaxHighScores
    requires current[MaxHighScores - 1].score >= entry.score
    ensures Rank(current, entry) == current
  {
    var all := current + [entry];
    assert all[..|all| - 1] == current;
    SortOfSorted(current);
    assert SortByScoreDescending(all) == current + [entry];
    assert (current + [entry])[..MaxHighScores] == current;
  }

  /**
   * Insertion puts `x` between the entries scoring at least as much as it, which come
   * first, and those scoring less, which come last.
   */
  lemma {:induction false} InsertPosition(front: seq<HighScore>, back: seq<HighScore>, x: HighScore)
    requires forall y :: y in front ==> y.score >= x.score
    requires forall y :: y in back ==> y.score < x.score
    ensures InsertByScore(front + back, x) == front + [x] + back
    decreases |back|
  {
    var t := front + back;
    if back == [] {
      assert t == front;
      if front != [] {
        assert front[|front| - 1] in front;
      }
    } else {
      var back', last := back[..|back| - 1], back[|back| - 1];
      assert back == back' + [last] && last in back;
      assert t == (front + back') + [last];
      InsertPastSmaller(front + back', last, x);
      assert forall y :: y in back' ==> y in back;
      InsertPosition(front, back', x);
      AppendRegroup(front, x, back', last);
    }
  }

  /** An entry scoring less than `x` stays behind it. */
  lemma InsertPastSmaller(t: seq<HighScore>, last: HighScore, x: HighScore)
    requires last.score < x.score
    ensures InsertByScore(t + [last], x) == InsertByScore(t, x) + [last]
  {
    assert (t + [last])[..|t|] == t;
  }

  lemma AppendRegroup(front: seq<HighScore>, x: HighScore, back: seq<HighScore>, y: HighScore)
    ensures front + [x] + back + [y] == front + [x] + (back + [y])
  {
  }

  /**
   * On a sorted board with room left, a submission keeps every stored entry and places
   * the new one after all stored entries scoring at least as much and before the rest.
   */
  lemma RankPlacesEntry(front: seq<HighScore>, back: seq<HighScore>, entry: HighScore)
    requires SortedByScore(front + back) && |front + back| < MaxHighScores
    requires forall y :: y in front ==> y.score >= entry.score
    requires forall y :: y in back ==> y.score < entry.score
    ensures Rank(front + back, entry) == front + [entry] + back
  {
    var current := front + back;
    assert Rank(current, entry) == InsertByScore(current, entry) by {
      SortAppend(current, entry);
      SortOfSorted(current);
    }
    InsertPosition(front, back, entry);
  }

  /**
   * On the board 80, 50, 30, a new 80 is placed after the 80 already there and before
   * the 50: equal scores keep the order they were submitted in.
   */
  lemma TiedSubmissionExample(a: HighScore, b: HighScore, c: HighScore, d: HighScore)
    requires a.score == 50 && b.score == 80 && c.score == 30 && d.score == 80
    ensures Rank([b, a, c], d) == [b, d, a, c]
  {
    assert [b] + [a, c] == [b, a, c] && [b] + [d] + [a, c] == [b, d, a, c];
    RankPlacesEntry([b], [a, c], d);
  }

  /** The first submission to an empty board is the whole board. */
  lemma FirstSubmission(a: HighScore)
    ensures Rank([], a) == [a]
  {
    var none: seq<HighScore> := [];
    assert none + none == none && none + [a] + none == [a];
    RankPlacesEntry(none, none, a);
  }

  /** A higher score submitted to a one-entry board goes in front of it. */
  lemma SecondSubmission(a: HighScore, b: HighScore)
    requires b.score > a.score
    ensures Rank([a], b) == [b, a]
  {
    var none: seq<HighScore> := [];
    assert none + [a] == [a] && none + [b] + [a] == [b, a];
    RankPlacesEntry(none, [a], b);
  }

  /** A lowest score submitted to a sorted two-entry board goes last. */
  lemma ThirdSubmission(a: HighScore, b: HighScore, c: HighScore)
    requires b.score >= a.score >= c.score
    ensures Rank([b, a], c) == [b, a, c]
  {
    var none: seq<HighScore> := [];
    assert [b, a] + none == [b, a] && [b, a] + [c] + none == [b, a, c];
    RankPlacesEntry([b, a], none, c);
  }

  /**
   * Submitting scores 50, 80, 30 and 80 to an empty board ranks the two 80s first, in the
   * order they were submitted, then 50, then 30.
   */
  lemma SubmissionOrderExample(a: HighScore, b: HighScore, c: HighScore, d: HighScore)
    requires a.score == 50 && b.score == 80 && c.score == 30 && d.score == 80
    ensures Rank(Rank(Rank(Rank([], a), b), c), d) == [b, d, a, c]
  {
    FirstSubmission(a);
    SecondSubmission(a, b);
    ThirdSubmission(a, b, c);
    TiedSubmissionExample(a, b, c, d);
  }

  /**
   * The stored value under the "high_scores" key: the text of a list of entries, modelled
   * by the list it decodes to, or text that does not decode.
   */
  datatype Stored = Encoded(scores: seq<HighScore>) | Undecodable

  /** `getHighScores(preferences)`: a missing key or undecodable text reads as no scores. */
  function ReadScores(stored: Option<Stored>): (scores: seq<HighScore>)
    ensures stored.None? || stored == Some(Undecodable) ==> scores == []
    ensures stored.Some? && stored.value.Encoded? ==> scores == stored.value.scores
  {
    match stored
    case None => []
    case Some(Undecodable) => []
    case Some(Encoded(scores)) => scores
  }

  class HighScoresRepository {
    /** The value stored under the "high_scores" key, if any. */
    var preferences: Option<Stored>

    constructor (initial: Option<Stored>)
      ensures preferences == initial
    {
      preferences := initial;
    }

    /** The list an observer of the store sees now. */
    method GetHighScores() returns (scores: seq<HighScore>)
      ensures preferences.None? ==> scores == []
      ensures preferences == Some(Undecodable) ==> scores == []
      ensures preferences.Some? && preferences.value.Encoded? ==> scores == preferences.value.scores
    {
      scores := ReadScores(preferences);
    }

    /** `addHighScore`: one read-modify-write of the stored list. */
    method AddHighScore(highScore: HighScore)
      modifies this
      ensures preferences == Some(Encoded(Rank(ReadScores(old(preferences)), highScore)))
      ensures SortedByScore(ReadScores(preferences))
      ensures |ReadScores(preferences)| <= MaxHighScores
      ensures multiset(ReadScores(preferences)) <= multiset(ReadScores(old(preferences)) + [highScore])
    {
      var currentScores := ReadScores(preferences);
      var newScores := Rank(currentScores, highScore);
      preferences := Some(Encoded(newScores));
    }

    /** `clearHighScores`: removes the key, so the list reads as empty. */
    method ClearHighScores()
      modifies this
      ensures preferences == None
      ensures ReadScores(preferences) == []
    {
      preferences := None;
    }
  }
}
