/** Ordering teams by score, highest first, as
    `[...teams].sort((a, b) => b.score - a.score)` does.  JavaScript's sort
    is stable, so teams with equal scores keep their roster order; the
    insertion sort below is stable in the same way. */
module Ranking {
  import opened Simulation

  predicate SortedByScore(s: seq<Team>)
  {
    forall i, j :: 0 <= i < j < |s| ==> s[i].score >= s[j].score
  }

  /** A team that scores at least as much as the head of a sorted roster
      can go in front of it. */
  lemma ConsSorted(a: Team, t: seq<Team>)
    requires SortedByScore(t) && (t != [] ==> a.score >= t[0].score)
    ensures SortedByScore([a] + t)
  {
    var r := [a] + t;
    forall i, j | 0 <= i < j < |r|
      ensures r[i].score >= r[j].score
    {
      assert r[j] == t[j - 1];
      if 0 < i {
        assert r[i] == t[i - 1];
      }
    }
  }

  lemma TailSorted(s: seq<Team>)
    requires SortedByScore(s) && s != []
    ensures SortedByScore(s[1..])
  {
  }

  /** Put `x` before the first team it does not score below. */
  function Insert(x: Team, s: seq<Team>): (r: seq<Team>)
    requires SortedByScore(s)
    ensures |r| == |s| + 1
    ensures SortedByScore(r)
    ensures r[0] == x || (s != [] && r[0] == s[0])
  {
    if s == [] || x.score >= s[0].score then
      ConsSorted(x, s);
      [x] + s
    else
      TailSorted(s);
      var rest := Insert(x, s[1..]);
      assert rest[0].score <= s[0].score;
      ConsSorted(s[0], rest);
      [s[0]] + rest
  }

  /** Inserting adds exactly that team and loses none. */
  lemma {:induction false} InsertPermutes(x: Team, s: seq<Team>)
    requires SortedByScore(s)
    ensures multiset(Insert(x, s)) == multiset(s) + multiset{x}
  {
    if s != [] && x.score < s[0].score {
      TailSorted(s);
      InsertPermutes(x, s[1..]);
      assert Insert(x, s) == [s[0]] + Insert(x, s[1..]);
      assert s == [s[0]] + s[1..];
    }
  }

  /** The teams ordered by non-increasing score. */
  function SortByScore(s: seq<Team>): (r: seq<Team>)
    ensures |r| == |s|
    ensures multiset(r) == multiset(s)
    ensures SortedByScore(r)
  {
    if s == [] then []
    else
      assert s == [s[0]] + s[1..];
      InsertPermutes(s[0], SortByScore(s[1..]));
      Insert(s[0], SortByScore(s[1..]))
  }

  /** The teams whose score is `x`, in roster order. */
  function WithScore(s: seq<Team>, x: real): (r: seq<Team>)
    ensures |r| <= |s|
    ensures forall i :: 0 <= i < |r| ==> r[i].score == x
  {
    if s == [] then []
    else (if s[0].score == x then [s[0]] else []) + WithScore(s[1..], x)
  }

  /** `Insert` puts the new team in front of every team with its score, and
      keeps the order among the others. */
  lemma {:induction false} InsertStable(t: Team, s: seq<Team>, x: real)
    requires SortedByScore(s)
    ensures WithScore(Insert(t, s), x) == WithScore([t] + s, x)
  {
    assert ([t] + s)[1..] == s;
    if s != [] && t.score < s[0].score {
      var rest := Insert(t, s[1..]);
      TailSorted(s);
      InsertStable(t, s[1..], x);
      assert ([s[0]] + rest)[1..] == rest;
      assert ([t] + s[1..])[1..] == s[1..];
    }
  }

  /** The sort is stable: the teams of any one score come out in the order
      the roster lists them. */
  lemma {:induction false} SortStable(s: seq<Team>, x: real)
    ensures WithScore(SortByScore(s), x) == WithScore(s, x)
  {
    if s != [] {
      var rest := SortByScore(s[1..]);
      SortStable(s[1..], x);
      InsertStable(s[0], rest, x);
      assert ([s[0]] + rest)[1..] == rest;
    }
  }

  /** The first team of the ordering is on the roster and scores at least
      as much as every team on it. */
  lemma HeadIsBest(s: seq<Team>)
    requires |s| > 0
    ensures SortByScore(s)[0] in s
    ensures forall j :: 0 <= j < |s| ==> SortByScore(s)[0].score >= s[j].score
  {
    var r := SortByScore(s);
    assert r[0] in multiset(r);
    forall j | 0 <= j < |s|
      ensures r[0].score >= s[j].score
    {
      assert s[j] in multiset(s);
      var p :| 0 <= p < |r| && r[p] == s[j];
    }
  }

  /** Which team heads the result of `Insert`. */
  lemma InsertHead(x: Team, s: seq<Team>)
    requires SortedByScore(s)
    ensures Insert(x, s)[0] == if s == [] || x.score >= s[0].score then x else s[0]
  {
  }

  /** The index of the first team in roster order whose score no other
      team's exceeds. */
  function FirstBest(s: seq<Team>): (k: nat)
    requires |s| > 0
    ensures k < |s|
    ensures forall j :: 0 <= j < |s| ==> s[k].score >= s[j].score
    ensures forall j :: 0 <= j < k ==> s[j].score < s[k].score
  {
    if |s| == 1 then 0
    else
      var k' := FirstBest(s[1..]);
      FirstBestPrepend(s, k');
      if s[0].score >= s[1 + k'].score then 0 else 1 + k'
  }

  /** Prepending a team to a roster whose first best team is at `k'`. */
  lemma FirstBestPrepend(s: seq<Team>, k': nat)
    requires |s| > 1 && k' < |s| - 1
    requires forall j :: 0 <= j < |s| - 1 ==> s[1..][k'].score >= s[1..][j].score
    requires forall j :: 0 <= j < k' ==> s[1..][j].score < s[1..][k'].score
    ensures s[0].score >= s[1 + k'].score ==> forall j :: 0 <= j < |s| ==> s[0].score >= s[j].score
    ensures s[0].score < s[1 + k'].score ==>
      (forall j :: 0 <= j < |s| ==> s[1 + k'].score >= s[j].score) &&
      (forall j :: 0 <= j < 1 + k' ==> s[j].score < s[1 + k'].score)
  {
    forall j | 1 <= j < |s|
      ensures s[1 + k'].score >= s[j].score
    {
      assert s[1..][j - 1] == s[j];
    }
    forall j | 1 <= j < 1 + k'
      ensures s[j].score < s[1 + k'].score
    {
      assert s[1..][j - 1] == s[j];
    }
  }

  /** The first team of the ordering is the first team in roster order
      whose score no other team's exceeds: this is what stability gives. */
  lemma {:induction false} SortHeadIsFirstBest(s: seq<Team>)
    requires |s| > 0
    ensures SortByScore(s)[0] == s[FirstBest(s)]
  {
    var rest := SortByScore(s[1..]);
    InsertHead(s[0], rest);
    if |s| > 1 {
      SortHeadIsFirstBest(s[1..]);
      assert rest[0] == s[1 + FirstBest(s[1..])];
    }
  }
}
