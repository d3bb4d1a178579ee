/**
 * The final ranking: a copy of the players sorted by descending score
 * (JavaScript's Array.prototype.sort is stable, so equal scores keep their
 * order), shown as one row per player with a crown on the first row.
 */
module Leaderboard {
  import opened Types

  predicate NonIncreasing(s: seq<Player>)
  {
    forall i, j :: 0 <= i < j < |s| ==> s[i].score >= s[j].score
  }

  /** Puts x in front of the first player who does not outscore it. */
  function InsertByScore(x: Player, t: seq<Player>): (r: seq<Player>)
    ensures |r| == |t| + 1
    ensures multiset(r) == multiset(t) + multiset{x}
  {
    if |t| == 0 then [x]
    else if t[0].score <= x.score then [x] + t
    else
      assert t == [t[0]] + t[1..];
      [t[0]] + InsertByScore(x, t[1..])
  }

  /** Inserting never raises the highest score above a common bound. */
  lemma {:induction false} InsertBounded(x: Player, t: seq<Player>, b: int)
    requires x.score <= b
    requires forall i :: 0 <= i < |t| ==> t[i].score <= b
    ensures forall j :: 0 <= j < |InsertByScore(x, t)| ==> InsertByScore(x, t)[j].score <= b
  {
    if |t| > 0 && t[0].score > x.score {
      InsertBounded(x, t[1..], b);
      var r' := InsertByScore(x, t[1..]);
      assert InsertByScore(x, t) == [t[0]] + r';
    }
  }

  /** A player who outscores no one ahead of a ranking, put in front of it, gives a ranking. */
  lemma ConsKeepsOrder(h: Player, t: seq<Player>)
    requires NonIncreasing(t)
    requires forall j :: 0 <= j < |t| ==> t[j].score <= h.score
    ensures NonIncreasing([h] + t)
  {
    var r := [h] + t;
    forall i, j | 0 <= i < j < |r| ensures r[i].score >= r[j].score {
      assert r[j] == t[j - 1];
      if i > 0 {
        assert r[i] == t[i - 1];
      }
    }
  }

  /** Inserting into a ranking gives a ranking. */
  lemma {:induction false} InsertKeepsOrder(x: Player, t: seq<Player>)
    requires NonIncreasing(t)
    ensures NonIncreasing(InsertByScore(x, t))
  {
    if |t| > 0 && t[0].score > x.score {
      InsertKeepsOrder(x, t[1..]);
      InsertBounded(x, t[1..], t[0].score);
      ConsKeepsOrder(t[0], InsertByScore(x, t[1..]));
    }
  }

  /** The comparator (a, b) => b.score - a.score, as a stable insertion sort. */
  function SortByScore(s: seq<Player>): (r: seq<Player>)
    ensures |r| == |s|
    ensures multiset(r) == multiset(s)
    ensures NonIncreasing(r)
  {
    if |s| == 0 then []
    else
      assert s == [s[0]] + s[1..];
      InsertKeepsOrder(s[0], SortByScore(s[1..]));
      InsertByScore(s[0], SortByScore(s[1..]))
  }

  /** The players with score v, in order. */
  function WithScore(s: seq<Player>, v: int): seq<Player>
  {
    if |s| == 0 then []
    else if s[0].score == v then [s[0]] + WithScore(s[1..], v)
    else WithScore(s[1..], v)
  }

  lemma {:induction false} InsertWithScore(x: Player, t: seq<Player>, v: int)
    ensures WithScore(InsertByScore(x, t), v) == if x.score == v then [x] + WithScore(t, v) else WithScore(t, v)
  {
    if |t| == 0 {
    } else if t[0].score <= x.score {
      var r := [x] + t;
      assert r[1..] == t;
    } else {
      var r' := InsertByScore(x, t[1..]);
      var r := [t[0]] + r';
      assert r[1..] == r';
      InsertWithScore(x, t[1..], v);
    }
  }

  /** The sort is stable: for every score, the players with that score appear in their original order. */
  lemma {:induction false} SortIsStable(s: seq<Player>, v: int)
    ensures WithScore(SortByScore(s), v) == WithScore(s, v)
  {
    if |s| > 0 {
      SortIsStable(s[1..], v);
      InsertWithScore(s[0], SortByScore(s[1..]), v);
    }
  }

  /** The highest score. */
  function MaxScore(s: seq<Player>): (m: int)
    requires |s| > 0
    ensures exists i :: 0 <= i < |s| && s[i].score == m
    ensures forall i :: 0 <= i < |s| ==> s[i].score <= m
  {
    if |s| == 1 then s[0].score
    else
      var m' := MaxScore(s[1..]);
      assert forall i :: 1 <= i < |s| ==> s[i] == s[1..][i - 1];
      if s[0].score >= m' then s[0].score else m'
  }

  /** The first player of the ranking holds the highest score. */
  lemma SortedHeadIsMax(s: seq<Player>)
    requires |s| > 0
    ensures SortByScore(s)[0].score == MaxScore(s)
  {
    var r := SortByScore(s);
    assert r[0] in multiset(s);
    var k :| 0 <= k < |s| && s[k].score == MaxScore(s);
    assert s[k] in multiset(r);
  }

  /** WithScore keeps exactly the players with that score. */
  lemma {:induction false} WithScoreMembers(s: seq<Player>, v: int)
    ensures forall p :: p in WithScore(s, v) <==> p in s && p.score == v
  {
    if |s| > 0 {
      WithScoreMembers(s[1..], v);
      assert s == [s[0]] + s[1..];
    }
  }

  datatype RankCell = Crown | Rank(n: nat)

  datatype Row = Row(rank: RankCell, name: string, score: int)

  /** The table: row i shows sorted player i, with the crown on row 0 and the number i + 1 otherwise. */
  function Rows(players: seq<Player>): (r: seq<Row>)
    ensures |r| == |players|
    ensures |r| > 0 ==> r[0].rank == Crown && r[0].score == MaxScore(players)
    ensures forall i :: 0 < i < |r| ==> r[i].rank == Rank(i + 1)
    ensures forall i, j :: 0 <= i < j < |r| ==> r[i].score >= r[j].score
  {
    var sorted := SortByScore(players);
    var rows := seq(|sorted|, i requires 0 <= i < |sorted| =>
      Row(if i == 0 then Crown else Rank(i + 1), sorted[i].name, sorted[i].score));
    if |sorted| > 0 then SortedHeadIsMax(players); rows else rows
  }

  /** Row i shows the name and score of player i of the sorted list. */
  lemma RowsShowSorted(players: seq<Player>)
    ensures var r := Rows(players);
      forall i :: 0 <= i < |r| ==>
        r[i].name == SortByScore(players)[i].name && r[i].score == SortByScore(players)[i].score
  {
  }
}
