/**
 * The `gameOver` ranking: the entries of the user-score index are copied
 * in iteration order, sorted with `Collections.sort` (a stable sort) under
 * a comparator that orders by score, highest first, and then the user ids
 * are read off in that order.
 */
module Leaderboard {

  /** One `Map.Entry<Long, Integer>` of the score index: user id and score. */
  datatype ScoreEntry = ScoreEntry(userIdx: int, score: int)

  /** `Integer.compareTo`: the sign of x - y. */
  function CompareInts(x: int, y: int): (r: int)
    ensures r == -1 || r == 0 || r == 1
    ensures r < 0 <==> x < y
    ensures r == 0 <==> x == y
  {
    if x < y then -1 else if x == y then 0 else 1
  }

  /** The comparator: `entry2.getValue().compareTo(entry1.getValue())`. */
  function CompareByScoreDesc(e1: ScoreEntry, e2: ScoreEntry): (r: int)
    ensures r < 0 <==> e1.score > e2.score
    ensures r == 0 <==> e1.score == e2.score
    ensures r > 0 <==> e1.score < e2.score
  {
    CompareInts(e2.score, e1.score)
  }

  /** The comparator meets `Comparator`'s contract: antisymmetric and transitive. */
  lemma ComparatorContract(a: ScoreEntry, b: ScoreEntry, c: ScoreEntry)
    ensures CompareByScoreDesc(a, b) == -CompareByScoreDesc(b, a)
    ensures CompareByScoreDesc(a, b) <= 0 && CompareByScoreDesc(b, c) <= 0 ==> CompareByScoreDesc(a, c) <= 0
    ensures CompareByScoreDesc(a, b) == 0 ==> CompareByScoreDesc(a, c) == CompareByScoreDesc(b, c)
  {
  }

  /** Scores never increase along the list: no entry precedes one the comparator puts before it. */
  predicate SortedDesc(s: seq<ScoreEntry>)
  {
    forall i, j :: 0 <= i < j < |s| ==> ScoreAt(s, i) >= ScoreAt(s, j)
  }

  function ScoreAt(s: seq<ScoreEntry>, i: int): int
    requires 0 <= i < |s|
  {
    s[i].score
  }

  /** The entries with score `v`, in their order in `s`. */
  function WithScore(s: seq<ScoreEntry>, v: int): seq<ScoreEntry>
  {
    if s == [] then []
    else (if s[0].score == v then [s[0]] else []) + WithScore(s[1..], v)
  }

  /** WithScore keeps exactly the entries of score `v`. */
  lemma {:induction false} WithScoreMembers(s: seq<ScoreEntry>, v: int)
    ensures forall x :: x in WithScore(s, v) <==> x in s && x.score == v
  {
    if s != [] {
      assert s == [s[0]] + s[1..];
      WithScoreMembers(s[1..], v);
    }
  }

  lemma {:induction false} WithScoreAppend(a: seq<ScoreEntry>, b: seq<ScoreEntry>, v: int)
    ensures WithScore(a + b, v) == WithScore(a, v) + WithScore(b, v)
  {
    if a == [] {
      assert a + b == b;
    } else {
      var head := if a[0].score == v then [a[0]] else [];
      assert (a + b)[0] == a[0];
      assert (a + b)[1..] == a[1..] + b;
      WithScoreAppend(a[1..], b, v);
      calc {
        WithScore(a + b, v);
        head + WithScore(a[1..] + b, v);
        head + (WithScore(a[1..], v) + WithScore(b, v));
        (head + WithScore(a[1..], v)) + WithScore(b, v);
        WithScore(a, v) + WithScore(b, v);
      }
    }
  }

  /** Insert `e` into a sorted list after every entry the comparator does not put behind it. */
  function Insert(e: ScoreEntry, s: seq<ScoreEntry>): (r: seq<ScoreEntry>)
    ensures |r| == |s| + 1
  {
    if s == [] then [e]
    else if CompareByScoreDesc(s[0], e) <= 0 then [s[0]] + Insert(e, s[1..])
    else [e] + s
  }

  /** Inserting adds `e` and loses nothing. */
  lemma {:induction false} InsertPermutes(e: ScoreEntry, s: seq<ScoreEntry>)
    ensures multiset(Insert(e, s)) == multiset(s) + multiset{e}
  {
    if s != [] {
      assert s == [s[0]] + s[1..];
      if CompareByScoreDesc(s[0], e) <= 0 {
        InsertPermutes(e, s[1..]);
      }
    }
  }

  lemma {:induction false} InsertSorted(e: ScoreEntry, s: seq<ScoreEntry>)
    requires SortedDesc(s)
    ensures SortedDesc(Insert(e, s))
  {
    if s != [] {
      var r := Insert(e, s);
      if CompareByScoreDesc(s[0], e) <= 0 {
        var tail := Insert(e, s[1..]);
        SortedTail(s);
        InsertSorted(e, s[1..]);
        InsertPermutes(e, s[1..]);
        assert r == [s[0]] + tail;
        forall k | 0 <= k < |tail| ensures tail[k].score <= s[0].score {
          assert tail[k] in multiset(tail);
          if tail[k] != e {
            assert tail[k] in multiset(s[1..]);
            var n :| 0 <= n < |s[1..]| && s[1..][n] == tail[k];
            assert ScoreAt(s, 0) >= ScoreAt(s, n + 1);
          }
        }
        forall i, j | 0 <= i < j < |r| ensures ScoreAt(r, i) >= ScoreAt(r, j) {
          assert r[j] == tail[j - 1];
          if i > 0 {
            assert r[i] == tail[i - 1];
            assert ScoreAt(tail, i - 1) >= ScoreAt(tail, j - 1);
          }
        }
      } else {
        assert r == [e] + s;
        forall i, j | 0 <= i < j < |r| ensures ScoreAt(r, i) >= ScoreAt(r, j) {
          assert r[j] == s[j - 1];
          if i > 0 {
            assert r[i] == s[i - 1];
            assert ScoreAt(s, i - 1) >= ScoreAt(s, j - 1);
          } else if j > 1 {
            assert ScoreAt(s, 0) >= ScoreAt(s, j - 1);
          }
        }
      }
    }
  }

  /** Inserting `e` adds it at the end of the entries sharing its score and disturbs no other score. */
  lemma {:induction false} InsertWithScore(e: ScoreEntry, s: seq<ScoreEntry>, v: int)
    requires SortedDesc(s)
    ensures WithScore(Insert(e, s), v) == WithScore(s, v) + (if e.score == v then [e] else [])
  {
    var added := if e.score == v then [e] else [];
    if s == [] {
      WithScoreCons(e, [], v);
    } else if CompareByScoreDesc(s[0], e) <= 0 {
      var head := if s[0].score == v then [s[0]] else [];
      var tail := Insert(e, s[1..]);
      calc {
        WithScore(Insert(e, s), v);
      == { assert Insert(e, s) == [s[0]] + tail; }
        WithScore([s[0]] + tail, v);
      == { WithScoreCons(s[0], tail, v); }
        head + WithScore(tail, v);
      == { SortedTail(s); InsertWithScore(e, s[1..], v); }
        head + (WithScore(s[1..], v) + added);
      == { assert WithScore(s, v) == head + WithScore(s[1..], v); }
        WithScore(s, v) + added;
      }
    } else {
      calc {
        WithScore(Insert(e, s), v);
      == { assert Insert(e, s) == [e] + s; }
        WithScore([e] + s, v);
      == { WithScoreCons(e, s, v); }
        added + WithScore(s, v);
      == { if e.score == v { NoneWithScore(s, v); } }
        WithScore(s, v) + added;
      }
    }
  }

  lemma SortedTail(s: seq<ScoreEntry>)
    requires SortedDesc(s) && s != []
    ensures SortedDesc(s[1..])
  {
    forall i, j | 0 <= i < j < |s[1..]| ensures ScoreAt(s[1..], i) >= ScoreAt(s[1..], j) {
      assert ScoreAt(s, i + 1) >= ScoreAt(s, j + 1);
    }
  }

  /** A sorted list whose first score is below `v` has no entry of score `v`. */
  lemma NoneWithScore(s: seq<ScoreEntry>, v: int)
    requires SortedDesc(s) && s != [] && s[0].score < v
    ensures WithScore(s, v) == []
  {
    if WithScore(s, v) != [] {
      var x := WithScore(s, v)[0];
      WithScoreMembers(s, v);
      SortedHeadIsHighest(s, x);
    }
  }

  /** `Collections.sort` with the comparator: a stable insertion sort, one entry at a time. */
  function SortByScore(s: seq<ScoreEntry>): (r: seq<ScoreEntry>)
    ensures |r| == |s|
    ensures SortedDesc(r)
    ensures multiset(r) == multiset(s)
  {
    if s == [] then []
    else
      assert s == s[..|s| - 1] + [s[|s| - 1]];
      var sortedInit := SortByScore(s[..|s| - 1]);
      InsertSorted(s[|s| - 1], sortedInit);
      InsertPermutes(s[|s| - 1], sortedInit);
      Insert(s[|s| - 1], sortedInit)
  }

  lemma WithScoreCons(x: ScoreEntry, s: seq<ScoreEntry>, v: int)
    ensures WithScore([x] + s, v) == (if x.score == v then [x] else []) + WithScore(s, v)
  {
    assert ([x] + s)[0] == x && ([x] + s)[1..] == s;
  }

  /** Stability: for every score, its entries keep their original relative order. */
  lemma {:induction false} SortByScoreStable(s: seq<ScoreEntry>, v: int)
    ensures WithScore(SortByScore(s), v) == WithScore(s, v)
  {
    if s != [] {
      var init, last := s[..|s| - 1], s[|s| - 1];
      var sortedInit := SortByScore(init);
      var added := if last.score == v then [last] else [];
      calc {
        WithScore(SortByScore(s), v);
      == { assert SortByScore(s) == Insert(last, sortedInit); }
        WithScore(Insert(last, sortedInit), v);
      == { InsertWithScore(last, sortedInit, v); }
        WithScore(sortedInit, v) + added;
      == { SortByScoreStable(init, v); }
        WithScore(init, v) + added;
      == { WithScoreAppend(init, [last], v); WithScoreCons(last, [], v); }
        WithScore(init + [last], v);
      == { assert init + [last] == s; }
        WithScore(s, v);
      }
    }
  }

  /**
   * A stable descending sort has exactly one possible result: any list that
   * is sorted and keeps every score's entries in their original order is
   * SortByScore's. So the ranking does not depend on how the sort is done.
   */
  lemma {:induction false} StableSortUnique(s: seq<ScoreEntry>, r: seq<ScoreEntry>)
    requires SortedDesc(r)
    requires forall v :: WithScore(r, v) == WithScore(s, v)
    ensures r == SortByScore(s)
  {
    var q := SortByScore(s);
    forall v ensures WithScore(r, v) == WithScore(q, v) {
      SortByScoreStable(s, v);
    }
    SortedSameClassesEqual(r, q);
  }

  /** In a sorted list the first entry has a highest score. */
  lemma SortedHeadIsHighest(a: seq<ScoreEntry>, x: ScoreEntry)
    requires SortedDesc(a) && x in a
    ensures a[0].score >= x.score
  {
    var k :| 0 <= k < |a| && a[k] == x;
    if k > 0 {
      assert ScoreAt(a, 0) >= ScoreAt(a, k);
    }
  }

  lemma HeadHasClass(b: seq<ScoreEntry>)
    requires b != []
    ensures WithScore(b, b[0].score) != []
  {
  }

  lemma {:induction false} SortedSameClassesEqual(a: seq<ScoreEntry>, b: seq<ScoreEntry>)
    requires SortedDesc(a) && SortedDesc(b)
    requires forall v :: WithScore(a, v) == WithScore(b, v)
    ensures a == b
    decreases |a|
  {
    if a == [] {
      if b != [] {
        HeadHasClass(b);
        assert false;
      }
    } else {
      var m := a[0].score;
      WithScoreMembers(a, m);
      WithScoreMembers(b, m);
      assert a[0] in WithScore(b, m);
      var m' := b[0].score;
      WithScoreMembers(a, m');
      WithScoreMembers(b, m');
      assert b[0] in WithScore(a, m');
      // Both lists start with a highest score, so they start with the same score ...
      SortedHeadIsHighest(a, b[0]);
      SortedHeadIsHighest(b, a[0]);
      // ... and so with the first entry of that score, which they share.
      assert WithScore(a, m)[0] == a[0];
      assert WithScore(b, m)[0] == b[0];
      forall v ensures WithScore(a[1..], v) == WithScore(b[1..], v) {
        var head := if m == v then [a[0]] else [];
        assert WithScore(a, v) == head + WithScore(a[1..], v);
        assert WithScore(b, v) == head + WithScore(b[1..], v);
        assert WithScore(a[1..], v) == WithScore(a, v)[|head|..];
        assert WithScore(b[1..], v) == WithScore(b, v)[|head|..];
      }
      SortedTail(a);
      SortedTail(b);
      SortedSameClassesEqual(a[1..], b[1..]);
      assert a == [a[0]] + a[1..] && b == [b[0]] + b[1..];
    }
  }

  /** The user ids of the entries, in the entries' order. */
  function UserIds(entries: seq<ScoreEntry>): (ids: seq<int>)
    ensures |ids| == |entries|
    ensures forall i :: 0 <= i < |ids| ==> ids[i] == entries[i].userIdx
  {
    if entries == [] then [] else [entries[0].userIdx] + UserIds(entries[1..])
  }

  /** The loop that collects `sortedUserIds` from the sorted entries. */
  method SortedUserIds(sortedEntries: seq<ScoreEntry>) returns (ids: seq<int>)
    ensures ids == UserIds(sortedEntries)
  {
    ids := [];
    for i := 0 to |sortedEntries|
      invariant ids == UserIds(sortedEntries[..i])
    {
      assert sortedEntries[..i + 1] == sortedEntries[..i] + [sortedEntries[i]];
      ids := ids + [sortedEntries[i].userIdx];
    }
    assert sortedEntries[..|sortedEntries|] == sortedEntries;
  }

  /** Users 1, 2, 3 scoring 30, 90, 90 rank 2, 3, 1: the tie between 2 and 3 keeps arrival order. */
  lemma RankingExampleFirstThree()
    ensures SortByScore([ScoreEntry(1, 30), ScoreEntry(2, 90), ScoreEntry(3, 90)])
         == [ScoreEntry(2, 90), ScoreEntry(3, 90), ScoreEntry(1, 30)]
  {
    var a, b, c := ScoreEntry(1, 30), ScoreEntry(2, 90), ScoreEntry(3, 90);
    assert SortByScore([a]) == [a] by {
      assert [a][..0] == [];
    }
    assert SortByScore([a, b]) == [b, a] by {
      assert [a, b][..1] == [a];
    }
    assert [a, b, c][..2] == [a, b];
    assert Insert(c, [a]) == [c, a];
    assert [b, a][1..] == [a];
  }

  /** Users 1, 2, 3, 4 scoring 30, 90, 90, 10 rank 2, 3, 1, 4. */
  lemma RankingExample()
    ensures SortByScore([ScoreEntry(1, 30), ScoreEntry(2, 90), ScoreEntry(3, 90), ScoreEntry(4, 10)])
         == [ScoreEntry(2, 90), ScoreEntry(3, 90), ScoreEntry(1, 30), ScoreEntry(4, 10)]
  {
    var a, b, c, d := ScoreEntry(1, 30), ScoreEntry(2, 90), ScoreEntry(3, 90), ScoreEntry(4, 10);
    RankingExampleFirstThree();
    assert [a, b, c, d][..3] == [a, b, c];
    assert Insert(d, [a]) == [a, d] by {
      assert [a][1..] == [];
    }
    assert Insert(d, [c, a]) == [c, a, d] by {
      assert [c, a][1..] == [a];
    }
    assert [b, c, a][1..] == [c, a];
  }
}
