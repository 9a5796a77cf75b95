/**
 * The ranking step shared by the agents: `hits.sort(key=..., reverse=True)`
 * followed by `hits[:n]`.  Python's sort is stable, also with `reverse=True`,
 * so entries with equal keys keep the order they had before sorting.  Each
 * entry is modelled by its key and its position in the list being sorted;
 * the item itself is looked up by that position.
 */
module Ranking {

  /** A sort key compared lexicographically: `major` first, then `minor`. */
  datatype Key = Key(major: nat, minor: nat)

  predicate Outranks(a: Key, b: Key) {
    a.major > b.major || (a.major == b.major && a.minor > b.minor)
  }

  /** One entry of the list being sorted: its key and its position before sorting. */
  datatype Ranked = Ranked(key: Key, pos: nat)

  /** The order a stable descending sort leaves: larger key first, equal keys by original position. */
  predicate Precedes(a: Ranked, b: Ranked) {
    Outranks(a.key, b.key) || (a.key == b.key && a.pos < b.pos)
  }

  predicate InRankOrder(s: seq<Ranked>) {
    forall i, j :: 0 <= i < j < |s| ==> Precedes(s[i], s[j])
  }

  /** The entries were listed in increasing position (as the scoring loops build them). */
  predicate PositionsIncrease(s: seq<Ranked>) {
    forall i, j :: 0 <= i < j < |s| ==> s[i].pos < s[j].pos
  }

  /**
   * Inserts `x` in front of the first entry whose key does not outrank it.
   * Only keys are compared, as `list.sort(key=...)` does.
   */
  function Insert(x: Ranked, s: seq<Ranked>): (r: seq<Ranked>)
    ensures multiset(r) == multiset(s) + multiset{x}
  {
    if s == [] || !Outranks(s[0].key, x.key) then [x] + s
    else
      assert s == [s[0]] + s[1..];
      [s[0]] + Insert(x, s[1..])
  }

  /** Stable sort by key, largest first: the earlier entry is inserted into the sorted rest. */
  function SortDesc(s: seq<Ranked>): (r: seq<Ranked>)
    ensures multiset(r) == multiset(s)
  {
    if s == [] then []
    else
      assert s == [s[0]] + s[1..];
      Insert(s[0], SortDesc(s[1..]))
  }

  /** `s[:n]` for `n >= 0`. */
  function Take(s: seq<Ranked>, n: nat): (r: seq<Ranked>)
    ensures |r| == if |s| <= n then |s| else n
    ensures r == s[..|r|]
  {
    if |s| <= n then s else s[..n]
  }

  lemma {:induction false} InsertInOrder(x: Ranked, s: seq<Ranked>)
    requires InRankOrder(s)
    requires forall i :: 0 <= i < |s| ==> x.pos < s[i].pos
    ensures InRankOrder(Insert(x, s))
  {
    if s == [] || !Outranks(s[0].key, x.key) {
      var r := [x] + s;
      forall i, j | 0 <= i < j < |r| ensures Precedes(r[i], r[j]) {
        if i == 0 {
          assert Precedes(x, s[0]);
          assert r[j] == s[j - 1];
        } else {
          assert r[i] == s[i - 1] && r[j] == s[j - 1];
        }
      }
    } else {
      InsertInOrder(x, s[1..]);
      var rest := Insert(x, s[1..]);
      var r := [s[0]] + rest;
      forall i, j | 0 <= i < j < |r| ensures Precedes(r[i], r[j]) {
        if i == 0 {
          assert r[j] in multiset(rest);
          assert r[j] == x || r[j] in multiset(s[1..]);
          if r[j] != x {
            var k :| 0 <= k < |s[1..]| && s[1..][k] == r[j];
            assert s[k + 1] == r[j];
          }
        } else {
          assert r[i] == rest[i - 1] && r[j] == rest[j - 1];
        }
      }
    }
  }

  /**
   * Sorting a list built in increasing position puts it in rank order:
   * keys never increase, and entries with equal keys keep their original order.
   */
  lemma {:induction false} SortDescInOrder(s: seq<Ranked>)
    requires PositionsIncrease(s)
    ensures InRankOrder(SortDesc(s))
    ensures |SortDesc(s)| == |s|
  {
    if s != [] {
      SortDescInOrder(s[1..]);
      var rest := SortDesc(s[1..]);
      forall i | 0 <= i < |rest| ensures s[0].pos < rest[i].pos {
        assert rest[i] in multiset(s[1..]);
        var k :| 0 <= k < |s[1..]| && s[1..][k] == rest[i];
        assert s[k + 1] == rest[i];
      }
      InsertInOrder(s[0], rest);
    }
    assert |multiset(SortDesc(s))| == |multiset(s)|;
  }

  /** The truncated sorted list holds input entries, in rank order, `min(n, |s|)` of them. */
  lemma TakeSorted(s: seq<Ranked>, n: nat)
    requires PositionsIncrease(s)
    ensures var top := Take(SortDesc(s), n);
      && |top| == (if |s| <= n then |s| else n)
      && InRankOrder(top)
      && (forall i :: 0 <= i < |top| ==> top[i] in s)
  {
    SortDescInOrder(s);
    var sorted := SortDesc(s);
    var top := Take(sorted, n);
    forall i | 0 <= i < |top| ensures top[i] in s {
      assert top[i] in multiset(sorted);
    }
  }

  /** Every entry that truncation drops comes after every entry it keeps. */
  lemma TakeDropsWorst(s: seq<Ranked>, n: nat, x: Ranked)
    requires PositionsIncrease(s)
    requires x in s && x !in Take(SortDesc(s), n)
    ensures forall i :: 0 <= i < |Take(SortDesc(s), n)| ==> Precedes(Take(SortDesc(s), n)[i], x)
  {
    SortDescInOrder(s);
    var sorted := SortDesc(s);
    assert x in multiset(sorted);
    var j :| 0 <= j < |sorted| && sorted[j] == x;
  }

  /**
   * `[(s, i) for i, s in enumerate(scores) if s > 0]`: the entries with a
   * positive score, in their original order, ready to be ranked by score.
   */
  function PositiveHits(scores: seq<nat>): seq<Ranked> {
    if scores == [] then []
    else
      var last := |scores| - 1;
      PositiveHits(scores[..last]) + (if scores[last] > 0 then [Ranked(Key(scores[last], 0), last)] else [])
  }

  /** Each hit points at a position with a positive score and carries that score as its key. */
  lemma {:induction false} PositiveHitsSound(scores: seq<nat>)
    ensures forall i :: 0 <= i < |PositiveHits(scores)| ==>
      var x := PositiveHits(scores)[i];
      x.pos < |scores| && x.key == Key(scores[x.pos], 0) && scores[x.pos] > 0
  {
    if scores != [] {
      var last := |scores| - 1;
      var init := PositiveHits(scores[..last]);
      PositiveHitsSound(scores[..last]);
      var h := PositiveHits(scores);
      forall i | 0 <= i < |h|
        ensures h[i].pos < |scores| && h[i].key == Key(scores[h[i].pos], 0) && scores[h[i].pos] > 0
      {
        if i < |init| {
          assert h[i] == init[i];
          assert scores[..last][init[i].pos] == scores[init[i].pos];
        }
      }
    }
  }

  /** The hits are listed in increasing position. */
  lemma {:induction false} PositiveHitsIncrease(scores: seq<nat>)
    ensures PositionsIncrease(PositiveHits(scores))
  {
    if scores != [] {
      var last := |scores| - 1;
      var init := PositiveHits(scores[..last]);
      PositiveHitsIncrease(scores[..last]);
      PositiveHitsSound(scores[..last]);
      var h := PositiveHits(scores);
      assert forall i :: 0 <= i < |init| ==> h[i] == init[i];
    }
  }

  /** Every position with a positive score has a hit. */
  lemma {:induction false} HitIndex(scores: seq<nat>, j: nat) returns (i: nat)
    requires j < |scores| && scores[j] > 0
    ensures i < |PositiveHits(scores)| && PositiveHits(scores)[i].pos == j
  {
    var last := |scores| - 1;
    var init := PositiveHits(scores[..last]);
    assert PositiveHits(scores) == init + (if scores[last] > 0 then [Ranked(Key(scores[last], 0), last)] else []);
    if j < last {
      assert scores[..last][j] == scores[j];
      i := HitIndex(scores[..last], j);
      assert PositiveHits(scores)[i] == init[i];
    } else {
      i := |init|;
    }
  }

  /** The positive hits are exactly the positive-score positions, each listed once, in increasing position. */
  lemma PositiveHitsSpec(scores: seq<nat>)
    ensures var h := PositiveHits(scores);
      && PositionsIncrease(h)
      && (forall i :: 0 <= i < |h| ==>
            h[i].pos < |scores| && h[i].key == Key(scores[h[i].pos], 0) && scores[h[i].pos] > 0)
      && (forall j :: 0 <= j < |scores| && scores[j] > 0 ==> exists i :: 0 <= i < |h| && h[i].pos == j)
  {
    PositiveHitsIncrease(scores);
    PositiveHitsSound(scores);
    var h := PositiveHits(scores);
    forall j | 0 <= j < |scores| && scores[j] > 0 ensures exists i :: 0 <= i < |h| && h[i].pos == j {
      var i := HitIndex(scores, j);
    }
  }

  /** With no positive score there is no hit. */
  lemma PositiveHitsNone(scores: seq<nat>)
    requires forall j :: 0 <= j < |scores| ==> scores[j] == 0
    ensures PositiveHits(scores) == []
  {
    PositiveHitsSpec(scores);
  }

  /** Extending the score list by one score adds at most that one hit, at the end. */
  lemma PositiveHitsSnoc(scores: seq<nat>, s: nat)
    ensures PositiveHits(scores + [s])
      == PositiveHits(scores) + (if s > 0 then [Ranked(Key(s, 0), |scores|)] else [])
  {
    assert (scores + [s])[..|scores|] == scores;
  }

  /** Every position with a positive score has a hit carrying that score. */
  lemma HitAt(scores: seq<nat>, j: nat) returns (x: Ranked)
    requires j < |scores| && scores[j] > 0
    ensures x in PositiveHits(scores) && x.pos == j && x.key == Key(scores[j], 0)
  {
    var i := HitIndex(scores, j);
    PositiveHitsSound(scores);
    x := PositiveHits(scores)[i];
  }

  /** `[item for _, item in top]`: the items the ranked entries point at. */
  function ItemsAt<T>(items: seq<T>, top: seq<Ranked>): (r: seq<T>)
    requires forall i :: 0 <= i < |top| ==> top[i].pos < |items|
    ensures |r| == |top|
  {
    seq(|top|, i requires 0 <= i < |top| => items[top[i].pos])
  }
}
