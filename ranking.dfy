/**
 * The ranking step shared by both retrieval paths: Python's
 * `list.sort(key=lambda x: x[0], reverse=True)` over (score, record)
 * tuples, which is a stable sort by descending score, followed by the
 * prefix slice `[:limit]`.
 */
module Ranking {

  /** A (score, record) tuple as the retrieval loops build them. */
  datatype Scored<T> = Scored(score: real, item: T)

  predicate SortedDesc<T>(xs: seq<Scored<T>>)
  {
    forall i, j :: 0 <= i < j < |xs| ==> xs[i].score >= xs[j].score
  }

  /** The entries of `xs` whose score is `s`, in their order in `xs`. */
  function OfScore<T>(xs: seq<Scored<T>>, s: real): seq<Scored<T>>
  {
    if xs == [] then []
    else (if xs[0].score == s then [xs[0]] else []) + OfScore(xs[1..], s)
  }

  /** Places `x` in front of the first entry whose score is not above its own. */
  function Insert<T>(x: Scored<T>, xs: seq<Scored<T>>): (r: seq<Scored<T>>)
    ensures |r| == |xs| + 1
    ensures multiset(r) == multiset(xs) + multiset{x}
  {
    if xs == [] || xs[0].score <= x.score then [x] + xs
    else
      assert xs == [xs[0]] + xs[1..];
      [xs[0]] + Insert(x, xs[1..])
  }

  /** No entry of `xs` scores above `b`. */
  predicate AllAtMost<T>(xs: seq<Scored<T>>, b: real)
  {
    forall k :: 0 <= k < |xs| ==> xs[k].score <= b
  }

  lemma ConsSorted<T>(y: Scored<T>, ys: seq<Scored<T>>)
    requires SortedDesc(ys) && AllAtMost(ys, y.score)
    ensures SortedDesc([y] + ys)
  {
    var zs := [y] + ys;
    forall i, j | 0 <= i < j < |zs|
      ensures zs[i].score >= zs[j].score
    {
      assert zs[j] == ys[j - 1];
      if i > 0 {
        assert zs[i] == ys[i - 1];
      }
    }
  }

  lemma {:induction false} InsertAtMost<T>(x: Scored<T>, xs: seq<Scored<T>>, b: real)
    requires AllAtMost(xs, b) && x.score <= b
    ensures AllAtMost(Insert(x, xs), b)
  {
    if xs != [] && xs[0].score > x.score {
      InsertAtMost(x, xs[1..], b);
      var rest := Insert(x, xs[1..]);
      assert Insert(x, xs) == [xs[0]] + rest;
      forall k | 0 <= k < |rest| + 1
        ensures ([xs[0]] + rest)[k].score <= b
      {
        if k > 0 {
          assert ([xs[0]] + rest)[k] == rest[k - 1];
        }
      }
    } else {
      forall k | 0 <= k < |xs| + 1
        ensures ([x] + xs)[k].score <= b
      {
        if k > 0 {
          assert ([x] + xs)[k] == xs[k - 1];
        }
      }
    }
  }

  lemma {:induction false} InsertSorted<T>(x: Scored<T>, xs: seq<Scored<T>>)
    requires SortedDesc(xs)
    ensures SortedDesc(Insert(x, xs))
  {
    if xs != [] && xs[0].score > x.score {
      var tail := xs[1..];
      assert SortedDesc(tail) by {
        forall i, j | 0 <= i < j < |tail|
          ensures tail[i].score >= tail[j].score
        {
          assert tail[i] == xs[i + 1] && tail[j] == xs[j + 1];
        }
      }
      assert AllAtMost(tail, xs[0].score) by {
        forall k | 0 <= k < |tail|
          ensures tail[k].score <= xs[0].score
        {
          assert tail[k] == xs[k + 1];
        }
      }
      InsertSorted(x, tail);
      InsertAtMost(x, tail, xs[0].score);
      ConsSorted(xs[0], Insert(x, tail));
    } else {
      assert AllAtMost(xs, x.score) by {
        forall k | 0 <= k < |xs|
          ensures xs[k].score <= x.score
        {
          assert xs[k].score <= xs[0].score;
        }
      }
      ConsSorted(x, xs);
    }
  }

  lemma OfScoreCons<T>(y: Scored<T>, ys: seq<Scored<T>>, s: real)
    ensures OfScore([y] + ys, s) == (if y.score == s then [y] else []) + OfScore(ys, s)
  {
    assert ([y] + ys)[1..] == ys;
  }

  /** `x` lands in front of every entry that shares its score. */
  lemma {:induction false} InsertOfScore<T>(x: Scored<T>, xs: seq<Scored<T>>, s: real)
    ensures OfScore(Insert(x, xs), s) == (if x.score == s then [x] else []) + OfScore(xs, s)
  {
    if xs == [] || xs[0].score <= x.score {
      OfScoreCons(x, xs, s);
    } else {
      var rest := Insert(x, xs[1..]);
      assert Insert(x, xs) == [xs[0]] + rest;
      InsertOfScore(x, xs[1..], s);
      OfScoreCons(xs[0], rest, s);
      assert xs == [xs[0]] + xs[1..];
      OfScoreCons(xs[0], xs[1..], s);
      if x.score == s {
        assert xs[0].score != s;
      }
    }
  }

  /** Python's stable sort by descending score: the result is ordered by
      score, is a permutation of the input, and keeps entries of equal
      score in their input order. */
  function SortByScoreDesc<T>(xs: seq<Scored<T>>): (r: seq<Scored<T>>)
    ensures |r| == |xs|
    ensures SortedDesc(r)
    ensures multiset(r) == multiset(xs)
    ensures forall s :: OfScore(r, s) == OfScore(xs, s)
  {
    if xs == [] then []
    else
      var rest := SortByScoreDesc(xs[1..]);
      assert xs == [xs[0]] + xs[1..];
      InsertSorted(xs[0], rest);
      assert forall s :: OfScore(Insert(xs[0], rest), s) == OfScore(xs, s) by {
        forall s ensures OfScore(Insert(xs[0], rest), s) == OfScore(xs, s) {
          InsertOfScore(xs[0], rest, s);
        }
      }
      Insert(xs[0], rest)
  }

  /** Python's `xs[:k]`; a negative `k` counts from the end. */
  function SliceTo<T>(xs: seq<T>, k: int): (r: seq<T>)
    ensures r <= xs
    ensures 0 <= k ==> |r| == if k < |xs| then k else |xs|
    ensures k < 0 ==> |r| == if |xs| + k < 0 then 0 else |xs| + k
  {
    if 0 <= k then (if k < |xs| then xs[..k] else xs)
    else if |xs| + k < 0 then []
    else xs[..|xs| + k]
  }

  /** The top `k` of a ranking are in descending order, are at most `k`
      when `k` is not negative, and are drawn from the ranked entries. */
  lemma TopKProperties<T>(xs: seq<Scored<T>>, k: int)
    ensures SortedDesc(SliceTo(SortByScoreDesc(xs), k))
    ensures 0 <= k ==> |SliceTo(SortByScoreDesc(xs), k)| <= k
    ensures multiset(SliceTo(SortByScoreDesc(xs), k)) <= multiset(xs)
  {
    var sorted := SortByScoreDesc(xs);
    var top := SliceTo(sorted, k);
    assert sorted == top + sorted[|top|..];
    assert multiset(sorted) == multiset(top) + multiset(sorted[|top|..]);
  }

  /** Every entry of a prefix of a sequence scores at least as high as
      any entry of the sorted rest: nothing left out outranks what was kept. */
  lemma TopKDominates<T>(xs: seq<Scored<T>>, k: int, i: int, j: int)
    requires 0 <= i < |SliceTo(SortByScoreDesc(xs), k)| <= j < |xs|
    ensures SortByScoreDesc(xs)[i].score >= SortByScoreDesc(xs)[j].score
  {
  }
}
