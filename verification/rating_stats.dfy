/**
  Sums and averages of ratings: the arithmetic the handler performs with its
  running totals, stated once as functions over sequences.
 */
module RatingStats {
  import opened Wrappers
  import opened CourseData

  /** The rating range the domain describes; the handler itself never checks it. */
  const MinRating: int := 1
  const MaxRating: int := 5

  /** Sum of a sequence, peeling the last element so that it matches a running
      total kept by a left-to-right loop. */
  function Sum(xs: seq<int>): int
  {
    if xs == [] then 0 else Sum(xs[..|xs| - 1]) + xs[|xs| - 1]
  }

  /** The ratings of some reviews, in order. */
  function Ratings(rs: seq<ReviewDoc>): seq<int>
  {
    seq(|rs|, i requires 0 <= i < |rs| => rs[i].rating)
  }

  /** The mean of `count` values adding up to `sum`; unset when there are none,
      so no division by zero ever happens. */
  function Average(sum: int, count: nat): (r: Option<real>)
    ensures r.None? <==> count == 0
  {
    if count == 0 then None else Some((sum as real) / (count as real))
  }

  /** An average, multiplied back by its count, gives the sum it was taken of. */
  lemma AverageTimesCount(sum: int, count: nat)
    requires count > 0
    ensures Average(sum, count).value * (count as real) == sum as real
  {
  }

  lemma {:induction false} SumAppend(a: seq<int>, b: seq<int>)
    ensures Sum(a + b) == Sum(a) + Sum(b)
    decreases |b|
  {
    if b == [] {
      assert a + b == a;
    } else {
      var b' := b[..|b| - 1];
      assert (a + b)[..|a + b| - 1] == a + b';
      SumAppend(a, b');
    }
  }

  lemma RatingsAppend(a: seq<ReviewDoc>, b: seq<ReviewDoc>)
    ensures Ratings(a + b) == Ratings(a) + Ratings(b)
  {
  }

  /** Adding one more review to a running total adds exactly its rating. */
  lemma SumRatingsStep(rs: seq<ReviewDoc>, j: nat)
    requires j < |rs|
    ensures Sum(Ratings(rs[..j + 1])) == Sum(Ratings(rs[..j])) + rs[j].rating
  {
    assert Ratings(rs[..j + 1]) == Ratings(rs[..j]) + [rs[j].rating];
    SumAppend(Ratings(rs[..j]), [rs[j].rating]);
  }

  /** The sum does not depend on the order of the values: any two sequences
      holding the same multiset of ratings have the same sum. */
  lemma {:induction false} SumPermutation(xs: seq<int>, ys: seq<int>)
    requires multiset(xs) == multiset(ys)
    ensures Sum(xs) == Sum(ys)
    decreases |xs|
  {
    if xs == [] {
      assert |ys| == |multiset(ys)| == 0;
    } else {
      var x := xs[|xs| - 1];
      var xs' := xs[..|xs| - 1];
      assert xs == xs' + [x];
      assert x in multiset(ys);
      var k :| 0 <= k < |ys| && ys[k] == x;
      var ys' := ys[..k] + ys[k + 1..];
      assert ys == ys[..k] + [x] + ys[k + 1..];
      assert multiset(ys') == multiset(ys) - multiset{x};
      assert multiset(xs') == multiset(xs) - multiset{x};
      SumPermutation(xs', ys');
      SumAppend(ys[..k] + [x], ys[k + 1..]);
      SumAppend(ys[..k], [x]);
      SumAppend(ys[..k], ys[k + 1..]);
    }
  }

  /** With every value in the rating range, the sum lies between the smallest
      and the largest total that many ratings can reach. */
  lemma {:induction false} SumInRange(xs: seq<int>)
    requires forall i :: 0 <= i < |xs| ==> MinRating <= xs[i] <= MaxRating
    ensures MinRating * |xs| <= Sum(xs) <= MaxRating * |xs|
  {
    if xs != [] {
      SumInRange(xs[..|xs| - 1]);
    }
  }

  /** A mean times its count is its sum, so bounds on the sum bound the mean. */
  lemma MeanInRange(sum: int, count: int, mean: real)
    requires count > 0
    requires mean * (count as real) == sum as real
    requires MinRating * count <= sum <= MaxRating * count
    ensures MinRating as real <= mean <= MaxRating as real
  {
    var n := count as real;
    assert (MinRating as real) * n <= sum as real <= (MaxRating as real) * n;
  }

  /** The mean of in-range ratings is itself in range. */
  lemma AverageInRange(xs: seq<int>)
    requires xs != []
    requires forall i :: 0 <= i < |xs| ==> MinRating <= xs[i] <= MaxRating
    ensures Average(Sum(xs), |xs|).Some?
    ensures MinRating as real <= Average(Sum(xs), |xs|).value <= MaxRating as real
  {
    SumInRange(xs);
    AverageTimesCount(Sum(xs), |xs|);
    MeanInRange(Sum(xs), |xs|, Average(Sum(xs), |xs|).value);
  }
}
