/** The pure part of `updateStyleRating` in backend/routes/reviews.js: the
    reviews of one style, their count, the `reduce` sum of their ratings and
    the mean rounded to one decimal by `Math.round(avg * 10) / 10`. The
    average is kept exactly, as an integer number of tenths. */
module RatingAggregate {
  import opened Seqs
  import opened ReviewSchema

  /** A style's denormalised rating fields: `averageRating` is
      `averageTenths / 10`. */
  datatype Summary = Summary(averageTenths: int, totalReviews: nat)

  /** The summary of a style nobody has reviewed. */
  const NoReviews := Summary(0, 0)

  /** The query `{ style }` as a predicate on reviews. */
  function OfStyle(style: StyleId): Review -> bool {
    (r: Review) => r.style == style
  }

  /** `Review.find({ style })`: the stored reviews of one style. */
  function ForStyle(reviews: seq<Review>, style: StyleId): (rs: seq<Review>)
    ensures forall i :: 0 <= i < |rs| ==> rs[i].style == style
  {
    Filter(OfStyle(style), reviews)
  }

  /** `reviews.reduce((sum, review) => sum + review.rating, 0)`, a left fold. */
  function RatingSum(rs: seq<Review>): real {
    if rs == [] then 0.0 else RatingSum(rs[..|rs| - 1]) + rs[|rs| - 1].rating
  }

  /** `Math.round`: the integer nearest to `x`, halves rounded upward. */
  function RoundHalfUp(x: real): (n: int)
    ensures n as real - 0.5 <= x < n as real + 0.5
  {
    (x + 0.5).Floor
  }

  /** The mean of `n` ratings summing to `sum`, in tenths rounded half up;
      0 when there are no ratings. */
  function AverageTenths(sum: real, n: nat): (t: int)
    ensures n == 0 ==> t == 0
    ensures n > 0 ==> (t as real - 0.5) * n as real <= 10.0 * sum < (t as real + 0.5) * n as real
  {
    if n == 0 then 0
    else
      var t := RoundHalfUp(sum / n as real * 10.0);
      MeanBounds(sum, n, t);
      t
  }

  /** Scaling the rounding bounds on the mean back to bounds on the sum. */
  lemma MeanBounds(sum: real, n: nat, t: int)
    requires n > 0
    requires t as real - 0.5 <= sum / n as real * 10.0 < t as real + 0.5
    ensures (t as real - 0.5) * n as real <= 10.0 * sum < (t as real + 0.5) * n as real
  {
    var k := n as real;
    var y := sum / k * 10.0;
    var lo, hi := t as real - 0.5, t as real + 0.5;
    ScaledMean(sum, k);
    MulMono(lo, y, k);
    MulMonoStrict(y, hi, k);
    assert y < hi;
    assert y * k < hi * k;
    assert y * k == 10.0 * sum;
    assert lo * k <= 10.0 * sum;
    assert 10.0 * sum < hi * k;
  }

  /** Ten times the mean, times the count, is ten times the sum. */
  lemma ScaledMean(sum: real, k: real)
    requires k > 0.0
    ensures sum / k * 10.0 * k == 10.0 * sum
  {
    var m := sum / k;
    assert m * k == sum;
    calc {
      m * 10.0 * k;
      10.0 * (m * k);
      10.0 * sum;
    }
  }

  lemma MulMono(a: real, b: real, k: real)
    requires a <= b && k > 0.0
    ensures a * k <= b * k
  {
  }

  lemma MulMonoStrict(a: real, b: real, k: real)
    requires a < b && k > 0.0
    ensures a * k < b * k
  {
  }

  /** The summary `updateStyleRating` writes for `style`: the number of its
      reviews and their mean rating rounded to the nearest tenth. */
  function Recompute(reviews: seq<Review>, style: StyleId): (s: Summary)
    ensures s.totalReviews == |ForStyle(reviews, style)|
    ensures s.totalReviews == 0 ==> s.averageTenths == 0
    ensures s.totalReviews > 0 ==>
      (s.averageTenths as real - 0.5) * s.totalReviews as real
        <= 10.0 * RatingSum(ForStyle(reviews, style))
        < (s.averageTenths as real + 0.5) * s.totalReviews as real
  {
    var rs := ForStyle(reviews, style);
    Summary(AverageTenths(RatingSum(rs), |rs|), |rs|)
  }

  /** The `reduce` sum grows by the appended rating. */
  lemma RatingSumAppend(rs: seq<Review>, r: Review)
    ensures RatingSum(rs + [r]) == RatingSum(rs) + r.rating
  {
    assert (rs + [r])[..|rs|] == rs;
  }

  /** `n` ratings within the schema's bounds sum to between `n` and `5n`. */
  lemma {:induction false} RatingSumBounds(rs: seq<Review>)
    requires forall i :: 0 <= i < |rs| ==> MinRating <= rs[i].rating <= MaxRating
    ensures MinRating * |rs| as real <= RatingSum(rs) <= MaxRating * |rs| as real
  {
    if rs != [] {
      RatingSumBounds(rs[..|rs| - 1]);
    }
  }

  /** Every review of a style is a review of that style, taken from the store. */
  lemma ForStyleMembers(reviews: seq<Review>, style: StyleId, r: Review)
    ensures r in ForStyle(reviews, style) <==> r in reviews && r.style == style
  {
    FilterMembership(OfStyle(style), reviews, r);
  }

  /** With valid reviews only, a style's average lies between 1.0 and 5.0
      (10 and 50 tenths) as soon as it has a review. */
  lemma AverageWithinRatingBounds(reviews: seq<Review>, style: StyleId)
    requires forall i :: 0 <= i < |reviews| ==> ValidReview(reviews[i])
    ensures var s := Recompute(reviews, style);
      s.totalReviews > 0 ==> 10 <= s.averageTenths <= 50
  {
    var rs := ForStyle(reviews, style);
    forall i | 0 <= i < |rs| ensures MinRating <= rs[i].rating <= MaxRating {
      ForStyleMembers(reviews, style, rs[i]);
    }
    if rs != [] {
      AverageOfBoundedRatings(rs);
    }
  }

  /** The rounded mean of ratings within the schema's bounds lies within
      the same bounds, in tenths. */
  lemma AverageOfBoundedRatings(rs: seq<Review>)
    requires rs != []
    requires forall i :: 0 <= i < |rs| ==> MinRating <= rs[i].rating <= MaxRating
    ensures 10 <= AverageTenths(RatingSum(rs), |rs|) <= 50
  {
    RatingSumBounds(rs);
    TenthsWithinBounds(RatingSum(rs), |rs|);
  }

  /** A sum of `n` ratings between `n` and `5n` has a rounded mean of
      10 to 50 tenths. */
  lemma TenthsWithinBounds(sum: real, n: nat)
    requires n > 0
    requires n as real <= sum <= 5.0 * n as real
    ensures 10 <= AverageTenths(sum, n) <= 50
  {
    var t := AverageTenths(sum, n);
    TenthsFromScaledBounds(t as real, n as real, sum);
  }

  /** Dividing the scaled bounds by the (positive) count. */
  lemma TenthsFromScaledBounds(t: real, n: real, sum: real)
    requires n > 0.0
    requires n <= sum <= 5.0 * n
    requires (t - 0.5) * n <= 10.0 * sum < (t + 0.5) * n
    ensures 9.5 < t <= 50.5
  {
    if t > 50.5 {
      MulMonoStrict(50.0, t - 0.5, n);
    }
    if t <= 9.5 {
      MulMono(t + 0.5, 10.0, n);
    }
  }

  /** For integer ratings summing to `s`, the rounded mean in tenths is
      `(20s + n) div 2n`, computed without leaving the integers. */
  lemma IntegerMeanTenths(s: int, n: nat)
    requires n > 0
    ensures AverageTenths(s as real, n) == (20 * s + n) / (2 * n)
  {
    var q := (20 * s + n) / (2 * n);
    var m := (20 * s + n) % (2 * n);
    assert 20 * s + n == 2 * n * q + m && 0 <= m < 2 * n;
    var x := s as real / n as real * 10.0 + 0.5;
    assert x * (2 * n) as real == (20 * s + n) as real;
    assert x * (2 * n) as real == (2 * n * q + m) as real;
    FloorOfQuotient(x, 2 * n, q, m);
  }

  /** `x * d == d*q + m` with `0 <= m < d` puts `x` in `[q, q + 1)`. */
  lemma FloorOfQuotient(x: real, d: int, q: int, m: int)
    requires d > 0 && 0 <= m < d
    requires x * d as real == (d * q + m) as real
    ensures x.Floor == q
  {
    var e := x - q as real;
    var k := d as real;
    assert x * k == k * q as real + m as real;
    assert e * k == m as real;
    assert 0.0 <= e < 1.0 by {
      if e < 0.0 {
        MulMonoStrict(e, 0.0, k);
      }
      if e >= 1.0 {
        MulMono(1.0, e, k);
      }
    }
  }

  /** A review of one style leaves every other style's summary as it was. */
  lemma RecomputeOtherStyle(reviews: seq<Review>, r: Review, style: StyleId)
    requires r.style != style
    ensures Recompute(reviews + [r], style) == Recompute(reviews, style)
  {
    FilterAppend(OfStyle(style), reviews, [r]);
    assert Filter(OfStyle(style), [r]) == [];
    assert ForStyle(reviews + [r], style) == ForStyle(reviews, style) + [];
    assert ForStyle(reviews + [r], style) == ForStyle(reviews, style);
  }

  /** A review of `r.style` adds one to its count and its rating to the sum. */
  lemma RecomputeSameStyle(reviews: seq<Review>, r: Review)
    ensures var before := ForStyle(reviews, r.style);
      var after := ForStyle(reviews + [r], r.style);
      after == before + [r] && RatingSum(after) == RatingSum(before) + r.rating
      && Recompute(reviews + [r], r.style).totalReviews == Recompute(reviews, r.style).totalReviews + 1
  {
    FilterAppend(OfStyle(r.style), reviews, [r]);
    assert Filter(OfStyle(r.style), [r]) == [r];
    RatingSumAppend(ForStyle(reviews, r.style), r);
  }
}
