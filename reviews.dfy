/**
 * Reviews of a product: the duplicate check (`reviews.find`), the sum of the
 * ratings (`reviews.reduce`) and the average rating derived from them.
 */
module Reviews {
  import opened Outcomes

  /** Identifier of a user; the controller compares identifiers by value. */
  type UserId = nat

  /** One review: the reviewer's display name, the rating, a comment and the reviewer. */
  datatype Review = Review(name: string, rating: int, comment: string, user: UserId)

  /** The first review written by `user`, if there is one. */
  function FindReview(reviews: seq<Review>, user: UserId): (r: Option<Review>)
    ensures r.None? <==> forall i :: 0 <= i < |reviews| ==> reviews[i].user != user
    ensures r.Some? ==> r.value.user == user && r.value in reviews
    ensures r.Some? ==> exists i :: 0 <= i < |reviews| && reviews[i] == r.value
                          && forall j :: 0 <= j < i ==> reviews[j].user != user
  {
    if reviews == [] then None
    else if reviews[0].user == user then Some(reviews[0])
    else FindReview(reviews[1..], user)
  }

  /** Has `user` already reviewed? */
  predicate HasReviewed(reviews: seq<Review>, user: UserId)
  {
    exists i :: 0 <= i < |reviews| && reviews[i].user == user
  }

  /** No user wrote two of these reviews. */
  predicate ReviewersDistinct(reviews: seq<Review>)
  {
    forall i, j :: 0 <= i < j < |reviews| ==> reviews[i].user != reviews[j].user
  }

  /**
   * The sum of the ratings, folded from the left as `reduce((acc, item) =>
   * item.rating + acc, 0)` does.
   */
  function SumRatings(reviews: seq<Review>): int
  {
    if reviews == [] then 0
    else reviews[|reviews| - 1].rating + SumRatings(reviews[..|reviews| - 1])
  }

  /** The average rating: the sum of the ratings divided by their number. */
  function MeanRating(reviews: seq<Review>): real
    requires reviews != []
  {
    SumRatings(reviews) as real / |reviews| as real
  }

  /** `find` reports a review exactly when the user has reviewed. */
  lemma FindReviewReportsReviewer(reviews: seq<Review>, user: UserId)
    ensures FindReview(reviews, user).Some? <==> HasReviewed(reviews, user)
  {
  }

  /** Appending a review by a user who has not reviewed keeps reviewers distinct. */
  lemma AppendNewReviewer(reviews: seq<Review>, review: Review)
    requires ReviewersDistinct(reviews)
    requires FindReview(reviews, review.user).None?
    ensures ReviewersDistinct(reviews + [review])
  {
  }

  /** Summing the ratings of two runs of reviews adds their sums. */
  lemma {:induction false} SumRatingsConcat(a: seq<Review>, b: seq<Review>)
    ensures SumRatings(a + b) == SumRatings(a) + SumRatings(b)
    decreases |b|
  {
    if b == [] {
      assert a + b == a;
    } else {
      var last := |b| - 1;
      assert (a + b)[..|a + b| - 1] == a + b[..last];
      SumRatingsConcat(a, b[..last]);
    }
  }

  /** When every rating lies in `lo..hi`, the sum lies between `lo` and `hi` times the count. */
  lemma {:induction false} SumRatingsBounds(reviews: seq<Review>, lo: int, hi: int)
    requires forall i :: 0 <= i < |reviews| ==> lo <= reviews[i].rating <= hi
    ensures lo * |reviews| <= SumRatings(reviews) <= hi * |reviews|
  {
    if reviews != [] {
      var n := |reviews| - 1;
      SumRatingsBounds(reviews[..n], lo, hi);
      assert lo * (n + 1) == lo * n + lo;
      assert hi * (n + 1) == hi * n + hi;
    }
  }

  /** Dividing by a positive count keeps a sum's bounds: lo * n <= s <= hi * n gives lo <= s / n <= hi. */
  lemma DivideBounds(s: real, n: real, lo: real, hi: real)
    requires n > 0.0 && lo * n <= s <= hi * n
    ensures lo <= s / n <= hi
  {
    var m := s / n;
    assert m * n == s;
    assert (m - lo) * n >= 0.0;
    assert (hi - m) * n >= 0.0;
  }

  /** When every rating lies in `lo..hi`, so does the average rating. */
  lemma MeanRatingWithin(reviews: seq<Review>, lo: int, hi: int)
    requires reviews != []
    requires forall i :: 0 <= i < |reviews| ==> lo <= reviews[i].rating <= hi
    ensures lo as real <= MeanRating(reviews) <= hi as real
  {
    SumRatingsBounds(reviews, lo, hi);
    DivideBounds(SumRatings(reviews) as real, |reviews| as real, lo as real, hi as real);
  }
}
