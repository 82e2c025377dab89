/**
 * A product document and what each handler does to one product: the
 * placeholder product `createProduct` builds, the field-exact overwrite of
 * `updateProduct`, the soft delete of `deleteProduct`, the status change of
 * `dispatchProduct` and the review append of `createProductReview`.
 */
module ProductModel {
  import opened Outcomes
  import opened Reviews

  /** Identifier of a product in the store. */
  type ProductId = nat

  /** The fulfilment status of a product. */
  datatype Status = Placed | Dispatched | Cancelled

  /** A product document. `numReviews` and `rating` are stored, derived from `reviews`. */
  datatype Product = Product(
    id: ProductId,
    name: string,
    price: real,
    user: UserId,
    image: string,
    bundleQuantity: int,
    remainingQuantity: int,
    status: Status,
    reviews: seq<Review>,
    numReviews: int,
    rating: real)

  /** The five fields of an update request body; every one of them is written. */
  datatype ProductFields = ProductFields(
    name: string,
    price: real,
    image: string,
    bundleQuantity: int,
    remainingQuantity: int)

  /**
   * The values the product schema gives to fields `createProduct` leaves
   * unset. The schema is not part of this model, so they are parameters.
   */
  datatype SchemaDefaults = SchemaDefaults(remainingQuantity: int, rating: real)

  const SampleName: string := "Sample name"
  const SampleImage: string := "/images/sample.jpg"

  /** The ownership guard: the caller is the vendor recorded on the product. */
  predicate IsOwner(caller: UserId, p: Product)
  {
    caller == p.user
  }

  /**
   * The review bookkeeping every stored product keeps: the count matches the
   * reviews, the rating is their average once there is one, and no user
   * reviewed twice.
   */
  predicate ReviewStatsHold(p: Product)
  {
    && p.numReviews == |p.reviews|
    && (p.reviews != [] ==> p.rating == MeanRating(p.reviews))
    && ReviewersDistinct(p.reviews)
  }

  /** The placeholder product `createProduct` stores for `owner` under `id`. */
  function NewProduct(id: ProductId, owner: UserId, defaults: SchemaDefaults): (p: Product)
    ensures p.id == id && IsOwner(owner, p) && p.status == Placed
    ensures p.name == SampleName && p.price == 0.0 && p.image == SampleImage
    ensures p.bundleQuantity == 0 && p.numReviews == 0 && p.reviews == []
    ensures ReviewStatsHold(p)
  {
    Product(id, SampleName, 0.0, owner, SampleImage, 0, defaults.remainingQuantity,
            Placed, [], 0, defaults.rating)
  }

  /** The five fields an update writes, read back from a product. */
  function FieldsOf(p: Product): ProductFields
  {
    ProductFields(p.name, p.price, p.image, p.bundleQuantity, p.remainingQuantity)
  }

  /** The product after an owner's update with `body`. */
  function Updated(p: Product, body: ProductFields): Product
  {
    p.(name := body.name, price := body.price, image := body.image,
       bundleQuantity := body.bundleQuantity, remainingQuantity := body.remainingQuantity)
  }

  /** The product after an owner's soft delete. */
  function SoftDeleted(p: Product): Product
  {
    p.(status := Cancelled, remainingQuantity := 0)
  }

  /** The product after a dispatch. */
  function MarkedDispatched(p: Product): Product
  {
    p.(status := Dispatched)
  }

  /** The product after `review` is appended and the count and average recomputed. */
  function Reviewed(p: Product, review: Review): Product
  {
    var reviews := p.reviews + [review];
    p.(reviews := reviews, numReviews := |reviews|, rating := MeanRating(reviews))
  }

  /**
   * The effect on one product of a run of review requests, in order: a
   * request from a user who has already reviewed is refused and leaves the
   * product as it was.
   */
  function ApplyReviews(p: Product, requests: seq<Review>): Product
    decreases |requests|
  {
    if requests == [] then p
    else
      var next := if FindReview(p.reviews, requests[0].user).None? then Reviewed(p, requests[0]) else p;
      ApplyReviews(next, requests[1..])
  }

  /**
   * An update reads back as exactly the body it wrote, and leaves status,
   * owner, identifier and reviews as they were.
   */
  lemma UpdateWritesExactlyBody(p: Product, body: ProductFields)
    ensures FieldsOf(Updated(p, body)) == body
    ensures Updated(p, body).id == p.id && Updated(p, body).user == p.user
    ensures Updated(p, body).status == p.status && Updated(p, body).reviews == p.reviews
    ensures Updated(p, body).numReviews == p.numReviews && Updated(p, body).rating == p.rating
  {
  }

  /** Updating with the fields a product already has changes nothing. */
  lemma UpdateWithOwnFields(p: Product)
    ensures Updated(p, FieldsOf(p)) == p
  {
  }

  /** Overwrite, not merge: a later update replaces an earlier one entirely. */
  lemma UpdateOverwritesEarlierUpdate(p: Product, first: ProductFields, second: ProductFields)
    ensures Updated(Updated(p, first), second) == Updated(p, second)
  {
  }

  /** A soft delete cancels the product and empties its stock, and changes nothing else. */
  lemma SoftDeleteCancels(p: Product)
    ensures SoftDeleted(p).status == Cancelled && SoftDeleted(p).remainingQuantity == 0
    ensures SoftDeleted(p).(status := p.status, remainingQuantity := p.remainingQuantity) == p
  {
  }

  /** A dispatch sets the status, whatever it was, and changes nothing else. */
  lemma DispatchOverridesAnyStatus(p: Product)
    ensures MarkedDispatched(p).status == Dispatched
    ensures MarkedDispatched(p).(status := p.status) == p
    ensures MarkedDispatched(SoftDeleted(p)).status == Dispatched
  {
  }

  /** The bookkeeping survives every transition but the review append. */
  lemma TransitionsKeepReviewStats(p: Product, body: ProductFields)
    requires ReviewStatsHold(p)
    ensures ReviewStatsHold(Updated(p, body))
    ensures ReviewStatsHold(SoftDeleted(p))
    ensures ReviewStatsHold(MarkedDispatched(p))
  {
  }

  /**
   * Appending a review by a user who has not reviewed yet keeps the
   * bookkeeping: one more review, the count matches, the rating is the
   * old sum plus the new rating over the new count.
   */
  lemma ReviewedKeepsReviewStats(p: Product, review: Review)
    requires ReviewStatsHold(p)
    requires FindReview(p.reviews, review.user).None?
    ensures ReviewStatsHold(Reviewed(p, review))
    ensures Reviewed(p, review).reviews == p.reviews + [review]
    ensures Reviewed(p, review).numReviews == p.numReviews + 1
    ensures Reviewed(p, review).rating
         == (SumRatings(p.reviews) + review.rating) as real / (|p.reviews| + 1) as real
  {
    AppendNewReviewer(p.reviews, review);
    assert (p.reviews + [review])[..|p.reviews|] == p.reviews;
  }

  /** Once a user's review is in, a second review by that user is refused. */
  lemma SecondReviewRefused(p: Product, review: Review)
    ensures FindReview(Reviewed(p, review).reviews, review.user).Some?
  {
    assert Reviewed(p, review).reviews[|p.reviews|] == review;
  }

  /**
   * After any run of review requests, the bookkeeping still holds; in
   * particular each user appears at most once among the reviews.
   */
  lemma {:induction false} ApplyReviewsKeepsReviewStats(p: Product, requests: seq<Review>)
    requires ReviewStatsHold(p)
    ensures ReviewStatsHold(ApplyReviews(p, requests))
    ensures ApplyReviews(p, requests).(reviews := p.reviews, numReviews := p.numReviews, rating := p.rating) == p
    decreases |requests|
  {
    if requests != [] {
      var next := if FindReview(p.reviews, requests[0].user).None? then Reviewed(p, requests[0]) else p;
      if FindReview(p.reviews, requests[0].user).None? {
        ReviewedKeepsReviewStats(p, requests[0]);
      }
      ApplyReviewsKeepsReviewStats(next, requests[1..]);
    }
  }

  /**
   * Requests from distinct users who have not reviewed yet are all accepted:
   * they are appended in order and the count grows by their number.
   */
  lemma {:induction false} DistinctReviewersAllAccepted(p: Product, requests: seq<Review>)
    requires ReviewStatsHold(p)
    requires ReviewersDistinct(requests)
    requires forall i, j :: 0 <= i < |p.reviews| && 0 <= j < |requests| ==> p.reviews[i].user != requests[j].user
    ensures ApplyReviews(p, requests).reviews == p.reviews + requests
    ensures ApplyReviews(p, requests).numReviews == |p.reviews| + |requests|
    decreases |requests|
  {
    if requests == [] {
      assert p.reviews + requests == p.reviews;
    } else {
      var next := Reviewed(p, requests[0]);
      assert FindReview(p.reviews, requests[0].user).None?;
      ReviewedKeepsReviewStats(p, requests[0]);
      var rest := requests[1..];
      forall i, j | 0 <= i < |next.reviews| && 0 <= j < |rest|
        ensures next.reviews[i].user != rest[j].user
      {
        if i < |p.reviews| {
          assert next.reviews[i] == p.reviews[i];
          assert rest[j] == requests[j + 1];
        } else {
          assert next.reviews[i] == requests[0];
          assert rest[j] == requests[j + 1];
        }
      }
      DistinctReviewersAllAccepted(next, rest);
      assert p.reviews + requests == next.reviews + rest;
    }
  }

  /**
   * After requests from distinct new reviewers, the rating is the sum of
   * all ratings, the earlier ones and the new ones, over their number.
   */
  lemma DistinctReviewersAverage(p: Product, requests: seq<Review>)
    requires ReviewStatsHold(p)
    requires ReviewersDistinct(requests)
    requires forall i, j :: 0 <= i < |p.reviews| && 0 <= j < |requests| ==> p.reviews[i].user != requests[j].user
    requires p.reviews != [] || requests != []
    ensures ApplyReviews(p, requests).rating
         == (SumRatings(p.reviews) + SumRatings(requests)) as real / (|p.reviews| + |requests|) as real
  {
    DistinctReviewersAllAccepted(p, requests);
    ApplyReviewsKeepsReviewStats(p, requests);
    SumRatingsConcat(p.reviews, requests);
  }

  /** Two reviews rated 4 and 5 give the product a rating of 4.5. */
  lemma TwoReviewsAverage(p: Product, first: Review, second: Review)
    requires p.reviews == [] && first.rating == 4 && second.rating == 5
    ensures Reviewed(Reviewed(p, first), second).rating == 4.5
  {
    var one := Reviewed(p, first).reviews;
    assert one == [first];
    assert SumRatings(one) == 4 by { assert one[..0] == []; }
    var both := Reviewed(Reviewed(p, first), second).reviews;
    assert both == [first, second];
    assert SumRatings(both) == 9 by { assert both[..1] == one; }
  }
}
