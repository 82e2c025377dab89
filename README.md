# Product lifecycle of a marketplace catalogue, in Dafny

This project models the product controller of a marketplace back end
(`backend/controllers/productController.js`). The controller serves the
public catalogue listing and the product page. It lets a vendor create,
correct and soft-delete their own products. Any signed-in user can review a
product once, and a product can be marked dispatched. Vendors list their
waitlisted, dispatch-ready and dispatched products.

The persistent collection becomes an in-memory store. `ProductStore` is a
class that holds a map from product identifier to `Product` document, the
identifiers in the collection's natural (insertion) order, and a counter
that hands out fresh identifiers. Each request handler is a method of that
class. It looks the product up, applies the ownership guard where the
handler does, assigns the fields one at a time and saves the product back
with a map update. The four listing handlers are functions that filter the
collection. The filter each one passes to `find` is a `Query` value, and
`Selects` is its exact membership condition. The handlers that can fail
answer with a `Result`. `createProduct` always succeeds and answers with the
new product. The listings answer with a sequence of products. An error is
`NotFound` or `NotOwner` (both HTTP 404) or `AlreadyReviewed` (HTTP 400).

Modules:
- `Outcomes` (outcomes.dfy): `Option`, the error kinds with their status codes and messages, `Result`.
- `Reviews` (reviews.dfy): the review record, the duplicate check (`reviews.find`), the rating sum (`reviews.reduce`) and the average rating.
- `ProductModel` (product_model.dfy): the product document and what each handler does to one product.
- `Queries` (queries.dfy): the four filters, the keyword match, the collection in natural order.
- `ProductController` (product_controller.dfy): the store class with one method or function per handler, and two client scenarios.

The store's invariant `ProductStore.Valid` says three things. The order
lists every stored identifier exactly once. Every product is stored under
its own identifier, below the counter. Every product keeps its review
bookkeeping (`ReviewStatsHold`): `numReviews` is the number of reviews, the
rating is their average once there is one, and no user reviewed twice. Every
mutating handler preserves it.

Facts about the controller that the model keeps:
- The catalogue keyword is a regular expression with the `i` option. The model approximates it; see Left out.
- The controller never checks that `remainingQuantity` is non-negative. `updateProduct` writes whatever the body holds, so the model allows any integer. A placed product with negative stock is on neither the waitlist nor the dispatch-ready list.
- Nothing keeps a cancelled product cancelled or out of sight:
  - `dispatchProduct` moves a Cancelled product to Dispatched, which puts it on its vendor's dispatched list (`DispatchRevivesCancelled`).
  - `getProducts` has no status condition. An owner's update that restocks a soft-deleted product puts it back in the public catalogue, still Cancelled (`RestockRevivesCancelledInCatalogue`).

## Model

| member | source | states |
|---|---|---|
| `Outcomes.Error.Code` | backend/controllers/productController.js:102-126 | the not-owner error carries the same 404 as an absent product; only a repeated review gives 400 |
| `Reviews.FindReview` | backend/controllers/productController.js:120-122 | `find` reports nothing exactly when no review is by the user; what it reports is the first stored review by that user |
| `Reviews.FindReviewReportsReviewer` | backend/controllers/productController.js:120-124 | the duplicate check fires iff the user has already reviewed |
| `Reviews.AppendNewReviewer` | backend/controllers/productController.js:124-136 | pushing a review by a user who has not reviewed keeps reviewers distinct |
| `Reviews.SumRatingsConcat` | backend/controllers/productController.js:140-142 | the left-fold sum of ratings over two runs of reviews is the sum of their sums |
| `Reviews.SumRatingsBounds` | backend/controllers/productController.js:140-142 | when every rating lies in lo..hi, the sum lies between lo and hi times the count |
| `Reviews.MeanRatingWithin` | backend/controllers/productController.js:140-142 | when every rating lies in lo..hi, so does the product's average rating |
| `ProductModel.NewProduct` | backend/controllers/productController.js:70-77 | a new product is owned by the caller and placed, has the sample name, price 0, the sample image, bundle quantity 0, no reviews and numReviews 0 |
| `ProductModel.UpdateWritesExactlyBody` | backend/controllers/productController.js:92-99 | an update reads back as exactly the five body fields; identifier, owner, status, reviews, count and rating are unchanged |
| `ProductModel.UpdateWithOwnFields` | backend/controllers/productController.js:93-97 | updating with a product's own five fields changes nothing |
| `ProductModel.UpdateOverwritesEarlierUpdate` | backend/controllers/productController.js:93-97 | overwrite, not merge: after two updates only the second body shows |
| `ProductModel.SoftDeleteCancels` | backend/controllers/productController.js:50-53 | a soft delete sets status Cancelled and stock 0 and changes no other field |
| `ProductModel.DispatchOverridesAnyStatus` | backend/controllers/productController.js:194-196 | dispatch sets Dispatched from any status, a cancelled one included, and changes no other field |
| `ProductModel.TransitionsKeepReviewStats` | backend/controllers/productController.js:51-196 | update, soft delete and dispatch keep the review bookkeeping |
| `ProductModel.ReviewedKeepsReviewStats` | backend/controllers/productController.js:129-142 | a review by a new reviewer is appended at the end; the count grows by one and the rating becomes (old sum + new rating) / new count; bookkeeping holds |
| `ProductModel.SecondReviewRefused` | backend/controllers/productController.js:120-127 | once a user's review is appended, that user's next review hits the duplicate check |
| `ProductModel.ApplyReviewsKeepsReviewStats` | backend/controllers/productController.js:117-144 | after any run of review requests each user appears at most once, the count matches and the rating is the average; no other field changes |
| `ProductModel.DistinctReviewersAllAccepted` | backend/controllers/productController.js:117-144 | requests from N distinct new reviewers are all appended in order and numReviews grows by N |
| `ProductModel.DistinctReviewersAverage` | backend/controllers/productController.js:136-142 | after requests from distinct new reviewers, the rating is the sum of all old and new ratings over their number |
| `ProductModel.TwoReviewsAverage` | backend/controllers/productController.js:136-142 | ratings 4 and 5 give a rating of 4.5 |
| `Queries.Find` | backend/controllers/productController.js:17-20 | a product is in the answer iff it is in the collection and the filter selects it; the answer is no longer than the collection |
| `Queries.FindMultiplicity` | backend/controllers/productController.js:17-20 | the answer holds each selected document exactly as often as the collection does, and no other document |
| `Queries.FindConcat` | backend/controllers/productController.js:17-20 | the answer keeps collection order: over two runs of documents it is the first run's matches followed by the second's |
| `Queries.FindInCollectionOrder` | backend/controllers/productController.js:17-20 | over the store, each entry of the answer is stored under an identifier that comes later in the collection than those of the entries before it |
| `Queries.StoreListing` | backend/controllers/productController.js:17-20 | over the store, the answer is exactly the stored products the filter selects, each once, in collection order |
| `Queries.FindOverStore` | backend/controllers/productController.js:17-20 | over the store, a product is in the answer iff it is stored under its identifier and the filter selects it |
| `Queries.NoKeywordListsAllInStock` | backend/controllers/productController.js:8-20 | with no keyword, or an empty one, the catalogue is exactly the products with stock above 0 |
| `Queries.KeywordNarrowsCatalogue` | backend/controllers/productController.js:8-20 | a keyword only removes products from the catalogue |
| `Queries.NameMatchesIgnoresCase` | backend/controllers/productController.js:10-13 | the keyword match ignores the letter case of both the name and the keyword |
| `Queries.NameMatchesPart` | backend/controllers/productController.js:10-13 | a keyword matches every name that contains it |
| `Queries.DispatchReadyDisjoint` | backend/controllers/productController.js:156-182 | the dispatch-ready list shares no product with the waitlist or the dispatched list |
| `Queries.DispatchedInStockStaysWaitlisted` | backend/controllers/productController.js:156-160 | a dispatched product with stock is also on its vendor's waitlist, which excludes only cancelled products |
| `Queries.PlacedProductListedOnce` | backend/controllers/productController.js:156-172 | a vendor's placed product with non-negative stock is on exactly one of the waitlist and the dispatch-ready list |
| `Queries.SoftDeletedListedNowhere` | backend/controllers/productController.js:51-52 | right after the soft delete, the product is in no listing |
| `Queries.RestockRevivesCancelledInCatalogue` | backend/controllers/productController.js:17-20 | an owner's update that restocks a soft-deleted product puts it back in the public catalogue while it stays Cancelled and off the waitlist |
| `Queries.DispatchRevivesCancelled` | backend/controllers/productController.js:190-196 | dispatching a soft-deleted product puts it back on its vendor's dispatched list |
| `ProductController.ProductStore.GetProducts` | backend/controllers/productController.js:7-23 | the catalogue is exactly the stored products with stock above 0 whose name matches the keyword, if a non-empty keyword is given, each once, in collection order |
| `ProductController.ProductStore.GetMyWaitlistProducts` | backend/controllers/productController.js:155-162 | exactly the caller's stored products with stock above 0 that are not cancelled, each once, in collection order |
| `ProductController.ProductStore.GetDispatchReadyProducts` | backend/controllers/productController.js:167-174 | exactly the caller's stored products with stock 0 and status Placed, each once, in collection order |
| `ProductController.ProductStore.GetDispatchedProducts` | backend/controllers/productController.js:179-185 | exactly the caller's stored products with status Dispatched, each once, in collection order |
| `ProductController.ProductStore.GetProductById` | backend/controllers/productController.js:28-40 | the stored product if there is one, otherwise NotFound |
| `ProductController.ProductStore.DeleteProduct` | backend/controllers/productController.js:45-63 | missing id: NotFound; another owner: NotOwner; both leave the store unchanged; the owner's call soft-deletes, keeps the product and every other product, and answers "Product removed" |
| `ProductController.ProductStore.CreateProduct` | backend/controllers/productController.js:68-81 | a new placeholder product owned by the caller under a fresh identifier, appended to the collection; existing products untouched |
| `ProductController.ProductStore.UpdateProduct` | backend/controllers/productController.js:86-109 | missing id: NotFound; another owner: NotOwner; both leave the store unchanged; the owner's call writes exactly the five body fields of that product only and answers with it |
| `ProductController.ProductStore.CreateProductReview` | backend/controllers/productController.js:114-150 | missing id: NotFound; a repeat reviewer: AlreadyReviewed; both leave the store unchanged; otherwise one review is appended with count and average recomputed, and the answer is "Review added" |
| `ProductController.ProductStore.DispatchProduct` | backend/controllers/productController.js:190-203 | missing id: NotFound with the store unchanged; otherwise any caller marks the product Dispatched, whatever its status, and nothing else changes |
| `ProductController.CorrectionScenario` | backend/controllers/productController.js:86-109 | create, then the owner's update reads back ("Widget", stock 5), then another vendor's update fails with NotOwner, status 404 and the not-owner message |
| `ProductController.ReviewScenario` | backend/controllers/productController.js:114-150 | a user's second review fails with 400 and the already-reviewed message, and a second user's review gives numReviews 2 and rating 4.5 |

## Left out

- Express plumbing is not modelled: `asyncHandler`, request and response objects, and thrown errors. Errors are `Result` values. Success status codes (201 for creation and for a review, 200 otherwise) are not carried in the result.
- The persistence engine is replaced by a map and an order sequence. Asynchronous `findById`, `find` and `save` become map lookup, sequence filtering and map update. Failures of `save` are not modelled.
- A fresh MongoDB ObjectId is modelled as a counter: every stored identifier is below `nextId`.
- The `populate("user", "name email")` join of `getProductById` is left out, because the User model is not part of this model. Only the found or not-found outcome is modelled.
- `Queries.NameMatches` approximates the `$regex` keyword match with option `i`. It is an ASCII case-insensitive substring test, so regular-expression metacharacters in the keyword are taken literally. Case folding beyond A-Z is not modelled.
- `Number(rating)` coercion is not modelled: ratings are integers, so NaN and fractional ratings are out of scope. The average rating is a `real` and stands for JavaScript's floating-point division. Prices are reals and quantities are integers, with no validation, as in the controller.
- Identifiers are compared with `==` instead of `JSON.stringify` or `toString`.
- The product schema is not part of this model. Where `createProduct` sets no value, the schema's defaults are taken from a `SchemaDefaults` parameter of the store: the initial `remainingQuantity` and `rating`. The initial status is taken to be Placed. The initial review list is taken to be empty. Schema validation is not modelled.
- An update body with missing fields (which would write `undefined`) is not modelled: `ProductFields` always carries all five values.
- The `console.log` call in `dispatchProduct` is left out.
- Concurrent requests on the same product are not modelled, so neither are lost updates. Each handler runs as one atomic step on the store.
