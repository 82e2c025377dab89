/**
 * The product controller over an in-memory product collection. Each request
 * handler is a method of `ProductStore`: it looks the product up, checks
 * ownership where the handler does, assigns fields one by one and saves the
 * product back into the collection.
 */
module ProductController {
  import opened Outcomes
  import opened Reviews
  import opened ProductModel
  import opened Queries

  class ProductStore {
    /** The stored products, by identifier. */
    var products: map<ProductId, Product>
    /** The identifiers in the collection's natural (insertion) order. */
    var order: seq<ProductId>
    /** The next identifier to hand out; every stored identifier is below it. */
    var nextId: ProductId
    /** Values the product schema supplies for fields a new product leaves unset. */
    const defaults: SchemaDefaults

    ghost predicate Valid()
      reads this
    {
      && Indexed(order, products)
      && (forall k :: k in products ==> k < nextId)
      && (forall k :: k in products ==> ReviewStatsHold(products[k]))
    }

    constructor (defaults: SchemaDefaults)
      ensures Valid()
      ensures products == map[] && order == [] && this.defaults == defaults
    {
      products := map[];
      order := [];
      nextId := 0;
      this.defaults := defaults;
    }

    /** The documents of the collection, in natural order. */
    function Documents(): seq<Product>
      reads this
      requires Valid()
    {
      Collection(order, products)
    }

    /**
     * `getProducts`: the products in stock whose name matches the keyword,
     * if one is given; each once, in collection order.
     */
    function GetProducts(keyword: Option<string>): (r: seq<Product>)
      reads this
      requires Valid()
      ensures forall p :: p in r <==>
        && p.id in products && products[p.id] == p
        && p.remainingQuantity > 0 && KeywordAccepts(keyword, p.name)
      ensures InCollectionOrder(r, order)
      ensures forall i, j :: 0 <= i < j < |r| ==> r[i] != r[j]
    {
      StoreListing(Available(keyword), order, products);
      Find(Available(keyword), Documents())
    }

    /** `getMyWaitlistProducts`: the caller's products in stock that are not cancelled. */
    function GetMyWaitlistProducts(caller: UserId): (r: seq<Product>)
      reads this
      requires Valid()
      ensures forall p :: p in r <==>
        && p.id in products && products[p.id] == p
        && p.user == caller && p.remainingQuantity > 0 && p.status != Cancelled
      ensures InCollectionOrder(r, order)
      ensures forall i, j :: 0 <= i < j < |r| ==> r[i] != r[j]
    {
      StoreListing(Waitlist(caller), order, products);
      Find(Waitlist(caller), Documents())
    }

    /** `getDispatchReadyProducts`: the caller's placed products with no stock left. */
    function GetDispatchReadyProducts(caller: UserId): (r: seq<Product>)
      reads this
      requires Valid()
      ensures forall p :: p in r <==>
        && p.id in products && products[p.id] == p
        && p.user == caller && p.remainingQuantity == 0 && p.status == Placed
      ensures InCollectionOrder(r, order)
      ensures forall i, j :: 0 <= i < j < |r| ==> r[i] != r[j]
    {
      StoreListing(DispatchReady(caller), order, products);
      Find(DispatchReady(caller), Documents())
    }

    /** `getDispatchedProducts`: the caller's dispatched products. */
    function GetDispatchedProducts(caller: UserId): (r: seq<Product>)
      reads this
      requires Valid()
      ensures forall p :: p in r <==>
        && p.id in products && products[p.id] == p
        && p.user == caller && p.status == Dispatched
      ensures InCollectionOrder(r, order)
      ensures forall i, j :: 0 <= i < j < |r| ==> r[i] != r[j]
    {
      StoreListing(DispatchedBy(caller), order, products);
      Find(DispatchedBy(caller), Documents())
    }

    /** `getProductById`: the stored product, or NotFound. */
    method GetProductById(id: ProductId) returns (r: Result<Product>)
      ensures id in products ==> r == Ok(products[id])
      ensures id !in products ==> r == Err(NotFound)
    {
      if id in products {
        r := Ok(products[id]);
      } else {
        r := Err(NotFound);
      }
    }

    /**
     * `deleteProduct`: the owner's soft delete. The product stays in the
     * collection, cancelled and with no stock left; the answer is a message.
     */
    method DeleteProduct(id: ProductId, caller: UserId) returns (r: Result<string>)
      requires Valid()
      modifies this
      ensures Valid()
      ensures order == old(order) && nextId == old(nextId) && products.Keys == old(products.Keys)
      ensures id !in old(products) ==> r == Err(NotFound) && products == old(products)
      ensures id in old(products) && !IsOwner(caller, old(products)[id]) ==>
        r == Err(NotOwner) && products == old(products)
      ensures id in old(products) && IsOwner(caller, old(products)[id]) ==>
        r == Ok("Product removed") && products == old(products)[id := SoftDeleted(old(products)[id])]
    {
      if id !in products {
        return Err(NotFound);
      }
      var product := products[id];
      if !IsOwner(caller, product) {
        return Err(NotOwner);
      }
      product := product.(status := Cancelled);
      product := product.(remainingQuantity := 0);
      TransitionsKeepReviewStats(products[id], FieldsOf(products[id]));
      products := products[id := product];
      r := Ok("Product removed");
    }

    /**
     * `createProduct`: a placeholder product owned by the caller, stored
     * under a fresh identifier at the end of the collection.
     */
    method CreateProduct(caller: UserId) returns (created: Product)
      requires Valid()
      modifies this
      ensures Valid()
      ensures created.id !in old(products)
      ensures created == NewProduct(created.id, caller, defaults)
      ensures products == old(products)[created.id := created]
      ensures order == old(order) + [created.id]
    {
      var product := Product(nextId, SampleName, 0.0, caller, SampleImage, 0,
                             defaults.remainingQuantity, Placed, [], 0, defaults.rating);
      assert nextId !in order;
      products := products[nextId := product];
      order := order + [nextId];
      nextId := nextId + 1;
      created := product;
    }

    /**
     * `updateProduct`: the owner's update writes exactly the five fields of
     * the body and saves the product.
     */
    method UpdateProduct(id: ProductId, caller: UserId, body: ProductFields) returns (r: Result<Product>)
      requires Valid()
      modifies this
      ensures Valid()
      ensures order == old(order) && nextId == old(nextId) && products.Keys == old(products.Keys)
      ensures id !in old(products) ==> r == Err(NotFound) && products == old(products)
      ensures id in old(products) && !IsOwner(caller, old(products)[id]) ==>
        r == Err(NotOwner) && products == old(products)
      ensures id in old(products) && IsOwner(caller, old(products)[id]) ==>
        r == Ok(Updated(old(products)[id], body)) && products == old(products)[id := r.value]
    {
      if id !in products {
        return Err(NotFound);
      }
      var product := products[id];
      if !IsOwner(caller, product) {
        return Err(NotOwner);
      }
      product := product.(name := body.name);
      product := product.(price := body.price);
      product := product.(image := body.image);
      product := product.(bundleQuantity := body.bundleQuantity);
      product := product.(remainingQuantity := body.remainingQuantity);
      TransitionsKeepReviewStats(products[id], body);
      products := products[id := product];
      r := Ok(product);
    }

    /**
     * `createProductReview`: a caller who has not reviewed the product yet
     * appends one review; the count and the average rating are recomputed.
     */
    method CreateProductReview(id: ProductId, caller: UserId, callerName: string, rating: int, comment: string)
      returns (r: Result<string>)
      requires Valid()
      modifies this
      ensures Valid()
      ensures order == old(order) && nextId == old(nextId) && products.Keys == old(products.Keys)
      ensures id !in old(products) ==> r == Err(NotFound) && products == old(products)
      ensures id in old(products) && HasReviewed(old(products)[id].reviews, caller) ==>
        r == Err(AlreadyReviewed) && products == old(products)
      ensures id in old(products) && !HasReviewed(old(products)[id].reviews, caller) ==>
        && r == Ok("Review added")
        && products == old(products)[id := Reviewed(old(products)[id], Review(callerName, rating, comment, caller))]
    {
      if id !in products {
        return Err(NotFound);
      }
      var product := products[id];
      var alreadyReviewed := FindReview(product.reviews, caller);
      FindReviewReportsReviewer(product.reviews, caller);
      if alreadyReviewed.Some? {
        return Err(AlreadyReviewed);
      }
      var review := Review(callerName, rating, comment, caller);
      product := product.(reviews := product.reviews + [review]);
      product := product.(numReviews := |product.reviews|);
      product := product.(rating := SumRatings(product.reviews) as real / |product.reviews| as real);
      ReviewedKeepsReviewStats(products[id], review);
      products := products[id := product];
      r := Ok("Review added");
    }

    /**
     * `dispatchProduct`: marks any stored product dispatched. Neither the
     * caller nor the current status is checked.
     */
    method DispatchProduct(id: ProductId) returns (r: Result<Product>)
      requires Valid()
      modifies this
      ensures Valid()
      ensures order == old(order) && nextId == old(nextId) && products.Keys == old(products.Keys)
      ensures id !in old(products) ==> r == Err(NotFound) && products == old(products)
      ensures id in old(products) ==>
        r == Ok(MarkedDispatched(old(products)[id])) && products == old(products)[id := r.value]
    {
      if id !in products {
        return Err(NotFound);
      }
      var product := products[id];
      product := product.(status := Dispatched);
      TransitionsKeepReviewStats(products[id], FieldsOf(products[id]));
      products := products[id := product];
      r := Ok(product);
    }
  }

  /**
   * A vendor creates a product and corrects it; the correction reads back,
   * and another vendor's update of it is refused with the 404 of an absent
   * product.
   */
  method CorrectionScenario(defaults: SchemaDefaults, vendorA: UserId, vendorB: UserId)
    returns (fetched: Result<Product>, foreign: Result<Product>)
    requires vendorA != vendorB
    ensures fetched.Ok? && fetched.value.name == "Widget" && fetched.value.remainingQuantity == 5
    ensures foreign == Err(NotOwner) && foreign.error.Code() == 404
    ensures foreign.error.Message() == "You are not the owner of this product."
  {
    var store := new ProductStore(defaults);
    var created := store.CreateProduct(vendorA);
    var body := ProductFields("Widget", 10.0, "/img.jpg", 5, 5);
    var _ := store.UpdateProduct(created.id, vendorA, body);
    fetched := store.GetProductById(created.id);
    foreign := store.UpdateProduct(created.id, vendorB, body);
  }

  /**
   * One user's second review of a product is refused with 400, while a
   * second user's review is accepted and brings ratings 4 and 5 to an
   * average of 4.5.
   */
  method ReviewScenario(defaults: SchemaDefaults, vendor: UserId, userX: UserId, userY: UserId)
    returns (repeated: Result<string>, numReviews: int, rating: real)
    requires userX != userY
    ensures repeated == Err(AlreadyReviewed) && repeated.error.Code() == 400
    ensures repeated.error.Message() == "Product already reviewed"
    ensures numReviews == 2 && rating == 4.5
  {
    var store := new ProductStore(defaults);
    var created := store.CreateProduct(vendor);
    var id := created.id;
    var reviewX := Review("X", 4, "good", userX);
    var reviewY := Review("Y", 5, "great", userY);
    var first := store.CreateProductReview(id, userX, "X", 4, "good");
    assert store.products[id] == Reviewed(created, reviewX);
    repeated := store.CreateProductReview(id, userX, "X", 5, "again");
    assert !HasReviewed(store.products[id].reviews, userY);
    var second := store.CreateProductReview(id, userY, "Y", 5, "great");
    assert store.products[id] == Reviewed(Reviewed(created, reviewX), reviewY);
    TwoReviewsAverage(created, reviewX, reviewY);
    numReviews := store.products[id].numReviews;
    rating := store.products[id].rating;
  }
}
