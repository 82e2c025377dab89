/**
 * The `Product.find` filters of the four listing handlers, the keyword
 * match of the public catalogue, and the store's documents in their natural
 * (insertion) order.
 */
module Queries {
  import opened Outcomes
  import opened Reviews
  import opened ProductModel

  /** The filter document each listing handler passes to `find`. */
  datatype Query =
    | Available(keyword: Option<string>)   // getProducts
    | Waitlist(vendor: UserId)             // getMyWaitlistProducts
    | DispatchReady(vendor: UserId)        // getDispatchReadyProducts
    | DispatchedBy(vendor: UserId)         // getDispatchedProducts

  /** ASCII case folding, as the `i` option folds letters. */
  function Lower(c: char): (d: char)
    ensures 'A' <= c <= 'Z' ==> d as int == c as int + 32
    ensures !('A' <= c <= 'Z') ==> d == c
    ensures !('A' <= d <= 'Z')
  {
    if 'A' <= c <= 'Z' then (c as int + 32) as char else c
  }

  function LowerString(s: string): (t: string)
    ensures |t| == |s| && forall i :: 0 <= i < |s| ==> t[i] == Lower(s[i])
  {
    if s == [] then [] else [Lower(s[0])] + LowerString(s[1..])
  }

  /** `needle` occurs in `hay` starting at position `i`. */
  predicate OccursAt(needle: string, hay: string, i: nat)
  {
    i + |needle| <= |hay| && hay[i..i + |needle|] == needle
  }

  /** The keyword occurs in the name, ignoring the case of ASCII letters. */
  predicate NameMatches(name: string, keyword: string)
  {
    exists i: nat | i <= |name| :: OccursAt(LowerString(keyword), LowerString(name), i)
  }

  /**
   * The keyword filter applies only when a keyword is given and is not
   * empty: an empty query string is falsy, and then no name condition is
   * added.
   */
  predicate KeywordAccepts(keyword: Option<string>, name: string)
  {
    keyword.Some? && keyword.value != "" ==> NameMatches(name, keyword.value)
  }

  /** Does the filter of `q` select product `p`? */
  predicate Selects(q: Query, p: Product)
  {
    match q
    case Available(keyword) => p.remainingQuantity > 0 && KeywordAccepts(keyword, p.name)
    case Waitlist(vendor) => p.user == vendor && p.remainingQuantity > 0 && p.status != Cancelled
    case DispatchReady(vendor) => p.user == vendor && p.remainingQuantity == 0 && p.status == Placed
    case DispatchedBy(vendor) => p.user == vendor && p.status == Dispatched
  }

  /** `find(q)` over a collection: the documents the filter selects, in collection order. */
  function Find(q: Query, docs: seq<Product>): (r: seq<Product>)
    ensures forall p :: p in r <==> p in docs && Selects(q, p)
    ensures |r| <= |docs|
  {
    if docs == [] then []
    else (if Selects(q, docs[0]) then [docs[0]] else []) + Find(q, docs[1..])
  }

  /**
   * The shape of the store: `order` lists every stored identifier exactly
   * once, and every product is stored under its own identifier.
   */
  predicate Indexed(order: seq<ProductId>, products: map<ProductId, Product>)
  {
    && (forall i :: 0 <= i < |order| ==> order[i] in products)
    && (forall k :: k in products ==> k in order)
    && (forall i, j :: 0 <= i < j < |order| ==> order[i] != order[j])
    && (forall k :: k in products ==> products[k].id == k)
  }

  /** The stored documents in the order of `order`. */
  function Collection(order: seq<ProductId>, products: map<ProductId, Product>): (docs: seq<Product>)
    requires forall i :: 0 <= i < |order| ==> order[i] in products
    ensures |docs| == |order| && forall i :: 0 <= i < |order| ==> docs[i] == products[order[i]]
  {
    if order == [] then [] else [products[order[0]]] + Collection(order[1..], products)
  }

  /**
   * A query over the store returns exactly the stored products its filter
   * selects: a product is in the answer iff it is stored under its
   * identifier and satisfies the filter.
   */
  lemma FindOverStore(q: Query, order: seq<ProductId>, products: map<ProductId, Product>, p: Product)
    requires Indexed(order, products)
    ensures p in Find(q, Collection(order, products))
        <==> p.id in products && products[p.id] == p && Selects(q, p)
  {
    var docs := Collection(order, products);
    if p in docs {
      var i :| 0 <= i < |docs| && docs[i] == p;
      assert products[order[i]] == p;
    }
    if p.id in products && products[p.id] == p {
      var i :| 0 <= i < |order| && order[i] == p.id;
      assert docs[i] == p;
    }
  }

  /**
   * `find` keeps every selected document as often as the collection holds
   * it, and drops every other one.
   */
  lemma {:induction false} FindMultiplicity(q: Query, docs: seq<Product>, p: Product)
    ensures multiset(Find(q, docs))[p] == if Selects(q, p) then multiset(docs)[p] else 0
    decreases |docs|
  {
    if docs != [] {
      FindMultiplicity(q, docs[1..], p);
      assert docs == [docs[0]] + docs[1..];
      assert multiset(docs) == multiset([docs[0]]) + multiset(docs[1..]);
    }
  }

  /** `find` over two runs of documents answers the first run's matches, then the second's. */
  lemma {:induction false} FindConcat(q: Query, a: seq<Product>, b: seq<Product>)
    ensures Find(q, a + b) == Find(q, a) + Find(q, b)
    decreases |a|
  {
    if a != [] {
      assert (a + b)[1..] == a[1..] + b;
      FindConcat(q, a[1..], b);
    } else {
      assert a + b == b;
    }
  }

  /** Identifier `x` comes strictly before identifier `y` in `order`. */
  ghost predicate Precedes(order: seq<ProductId>, x: ProductId, y: ProductId)
  {
    exists a, b :: 0 <= a < b < |order| && order[a] == x && order[b] == y
  }

  /**
   * Each entry of `r` is stored under an identifier that comes strictly
   * later in `order` than those of the entries before it.
   */
  ghost predicate InCollectionOrder(r: seq<Product>, order: seq<ProductId>)
  {
    forall i, j :: 0 <= i < j < |r| ==> Precedes(order, r[i].id, r[j].id)
  }

  /** Skipping the first identifier of `order` keeps an answer in order. */
  lemma OrderSkipsHead(r: seq<Product>, order: seq<ProductId>)
    requires order != [] && InCollectionOrder(r, order[1..])
    ensures InCollectionOrder(r, order)
  {
    forall i, j | 0 <= i < j < |r| ensures Precedes(order, r[i].id, r[j].id) {
      assert Precedes(order[1..], r[i].id, r[j].id);
      var a, b :| 0 <= a < b < |order[1..]| && order[1..][a] == r[i].id && order[1..][b] == r[j].id;
      assert order[a + 1] == r[i].id && order[b + 1] == r[j].id;
    }
  }

  /** An entry stored under the first identifier may precede an ordered answer from the rest. */
  lemma OrderKeepsHead(x: Product, r: seq<Product>, order: seq<ProductId>)
    requires order != [] && x.id == order[0]
    requires InCollectionOrder(r, order[1..])
    requires forall k :: 0 <= k < |r| ==> r[k].id in order[1..]
    ensures InCollectionOrder([x] + r, order)
  {
    OrderSkipsHead(r, order);
    var s := [x] + r;
    forall i, j | 0 <= i < j < |s| ensures Precedes(order, s[i].id, s[j].id) {
      if i == 0 {
        assert s[j] == r[j - 1];
        assert r[j - 1].id in order[1..];
        var c :| 0 <= c < |order[1..]| && order[1..][c] == r[j - 1].id;
        assert order[0] == s[0].id && order[c + 1] == s[j].id;
      } else {
        assert s[i] == r[i - 1] && s[j] == r[j - 1];
        assert Precedes(order, r[i - 1].id, r[j - 1].id);
      }
    }
  }

  /** A query over the store answers in the collection's order. */
  lemma {:induction false} FindInCollectionOrder(q: Query, order: seq<ProductId>, products: map<ProductId, Product>)
    requires forall i :: 0 <= i < |order| ==> order[i] in products
    requires forall k :: k in products ==> products[k].id == k
    ensures InCollectionOrder(Find(q, Collection(order, products)), order)
    decreases |order|
  {
    if order != [] {
      var rest := order[1..];
      FindInCollectionOrder(q, rest, products);
      var docs := Collection(order, products);
      var restDocs := Collection(rest, products);
      assert docs[1..] == restDocs;
      var tail := Find(q, restDocs);
      if Selects(q, docs[0]) {
        forall k | 0 <= k < |tail| ensures tail[k].id in rest {
          assert tail[k] in restDocs;
          var c :| 0 <= c < |rest| && restDocs[c] == tail[k];
          assert rest[c] == tail[k].id;
        }
        OrderKeepsHead(docs[0], tail, order);
      } else {
        OrderSkipsHead(tail, order);
      }
    }
  }

  /**
   * What a query over the store answers: exactly the stored products its
   * filter selects, each once, in the collection's order.
   */
  lemma StoreListing(q: Query, order: seq<ProductId>, products: map<ProductId, Product>)
    requires Indexed(order, products)
    ensures var r := Find(q, Collection(order, products));
      && (forall p :: p in r <==> p.id in products && products[p.id] == p && Selects(q, p))
      && InCollectionOrder(r, order)
      && (forall i, j :: 0 <= i < j < |r| ==> r[i] != r[j])
  {
    var r := Find(q, Collection(order, products));
    forall p { FindOverStore(q, order, products, p); }
    FindInCollectionOrder(q, order, products);
    forall i, j | 0 <= i < j < |r| ensures r[i] != r[j] {
      assert Precedes(order, r[i].id, r[j].id);
    }
  }

  /** Without a keyword (or with an empty one) the catalogue is every product in stock. */
  lemma NoKeywordListsAllInStock(p: Product)
    ensures Selects(Available(None), p) <==> p.remainingQuantity > 0
    ensures Selects(Available(Some("")), p) <==> p.remainingQuantity > 0
  {
  }

  /** A keyword only narrows the catalogue. */
  lemma KeywordNarrowsCatalogue(keyword: string, p: Product)
    ensures Selects(Available(Some(keyword)), p) ==> Selects(Available(None), p)
  {
  }

  lemma {:induction false} LowerStringIdempotent(s: string)
    ensures LowerString(LowerString(s)) == LowerString(s)
  {
    var t := LowerString(s);
    assert forall i :: 0 <= i < |s| ==> LowerString(t)[i] == Lower(Lower(s[i])) == Lower(s[i]);
  }

  /** The keyword match ignores the case of both the name and the keyword. */
  lemma NameMatchesIgnoresCase(name: string, keyword: string)
    ensures NameMatches(name, keyword) <==> NameMatches(LowerString(name), keyword)
    ensures NameMatches(name, keyword) <==> NameMatches(name, LowerString(keyword))
  {
    LowerStringIdempotent(name);
    LowerStringIdempotent(keyword);
  }

  /** The keyword matches any name it is a part of. */
  lemma NameMatchesPart(prefix: string, keyword: string, suffix: string)
    ensures NameMatches(prefix + keyword + suffix, keyword)
  {
    var name := prefix + keyword + suffix;
    var lk, ln := LowerString(keyword), LowerString(name);
    assert ln[|prefix|..|prefix| + |lk|] == lk;
    assert OccursAt(lk, ln, |prefix|);
  }

  /** The dispatch-ready list shares no product with the waitlist or the dispatched list. */
  lemma DispatchReadyDisjoint(vendor: UserId, p: Product)
    ensures !(Selects(Waitlist(vendor), p) && Selects(DispatchReady(vendor), p))
    ensures !(Selects(DispatchReady(vendor), p) && Selects(DispatchedBy(vendor), p))
  {
  }

  /**
   * The waitlist excludes only cancelled products, so a dispatched product
   * that still has stock is on both the waitlist and the dispatched list.
   */
  lemma DispatchedInStockStaysWaitlisted(vendor: UserId, p: Product)
    requires Selects(DispatchedBy(vendor), p) && p.remainingQuantity > 0
    ensures Selects(Waitlist(vendor), p)
  {
  }

  /**
   * A vendor's placed product with a non-negative stock is in exactly one of
   * the waitlist and the dispatch-ready list.
   */
  lemma PlacedProductListedOnce(vendor: UserId, p: Product)
    requires p.user == vendor && p.status == Placed && p.remainingQuantity >= 0
    ensures Selects(Waitlist(vendor), p) != Selects(DispatchReady(vendor), p)
  {
  }

  /** Right after a soft delete, the product appears in no listing. */
  lemma SoftDeletedListedNowhere(q: Query, p: Product)
    ensures !Selects(q, SoftDeleted(p))
  {
  }

  /**
   * Dispatch does not check the status: a soft-deleted product that is then
   * dispatched reappears in its vendor's dispatched list.
   */
  lemma DispatchRevivesCancelled(p: Product)
    ensures Selects(DispatchedBy(p.user), MarkedDispatched(SoftDeleted(p)))
  {
  }

  /**
   * The public catalogue does not look at the status: an owner's update that
   * restocks a soft-deleted product puts it back in the catalogue, still
   * cancelled.
   */
  lemma RestockRevivesCancelledInCatalogue(p: Product, body: ProductFields)
    requires body.remainingQuantity > 0
    ensures Updated(SoftDeleted(p), body).status == Cancelled
    ensures Selects(Available(None), Updated(SoftDeleted(p), body))
    ensures !Selects(Waitlist(p.user), Updated(SoftDeleted(p), body))
  {
  }
}
