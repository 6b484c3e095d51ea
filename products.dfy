/**
 * The catalogue endpoints: the public product listing with its optional
 * type and search filters (GET), and admin-only product creation with its
 * defaults for optional fields (POST).
 */
module Products {

  import opened Shop
  import opened Collections
  import opened Strings
  import opened Store

  /** The query parameters `type` and `search`; absent ones are `None`. */
  datatype ProductQuery = ProductQuery(productType: Option<string>, search: Option<string>)

  /** The `where` filter built from the query: a given type must match
      exactly, a given search text must occur in the name or in the
      description (a missing description never matches). */
  predicate MatchesQuery(q: ProductQuery, p: Product) {
    && (Truthy(q.productType) ==> p.productType == q.productType.value)
    && (Truthy(q.search) ==>
          Contains(p.name, q.search.value)
          || (p.description.Some? && Contains(p.description.value, q.search.value)))
  }

  /** Sort key for `orderBy: { createdAt: "desc" }`: ascending in this key
      is newest first. */
  function NewestProductKey(p: Product): int {
    -p.createdAt
  }

  /** GET /api/products. */
  function ListProducts(q: ProductQuery, products: seq<Product>): (r: seq<Product>)
    ensures SortedBy(r, NewestProductKey)
    ensures forall p :: multiset(r)[p] == if MatchesQuery(q, p) then multiset(products)[p] else 0
    ensures !Truthy(q.productType) && !Truthy(q.search) ==> multiset(r) == multiset(products)
  {
    var matching := Filter(products, p => MatchesQuery(q, p));
    assert !Truthy(q.productType) && !Truthy(q.search) ==> multiset(matching) == multiset(products);
    SortBy(matching, NewestProductKey)
  }

  /** A listed product matches the search text at some position of its name
      or of its description. */
  lemma SearchHitsSubstring(q: ProductQuery, products: seq<Product>, p: Product)
    requires Truthy(q.search) && p in ListProducts(q, products)
    ensures p in products
    ensures || (exists i :: 0 <= i <= |p.name| && HasPrefix(p.name[i..], q.search.value))
            || (p.description.Some? &&
                exists i :: 0 <= i <= |p.description.value| && HasPrefix(p.description.value[i..], q.search.value))
  {
    var r := ListProducts(q, products);
    assert p in multiset(r);
    ContainsAt(p.name, q.search.value);
    if p.description.Some? {
      ContainsAt(p.description.value, q.search.value);
    }
  }

  /** The JSON body of POST /api/products. `price` is the number sent (in
      cents); `quantity` is what integer parsing yields, `None` when it fails. */
  datatype ProductRequest = ProductRequest(
    name: Option<string>,
    productType: Option<string>,
    color: Option<string>,
    price: Option<int>,
    size: Option<string>,
    description: Option<string>,
    quantity: Option<int>,
    images: Option<seq<string>>)

  const MissingFields := "Missing required fields"

  /** JavaScript truthiness of the price: present and not zero. */
  predicate PriceGiven(price: Option<int>) {
    price.Some? && price.value != 0
  }

  predicate HasRequired(req: ProductRequest) {
    Truthy(req.name) && Truthy(req.productType) && PriceGiven(req.price)
  }

  /** An optional text field as stored: an empty or missing one becomes null. */
  function OrNull(s: Option<string>): Option<string> {
    if Truthy(s) then s else None
  }

  /** The row inserted by POST /api/products, with its defaults. */
  function NewProduct(req: ProductRequest, id: Id, now: int): (p: Product)
    requires HasRequired(req)
    ensures p.name == req.name.value && p.productType == req.productType.value && p.price == req.price.value
    ensures p.color.None? <==> !Truthy(req.color)
    ensures p.size.None? <==> !Truthy(req.size)
    ensures p.description.None? <==> !Truthy(req.description)
    ensures p.color.Some? ==> p.color == req.color && p.color.value != ""
    ensures p.size.Some? ==> p.size == req.size && p.size.value != ""
    ensures p.description.Some? ==> p.description == req.description && p.description.value != ""
    ensures p.quantity == (if req.quantity.Some? then req.quantity.value else 0)
    ensures p.images == (if req.images.Some? then req.images.value else [])
  {
    Product(id, req.name.value, req.productType.value, OrNull(req.color), req.price.value,
            OrNull(req.size), OrNull(req.description),
            if req.quantity.Some? then req.quantity.value else 0,
            if req.images.Some? then req.images.value else [],
            now)
  }

  /** A created product shows up in the unfiltered listing and under its
      own type. */
  lemma CreatedProductListed(products: seq<Product>, p: Product)
    ensures p in ListProducts(ProductQuery(None, None), products + [p])
    ensures p in ListProducts(ProductQuery(Some(p.productType), None), products + [p])
  {
    var all := products + [p];
    assert p in multiset(all);
    assert p in multiset(ListProducts(ProductQuery(None, None), all));
    assert p in multiset(ListProducts(ProductQuery(Some(p.productType), None), all));
  }

  /** POST /api/products. */
  method CreateProduct(db: Database, session: Option<Session>, req: ProductRequest, now: int)
    returns (r: Response<Product>)
    requires db.Valid()
    modifies db`products, db`nextId
    ensures db.Valid()
    ensures (session.None? || session.value.role != Admin) ==>
      r == Failure(401, Unauthorized) && db.products == old(db.products) && db.nextId == old(db.nextId)
    ensures session.Some? && session.value.role == Admin && !HasRequired(req) ==>
      r == Failure(400, MissingFields) && db.products == old(db.products) && db.nextId == old(db.nextId)
    ensures session.Some? && session.value.role == Admin && HasRequired(req) ==>
      && r == Success(201, NewProduct(req, old(db.nextId), now))
      && db.products == old(db.products) + [r.value]
      && db.nextId == old(db.nextId) + 1
  {
    if session.None? || session.value.role != Admin {
      return Failure(401, Unauthorized);
    }
    if !HasRequired(req) {
      return Failure(400, MissingFields);
    }
    var product := NewProduct(req, db.nextId, now);
    ProductIdsAppend(db.products, product);
    AppendFreshId(ProductIds(db.products), db.nextId);
    AllBelowRaise(UserIds(db.users), db.nextId, db.nextId + 1);
    AllBelowRaise(OrderIds(db.orders), db.nextId, db.nextId + 1);
    db.products := db.products + [product];
    db.nextId := db.nextId + 1;
    r := Success(201, product);
  }
}
