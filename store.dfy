/**
 * The database behind the handlers, held as plain state: the user, product
 * and order tables in insertion order, each customer's cart keyed by user
 * id, and the generator of fresh row ids.
 */
module Store {

  import opened Shop

  class Database {
    var users: seq<User>
    var products: seq<Product>
    var carts: map<Id, seq<CartItem>>
    var orders: seq<Order>
    var nextId: nat

    /** The constraints the database schema enforces: unique ids and
        emails, fresh ids above every one in use, and cart items that
        reference existing products. */
    ghost predicate Valid()
      reads this
    {
      && Distinct(UserIds(users))
      && Distinct(ProductIds(products))
      && Distinct(OrderIds(orders))
      && AllBelow(UserIds(users), nextId)
      && AllBelow(ProductIds(products), nextId)
      && AllBelow(OrderIds(orders), nextId)
      && DistinctEmails(users)
      && CartsStocked(carts, products)
    }

    constructor ()
      ensures Valid()
      ensures users == [] && products == [] && carts == map[] && orders == [] && nextId == 0
    {
      users, products, carts, orders, nextId := [], [], map[], [], 0;
    }
  }

  /** Every item of the cart references a product of the catalogue. */
  predicate Stocked(items: seq<CartItem>, products: seq<Product>) {
    forall i :: 0 <= i < |items| ==> items[i].productId in ProductIds(products)
  }

  /** Every cart is stocked: cart items reference existing products. */
  predicate CartsStocked(carts: map<Id, seq<CartItem>>, products: seq<Product>) {
    forall c :: c in carts ==> Stocked(carts[c], products)
  }

  /** The position of the order with id `id`: the store's `where: { id }`. */
  function FindOrder(orders: seq<Order>, id: Id): (k: Option<nat>)
    ensures k.Some? ==> k.value < |orders| && orders[k.value].id == id
    ensures k.None? <==> id !in OrderIds(orders)
  {
    if orders == [] then None
    else if orders[0].id == id then assert OrderIds(orders)[0] == id; Some(0)
    else
      var k := FindOrder(orders[1..], id);
      assert OrderIds(orders) == [orders[0].id] + OrderIds(orders[1..]);
      if k.None? then None else Some(k.value + 1)
  }

  /** The position of the product with id `id`. */
  function FindProduct(products: seq<Product>, id: Id): (k: Option<nat>)
    ensures k.Some? ==> k.value < |products| && products[k.value].id == id
    ensures k.None? <==> id !in ProductIds(products)
  {
    if products == [] then None
    else if products[0].id == id then assert ProductIds(products)[0] == id; Some(0)
    else
      var k := FindProduct(products[1..], id);
      assert ProductIds(products) == [products[0].id] + ProductIds(products[1..]);
      if k.None? then None else Some(k.value + 1)
  }

  /** Appending a row with a fresh id keeps ids distinct and below the
      advanced generator. */
  lemma AppendFreshId(ids: seq<Id>, n: nat)
    requires Distinct(ids) && AllBelow(ids, n)
    ensures Distinct(ids + [n]) && AllBelow(ids + [n], n + 1)
  {
  }
}
