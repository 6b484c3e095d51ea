/**
 * The order endpoints: the role-scoped listing (GET) and checkout (POST),
 * which turns a customer's cart into an order with price snapshots,
 * assigns it, empties the cart and decrements stock without a floor.
 */
module Orders {

  import opened Shop
  import opened Collections
  import opened Store
  import opened Assignment

  const CartEmpty := "Cart is empty"

  // ---------------------------------------------------------------------
  // GET: listing

  /** Which orders a caller sees: an admin every order, an operator those
      assigned to it, anyone else the orders they placed. */
  predicate Visible(s: Session, o: Order) {
    match s.role
    case Admin => true
    case Operator => o.operatorId == Some(s.userId)
    case Customer => o.customerId == s.userId
  }

  /** Sort key for `orderBy: { createdAt: "desc" }`: ascending in this key
      is newest first. */
  function NewestKey(o: Order): int {
    -o.createdAt
  }

  /** GET /api/orders. */
  function ListOrders(session: Option<Session>, orders: seq<Order>): (r: Response<seq<Order>>)
    ensures session.None? <==> r == Failure(401, Unauthorized)
    ensures session.Some? ==> r.Success? && r.code == 200 && SortedBy(r.value, NewestKey)
    ensures session.Some? && session.value.role == Admin ==>
      multiset(r.value) == multiset(orders)
    ensures session.Some? && session.value.role == Operator ==>
      forall o :: multiset(r.value)[o] ==
        if o.operatorId == Some(session.value.userId) then multiset(orders)[o] else 0
    ensures session.Some? && session.value.role == Customer ==>
      forall o :: multiset(r.value)[o] ==
        if o.customerId == session.value.userId then multiset(orders)[o] else 0
  {
    if session.None? then Failure(401, Unauthorized)
    else
      var s := session.value;
      var visible := Filter(orders, o => Visible(s, o));
      var sorted := SortBy(visible, NewestKey);
      assert s.role == Admin ==> multiset(visible) == multiset(orders);
      Success(200, sorted)
  }

  /** A placed order shows up in its customer's listing and, once assigned,
      in its operator's listing. */
  lemma PlacedOrderListed(orders: seq<Order>, o: Order)
    ensures o in ListOrders(Some(Session(o.customerId, Customer)), orders + [o]).value
    ensures o.operatorId.Some? ==>
      o in ListOrders(Some(Session(o.operatorId.value, Operator)), orders + [o]).value
  {
    var all := orders + [o];
    assert o in multiset(all);
    assert o in multiset(ListOrders(Some(Session(o.customerId, Customer)), all).value);
    if o.operatorId.Some? {
      assert o in multiset(ListOrders(Some(Session(o.operatorId.value, Operator)), all).value);
    }
  }

  // ---------------------------------------------------------------------
  // POST: the cart and its total

  /** The current price of the product with id `id`. */
  function PriceOf(products: seq<Product>, id: Id): int
    requires id in ProductIds(products)
  {
    products[FindProduct(products, id).value].price
  }

  /** The checkout total: a left fold adding each item's current product
      price times its quantity. */
  function CartTotal(items: seq<CartItem>, products: seq<Product>): int
    requires Stocked(items, products)
  {
    if items == [] then 0
    else
      var front := items[..|items| - 1];
      assert Stocked(front, products) by {
        forall i | 0 <= i < |front| ensures front[i].productId in ProductIds(products) {
          assert front[i] == items[i];
        }
      }
      CartTotal(front, products) + PriceOf(products, Last(items).productId) * Last(items).quantity
  }

  /** One order line per cart item, in cart order, with the product's price
      at this moment. */
  function Snapshot(items: seq<CartItem>, products: seq<Product>): seq<OrderItem>
    requires Stocked(items, products)
  {
    seq(|items|, i requires 0 <= i < |items| =>
      OrderItem(items[i].productId, items[i].quantity, PriceOf(products, items[i].productId)))
  }

  /** The sum of price times quantity over an order's lines. */
  function LineTotal(lines: seq<OrderItem>): int {
    if lines == [] then 0
    else LineTotal(lines[..|lines| - 1]) + Last(lines).price * Last(lines).quantity
  }

  /** The stored total equals the sum of the stored lines, so an order's
      total is fixed by its own snapshot, whatever later happens to prices. */
  lemma {:induction false} SnapshotTotal(items: seq<CartItem>, products: seq<Product>)
    requires Stocked(items, products)
    ensures LineTotal(Snapshot(items, products)) == CartTotal(items, products)
  {
    if items != [] {
      var n := |items|;
      var front := items[..n - 1];
      assert Stocked(front, products) by {
        forall i | 0 <= i < |front| ensures front[i].productId in ProductIds(products) {
          assert front[i] == items[i];
        }
      }
      assert Snapshot(items, products)[..n - 1] == Snapshot(front, products);
      SnapshotTotal(front, products);
    }
  }

  /** Each order line copies its cart item's product and quantity, and the
      price of that very product in the catalogue. */
  lemma SnapshotCopiesCart(items: seq<CartItem>, products: seq<Product>, i: nat, j: nat)
    requires Stocked(items, products) && Distinct(ProductIds(products))
    requires i < |items| && j < |products| && products[j].id == items[i].productId
    ensures |Snapshot(items, products)| == |items|
    ensures Snapshot(items, products)[i] == OrderItem(items[i].productId, items[i].quantity, products[j].price)
  {
    var k := FindProduct(products, items[i].productId).value;
    var ids := ProductIds(products);
    assert ids[k] == products[k].id && ids[j] == products[j].id;
  }

  // ---------------------------------------------------------------------
  // POST: stock

  /** The total quantity of the cart items that reference product `id`. */
  function QtyOf(items: seq<CartItem>, id: Id): int {
    if items == [] then 0
    else QtyOf(items[..|items| - 1], id) + (if Last(items).productId == id then Last(items).quantity else 0)
  }

  /** The catalogue after one `decrement` of product `id`'s quantity by `q`. */
  function Decrement(products: seq<Product>, id: Id, q: int): seq<Product> {
    seq(|products|, j requires 0 <= j < |products| =>
      if products[j].id == id then products[j].(quantity := products[j].quantity - q) else products[j])
  }

  /** The catalogue after checkout: every product's quantity minus what the
      cart held of it, with no lower bound. */
  function StockAfter(products: seq<Product>, items: seq<CartItem>): seq<Product> {
    seq(|products|, j requires 0 <= j < |products| =>
      products[j].(quantity := products[j].quantity - QtyOf(items, products[j].id)))
  }

  /** A product no cart item references keeps its stock. */
  lemma {:induction false} UnorderedStockUnchanged(items: seq<CartItem>, id: Id)
    requires forall i :: 0 <= i < |items| ==> items[i].productId != id
    ensures QtyOf(items, id) == 0
  {
    if items != [] {
      UnorderedStockUnchanged(items[..|items| - 1], id);
    }
  }

  /** Nothing checks stock: ordering two units of a product with one left
      leaves it at -1. */
  lemma StockCanGoNegative(p: Product)
    requires p.quantity == 1
    ensures StockAfter([p], [CartItem(p.id, 2)])[0].quantity == -1
  {
    var items := [CartItem(p.id, 2)];
    assert items[..0] == [];
    assert QtyOf(items, p.id) == 2;
  }

  /** The loop that decrements each cart item's product, item by item. */
  method DecrementStock(db: Database, items: seq<CartItem>)
    requires db.Valid()
    modifies db`products
    ensures db.Valid()
    ensures db.products == StockAfter(old(db.products), items)
  {
    ghost var before := db.products;
    for i := 0 to |items|
      invariant |db.products| == |before|
      invariant forall j :: 0 <= j < |before| ==>
        db.products[j] == before[j].(quantity := before[j].quantity - QtyOf(items[..i], before[j].id))
    {
      assert items[..i + 1][..i] == items[..i];
      db.products := Decrement(db.products, items[i].productId, items[i].quantity);
    }
    assert items[..|items|] == items;
    assert ProductIds(db.products) == ProductIds(before);
  }

  // ---------------------------------------------------------------------
  // POST: checkout

  predicate HasItems(carts: map<Id, seq<CartItem>>, uid: Id) {
    uid in carts && carts[uid] != []
  }

  /** The order insert: a row with a fresh id appended to the order table. */
  method InsertOrder(db: Database, order: Order)
    requires db.Valid() && order.id == db.nextId
    modifies db`orders, db`nextId
    ensures db.Valid()
    ensures db.orders == old(db.orders) + [order] && db.nextId == old(db.nextId) + 1
    ensures order.id in OrderIds(db.orders)
  {
    AppendFreshId(OrderIds(db.orders), db.nextId);
    assert OrderIds(db.orders + [order]) == OrderIds(db.orders) + [order.id];
    db.orders := db.orders + [order];
    db.nextId := db.nextId + 1;
    assert OrderIds(db.orders)[|db.orders| - 1] == order.id;
  }

  /** Setting the operator of the freshly appended order rewrites that row only. */
  lemma AssignLastOrder(orders: seq<Order>, order: Order, op: Id)
    requires Distinct(OrderIds(orders + [order]))
    ensures SetOperator(orders + [order], order.id, op) == orders + [order.(operatorId := Some(op))]
  {
    var all := orders + [order];
    SetOperatorAt(all, |orders|, op);
    assert all[|orders|] == order;
  }

  /** The order insert followed by the assignment of the new order: the
      order ends up stored with the operator the assignment picked, computed
      as if the new order were not there. */
  method CreateAndAssign(db: Database, order: Order) returns (pick: Option<Id>)
    requires db.Valid() && order.id == db.nextId && order.operatorId == None
    modifies db`orders, db`nextId
    ensures db.Valid()
    ensures pick == Pick(db.users, old(db.orders))
    ensures db.orders == old(db.orders) + [order.(operatorId := pick)]
    ensures db.nextId == old(db.nextId) + 1
  {
    ghost var ordersBefore := db.orders;
    InsertOrder(db, order);
    PickIgnoresUnassigned(db.users, ordersBefore, order);
    assert Distinct(OrderIds(ordersBefore + [order]));
    var outcome := AssignOrderToOperator(db, order.id);
    pick := outcome.value;
    if pick.Some? {
      AssignLastOrder(ordersBefore, order, pick.value);
    }
  }

  /** POST /api/orders. */
  method PlaceOrder(db: Database, session: Option<Session>, now: int) returns (r: Response<Order>)
    requires db.Valid()
    modifies db
    ensures db.Valid()
    ensures session.None? || session.value.role != Customer ==>
      r == Failure(401, Unauthorized) && unchanged(db)
    ensures session.Some? && session.value.role == Customer && !HasItems(old(db.carts), session.value.userId) ==>
      r == Failure(400, CartEmpty) && unchanged(db)
    ensures session.Some? && session.value.role == Customer && HasItems(old(db.carts), session.value.userId) ==>
      var items := old(db.carts)[session.value.userId];
      && Stocked(items, old(db.products))
      && r == Success(201, Order(
           old(db.nextId), session.value.userId, Pick(old(db.users), old(db.orders)),
           Pending, Unpaid, CartTotal(items, old(db.products)), None,
           Snapshot(items, old(db.products)), now))
      && r.value.totalAmount == LineTotal(r.value.items)
      && db.orders == old(db.orders) + [r.value]
      && db.users == old(db.users)
      && db.carts == old(db.carts)[session.value.userId := []]
      && db.products == StockAfter(old(db.products), items)
      && db.nextId == old(db.nextId) + 1
  {
    if session.None? || session.value.role != Customer {
      return Failure(401, Unauthorized);
    }
    var uid := session.value.userId;
    if uid !in db.carts || |db.carts[uid]| == 0 {
      return Failure(400, CartEmpty);
    }
    var items := db.carts[uid];
    var order := Order(db.nextId, uid, None, Pending, Unpaid, CartTotal(items, db.products), None,
                       Snapshot(items, db.products), now);
    SnapshotTotal(items, db.products);
    var pick := CreateAndAssign(db, order);
    db.carts := db.carts[uid := []];
    DecrementStock(db, items);
    r := Success(201, db.orders[|db.orders| - 1]);
  }
}
