/**
 * The data model of the furniture shop: users with a role and an active
 * flag, products with a price and a stock counter, per-customer carts, and
 * orders with their line items. Prices are integer cents; identifiers are
 * natural numbers handed out by the store.
 */
module Shop {

  datatype Option<+T> = None | Some(value: T)

  /** What a request handler answers: an HTTP status with a JSON body, or an
      HTTP status with an `error` message. */
  datatype Response<+T> = Success(code: nat, value: T) | Failure(code: nat, message: string)

  /** The outcome of a store update that throws when its row is missing. */
  datatype Result<+T> = Ok(value: T) | Err(message: string)

  type Id = nat

  datatype Role = Customer | Operator | Admin

  datatype OrderStatus = Pending | Accepted | Shipped | Delivered | Cancelled

  datatype PaymentStatus = Unpaid | Paid

  /** What the authentication provider yields for a logged-in caller. */
  datatype Session = Session(userId: Id, role: Role)

  datatype User = User(
    id: Id,
    email: string,
    name: string,
    passwordHash: string,
    role: Role,
    isActive: bool,
    contact: Option<string>,
    address: Option<string>,
    createdAt: int)

  datatype Product = Product(
    id: Id,
    name: string,
    productType: string,
    color: Option<string>,
    price: int,
    size: Option<string>,
    description: Option<string>,
    quantity: int,
    images: seq<string>,
    createdAt: int)

  datatype CartItem = CartItem(productId: Id, quantity: int)

  /** A line of an order: the product, the quantity and the unit price
      captured when the order was placed. */
  datatype OrderItem = OrderItem(productId: Id, quantity: int, price: int)

  datatype Order = Order(
    id: Id,
    customerId: Id,
    operatorId: Option<Id>,
    status: OrderStatus,
    paymentStatus: PaymentStatus,
    totalAmount: int,
    trackingCode: Option<string>,
    items: seq<OrderItem>,
    createdAt: int)

  const Unauthorized := "Unauthorized"

  /** JavaScript truthiness of an optional string field: present and not "". */
  predicate Truthy(s: Option<string>) {
    s.Some? && s.value != ""
  }

  function Last<T>(s: seq<T>): T
    requires |s| > 0
  {
    s[|s| - 1]
  }

  function UserIds(users: seq<User>): seq<Id> {
    seq(|users|, i requires 0 <= i < |users| => users[i].id)
  }

  function ProductIds(products: seq<Product>): seq<Id> {
    seq(|products|, i requires 0 <= i < |products| => products[i].id)
  }

  function OrderIds(orders: seq<Order>): seq<Id> {
    seq(|orders|, i requires 0 <= i < |orders| => orders[i].id)
  }

  predicate Distinct(ids: seq<Id>) {
    forall i, j :: 0 <= i < j < |ids| ==> ids[i] != ids[j]
  }

  predicate AllBelow(ids: seq<Id>, bound: nat) {
    forall i :: 0 <= i < |ids| ==> ids[i] < bound
  }

  /** Some user already has exactly this email (no case folding). */
  predicate EmailTaken(users: seq<User>, email: string) {
    exists i :: 0 <= i < |users| && users[i].email == email
  }

  predicate DistinctEmails(users: seq<User>) {
    forall i, j :: 0 <= i < j < |users| ==> users[i].email != users[j].email
  }

  /** The "some ADMIN exists" query shared by signup and the admin check. */
  predicate AdminExists(users: seq<User>) {
    exists i :: 0 <= i < |users| && users[i].role == Admin
  }

  /** The number of ADMIN users. */
  function AdminCount(users: seq<User>): nat {
    if users == [] then 0
    else (if users[0].role == Admin then 1 else 0) + AdminCount(users[1..])
  }

  lemma {:induction false} AdminCountAppend(users: seq<User>, u: User)
    ensures AdminCount(users + [u]) == AdminCount(users) + (if u.role == Admin then 1 else 0)
  {
    if users == [] {
      assert [u][1..] == [];
    } else {
      assert (users + [u])[1..] == users[1..] + [u];
      AdminCountAppend(users[1..], u);
    }
  }

  /** Counting admins agrees with the existence query. */
  lemma {:induction false} AdminCountZero(users: seq<User>)
    ensures AdminCount(users) == 0 <==> !AdminExists(users)
  {
    if users != [] {
      AdminCountZero(users[1..]);
      if AdminExists(users[1..]) {
        var i :| 0 <= i < |users[1..]| && users[1..][i].role == Admin;
        assert users[i + 1].role == Admin;
      }
      if AdminExists(users) && users[0].role != Admin {
        var i :| 0 <= i < |users| && users[i].role == Admin;
        assert users[1..][i - 1].role == Admin;
      }
    }
  }

  /** Adding a user whose email is not taken keeps emails distinct. */
  lemma AppendFreshEmail(users: seq<User>, u: User)
    requires DistinctEmails(users) && !EmailTaken(users, u.email)
    ensures DistinctEmails(users + [u])
  {
  }

  lemma UserIdsAppend(users: seq<User>, u: User)
    ensures UserIds(users + [u]) == UserIds(users) + [u.id]
  {
  }

  lemma ProductIdsAppend(products: seq<Product>, p: Product)
    ensures ProductIds(products + [p]) == ProductIds(products) + [p.id]
  {
  }

  lemma AllBelowRaise(ids: seq<Id>, n: nat, m: nat)
    requires AllBelow(ids, n) && n <= m
    ensures AllBelow(ids, m)
  {
  }
}
