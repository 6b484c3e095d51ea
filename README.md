# Furniture shop ordering: a Dafny model

This project models the server side of a furniture shop's ordering system.

- Customers sign up and place orders from their cart.
- Each new order goes automatically to the active operator with the fewest in-flight orders.
- Admins manage the catalogue and the operator accounts.
- A middleware keeps each role inside its own area of the site.

The database is one `Database` object (`store.dfy`) holding the user, product and order tables, the carts and an id generator. Each request handler is one sequential step on that object:

- a GET handler is a function of the tables;
- a POST handler is a method that changes the tables it names and states the whole new state.

Files:

- `shop.dfy`: the entities (users, products, cart items, orders with their lines), the roles and statuses, and the HTTP-style responses.
- `collections.dfy`: the stable sort used for `orderBy` and for the workload sort, and the filter used for `where`.
- `strings.dfy`: prefix and substring tests.
- `store.dfy`: the database and the constraints its schema enforces (unique ids and emails, cart items that reference products).
- `assignment.dfy`: least-load operator assignment.
- `orders.dfy`: the role-scoped order listing and checkout.
- `signup.dfy`: self-service signup with its one-time admin branch.
- `operators.dfy`: the admin's operator listing and creation.
- `products.dfy`: the product search and product creation with defaults.
- `middleware.dfy`: route gating and the path matcher.

Inputs from outside the program are parameters:

- the logged-in session: `Option<Session>`, or `Option<Role>` for the middleware token;
- the creation time: `now`;
- the password hash: `hash`, an uninterpreted function;
- the configured admin signup code: `Option<string>`.

Prices are integer cents, and ids are natural numbers from the store's generator.

The behaviour of the source is carried by these definitions, which the contracts and lemmas below are stated about:

- `Collections.SortBy`: the stable sort behind the workload sort (lib/order-assignment.ts:32) and behind every `orderBy: { createdAt: "desc" }` (sorting on the negated creation time).
- `Assignment.Load`: an operator's pending count (lib/order-assignment.ts:19-26).
- `Assignment.Pick`: the operator chosen, the head of the sorted workloads (lib/order-assignment.ts:31-33).
- `Assignment.SetOperator`: the order update by id (lib/order-assignment.ts:36-39).
- `Orders.CartTotal`: the total's `reduce` (app/api/orders/route.ts:89-91).
- `Orders.Snapshot`: the order lines made from the cart (app/api/orders/route.ts:101-105).
- `Orders.StockAfter`: the catalogue after the stock decrements (app/api/orders/route.ts:119-128).
- `Products.MatchesQuery`: the `where` filter built from the query (app/api/products/route.ts:12-19).
- `Middleware.Matched`: the path matcher (middleware.ts:39).

## Model

| member | source | states |
|---|---|---|
| Collections.SortBy | lib/order-assignment.ts:32 | the result is sorted by the key and is a permutation of the input |
| Collections.SortByHead | lib/order-assignment.ts:32-33 | after a stable ascending sort, the head is the first element whose key is least: no element has a smaller key, and every element before it has a strictly larger one |
| Strings.ContainsAt | app/api/products/route.ts:14-19 | the substring test used by `contains` holds exactly when the text occurs at some position |
| Shop.AdminCountZero | app/api/auth/signup/route.ts:40-44 | the number of ADMIN users is zero exactly when the "some ADMIN exists" lookup finds none |
| Store.FindOrder | lib/order-assignment.ts:36-37 | the lookup by id finds a position holding that id, and finds none exactly when no order has the id |
| Assignment.LoadSplit | lib/order-assignment.ts:19-26 | the pending count over two tables is the sum of the counts, so with `LoadOfOne` it counts exactly the in-flight orders |
| Assignment.LoadOfOne | lib/order-assignment.ts:19-26 | one order counts once towards an operator when it is assigned to that operator and is PENDING or ACCEPTED, and otherwise not at all |
| Assignment.SettledOrdersNotCounted | lib/order-assignment.ts:22-24 | SHIPPED, DELIVERED and CANCELLED orders, and orders of other operators, never add to an operator's load |
| Assignment.SetOperatorAt | lib/order-assignment.ts:36-39 | with unique ids, the update by id rewrites exactly one row, only its operator, and keeps every id |
| Assignment.LoadAfterAssign | lib/order-assignment.ts:36-39 | assigning an unassigned PENDING or ACCEPTED order raises the chosen operator's load by exactly one and leaves every other operator's load unchanged |
| Assignment.PickFirstLeastLoaded | lib/order-assignment.ts:31-33 | with at least one candidate, the choice is the first active operator of least load |
| Assignment.PickNoneIffNoCandidate | lib/order-assignment.ts:5-14 | the result is null exactly when no user is both an OPERATOR and active |
| Assignment.PickIsActiveOperator | lib/order-assignment.ts:5-33 | a chosen id always belongs to an active OPERATOR user |
| Assignment.PickHasLeastLoad | lib/order-assignment.ts:17-33 | no active operator has a smaller pending load than the chosen one |
| Assignment.PickTieBreak | lib/order-assignment.ts:32-33 | every candidate listed before the chosen one has a strictly larger load, so ties go to the operator listed first |
| Assignment.PickIgnoresUnassigned | lib/order-assignment.ts:19-26 | adding an order with no operator changes nobody's load, and so does not change the choice |
| Assignment.AssignOrderToOperator | lib/order-assignment.ts:3-42 | without candidates it returns null and changes nothing; otherwise it writes the chosen operator onto the order with that id and returns the same id; a missing order is an error that changes nothing; only the order table may change |
| Orders.ListOrders | app/api/orders/route.ts:7-56 | no session gives 401; an admin gets every order; an operator gets exactly the orders assigned to it; any other role gets exactly its own orders; every listing is newest first |
| Orders.PlacedOrderListed | app/api/orders/route.ts:16-54 | a placed order appears in its customer's listing and, once assigned, in its operator's listing |
| Orders.SnapshotTotal | app/api/orders/route.ts:89-106 | the total computed from the cart equals the sum of price times quantity over the stored order lines |
| Orders.SnapshotCopiesCart | app/api/orders/route.ts:101-105 | there is one order line per cart item, copying its product, its quantity and that product's current price |
| Orders.UnorderedStockUnchanged | app/api/orders/route.ts:119-128 | a product that no cart item references keeps its stock |
| Orders.StockCanGoNegative | app/api/orders/route.ts:119-128 | stock has no lower bound: ordering two units with one left leaves -1 |
| Orders.DecrementStock | app/api/orders/route.ts:119-128 | after the loop, each product's quantity has dropped by the total quantity of the cart items that reference it, and nothing else about the catalogue changed |
| Orders.InsertOrder | app/api/orders/route.ts:94-108 | the order is appended under a fresh id, and the ids stay unique |
| Orders.CreateAndAssign | app/api/orders/route.ts:94-111 | the order is stored with the operator that assignment picks from the orders placed before it, or with none |
| Orders.PlaceOrder | app/api/orders/route.ts:63-141 | a non-customer gets 401 and an empty or missing cart gets 400, both changing nothing; on success: 201 with a PENDING, UNPAID order for the caller; its total is the cart total and equals the sum of its lines; it holds one price snapshot per cart item and is assigned as above; the cart is emptied, stock is decremented with no floor, and users are untouched |
| Signup.Decide | app/api/auth/signup/route.ts:10-90 | the checks run in order (credentials, length 6, duplicate email, admin branch, customer fields) and the first failure decides; an admin is created exactly when no admin exists and the code equals the configured one (default "ADMIN_SETUP_2024"); a customer is created exactly when no code is given and contact and address are present |
| Signup.SignupKeepsAdminUnique | app/api/auth/signup/route.ts:37-82 | the admin branch runs only when there are no admins and leaves exactly one; the customer branch leaves the admin count unchanged |
| Signup.NewUser | app/api/auth/signup/route.ts:61-112 | the new row has the given id, email and name, the hashed password and is active; it is ADMIN with no contact or address on the admin branch, and CUSTOMER with the given contact and address on the customer branch |
| Signup.Signup | app/api/auth/signup/route.ts:5-117 | a rejection returns its status and message and adds nothing; success returns 201 and appends exactly the `NewUser` row for the decision, under a fresh id |
| Operators.ListOperators | app/api/admin/operators/route.ts:7-28 | a non-admin gets 401; an admin gets exactly the OPERATOR users, active or not, newest first |
| Operators.Decide | app/api/admin/operators/route.ts:35-62 | a non-admin gets 401, a missing email, name or password gets 400, and an email already in use gets 400; creation happens exactly when none of these applies |
| Operators.CreatedOperatorListed | app/api/admin/operators/route.ts:67-84 | a created operator appears in the next listing, and the number of admins is unchanged |
| Operators.CreateOperator | app/api/admin/operators/route.ts:35-84 | a rejection returns its status and message and adds nothing; success returns 201 and appends exactly one active OPERATOR with a fresh id and the hashed password |
| Products.ListProducts | app/api/products/route.ts:6-26 | the result holds exactly the products that match every given filter (type equal; search text in the name or the description), newest first; with no filter it holds every product |
| Products.SearchHitsSubstring | app/api/products/route.ts:14-19 | every product listed under a search contains the text at some position of its name or of its description |
| Products.NewProduct | app/api/products/route.ts:50-61 | the name, type and price are copied; an empty or missing color, size or description becomes null; a missing or unparseable quantity becomes 0; missing images become an empty list |
| Products.CreatedProductListed | app/api/products/route.ts:50-63 | a created product appears in the unfiltered listing and under its own type |
| Products.CreateProduct | app/api/products/route.ts:33-63 | a non-admin gets 401 and a missing name, type or price gets 400, both adding nothing; success returns 201 and appends the product with its defaults under a fresh id |
| Middleware.Gate | middleware.ts:5-30 | no token redirects to "/login"; a path beginning with "/admin" redirects a non-ADMIN to "/"; a path beginning with "/operator" redirects a non-OPERATOR (admins included) to "/"; every other request passes |
| Middleware.Middleware | middleware.ts:5-40 | without a token, a visitor is sent to "/login" exactly on the matched paths; an unmatched path always passes; a logged-in visitor is sent to "/" exactly when a matched path begins with "/admin" and the role is not ADMIN, or with "/operator" and the role is not OPERATOR, and is never sent to log in |
| Middleware.PagesNeedOnlyLogin | middleware.ts:9-39 | "/cart", "/checkout" and "/orders" pass for every logged-in role and send a visitor without a token to "/login" |
| Middleware.GatingIsByPrefix | middleware.ts:16-27 | every path beginning with "/admin" (or "/operator") is gated exactly as that prefix itself |
| Middleware.AreasAreExclusive | middleware.ts:16-27 | with a token, a matched path below "/admin" passes exactly for ADMIN, and one below "/operator" exactly for OPERATOR |
| Middleware.MatcherNarrowerThanGate | middleware.ts:16-39 | the gate would turn a customer away from "/administrator", but the matcher never runs it there |

## Left out

- The cart routes and the single-order update route (status changes, operator and admin field permissions) are not part of this model. Carts are taken as given state, and order statuses as given values.
- Image upload, the admin-existence endpoint, the React pages and components, the maintenance scripts, the seed data and the deployment configuration are not modelled. The admin-existence endpoint is the `AdminExists` query that signup uses.
- The catch-all 500 responses and a failure partway through checkout are not modelled. Each request is one atomic step that either rejects with no change or completes.
- Concurrency is not modelled: neither the read-then-write race in assignment nor concurrent stock decrements.
- Password hashing, session lookup, the clock and the configured admin code are parameters, not modelled behaviour.
- The `authorized` callback of the authentication wrapper is not modelled. It rejects a request without a token before the middleware function runs, so the function's own "no token" branch, which `Middleware.Gate` models, is never reached. The wrapper then redirects to the sign-in page of the authentication library, configured in a file that is not part of this model; the model uses the function's own "/login" target instead.
- Orders.ListOrders: the listing returns the order rows only. The source also includes the related customer, operator and product rows, depending on the role.
- Operators.CreateOperator: the response body is the whole user row, password hash included. The source selects only the id, email, name, active flag and creation time.
- Signup.Decide: each request field is either absent or a string. Other JSON values are not modelled. A number sent as the admin code enters the admin branch in the source but the customer branch here. A non-string password skips the length check in the source and then fails in hashing.
- Money is integer cents. JavaScript floating-point arithmetic and `parseFloat` are not modelled.
- Products.NewProduct: the price is taken as an already parsed number. A price sent as the text "0" is truthy and passes the required-field check in the source, but here a price of 0 is always rejected.
- Products.NewProduct: `parseInt` on the quantity is modelled only by its outcome, a number or none; a parsed 0 and a failed parse both give 0.
- Products.NewProduct: images are kept as a list. The source stores them as JSON text.
- Products.ListProducts: the substring test is exact. Case sensitivity follows the database collation, which is not modelled.
- Signup.Decide: the password length counts characters. JavaScript counts UTF-16 code units, so the two differ for characters outside the Basic Multilingual Plane.
- Operators.ListOperators: the listing returns whole user rows. The source selects only the id, email, name, active flag and creation time.
- Signup.Signup: the response body returns the whole user row. The source returns a selection and a message.
- Emails are compared exactly, with no case folding or trimming. Stock is never checked against the ordered quantity. Both follow the code, which does neither, rather than any stated intent.
