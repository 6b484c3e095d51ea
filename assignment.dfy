/**
 * Least-load operator assignment: a new order goes to the active operator
 * with the fewest in-flight (PENDING or ACCEPTED) orders; ties go to the
 * operator listed first, because the workload sort is stable.
 */
module Assignment {

  import opened Shop
  import opened Collections
  import opened Store

  /** The store's message when the order to update does not exist. */
  const RecordNotFound := "Record to update not found."

  /** A user that may receive orders: role OPERATOR and active. */
  predicate IsCandidate(u: User) {
    u.role == Operator && u.isActive
  }

  /** The active operators, in the order the user table returns them. */
  function Candidates(users: seq<User>): seq<User> {
    Filter(users, IsCandidate)
  }

  /** `o` counts towards `op`'s pending load. */
  predicate InFlightFor(o: Order, op: Id) {
    o.operatorId == Some(op) && (o.status == Pending || o.status == Accepted)
  }

  /** The number of orders assigned to `op` whose status is PENDING or ACCEPTED. */
  function Load(orders: seq<Order>, op: Id): nat {
    if orders == [] then 0
    else (if InFlightFor(orders[0], op) then 1 else 0) + Load(orders[1..], op)
  }

  /** One entry of the workload table built for the candidates. */
  datatype Workload = Workload(operatorId: Id, pendingCount: nat)

  function PendingCount(w: Workload): int {
    w.pendingCount
  }

  function Workloads(candidates: seq<User>, orders: seq<Order>): seq<Workload> {
    seq(|candidates|, i requires 0 <= i < |candidates| =>
      Workload(candidates[i].id, Load(orders, candidates[i].id)))
  }

  /** The operator the assignment chooses: none without candidates, else the
      head of the workloads sorted by pending count. */
  function Pick(users: seq<User>, orders: seq<Order>): Option<Id> {
    var candidates := Candidates(users);
    if |candidates| == 0 then None
    else Some(SortBy(Workloads(candidates, orders), PendingCount)[0].operatorId)
  }

  /** The order table after `operatorId := op` on the order with id `orderId`. */
  function SetOperator(orders: seq<Order>, orderId: Id, op: Id): seq<Order> {
    seq(|orders|, i requires 0 <= i < |orders| =>
      if orders[i].id == orderId then orders[i].(operatorId := Some(op)) else orders[i])
  }

  // ---------------------------------------------------------------------
  // The pending load

  /** The load of a concatenation is the sum of the loads: together with
      `LoadOfOne` this makes `Load` exactly a count of in-flight orders. */
  lemma {:induction false} LoadSplit(a: seq<Order>, b: seq<Order>, op: Id)
    ensures Load(a + b, op) == Load(a, op) + Load(b, op)
  {
    if a == [] {
      assert a + b == b;
    } else {
      assert (a + b)[1..] == a[1..] + b;
      LoadSplit(a[1..], b, op);
    }
  }

  lemma LoadOfOne(o: Order, op: Id)
    ensures Load([o], op) == if InFlightFor(o, op) then 1 else 0
  {
    assert [o][1..] == [];
  }

  /** Orders that are SHIPPED, DELIVERED or CANCELLED, or that belong to
      another operator, never add to an operator's load. */
  lemma SettledOrdersNotCounted(orders: seq<Order>, o: Order, op: Id)
    requires o.status == Shipped || o.status == Delivered || o.status == Cancelled || o.operatorId != Some(op)
    ensures Load(orders + [o], op) == Load(orders, op)
  {
    LoadSplit(orders, [o], op);
    LoadOfOne(o, op);
  }

  /** Replacing one order changes a load only by that order's contribution. */
  lemma LoadUpdateAt(orders: seq<Order>, k: nat, o: Order, op: Id)
    requires k < |orders|
    ensures Load(orders[k := o], op)
         == Load(orders, op) - (if InFlightFor(orders[k], op) then 1 else 0) + (if InFlightFor(o, op) then 1 else 0)
  {
    var front, back := orders[..k], orders[k + 1..];
    assert orders == front + ([orders[k]] + back);
    assert orders[k := o] == front + ([o] + back);
    LoadSplit(front, [orders[k]] + back, op);
    LoadSplit(front, [o] + back, op);
    LoadSplit([orders[k]], back, op);
    LoadSplit([o], back, op);
    LoadOfOne(orders[k], op);
    LoadOfOne(o, op);
  }

  /** With distinct ids, setting the operator by id rewrites exactly one row. */
  lemma SetOperatorAt(orders: seq<Order>, k: nat, op: Id)
    requires Distinct(OrderIds(orders)) && k < |orders|
    ensures SetOperator(orders, orders[k].id, op) == orders[k := orders[k].(operatorId := Some(op))]
    ensures OrderIds(SetOperator(orders, orders[k].id, op)) == OrderIds(orders)
  {
    var ids := OrderIds(orders);
    forall i | 0 <= i < |orders| && i != k ensures orders[i].id != orders[k].id {
      assert ids[i] == orders[i].id && ids[k] == orders[k].id;
    }
  }

  /** Assigning an unassigned in-flight order to `op` raises `op`'s load by
      exactly one and leaves every other operator's load unchanged. */
  lemma LoadAfterAssign(orders: seq<Order>, k: nat, op: Id, other: Id)
    requires Distinct(OrderIds(orders)) && k < |orders|
    requires orders[k].operatorId == None
    requires orders[k].status == Pending || orders[k].status == Accepted
    ensures Load(SetOperator(orders, orders[k].id, op), op) == Load(orders, op) + 1
    ensures other != op ==> Load(SetOperator(orders, orders[k].id, op), other) == Load(orders, other)
  {
    SetOperatorAt(orders, k, op);
    LoadUpdateAt(orders, k, orders[k].(operatorId := Some(op)), op);
    LoadUpdateAt(orders, k, orders[k].(operatorId := Some(op)), other);
  }

  // ---------------------------------------------------------------------
  // The choice

  /** Position `i` holds the first candidate of least load. */
  predicate FirstLeastLoaded(candidates: seq<User>, orders: seq<Order>, i: int) {
    && 0 <= i < |candidates|
    && (forall j :: 0 <= j < |candidates| ==>
          Load(orders, candidates[i].id) <= Load(orders, candidates[j].id))
    && (forall j :: 0 <= j < i ==>
          Load(orders, candidates[i].id) < Load(orders, candidates[j].id))
  }

  lemma WorkloadsFirstMin(candidates: seq<User>, orders: seq<Order>, i: int)
    requires IsFirstMin(Workloads(candidates, orders), PendingCount, i)
    ensures FirstLeastLoaded(candidates, orders, i)
  {
    var ws := Workloads(candidates, orders);
    forall j | 0 <= j < |candidates|
      ensures PendingCount(ws[j]) == Load(orders, candidates[j].id)
    {
    }
  }

  /** The chosen operator is the first candidate of least load. */
  lemma PickFirstLeastLoaded(users: seq<User>, orders: seq<Order>)
    requires |Candidates(users)| > 0
    ensures exists i :: FirstLeastLoaded(Candidates(users), orders, i)
                     && Pick(users, orders) == Some(Candidates(users)[i].id)
  {
    var candidates := Candidates(users);
    var ws := Workloads(candidates, orders);
    SortByHead(ws, PendingCount);
    var i :| IsFirstMin(ws, PendingCount, i) && SortBy(ws, PendingCount)[0] == ws[i];
    WorkloadsFirstMin(candidates, orders, i);
  }

  /** The result is null exactly when no user is an active operator. */
  lemma PickNoneIffNoCandidate(users: seq<User>, orders: seq<Order>)
    ensures Pick(users, orders).None? <==> forall u :: u in users ==> !IsCandidate(u)
  {
    var candidates := Candidates(users);
    if candidates != [] {
      assert candidates[0] in candidates;
    }
  }

  /** The chosen id always belongs to an active operator. */
  lemma PickIsActiveOperator(users: seq<User>, orders: seq<Order>)
    ensures Pick(users, orders).Some? ==>
      exists u :: u in users && IsCandidate(u) && u.id == Pick(users, orders).value
  {
    var candidates := Candidates(users);
    if |candidates| > 0 {
      PickFirstLeastLoaded(users, orders);
      var i :| 0 <= i < |candidates| && Pick(users, orders) == Some(candidates[i].id);
      assert candidates[i] in candidates;
    }
  }

  /** No active operator has a smaller load than the chosen one. */
  lemma PickHasLeastLoad(users: seq<User>, orders: seq<Order>)
    ensures Pick(users, orders).Some? ==>
      forall u :: u in users && IsCandidate(u) ==> Load(orders, Pick(users, orders).value) <= Load(orders, u.id)
  {
    var candidates := Candidates(users);
    if |candidates| > 0 {
      PickFirstLeastLoaded(users, orders);
      forall u | u in users && IsCandidate(u)
        ensures Load(orders, Pick(users, orders).value) <= Load(orders, u.id)
      {
        assert u in candidates;
        var j :| 0 <= j < |candidates| && candidates[j] == u;
      }
    }
  }

  /** Among operators tied at the least load, the one listed first wins:
      every candidate listed before the chosen one has a strictly larger load. */
  lemma PickTieBreak(users: seq<User>, orders: seq<Order>)
    ensures Pick(users, orders).Some? ==>
      exists i :: 0 <= i < |Candidates(users)|
        && Candidates(users)[i].id == Pick(users, orders).value
        && forall j :: 0 <= j < i ==>
             Load(orders, Pick(users, orders).value) < Load(orders, Candidates(users)[j].id)
  {
    if |Candidates(users)| > 0 {
      PickFirstLeastLoaded(users, orders);
    }
  }

  /** An order without an operator does not change anyone's load, so it does
      not change the choice: the new order itself never sways its assignment. */
  lemma PickIgnoresUnassigned(users: seq<User>, orders: seq<Order>, o: Order)
    requires o.operatorId == None
    ensures Pick(users, orders + [o]) == Pick(users, orders)
  {
    var candidates := Candidates(users);
    forall i | 0 <= i < |candidates|
      ensures Load(orders + [o], candidates[i].id) == Load(orders, candidates[i].id)
    {
      SettledOrdersNotCounted(orders, o, candidates[i].id);
    }
    assert Workloads(candidates, orders + [o]) == Workloads(candidates, orders);
  }

  // ---------------------------------------------------------------------
  // The store update

  /** `assignOrderToOperator(orderId)`: picks an operator, writes it onto the
      order and returns it; returns null and writes nothing without active
      operators. The update throws when the order does not exist. */
  method AssignOrderToOperator(db: Database, orderId: Id) returns (r: Result<Option<Id>>)
    requires db.Valid()
    modifies db`orders
    ensures db.Valid()
    ensures Pick(db.users, old(db.orders)).None? ==> r == Ok(None) && db.orders == old(db.orders)
    ensures Pick(db.users, old(db.orders)).Some? && orderId in OrderIds(old(db.orders)) ==>
      && r == Ok(Pick(db.users, old(db.orders)))
      && db.orders == SetOperator(old(db.orders), orderId, r.value.value)
    ensures Pick(db.users, old(db.orders)).Some? && orderId !in OrderIds(old(db.orders)) ==>
      r == Err(RecordNotFound) && db.orders == old(db.orders)
  {
    var candidates := Candidates(db.users);
    if |candidates| == 0 {
      return Ok(None);
    }
    var workloads := Workloads(candidates, db.orders);
    var sorted := SortBy(workloads, PendingCount);
    var chosen := sorted[0].operatorId;
    var k := FindOrder(db.orders, orderId);
    if k.None? {
      return Err(RecordNotFound);
    }
    SetOperatorAt(db.orders, k.value, chosen);
    db.orders := db.orders[k.value := db.orders[k.value].(operatorId := Some(chosen))];
    r := Ok(Some(chosen));
  }
}
