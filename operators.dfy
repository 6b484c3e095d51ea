/**
 * The admin's operator endpoints: listing every OPERATOR account, active or
 * not, newest first (GET), and creating an active operator after checking
 * the caller, the required fields and the email (POST).
 */
module Operators {

  import opened Shop
  import opened Collections
  import opened Store

  /** The JSON body of POST /api/admin/operators. */
  datatype OperatorRequest = OperatorRequest(email: Option<string>, name: Option<string>, password: Option<string>)

  datatype Verdict = Reject(code: nat, message: string) | Create

  const MissingFields := "Missing required fields"
  const DuplicateEmail := "User with this email already exists"

  predicate IsAdminSession(session: Option<Session>) {
    session.Some? && session.value.role == Admin
  }

  predicate IsOperatorAccount(u: User) {
    u.role == Operator
  }

  /** Sort key for `orderBy: { createdAt: "desc" }`: ascending in this key
      is newest first. */
  function NewestUserKey(u: User): int {
    -u.createdAt
  }

  /** GET /api/admin/operators. */
  function ListOperators(session: Option<Session>, users: seq<User>): (r: Response<seq<User>>)
    ensures !IsAdminSession(session) <==> r == Failure(401, Unauthorized)
    ensures IsAdminSession(session) ==>
      && r.Success? && r.code == 200 && SortedBy(r.value, NewestUserKey)
      && forall u :: multiset(r.value)[u] == if u.role == Operator then multiset(users)[u] else 0
  {
    if !IsAdminSession(session) then Failure(401, Unauthorized)
    else Success(200, SortBy(Filter(users, IsOperatorAccount), NewestUserKey))
  }

  /** The checks of POST /api/admin/operators, in order. No password length
      is enforced here, unlike self-service signup. */
  function Decide(session: Option<Session>, req: OperatorRequest, users: seq<User>): (d: Verdict)
    ensures !IsAdminSession(session) ==> d == Reject(401, Unauthorized)
    ensures IsAdminSession(session) && !(Truthy(req.email) && Truthy(req.name) && Truthy(req.password)) ==>
      d == Reject(400, MissingFields)
    ensures IsAdminSession(session) && Truthy(req.email) && Truthy(req.name) && Truthy(req.password)
            && EmailTaken(users, req.email.value) ==>
      d == Reject(400, DuplicateEmail)
    ensures d == Create <==>
      && IsAdminSession(session)
      && Truthy(req.email) && Truthy(req.name) && Truthy(req.password)
      && !EmailTaken(users, req.email.value)
  {
    if !IsAdminSession(session) then Reject(401, Unauthorized)
    else if !Truthy(req.email) || !Truthy(req.name) || !Truthy(req.password) then Reject(400, MissingFields)
    else if EmailTaken(users, req.email.value) then Reject(400, DuplicateEmail)
    else Create
  }

  /** An operator created by POST is returned by the next GET, and creating
      it leaves the number of admins as it was. */
  lemma CreatedOperatorListed(session: Option<Session>, users: seq<User>, u: User)
    requires IsAdminSession(session) && u.role == Operator
    ensures u in ListOperators(session, users + [u]).value
    ensures AdminCount(users + [u]) == AdminCount(users)
  {
    assert u in multiset(users + [u]);
    assert u in multiset(ListOperators(session, users + [u]).value);
    AdminCountAppend(users, u);
  }

  /** POST /api/admin/operators. `hash` is the password hash function. */
  method CreateOperator(db: Database, session: Option<Session>, req: OperatorRequest,
                        hash: string -> string, now: int) returns (r: Response<User>)
    requires db.Valid()
    modifies db`users, db`nextId
    ensures db.Valid()
    ensures Decide(session, req, old(db.users)).Reject? ==>
      && r == Failure(Decide(session, req, old(db.users)).code, Decide(session, req, old(db.users)).message)
      && db.users == old(db.users) && db.nextId == old(db.nextId)
    ensures Decide(session, req, old(db.users)) == Create ==>
      && r == Success(201, User(old(db.nextId), req.email.value, req.name.value, hash(req.password.value),
                                Operator, true, None, None, now))
      && db.users == old(db.users) + [r.value]
      && db.nextId == old(db.nextId) + 1
  {
    var d := Decide(session, req, db.users);
    if d.Reject? {
      return Failure(d.code, d.message);
    }
    var user := User(db.nextId, req.email.value, req.name.value, hash(req.password.value),
                     Operator, true, None, None, now);
    UserIdsAppend(db.users, user);
    AppendFreshId(UserIds(db.users), db.nextId);
    AppendFreshEmail(db.users, user);
    AllBelowRaise(ProductIds(db.products), db.nextId, db.nextId + 1);
    AllBelowRaise(OrderIds(db.orders), db.nextId, db.nextId + 1);
    db.users := db.users + [user];
    db.nextId := db.nextId + 1;
    r := Success(201, user);
  }
}
