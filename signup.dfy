/**
 * Self-service signup: an ordered chain of checks (credentials present,
 * password length, email unused), then either the one-time admin branch,
 * open only while no admin exists and only with the right code, or the
 * customer branch, which also needs a contact and an address.
 */
module Signup {

  import opened Shop
  import opened Store

  /** The JSON body: `None` for an absent field, otherwise the string sent. */
  datatype SignupRequest = SignupRequest(
    name: Option<string>,
    email: Option<string>,
    password: Option<string>,
    contact: Option<string>,
    address: Option<string>,
    adminCode: Option<string>)

  /** The first failing check, or the kind of account to create. */
  datatype Decision = Reject(code: nat, message: string) | CreateAdmin | CreateCustomer

  /** The admin code used when none is configured. */
  const DefaultAdminCode := "ADMIN_SETUP_2024"
  const MinPasswordLength := 6

  const MissingCredentials := "Name, email, and password are required"
  const ShortPassword := "Password must be at least 6 characters"
  const DuplicateEmail := "User with this email already exists"
  const AdminSignupClosed := "Admin account already exists. Admin signup is disabled."
  const InvalidAdminCode := "Invalid admin signup code"
  const MissingCustomerFields := "Contact and address are required for customer signup"

  /** The admin code in force: the configured one when set and non-empty. */
  function AdminSignupCode(configured: Option<string>): string {
    if Truthy(configured) then configured.value else DefaultAdminCode
  }

  predicate HasCredentials(req: SignupRequest) {
    Truthy(req.name) && Truthy(req.email) && Truthy(req.password)
  }

  /** The checks before the admin/customer split all pass. */
  predicate PassesCommonChecks(req: SignupRequest, users: seq<User>) {
    && HasCredentials(req)
    && |req.password.value| >= MinPasswordLength
    && !EmailTaken(users, req.email.value)
  }

  /** The validation chain of POST /api/auth/signup. */
  function Decide(req: SignupRequest, users: seq<User>, configured: Option<string>): (d: Decision)
    // The credential check comes first and looks at no stored user.
    ensures !HasCredentials(req) ==> d == Reject(400, MissingCredentials)
    ensures HasCredentials(req) && |req.password.value| < MinPasswordLength ==>
      d == Reject(400, ShortPassword)
    ensures HasCredentials(req) && |req.password.value| >= MinPasswordLength && EmailTaken(users, req.email.value) ==>
      d == Reject(400, DuplicateEmail)
    ensures PassesCommonChecks(req, users) && Truthy(req.adminCode) && AdminExists(users) ==>
      d == Reject(403, AdminSignupClosed)
    ensures PassesCommonChecks(req, users) && Truthy(req.adminCode) && !AdminExists(users)
            && req.adminCode.value != AdminSignupCode(configured) ==>
      d == Reject(403, InvalidAdminCode)
    ensures PassesCommonChecks(req, users) && !Truthy(req.adminCode)
            && !(Truthy(req.contact) && Truthy(req.address)) ==>
      d == Reject(400, MissingCustomerFields)
    // An admin is created only while none exists, and only with the code in force.
    ensures d == CreateAdmin <==>
      && PassesCommonChecks(req, users) && Truthy(req.adminCode) && !AdminExists(users)
      && req.adminCode.value == AdminSignupCode(configured)
    ensures d == CreateCustomer <==>
      && PassesCommonChecks(req, users) && !Truthy(req.adminCode)
      && Truthy(req.contact) && Truthy(req.address)
  {
    if !HasCredentials(req) then Reject(400, MissingCredentials)
    else if |req.password.value| < MinPasswordLength then Reject(400, ShortPassword)
    else if EmailTaken(users, req.email.value) then Reject(400, DuplicateEmail)
    else if Truthy(req.adminCode) then
      if AdminExists(users) then Reject(403, AdminSignupClosed)
      else if req.adminCode.value != AdminSignupCode(configured) then Reject(403, InvalidAdminCode)
      else CreateAdmin
    else if !Truthy(req.contact) || !Truthy(req.address) then Reject(400, MissingCustomerFields)
    else CreateCustomer
  }

  /** The row inserted on success; an admin gets no contact or address. */
  function NewUser(req: SignupRequest, d: Decision, id: Id, hash: string -> string, now: int): (u: User)
    requires HasCredentials(req) && !d.Reject?
    ensures u.id == id && u.email == req.email.value && u.name == req.name.value
    ensures u.passwordHash == hash(req.password.value) && u.isActive && u.createdAt == now
    ensures u.role == Admin <==> d.CreateAdmin?
    ensures u.role == Customer <==> d.CreateCustomer?
    ensures d.CreateAdmin? ==> u.contact.None? && u.address.None?
    ensures d.CreateCustomer? ==> u.contact == req.contact && u.address == req.address
  {
    if d.CreateAdmin? then
      User(id, req.email.value, req.name.value, hash(req.password.value), Admin, true, None, None, now)
    else
      User(id, req.email.value, req.name.value, hash(req.password.value), Customer, true,
           req.contact, req.address, now)
  }

  /** Signup never makes a second admin: the admin branch runs only on a
      store with no admin and adds exactly one, and the customer branch adds
      none. So at most one admin ever comes from this path. */
  lemma SignupKeepsAdminUnique(req: SignupRequest, users: seq<User>, configured: Option<string>,
                               id: Id, hash: string -> string, now: int)
    ensures Decide(req, users, configured) == CreateAdmin ==>
      AdminCount(users) == 0
      && AdminCount(users + [NewUser(req, CreateAdmin, id, hash, now)]) == 1
    ensures Decide(req, users, configured) == CreateCustomer ==>
      AdminCount(users + [NewUser(req, CreateCustomer, id, hash, now)]) == AdminCount(users)
  {
    var d := Decide(req, users, configured);
    if !d.Reject? {
      AdminCountAppend(users, NewUser(req, d, id, hash, now));
      AdminCountZero(users);
    }
  }

  /** POST /api/auth/signup. `configured` is the configured admin code,
      `hash` the password hash function. */
  method Signup(db: Database, req: SignupRequest, configured: Option<string>,
                hash: string -> string, now: int) returns (r: Response<User>)
    requires db.Valid()
    modifies db`users, db`nextId
    ensures db.Valid()
    ensures Decide(req, old(db.users), configured).Reject? ==>
      && r == Failure(Decide(req, old(db.users), configured).code, Decide(req, old(db.users), configured).message)
      && db.users == old(db.users) && db.nextId == old(db.nextId)
    ensures !Decide(req, old(db.users), configured).Reject? ==>
      && r == Success(201, NewUser(req, Decide(req, old(db.users), configured), old(db.nextId), hash, now))
      && db.users == old(db.users) + [r.value]
      && db.nextId == old(db.nextId) + 1
  {
    var d := Decide(req, db.users, configured);
    if d.Reject? {
      return Failure(d.code, d.message);
    }
    var user := NewUser(req, d, db.nextId, hash, now);
    UserIdsAppend(db.users, user);
    AppendFreshId(UserIds(db.users), db.nextId);
    AppendFreshEmail(db.users, user);
    AllBelowRaise(ProductIds(db.products), db.nextId, db.nextId + 1);
    AllBelowRaise(OrderIds(db.orders), db.nextId, db.nextId + 1);
    db.users := db.users + [user];
    db.nextId := db.nextId + 1;
    r := Success(201, user);
  }
}
