/**
 * The account endpoints of `instance/backend/routes/auth_routes.py`: registration with its
 * profile row, login, and the password reset through the in-memory `reset_tokens` map, which
 * is keyed by token. The clock, the random draws and the outcome of sending mail are parameters.
 */
module AuthRoutes {
  import opened Wrappers
  import opened Text
  import opened Json
  import opened Http
  import opened Models
  import opened Database
  import opened Validators
  import Security
  import CustomerRoutes
  import AdminRoutes

  const RegisterFields: seq<string> := ["name", "email", "password", "role"]
  const LoginFields: seq<string> := ["email", "password"]

  /** `make_access_token({"id": user.id, "role": user.role})` */
  function IssueToken(u: User): (t: Security.Token)
    ensures t.identity == Str(IntToString(u.id)) && t.claims == map["role" := Str(u.role.Value())]
  {
    Security.MakeAccessToken(map["id" := Int(u.id), "role" := Str(u.role.Value())])
  }

  /** `user_data`: id, name, email and role, and the nine-digit id of the user's profile if there is one. */
  function UserData(u: User, cs: seq<Customer>, ds: seq<Driver>): (v: Value)
    ensures v.Obj? && "id" in v.fields && v.fields["id"] == Int(u.id)
    ensures "role" in v.fields && v.fields["role"] == Str(u.role.Value())
    ensures "customer_id" in v.fields <==> u.role == CustomerRole && CustomerIndexOf(cs, u.id).Some?
    ensures "driver_id" in v.fields <==> u.role == DriverRole && DriverIndexOf(ds, u.id).Some?
  {
    var base := map["id" := Int(u.id), "name" := u.name, "email" := u.email, "role" := Str(u.role.Value())];
    if u.role == CustomerRole && CustomerIndexOf(cs, u.id).Some? then
      Obj(base["customer_id" := CustomerRoutes.OptionalKey(cs[CustomerIndexOf(cs, u.id).value].customerId)])
    else if u.role == DriverRole && DriverIndexOf(ds, u.id).Some? then
      Obj(base["driver_id" := CustomerRoutes.OptionalKey(ds[DriverIndexOf(ds, u.id).value].driverId)])
    else Obj(base)
  }

  /** The reply of a successful registration (201) or login (200): the token and the user data. */
  function SignedIn(status: int, u: User, cs: seq<Customer>, ds: seq<Driver>): Response {
    Reply(status, Obj(map["token" := Security.Payload(IssueToken(u)), "user" := UserData(u, cs, ds)]))
  }

  /* ---------- register ---------- */

  /**
   * The checks `register` makes before its first write, in order: the four fields, a role that
   * `.lower()` can be called on (any other value raises) and that names a role, an email the
   * lookup can bind (a list or an object raises) and that is unused, a password bcrypt can hash
   * (any other value raises), and a name the flush of the user row can bind. None when all pass.
   */
  function RegisterProblem(us: seq<User>, data: map<string, Value>): (r: Option<Response>)
    ensures !RequireFields(data, RegisterFields).ok ==> r == Some(Message(400, RequireFields(data, RegisterFields).error.value))
    ensures r.None? <==>
      (RequireFields(data, RegisterFields).ok && "role" in data && data["role"].Str?
       && ParseRole(ToLower(data["role"].s)).Some?
       && "email" in data && Bindable(data["email"]) && UserIndexByEmail(us, data["email"]).None?
       && "password" in data && data["password"].Str?
       && "name" in data && Bindable(data["name"]))
    ensures r == Some(Message(409, "Email already registered")) <==>
      (RequireFields(data, RegisterFields).ok && "role" in data && data["role"].Str?
       && ParseRole(ToLower(data["role"].s)).Some?
       && "email" in data && Bindable(data["email"]) && UserIndexByEmail(us, data["email"]).Some?)
  {
    var check := RequireFields(data, RegisterFields);
    if !check.ok then Some(Message(400, check.error.value))
    else
      assert Present(data, RegisterFields[0]) && Present(data, RegisterFields[1])
        && Present(data, RegisterFields[2]) && Present(data, RegisterFields[3]);
      if !data["role"].Str? then Some(Uncaught)
      else if ParseRole(ToLower(data["role"].s)).None? then Some(Message(400, "Invalid role"))
      else if !Bindable(data["email"]) then Some(Uncaught)
      else if UserIndexByEmail(us, data["email"]).Some? then Some(Message(409, "Email already registered"))
      else if !data["password"].Str? then Some(Uncaught)
      else if !Bindable(data["name"]) then Some(Uncaught)
      else None
  }

  /** The user row of a registration that passed the checks: active, not blacklisted, with the hashed password. */
  function RegisteredUser(us: seq<User>, data: map<string, Value>, now: string): (u: User)
    requires RegisterProblem(us, data).None?
    ensures u.id == |us| + 1 && u.email == data["email"] && u.name == data["name"] && u.createdAt == now
    ensures u.role.Value() == ToLower(data["role"].s)
    ensures u.isActive && !u.isBlacklisted && CheckPassword(data["password"], u.passwordHash)
  {
    NewUser(|us| + 1, data["name"], data["email"], data["password"].s, ParseRole(ToLower(data["role"].s)).value, now)
  }

  /**
   * The nine-digit id a new profile gets: none is passed to the constructor, so the customer
   * generator runs for a customer row and the driver generator for a driver row.
   */
  function NewProfileId(role: UserRole, clock: nat, randomPart: RandomPart): (id: nat)
    ensures 100000000 <= id <= 999999999
  {
    GeneratedIdNineDigits(clock, randomPart);
    if role == DriverRole then
      SameGenerator(clock, randomPart);
      AssignedId(None, GenerateUniqueDriverId(clock, randomPart)).value
    else AssignedId(None, GenerateUniqueCustomerId(clock, randomPart)).value
  }

  /** The unique constraint on `customer.customer_id` would reject this id. */
  predicate CustomerIdTaken(cs: seq<Customer>, id: nat) {
    exists j :: 0 <= j < |cs| && cs[j].customerId == Some(id)
  }

  /** The unique constraint on `driver.driver_id` would reject this id. */
  predicate DriverIdTaken(ds: seq<Driver>, id: nat) {
    exists j :: 0 <= j < |ds| && ds[j].driverId == Some(id)
  }

  /** The optional request fields copied onto a new customer row, and onto a new driver row. */
  const CustomerProfileFields: seq<string> := ["phone", "address", "city", "state", "zip_code"]
  const DriverProfileFields: seq<string> := ["phone", "license_number", "vehicle_type", "vehicle_number"]

  /** The customer profile of a new customer, with the optional fields the request carries. */
  function CustomerProfile(cs: seq<Customer>, userId: nat, data: map<string, Value>, id: nat): (c: Customer)
    ensures c.id == |cs| + 1 && c.userId == userId && c.customerId == Some(id) && c.totalOrders == 0
    ensures c.phone == Get(data, "phone") && c.zipCode == Get(data, "zip_code")
  {
    NewCustomer(|cs| + 1, Some(id), userId, Get(data, "phone"), Get(data, "address"), Get(data, "city"),
                Get(data, "state"), Get(data, "zip_code"))
  }

  /** The driver profile of a new driver, with the optional fields the request carries. */
  function DriverProfile(ds: seq<Driver>, userId: nat, data: map<string, Value>, id: nat): (d: Driver)
    ensures d.id == |ds| + 1 && d.userId == userId && d.driverId == Some(id) && !d.isVerified
    ensures d.phone == Get(data, "phone") && d.licenseNumber == Get(data, "license_number")
  {
    NewDriver(|ds| + 1, Some(id), userId, Get(data, "phone"), Get(data, "license_number"),
              Get(data, "vehicle_type"), Get(data, "vehicle_number"))
  }

  /**
   * `register`: after the checks, one user row, and one profile row for a customer or a driver
   * and none for an admin. A generated profile id already in use, or a profile field that cannot
   * be bound, fails the commit, which writes nothing.
   */
  method Register(db: Db, data: map<string, Value>, clock: nat, randomPart: RandomPart, now: string) returns (r: Response)
    requires db.Valid()
    modifies db
    ensures db.Valid() && db.orders == old(db.orders)
    ensures RegisterProblem(old(db.users), data).Some? ==>
      (r == RegisterProblem(old(db.users), data).value
       && db.users == old(db.users) && db.customers == old(db.customers) && db.drivers == old(db.drivers))
    ensures RegisterProblem(old(db.users), data).None? ==>
      var u := RegisteredUser(old(db.users), data, now);
      var id := NewProfileId(u.role, clock, randomPart);
      match u.role
      case CustomerRole =>
        if CustomerIdTaken(old(db.customers), id) || !FieldsBindable(data, CustomerProfileFields) then
          r == Uncaught && db.users == old(db.users) && db.customers == old(db.customers) && db.drivers == old(db.drivers)
        else
          (db.users == old(db.users) + [u] && db.drivers == old(db.drivers)
           && db.customers == old(db.customers) + [CustomerProfile(old(db.customers), u.id, data, id)]
           && r == SignedIn(201, u, db.customers, db.drivers))
      case DriverRole =>
        if DriverIdTaken(old(db.drivers), id) || !FieldsBindable(data, DriverProfileFields) then
          r == Uncaught && db.users == old(db.users) && db.customers == old(db.customers) && db.drivers == old(db.drivers)
        else
          (db.users == old(db.users) + [u] && db.customers == old(db.customers)
           && db.drivers == old(db.drivers) + [DriverProfile(old(db.drivers), u.id, data, id)]
           && r == SignedIn(201, u, db.customers, db.drivers))
      case AdminRole =>
        (db.users == old(db.users) + [u] && db.customers == old(db.customers) && db.drivers == old(db.drivers)
         && r == SignedIn(201, u, db.customers, db.drivers))
  {
    var problem := RegisterProblem(db.users, data);
    if problem.Some? {
      return problem.value;
    }
    var u := RegisteredUser(db.users, data, now);
    var id := NewProfileId(u.role, clock, randomPart);
    if u.role == CustomerRole {
      if CustomerIdTaken(db.customers, id) || !FieldsBindable(data, CustomerProfileFields) {
        return Uncaught;
      }
      db.AddCustomer(CustomerProfile(db.customers, u.id, data, id));
    } else if u.role == DriverRole {
      if DriverIdTaken(db.drivers, id) || !FieldsBindable(data, DriverProfileFields) {
        return Uncaught;
      }
      db.AddDriver(DriverProfile(db.drivers, u.id, data, id));
    }
    db.AddUser(u);
    return SignedIn(201, u, db.customers, db.drivers);
  }

  /* ---------- login ---------- */

  /**
   * `login`, in its order of checks: the two fields; an email the lookup cannot bind raises; an
   * unknown email or a wrong password is 401 (a password bcrypt cannot take raises); an inactive
   * user is 403 "User blocked"; a blacklisted one 403 "User is blacklisted".
   */
  function Login(us: seq<User>, cs: seq<Customer>, ds: seq<Driver>, data: map<string, Value>): (r: Response)
    ensures !RequireFields(data, LoginFields).ok ==> r == Message(400, RequireFields(data, LoginFields).error.value)
    ensures RequireFields(data, LoginFields).ok && !Bindable(Get(data, "email")) ==> r == Uncaught
    ensures RequireFields(data, LoginFields).ok && Bindable(Get(data, "email")) && UserIndexByEmail(us, Get(data, "email")).None? ==>
      r == Message(401, "Invalid credentials")
    ensures RequireFields(data, LoginFields).ok && Bindable(Get(data, "email"))
            && UserIndexByEmail(us, Get(data, "email")).Some? ==>
      var u := us[UserIndexByEmail(us, Get(data, "email")).value];
      if !Get(data, "password").Str? then r == Uncaught
      else if !CheckPassword(Get(data, "password"), u.passwordHash) then r == Message(401, "Invalid credentials")
      else if !u.isActive then r == Message(403, "User blocked")
      else if u.isBlacklisted then r == Message(403, "User is blacklisted")
      else r == SignedIn(200, u, cs, ds)
  {
    var check := RequireFields(data, LoginFields);
    if !check.ok then Message(400, check.error.value)
    else
      assert Present(data, LoginFields[0]) && Present(data, LoginFields[1]);
      if !Bindable(data["email"]) then Uncaught
      else match UserIndexByEmail(us, data["email"])
      case None => Message(401, "Invalid credentials")
      case Some(i) =>
        var u := us[i];
        if !data["password"].Str? then Uncaught
        else if !CheckPassword(data["password"], u.passwordHash) then Message(401, "Invalid credentials")
        else if !u.isActive then Message(403, "User blocked")
        else if u.isBlacklisted then Message(403, "User is blacklisted")
        else SignedIn(200, u, cs, ds)
  }

  /** The request body of a login with the user's own email and password. */
  function Credentials(u: User): map<string, Value> {
    map["email" := u.email, "password" := Str(u.passwordHash.secret)]
  }

  /** A user just registered can log in with the email and password given, and gets a token for the new id and role. */
  lemma {:induction false} RegisteredUserCanLogIn(us: seq<User>, cs: seq<Customer>, ds: seq<Driver>, data: map<string, Value>, now: string)
    requires RegisterProblem(us, data).None?
    ensures var u := RegisteredUser(us, data, now);
      Login(us + [u], cs, ds, Credentials(u)) == SignedIn(200, u, cs, ds)
  {
    var u := RegisteredUser(us, data, now);
    assert RequireFields(data, RegisterFields).ok;
    assert Present(data, RegisterFields[1]) && Present(data, RegisterFields[2]);
    var login := Credentials(u);
    assert Present(login, LoginFields[0]) && Present(login, LoginFields[1]);
    UserIndexByEmailAppend(us, u);
  }

  /** Blocking a user from the admin endpoints shuts them out of login, even with the right password; unblocking lets them back in. */
  lemma BlockedUserLockedOut(us: seq<User>, cs: seq<Customer>, ds: seq<Driver>, i: nat, reason: Value)
    requires i < |us| && EmailsUnique(us) && Present(Credentials(us[i]), "email") && Bindable(us[i].email)
    requires us[i].passwordHash.secret != ""
    ensures Login(us[i := AdminRoutes.Blocked(us[i], reason)], cs, ds, Credentials(us[i])) == Message(403, "User blocked")
    ensures Login(us[i := AdminRoutes.Unblocked(us[i])], cs, ds, Credentials(us[i])) == SignedIn(200, AdminRoutes.Unblocked(us[i]), cs, ds)
  {
    var login := Credentials(us[i]);
    assert Present(login, LoginFields[0]) && Present(login, LoginFields[1]);
    var blocked := us[i := AdminRoutes.Blocked(us[i], reason)];
    assert blocked[i].email == us[i].email;
    var k := UserIndexByEmail(blocked, us[i].email).value;
    assert blocked[k].email == us[k].email;
    assert k == i;
    var unblocked := us[i := AdminRoutes.Unblocked(us[i])];
    assert unblocked[i].email == us[i].email;
    var k' := UserIndexByEmail(unblocked, us[i].email).value;
    assert unblocked[k'].email == us[k'].email;
    assert k' == i;
  }

  /* ---------- forgot_password / reset_password ---------- */

  /** An entry of `reset_tokens`: the email it was issued for and its expiry, in seconds. */
  datatype ResetEntry = ResetEntry(email: Value, expiresAt: int)

  /** `timedelta(hours=1)` in seconds. */
  const ResetLifetime: int := 3600

  predicate IsTokenChar(c: char) {
    'a' <= c <= 'z' || 'A' <= c <= 'Z' || '0' <= c <= '9'
  }

  /** A draw of `secrets.choice(ascii_letters + digits)` 32 times. */
  type ResetToken = s: string | |s| == 32 && forall i :: 0 <= i < |s| ==> IsTokenChar(s[i])
    witness "00000000000000000000000000000000"

  /** The module-level `reset_tokens` dictionary. */
  class ResetTokens {
    var tokens: map<string, ResetEntry>

    constructor ()
      ensures tokens == map[]
    {
      tokens := map[];
    }
  }

  const ResetLinkSent: string := "If the email exists, a reset link has been sent"

  /**
   * `forgot_password`: an email the lookup cannot bind raises, an unknown email gets the generic
   * 200 and stores nothing, a blacklisted user 403; otherwise the token is stored for an hour
   * before the mail is sent, and stays stored when sending fails.
   */
  method ForgotPassword(db: Db, store: ResetTokens, data: map<string, Value>, token: ResetToken, now: int, mailSent: bool)
    returns (r: Response)
    modifies store
    ensures var email := Get(data, "email");
      if !Truthy(email) then r == Message(400, "Email is required") && store.tokens == old(store.tokens)
      else if !Bindable(email) then r == Uncaught && store.tokens == old(store.tokens)
      else match UserIndexByEmail(db.users, email)
        case None => r == Message(200, ResetLinkSent) && store.tokens == old(store.tokens)
        case Some(i) =>
          if db.users[i].isBlacklisted then r == Message(403, "User is blacklisted") && store.tokens == old(store.tokens)
          else
            (store.tokens == old(store.tokens)[token := ResetEntry(email, now + ResetLifetime)]
             && r == (if mailSent then Message(200, ResetLinkSent)
                      else Message(500, "Failed to send reset link. Please try again later.")))
  {
    var email := Get(data, "email");
    if !Truthy(email) {
      return Message(400, "Email is required");
    }
    if !Bindable(email) {
      return Uncaught;
    }
    var found := UserIndexByEmail(db.users, email);
    if found.None? {
      return Message(200, ResetLinkSent);
    }
    if db.users[found.value].isBlacklisted {
      return Message(403, "User is blacklisted");
    }
    store.tokens := store.tokens[token := ResetEntry(email, now + ResetLifetime)];
    if mailSent {
      return Message(200, ResetLinkSent);
    }
    return Message(500, "Failed to send reset link. Please try again later.");
  }

  /** Two requests for the same account leave both tokens usable: the map is keyed by token, not by email. */
  method ForgotTwice(db: Db, store: ResetTokens, data: map<string, Value>, t1: ResetToken, t2: ResetToken, now1: int, now2: int)
    returns (first: Response, second: Response)
    requires t1 != t2 && Truthy(Get(data, "email")) && Bindable(Get(data, "email"))
    requires UserIndexByEmail(db.users, Get(data, "email")).Some?
    requires !db.users[UserIndexByEmail(db.users, Get(data, "email")).value].isBlacklisted
    modifies store
    ensures first == second == Message(200, ResetLinkSent)
    ensures t1 in store.tokens && t2 in store.tokens && store.tokens[t1].email == store.tokens[t2].email == Get(data, "email")
  {
    first := ForgotPassword(db, store, data, t1, now1, true);
    second := ForgotPassword(db, store, data, t2, now2, true);
  }

  /** The user row after `user.password_hash = hash_password(password)`. */
  function WithPassword(u: User, password: string): (v: User)
    ensures CheckPassword(Str(password), v.passwordHash)
    ensures v.(passwordHash := u.passwordHash) == u
  {
    u.(passwordHash := Hashed(password))
  }

  /**
   * `reset_password`: the three values, then the token (an unhashable one raises), its email, its
   * expiry (an expired token is deleted), the user (an email the lookup cannot bind raises) and
   * the blacklist; a password bcrypt cannot take fails inside the `try` and is 500. Only a
   * successful reset deletes the token.
   */
  method ResetPassword(db: Db, store: ResetTokens, data: map<string, Value>, now: int) returns (r: Response)
    requires db.Valid()
    modifies db, store
    ensures db.Valid()
    ensures db.customers == old(db.customers) && db.drivers == old(db.drivers) && db.orders == old(db.orders)
    ensures var token := Get(data, "token");
      var email := Get(data, "email");
      var password := Get(data, "password");
      if !(Truthy(token) && Truthy(email) && Truthy(password)) then
        r == Message(400, "Token, email, and password are required") && db.users == old(db.users) && store.tokens == old(store.tokens)
      else if token.Arr? || token.Obj? then
        r == Uncaught && db.users == old(db.users) && store.tokens == old(store.tokens)
      else if !(token.Str? && token.s in old(store.tokens)) then
        r == Message(400, "Invalid or expired reset token") && db.users == old(db.users) && store.tokens == old(store.tokens)
      else if old(store.tokens)[token.s].email != email then
        r == Message(400, "Invalid reset token") && db.users == old(db.users) && store.tokens == old(store.tokens)
      else if old(store.tokens)[token.s].expiresAt < now then
        r == Message(400, "Reset token has expired") && db.users == old(db.users) && store.tokens == old(store.tokens) - {token.s}
      else if !Bindable(email) then
        r == Uncaught && db.users == old(db.users) && store.tokens == old(store.tokens)
      else
        match UserIndexByEmail(old(db.users), email)
        case None => r == Message(400, "Invalid request") && db.users == old(db.users) && store.tokens == old(store.tokens)
        case Some(i) =>
          if old(db.users)[i].isBlacklisted then
            r == Message(403, "User is blacklisted") && db.users == old(db.users) && store.tokens == old(store.tokens)
          else if !password.Str? then
            (r == Message(500, "Failed to reset password. Please try again later.")
             && db.users == old(db.users) && store.tokens == old(store.tokens))
          else
            (r == Message(200, "Password reset successfully")
             && db.users == old(db.users)[i := WithPassword(old(db.users)[i], password.s)]
             && store.tokens == old(store.tokens) - {token.s})
  {
    var token := Get(data, "token");
    var email := Get(data, "email");
    var password := Get(data, "password");
    if !(Truthy(token) && Truthy(email) && Truthy(password)) {
      return Message(400, "Token, email, and password are required");
    }
    if token.Arr? || token.Obj? {
      return Uncaught;
    }
    if !(token.Str? && token.s in store.tokens) {
      return Message(400, "Invalid or expired reset token");
    }
    var entry := store.tokens[token.s];
    if entry.email != email {
      return Message(400, "Invalid reset token");
    }
    if entry.expiresAt < now {
      store.tokens := store.tokens - {token.s};
      return Message(400, "Reset token has expired");
    }
    if !Bindable(email) {
      return Uncaught;
    }
    var found := UserIndexByEmail(db.users, email);
    if found.None? {
      return Message(400, "Invalid request");
    }
    var i := found.value;
    if db.users[i].isBlacklisted {
      return Message(403, "User is blacklisted");
    }
    if !password.Str? {
      return Message(500, "Failed to reset password. Please try again later.");
    }
    db.users := db.users[i := WithPassword(db.users[i], password.s)];
    store.tokens := store.tokens - {token.s};
    return Message(200, "Password reset successfully");
  }

  /** A token works once: after a successful reset the same request is refused as an unknown token. */
  method ResetTwice(db: Db, store: ResetTokens, data: map<string, Value>, now: int) returns (first: Response, second: Response)
    requires db.Valid()
    modifies db, store
    ensures first == Message(200, "Password reset successfully") ==> second == Message(400, "Invalid or expired reset token")
  {
    first := ResetPassword(db, store, data, now);
    second := ResetPassword(db, store, data, now);
  }

  /** The reset request for a token, the email it was issued for and a new password. */
  function ResetRequest(token: ResetToken, email: Value, password: string): map<string, Value> {
    map["token" := Str(token), "email" := email, "password" := Str(password)]
  }

  /** A token `forgot_password` issues at time t still resets the password at t + 3600, its expiry time. */
  method ResetAtExpiry(db: Db, store: ResetTokens, email: Value, token: ResetToken, password: string, t: int)
    returns (forgot: Response, reset: Response)
    requires db.Valid() && Truthy(email) && Bindable(email) && password != ""
    requires UserIndexByEmail(db.users, email).Some? && !db.users[UserIndexByEmail(db.users, email).value].isBlacklisted
    modifies db, store
    ensures forgot == Message(200, ResetLinkSent)
    ensures reset == Message(200, "Password reset successfully") && token !in store.tokens
    ensures var i := UserIndexByEmail(old(db.users), email).value;
      db.users == old(db.users)[i := WithPassword(old(db.users)[i], password)]
  {
    forgot := ForgotPassword(db, store, map["email" := email], token, t, true);
    reset := ResetPassword(db, store, ResetRequest(token, email, password), t + ResetLifetime);
  }

  /** One second later the same token is refused as expired, deleted, and the password is unchanged. */
  method ResetAfterExpiry(db: Db, store: ResetTokens, email: Value, token: ResetToken, password: string, t: int)
    returns (forgot: Response, reset: Response)
    requires db.Valid() && Truthy(email) && Bindable(email) && password != ""
    requires UserIndexByEmail(db.users, email).Some? && !db.users[UserIndexByEmail(db.users, email).value].isBlacklisted
    modifies db, store
    ensures forgot == Message(200, ResetLinkSent)
    ensures reset == Message(400, "Reset token has expired") && token !in store.tokens
    ensures db.users == old(db.users)
  {
    forgot := ForgotPassword(db, store, map["email" := email], token, t, true);
    reset := ResetPassword(db, store, ResetRequest(token, email, password), t + ResetLifetime + 1);
  }
}
