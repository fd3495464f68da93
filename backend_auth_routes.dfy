/**
 * The account endpoints of `backend/routes/auth_routes.py`. Registration makes the same checks
 * as in `instance/` (module AuthRoutes) but creates bare profile rows and answers with the
 * basic user data; login has no blacklist check; there is no token store, and a password reset
 * needs only a non-empty token and an existing email.
 */
module BackendAuthRoutes {
  import opened Wrappers
  import opened Text
  import opened Json
  import opened Http
  import opened Models
  import opened Database
  import opened Validators
  import opened AuthRoutes

  /** `{"id", "name", "email", "role"}` of a user. */
  function BasicUserData(u: User): (v: Value)
    ensures v.Obj? && v.fields.Keys == {"id", "name", "email", "role"}
    ensures v.fields["id"] == Int(u.id) && v.fields["role"] == Str(u.role.Value())
  {
    Obj(map["id" := Int(u.id), "name" := u.name, "email" := u.email, "role" := Str(u.role.Value())])
  }

  /** A successful registration (201) or login (200): the token for the user's id and role, and the basic user data. */
  function BasicSignedIn(status: int, u: User): Response {
    Reply(status, Obj(map["token" := Security.Payload(IssueToken(u)), "user" := BasicUserData(u)]))
  }

  /** `register`: the same checks, then the user row and a profile row without a nine-digit id or details. */
  method Register(db: Db, data: map<string, Value>, now: string) returns (r: Response)
    requires db.Valid()
    modifies db
    ensures db.Valid() && db.orders == old(db.orders)
    ensures RegisterProblem(old(db.users), data).Some? ==>
      (r == RegisterProblem(old(db.users), data).value
       && db.users == old(db.users) && db.customers == old(db.customers) && db.drivers == old(db.drivers))
    ensures RegisterProblem(old(db.users), data).None? ==>
      var u := RegisteredUser(old(db.users), data, now);
      (db.users == old(db.users) + [u] && r == BasicSignedIn(201, u)
       && match u.role
          case CustomerRole =>
            (db.drivers == old(db.drivers)
             && db.customers == old(db.customers) + [NewCustomer(|old(db.customers)| + 1, None, u.id, Null, Null, Null, Null, Null)])
          case DriverRole =>
            (db.customers == old(db.customers)
             && db.drivers == old(db.drivers) + [NewDriver(|old(db.drivers)| + 1, None, u.id, Null, Null, Null, Null)])
          case AdminRole => db.customers == old(db.customers) && db.drivers == old(db.drivers))
  {
    var problem := RegisterProblem(db.users, data);
    if problem.Some? {
      return problem.value;
    }
    var u := RegisteredUser(db.users, data, now);
    if u.role == CustomerRole {
      db.AddCustomer(NewCustomer(|db.customers| + 1, None, u.id, Null, Null, Null, Null, Null));
    } else if u.role == DriverRole {
      db.AddDriver(NewDriver(|db.drivers| + 1, None, u.id, Null, Null, Null, Null));
    }
    db.AddUser(u);
    return BasicSignedIn(201, u);
  }

  /** `login`: as in `instance/` without the blacklist check and without the profile ids. */
  function Login(us: seq<User>, data: map<string, Value>): (r: Response)
    ensures !RequireFields(data, LoginFields).ok ==> r == Message(400, RequireFields(data, LoginFields).error.value)
    ensures RequireFields(data, LoginFields).ok && !Bindable(Get(data, "email")) ==> r == Uncaught
    ensures RequireFields(data, LoginFields).ok && Bindable(Get(data, "email")) && UserIndexByEmail(us, Get(data, "email")).None? ==>
      r == Message(401, "Invalid credentials")
    ensures RequireFields(data, LoginFields).ok && Bindable(Get(data, "email"))
            && UserIndexByEmail(us, Get(data, "email")).Some? ==>
      var u := us[UserIndexByEmail(us, Get(data, "email")).value];
      if !Get(data, "password").Str? then r == Uncaught
      else if !CheckPassword(Get(data, "password"), u.passwordHash) then r == Message(401, "Invalid credentials")
      else if !u.isActive then r == Message(403, "User blocked")
      else r == BasicSignedIn(200, u)
  {
    var check := RequireFields(data, LoginFields);
    if !check.ok then Message(400, check.error.value)
    else
      assert Present(data, LoginFields[0]) && Present(data, LoginFields[1]);
      if !Bindable(data["email"]) then Uncaught
      else match UserIndexByEmail(us, data["email"])
      case None => Message(401, "Invalid credentials")
      case Some(i) =>
        var u := us[i];
        if !data["password"].Str? then Uncaught
        else if !CheckPassword(data["password"], u.passwordHash) then Message(401, "Invalid credentials")
        else if !u.isActive then Message(403, "User blocked")
        else BasicSignedIn(200, u)
  }

  /**
   * Where the two login handlers part: an active, blacklisted user with the right password
   * gets in here and is refused in `instance/`.
   */
  lemma BlacklistIgnored(us: seq<User>, cs: seq<Customer>, ds: seq<Driver>, i: nat)
    requires i < |us| && EmailsUnique(us) && Present(Credentials(us[i]), "email") && Bindable(us[i].email)
    requires us[i].passwordHash.secret != "" && us[i].isActive && us[i].isBlacklisted
    ensures Login(us, Credentials(us[i])) == BasicSignedIn(200, us[i])
    ensures AuthRoutes.Login(us, cs, ds, Credentials(us[i])) == Message(403, "User is blacklisted")
  {
    var login := Credentials(us[i]);
    assert Present(login, LoginFields[0]) && Present(login, LoginFields[1]);
    var k := UserIndexByEmail(us, us[i].email).value;
    assert k == i;
  }

  /**
   * `forgot_password`: no token is stored; an email the lookup cannot bind raises; the mail
   * outcome decides between 200 and 500.
   */
  function ForgotPassword(us: seq<User>, data: map<string, Value>, mailSent: bool): (r: Response)
    ensures !Truthy(Get(data, "email")) ==> r == Message(400, "Email is required")
    ensures Truthy(Get(data, "email")) && !Bindable(Get(data, "email")) ==> r == Uncaught
    ensures Truthy(Get(data, "email")) && Bindable(Get(data, "email")) && UserIndexByEmail(us, Get(data, "email")).None? ==>
      r == Message(200, ResetLinkSent)
    ensures Truthy(Get(data, "email")) && Bindable(Get(data, "email"))
            && UserIndexByEmail(us, Get(data, "email")).Some? ==>
      r == (if mailSent then Message(200, ResetLinkSent) else Message(500, "Failed to send reset link. Please try again later."))
  {
    var email := Get(data, "email");
    if !Truthy(email) then Message(400, "Email is required")
    else if !Bindable(email) then Uncaught
    else if UserIndexByEmail(us, email).None? then Message(200, ResetLinkSent)
    else if mailSent then Message(200, ResetLinkSent)
    else Message(500, "Failed to send reset link. Please try again later.")
  }

  /** Whether or not the email is known, a request whose mail goes out gets the same answer. */
  lemma ForgotRevealsNothing(us: seq<User>, data: map<string, Value>)
    requires Truthy(Get(data, "email")) && Bindable(Get(data, "email"))
    ensures ForgotPassword(us, data, true) == ForgotPassword([], data, true) == Message(200, ResetLinkSent)
  {
  }

  /**
   * `reset_password`: the token is only tested for being non-empty; an email the lookup cannot
   * bind raises; an existing email gets the new password, and a password bcrypt cannot take fails inside the `try` with 500.
   */
  method ResetPassword(db: Db, data: map<string, Value>) returns (r: Response)
    requires db.Valid()
    modifies db
    ensures db.Valid()
    ensures db.customers == old(db.customers) && db.drivers == old(db.drivers) && db.orders == old(db.orders)
    ensures var email := Get(data, "email");
      var password := Get(data, "password");
      if !(Truthy(Get(data, "token")) && Truthy(email) && Truthy(password)) then
        r == Message(400, "Token, email, and password are required") && db.users == old(db.users)
      else if !Bindable(email) then r == Uncaught && db.users == old(db.users)
      else
        match UserIndexByEmail(old(db.users), email)
        case None => r == Message(400, "Invalid request") && db.users == old(db.users)
        case Some(i) =>
          if !password.Str? then r == Message(500, "Failed to reset password. Please try again later.") && db.users == old(db.users)
          else (r == Message(200, "Password reset successfully")
                && db.users == old(db.users)[i := WithPassword(old(db.users)[i], password.s)])
  {
    var email := Get(data, "email");
    var password := Get(data, "password");
    if !(Truthy(Get(data, "token")) && Truthy(email) && Truthy(password)) {
      return Message(400, "Token, email, and password are required");
    }
    if !Bindable(email) {
      return Uncaught;
    }
    var found := UserIndexByEmail(db.users, email);
    if found.None? {
      return Message(400, "Invalid request");
    }
    var i := found.value;
    if !password.Str? {
      return Message(500, "Failed to reset password. Please try again later.");
    }
    db.users := db.users[i := WithPassword(db.users[i], password.s)];
    return Message(200, "Password reset successfully");
  }

  /** Anyone who knows an account's email can set its password: any non-empty token will do. */
  method ResetWithAnyToken(db: Db, email: Value, password: string, token: string) returns (r: Response)
    requires db.Valid() && Truthy(email) && Bindable(email) && password != "" && token != ""
    requires UserIndexByEmail(db.users, email).Some?
    modifies db
    ensures r == Message(200, "Password reset successfully") && |db.users| == |old(db.users)|
    ensures CheckPassword(Str(password), db.users[UserIndexByEmail(old(db.users), email).value].passwordHash)
  {
    r := ResetPassword(db, map["token" := Str(token), "email" := email, "password" := Str(password)]);
  }
}
