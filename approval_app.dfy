/**
 * `app.py`: the approval service's handlers over the `users` table (module ApprovalStore).
 * Replies carry `{"error": ...}` on failure. Each handler's catch-all answers a raised
 * exception with 500 and the exception's text; the model keeps that outcome as `Uncaught`.
 * A request body is `request.get_json()`: None, or the JSON document.
 */
module ApprovalApp {
  import opened Wrappers
  import opened Json
  import opened Http
  import opened ApprovalStore

  /** The roles `register` accepts, in its own order. */
  const RegisterRoles: seq<string> := ["admin", "driver", "customer"]

  /** `data.get(k)` on the body, where the body is a JSON object. */
  function Field(data: Option<Value>, k: string): (v: Value)
    ensures data.Some? && data.value.Obj? ==> v == Get(data.value.fields, k)
  {
    if data.Some? && data.value.Obj? then Get(data.value.fields, k) else Null
  }

  /** `not data`: no JSON body, or a falsy one. */
  predicate NoData(data: Option<Value>) {
    data.None? || !Truthy(data.value)
  }

  /** A body `register` gets past every check with: an object with a non-empty string email and an accepted role. */
  predicate Acceptable(data: Option<Value>) {
    && data.Some? && data.value.Obj?
    && Field(data, "email").Str? && Field(data, "email").s != ""
    && Field(data, "role").Str? && Field(data, "role").s in RegisterRoles
  }

  /**
   * The checks of `register` before the insert, in order: no data, a body that is not an
   * object (its `.get` raises), a missing email or role, a role outside the list. An email that
   * is not a JSON string is treated as a failed insert (500).
   */
  function RegisterProblem(data: Option<Value>): (p: Option<Response>)
    ensures p.None? <==> Acceptable(data)
    ensures p == Some(Error(400, "No JSON data provided")) <==> NoData(data)
    ensures !NoData(data) && data.value.Obj? && !(Truthy(Field(data, "email")) && Truthy(Field(data, "role"))) ==>
      p == Some(Error(400, "Email and role are required"))
    ensures !NoData(data) && data.value.Obj? && Truthy(Field(data, "email")) && Truthy(Field(data, "role"))
            && !(Field(data, "role").Str? && Field(data, "role").s in RegisterRoles) ==>
      p == Some(Error(400, "Role must be 'admin', 'driver', or 'customer'"))
  {
    if NoData(data) then Some(Error(400, "No JSON data provided"))
    else if !data.value.Obj? then Some(Uncaught)
    else
      var email := Field(data, "email");
      var role := Field(data, "role");
      assert ErrorBody("Email and role are required").fields["error"] != ErrorBody("No JSON data provided").fields["error"];
      if !Truthy(email) || !Truthy(role) then Some(Error(400, "Email and role are required"))
      else if !(role.Str? && role.s in RegisterRoles) then Some(Error(400, "Role must be 'admin', 'driver', or 'customer'"))
      else if !email.Str? then Some(Uncaught)
      else None
  }

  /** The 201 reply: only an admin is told to wait for approval. */
  function Registered(email: string, role: string): (r: Response)
    ensures r.Reply? && r.status == 201 && r.body.Obj? && r.body.fields.Keys == {"message", "email", "role"}
    ensures r.body.fields["email"] == Str(email) && r.body.fields["role"] == Str(role)
    ensures r.body.fields["message"] == Str("Admin registration successful. Awaiting approval.") <==> role == "admin"
  {
    var message := if role == "admin" then "Admin registration successful. Awaiting approval." else "Registration successful.";
    Reply(201, Obj(map["message" := Str(message), "email" := Str(email), "role" := Str(role)]))
  }

  /** `register`: the checks, then the insert; a refused insert is 409 and leaves the table as it was. */
  method Register(table: UserTable, data: Option<Value>, now: string) returns (r: Response)
    requires table.Valid()
    modifies table
    ensures table.Valid()
    ensures RegisterProblem(data).Some? ==>
      r == RegisterProblem(data).value && table.rows == old(table.rows) && table.nextId == old(table.nextId)
    ensures RegisterProblem(data).None? ==>
      var email := Field(data, "email").s;
      var role := Field(data, "role").s;
      if email in old(table.rows) then
        r == Error(409, "Email already registered") && table.rows == old(table.rows) && table.nextId == old(table.nextId)
      else
        && r == Registered(email, role)
        && table.rows == old(table.rows)[email := Row(old(table.nextId), email, role, InitialApproval(role), now)]
        && table.nextId == old(table.nextId) + 1
  {
    var problem := RegisterProblem(data);
    if problem.Some? {
      return problem.value;
    }
    var email := Field(data, "email").s;
    var role := Field(data, "role").s;
    var userId := table.AddUser(email, role, now);
    if userId.None? {
      return Error(409, "Email already registered");
    }
    return Registered(email, role);
  }

  /** The approval page, as the arguments the template is rendered with. */
  datatype Page =
    | Failure(status: int, message: string)
      /** rendered with `success=True`, status 200 */
    | Success(email: string)

  /**
   * `approve`: the email from the query string; an unknown one is 404; an approved user gets
   * the success page without a second update; otherwise the row is approved.
   */
  method Approve(table: UserTable, email: Option<string>) returns (page: Page)
    requires table.Valid()
    modifies table
    ensures table.Valid() && table.nextId == old(table.nextId)
    ensures email.None? || email.value == "" ==>
      page == Failure(400, "Email parameter is required") && table.rows == old(table.rows)
    ensures email.Some? && email.value != "" && email.value !in old(table.rows) ==>
      page == Failure(404, "User not found") && table.rows == old(table.rows)
    ensures email.Some? && email.value != "" && email.value in old(table.rows) ==>
      page == Success(email.value) && table.rows == WithApproval(old(table.rows), email.value)
    ensures email.Some? && email.value in old(table.rows) && old(table.rows)[email.value].isApproved != 0 ==>
      table.rows == old(table.rows)
  {
    if email.None? || email.value == "" {
      return Failure(400, "Email parameter is required");
    }
    var e := email.value;
    var user := table.GetUserByEmail(e);
    if user.None? {
      return Failure(404, "User not found");
    }
    if user.value.isApproved != 0 {
      return Success(e);
    }
    var ok := table.ApproveUser(e);
    if ok {
      page := Success(e);
    } else {
      page := Failure(500, "Failed to approve user");
    }
  }

  /** The 200 reply of `login`, with the stored role. */
  function Welcome(email: string, role: string): (r: Response)
    ensures r.Reply? && r.status == 200 && r.body.Obj? && r.body.fields.Keys == {"message", "email", "role"}
    ensures r.body.fields["message"] == Str("Welcome " + email)
    ensures r.body.fields["email"] == Str(email) && r.body.fields["role"] == Str(role)
  {
    Reply(200, Obj(map["message" := Str("Welcome " + email), "email" := Str(email), "role" := Str(role)]))
  }

  /** A body `login` reaches the table with: an object whose email is a non-empty string. */
  predicate LoginEmail(data: Option<Value>) {
    data.Some? && data.value.Obj? && Field(data, "email").Str? && Field(data, "email").s != ""
  }

  /**
   * `login`: no data is 400, no email is 400; then an unknown email is 404, an unapproved user
   * 403, and an approved one is welcomed with the role `get_user_by_email` finds for it (the
   * row `is_user_approved` has just seen, so the reply without a role is not reached). An email
   * that is not a JSON string is treated as a failed query (500).
   */
  function Login(table: UserTable, data: Option<Value>): (r: Response)
    reads table
    ensures NoData(data) ==> r == Error(400, "No JSON data provided")
    ensures !NoData(data) && data.value.Obj? && !Truthy(Field(data, "email")) ==> r == Error(400, "Email is required")
    ensures LoginEmail(data) ==>
      var email := Field(data, "email").s;
      if email !in table.rows then r == Error(404, "User not found")
      else if table.rows[email].isApproved == 0 then r == Error(403, "Your account is not approved yet!")
      else r == Welcome(email, table.rows[email].role)
    ensures r.Reply? && r.status == 200 ==> LoginEmail(data) && Field(data, "email").s in table.rows
  {
    if NoData(data) then Error(400, "No JSON data provided")
    else if !data.value.Obj? then Uncaught
    else
      var email := Field(data, "email");
      if !Truthy(email) then Error(400, "Email is required")
      else if !email.Str? then Uncaught
      else
        match table.IsUserApproved(email.s)
        case None => Error(404, "User not found")
        case Some(approved) =>
          if !approved then Error(403, "Your account is not approved yet!")
          else
            Welcome(email.s, table.GetUserByEmail(email.s).value.role)
  }

  /** The bodies the scenarios below send. */
  function SignUp(email: string, role: string): Option<Value> {
    Some(Obj(map["email" := Str(email), "role" := Str(role)]))
  }

  function SignIn(email: string): Option<Value> {
    Some(Obj(map["email" := Str(email)]))
  }

  /** A new admin is refused at login until approved, and welcomed after. */
  method AdminWaitsForApproval(table: UserTable, email: string, now: string)
      returns (registered: Response, before: Response, page: Page, after: Response)
    requires table.Valid() && email != "" && email !in table.rows
    modifies table
    ensures registered == Registered(email, "admin")
    ensures before == Error(403, "Your account is not approved yet!")
    ensures page == Success(email)
    ensures after == Welcome(email, "admin")
  {
    registered := Register(table, SignUp(email, "admin"), now);
    before := Login(table, SignIn(email));
    page := Approve(table, Some(email));
    after := Login(table, SignIn(email));
  }

  /** A new driver or customer is welcomed at once, with the role they registered. */
  method OthersLogInAtOnce(table: UserTable, email: string, role: string, now: string)
      returns (registered: Response, login: Response)
    requires table.Valid() && email != "" && email !in table.rows && (role == "driver" || role == "customer")
    modifies table
    ensures registered == Registered(email, role)
    ensures login == Welcome(email, role)
  {
    registered := Register(table, SignUp(email, role), now);
    login := Login(table, SignIn(email));
  }
}
