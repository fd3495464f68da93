/**
 * The administrator endpoints of `src/backend/routes/admin_routes.py`: the dashboard totals,
 * the user list with per-role aggregates, blocking and unblocking a user, and the order export.
 * Every handler body sits in a `try` whose `except Exception` answers 500.
 */
module AdminRoutes {
  import opened Wrappers
  import opened Json
  import opened Http
  import opened Models
  import opened Database
  import opened Pricing
  import DriverRoutes
  import CustomerRoutes

  /* ---------- Python numbers ---------- */

  /** `round(v, 2)` of a Python number: an int stays an int, a float is rounded to the paisa. */
  function PyRound2(v: Value): (r: Value)
    ensures v.Int? ==> r == v
    ensures v.Float? ==> r == Float(Round2(v.r))
  {
    match v
    case Float(x) => Float(Round2(x))
    case _ => v
  }

  /** A Python `sum(...)` over the rows os whose summands add up to total: the int 0 when there are none. */
  function PySum(os: seq<Order>, total: real): (v: Value)
    ensures os == [] <==> v == Int(0)
    ensures os != [] ==> v == Float(total)
  {
    if os == [] then Int(0) else Float(total)
  }

  /* ---------- dashboard ---------- */

  /** `User.query.filter_by(role=role).count()` */
  function CountRole(us: seq<User>, role: UserRole): (n: nat)
    ensures n <= |us|
    ensures n == 0 <==> forall i :: 0 <= i < |us| ==> us[i].role != role
  {
    if us == [] then 0
    else
      var rest := CountRole(us[1..], role);
      assert forall i :: 1 <= i < |us| ==> us[i] == us[1..][i - 1];
      (if us[0].role == role then 1 else 0) + rest
  }

  /** Registering a user adds one to the count of exactly its own role. */
  lemma {:induction false} CountRoleAppend(us: seq<User>, u: User, role: UserRole)
    ensures CountRole(us + [u], role) == CountRole(us, role) + (if u.role == role then 1 else 0)
  {
    if us == [] {
      assert us + [u] == [u] && [u][1..] == [];
    } else {
      assert (us + [u])[0] == us[0] && (us + [u])[1..] == us[1..] + [u];
      CountRoleAppend(us[1..], u, role);
    }
  }

  /** The statuses the dashboard counts as active: assigned, picked up or on the way. */
  predicate InFlight(s: OrderStatus) {
    s == Assigned || s == Picked || s == Delivering
  }

  /** `Order.query.filter(Order.status.in_([assigned, picked, delivering])).count()` */
  function CountActive(os: seq<Order>): (n: nat)
    ensures n <= |os|
  {
    if os == [] then 0 else (if InFlight(os[0].status) then 1 else 0) + CountActive(os[1..])
  }

  /** The active count is the sum of the counts of the three in-flight statuses. */
  lemma {:induction false} ActiveIsInFlight(os: seq<Order>)
    ensures CountActive(os) == |OrdersWithStatus(os, Assigned)| + |OrdersWithStatus(os, Picked)| + |OrdersWithStatus(os, Delivering)|
  {
    if os != [] {
      ActiveIsInFlight(os[1..]);
    }
  }

  /** Every order is active, or pending, delivered or cancelled, and only one of these. */
  lemma {:induction false} StatusesPartitionOrders(os: seq<Order>)
    ensures CountActive(os) + |OrdersWithStatus(os, Pending)| + |OrdersWithStatus(os, Delivered)|
            + |OrdersWithStatus(os, Cancelled)| == |os|
  {
    if os != [] {
      StatusesPartitionOrders(os[1..]);
    }
  }

  /** `SUM(order.company_commission)` */
  function SumCommission(os: seq<Order>): (s: real)
    ensures (forall i :: 0 <= i < |os| ==> os[i].companyCommission >= 0.0) ==> s >= 0.0
  {
    if os == [] then 0.0 else os[0].companyCommission + SumCommission(os[1..])
  }

  /**
   * `round(SUM(company_commission) or 0, 2)`: SQL's SUM of no rows is NULL and a zero sum is
   * falsy, and both become the int 0; otherwise the float sum rounded to the paisa.
   */
  function Revenue(os: seq<Order>): (v: Value)
    ensures v == Int(0) <==> os == [] || SumCommission(os) == 0.0
    ensures v != Int(0) ==> v == Float(Round2(SumCommission(os)))
  {
    var sum := SumCommission(os);
    PyRound2(if os == [] || sum == 0.0 then Int(0) else Float(sum))
  }

  /** Orders whose split is all on the driver's side, such as the simple orders, bring no revenue. */
  lemma {:induction false} NoCommissionNoRevenue(os: seq<Order>)
    requires forall i :: 0 <= i < |os| ==> os[i].companyCommission == 0.0
    ensures SumCommission(os) == 0.0 && Revenue(os) == Int(0)
  {
    if os != [] {
      NoCommissionNoRevenue(os[1..]);
    }
  }

  /** `dashboard`: user counts by role, the order count, the revenue and the active orders. */
  function Dashboard(us: seq<User>, os: seq<Order>): (r: Response)
    ensures r.Reply? && r.status == 200 && r.body.Obj?
    ensures r.body.fields.Keys == {"customers", "drivers", "orders", "revenue", "active_orders"}
    ensures r.body.fields["orders"] == Int(|os|) && r.body.fields["revenue"] == Revenue(os)
    ensures r.body.fields["customers"] == Int(CountRole(us, CustomerRole))
    ensures r.body.fields["drivers"] == Int(CountRole(us, DriverRole))
    ensures r.body.fields["active_orders"] == Int(CountActive(os))
  {
    Reply(200, Obj(map["customers" := Int(CountRole(us, CustomerRole)),
                       "drivers" := Int(CountRole(us, DriverRole)),
                       "orders" := Int(|os|),
                       "revenue" := Revenue(os),
                       "active_orders" := Int(CountActive(os))]))
  }

  /** On an empty order table every order figure is the int 0. */
  lemma EmptyDashboard(us: seq<User>)
    ensures var f := Dashboard(us, []).body.fields;
      f["orders"] == Int(0) && f["revenue"] == Int(0) && f["active_orders"] == Int(0)
  {
  }

  /* ---------- get_all_users ---------- */

  const BaseKeys: set<string> :=
    {"id", "name", "email", "role", "is_active", "is_blacklisted", "blacklist_reason", "created_at"}
  const CustomerKeys: set<string> := {"customer_id", "total_orders", "total_spent", "completed_orders"}
  const DriverKeys: set<string> :=
    {"driver_id", "is_verified", "is_available", "current_lat", "current_lng", "total_deliveries", "total_earnings"}

  /** The profile parts never overwrite a field of the base entry. */
  lemma ProfileKeysAreNew()
    ensures BaseKeys !! CustomerKeys && BaseKeys !! DriverKeys
  {
  }

  /** The entry every user gets. */
  function BaseInfo(u: User): (m: map<string, Value>)
    ensures m.Keys == BaseKeys
  {
    map["id" := Int(u.id), "name" := u.name, "email" := u.email, "role" := Str(u.role.Value()),
        "is_active" := Bool(u.isActive), "is_blacklisted" := Bool(u.isBlacklisted),
        "blacklist_reason" := u.blacklistReason, "created_at" := Str(u.createdAt)]
  }

  /** What a customer profile adds: the nine-digit id and the aggregates over the customer's orders. */
  function CustomerInfo(c: Customer, os: seq<Order>): (m: map<string, Value>)
    ensures m.Keys == CustomerKeys
  {
    var mine := OrdersOfCustomer(os, c.id);
    map["customer_id" := CustomerRoutes.OptionalKey(c.customerId),
        "total_orders" := Int(|mine|),
        "total_spent" := PySum(mine, CustomerRoutes.SumFareTotal(mine)),
        "completed_orders" := Int(|OrdersWithStatus(mine, Delivered)|)]
  }

  /** What a driver profile adds: the nine-digit id, the flags, the position and the delivered aggregates. */
  function DriverInfo(d: Driver, os: seq<Order>): (m: map<string, Value>)
    ensures m.Keys == DriverKeys
    ensures m["is_verified"] == Bool(d.isVerified) && m["is_available"] == Bool(d.isAvailable)
    ensures m["current_lat"] == CustomerRoutes.OptionalReal(d.currentLat)
    ensures m["current_lng"] == CustomerRoutes.OptionalReal(d.currentLng)
  {
    var delivered := DriverRoutes.DeliveredBy(os, d.id);
    map["driver_id" := CustomerRoutes.OptionalKey(d.driverId),
        "is_verified" := Bool(d.isVerified), "is_available" := Bool(d.isAvailable),
        "current_lat" := CustomerRoutes.OptionalReal(d.currentLat),
        "current_lng" := CustomerRoutes.OptionalReal(d.currentLng),
        "total_deliveries" := Int(|delivered|),
        "total_earnings" := PySum(delivered, DriverRoutes.SumDriverShare(delivered))]
  }

  /** The profile part of a user's entry: present for a customer or driver that has a profile row. */
  function ProfileInfo(u: User, cs: seq<Customer>, ds: seq<Driver>, os: seq<Order>): (m: map<string, Value>)
    ensures m.Keys !! BaseKeys
    ensures "total_orders" in m <==> u.role == CustomerRole && CustomerIndexOf(cs, u.id).Some?
    ensures "total_deliveries" in m <==> u.role == DriverRole && DriverIndexOf(ds, u.id).Some?
    ensures u.role == DriverRole && DriverIndexOf(ds, u.id).Some? ==> m == DriverInfo(ds[DriverIndexOf(ds, u.id).value], os)
  {
    ProfileKeysAreNew();
    if u.role == CustomerRole then
      match CustomerIndexOf(cs, u.id)
      case None => map[]
      case Some(k) => CustomerInfo(cs[k], os)
    else if u.role == DriverRole then
      match DriverIndexOf(ds, u.id)
      case None => map[]
      case Some(k) => DriverInfo(ds[k], os)
    else map[]
  }

  /** One entry of `get_all_users`: the base entry, plus the profile's part for a customer or driver that has one. */
  function UserInfo(u: User, cs: seq<Customer>, ds: seq<Driver>, os: seq<Order>): (v: Value)
    ensures v.Obj?
    ensures forall key :: key in BaseInfo(u) ==> key in v.fields && v.fields[key] == BaseInfo(u)[key]
    ensures "total_orders" in v.fields <==> u.role == CustomerRole && CustomerIndexOf(cs, u.id).Some?
    ensures "total_deliveries" in v.fields <==> u.role == DriverRole && DriverIndexOf(ds, u.id).Some?
  {
    Obj(BaseInfo(u) + ProfileInfo(u, cs, ds, os))
  }

  /** `get_all_users`: one entry per user, in key order. */
  method GetAllUsers(db: Db) returns (r: Response)
    ensures r.Reply? && r.status == 200 && r.body.Arr? && |r.body.items| == |db.users|
    ensures forall i :: 0 <= i < |db.users| ==> r.body.items[i] == UserInfo(db.users[i], db.customers, db.drivers, db.orders)
  {
    var users, cs, ds, os := db.users, db.customers, db.drivers, db.orders;
    var userData: seq<Value> := [];
    var i := 0;
    while i < |users|
      invariant 0 <= i <= |users| && |userData| == i
      invariant forall j :: 0 <= j < i ==> userData[j] == UserInfo(users[j], cs, ds, os)
    {
      userData := userData + [UserInfo(users[i], cs, ds, os)];
      i := i + 1;
    }
    return Reply(200, Arr(userData));
  }

  /**
   * The driver's aggregates agree with what the driver sees on the earnings endpoint: the same
   * delivered count, and the same total once rounded to the paisa.
   */
  lemma DriverTotalsAgree(us: seq<User>, cs: seq<Customer>, ds: seq<Driver>, os: seq<Order>, userId: int)
    requires UsersNumbered(us) && DriverCaller(us, ds, userId).Profile? && us[userId - 1].role == DriverRole
    ensures var info := UserInfo(us[userId - 1], cs, ds, os).fields;
      var mine := DriverRoutes.Earnings(us, ds, os, userId).body.fields;
      info["total_deliveries"] == mine["delivered_count"]
      && mine["total_earnings"] == PyRound2(info["total_earnings"])
  {
  }

  /**
   * Where the customer counters have been kept in step with the order table (as the
   * `instance/` order handlers keep them), the admin aggregates equal the stored counters.
   */
  lemma CustomerTotalsAgree(us: seq<User>, cs: seq<Customer>, ds: seq<Driver>, os: seq<Order>, i: nat, k: nat)
    requires i < |us| && us[i].role == CustomerRole && CustomerIndexOf(cs, us[i].id) == Some(k)
    requires CustomerRoutes.StatsConsistent(cs, os)
    ensures var info := UserInfo(us[i], cs, ds, os).fields;
      info["total_orders"] == Int(cs[k].totalOrders)
      && (cs[k].totalOrders > 0 ==> info["total_spent"] == Float(cs[k].totalSpent))
  {
  }

  /* ---------- blacklist_user / unblacklist_user ---------- */

  /** The request body: the JSON document when there is one, and the form fields. */
  datatype Payload = Payload(json: Option<map<string, Value>>, form: map<string, string>)

  /** `data = request.get_json()`, or the form as a dictionary of strings when there is no JSON (Flask before 2.1, where `get_json()` answers None for a body that is not JSON). */
  function PayloadData(p: Payload): (data: map<string, Value>)
    ensures p.json.Some? ==> data == p.json.value
    ensures p.json.None? ==> data.Keys == p.form.Keys && forall k :: k in p.form ==> data[k] == Str(p.form[k])
  {
    if p.json.Some? then p.json.value else map k | k in p.form :: Str(p.form[k])
  }

  /** `data.get('reason', 'No reason provided')` */
  function Reason(p: Payload): (v: Value)
    ensures "reason" in PayloadData(p) ==> v == PayloadData(p)["reason"]
    ensures "reason" !in PayloadData(p) ==> v == Str("No reason provided")
  {
    GetOr(PayloadData(p), "reason", Str("No reason provided"))
  }

  /** A blocked user: blacklisted with the reason, and deactivated; nothing else changes. */
  function Blocked(u: User, reason: Value): (v: User)
    ensures v.isBlacklisted && !v.isActive && v.blacklistReason == reason
    ensures v.(isBlacklisted := u.isBlacklisted, isActive := u.isActive, blacklistReason := u.blacklistReason) == u
  {
    u.(isBlacklisted := true, blacklistReason := reason, isActive := false)
  }

  /** An unblocked user: off the blacklist, reason cleared, active again; nothing else changes. */
  function Unblocked(u: User): (v: User)
    ensures !v.isBlacklisted && v.isActive && v.blacklistReason == Null
    ensures v.(isBlacklisted := u.isBlacklisted, isActive := u.isActive, blacklistReason := u.blacklistReason) == u
  {
    u.(isBlacklisted := false, blacklistReason := Null, isActive := true)
  }

  /** The email as the f-string shows it; the text of a float, list or object email is not modelled. */
  function EmailText(email: Value): string {
    if HasPyStr(email) then PyStr(email) else ""
  }

  /**
   * `blacklist_user(user_id)`: the user's row is blocked and a confirmation returned; an unknown
   * id makes `get_or_404` raise, and its `NotFound` is caught by the handler's own `except`, so 500.
   * A reason the commit cannot bind (a list or an object) fails inside the same `try`: 500, and
   * the rollback leaves the row as it was.
   */
  method BlacklistUser(db: Db, userId: int, p: Payload) returns (r: Response)
    requires db.Valid()
    modifies db
    ensures db.Valid()
    ensures db.customers == old(db.customers) && db.drivers == old(db.drivers) && db.orders == old(db.orders)
    ensures match GetUser(old(db.users), userId)
      case None => r == Message(500, "Internal server error") && db.users == old(db.users)
      case Some(u) =>
        if !Bindable(Reason(p)) then r == Message(500, "Internal server error") && db.users == old(db.users)
        else
          (db.users == old(db.users)[userId - 1 := Blocked(u, Reason(p))]
           && r == Message(200, "User " + EmailText(u.email) + " has been blocked successfully"))
  {
    var found := GetUser(db.users, userId);
    if found.None? {
      return Message(500, "Internal server error");
    }
    var u := found.value;
    if !Bindable(Reason(p)) {
      return Message(500, "Internal server error");
    }
    db.users := db.users[userId - 1 := Blocked(u, Reason(p))];
    return Message(200, "User " + EmailText(u.email) + " has been blocked successfully");
  }

  /** `unblacklist_user(user_id)`: the payload is read but not used. */
  method UnblacklistUser(db: Db, userId: int, p: Payload) returns (r: Response)
    requires db.Valid()
    modifies db
    ensures db.Valid()
    ensures db.customers == old(db.customers) && db.drivers == old(db.drivers) && db.orders == old(db.orders)
    ensures match GetUser(old(db.users), userId)
      case None => r == Message(500, "Internal server error") && db.users == old(db.users)
      case Some(u) =>
        (db.users == old(db.users)[userId - 1 := Unblocked(u)]
         && r == Message(200, "User " + EmailText(u.email) + " has been unblocked successfully"))
  {
    var found := GetUser(db.users, userId);
    if found.None? {
      return Message(500, "Internal server error");
    }
    var u := found.value;
    db.users := db.users[userId - 1 := Unblocked(u)];
    return Message(200, "User " + EmailText(u.email) + " has been unblocked successfully");
  }

  /** `block_user`: an alias that calls `blacklist_user`. */
  method BlockUser(db: Db, userId: int, p: Payload) returns (r: Response)
    requires db.Valid()
    modifies db
    ensures db.Valid()
    ensures db.customers == old(db.customers) && db.drivers == old(db.drivers) && db.orders == old(db.orders)
    ensures match GetUser(old(db.users), userId)
      case None => r == Message(500, "Internal server error") && db.users == old(db.users)
      case Some(u) =>
        if !Bindable(Reason(p)) then r == Message(500, "Internal server error") && db.users == old(db.users)
        else
          (db.users == old(db.users)[userId - 1 := Blocked(u, Reason(p))]
           && r == Message(200, "User " + EmailText(u.email) + " has been blocked successfully"))
  {
    r := BlacklistUser(db, userId, p);
  }

  /** `unblock_user`: an alias that calls `unblacklist_user`. */
  method UnblockUser(db: Db, userId: int, p: Payload) returns (r: Response)
    requires db.Valid()
    modifies db
    ensures db.Valid()
    ensures db.customers == old(db.customers) && db.drivers == old(db.drivers) && db.orders == old(db.orders)
    ensures match GetUser(old(db.users), userId)
      case None => r == Message(500, "Internal server error") && db.users == old(db.users)
      case Some(u) =>
        (db.users == old(db.users)[userId - 1 := Unblocked(u)]
         && r == Message(200, "User " + EmailText(u.email) + " has been unblocked successfully"))
  {
    r := UnblacklistUser(db, userId, p);
  }

  /** Unblocking undoes blocking for a user in the state every new user starts in. */
  lemma UnblockUndoesBlock(u: User, reason: Value)
    requires u.isActive && !u.isBlacklisted && u.blacklistReason == Null
    ensures Unblocked(Blocked(u, reason)) == u
  {
  }

  /** Blocking again only replaces the reason; unblocking again changes nothing. */
  lemma BlockingIsIdempotent(u: User, r1: Value, r2: Value)
    ensures Blocked(Blocked(u, r1), r2) == Blocked(u, r2)
    ensures Unblocked(Unblocked(u)) == Unblocked(u)
  {
  }

  /** The handlers keep the two flags in step: a user is active exactly when not blacklisted. */
  predicate FlagsInStep(u: User) {
    u.isActive == !u.isBlacklisted
  }

  /** Both handlers leave the user's flags in step, whatever they were before. */
  lemma BlockingKeepsFlagsInStep(u: User, reason: Value)
    ensures FlagsInStep(Blocked(u, reason)) && FlagsInStep(Unblocked(u))
  {
  }

  /* ---------- export_orders ---------- */

  /** The header row of `orders.csv`. */
  const ExportHeader: seq<Value> :=
    [Str("id"), Str("customer_id"), Str("driver_id"), Str("status"), Str("fare_total"), Str("commission"), Str("created_at")]

  /** The CSV row of one order, cell by cell. */
  function ExportRow(o: Order): (row: seq<Value>)
    ensures |row| == |ExportHeader|
  {
    [Int(o.id), Int(o.customerId), CustomerRoutes.OptionalKey(o.driverId), Str(o.status.Value()),
     Float(o.fareTotal), Float(o.companyCommission), Str(o.createdAt)]
  }

  /** `export_orders`: the rows written to the CSV writer, the header first and then one row per order in key order. */
  method ExportOrders(db: Db) returns (rows: seq<seq<Value>>)
    ensures |rows| == |db.orders| + 1 && rows[0] == ExportHeader
    ensures forall i :: 0 <= i < |db.orders| ==> rows[i + 1] == ExportRow(db.orders[i])
  {
    rows := [ExportHeader];
    var i := 0;
    while i < |db.orders|
      invariant 0 <= i <= |db.orders| && |rows| == i + 1 && rows[0] == ExportHeader
      invariant forall j :: 0 <= j < i ==> rows[j + 1] == ExportRow(db.orders[j])
    {
      rows := rows + [ExportRow(db.orders[i])];
      i := i + 1;
    }
  }

  /** The sum of the commission column over a list of data rows. */
  function CommissionColumn(rows: seq<seq<Value>>): real {
    if rows == [] then 0.0
    else (if |rows[0]| > 5 && rows[0][5].Float? then rows[0][5].r else 0.0) + CommissionColumn(rows[1..])
  }

  /** Every row has one cell per header column, and the commission column adds up to the dashboard's unrounded revenue. */
  lemma {:induction false} ExportMatchesRevenue(os: seq<Order>, rows: seq<seq<Value>>)
    requires |rows| == |os| && forall i :: 0 <= i < |os| ==> rows[i] == ExportRow(os[i])
    ensures forall i :: 0 <= i < |rows| ==> |rows[i]| == |ExportHeader|
    ensures CommissionColumn(rows) == SumCommission(os)
  {
    if os != [] {
      ExportMatchesRevenue(os[1..], rows[1..]);
    }
  }
}
