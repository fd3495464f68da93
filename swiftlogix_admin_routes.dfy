/**
 * The administrator endpoints of `swiftlogix/backend/routes/admin_routes.py`. The dashboard
 * and the export are the code of `src/` without the `try` (module AdminRoutes); the user list
 * is leaner: no blacklist fields, no aggregates, and the profile's row key in place of its
 * nine-digit id.
 */
module SwiftlogixAdminRoutes {
  import opened Wrappers
  import opened Json
  import opened Http
  import opened Models
  import opened Database
  import CustomerRoutes
  import AdminRoutes

  const BaseKeys: set<string> := {"id", "name", "email", "role", "is_active", "created_at"}

  /** The entry every user gets. */
  function BaseInfo(u: User): (m: map<string, Value>)
    ensures m.Keys == BaseKeys
  {
    map["id" := Int(u.id), "name" := u.name, "email" := u.email, "role" := Str(u.role.Value()),
        "is_active" := Bool(u.isActive), "created_at" := Str(u.createdAt)]
  }

  /** The driver part: the row's key, the flags and the position. */
  function DriverInfo(d: Driver): (m: map<string, Value>)
    ensures "driver_id" in m && m["driver_id"] == Int(d.id)
    ensures "is_verified" in m && m["is_verified"] == Bool(d.isVerified)
    ensures "is_available" in m && m["is_available"] == Bool(d.isAvailable)
    ensures "current_lat" in m && m["current_lat"] == CustomerRoutes.OptionalReal(d.currentLat)
    ensures "current_lng" in m && m["current_lng"] == CustomerRoutes.OptionalReal(d.currentLng)
    ensures m.Keys !! BaseKeys
  {
    map["driver_id" := Int(d.id), "is_verified" := Bool(d.isVerified), "is_available" := Bool(d.isAvailable),
        "current_lat" := CustomerRoutes.OptionalReal(d.currentLat),
        "current_lng" := CustomerRoutes.OptionalReal(d.currentLng)]
  }

  /** The profile part: the customer row's key, or the driver row's key, flags and position. */
  function ProfileInfo(u: User, cs: seq<Customer>, ds: seq<Driver>): (m: map<string, Value>)
    ensures m.Keys !! BaseKeys
    ensures "customer_id" in m <==> u.role == CustomerRole && CustomerIndexOf(cs, u.id).Some?
    ensures "customer_id" in m ==> m["customer_id"] == Int(cs[CustomerIndexOf(cs, u.id).value].id)
    ensures "driver_id" in m <==> u.role == DriverRole && DriverIndexOf(ds, u.id).Some?
    ensures "driver_id" in m ==> m["driver_id"] == Int(ds[DriverIndexOf(ds, u.id).value].id)
    ensures u.role == DriverRole && DriverIndexOf(ds, u.id).Some? ==> m == DriverInfo(ds[DriverIndexOf(ds, u.id).value])
  {
    if u.role == CustomerRole then
      match CustomerIndexOf(cs, u.id)
      case None => map[]
      case Some(k) => map["customer_id" := Int(cs[k].id)]
    else if u.role == DriverRole then
      match DriverIndexOf(ds, u.id)
      case None => map[]
      case Some(k) => DriverInfo(ds[k])
    else map[]
  }

  /** One entry of `get_all_users`. */
  function UserInfo(u: User, cs: seq<Customer>, ds: seq<Driver>): (v: Value)
    ensures v.Obj?
    ensures forall key :: key in BaseInfo(u) ==> key in v.fields && v.fields[key] == BaseInfo(u)[key]
  {
    Obj(BaseInfo(u) + ProfileInfo(u, cs, ds))
  }

  /** `get_all_users`: one entry per user, in key order. */
  method GetAllUsers(db: Db) returns (r: Response)
    ensures r.Reply? && r.status == 200 && r.body.Arr? && |r.body.items| == |db.users|
    ensures forall i :: 0 <= i < |db.users| ==> r.body.items[i] == UserInfo(db.users[i], db.customers, db.drivers)
  {
    var users, cs, ds := db.users, db.customers, db.drivers;
    var userData: seq<Value> := [];
    var i := 0;
    while i < |users|
      invariant 0 <= i <= |users| && |userData| == i
      invariant forall j :: 0 <= j < i ==> userData[j] == UserInfo(users[j], cs, ds)
    {
      userData := userData + [UserInfo(users[i], cs, ds)];
      i := i + 1;
    }
    return Reply(200, Arr(userData));
  }

  /** Against the `src/` list: every field both lists give every user has the same value in both. */
  lemma CommonFieldsAgree(u: User, cs: seq<Customer>, ds: seq<Driver>, os: seq<Order>)
    ensures var lean := UserInfo(u, cs, ds).fields;
      var full := AdminRoutes.UserInfo(u, cs, ds, os).fields;
      forall key :: key in BaseKeys ==> key in lean && key in full && lean[key] == full[key]
  {
    var full := AdminRoutes.UserInfo(u, cs, ds, os).fields;
    assert BaseKeys <= AdminRoutes.BaseKeys;
    forall key | key in BaseKeys
      ensures key in full && full[key] == BaseInfo(u)[key]
    {
      assert key in AdminRoutes.BaseInfo(u) && full[key] == AdminRoutes.BaseInfo(u)[key];
    }
  }

  /** A driver with a profile gets the same flags and position in both lists. */
  lemma DriverFieldsAgree(u: User, cs: seq<Customer>, ds: seq<Driver>, os: seq<Order>, k: nat)
    requires u.role == DriverRole && DriverIndexOf(ds, u.id) == Some(k)
    ensures var lean := UserInfo(u, cs, ds).fields;
      var full := AdminRoutes.UserInfo(u, cs, ds, os).fields;
      && "is_verified" in lean && "is_verified" in full && lean["is_verified"] == full["is_verified"]
      && "is_available" in lean && "is_available" in full && lean["is_available"] == full["is_available"]
      && "current_lat" in lean && "current_lat" in full && lean["current_lat"] == full["current_lat"]
      && "current_lng" in lean && "current_lng" in full && lean["current_lng"] == full["current_lng"]
  {
    var extra := AdminRoutes.DriverInfo(ds[k], os);
    assert AdminRoutes.UserInfo(u, cs, ds, os).fields == AdminRoutes.BaseInfo(u) + extra;
    assert UserInfo(u, cs, ds).fields == BaseInfo(u) + DriverInfo(ds[k]);
    assert "is_verified" in extra && "is_available" in extra && "current_lat" in extra && "current_lng" in extra;
  }

  /** A user has a `customer_id` in one list exactly when in the other: here the row key, there the nine-digit id. */
  lemma CustomerIdInBoth(u: User, cs: seq<Customer>, ds: seq<Driver>, os: seq<Order>)
    ensures ("customer_id" in UserInfo(u, cs, ds).fields) <==> ("customer_id" in AdminRoutes.UserInfo(u, cs, ds, os).fields)
  {
    AdminRoutes.ProfileKeysAreNew();
    assert "customer_id" !in BaseKeys && "customer_id" !in AdminRoutes.BaseKeys;
    assert "customer_id" in AdminRoutes.CustomerKeys && "customer_id" !in AdminRoutes.DriverKeys;
  }
}
