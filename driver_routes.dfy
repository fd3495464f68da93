/**
 * The driver endpoints of `src/backend/routes/driver_routes.py`. The caller's user id is the
 * decoded token identity; `role_required('driver')` (module Security) has already admitted it.
 * A missing user or driver profile is answered with 404, an unknown order with the
 * `NotFound` abort of `get_or_404`.
 */
module DriverRoutes {
  import opened Wrappers
  import opened Json
  import opened Http
  import opened Models
  import opened Database
  import opened Pricing
  import opened Validators

  /* ---------- record updates ---------- */

  /** The order after a driver takes it: that driver's key and status "assigned". */
  function Accepted(o: Order, driverKey: nat): (o': Order)
    ensures o'.driverId == Some(driverKey) && o'.status == Assigned
    ensures o'.(driverId := o.driverId, status := o.status) == o
  {
    o.(driverId := Some(driverKey), status := Assigned)
  }

  /** The driver fields of `update_profile`: each of the four keys overwrites its column only when present. */
  function DriverWithProfile(d: Driver, data: map<string, Value>): (d': Driver)
    ensures d'.phone == GetOr(data, "phone", d.phone)
    ensures d'.licenseNumber == GetOr(data, "license_number", d.licenseNumber)
    ensures d'.vehicleType == GetOr(data, "vehicle_type", d.vehicleType)
    ensures d'.vehicleNumber == GetOr(data, "vehicle_number", d.vehicleNumber)
    ensures d'.(phone := d.phone, licenseNumber := d.licenseNumber, vehicleType := d.vehicleType,
                vehicleNumber := d.vehicleNumber) == d
  {
    var d1 := if "phone" in data then d.(phone := data["phone"]) else d;
    var d2 := if "license_number" in data then d1.(licenseNumber := data["license_number"]) else d1;
    var d3 := if "vehicle_type" in data then d2.(vehicleType := data["vehicle_type"]) else d2;
    if "vehicle_number" in data then d3.(vehicleNumber := data["vehicle_number"]) else d3
  }

  /** `if "name" in data: user.name = data["name"]` */
  function UserWithName(u: User, data: map<string, Value>): (u': User)
    ensures u'.name == GetOr(data, "name", u.name) && u'.(name := u.name) == u
  {
    if "name" in data then u.(name := data["name"]) else u
  }

  /** The `name` column is NOT NULL: a present name must be a value other than None that sqlite can bind. */
  predicate NameStorable(data: map<string, Value>) {
    "name" in data ==> data["name"] != Null && Bindable(data["name"])
  }

  /** The four driver columns `update_profile` may overwrite. */
  const ProfileColumns: seq<string> := ["phone", "license_number", "vehicle_type", "vehicle_number"]

  /** A profile update is idempotent, and a payload without any of the keys changes nothing. */
  lemma ProfileUpdateIdempotent(d: Driver, u: User, data: map<string, Value>)
    ensures DriverWithProfile(DriverWithProfile(d, data), data) == DriverWithProfile(d, data)
    ensures UserWithName(UserWithName(u, data), data) == UserWithName(u, data)
    ensures "phone" !in data && "license_number" !in data && "vehicle_type" !in data && "vehicle_number" !in data
      ==> DriverWithProfile(d, data) == d
  {
  }

  /* ---------- state-changing endpoints ---------- */

  /**
   * `accept_order`: the only guard is that the order is pending; it then records the caller's
   * driver row and the status "assigned". Nothing else changes.
   */
  method AcceptOrder(db: Db, userId: int, orderId: int) returns (r: Response)
    requires db.Valid()
    modifies db
    ensures db.Valid()
    ensures db.users == old(db.users) && db.customers == old(db.customers) && db.drivers == old(db.drivers)
    ensures var c := DriverCaller(old(db.users), old(db.drivers), userId);
      match c
      case NoUser => r == Message(404, "User not found") && db.orders == old(db.orders)
      case NoProfile => r == Message(404, "Driver profile not found") && db.orders == old(db.orders)
      case Profile(_, k) =>
        match GetOrder(old(db.orders), orderId)
        case None => r == Abort(404) && db.orders == old(db.orders)
        case Some(o) =>
          if o.status != Pending then r == Message(400, "Order not available") && db.orders == old(db.orders)
          else (r == Reply(200, Obj(map["message" := Str("Accepted"), "order_id" := Int(orderId)]))
                && db.orders == old(db.orders)[orderId - 1 := Accepted(o, old(db.drivers)[k].id)])
  {
    var c := DriverCaller(db.users, db.drivers, userId);
    if c.NoUser? {
      return Message(404, "User not found");
    }
    if c.NoProfile? {
      return Message(404, "Driver profile not found");
    }
    var found := GetOrder(db.orders, orderId);
    if found.None? {
      return Abort(404);
    }
    var o := found.value;
    if o.status != Pending {
      return Message(400, "Order not available");
    }
    db.orders := db.orders[orderId - 1 := Accepted(o, db.drivers[c.profileIndex].id)];
    return Reply(200, Obj(map["message" := Str("Accepted"), "order_id" := Int(o.id)]));
  }

  /**
   * Accepting is first come, first served: once one driver has taken an order, a second accept,
   * by the same or another driver, is refused and the order stays with the first.
   */
  method AcceptTwice(db: Db, firstUserId: int, secondUserId: int, orderId: int) returns (first: Response, second: Response)
    requires db.Valid()
    modifies db
    ensures first.Reply? && first.status == 200 ==>
      second == Message(400, "Order not available") || second == Message(404, "User not found")
      || second == Message(404, "Driver profile not found")
    ensures first.Reply? && first.status == 200 ==>
      1 <= orderId <= |db.orders| && db.orders[orderId - 1].status == Assigned
      && DriverCaller(db.users, db.drivers, firstUserId).Profile?
      && db.orders[orderId - 1].driverId == Some(db.drivers[DriverCaller(db.users, db.drivers, firstUserId).profileIndex].id)
  {
    first := AcceptOrder(db, firstUserId, orderId);
    second := AcceptOrder(db, secondUserId, orderId);
  }

  /** `update_status`: any of the six status values overwrites the order's status, whatever it was. */
  method UpdateStatus(db: Db, orderId: int, data: map<string, Value>) returns (r: Response)
    requires db.Valid()
    modifies db
    ensures db.Valid()
    ensures db.users == old(db.users) && db.customers == old(db.customers) && db.drivers == old(db.drivers)
    ensures var status := Get(data, "status");
      if !(status.Str? && ParseStatus(status.s).Some?) then r == Message(400, "Invalid status") && db.orders == old(db.orders)
      else if GetOrder(old(db.orders), orderId).None? then r == Abort(404) && db.orders == old(db.orders)
      else (r == Message(200, "Status updated")
            && db.orders == old(db.orders)[orderId - 1 := old(db.orders)[orderId - 1].(status := ParseStatus(status.s).value)])
  {
    var status := Get(data, "status");
    var values := StatusValues();
    if !(status.Str? && status.s in values) {
      if status.Str? { StatusValueMembership(status.s); }
      return Message(400, "Invalid status");
    }
    StatusValueMembership(status.s);
    var found := GetOrder(db.orders, orderId);
    if found.None? {
      return Abort(404);
    }
    db.orders := db.orders[orderId - 1 := found.value.(status := ParseStatus(status.s).value)];
    return Message(200, "Status updated");
  }

  /** `update_location`: the coordinates are validated first; only valid ones are written, exactly. */
  method UpdateLocation(db: Db, userId: int, data: map<string, Value>) returns (r: Response)
    requires db.Valid()
    modifies db
    ensures db.Valid()
    ensures db.users == old(db.users) && db.customers == old(db.customers) && db.orders == old(db.orders)
    ensures !ValidateLatLng(Get(data, "lat"), Get(data, "lng")) ==> r == Message(400, "Invalid coordinates") && db.drivers == old(db.drivers)
    ensures ValidateLatLng(Get(data, "lat"), Get(data, "lng")) ==>
      match DriverCaller(old(db.users), old(db.drivers), userId)
      case NoUser => r == Message(404, "User not found") && db.drivers == old(db.drivers)
      case NoProfile => r == Message(404, "Driver profile not found") && db.drivers == old(db.drivers)
      case Profile(_, k) =>
        (r == Message(200, "Location updated")
         && db.drivers == old(db.drivers)[k := old(db.drivers)[k].(currentLat := PyFloat(Get(data, "lat")),
                                                                  currentLng := PyFloat(Get(data, "lng")))])
  {
    if !ValidateLatLng(Get(data, "lat"), Get(data, "lng")) {
      return Message(400, "Invalid coordinates");
    }
    var c := DriverCaller(db.users, db.drivers, userId);
    if c.NoUser? {
      return Message(404, "User not found");
    }
    if c.NoProfile? {
      return Message(404, "Driver profile not found");
    }
    var d := db.drivers[c.profileIndex];
    db.drivers := db.drivers[c.profileIndex := d.(currentLat := PyFloat(data["lat"]), currentLng := PyFloat(data["lng"]))];
    return Message(200, "Location updated");
  }

  /**
   * `update_profile` for a driver: the name on the user row, four columns on the driver row. A
   * value the commit cannot store (a list or an object, or None for the name) raises, and nothing
   * is written.
   */
  method UpdateProfile(db: Db, userId: int, data: map<string, Value>) returns (r: Response)
    requires db.Valid()
    modifies db
    ensures db.Valid()
    ensures db.customers == old(db.customers) && db.orders == old(db.orders)
    ensures match DriverCaller(old(db.users), old(db.drivers), userId)
      case NoUser => r == Message(404, "User not found") && db.users == old(db.users) && db.drivers == old(db.drivers)
      case NoProfile => r == Message(404, "Driver profile not found") && db.users == old(db.users) && db.drivers == old(db.drivers)
      case Profile(i, k) =>
        if !(NameStorable(data) && FieldsBindable(data, ProfileColumns)) then
          r == Uncaught && db.users == old(db.users) && db.drivers == old(db.drivers)
        else
        (r == Message(200, "Profile updated successfully")
         && db.users == old(db.users)[i := UserWithName(old(db.users)[i], data)]
         && db.drivers == old(db.drivers)[k := DriverWithProfile(old(db.drivers)[k], data)])
  {
    var c := DriverCaller(db.users, db.drivers, userId);
    if c.NoUser? {
      return Message(404, "User not found");
    }
    if c.NoProfile? {
      return Message(404, "Driver profile not found");
    }
    if !(NameStorable(data) && FieldsBindable(data, ProfileColumns)) {
      return Uncaught;
    }
    var u := db.users[c.userIndex];
    db.users := db.users[c.userIndex := UserWithName(u, data)];
    db.drivers := db.drivers[c.profileIndex := DriverWithProfile(db.drivers[c.profileIndex], data)];
    assert forall a :: 0 <= a < |db.users| ==> db.users[a].email == old(db.users)[a].email;
    return Message(200, "Profile updated successfully");
  }

  /* ---------- read-only endpoints ---------- */

  /** One entry of `available_orders`. */
  function AvailableEntry(o: Order): (v: Value)
    ensures v.Obj? && "id" in v.fields && v.fields["id"] == Int(o.id)
    ensures "fare_total" in v.fields && v.fields["fare_total"] == Float(o.fareTotal)
    ensures "pickup" in v.fields && v.fields["pickup"] == Arr([Float(o.pickupLat), Float(o.pickupLng)])
  {
    Obj(map["id" := Int(o.id), "pickup" := Arr([Float(o.pickupLat), Float(o.pickupLng)]),
            "drop" := Arr([Float(o.dropLat), Float(o.dropLng)]), "fare_total" := Float(o.fareTotal)])
  }

  /** `available_orders`: every pending order, and nothing else, in key order. */
  function AvailableOrders(os: seq<Order>): (r: Response)
    ensures r.Reply? && r.status == 200 && r.body.Arr?
    ensures |r.body.items| == |OrdersWithStatus(os, Pending)|
    ensures forall i :: 0 <= i < |r.body.items| ==> r.body.items[i] == AvailableEntry(OrdersWithStatus(os, Pending)[i])
    ensures forall e :: e in r.body.items <==> exists o :: o in os && o.status == Pending && e == AvailableEntry(o)
  {
    var pending := OrdersWithStatus(os, Pending);
    var entries := Project(AvailableEntry, pending);
    ProjectMembers(AvailableEntry, pending);
    Reply(200, Arr(entries))
  }

  /** The orders a driver row has delivered. */
  function DeliveredBy(os: seq<Order>, driverKey: int): (r: seq<Order>)
    ensures forall o :: o in r <==> o in os && o.driverId == Some(driverKey) && o.status == Delivered
  {
    if os == [] then []
    else
      var head := if os[0].driverId == Some(driverKey) && os[0].status == Delivered then [os[0]] else [];
      head + DeliveredBy(os[1..], driverKey)
  }

  function SumDriverShare(os: seq<Order>): real {
    if os == [] then 0.0 else os[0].driverShare + SumDriverShare(os[1..])
  }

  /** `round(total, 2)` of a Python `sum`: the int 0 for no orders, a float otherwise. */
  function RoundedSum(os: seq<Order>, total: real): Value {
    if os == [] then Int(0) else Float(Round2(total))
  }

  /** `earnings`: how many of the driver's orders are delivered, and their driver shares summed and rounded to the paisa. */
  function Earnings(us: seq<User>, ds: seq<Driver>, os: seq<Order>, userId: int): (r: Response)
    ensures DriverCaller(us, ds, userId).NoUser? ==> r == Message(404, "User not found")
    ensures DriverCaller(us, ds, userId).NoProfile? ==> r == Message(404, "Driver profile not found")
    ensures DriverCaller(us, ds, userId).Profile? ==>
      var delivered := DeliveredBy(os, ds[DriverCaller(us, ds, userId).profileIndex].id);
      r == Reply(200, Obj(map["delivered_count" := Int(|delivered|),
                              "total_earnings" := RoundedSum(delivered, SumDriverShare(delivered))]))
  {
    match DriverCaller(us, ds, userId)
    case NoUser => Message(404, "User not found")
    case NoProfile => Message(404, "Driver profile not found")
    case Profile(_, k) =>
      var delivered := DeliveredBy(os, ds[k].id);
      Reply(200, Obj(map["delivered_count" := Int(|delivered|),
                         "total_earnings" := RoundedSum(delivered, SumDriverShare(delivered))]))
  }

  /** Delivering an order that was assigned to the driver adds one to the count and its share to the sum. */
  lemma {:induction false} DeliveringAddsEarnings(os: seq<Order>, k: nat, driverKey: int)
    requires k < |os| && os[k].driverId == Some(driverKey) && os[k].status != Delivered
    ensures var os' := os[k := os[k].(status := Delivered)];
      |DeliveredBy(os', driverKey)| == |DeliveredBy(os, driverKey)| + 1
      && SumDriverShare(DeliveredBy(os', driverKey)) == SumDriverShare(DeliveredBy(os, driverKey)) + os[k].driverShare
  {
    var o' := os[k].(status := Delivered);
    var os' := os[k := o'];
    assert os'[..k] == os[..k] && os'[k + 1..] == os[k + 1..];
    DeliveredBySplit(os, k, driverKey);
    DeliveredBySplit(os', k, driverKey);
    assert DeliveredBy([os[k]], driverKey) == [] by {
      assert [os[k]][1..] == [];
    }
    assert DeliveredBy([o'], driverKey) == [o'] by {
      assert [o'][1..] == [];
    }
    InsertOne(DeliveredBy(os[..k], driverKey), DeliveredBy(os[k + 1..], driverKey), o');
  }

  /** Adding one row between two runs adds one to the count and its share to the sum. */
  lemma InsertOne(a: seq<Order>, b: seq<Order>, o: Order)
    ensures |a + [o] + b| == |a + [] + b| + 1
    ensures SumDriverShare(a + [o] + b) == SumDriverShare(a + [] + b) + o.driverShare
  {
    assert a + [] + b == a + b;
    SumAppend(a, b);
    SumAppend(a + [o], b);
    SumAppend(a, [o]);
    SumCons(o, []);
  }

  /** The delivered orders of a table are those before, at and after any one row. */
  lemma DeliveredBySplit(os: seq<Order>, k: nat, driverKey: int)
    requires k < |os|
    ensures DeliveredBy(os, driverKey)
      == DeliveredBy(os[..k], driverKey) + DeliveredBy([os[k]], driverKey) + DeliveredBy(os[k + 1..], driverKey)
  {
    assert os == os[..k] + [os[k]] + os[k + 1..];
    DeliveredByAppend(os[..k] + [os[k]], os[k + 1..], driverKey);
    DeliveredByAppend(os[..k], [os[k]], driverKey);
  }

  lemma {:induction false} SumAppend(a: seq<Order>, b: seq<Order>)
    ensures SumDriverShare(a + b) == SumDriverShare(a) + SumDriverShare(b)
  {
    if a == [] {
      assert a + b == b;
    } else {
      assert (a + b)[0] == a[0] && (a + b)[1..] == a[1..] + b;
      SumAppend(a[1..], b);
    }
  }

  lemma SumCons(o: Order, os: seq<Order>)
    ensures SumDriverShare([o] + os) == o.driverShare + SumDriverShare(os)
  {
    assert ([o] + os)[1..] == os;
  }

  /** Selecting a driver's delivered orders distributes over concatenation. */
  lemma {:induction false} DeliveredByAppend(a: seq<Order>, b: seq<Order>, driverKey: int)
    ensures DeliveredBy(a + b, driverKey) == DeliveredBy(a, driverKey) + DeliveredBy(b, driverKey)
  {
    if a == [] {
      assert a + b == b;
    } else {
      assert (a + b)[0] == a[0] && (a + b)[1..] == a[1..] + b;
      DeliveredByAppend(a[1..], b, driverKey);
    }
  }
}
