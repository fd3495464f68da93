/**
 * The driver endpoints of `backend/routes/driver_routes.py`. They differ from those of
 * `src/` (module DriverRoutes) in having no 404 replies for a missing user or driver
 * profile: the handler dereferences `None` and the request fails with an uncaught
 * exception, before anything is written.
 */
module BackendDriverRoutes {
  import opened Wrappers
  import opened Json
  import opened Http
  import opened Models
  import opened Database
  import opened Validators
  import DriverRoutes

  /**
   * `accept_order`: the order is looked up before the driver profile is used, so an unknown
   * order is 404 and a taken one is 400 even for a caller without a profile.
   */
  method AcceptOrder(db: Db, userId: int, orderId: int) returns (r: Response)
    requires db.Valid()
    modifies db
    ensures db.Valid()
    ensures db.users == old(db.users) && db.customers == old(db.customers) && db.drivers == old(db.drivers)
    ensures var c := DriverCaller(old(db.users), old(db.drivers), userId);
      if c.NoUser? then r == Uncaught && db.orders == old(db.orders)
      else
        match GetOrder(old(db.orders), orderId)
        case None => r == Abort(404) && db.orders == old(db.orders)
        case Some(o) =>
          if o.status != Pending then r == Message(400, "Order not available") && db.orders == old(db.orders)
          else if c.NoProfile? then r == Uncaught && db.orders == old(db.orders)
          else (r == Reply(200, Obj(map["message" := Str("Accepted"), "order_id" := Int(orderId)]))
                && db.orders == old(db.orders)[orderId - 1 := DriverRoutes.Accepted(o, old(db.drivers)[c.profileIndex].id)])
  {
    var c := DriverCaller(db.users, db.drivers, userId);
    if c.NoUser? {
      return Uncaught;
    }
    var found := GetOrder(db.orders, orderId);
    if found.None? {
      return Abort(404);
    }
    var o := found.value;
    if o.status != Pending {
      return Message(400, "Order not available");
    }
    if c.NoProfile? {
      return Uncaught;
    }
    db.orders := db.orders[orderId - 1 := DriverRoutes.Accepted(o, db.drivers[c.profileIndex].id)];
    return Reply(200, Obj(map["message" := Str("Accepted"), "order_id" := Int(o.id)]));
  }

  /** Only a pending order can be taken: on any other status the table is left as it was. */
  method AcceptNonPending(db: Db, userId: int, orderId: int) returns (r: Response)
    requires db.Valid()
    requires 1 <= orderId <= |db.orders| && db.orders[orderId - 1].status != Pending
    modifies db
    ensures db.orders == old(db.orders)
    ensures r == Uncaught || r == Message(400, "Order not available")
  {
    r := AcceptOrder(db, userId, orderId);
  }

  /** `update_status`: the same code as in `src/backend/routes/driver_routes.py`. */
  method UpdateStatus(db: Db, orderId: int, data: map<string, Value>) returns (r: Response)
    requires db.Valid()
    modifies db
    ensures db.Valid()
    ensures db.users == old(db.users) && db.customers == old(db.customers) && db.drivers == old(db.drivers)
    ensures var status := Get(data, "status");
      if !(status.Str? && ParseStatus(status.s).Some?) then r == Message(400, "Invalid status") && db.orders == old(db.orders)
      else if GetOrder(old(db.orders), orderId).None? then r == Abort(404) && db.orders == old(db.orders)
      else (r == Message(200, "Status updated")
            && db.orders == old(db.orders)[orderId - 1 := old(db.orders)[orderId - 1].(status := ParseStatus(status.s).value)])
  {
    r := DriverRoutes.UpdateStatus(db, orderId, data);
  }

  /** `update_location`: validation first; only then is the caller's driver row looked up and written. */
  method UpdateLocation(db: Db, userId: int, data: map<string, Value>) returns (r: Response)
    requires db.Valid()
    modifies db
    ensures db.Valid()
    ensures db.users == old(db.users) && db.customers == old(db.customers) && db.orders == old(db.orders)
    ensures !ValidateLatLng(Get(data, "lat"), Get(data, "lng")) ==> r == Message(400, "Invalid coordinates") && db.drivers == old(db.drivers)
    ensures ValidateLatLng(Get(data, "lat"), Get(data, "lng")) ==>
      match DriverCaller(old(db.users), old(db.drivers), userId)
      case Profile(_, k) =>
        (r == Message(200, "Location updated")
         && db.drivers == old(db.drivers)[k := old(db.drivers)[k].(currentLat := PyFloat(Get(data, "lat")),
                                                                  currentLng := PyFloat(Get(data, "lng")))])
      case _ => r == Uncaught && db.drivers == old(db.drivers)
  {
    if !ValidateLatLng(Get(data, "lat"), Get(data, "lng")) {
      return Message(400, "Invalid coordinates");
    }
    var c := DriverCaller(db.users, db.drivers, userId);
    if !c.Profile? {
      return Uncaught;
    }
    var d := db.drivers[c.profileIndex];
    db.drivers := db.drivers[c.profileIndex := d.(currentLat := PyFloat(data["lat"]), currentLng := PyFloat(data["lng"]))];
    return Message(200, "Location updated");
  }

  /** `earnings`: the delivered count and the rounded sum of their driver shares, as in `src/`. */
  function Earnings(us: seq<User>, ds: seq<Driver>, os: seq<Order>, userId: int): (r: Response)
    ensures !DriverCaller(us, ds, userId).Profile? ==> r == Uncaught
    ensures DriverCaller(us, ds, userId).Profile? ==> r == DriverRoutes.Earnings(us, ds, os, userId)
  {
    match DriverCaller(us, ds, userId)
    case Profile(_, k) =>
      var delivered := DriverRoutes.DeliveredBy(os, ds[k].id);
      Reply(200, Obj(map["delivered_count" := Int(|delivered|),
                         "total_earnings" := DriverRoutes.RoundedSum(delivered, DriverRoutes.SumDriverShare(delivered))]))
    case _ => Uncaught
  }
}
