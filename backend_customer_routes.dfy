/**
 * The customer endpoints of `backend/routes/customer_routes.py`. Placing an order validates
 * less than in `instance/` (module CustomerRoutes), answers a missing user or profile with an
 * uncaught exception, and writes only the order row: the customer's counters are not bumped.
 */
module BackendCustomerRoutes {
  import opened Wrappers
  import opened Json
  import opened Http
  import opened Models
  import opened Database
  import opened Validators
  import opened CustomerRoutes

  /** The 400 message of `create_order`, if any: required fields, then both points. */
  function BackendOrderProblem(data: map<string, Value>): (m: Option<string>)
    ensures m.None? <==>
      (forall i :: 0 <= i < |OrderFields| ==> Present(data, OrderFields[i]))
      && ValidateLatLng(Get(data, "pickup_lat"), Get(data, "pickup_lng"))
      && ValidateLatLng(Get(data, "drop_lat"), Get(data, "drop_lng"))
  {
    var check := RequireFields(data, OrderFields);
    if !check.ok then check.error
    else if !(ValidateLatLng(Get(data, "pickup_lat"), Get(data, "pickup_lng"))
              && ValidateLatLng(Get(data, "drop_lat"), Get(data, "drop_lng"))) then Some("Invalid coordinates")
    else None
  }

  /**
   * `create_order`: the new row is pending with the `compute_fare` split; a weight that
   * `float()` rejects, a missing user or a missing profile raises before anything is written,
   * and so does a text value the commit cannot bind.
   */
  method CreateOrder(db: Db, userId: int, data: map<string, Value>, distanceKm: real, now: string) returns (r: Response)
    requires db.Valid()
    modifies db
    ensures db.Valid()
    ensures db.users == old(db.users) && db.drivers == old(db.drivers) && db.customers == old(db.customers)
    ensures match BackendOrderProblem(data)
      case Some(m) => r == Message(400, m) && db.orders == old(db.orders)
      case None =>
        match CustomerCaller(old(db.users), old(db.customers), userId)
        case Profile(_, k) =>
          if PyFloat(Get(data, "weight_kg")).None? || !FieldsBindable(data, OrderTextFields) then
            r == Uncaught && db.orders == old(db.orders)
          else
            var o := PlacedOrder(|old(db.orders)| + 1, old(db.customers)[k].id, data, None, Null, distanceKm, now);
            r == PlacedReply(o) && db.orders == old(db.orders) + [o]
        case _ => r == Uncaught && db.orders == old(db.orders)
  {
    var problem := BackendOrderProblem(data);
    if problem.Some? {
      return Message(400, problem.value);
    }
    var c := CustomerCaller(db.users, db.customers, userId);
    if c.NoUser? {
      return Uncaught;
    }
    if PyFloat(Get(data, "weight_kg")).None? || c.NoProfile? || !FieldsBindable(data, OrderTextFields) {
      return Uncaught;
    }
    var o := PlacedOrder(|db.orders| + 1, db.customers[c.profileIndex].id, data, None, Null, distanceKm, now);
    db.orders := db.orders + [o];
    return PlacedReply(o);
  }

  /**
   * Since the counters stay as they were, a successful order leaves its customer's
   * `total_orders` one behind the order table.
   */
  lemma {:induction false} PlacingLeavesStatsBehind(cs: seq<Customer>, os: seq<Order>, k: nat, o: Order)
    requires k < |cs| && o.customerId == cs[k].id && StatsConsistent(cs, os)
    ensures !StatsConsistent(cs, os + [o])
    ensures cs[k].totalOrders + 1 == |OrdersOfCustomer(os + [o], cs[k].id)|
  {
    OrdersOfCustomerAppend(os, [o], cs[k].id);
    assert [o][1..] == [];
    assert OrdersOfCustomer([o], cs[k].id) == [o];
  }

  /** `my_orders`: the same list as in `instance/`, but without a profile the handler raises. */
  function MyOrders(us: seq<User>, cs: seq<Customer>, os: seq<Order>, userId: int): (r: Response)
    ensures !CustomerCaller(us, cs, userId).Profile? ==> r == Uncaught
    ensures CustomerCaller(us, cs, userId).Profile? ==> r == CustomerRoutes.MyOrders(us, cs, os, userId)
  {
    match CustomerCaller(us, cs, userId)
    case Profile(_, k) =>
      var mine := OrdersOfCustomer(os, cs[k].id);
      Reply(200, Arr(Project(OrderEntry, mine)))
    case _ => Uncaught
  }

  /** `track_order`: no caller lookup at all; only the order must exist. */
  function TrackOrder(ds: seq<Driver>, os: seq<Order>, orderId: int): (r: Response)
    ensures GetOrder(os, orderId).None? ==> r == Abort(404)
    ensures GetOrder(os, orderId).Some? ==> r.Reply? && r.status == 200 && r.body.Obj? && "driver" in r.body.fields
    ensures GetOrder(os, orderId).Some? ==>
      (r.body.fields["driver"] == Null <==> AssignedDriver(ds, os[orderId - 1]).None?)
  {
    match GetOrder(os, orderId)
    case None => Abort(404)
    case Some(o) => Tracking(ds, o)
  }

  /** For a caller with a customer profile both tracking endpoints give the same reply. */
  lemma TrackingAgrees(us: seq<User>, cs: seq<Customer>, ds: seq<Driver>, os: seq<Order>, userId: int, orderId: int)
    requires CustomerCaller(us, cs, userId).Profile?
    ensures TrackOrder(ds, os, orderId) == CustomerRoutes.TrackOrder(us, cs, ds, os, userId, orderId)
  {
  }
}
