/**
 * The customer endpoints of `instance/backend/routes/customer_routes.py`: placing an order
 * (from a JSON body or a multipart form), the simplified form order with a client-supplied
 * price, the profile update, the order list and tracking. The caller's user id is the decoded
 * token identity. Both ways of placing an order bump the customer's order count and amount
 * spent, which keeps those counters equal to what the order table says (`StatsConsistent`).
 */
module CustomerRoutes {
  import opened Wrappers
  import opened Text
  import opened Json
  import opened Http
  import opened Models
  import opened Database
  import opened Pricing
  import opened Validators
  import DriverRoutes

  const OrderFields: seq<string> :=
    ["pickup_lat", "pickup_lng", "drop_lat", "drop_lng", "pickup_address", "drop_address", "material_type", "weight_kg"]

  /** The fields converted with `float()`, in the order the handler converts them. */
  const NumericFields: seq<string> := ["pickup_lat", "pickup_lng", "drop_lat", "drop_lng", "weight_kg"]

  /* ---------- the customer counters ---------- */

  function SumFareTotal(os: seq<Order>): real {
    if os == [] then 0.0 else os[0].fareTotal + SumFareTotal(os[1..])
  }

  lemma {:induction false} SumFareTotalAppend(a: seq<Order>, b: seq<Order>)
    ensures SumFareTotal(a + b) == SumFareTotal(a) + SumFareTotal(b)
  {
    if a == [] {
      assert a + b == b;
    } else {
      assert (a + b)[0] == a[0] && (a + b)[1..] == a[1..] + b;
      SumFareTotalAppend(a[1..], b);
    }
  }

  /** Every customer's `total_orders` and `total_spent` agree with that customer's rows in the order table. */
  predicate StatsConsistent(cs: seq<Customer>, os: seq<Order>)
    ensures StatsConsistent(cs, os) ==> forall k :: 0 <= k < |cs| ==> cs[k].totalOrders <= |os|
  {
    forall k :: 0 <= k < |cs| ==>
      cs[k].totalOrders == |OrdersOfCustomer(os, cs[k].id)| && cs[k].totalSpent == SumFareTotal(OrdersOfCustomer(os, cs[k].id))
  }

  /** `total_orders += 1; total_spent += amount; last_order_date = now` */
  function Bumped(c: Customer, amount: real, now: string): (c': Customer)
    ensures c'.totalOrders == c.totalOrders + 1 && c'.totalSpent == c.totalSpent + amount && c'.lastOrderDate == Some(now)
    ensures c'.(totalOrders := c.totalOrders, totalSpent := c.totalSpent, lastOrderDate := c.lastOrderDate) == c
  {
    c.(totalOrders := c.totalOrders + 1, totalSpent := c.totalSpent + amount, lastOrderDate := Some(now))
  }

  /** Adding an order of a customer while bumping that customer's counters keeps every customer's counters right. */
  lemma {:induction false} PlacingKeepsStats(cs: seq<Customer>, os: seq<Order>, k: nat, o: Order, now: string)
    requires CustomersNumbered(cs) && k < |cs| && o.customerId == cs[k].id
    requires StatsConsistent(cs, os)
    ensures StatsConsistent(cs[k := Bumped(cs[k], o.fareTotal, now)], os + [o])
  {
    var cs' := cs[k := Bumped(cs[k], o.fareTotal, now)];
    forall j | 0 <= j < |cs'|
      ensures cs'[j].totalOrders == |OrdersOfCustomer(os + [o], cs'[j].id)|
      ensures cs'[j].totalSpent == SumFareTotal(OrdersOfCustomer(os + [o], cs'[j].id))
    {
      var id := cs[j].id;
      assert cs'[j].id == id;
      OrdersOfCustomerAppend(os, [o], id);
      assert [o][1..] == [];
      SumFareTotalAppend(OrdersOfCustomer(os, id), OrdersOfCustomer([o], id));
      if j != k {
        assert id != o.customerId;
        assert OrdersOfCustomer([o], id) == [];
      } else {
        assert OrdersOfCustomer([o], id) == [o];
      }
    }
  }

  /* ---------- the request ---------- */

  /**
   * What the client sent: the form fields (empty when the body is not a form), the file name of
   * the `material_photo` part if there is one, and the JSON body (empty when absent or falsy).
   */
  datatype Request = Request(form: map<string, string>, photo: Option<string>, json: map<string, Value>)

  /** `request.form.get(k)` */
  function FormValue(form: map<string, string>, k: string): (v: Value)
    ensures k in form ==> v == Str(form[k])
    ensures k !in form ==> v == Null
  {
    if k in form then Str(form[k]) else Null
  }

  /** The dictionary `create_order` builds from a non-empty form, or the JSON body otherwise. */
  function RequestData(req: Request): (data: map<string, Value>)
    ensures |req.form| == 0 ==> data == req.json
    ensures |req.form| > 0 ==> forall i :: 0 <= i < |OrderFields| ==> Get(data, OrderFields[i]) == FormValue(req.form, OrderFields[i])
  {
    var f := req.form;
    if |f| == 0 then req.json
    else map["pickup_lat" := FormValue(f, "pickup_lat"), "pickup_lng" := FormValue(f, "pickup_lng"),
             "drop_lat" := FormValue(f, "drop_lat"), "drop_lng" := FormValue(f, "drop_lng"),
             "pickup_address" := FormValue(f, "pickup_address"), "drop_address" := FormValue(f, "drop_address"),
             "material_type" := FormValue(f, "material_type"), "weight_kg" := FormValue(f, "weight_kg"),
             "material_description" := FormValue(f, "material_description")]
  }

  /** The placeholder URL stored for an uploaded photo with a non-empty file name. */
  function UploadUrl(photo: Option<string>): (url: Option<string>)
    ensures url.Some? <==> photo.Some? && photo.value != ""
    ensures url.Some? ==> url.value == "/uploads/" + photo.value
  {
    if photo.Some? && photo.value != "" then Some("/uploads/" + photo.value) else None
  }

  /* ---------- validation of create_order ---------- */

  /** `data.get(field) is None or data.get(field) == ''` */
  predicate Blank(data: map<string, Value>, field: string) {
    Get(data, field) == Null || Get(data, field) == Str("")
  }

  /** The first field the re-check loop would report. */
  function FirstBlank(data: map<string, Value>, fields: seq<string>): (b: Option<string>)
    ensures b.None? <==> forall i :: 0 <= i < |fields| ==> !Blank(data, fields[i])
    ensures b.Some? ==> b.value in fields && Blank(data, b.value)
  {
    if fields == [] then None
    else if Blank(data, fields[0]) then Some(fields[0])
    else
      assert forall i :: 1 <= i < |fields| ==> fields[i] == fields[1..][i - 1];
      FirstBlank(data, fields[1..])
  }

  /** The loop `for field in required: if data.get(field) is None or data.get(field) == '': return ...` */
  method CheckRequired(data: map<string, Value>, fields: seq<string>) returns (blank: Option<string>)
    ensures blank == FirstBlank(data, fields)
  {
    var i := 0;
    while i < |fields|
      invariant 0 <= i <= |fields|
      invariant FirstBlank(data, fields) == FirstBlank(data, fields[i..])
    {
      assert fields[i..][1..] == fields[i + 1..];
      if Get(data, fields[i]) == Null || Get(data, fields[i]) == Str("") {
        return Some(fields[i]);
      }
      i := i + 1;
    }
    return None;
  }

  /** The loop can never report anything: `require_fields` has already rejected every blank field. */
  lemma RecheckNeverFires(data: map<string, Value>, fields: seq<string>)
    requires RequireFields(data, fields).ok
    ensures FirstBlank(data, fields) == None
  {
    assert forall i :: 0 <= i < |fields| ==> Present(data, fields[i]);
  }

  /** `isinstance(v, (str, int, float))`; a bool passes, being an int. */
  predicate NumberLike(v: Value) {
    v.Str? || v.Int? || v.Float? || v.Bool?
  }

  /** The five `isinstance` checks, in order. */
  function TypeProblem(data: map<string, Value>, fields: seq<string>): (e: Option<string>)
    ensures e.None? <==> forall i :: 0 <= i < |fields| ==> NumberLike(Get(data, fields[i]))
    ensures e.Some? ==> exists i :: 0 <= i < |fields| && !NumberLike(Get(data, fields[i])) && e.value == "Invalid " + fields[i] + " value"
  {
    if fields == [] then None
    else if !NumberLike(Get(data, fields[0])) then Some("Invalid " + fields[0] + " value")
    else
      assert forall i :: 1 <= i < |fields| ==> fields[i] == fields[1..][i - 1];
      TypeProblem(data, fields[1..])
  }

  /** `float(v)` does not raise a `ValueError`: v is not a string, or a string holding a literal. */
  predicate StrConverts(v: Value) {
    !v.Str? || PyFloatOfString(v.s).Some?
  }

  /** The five `float()` conversions, in order: the text of the first `ValueError` raised. */
  function ConversionProblem(data: map<string, Value>, fields: seq<string>): (e: Option<string>)
    ensures e.None? <==> forall i :: 0 <= i < |fields| ==> StrConverts(Get(data, fields[i]))
  {
    if fields == [] then None
    else if !StrConverts(Get(data, fields[0])) then Some("could not convert string to float: " + PyRepr(Get(data, fields[0]).s))
    else
      assert forall i :: 1 <= i < |fields| ==> fields[i] == fields[1..][i - 1];
      ConversionProblem(data, fields[1..])
  }

  /** `float(data[field])` once the conversion is known to succeed. */
  function Num(data: map<string, Value>, field: string): real {
    PyFloat(Get(data, field)).GetOr(0.0)
  }

  /** The 400 message `create_order` answers a request body with, if any, checked in the handler's order. */
  function CreateOrderProblem(data: map<string, Value>): (m: Option<string>)
    ensures !RequireFields(data, OrderFields).ok ==> m == RequireFields(data, OrderFields).error
    ensures m.None? ==> forall i :: 0 <= i < |OrderFields| ==> Present(data, OrderFields[i])
    ensures m.None? ==> ValidateLatLng(Float(Num(data, "pickup_lat")), Float(Num(data, "pickup_lng")))
                        && ValidateLatLng(Float(Num(data, "drop_lat")), Float(Num(data, "drop_lng")))
  {
    var check := RequireFields(data, OrderFields);
    if !check.ok then check.error
    else match FirstBlank(data, OrderFields)
    case Some(field) => Some("Missing required field: " + field)
    case None =>
      if TypeProblem(data, NumericFields).Some? then TypeProblem(data, NumericFields)
      else if ConversionProblem(data, NumericFields).Some? then Some("Invalid numeric values provided: " + ConversionProblem(data, NumericFields).value)
      else if !(ValidateLatLng(Float(Num(data, "pickup_lat")), Float(Num(data, "pickup_lng")))
                && ValidateLatLng(Float(Num(data, "drop_lat")), Float(Num(data, "drop_lng")))) then Some("Invalid coordinates")
      else None
  }

  /**
   * A body passes exactly when the eight fields are supplied, the five numeric ones are numbers
   * or numeric strings, and both points lie in range. The sign of the weight is not checked.
   */
  lemma {:induction false} CreateOrderAccepts(data: map<string, Value>)
    ensures CreateOrderProblem(data).None? <==>
      (forall i :: 0 <= i < |OrderFields| ==> Present(data, OrderFields[i]))
      && (forall i :: 0 <= i < |NumericFields| ==> NumberLike(Get(data, NumericFields[i])) && PyFloat(Get(data, NumericFields[i])).Some?)
      && -90.0 <= Num(data, "pickup_lat") <= 90.0 && -180.0 <= Num(data, "pickup_lng") <= 180.0
      && -90.0 <= Num(data, "drop_lat") <= 90.0 && -180.0 <= Num(data, "drop_lng") <= 180.0
  {
    var present := forall i :: 0 <= i < |OrderFields| ==> Present(data, OrderFields[i]);
    var numeric := forall i :: 0 <= i < |NumericFields| ==> NumberLike(Get(data, NumericFields[i])) && PyFloat(Get(data, NumericFields[i])).Some?;
    assert RequireFields(data, OrderFields).ok <==> present;
    if present {
      RecheckNeverFires(data, OrderFields);
      NumericChecksPass(data, NumericFields);
      if numeric {
        CoordinatesChecked(data);
      }
    }
  }

  /** The coordinate check of `create_order`, on the converted values, is the two closed ranges. */
  lemma CoordinatesChecked(data: map<string, Value>)
    ensures (ValidateLatLng(Float(Num(data, "pickup_lat")), Float(Num(data, "pickup_lng")))
             && ValidateLatLng(Float(Num(data, "drop_lat")), Float(Num(data, "drop_lng")))) <==>
      (-90.0 <= Num(data, "pickup_lat") <= 90.0 && -180.0 <= Num(data, "pickup_lng") <= 180.0
       && -90.0 <= Num(data, "drop_lat") <= 90.0 && -180.0 <= Num(data, "drop_lng") <= 180.0)
  {
  }

  /** The type checks and the conversions both pass exactly when every field is a number `float()` accepts. */
  lemma NumericChecksPass(data: map<string, Value>, fields: seq<string>)
    ensures TypeProblem(data, fields).None? && ConversionProblem(data, fields).None? <==>
      forall i :: 0 <= i < |fields| ==> NumberLike(Get(data, fields[i])) && PyFloat(Get(data, fields[i])).Some?
  {
    forall i | 0 <= i < |fields|
      ensures NumberLike(Get(data, fields[i])) && StrConverts(Get(data, fields[i])) <==>
              NumberLike(Get(data, fields[i])) && PyFloat(Get(data, fields[i])).Some?
    {
    }
  }

  /** Any weight at all, negative included, can replace the weight of an accepted body. */
  lemma WeightSignUnchecked(data: map<string, Value>, w: real)
    requires CreateOrderProblem(data).None?
    ensures CreateOrderProblem(data["weight_kg" := Float(w)]).None?
  {
    var data' := data["weight_kg" := Float(w)];
    CreateOrderAccepts(data);
    CreateOrderAccepts(data');
    assert forall f :: f != "weight_kg" ==> Get(data', f) == Get(data, f);
    assert forall i :: 0 <= i < |OrderFields| ==> Present(data', OrderFields[i]) by {
      forall i | 0 <= i < |OrderFields| ensures Present(data', OrderFields[i]) {
        assert Present(data, OrderFields[i]);
      }
    }
    assert forall i :: 0 <= i < |NumericFields| ==> NumberLike(Get(data', NumericFields[i])) && PyFloat(Get(data', NumericFields[i])).Some? by {
      forall i | 0 <= i < |NumericFields|
        ensures NumberLike(Get(data', NumericFields[i])) && PyFloat(Get(data', NumericFields[i])).Some?
      {
        assert NumberLike(Get(data, NumericFields[i])) && PyFloat(Get(data, NumericFields[i])).Some?;
      }
    }
  }

  /* ---------- create_order ---------- */

  /** The order row `create_order` adds, with the fare of `compute_fare(distance, weight)`. */
  function PlacedOrder(id: nat, customerKey: nat, data: map<string, Value>, photoUrl: Option<string>,
                       description: Value, distanceKm: real, now: string): (o: Order)
    ensures o.id == id && o.customerId == customerKey && o.driverId == None && o.status == Pending
    ensures o.distanceKm == Round2(distanceKm) && o.weightKg == Num(data, "weight_kg")
    ensures var f := ComputeFare(distanceKm, Num(data, "weight_kg"));
      o.fareTotal == Rupees(f.total) && o.driverShare == Rupees(f.driverShare) && o.companyCommission == Rupees(f.commission)
    ensures o.pickupLat == Num(data, "pickup_lat") && o.pickupLng == Num(data, "pickup_lng")
    ensures o.dropLat == Num(data, "drop_lat") && o.dropLng == Num(data, "drop_lng")
    ensures o.pickupAddress == Get(data, "pickup_address") && o.dropAddress == Get(data, "drop_address")
    ensures o.materialType == Get(data, "material_type") && o.materialPhotoUrl == photoUrl
    ensures o.materialDescription == description && o.createdAt == now
  {
    var f := ComputeFare(distanceKm, Num(data, "weight_kg"));
    Order(id, customerKey, None, Get(data, "pickup_address"), Num(data, "pickup_lat"), Num(data, "pickup_lng"),
          Get(data, "drop_address"), Num(data, "drop_lat"), Num(data, "drop_lng"), Get(data, "material_type"),
          Num(data, "weight_kg"), Round2(distanceKm), photoUrl, description,
          Rupees(f.total), Rupees(f.driverShare), Rupees(f.commission), Pending, now)
  }

  /** The 201 reply: the new key, the fare total and the rounded distance. */
  function PlacedReply(o: Order): (r: Response)
    ensures r.Reply? && r.status == 201 && r.body.Obj?
    ensures "order_id" in r.body.fields && r.body.fields["order_id"] == Int(o.id)
    ensures "fare_total" in r.body.fields && r.body.fields["fare_total"] == Float(o.fareTotal)
  {
    Reply(201, Obj(map["order_id" := Int(o.id), "fare_total" := Float(o.fareTotal), "distance_km" := Float(o.distanceKm)]))
  }

  /** The photo URL `create_order` stores: only a form upload carries one. */
  function RequestPhotoUrl(req: Request): Option<string> {
    if |req.form| > 0 then UploadUrl(req.photo) else None
  }

  /** The text columns of a new order take these request values; the commit must bind each. */
  const OrderTextFields: seq<string> := ["pickup_address", "drop_address", "material_type"]

  /** The text values `create_order` stores, with the optional description, can all be bound. */
  predicate OrderTextBindable(data: map<string, Value>) {
    FieldsBindable(data, OrderTextFields) && Bindable(Get(data, "material_description"))
  }

  /**
   * `create_order`: validation, then the caller's customer profile, then one new pending order
   * row and the bumped counters of that customer. `distanceKm` is `haversine_km` of the two points.
   * A text value the commit cannot bind raises inside the `try`: the reply is 500 with the
   * database's message `dbError`, and nothing is written.
   */
  method CreateOrder(db: Db, userId: int, req: Request, distanceKm: real, now: string, dbError: string) returns (r: Response)
    requires db.Valid()
    modifies db
    ensures db.Valid()
    ensures db.users == old(db.users) && db.drivers == old(db.drivers)
    ensures var data := RequestData(req);
      match CreateOrderProblem(data)
      case Some(m) => r == Message(400, m) && db.customers == old(db.customers) && db.orders == old(db.orders)
      case None =>
        match CustomerCaller(old(db.users), old(db.customers), userId)
        case NoUser => r == Message(404, "User not found") && db.customers == old(db.customers) && db.orders == old(db.orders)
        case NoProfile => r == Message(404, "Customer profile not found") && db.customers == old(db.customers) && db.orders == old(db.orders)
        case Profile(_, k) =>
          if !OrderTextBindable(data) then
            r == Message(500, "Error creating order: " + dbError) && db.customers == old(db.customers) && db.orders == old(db.orders)
          else
            var o := PlacedOrder(|old(db.orders)| + 1, old(db.customers)[k].id, data, RequestPhotoUrl(req),
                                 Get(data, "material_description"), distanceKm, now);
            (r == PlacedReply(o) && db.orders == old(db.orders) + [o]
             && db.customers == old(db.customers)[k := Bumped(old(db.customers)[k], o.fareTotal, now)])
    ensures StatsConsistent(old(db.customers), old(db.orders)) ==> StatsConsistent(db.customers, db.orders)
  {
    var data := RequestData(req);
    var problem := CheckOrderBody(data);
    if problem.Some? {
      return Message(400, problem.value);
    }
    var c := CustomerCaller(db.users, db.customers, userId);
    if c.NoUser? {
      return Message(404, "User not found");
    }
    if c.NoProfile? {
      return Message(404, "Customer profile not found");
    }
    if !OrderTextBindable(data) {
      return Message(500, "Error creating order: " + dbError);
    }
    var o := PlacedOrder(|db.orders| + 1, db.customers[c.profileIndex].id, data, RequestPhotoUrl(req),
                         Get(data, "material_description"), distanceKm, now);
    Place(db, c.profileIndex, o, now);
    return PlacedReply(o);
  }

  /** The validation steps of `create_order`, in order, up to the first 400. */
  method CheckOrderBody(data: map<string, Value>) returns (problem: Option<string>)
    ensures problem == CreateOrderProblem(data)
  {
    var check := RequireFields(data, OrderFields);
    if !check.ok {
      return check.error;
    }
    var blank := CheckRequired(data, OrderFields);
    if blank.Some? {
      return Some("Missing required field: " + blank.value);
    }
    problem := TypeProblem(data, NumericFields);
    if problem.Some? {
      return problem;
    }
    problem := ConversionProblem(data, NumericFields);
    if problem.Some? {
      return Some("Invalid numeric values provided: " + problem.value);
    }
    var pickupLat, pickupLng := Num(data, "pickup_lat"), Num(data, "pickup_lng");
    var dropLat, dropLng := Num(data, "drop_lat"), Num(data, "drop_lng");
    if !(ValidateLatLng(Float(pickupLat), Float(pickupLng)) && ValidateLatLng(Float(dropLat), Float(dropLng))) {
      return Some("Invalid coordinates");
    }
    return None;
  }

  /** `db.session.add(order)` followed by the counter updates of the ordering customer. */
  method Place(db: Db, k: nat, o: Order, now: string)
    requires db.Valid() && k < |db.customers| && o.id == |db.orders| + 1 && o.customerId == db.customers[k].id
    modifies db
    ensures db.Valid()
    ensures db.users == old(db.users) && db.drivers == old(db.drivers)
    ensures db.orders == old(db.orders) + [o]
    ensures db.customers == old(db.customers)[k := Bumped(old(db.customers)[k], o.fareTotal, now)]
    ensures StatsConsistent(old(db.customers), old(db.orders)) ==> StatsConsistent(db.customers, db.orders)
  {
    ghost var cs, os := db.customers, db.orders;
    db.orders := db.orders + [o];
    db.customers := db.customers[k := Bumped(db.customers[k], o.fareTotal, now)];
    if StatsConsistent(cs, os) {
      PlacingKeepsStats(cs, os, k, o, now);
    }
  }

  /** The fare stored with a placed order splits into the driver share and commission to within a paisa. */
  lemma PlacedFareSplits(id: nat, customerKey: nat, data: map<string, Value>, photoUrl: Option<string>,
                         description: Value, distanceKm: real, now: string)
    ensures var o := PlacedOrder(id, customerKey, data, photoUrl, description, distanceKm, now);
      -0.01 <= o.driverShare + o.companyCommission - o.fareTotal <= 0.01
  {
    FareSplit(distanceKm, Num(data, "weight_kg"));
  }

  /** Because the weight's sign is unchecked, an accepted body can carry a fare below zero. */
  lemma NegativeFareAccepted(data: map<string, Value>)
    requires CreateOrderProblem(data).None?
    ensures CreateOrderProblem(data["weight_kg" := Int(-100)]).None?
    ensures PlacedOrder(1, 1, data["weight_kg" := Int(-100)], None, Null, 0.0, "").fareTotal == -470.0
  {
    WeightSignUnchecked(data, -100.0);
    var data' := data["weight_kg" := Int(-100)];
    CreateOrderAccepts(data["weight_kg" := Float(-100.0)]);
    CreateOrderAccepts(data');
    assert forall f :: f != "weight_kg" ==> Get(data', f) == Get(data["weight_kg" := Float(-100.0)], f);
    assert Num(data', "weight_kg") == -100.0;
    assert UnroundedTotal(0.0, -100.0) * 100.0 == -47000.0;
    assert RoundHalfEven(-47000.0) == -47000;
  }

  /* ---------- create_simple_order ---------- */

  /** `not request.form.get(k)`: absent or empty. */
  predicate Unfilled(form: map<string, string>, k: string) {
    k !in form || form[k] == ""
  }

  /** `float(request.form.get(k))` once the conversion is known to succeed. */
  function FormNum(form: map<string, string>, k: string): real {
    if k in form then PyFloatOfString(form[k]).GetOr(0.0) else 0.0
  }

  predicate Converts(form: map<string, string>, k: string) {
    k in form && PyFloatOfString(form[k]).Some?
  }

  /** The 400 message `create_simple_order` answers a form with, if any, in the handler's order. */
  function SimpleOrderProblem(form: map<string, string>): (m: Option<string>)
    ensures m.None? ==> !Unfilled(form, "pickup_location") && !Unfilled(form, "drop_location") && !Unfilled(form, "material_type")
  {
    if Unfilled(form, "pickup_location") then Some("Pickup location is required")
    else if Unfilled(form, "drop_location") then Some("Drop location is required")
    else if Unfilled(form, "pickup_lat") || Unfilled(form, "pickup_lng") then Some("Pickup coordinates are required")
    else if Unfilled(form, "drop_lat") || Unfilled(form, "drop_lng") then Some("Drop coordinates are required")
    else if Unfilled(form, "material_type") then Some("Material type is required")
    else if Unfilled(form, "material_weight") then Some("Material weight is required")
    else if Unfilled(form, "distance_km") then Some("Distance is required")
    else if Unfilled(form, "fare_total") then Some("Price is required")
    else if !(Converts(form, "pickup_lat") && Converts(form, "pickup_lng") && Converts(form, "drop_lat")
              && Converts(form, "drop_lng") && Converts(form, "distance_km") && Converts(form, "fare_total"))
    then Some("Coordinates, distance, and price must be valid numbers")
    else if !Converts(form, "material_weight") then Some("Material weight must be a valid number")
    else if FormNum(form, "material_weight") <= 0.0 then Some("Material weight must be greater than 0")
    else if FormNum(form, "distance_km") < 0.0 then Some("Distance cannot be negative")
    else if FormNum(form, "fare_total") < 0.0 then Some("Price cannot be negative")
    else None
  }

  /**
   * A simple order passes exactly when the eight fields are filled, the six numbers and the weight
   * convert, the weight is positive and distance and price are not negative. Coordinates are not range-checked.
   */
  lemma SimpleOrderAccepts(form: map<string, string>)
    ensures SimpleOrderProblem(form).None? <==> SimpleOrderValid(form)
  {
    EmptyNeverConverts();
    if SimpleOrderValid(form) {
      assert !Unfilled(form, "pickup_lat") && !Unfilled(form, "pickup_lng");
      assert !Unfilled(form, "drop_lat") && !Unfilled(form, "drop_lng");
      assert !Unfilled(form, "material_weight") && !Unfilled(form, "distance_km") && !Unfilled(form, "fare_total");
    }
  }

  /**
   * The eight fields filled, the six numbers and the weight converting, the weight positive and
   * distance and price not negative.
   */
  predicate SimpleOrderValid(form: map<string, string>) {
      !Unfilled(form, "pickup_location") && !Unfilled(form, "drop_location") && !Unfilled(form, "material_type")
      && Converts(form, "pickup_lat") && Converts(form, "pickup_lng") && Converts(form, "drop_lat") && Converts(form, "drop_lng")
      && Converts(form, "material_weight") && Converts(form, "distance_km") && Converts(form, "fare_total")
      && FormNum(form, "material_weight") > 0.0 && FormNum(form, "distance_km") >= 0.0 && FormNum(form, "fare_total") >= 0.0
  }

  /** `float('')` raises. */
  lemma EmptyNeverConverts()
    ensures PyFloatOfString("") == None
  {
    assert PyAsciiForm("") == "";
    assert Trim("", AsciiIsSpace) == "";
  }

  /** The row of a simple order: the client's distance and price as given, nothing set aside for the driver or the company. */
  function SimpleOrder(id: nat, customerKey: nat, form: map<string, string>, photoUrl: Option<string>, now: string): (o: Order)
    ensures o.id == id && o.customerId == customerKey && o.driverId == None && o.status == Pending
    ensures o.fareTotal == FormNum(form, "fare_total") && o.driverShare == 0.0 && o.companyCommission == 0.0
    ensures o.distanceKm == FormNum(form, "distance_km") && o.weightKg == FormNum(form, "material_weight")
    ensures o.pickupAddress == FormValue(form, "pickup_location") && o.dropAddress == FormValue(form, "drop_location")
    ensures o.pickupLat == FormNum(form, "pickup_lat") && o.pickupLng == FormNum(form, "pickup_lng")
    ensures o.dropLat == FormNum(form, "drop_lat") && o.dropLng == FormNum(form, "drop_lng")
    ensures o.materialType == FormValue(form, "material_type") && o.materialDescription == FormValue(form, "material_description")
    ensures o.materialPhotoUrl == photoUrl && o.createdAt == now
  {
    Order(id, customerKey, None, FormValue(form, "pickup_location"), FormNum(form, "pickup_lat"), FormNum(form, "pickup_lng"),
          FormValue(form, "drop_location"), FormNum(form, "drop_lat"), FormNum(form, "drop_lng"),
          FormValue(form, "material_type"), FormNum(form, "material_weight"), FormNum(form, "distance_km"),
          photoUrl, FormValue(form, "material_description"), FormNum(form, "fare_total"), 0.0, 0.0, Pending, now)
  }

  /**
   * The 201 reply of a simple order. Its "order_id" is "ORD" followed by the date-and-random code
   * of `generate_unique_order_id`, not the key of the stored row.
   */
  function SimpleReply(o: Order, orderCode: string): (r: Response)
    ensures r.Reply? && r.status == 201 && r.body.Obj?
    ensures "order_id" in r.body.fields && r.body.fields["order_id"] == Str("ORD" + orderCode)
    ensures "fare_total" in r.body.fields && r.body.fields["fare_total"] == Float(o.fareTotal)
  {
    Reply(201, Obj(map["order_id" := Str("ORD" + orderCode), "distance_km" := Float(o.distanceKm),
                       "material_weight" := Float(o.weightKg), "fare_total" := Float(o.fareTotal),
                       "message" := Str("Order created successfully!")]))
  }

  /**
   * `create_simple_order`: the form checks, then the caller's profile, then the row and the
   * counters. `orderCode` is what `generate_unique_order_id` returned.
   */
  method CreateSimpleOrder(db: Db, userId: int, form: map<string, string>, photo: Option<string>,
                           orderCode: string, now: string) returns (r: Response)
    requires db.Valid()
    modifies db
    ensures db.Valid()
    ensures db.users == old(db.users) && db.drivers == old(db.drivers)
    ensures match SimpleOrderProblem(form)
      case Some(m) => r == Message(400, m) && db.customers == old(db.customers) && db.orders == old(db.orders)
      case None =>
        match CustomerCaller(old(db.users), old(db.customers), userId)
        case NoUser => r == Message(404, "User not found") && db.customers == old(db.customers) && db.orders == old(db.orders)
        case NoProfile => r == Message(404, "Customer profile not found") && db.customers == old(db.customers) && db.orders == old(db.orders)
        case Profile(_, k) =>
          var o := SimpleOrder(|old(db.orders)| + 1, old(db.customers)[k].id, form, UploadUrl(photo), now);
          (r == SimpleReply(o, orderCode) && db.orders == old(db.orders) + [o]
           && db.customers == old(db.customers)[k := Bumped(old(db.customers)[k], o.fareTotal, now)])
    ensures StatsConsistent(old(db.customers), old(db.orders)) ==> StatsConsistent(db.customers, db.orders)
  {
    var problem := SimpleOrderProblem(form);
    if problem.Some? {
      return Message(400, problem.value);
    }
    var c := CustomerCaller(db.users, db.customers, userId);
    if c.NoUser? {
      return Message(404, "User not found");
    }
    if c.NoProfile? {
      return Message(404, "Customer profile not found");
    }
    var o := SimpleOrder(|db.orders| + 1, db.customers[c.profileIndex].id, form, UploadUrl(photo), now);
    Place(db, c.profileIndex, o, now);
    return SimpleReply(o, orderCode);
  }

  /* ---------- update_profile ---------- */

  /** The customer fields of `update_profile`: each of the six keys overwrites its column only when present. */
  function CustomerWithProfile(c: Customer, data: map<string, Value>): (c': Customer)
    ensures c'.phone == GetOr(data, "phone", c.phone) && c'.address == GetOr(data, "address", c.address)
    ensures c'.city == GetOr(data, "city", c.city) && c'.state == GetOr(data, "state", c.state)
    ensures c'.zipCode == GetOr(data, "zip_code", c.zipCode) && c'.country == GetOr(data, "country", c.country)
    ensures c'.(phone := c.phone, address := c.address, city := c.city, state := c.state,
                zipCode := c.zipCode, country := c.country) == c
  {
    var c1 := if "phone" in data then c.(phone := data["phone"]) else c;
    var c2 := if "address" in data then c1.(address := data["address"]) else c1;
    var c3 := if "city" in data then c2.(city := data["city"]) else c2;
    var c4 := if "state" in data then c3.(state := data["state"]) else c3;
    var c5 := if "zip_code" in data then c4.(zipCode := data["zip_code"]) else c4;
    if "country" in data then c5.(country := data["country"]) else c5
  }

  /** Applying the same profile update twice is the same as once. */
  lemma CustomerProfileIdempotent(c: Customer, data: map<string, Value>)
    ensures CustomerWithProfile(CustomerWithProfile(c, data), data) == CustomerWithProfile(c, data)
  {
  }

  /** The six customer columns `update_profile` may overwrite. */
  const ProfileColumns: seq<string> := ["phone", "address", "city", "state", "zip_code", "country"]

  /**
   * `update_profile` for a customer: the name on the user row, six columns on the customer row.
   * A value the commit cannot store (a list or an object, or None for the NOT NULL name) raises,
   * and nothing is written.
   */
  method UpdateProfile(db: Db, userId: int, data: map<string, Value>) returns (r: Response)
    requires db.Valid()
    modifies db
    ensures db.Valid()
    ensures db.drivers == old(db.drivers) && db.orders == old(db.orders)
    ensures match CustomerCaller(old(db.users), old(db.customers), userId)
      case NoUser => r == Message(404, "User not found") && db.users == old(db.users) && db.customers == old(db.customers)
      case NoProfile => r == Message(404, "Customer profile not found") && db.users == old(db.users) && db.customers == old(db.customers)
      case Profile(i, k) =>
        if !(DriverRoutes.NameStorable(data) && FieldsBindable(data, ProfileColumns)) then
          r == Uncaught && db.users == old(db.users) && db.customers == old(db.customers)
        else
        (r == Message(200, "Profile updated successfully")
         && db.users == old(db.users)[i := DriverRoutes.UserWithName(old(db.users)[i], data)]
         && db.customers == old(db.customers)[k := CustomerWithProfile(old(db.customers)[k], data)])
  {
    var c := CustomerCaller(db.users, db.customers, userId);
    if c.NoUser? {
      return Message(404, "User not found");
    }
    if c.NoProfile? {
      return Message(404, "Customer profile not found");
    }
    if !(DriverRoutes.NameStorable(data) && FieldsBindable(data, ProfileColumns)) {
      return Uncaught;
    }
    var u := db.users[c.userIndex];
    db.users := db.users[c.userIndex := DriverRoutes.UserWithName(u, data)];
    db.customers := db.customers[c.profileIndex := CustomerWithProfile(db.customers[c.profileIndex], data)];
    assert forall a :: 0 <= a < |db.users| ==> db.users[a].email == old(db.users)[a].email;
    return Message(200, "Profile updated successfully");
  }

  /** On a profile update the counters are columns the payload cannot reach. */
  lemma ProfileKeepsStats(cs: seq<Customer>, os: seq<Order>, k: nat, data: map<string, Value>)
    requires k < |cs| && StatsConsistent(cs, os)
    ensures StatsConsistent(cs[k := CustomerWithProfile(cs[k], data)], os)
  {
    assert forall j :: 0 <= j < |cs| ==> cs[k := CustomerWithProfile(cs[k], data)][j].id == cs[j].id;
  }

  /* ---------- my_orders and track_order ---------- */

  /** `o.driver_id` as JSON. */
  function OptionalKey(k: Option<nat>): (v: Value)
    ensures k.None? <==> v == Null
  {
    if k.Some? then Int(k.value) else Null
  }

  /** `o.current_lat` and the like as JSON. */
  function OptionalReal(x: Option<real>): (v: Value)
    ensures x.None? <==> v == Null
  {
    if x.Some? then Float(x.value) else Null
  }

  /** One entry of `my_orders`. */
  function OrderEntry(o: Order): (v: Value)
    ensures v.Obj? && "id" in v.fields && v.fields["id"] == Int(o.id)
    ensures "status" in v.fields && v.fields["status"] == Str(o.status.Value())
    ensures "driver_id" in v.fields && (v.fields["driver_id"] == Null <==> o.driverId.None?)
  {
    Obj(map["id" := Int(o.id), "status" := Str(o.status.Value()), "fare_total" := Float(o.fareTotal),
            "driver_id" := OptionalKey(o.driverId), "distance_km" := Float(o.distanceKm), "created_at" := Str(o.createdAt)])
  }

  /** `my_orders`: one entry per order of the calling customer, and only those. */
  function MyOrders(us: seq<User>, cs: seq<Customer>, os: seq<Order>, userId: int): (r: Response)
    ensures CustomerCaller(us, cs, userId).NoUser? ==> r == Message(404, "User not found")
    ensures CustomerCaller(us, cs, userId).NoProfile? ==> r == Message(404, "Customer profile not found")
    ensures CustomerCaller(us, cs, userId).Profile? ==>
      var key := cs[CustomerCaller(us, cs, userId).profileIndex].id;
      r.Reply? && r.status == 200 && r.body.Arr? && |r.body.items| == |OrdersOfCustomer(os, key)|
      && forall e :: e in r.body.items <==> exists o :: o in os && o.customerId == key && e == OrderEntry(o)
  {
    match CustomerCaller(us, cs, userId)
    case NoUser => Message(404, "User not found")
    case NoProfile => Message(404, "Customer profile not found")
    case Profile(_, k) =>
      var mine := OrdersOfCustomer(os, cs[k].id);
      ProjectMembers(OrderEntry, mine);
      Reply(200, Arr(Project(OrderEntry, mine)))
  }

  /** A newly placed order appears at the end of its customer's list, after the earlier ones. */
  lemma {:induction false} MyOrdersAfterPlacing(us: seq<User>, cs: seq<Customer>, os: seq<Order>, userId: int, o: Order)
    requires CustomerCaller(us, cs, userId).Profile? && o.customerId == cs[CustomerCaller(us, cs, userId).profileIndex].id
    ensures MyOrders(us, cs, os + [o], userId).body.items == MyOrders(us, cs, os, userId).body.items + [OrderEntry(o)]
  {
    var key := o.customerId;
    OrdersOfCustomerAppend(os, [o], key);
    assert [o][1..] == [];
    assert OrdersOfCustomer([o], key) == [o];
    var a, b := Project(OrderEntry, OrdersOfCustomer(os, key)), Project(OrderEntry, OrdersOfCustomer(os, key) + [o]);
    assert b == a + [OrderEntry(o)];
  }

  /** The `"driver"` part of a tracking reply: the assigned driver row's key and position. */
  function DriverPosition(d: Driver): Value {
    Obj(map["id" := Int(d.id), "lat" := OptionalReal(d.currentLat), "lng" := OptionalReal(d.currentLng)])
  }

  /** `order.driver`: the driver row the order points at, if any. */
  function AssignedDriver(ds: seq<Driver>, o: Order): (d: Option<Driver>)
    ensures d.Some? <==> o.driverId.Some? && 1 <= o.driverId.value <= |ds|
    ensures d.Some? ==> d.value == ds[o.driverId.value - 1]
  {
    if o.driverId.Some? then GetDriver(ds, o.driverId.value) else None
  }

  /** The reply of `track_order` once the order is found. */
  function Tracking(ds: seq<Driver>, o: Order): (r: Response)
    ensures r.Reply? && r.status == 200 && r.body.Obj?
    ensures "status" in r.body.fields && r.body.fields["status"] == Str(o.status.Value())
    ensures "driver" in r.body.fields && (r.body.fields["driver"] == Null <==> AssignedDriver(ds, o).None?)
  {
    match AssignedDriver(ds, o)
    case None => Reply(200, Obj(map["status" := Str(o.status.Value()), "driver" := Null]))
    case Some(d) => Reply(200, Obj(map["status" := Str(o.status.Value()), "driver" := DriverPosition(d)]))
  }

  /** `track_order`: the caller must be a customer with a profile, but any order can be tracked. */
  function TrackOrder(us: seq<User>, cs: seq<Customer>, ds: seq<Driver>, os: seq<Order>, userId: int, orderId: int): (r: Response)
    ensures CustomerCaller(us, cs, userId).NoUser? ==> r == Message(404, "User not found")
    ensures CustomerCaller(us, cs, userId).NoProfile? ==> r == Message(404, "Customer profile not found")
    ensures CustomerCaller(us, cs, userId).Profile? && GetOrder(os, orderId).None? ==> r == Abort(404)
    ensures CustomerCaller(us, cs, userId).Profile? && GetOrder(os, orderId).Some? ==>
      r.Reply? && r.status == 200 && r.body.Obj? && "driver" in r.body.fields
      && (r.body.fields["driver"] == Null <==> AssignedDriver(ds, os[orderId - 1]).None?)
      && r == Tracking(ds, os[orderId - 1])
  {
    match CustomerCaller(us, cs, userId)
    case NoUser => Message(404, "User not found")
    case NoProfile => Message(404, "Customer profile not found")
    case Profile(_, _) =>
      match GetOrder(os, orderId)
      case None => Abort(404)
      case Some(o) => Tracking(ds, o)
  }

  /** A freshly placed order has no driver to show. */
  lemma TrackPlacedOrder(ds: seq<Driver>, o: Order)
    requires o.driverId == None && o.status == Pending
    ensures Tracking(ds, o) == Reply(200, Obj(map["status" := Str("pending"), "driver" := Null]))
  {
  }

  /** Once a driver has accepted the order, tracking shows that driver's key and last position. */
  lemma TrackAcceptedOrder(ds: seq<Driver>, o: Order, k: nat)
    requires DriversNumbered(ds) && k < |ds|
    ensures Tracking(ds, DriverRoutes.Accepted(o, ds[k].id))
      == Reply(200, Obj(map["status" := Str("assigned"), "driver" := DriverPosition(ds[k])]))
  {
  }
}
