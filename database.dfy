/**
 * The database session the handlers share: the user, customer, driver and order tables,
 * with primary keys assigned 1, 2, 3, ... in insertion order and unique user emails.
 * Rows are never deleted by the modelled handlers, so the row with key k sits at position k - 1.
 */
module Database {
  import opened Wrappers
  import opened Json
  import opened Models

  predicate UsersNumbered(us: seq<User>) { forall i :: 0 <= i < |us| ==> us[i].id == i + 1 }
  predicate CustomersNumbered(cs: seq<Customer>) { forall i :: 0 <= i < |cs| ==> cs[i].id == i + 1 }
  predicate DriversNumbered(ds: seq<Driver>) { forall i :: 0 <= i < |ds| ==> ds[i].id == i + 1 }
  predicate OrdersNumbered(os: seq<Order>) { forall i :: 0 <= i < |os| ==> os[i].id == i + 1 }

  /** The unique constraint on `user.email`. */
  predicate EmailsUnique(us: seq<User>) {
    forall i, j :: 0 <= i < |us| && 0 <= j < |us| && us[i].email == us[j].email ==> i == j
  }

  /** `User.query.get(id)` */
  function GetUser(us: seq<User>, id: int): (u: Option<User>)
    ensures u.Some? <==> 1 <= id <= |us|
    ensures u.Some? ==> u.value == us[id - 1]
  {
    if 1 <= id <= |us| then Some(us[id - 1]) else None
  }

  /** `Order.query.get(id)` */
  function GetOrder(os: seq<Order>, id: int): (o: Option<Order>)
    ensures o.Some? <==> 1 <= id <= |os|
    ensures o.Some? ==> o.value == os[id - 1]
  {
    if 1 <= id <= |os| then Some(os[id - 1]) else None
  }

  /** `Driver.query.get(id)` */
  function GetDriver(ds: seq<Driver>, id: int): (d: Option<Driver>)
    ensures d.Some? <==> 1 <= id <= |ds|
    ensures d.Some? ==> d.value == ds[id - 1]
  {
    if 1 <= id <= |ds| then Some(ds[id - 1]) else None
  }

  /**
   * A value sqlite can bind as a query parameter or a column value. The JSON body's lists and
   * objects are not: a query or a commit that binds one raises.
   */
  predicate Bindable(v: Value) {
    !(v.Arr? || v.Obj?)
  }

  /** The commit can bind the value of every one of these request fields; an absent one is NULL. */
  predicate FieldsBindable(data: map<string, Value>, fields: seq<string>) {
    forall i :: 0 <= i < |fields| ==> Bindable(Get(data, fields[i]))
  }

  /** `User.query.filter_by(email=email).first()`: the position of the first user with that email. */
  function UserIndexByEmail(us: seq<User>, email: Value): (k: Option<nat>)
    ensures k.Some? ==> (k.value < |us| && us[k.value].email == email
                         && forall j :: 0 <= j < k.value ==> us[j].email != email)
    ensures k.None? ==> forall i :: 0 <= i < |us| ==> us[i].email != email
  {
    if us == [] then None
    else if us[0].email == email then Some(0)
    else
      var k := UserIndexByEmail(us[1..], email);
      if k.Some? then Some(k.value + 1) else None
  }

  /** A user appended under an email no earlier row has is the first match for it. */
  lemma {:induction false} UserIndexByEmailAppend(us: seq<User>, u: User)
    requires UserIndexByEmail(us, u.email).None?
    ensures UserIndexByEmail(us + [u], u.email) == Some(|us|)
  {
    if us == [] {
      assert us + [u] == [u];
    } else {
      assert (us + [u])[0] == us[0] && (us + [u])[1..] == us[1..] + [u];
      UserIndexByEmailAppend(us[1..], u);
    }
  }

  /** `user.customer_profile`: the position of the first customer row of that user. */
  function CustomerIndexOf(cs: seq<Customer>, userId: int): (k: Option<nat>)
    ensures k.Some? ==> (k.value < |cs| && cs[k.value].userId == userId
                         && forall j :: 0 <= j < k.value ==> cs[j].userId != userId)
    ensures k.None? ==> forall j :: 0 <= j < |cs| ==> cs[j].userId != userId
  {
    if cs == [] then None
    else if cs[0].userId == userId then Some(0)
    else
      var k := CustomerIndexOf(cs[1..], userId);
      if k.Some? then Some(k.value + 1) else None
  }

  /** `user.driver_profile`: the position of the first driver row of that user. */
  function DriverIndexOf(ds: seq<Driver>, userId: int): (k: Option<nat>)
    ensures k.Some? ==> (k.value < |ds| && ds[k.value].userId == userId
                         && forall j :: 0 <= j < k.value ==> ds[j].userId != userId)
    ensures k.None? ==> forall j :: 0 <= j < |ds| ==> ds[j].userId != userId
  {
    if ds == [] then None
    else if ds[0].userId == userId then Some(0)
    else
      var k := DriverIndexOf(ds[1..], userId);
      if k.Some? then Some(k.value + 1) else None
  }

  /** `customer.orders`: the orders placed by the customer row with key customerId, in key order. */
  function OrdersOfCustomer(os: seq<Order>, customerId: int): (r: seq<Order>)
    ensures forall o :: o in r <==> o in os && o.customerId == customerId
    ensures |r| <= |os|
  {
    if os == [] then []
    else (if os[0].customerId == customerId then [os[0]] else []) + OrdersOfCustomer(os[1..], customerId)
  }

  /** `driver.orders`: the orders assigned to the driver row with key driverId, in key order. */
  function OrdersOfDriver(os: seq<Order>, driverId: int): (r: seq<Order>)
    ensures forall o :: o in r <==> o in os && o.driverId == Some(driverId)
    ensures |r| <= |os|
  {
    if os == [] then []
    else (if os[0].driverId == Some(driverId) then [os[0]] else []) + OrdersOfDriver(os[1..], driverId)
  }

  /** The orders with a given status, in key order. */
  function OrdersWithStatus(os: seq<Order>, status: OrderStatus): (r: seq<Order>)
    ensures forall o :: o in r <==> o in os && o.status == status
    ensures |r| <= |os|
  {
    if os == [] then []
    else (if os[0].status == status then [os[0]] else []) + OrdersWithStatus(os[1..], status)
  }

  /** One step of the selection over a concatenation whose left part is not empty. */
  lemma OrdersWithStatusStep(a: seq<Order>, b: seq<Order>, status: OrderStatus)
    requires a != []
    ensures OrdersWithStatus(a + b, status)
         == (if a[0].status == status then [a[0]] else []) + OrdersWithStatus(a[1..] + b, status)
  {
    assert (a + b)[0] == a[0] && (a + b)[1..] == a[1..] + b;
  }

  /** Selecting by status distributes over concatenation, so it can be computed row by row. */
  lemma {:induction false} OrdersWithStatusAppend(a: seq<Order>, b: seq<Order>, status: OrderStatus)
    ensures OrdersWithStatus(a + b, status) == OrdersWithStatus(a, status) + OrdersWithStatus(b, status)
  {
    if a == [] {
      assert a + b == b;
    } else {
      OrdersWithStatusStep(a, b, status);
      OrdersWithStatusAppend(a[1..], b, status);
      var head := if a[0].status == status then [a[0]] else [];
      assert head + (OrdersWithStatus(a[1..], status) + OrdersWithStatus(b, status))
          == (head + OrdersWithStatus(a[1..], status)) + OrdersWithStatus(b, status);
    }
  }

  /** Customer selection distributes over concatenation: a new row adds to the end of the customer's orders. */
  lemma {:induction false} OrdersOfCustomerAppend(a: seq<Order>, b: seq<Order>, customerId: int)
    ensures OrdersOfCustomer(a + b, customerId) == OrdersOfCustomer(a, customerId) + OrdersOfCustomer(b, customerId)
  {
    if a == [] {
      assert a + b == b;
    } else {
      assert (a + b)[0] == a[0] && (a + b)[1..] == a[1..] + b;
      OrdersOfCustomerAppend(a[1..], b, customerId);
    }
  }

  /** A list comprehension `[entry(o) for o in os]`. */
  function Project(entry: Order -> Value, os: seq<Order>): (vs: seq<Value>)
    ensures |vs| == |os|
    ensures forall i :: 0 <= i < |os| ==> vs[i] == entry(os[i])
  {
    if os == [] then [] else [entry(os[0])] + Project(entry, os[1..])
  }

  /** The entries are exactly the images of the rows. */
  lemma ProjectMembers(entry: Order -> Value, os: seq<Order>)
    ensures forall e :: e in Project(entry, os) <==> exists o :: o in os && e == entry(o)
  {
    var vs := Project(entry, os);
    forall e | e in vs ensures exists o :: o in os && e == entry(o) {
      var i :| 0 <= i < |vs| && vs[i] == e;
      assert os[i] in os;
    }
    forall e | exists o :: o in os && e == entry(o) ensures e in vs {
      var o :| o in os && e == entry(o);
      var i :| 0 <= i < |os| && os[i] == o;
      assert vs[i] == e;
    }
  }

  /** Who is calling: no such user, a user without the expected profile, or both rows' positions. */
  datatype Caller = NoUser | NoProfile | Profile(userIndex: nat, profileIndex: nat)

  /** `user = User.query.get(user_id)` followed by `user.driver_profile`. */
  function DriverCaller(us: seq<User>, ds: seq<Driver>, userId: int): (c: Caller)
    ensures c.NoUser? <==> !(1 <= userId <= |us|)
    ensures c.Profile? ==> (c.userIndex == userId - 1 && c.userIndex < |us| && c.profileIndex < |ds|
                            && ds[c.profileIndex].userId == us[c.userIndex].id)
    ensures c.NoProfile? ==> 1 <= userId <= |us| && forall j :: 0 <= j < |ds| ==> ds[j].userId != us[userId - 1].id
  {
    match GetUser(us, userId)
    case None => NoUser
    case Some(u) =>
      match DriverIndexOf(ds, u.id)
      case None => NoProfile
      case Some(k) => Profile(userId - 1, k)
  }

  /** `user = User.query.get(user_id)` followed by `user.customer_profile`. */
  function CustomerCaller(us: seq<User>, cs: seq<Customer>, userId: int): (c: Caller)
    ensures c.NoUser? <==> !(1 <= userId <= |us|)
    ensures c.Profile? ==> (c.userIndex == userId - 1 && c.userIndex < |us| && c.profileIndex < |cs|
                            && cs[c.profileIndex].userId == us[c.userIndex].id)
    ensures c.NoProfile? ==> 1 <= userId <= |us| && forall j :: 0 <= j < |cs| ==> cs[j].userId != us[userId - 1].id
  {
    match GetUser(us, userId)
    case None => NoUser
    case Some(u) =>
      match CustomerIndexOf(cs, u.id)
      case None => NoProfile
      case Some(k) => Profile(userId - 1, k)
  }

  class Db {
    var users: seq<User>
    var customers: seq<Customer>
    var drivers: seq<Driver>
    var orders: seq<Order>

    ghost predicate Valid()
      reads this
    {
      UsersNumbered(users) && CustomersNumbered(customers) && DriversNumbered(drivers)
      && OrdersNumbered(orders) && EmailsUnique(users)
    }

    constructor ()
      ensures Valid() && users == [] && customers == [] && drivers == [] && orders == []
    {
      users, customers, drivers, orders := [], [], [], [];
    }

    /** `db.session.add(user)` for a user whose email is not in the table yet; the key is the next one. */
    method AddUser(u: User)
      requires Valid() && u.id == |users| + 1 && UserIndexByEmail(users, u.email).None?
      modifies this
      ensures Valid() && users == old(users) + [u]
      ensures customers == old(customers) && drivers == old(drivers) && orders == old(orders)
    {
      users := users + [u];
    }

    /** `db.session.add(customer)` under the next key. */
    method AddCustomer(c: Customer)
      requires Valid() && c.id == |customers| + 1
      modifies this
      ensures Valid() && customers == old(customers) + [c]
      ensures users == old(users) && drivers == old(drivers) && orders == old(orders)
    {
      customers := customers + [c];
    }

    /** `db.session.add(driver)` under the next key. */
    method AddDriver(d: Driver)
      requires Valid() && d.id == |drivers| + 1
      modifies this
      ensures Valid() && drivers == old(drivers) + [d]
      ensures users == old(users) && customers == old(customers) && orders == old(orders)
    {
      drivers := drivers + [d];
    }
  }
}
