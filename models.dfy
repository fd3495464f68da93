/**
 * The ORM schema shared by the route handlers: the role and order-status enumerations,
 * the rows of the user, customer, driver and order tables with their column defaults,
 * and the 9-digit public ids of customers and drivers.
 */
module Models {
  import opened Wrappers
  import opened Text
  import opened Json

  /* ---------- enumerations ---------- */

  datatype UserRole = CustomerRole | DriverRole | AdminRole {
    /** The string stored in `user.role`. */
    function Value(): string {
      match this
      case CustomerRole => "customer"
      case DriverRole => "driver"
      case AdminRole => "admin"
    }
  }

  const AllRoles: seq<UserRole> := [CustomerRole, DriverRole, AdminRole]

  /** `UserRole(s)`: the member whose value is s, if any. */
  function ParseRole(s: string): (r: Option<UserRole>)
    ensures r.Some? ==> r.value.Value() == s
  {
    if s == "customer" then Some(CustomerRole)
    else if s == "driver" then Some(DriverRole)
    else if s == "admin" then Some(AdminRole)
    else None
  }

  /** The enumeration has three members with distinct values, and parsing a value gives its member back. */
  lemma RoleValues()
    ensures |AllRoles| == 3 && forall r: UserRole :: r in AllRoles
    ensures forall r: UserRole :: ParseRole(r.Value()) == Some(r)
    ensures forall r1: UserRole, r2: UserRole :: r1.Value() == r2.Value() ==> r1 == r2
  {
    forall r: UserRole ensures r in AllRoles {
      match r
      case CustomerRole => assert AllRoles[0] == r;
      case DriverRole => assert AllRoles[1] == r;
      case AdminRole => assert AllRoles[2] == r;
    }
  }

  datatype OrderStatus = Pending | Assigned | Picked | Delivering | Delivered | Cancelled {
    /** The string stored in `order.status`. */
    function Value(): string {
      match this
      case Pending => "pending"
      case Assigned => "assigned"
      case Picked => "picked"
      case Delivering => "delivering"
      case Delivered => "delivered"
      case Cancelled => "cancelled"
    }
  }

  const AllStatuses: seq<OrderStatus> := [Pending, Assigned, Picked, Delivering, Delivered, Cancelled]

  /** `[s.value for s in OrderStatus]` */
  function StatusValues(): (values: seq<string>)
    ensures |values| == |AllStatuses|
    ensures forall i :: 0 <= i < |AllStatuses| ==> values[i] == AllStatuses[i].Value()
  {
    seq(|AllStatuses|, i requires 0 <= i < |AllStatuses| => AllStatuses[i].Value())
  }

  /** The status whose value is s, if any. */
  function ParseStatus(s: string): (st: Option<OrderStatus>)
    ensures st.Some? ==> st.value.Value() == s
  {
    if s == "pending" then Some(Pending)
    else if s == "assigned" then Some(Assigned)
    else if s == "picked" then Some(Picked)
    else if s == "delivering" then Some(Delivering)
    else if s == "delivered" then Some(Delivered)
    else if s == "cancelled" then Some(Cancelled)
    else None
  }

  /** Six statuses, each parsed back from its value. */
  lemma StatusEnumeration()
    ensures |AllStatuses| == 6 && forall st: OrderStatus :: st in AllStatuses
    ensures forall st: OrderStatus :: ParseStatus(st.Value()) == Some(st)
  {
    forall st: OrderStatus ensures st in AllStatuses {
      match st
      case Pending => assert AllStatuses[0] == st;
      case Assigned => assert AllStatuses[1] == st;
      case Picked => assert AllStatuses[2] == st;
      case Delivering => assert AllStatuses[3] == st;
      case Delivered => assert AllStatuses[4] == st;
      case Cancelled => assert AllStatuses[5] == st;
    }
  }

  /** A string is among `[s.value for s in OrderStatus]` exactly when it parses as a status. */
  lemma {:induction false} StatusValueMembership(s: string)
    ensures s in StatusValues() <==> ParseStatus(s).Some?
  {
    StatusEnumeration();
    var vs := StatusValues();
    if s in vs {
      var i :| 0 <= i < |vs| && vs[i] == s;
      assert ParseStatus(AllStatuses[i].Value()).Some?;
    }
    if ParseStatus(s).Some? {
      var st := ParseStatus(s).value;
      assert st in AllStatuses;
      var i :| 0 <= i < |AllStatuses| && AllStatuses[i] == st;
      assert vs[i] == s;
    }
  }

  /* ---------- 9-digit public ids ---------- */

  /** `random.randint(10000, 99999)` */
  type RandomPart = n: int | 10000 <= n <= 99999 witness 10000

  /** `int(time.time()) % 100000` for a clock reading of `now` whole seconds. */
  function TimestampPart(now: nat): (t: nat)
    ensures t < 100000
  {
    now % 100000
  }

  /** `int(f"{timestamp_part:05d}{random_part:05d}")` */
  function Candidate(timestampPart: nat, randomPart: RandomPart): nat {
    var text := ZeroPad(timestampPart, 5) + ZeroPad(randomPart, 5);
    DigitsValueAppend(ZeroPad(timestampPart, 5), ZeroPad(randomPart, 5));
    DigitsValue(text)
  }

  /** The digit juxtaposition is arithmetic: the timestamp part shifted five places plus the random part. */
  lemma {:induction false} CandidateValue(timestampPart: nat, randomPart: RandomPart)
    requires timestampPart < 100000
    ensures Candidate(timestampPart, randomPart) == timestampPart * 100000 + randomPart
  {
    assert Pow10(5) == 100000;
    DigitsValueAppend(ZeroPad(timestampPart, 5), ZeroPad(randomPart, 5));
  }

  /** The conditional adjustment of `candidate` to nine digits. */
  function NineDigits(candidate: nat): (id: nat)
    ensures 100000000 <= id <= 999999999
    ensures 100000000 <= candidate <= 999999999 ==> id == candidate
  {
    if candidate < 100000000 then candidate + 100000000
    else if candidate > 999999999 then
      var c := candidate % 1000000000;
      if c < 100000000 then c + 100000000 else c
    else candidate
  }

  /** `Customer.generate_unique_customer_id`, given the clock and the random draw. */
  function GenerateUniqueCustomerId(now: nat, randomPart: RandomPart): nat {
    NineDigits(Candidate(TimestampPart(now), randomPart))
  }

  /** `Driver.generate_unique_driver_id`, given the clock and the random draw. */
  function GenerateUniqueDriverId(now: nat, randomPart: RandomPart): nat {
    NineDigits(Candidate(TimestampPart(now), randomPart))
  }

  /** Every generated id has exactly nine decimal digits. */
  lemma {:induction false} GeneratedIdNineDigits(now: nat, randomPart: RandomPart)
    ensures 100000000 <= GenerateUniqueCustomerId(now, randomPart) <= 999999999
    ensures |NatToString(GenerateUniqueCustomerId(now, randomPart))| == 9
  {
    assert Pow10(8) == 100000000 && Pow10(9) == 1000000000;
    NatToStringLength(GenerateUniqueCustomerId(now, randomPart), 9);
  }

  /** The driver generator is the customer generator. */
  lemma SameGenerator(now: nat, randomPart: RandomPart)
    ensures GenerateUniqueDriverId(now, randomPart) == GenerateUniqueCustomerId(now, randomPart)
  {
  }

  /**
   * Which branch applies: a timestamp part of at least 1000 already gives nine or ten digits, and a
   * ten-digit candidate keeps its last nine digits; a smaller timestamp part gets 10^8 added.
   */
  lemma {:induction false} GeneratedIdBranches(now: nat, randomPart: RandomPart)
    ensures var t := TimestampPart(now);
      var id := GenerateUniqueCustomerId(now, randomPart);
      (t < 1000 ==> id == 100000000 + t * 100000 + randomPart)
      && (1000 <= t < 10000 ==> id == t * 100000 + randomPart)
      && (10000 <= t && (t * 100000 + randomPart) % 1000000000 >= 100000000 ==> id == (t * 100000 + randomPart) % 1000000000)
  {
    CandidateValue(TimestampPart(now), randomPart);
  }

  /** The ids are not unique: two clock readings 1000 seconds apart can yield the same id. */
  lemma IdsCollide()
    ensures GenerateUniqueCustomerId(0, 10000) == GenerateUniqueCustomerId(1000, 10000) == 100010000
  {
    CandidateValue(0, 10000);
    CandidateValue(1000, 10000);
  }

  /**
   * The `__init__` rule: an id is generated only when the keyword argument was not passed at all;
   * a passed value, even None, is kept. `kwarg` is None when the keyword is absent.
   */
  function AssignedId(kwarg: Option<Option<nat>>, generated: nat): (id: Option<nat>)
    ensures kwarg.None? ==> id == Some(generated)
    ensures kwarg.Some? ==> id == kwarg.value
  {
    match kwarg
    case None => Some(generated)
    case Some(v) => v
  }

  /* ---------- rows ---------- */

  /* A `DateTime` column is represented by its `isoformat()` text, which is all the handlers read of it. */

  /** A bcrypt hash, idealised as the password it was made from. */
  datatype PasswordHash = Hashed(secret: string)

  /** `check_password(password, pw_hash)` */
  predicate CheckPassword(password: Value, hash: PasswordHash) {
    password == Str(hash.secret)
  }

  datatype User = User(
    id: nat,
    name: Value,
    email: Value,
    passwordHash: PasswordHash,
    role: UserRole,
    isActive: bool,
    createdAt: string,
    isBlacklisted: bool,
    blacklistReason: Value)

  /** A new user row: active and not blacklisted by default. */
  function NewUser(id: nat, name: Value, email: Value, password: string, role: UserRole, now: string): (u: User)
    ensures u.isActive && !u.isBlacklisted && u.blacklistReason == Null
    ensures u.id == id && u.email == email && u.role == role && CheckPassword(Str(password), u.passwordHash)
  {
    User(id, name, email, Hashed(password), role, true, now, false, Null)
  }

  datatype Customer = Customer(
    id: nat,
    customerId: Option<nat>,
    userId: nat,
    phone: Value,
    address: Value,
    city: Value,
    state: Value,
    zipCode: Value,
    country: Value,
    totalOrders: int,
    totalSpent: real,
    loyaltyPoints: int,
    lastOrderDate: Option<string>)

  /** A new customer profile with the column defaults (country 'India', zero counters). */
  function NewCustomer(id: nat, customerId: Option<nat>, userId: nat, phone: Value, address: Value,
                       city: Value, state: Value, zipCode: Value): (c: Customer)
    ensures c.country == Str("India") && c.totalOrders == 0 && c.totalSpent == 0.0 && c.loyaltyPoints == 0
    ensures c.lastOrderDate == None && c.userId == userId && c.customerId == customerId
  {
    Customer(id, customerId, userId, phone, address, city, state, zipCode, Str("India"), 0, 0.0, 0, None)
  }

  datatype Driver = Driver(
    id: nat,
    driverId: Option<nat>,
    userId: nat,
    currentLat: Option<real>,
    currentLng: Option<real>,
    isVerified: bool,
    isAvailable: bool,
    phone: Value,
    licenseNumber: Value,
    vehicleType: Value,
    vehicleNumber: Value,
    totalDeliveries: int,
    totalEarnings: real,
    rating: real,
    ratingCount: int)

  /** A new driver profile: unverified, available, no location, zero counters. */
  function NewDriver(id: nat, driverId: Option<nat>, userId: nat, phone: Value, licenseNumber: Value,
                     vehicleType: Value, vehicleNumber: Value): (d: Driver)
    ensures !d.isVerified && d.isAvailable && d.currentLat == None && d.currentLng == None
    ensures d.totalDeliveries == 0 && d.totalEarnings == 0.0 && d.rating == 0.0 && d.ratingCount == 0
    ensures d.userId == userId && d.driverId == driverId
  {
    Driver(id, driverId, userId, None, None, false, true, phone, licenseNumber, vehicleType, vehicleNumber, 0, 0.0, 0.0, 0)
  }

  datatype Order = Order(
    id: nat,
    customerId: nat,
    driverId: Option<nat>,
    pickupAddress: Value,
    pickupLat: real,
    pickupLng: real,
    dropAddress: Value,
    dropLat: real,
    dropLng: real,
    materialType: Value,
    weightKg: real,
    distanceKm: real,
    materialPhotoUrl: Option<string>,
    materialDescription: Value,
    fareTotal: real,
    driverShare: real,
    companyCommission: real,
    status: OrderStatus,
    createdAt: string)
}
