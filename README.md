# swiftlogix: a Dafny model of the delivery service's decision and bookkeeping logic

swiftlogix is a Flask delivery service. Customers place orders with a fare computed from
distance and weight. Drivers accept, move and deliver them. Admins watch aggregates and
blacklist users. The repository carries the same logic in several near-duplicate trees:
`src/`, `backend/`, `instance/` and `swiftlogix/`. There is also a separate small sqlite-backed service
(`app.py`, `models.py`) in which an admin's account waits for approval.

This project models the decision code and the record updates of those handlers, and proves
properties of them:

- `Pricing`: `compute_fare` in integer paise, with Python's round-half-even rounding written out.
- `Validators`, `Json`, `Text`: the server-side validators. They need Python's `float()` on
  strings and numbers, JavaScript's `parseFloat`, truthiness and `str()` of an integer.
- `ClientOrderForm`: the browser-side checks of `create_order.js`, before a request is sent.
- `Models`: the enums, the nine-digit customer and driver id generators and record defaults.
- `Database`: the shared schema. The class `Db` holds the users, customers, drivers and
  orders tables as sequences, the row at index `i` having key `i + 1`.
- `Security`, `IdentitySecurity`: the two `role_required` decisions, token layouts and the
  token error replies.
- `DriverRoutes`, `BackendDriverRoutes`, `CustomerRoutes`, `BackendCustomerRoutes`, `AdminRoutes`,
  `SwiftlogixAdminRoutes`, `AuthRoutes`, `BackendAuthRoutes`: the handlers of each tree, as
  methods on `Db` where the handler writes rows and as functions where it only reads. A
  module for a second tree states where it differs from the first and proves lemmas that
  relate the two.
- `ApprovalStore`, `ApprovalApp`: the approval service. The users table is a class whose rows
  are a map keyed by the unique email.

Each handler takes the caller's already-decoded user id and the request payload. Its outcome
is an `Http.Response`, one of:

- a JSON reply with a status;
- `Abort(code)`, the HTTP exception `get_or_404` raises;
- `Uncaught`, any other exception escaping the handler, which Flask answers with 500.

`Http.Status` is the status before any application-wide error handler. The `instance/` app
registers one for every exception (instance/backend/app.py:68-71), so there an `Abort` also
reaches the client as 500.

Clocks, random numbers, generated tokens and the e-mail outcome are parameters. The
distance is a parameter too, because haversine is not modelled, and so is the text of a
database error where a reply quotes it.

sqlite cannot bind a JSON list or object as a query parameter or a column value
(`Database.Bindable`). A handler that looks up or stores such a value raises there: the model
answers as the handler's own `except` does, or with `Uncaught` where nothing catches it, and
writes nothing.

## Model

| member | source | states |
|---|---|---|
| Pricing.RoundHalfEven | src/backend/utils/pricing.py:21-23 | Python's `round`: the nearest integer, and on a tie the even neighbour |
| Pricing.RoundHalfEvenUnique | src/backend/utils/pricing.py:21-23 | the rounding relation has exactly one solution, the function's value |
| Pricing.RoundHalfEvenMonotone | src/backend/utils/pricing.py:21-23 | rounding never reverses the order of two amounts |
| Pricing.RoundHalfEvenShift | src/backend/utils/pricing.py:21-23 | adding an integer commutes with rounding unless the amount is a tie and the integer is odd |
| Pricing.RoundHalfEvenOddShift | src/backend/utils/pricing.py:21-23 | on a tie shifted by an odd integer the two sides differ by exactly one |
| Pricing.Hundredths | src/backend/utils/pricing.py:21-23 | `round(x, 2)` in paise lies within half a paisa of 100·x |
| Pricing.ComputeFare | src/backend/utils/pricing.py:3-23 | total = round(30 + 10·distance + 5·weight, 2), commission = round(total·0.10, 2), driver share = round(total − commission, 2), in this tuple order |
| Pricing.UnroundedTotalIncreasing | src/backend/utils/pricing.py:3-20 | the unrounded total is strictly increasing in distance and in weight |
| Pricing.FareTotalMonotone | src/backend/utils/pricing.py:19-23 | the rounded total never decreases when distance or weight grows |
| Pricing.FareSplit | src/backend/utils/pricing.py:21-23 | driver share plus commission is the total exactly unless a tie meets an odd commission, and is always within one paisa of it |
| Pricing.FareSplitExact | src/backend/utils/pricing.py:21-23 | for distances and weights in hundredths, driver share plus commission equals the total |
| Pricing.FareNonNegative | src/backend/utils/pricing.py:20-23 | non-negative inputs give a total of at least 30, a commission of at least 3 and a non-negative driver share |
| Pricing.BaseOnlyFare | src/backend/utils/pricing.py:3-23 | distance 0 and weight 0 give (30.00, 27.00, 3.00) |
| Pricing.SampleFare | src/backend/utils/pricing.py:19-23 | 11.2 km and 5 kg give (167.00, 150.30, 16.70) |
| Validators.MissingFields | instance/backend/utils/validators.py:2 | the missing list is no longer than the field list |
| Validators.MissingFieldsMembers | instance/backend/utils/validators.py:2 | a name is reported iff it is listed and absent, None or "" |
| Validators.MissingFieldsAppend | instance/backend/utils/validators.py:2 | missing names come out in the order the fields are listed |
| Validators.MissingFieldsEmpty | instance/backend/utils/validators.py:2-3 | nothing is missing iff every listed field is present |
| Validators.RequireFields | instance/backend/utils/validators.py:1-5 | (True, None) iff every field is present; otherwise "Missing fields: " and the missing names joined by ", " |
| Validators.EmptyValueIsMissing | instance/backend/utils/validators.py:2 | a key present with None or "" counts as missing |
| Validators.ValidateLatLng | instance/backend/utils/validators.py:8-16 | true iff both values convert with `float()` and −90 ≤ lat ≤ 90 and −180 ≤ lng ≤ 180, bounds inclusive; a failed conversion gives false |
| Validators.RangeCorners | instance/backend/utils/validators.py:12 | the corners ±90 and ±180 pass; 90.5, 181, None and a list fail |
| Json.PyFloat | instance/backend/utils/validators.py:10-11 | `float()` of an int or a float is its value; of None, a list or an object it fails |
| Json.PyFloatOfString | instance/backend/utils/validators.py:10-11 | `float()` of a string succeeds only when its ASCII form, stripped of ASCII whitespace, is one whole signed decimal number |
| Json.PyDecimal | instance/backend/utils/validators.py:10-11 | a decimal digit of any script has a value below ten; an ASCII digit has its usual value |
| Json.PyAsciiChar | instance/backend/utils/validators.py:10-11 | ASCII is kept, other whitespace becomes a space, a digit of any script becomes the ASCII digit of the same value |
| Json.PyFloatOfAsciiForm | instance/backend/utils/validators.py:10-11 | `float()` reads a string exactly as it reads its ASCII form |
| Json.PyFloatOfDigits | instance/backend/routes/customer_routes.py:220-231 | a run of ASCII digits reads as the number it spells |
| Json.PyFloatOfNumeral | instance/backend/routes/customer_routes.py:220-231 | the decimal numeral of n reads as n |
| Json.PyReadsDevanagari | instance/backend/routes/customer_routes.py:122-126 | "१२" in Devanagari digits reads as 12.0 |
| Json.PyRefusesSeparator | instance/backend/routes/customer_routes.py:122-126 | the file separator U+001C is whitespace for `str.isspace` but `float()` refuses "\x1c1" |
| Json.JsParseString | frontend/static/js/create_order.js:38 | `parseFloat` yields a finite number only from a numeric prefix of the text, and only below the double overflow bound |
| Json.JsParseFloat | frontend/static/js/create_order.js:38 | an int or a float reads as itself; only numbers and strings can read as a finite number |
| Json.ParsersDisagreeOnTrailingText | frontend/static/js/create_order.js:38 | "12kg" passes the browser's `parseFloat` as 12 but fails the server's `float()` |
| Models.ParseRole | instance/backend/models.py:6-9 | a parsed role spells the given text |
| Models.RoleValues | instance/backend/models.py:6-9 | UserRole has exactly three values, each parsed back from its text, with distinct texts |
| Models.StatusValues | instance/backend/models.py:106-112 | the list of status texts follows the enumeration |
| Models.ParseStatus | instance/backend/models.py:106-112 | a parsed status spells the given text |
| Models.StatusEnumeration | instance/backend/models.py:106-112 | OrderStatus has exactly six values, each parsed back from its text |
| Models.StatusValueMembership | instance/backend/models.py:106-112 | a text is among the status values iff it parses as a status |
| Models.TimestampPart | instance/backend/models.py:53 | the timestamp part is below 100000 |
| Models.CandidateValue | instance/backend/models.py:53-55 | candidate = timestamp part · 100000 + random part |
| Models.NineDigits | instance/backend/models.py:56-63 | the normalised id lies in [100000000, 999999999], and a candidate already there is kept |
| Models.GeneratedIdNineDigits | instance/backend/models.py:48-63 | every generated customer id has exactly nine decimal digits |
| Models.SameGenerator | instance/backend/models.py:48-104 | the driver-id generator computes the same function as the customer-id generator |
| Models.GeneratedIdBranches | instance/backend/models.py:53-63 | the three normalisation branches, by size of the timestamp part |
| Models.IdsCollide | instance/backend/models.py:53-63 | two different clocks can give the same id, so the generator alone does not make ids unique |
| Models.AssignedId | instance/backend/models.py:42-46 | an id is generated only when none is passed; a passed id, None included, is kept |
| Models.NewUser | instance/backend/models.py:11-21 | a new user is active, not blacklisted, without a reason, and its hash checks against the password |
| Models.NewCustomer | instance/backend/models.py:26-40 | a new customer profile has country "India", zero totals and loyalty points, and no last order date |
| Models.NewDriver | instance/backend/models.py:65-81 | a new driver is unverified and available, without a location, with zero deliveries, earnings and rating |
| Database.GetOrder | src/backend/routes/driver_routes.py:129 | `get_or_404` finds the order iff its key is in the table, and returns the row with that key |
| Database.GetUser | instance/backend/routes/customer_routes.py:135 | `query.get` finds the user iff its key is in the table, and returns the row with that key |
| Database.DriverCaller | src/backend/routes/driver_routes.py:118-127 | the caller's user row, then their driver profile, or which of the two is missing |
| Database.CustomerCaller | instance/backend/routes/customer_routes.py:133-143 | the caller's user row, then their customer profile, or which of the two is missing |
| Database.UserIndexByEmail | instance/backend/routes/auth_routes.py:98 | the first user with that email (no earlier row has it), or None when no user has it |
| Database.UserIndexByEmailAppend | instance/backend/routes/auth_routes.py:27-35 | a user added under an email no row has is the one the lookup then finds |
| Database.CustomerIndexOf | instance/backend/routes/customer_routes.py:140 | the first customer row of that user, or None when the user has none |
| Database.DriverIndexOf | src/backend/routes/driver_routes.py:22 | the first driver row of that user, or None when the user has none |
| Database.OrdersOfCustomer | src/backend/routes/admin_routes.py:61 | exactly the orders of that customer key |
| Database.OrdersWithStatus | src/backend/routes/admin_routes.py:19-23 | exactly the orders with that status |
| DriverRoutes.Accepted | src/backend/routes/driver_routes.py:132-133 | accepting sets the driver key and status "assigned" and changes nothing else |
| DriverRoutes.DriverWithProfile | src/backend/routes/driver_routes.py:66-73 | each of the four driver columns takes the payload's value when the key is present and keeps its own otherwise; nothing else changes |
| DriverRoutes.UserWithName | src/backend/routes/driver_routes.py:62-63 | the name changes only when the payload has one |
| DriverRoutes.ProfileUpdateIdempotent | src/backend/routes/driver_routes.py:62-73 | applying the same profile update twice equals applying it once; an update without the keys changes nothing |
| DriverRoutes.AcceptOrder | src/backend/routes/driver_routes.py:114-135 | 404 for an unknown user or profile, the abort for an unknown order, 400 "Order not available" with no change unless pending; otherwise only that order gets the caller's driver key and "assigned" |
| DriverRoutes.AcceptTwice | src/backend/routes/driver_routes.py:129-133 | after one accept succeeds, a second accept of the same order is refused and the order stays with the first driver |
| DriverRoutes.UpdateStatus | src/backend/routes/driver_routes.py:159-169 | a string outside the six statuses is 400 with no change; otherwise the order's status is overwritten from any state, with no ownership check |
| DriverRoutes.UpdateLocation | src/backend/routes/driver_routes.py:137-157 | invalid coordinates are 400 and leave the driver untouched; valid ones set exactly the caller's latitude and longitude |
| DriverRoutes.UpdateProfile | src/backend/routes/driver_routes.py:45-77 | only the caller's user name and driver columns named in the payload change; a None name or a list or object value raises and changes nothing |
| DriverRoutes.AvailableOrders | src/backend/routes/driver_routes.py:79-84 | one entry per pending order, in key order, and no other entries |
| DriverRoutes.AvailableEntry | src/backend/routes/driver_routes.py:84 | the entry carries the order's key, its fare and its pickup point as a pair |
| DriverRoutes.DeliveredBy | src/backend/routes/driver_routes.py:185 | exactly the delivered orders of that driver |
| DriverRoutes.Earnings | src/backend/routes/driver_routes.py:171-187 | the delivered count and the rounded sum of the driver shares over the driver's delivered orders |
| DriverRoutes.DeliveringAddsEarnings | src/backend/routes/driver_routes.py:185-187 | delivering one of the driver's orders adds one to the count and its share to the sum |
| BackendDriverRoutes.AcceptOrder | backend/routes/driver_routes.py:17-30 | as in `src/`, but a missing user or profile raises, and the order status is tested before the profile |
| BackendDriverRoutes.AcceptNonPending | backend/routes/driver_routes.py:25-26 | accepting a non-pending order leaves the orders unchanged |
| BackendDriverRoutes.UpdateLocation | backend/routes/driver_routes.py:32-44 | the location is written only after validation succeeds, exactly as given |
| BackendDriverRoutes.UpdateStatus | backend/routes/driver_routes.py:46-56 | any of the six statuses overwrites the status from any state; other strings are 400 |
| BackendDriverRoutes.Earnings | backend/routes/driver_routes.py:58-66 | the same count and rounded sum as in `src/`, with a missing profile raising |
| CustomerRoutes.Bumped | instance/backend/routes/customer_routes.py:170-173 | placing raises total_orders by exactly 1 and total_spent by the fare, and sets the last order date; nothing else changes |
| CustomerRoutes.StatsConsistent | instance/backend/routes/customer_routes.py:170-172 | when the counters match the orders, no customer counts more orders than the table holds |
| CustomerRoutes.PlacingKeepsStats | instance/backend/routes/customer_routes.py:168-173 | when each customer's counters match their orders, they still match after an order is placed and counted |
| CustomerRoutes.FormValue | instance/backend/routes/customer_routes.py:62-74 | a form field present is its text, an absent one None |
| CustomerRoutes.RequestData | instance/backend/routes/customer_routes.py:62-87 | a form request is read from its fields, any other request from its JSON body |
| CustomerRoutes.UploadUrl | instance/backend/routes/customer_routes.py:78-83 | a non-empty upload is stored at "/uploads/" + its file name; otherwise there is no URL |
| CustomerRoutes.FirstBlank | instance/backend/routes/customer_routes.py:97-101 | None iff no listed field is blank; otherwise a blank listed field |
| CustomerRoutes.CheckRequired | instance/backend/routes/customer_routes.py:97-101 | the loop finds the first blank field |
| CustomerRoutes.RecheckNeverFires | instance/backend/routes/customer_routes.py:92-101 | after `require_fields` has passed, the second check finds nothing |
| CustomerRoutes.TypeProblem | instance/backend/routes/customer_routes.py:111-120 | None iff every numeric field is a number or a string; otherwise the "Invalid … value" message of a failing field |
| CustomerRoutes.ConversionProblem | instance/backend/routes/customer_routes.py:122-128 | None iff every numeric string converts with `float()` |
| CustomerRoutes.CreateOrderProblem | instance/backend/routes/customer_routes.py:88-131 | a failed `require_fields` gives its own message first; an accepted body has every field and two points in range |
| CustomerRoutes.CreateOrderAccepts | instance/backend/routes/customer_routes.py:88-131 | a body is accepted iff every field is present, every numeric field converts and both points are in range |
| CustomerRoutes.WeightSignUnchecked | instance/backend/routes/customer_routes.py:119-131 | an accepted body stays accepted with any weight, so the weight's sign is not checked |
| CustomerRoutes.PlacedOrder | instance/backend/routes/customer_routes.py:145-165 | a new order is pending, without a driver, with distance round(d, 2), the `compute_fare` split and the body's fields |
| CustomerRoutes.PlacedReply | instance/backend/routes/customer_routes.py:176 | 201 with the new order's key and its fare |
| CustomerRoutes.CreateOrder | instance/backend/routes/customer_routes.py:53-181 | a failing check is 400 before any write; an unknown user or profile is 404; a text value the commit cannot bind is 500 "Error creating order: " with the error text and no write; otherwise exactly one order is appended and the caller's counters bumped, and consistent counters stay consistent |
| CustomerRoutes.CheckOrderBody | instance/backend/routes/customer_routes.py:88-131 | the checks stop at the first message, in the handler's order |
| CustomerRoutes.Place | instance/backend/routes/customer_routes.py:167-173 | the order is appended, only the customer's counters are bumped, and consistent counters stay consistent |
| CustomerRoutes.PlacedFareSplits | instance/backend/routes/customer_routes.py:146-159 | a placed order's driver share plus commission is within one paisa of its fare |
| CustomerRoutes.NegativeFareAccepted | instance/backend/routes/customer_routes.py:119-146 | an accepted body with weight −100 is placed with a fare of −470 |
| CustomerRoutes.SimpleOrderAccepts | instance/backend/routes/customer_routes.py:198-241 | the simple order is accepted iff every field is filled, every number converts, weight > 0, distance ≥ 0 and fare ≥ 0 |
| CustomerRoutes.SimpleOrderProblem | instance/backend/routes/customer_routes.py:200-241 | an accepted form has the two locations and the material type filled in |
| CustomerRoutes.EmptyNeverConverts | instance/backend/routes/customer_routes.py:218-227 | an empty text never converts with `float()` |
| CustomerRoutes.SimpleOrder | instance/backend/routes/customer_routes.py:266-284 | the simple order stores the client's fare with a driver share and commission of 0 |
| CustomerRoutes.CreateSimpleOrder | instance/backend/routes/customer_routes.py:183-306 | a failing check is 400 with no write; otherwise one order is appended and the caller's counters bumped |
| CustomerRoutes.SimpleReply | instance/backend/routes/customer_routes.py:295-301 | 201 with "ORD" and the generated code as the order id, and the stored fare |
| CustomerRoutes.CustomerWithProfile | instance/backend/routes/customer_routes.py:433-446 | each of the six columns takes the payload's value when present; nothing else changes |
| CustomerRoutes.CustomerProfileIdempotent | instance/backend/routes/customer_routes.py:433-446 | the same update twice equals it once |
| CustomerRoutes.UpdateProfile | instance/backend/routes/customer_routes.py:412-448 | only the caller's name and the profile columns named in the payload change; a None name or a list or object value raises and changes nothing |
| CustomerRoutes.ProfileKeepsStats | instance/backend/routes/customer_routes.py:433-446 | a profile update keeps consistent counters consistent |
| CustomerRoutes.MyOrders | instance/backend/routes/customer_routes.py:323-348 | one entry for each order of the calling customer and no others |
| CustomerRoutes.OrderEntry | instance/backend/routes/customer_routes.py:338-347 | the entry carries the order's key and status, and a null driver exactly when none is assigned |
| CustomerRoutes.MyOrdersAfterPlacing | instance/backend/routes/customer_routes.py:338-348 | a newly placed order appears last in its customer's list, after the earlier ones |
| CustomerRoutes.AssignedDriver | instance/backend/routes/customer_routes.py:366-367 | the order's driver is the row its driver key names, if any |
| CustomerRoutes.TrackOrder | instance/backend/routes/customer_routes.py:350-375 | the driver is None iff no driver row is assigned; otherwise that driver's key and position are shown |
| CustomerRoutes.Tracking | instance/backend/routes/customer_routes.py:366-375 | 200 with the order's status, and a null driver exactly when no driver row is assigned |
| CustomerRoutes.TrackPlacedOrder | instance/backend/routes/customer_routes.py:366-367 | a freshly placed order shows "pending" and no driver |
| CustomerRoutes.TrackAcceptedOrder | instance/backend/routes/customer_routes.py:368-375 | an accepted order shows "assigned" and that driver's position |
| BackendCustomerRoutes.BackendOrderProblem | backend/routes/customer_routes.py:14-24 | a body is accepted iff every field is present and both points are valid coordinates |
| BackendCustomerRoutes.CreateOrder | backend/routes/customer_routes.py:11-52 | a failing check is 400; a bad weight, a missing user or profile, or a text value the commit cannot bind raises with no write; otherwise only the new pending order with the `compute_fare` split is written |
| BackendCustomerRoutes.PlacingLeavesStatsBehind | backend/routes/customer_routes.py:33-50 | placing an order here leaves the customer's counter one short of their orders |
| BackendCustomerRoutes.MyOrders | backend/routes/customer_routes.py:54-70 | the same list as in `instance/`, with a missing profile raising |
| BackendCustomerRoutes.TrackOrder | backend/routes/customer_routes.py:72-85 | the abort for an unknown order; otherwise driver None iff no driver row is assigned |
| BackendCustomerRoutes.TrackingAgrees | backend/routes/customer_routes.py:72-85 | for a customer with a profile, both trees' tracking replies are equal |
| ClientOrderForm.MissingFieldsSound | frontend/static/js/create_order.js:19-28 | every reported name is required and undefined, null or blank |
| ClientOrderForm.MissingFields | frontend/static/js/create_order.js:25-28 | the missing list is no longer than the required list |
| ClientOrderForm.MissingFieldsComplete | frontend/static/js/create_order.js:25-28 | every blank required field is reported |
| ClientOrderForm.MissingFieldsInOrder | frontend/static/js/create_order.js:25-28 | missing names come out in required-field order |
| ClientOrderForm.FieldError | frontend/static/js/create_order.js:38-61 | a field passes iff it parses to a finite number in its range; an unparsable one is "… must be a valid number" |
| ClientOrderForm.FirstNumericError | frontend/static/js/create_order.js:35-62 | no error iff every numeric field passes |
| ClientOrderForm.FirstNumericErrorSpec | frontend/static/js/create_order.js:35-62 | an error is that of a field every earlier field of which passes |
| ClientOrderForm.CheckNumericFields | frontend/static/js/create_order.js:35-62 | the loop finds the first failing field's error |
| ClientOrderForm.Serialized | frontend/static/js/create_order.js:65-72 | a finite number is sent as that number, as an int exactly when it is integral and below 10^21 in magnitude; anything else as null |
| ClientOrderForm.ParsedData | frontend/static/js/create_order.js:65-72 | the sent body keeps every other key and replaces each numeric field by its parsed value |
| ClientOrderForm.Decide | frontend/static/js/create_order.js:17-78 | a request goes out only with nothing missing, no numeric error and a non-empty token, carrying the parsed body and that token as bearer |
| ClientOrderForm.CreateOrder | frontend/static/js/create_order.js:17-78 | the method decides as the specification function does |
| ClientOrderForm.MissingFieldsFirst | frontend/static/js/create_order.js:30-36 | missing fields are reported before any numeric check |
| ClientOrderForm.SendIff | frontend/static/js/create_order.js:19-78 | a request is sent iff nothing is missing, every numeric field passes and there is a token, with the token as bearer |
| ClientOrderForm.SentBodyInRange | frontend/static/js/create_order.js:35-72 | a sent body carries in-range coordinates and a positive weight |
| ClientOrderForm.FirstFailingFieldWins | frontend/static/js/create_order.js:35-62 | with two bad fields the first one in list order decides the message |
| Security.MakeAccessToken | src/backend/utils/security.py:18-27 | the identity is `str(id)` and the only extra claim is "role", the given role |
| Security.Payload | src/backend/utils/security.py:24-27 | the token carries the identity as `sub` beside the claims |
| Security.TokenErrorReply | src/backend/utils/security.py:31-52 | each token failure is answered with 401 and its callback's message |
| Security.TokenErrorsDistinct | src/backend/utils/security.py:31-52 | the four failures have distinct replies, all 401 |
| Security.RoleRequired | src/backend/utils/security.py:55-82 | 403 "Forbidden" unless identity and role are truthy and the role allowed; otherwise the handler's reply, with anything raised turned into 401 |
| Security.RefusalIgnoresHandler | src/backend/utils/security.py:72-74 | a refused request gets 403 whatever the handler would have done |
| Security.IssuedTokenAdmitted | src/backend/utils/security.py:18-76 | a token issued for an allowed role is admitted and the handler's reply returned, even for user id 0 |
| Security.IssuedTokenRefused | src/backend/utils/security.py:72-74 | a token for a role outside the list, or for no role, is refused |
| Security.MissingIdIsTruthy | src/backend/utils/security.py:20-25 | a dictionary without an id gives the truthy identity "None" |
| Security.NotFoundBecomesAuthError | src/backend/utils/security.py:76-80 | an admitted request whose handler aborts with 404 is answered 401 |
| Security.RoleRequiredPassingAborts | src/backend/utils/security.py:55-82 | the corrected decorator: aborts pass through with their own code; other exceptions are 401 |
| Security.AbortsKeepTheirStatus | src/backend/utils/security.py:55-82 | with aborts passed through, an admitted request keeps its handler's status, and replies agree with the original |
| IdentitySecurity.MakeAccessToken | swiftlogix/backend/utils/security.py:18-19 | the whole identity dictionary is the token identity |
| IdentitySecurity.RoleRequired | swiftlogix/backend/utils/security.py:22-30 | 403 for an empty identity or a role not allowed; otherwise the handler's result unchanged |
| IdentitySecurity.IssuedRoleDecides | swiftlogix/backend/utils/security.py:18-30 | for an issued token, the role checked is the role issued |
| AdminRoutes.PyRound2 | src/backend/routes/admin_routes.py:28 | `round(v, 2)` keeps an int and rounds a float to hundredths |
| AdminRoutes.PySum | src/backend/routes/admin_routes.py:63 | `sum` of no orders is the int 0, otherwise the float total |
| AdminRoutes.CountRole | src/backend/routes/admin_routes.py:15-16 | zero iff no user has the role |
| AdminRoutes.CountRoleAppend | src/backend/routes/admin_routes.py:15-16 | a new user adds one to exactly its role's count |
| AdminRoutes.CountActive | src/backend/routes/admin_routes.py:19-23 | the active count never exceeds the orders |
| AdminRoutes.SumCommission | src/backend/routes/admin_routes.py:18 | the sum of commissions none of which is negative is not negative |
| AdminRoutes.ActiveIsInFlight | src/backend/routes/admin_routes.py:19-23 | active orders are exactly those assigned, picked or delivering |
| AdminRoutes.StatusesPartitionOrders | src/backend/routes/admin_routes.py:19-23 | active, pending, delivered and cancelled orders together are all orders |
| AdminRoutes.Revenue | src/backend/routes/admin_routes.py:18-28 | revenue is round(Σ commission, 2), and the int 0 when there are no orders or no commission |
| AdminRoutes.NoCommissionNoRevenue | src/backend/routes/admin_routes.py:18 | orders without commission give revenue 0 |
| AdminRoutes.Dashboard | src/backend/routes/admin_routes.py:11-33 | the five aggregates: customers, drivers, orders, revenue and active orders |
| AdminRoutes.EmptyDashboard | src/backend/routes/admin_routes.py:15-28 | with no orders, orders, revenue and active orders are all 0 |
| AdminRoutes.ProfileKeysAreNew | src/backend/routes/admin_routes.py:44-76 | the profile keys never overwrite the user keys |
| AdminRoutes.BaseInfo | src/backend/routes/admin_routes.py:44-53 | the eight user keys |
| AdminRoutes.CustomerInfo | src/backend/routes/admin_routes.py:56-64 | the four customer keys |
| AdminRoutes.DriverInfo | src/backend/routes/admin_routes.py:65-76 | the seven driver keys and the profile's flags and position |
| AdminRoutes.ProfileInfo | src/backend/routes/admin_routes.py:55-76 | customer totals iff a customer with a profile, driver totals iff a driver with a profile, and then the driver part of that profile |
| AdminRoutes.UserInfo | src/backend/routes/admin_routes.py:43-78 | the user keys unchanged, plus the profile part for the user's role |
| AdminRoutes.GetAllUsers | src/backend/routes/admin_routes.py:35-83 | exactly one entry per user, in table order |
| AdminRoutes.DriverTotalsAgree | src/backend/routes/admin_routes.py:74-76 | the admin's delivery count and earnings agree with the driver's own earnings endpoint |
| AdminRoutes.CustomerTotalsAgree | src/backend/routes/admin_routes.py:61-63 | with consistent counters, the admin's order count and spend equal the stored counters |
| AdminRoutes.PayloadData | src/backend/routes/admin_routes.py:155-158 | the JSON body when one is sent, otherwise the form fields |
| AdminRoutes.Reason | src/backend/routes/admin_routes.py:160 | the given reason, or "No reason provided" |
| AdminRoutes.Blocked | src/backend/routes/admin_routes.py:163-166 | blacklisted, inactive, with the reason; nothing else changes |
| AdminRoutes.Unblocked | src/backend/routes/admin_routes.py:195-198 | not blacklisted, active, no reason; nothing else changes |
| AdminRoutes.BlacklistUser | src/backend/routes/admin_routes.py:148-174 | only the user's row is blocked, with a confirmation naming the email; an unknown id, or a reason the commit cannot bind, is 500 with no change |
| AdminRoutes.UnblacklistUser | src/backend/routes/admin_routes.py:182-206 | only the user's row is unblocked; an unknown id is 500 with no change |
| AdminRoutes.BlockUser | src/backend/routes/admin_routes.py:176-180 | exactly what `blacklist_user` does, the 500 cases included |
| AdminRoutes.UnblockUser | src/backend/routes/admin_routes.py:208-212 | exactly what `unblacklist_user` does |
| AdminRoutes.UnblockUndoesBlock | src/backend/routes/admin_routes.py:163-198 | unblocking an active user's block restores the user |
| AdminRoutes.BlockingIsIdempotent | src/backend/routes/admin_routes.py:163-198 | blocking twice is blocking with the last reason; unblocking twice is unblocking once |
| AdminRoutes.BlockingKeepsFlagsInStep | src/backend/routes/admin_routes.py:163-198 | after either operation, blacklisted and active are opposite |
| AdminRoutes.ExportRow | src/backend/routes/admin_routes.py:222 | each order row has as many columns as the seven-column header |
| AdminRoutes.ExportOrders | src/backend/routes/admin_routes.py:214-229 | the header row followed by exactly one row per order, in table order |
| AdminRoutes.ExportMatchesRevenue | src/backend/routes/admin_routes.py:214-222 | the commission column of the export sums to the dashboard's unrounded revenue |
| SwiftlogixAdminRoutes.BaseInfo | swiftlogix/backend/routes/admin_routes.py:39-46 | the six user keys |
| SwiftlogixAdminRoutes.DriverInfo | swiftlogix/backend/routes/admin_routes.py:56-61 | the driver key, flags and position, disjoint from the user keys |
| SwiftlogixAdminRoutes.ProfileInfo | swiftlogix/backend/routes/admin_routes.py:48-61 | a customer key iff a customer with a profile, a driver key iff a driver with a profile, and then the driver part of that profile |
| SwiftlogixAdminRoutes.UserInfo | swiftlogix/backend/routes/admin_routes.py:38-63 | the user keys unchanged, plus the profile part |
| SwiftlogixAdminRoutes.GetAllUsers | swiftlogix/backend/routes/admin_routes.py:31-65 | exactly one entry per user, in table order |
| SwiftlogixAdminRoutes.CommonFieldsAgree | swiftlogix/backend/routes/admin_routes.py:39-46 | the user keys agree with the `src/` listing |
| SwiftlogixAdminRoutes.DriverFieldsAgree | swiftlogix/backend/routes/admin_routes.py:58-61 | the driver fields agree with the `src/` listing |
| SwiftlogixAdminRoutes.CustomerIdInBoth | swiftlogix/backend/routes/admin_routes.py:49-52 | both listings show a customer key for the same users |
| AuthRoutes.IssueToken | instance/backend/routes/auth_routes.py:76 | the token identity is the user's id as text and its role claim the user's role |
| AuthRoutes.UserData | instance/backend/routes/auth_routes.py:77-87 | the user's id and role, and the profile id for a user with a profile |
| AuthRoutes.RegisterProblem | instance/backend/routes/auth_routes.py:18-36 | a missing field is 400 with its message; then an unknown lower-cased role is 400, a known email 409; none iff the role is a known one, the email is bindable and unused, the password hashable and the name bindable |
| AuthRoutes.RegisteredUser | instance/backend/routes/auth_routes.py:30-36 | the new user has the next key, the body's email and name, the lower-cased role, is active and its hash checks against the password |
| AuthRoutes.NewProfileId | instance/backend/models.py:42-87 | the id the new profile row generates for itself has nine digits |
| AuthRoutes.CustomerProfile | instance/backend/routes/auth_routes.py:38-52 | the customer profile belongs to the new user, with the body's details and zero totals |
| AuthRoutes.DriverProfile | instance/backend/routes/auth_routes.py:53-65 | the driver profile belongs to the new user, with the body's details, unverified |
| AuthRoutes.Register | instance/backend/routes/auth_routes.py:16-89 | a problem writes nothing; a taken profile id or a profile field the commit cannot bind raises with no write; otherwise one user and exactly one profile matching the role, none for an admin |
| AuthRoutes.Login | instance/backend/routes/auth_routes.py:91-120 | in order: missing fields 400, an unbindable email raises, unknown email or wrong password 401, inactive 403 "User blocked", blacklisted 403, otherwise the token and user data |
| AuthRoutes.RegisteredUserCanLogIn | instance/backend/routes/auth_routes.py:30-107 | a freshly registered user logs in with the same email and password |
| AuthRoutes.BlockedUserLockedOut | instance/backend/routes/auth_routes.py:98-105 | a blocked user is refused with 403; once unblocked, they log in |
| AuthRoutes.ResetTokens.constructor | instance/backend/routes/auth_routes.py:14 | the token map starts empty |
| AuthRoutes.ForgotPassword | instance/backend/routes/auth_routes.py:122-153 | a missing email is 400, an unbindable one raises, an unknown email the generic 200 with no token stored, a blacklisted user 403; otherwise the token is stored with an expiry one hour on, and the mail outcome decides between 200 and 500 |
| AuthRoutes.ForgotTwice | instance/backend/routes/auth_routes.py:141-146 | two requests leave two live tokens for the same email |
| AuthRoutes.WithPassword | instance/backend/routes/auth_routes.py:187 | the new hash checks against the new password; nothing else changes |
| AuthRoutes.ResetPassword | instance/backend/routes/auth_routes.py:155-203 | unknown token 400, email mismatch 400 with the token kept, expired token deleted with 400, an unbindable email raises; otherwise the password set and the token deleted |
| AuthRoutes.ResetTwice | instance/backend/routes/auth_routes.py:166-191 | after a successful reset, the same token is refused |
| AuthRoutes.ResetAtExpiry | instance/backend/routes/auth_routes.py:143-191 | a token issued at t still resets the password at t + 3600, and is deleted |
| AuthRoutes.ResetAfterExpiry | instance/backend/routes/auth_routes.py:143-176 | at t + 3601 the same token is refused as expired and deleted, and the password stays |
| BackendAuthRoutes.BasicUserData | backend/routes/auth_routes.py:51 | id, name, email and role only |
| BackendAuthRoutes.Register | backend/routes/auth_routes.py:10-51 | the same checks, an unbindable email or name raising with no write; then the user and a bare profile matching the role, none for an admin |
| BackendAuthRoutes.Login | backend/routes/auth_routes.py:53-67 | missing fields 400, an unbindable email raises, bad credentials 401, inactive 403, otherwise the token; there is no blacklist check |
| BackendAuthRoutes.BlacklistIgnored | backend/routes/auth_routes.py:60-64 | a blacklisted active user gets in here and is refused by the `instance/` login |
| BackendAuthRoutes.ForgotPassword | backend/routes/auth_routes.py:69-88 | missing email 400; an unbindable one raises; an unknown email the generic 200; a known one 200 or 500 by the mail outcome |
| BackendAuthRoutes.ForgotRevealsNothing | backend/routes/auth_routes.py:74-85 | with the mail sent, known and unknown emails get the same reply |
| BackendAuthRoutes.ResetPassword | backend/routes/auth_routes.py:90-121 | token, email and password must be non-empty, the email bindable and known; the password is then set whatever the token |
| BackendAuthRoutes.ResetWithAnyToken | backend/routes/auth_routes.py:97-109 | any non-empty token resets a known account's password |
| ApprovalStore.InitialApproval | models.py:37 | an admin is stored unapproved (0), any other role approved (1) |
| ApprovalStore.WithApproval | models.py:62-66 | the update sets the flag of that email's row only |
| ApprovalStore.ApprovalIdempotent | models.py:62-66 | approving twice leaves the table as approving once |
| ApprovalStore.UserTable.constructor | models.py:8-24 | the table starts empty |
| ApprovalStore.UserTable.AddUser | models.py:27-52 | a known email or a role outside the CHECK is refused with no change; otherwise the row is stored with the next id |
| ApprovalStore.UserTable.ApproveUser | models.py:54-72 | true iff the email is stored; afterwards that user is approved |
| ApprovalStore.UserTable.IsUserApproved | models.py:74-92 | None for an unknown email, otherwise whether the flag is set |
| ApprovalStore.UserTable.GetUserByEmail | models.py:94-121 | None for an unknown email, otherwise the row stored under it |
| ApprovalStore.UserTable.AddTwice | models.py:40-52 | a second insert of the same email is refused and the first row stays |
| ApprovalApp.RegisterProblem | app.py:85-99 | no body 400, missing email or role 400, a role outside the three 400; otherwise no problem |
| ApprovalApp.Registered | app.py:108-122 | 201 with the email and role; "Awaiting approval" only for an admin |
| ApprovalApp.Register | app.py:79-125 | a problem writes nothing; a known email is 409 with no change; otherwise the row is stored with the initial approval |
| ApprovalApp.Approve | app.py:127-170 | a missing email 400, an unknown user 404; an approved user gets success with no update; otherwise the row is approved |
| ApprovalApp.Welcome | app.py:198-203 | 200 with "Welcome " + email and the stored role |
| ApprovalApp.Login | app.py:172-212 | no body 400, no email 400, unknown 404, unapproved 403, otherwise 200 with the stored role |
| ApprovalApp.AdminWaitsForApproval | app.py:172-204 | a new admin is refused with 403 until approved and welcomed after |
| ApprovalApp.OthersLogInAtOnce | app.py:191-204 | a new driver or customer is welcomed at once with their role |

## Left out

- Haversine distance: floating-point trigonometry. The distance is a parameter of the fare and of order creation.
- Floating point: amounts are exact reals. Binary float representation, its rounding errors and overflow are not modelled. `round(x, 2)` is round-half-even on the exact value.
- Json.PyFloatOfString: Python `float()` accepts "inf", "nan" and digits grouped with underscores; the model refuses them. Its table of decimal digits is that of Unicode 15.0 (`Json.BlockZero`); later Unicode versions add scripts the model does not read.
- Text.PyRepr: Python's `repr` escapes backslashes, control characters and, when both quote kinds occur, the single quote; the model produces no escapes.
- Which values sqlite refuses to bind is reduced to lists and objects. An int beyond 64 bits, which sqlite refuses too, is not modelled, and neither is the text of the resulting error outside `create_order`.
- JWT signing, decoding and expiry belong to flask_jwt_extended. A token is its decoded identity and claims. The signature and the standard claims are not modelled, and neither is the 8-hour lifetime.
- bcrypt is idealised as an exact comparison of the password with the stored secret. The 72-byte truncation is not modelled.
- Security.MakeAccessToken: requires an id whose `str()` the model spells out (a string, an int, a bool or None). Floats, lists and objects as ids are not modelled.
- AdminRoutes.BlacklistUser: the confirmation's text for an email stored as a float, a list or an object is not stated.
- AdminRoutes.UnblacklistUser: the same gap as for blacklisting.
- AdminRoutes.BlockUser: the same gap as for blacklisting.
- AdminRoutes.UnblockUser: the same gap as for blacklisting.
- ApprovalApp.Register: a truthy email that is not a JSON string is answered as a failed insert (500). sqlite would store a number as its text.
- ApprovalApp.Login: a truthy email that is not a JSON string is answered as a failed query (500), for the same reason.
- The catch-all 500 replies of `app.py` carry the exception's text. Only their status is modelled.
- The approval page's HTML is not modelled. `Approve` returns the arguments the template is rendered with.
- Administrator notification e-mails in `app.py` are left out. They catch their own errors and do not affect a reply.
- A top-level JSON body that is not an object (a list, a number) is not modelled for the main service's handlers. An absent, falsy or non-JSON body is the empty map: the model follows Flask before 2.1, where `request.get_json()` answers None for a body that is not JSON.
- AdminRoutes.PayloadData: from Flask 2.1 on, `request.get_json()` raises a 400 or 415 error for a body that is not JSON instead of answering None; `blacklist_user` (src/backend/routes/admin_routes.py:171-174) then answers 500 and the form fallback (:156-158) is never reached. The model follows the earlier behaviour.
- ClientOrderForm.Serialized: binary doubles are exact reals here, so the boundary of the exponent form is 10^21 exactly, as `Number.prototype.toString` specifies, without the rounding of a double near it.
- Python equality across types is not modelled: an email stored as an int never equals the same number given as text.
- Concurrency: the read-then-write of `accept_order` under races is not modelled. Every handler runs alone.
- Clocks, random numbers and `secrets` tokens are parameters: the time, the random part of an id, the reset token and the order code.
- E-mail sending is I/O. Only its outcome is modelled, as the parameter `mailSent`.
- CSV quoting and encoding of `export_orders`, and `send_file`, are not modelled. The export is its rows of values.
- `get_user_details`, the profile getters, `all_orders`, the chat endpoints and the reset-password pages are left out. They only read and format, or they render HTML.
- The `backend/` driver `available_orders` refers to a name that is never bound, so it raises. It is not modelled as a listing.
- `backend/` tokens carry a dictionary identity. Reading `ident['id']` from it in the handlers is not modelled: the caller's user id is an input.
- `updated_at` columns, written by the ORM on update, are not modelled.
- The 500 replies of `dashboard`, `get_all_users` and `export_orders` are left out. Their exception handlers cannot be reached in the model.
- Flask app factories, blueprints, entry points, schema bootstrapping scripts and smoke-test scripts carry no decision logic and are not part of this model.

## Findings

| source | as written | input that shows it | evidently intended | confidence | as-written member | corrected member |
|---|---|---|---|---|---|---|
| src/backend/utils/security.py:76-80 | the wrapper's `except Exception` also catches the `NotFound` raised by a handler's `get_or_404`, so a missing order is answered 401 "Authentication error" | an admitted driver token accepting order id 999 in an empty orders table | HTTP aborts keep their own status (404); only other exceptions become 401 | not executed | Security.NotFoundBecomesAuthError | Security.RoleRequiredPassingAborts |
