/**
 * The browser-side checks of `createOrder`: required fields, then the numeric fields in
 * order, then the stored login token, before the order is posted to the server.
 * The order object is a map from field name to value; a key that is not there is `undefined`.
 */
module ClientOrderForm {
  import opened Wrappers
  import opened Text
  import opened Json

  const RequiredFields: seq<string> :=
    ["pickup_lat", "pickup_lng", "drop_lat", "drop_lng", "pickup_address", "drop_address", "material_type", "weight_kg"]

  const NumericFields: seq<string> := ["pickup_lat", "pickup_lng", "drop_lat", "drop_lng", "weight_kg"]

  /** undefined, null, or a string that is empty once trimmed. */
  predicate Blank(order: map<string, Value>, field: string) {
    field !in order || order[field] == Null || (order[field].Str? && Trim(order[field].s, JsIsSpace) == "")
  }

  /** `requiredFields.filter(...)` */
  function MissingFields(order: map<string, Value>, fields: seq<string>): (missing: seq<string>)
    ensures |missing| <= |fields|
  {
    if fields == [] then []
    else (if Blank(order, fields[0]) then [fields[0]] else []) + MissingFields(order, fields[1..])
  }

  /** Every reported name is a listed field, and a blank one. */
  lemma {:induction false} MissingFieldsSound(order: map<string, Value>, fields: seq<string>)
    ensures forall i :: 0 <= i < |MissingFields(order, fields)| ==>
      MissingFields(order, fields)[i] in fields && Blank(order, MissingFields(order, fields)[i])
  {
    if fields != [] {
      MissingFieldsSound(order, fields[1..]);
    }
  }

  /** Every blank required field is reported, not only the first. */
  lemma {:induction false} MissingFieldsComplete(order: map<string, Value>, fields: seq<string>, f: string)
    requires f in fields && Blank(order, f)
    ensures f in MissingFields(order, fields)
  {
    if fields[0] != f {
      MissingFieldsComplete(order, fields[1..], f);
    }
  }

  /** The report lists the blank fields in the order of the list. */
  lemma {:induction false} MissingFieldsInOrder(order: map<string, Value>, a: seq<string>, b: seq<string>)
    ensures MissingFields(order, a + b) == MissingFields(order, a) + MissingFields(order, b)
  {
    if a == [] {
      assert a + b == b;
    } else {
      assert (a + b)[0] == a[0] && (a + b)[1..] == a[1..] + b;
      var head := if Blank(order, a[0]) then [a[0]] else [];
      assert MissingFields(order, a + b) == head + MissingFields(order, a[1..] + b);
      var x, y := MissingFields(order, a[1..]), MissingFields(order, b);
      assert MissingFields(order, a) == head + x;
      MissingFieldsInOrder(order, a[1..], b);
      assert head + (x + y) == (head + x) + y;
    }
  }

  function IsLongitudeField(field: string): bool { field == "pickup_lng" || field == "drop_lng" }
  function IsLatitudeField(field: string): bool { field == "pickup_lat" || field == "drop_lat" }

  /** `parseFloat(orderData[field])`; undefined reads as NaN. */
  function Parsed(order: map<string, Value>, field: string): JsNumber {
    if field in order then JsParseFloat(order[field]) else NotFinite
  }

  /** The range the loop demands of a parsed field: a latitude, a longitude, or a positive weight. */
  predicate InRange(field: string, v: real) {
    (IsLatitudeField(field) ==> -90.0 <= v <= 90.0)
    && (IsLongitudeField(field) ==> -180.0 <= v <= 180.0)
    && (field == "weight_kg" ==> v > 0.0)
  }

  /** The message one pass of the numeric loop throws for `field`, if any. */
  function FieldError(order: map<string, Value>, field: string): (e: Option<string>)
    ensures Parsed(order, field).NotFinite? ==> e == Some(field + " must be a valid number")
    ensures e.None? <==> Parsed(order, field).Finite? && InRange(field, Parsed(order, field).value)
  {
    match Parsed(order, field)
    case NotFinite => Some(field + " must be a valid number")
    case Finite(v) =>
      if IsLongitudeField(field) && (v < -180.0 || v > 180.0) then Some(field + " must be between -180 and 180")
      else if IsLatitudeField(field) && (v < -90.0 || v > 90.0) then Some(field + " must be between -90 and 90")
      else if field == "weight_kg" && v <= 0.0 then Some("Weight must be greater than 0")
      else None
  }

  /** The error of the first field in the list that fails, as the loop throws it. */
  function FirstNumericError(order: map<string, Value>, fields: seq<string>): (e: Option<string>)
    ensures e.None? <==> forall i :: 0 <= i < |fields| ==> FieldError(order, fields[i]).None?
  {
    if fields == [] then None
    else if FieldError(order, fields[0]).Some? then FieldError(order, fields[0])
    else FirstNumericError(order, fields[1..])
  }

  /** An error is that of the first failing field: every field before it passes. */
  lemma {:induction false} FirstNumericErrorSpec(order: map<string, Value>, fields: seq<string>)
    ensures FirstNumericError(order, fields).Some? ==>
      exists k :: 0 <= k < |fields| && FirstNumericError(order, fields) == FieldError(order, fields[k])
        && forall i :: 0 <= i < k ==> FieldError(order, fields[i]).None?
  {
    if fields != [] {
      FirstNumericErrorSpec(order, fields[1..]);
      assert forall i :: 1 <= i < |fields| ==> fields[i] == fields[1..][i - 1];
      if FieldError(order, fields[0]).None? && FirstNumericError(order, fields).Some? {
        var k :| 0 <= k < |fields[1..]| && FirstNumericError(order, fields[1..]) == FieldError(order, fields[1..][k])
          && forall i :: 0 <= i < k ==> FieldError(order, fields[1..][i]).None?;
        assert FirstNumericError(order, fields) == FieldError(order, fields[k + 1]);
      }
    }
  }

  /** The numeric loop: each field of `fields` in turn, stopping at the first that fails. */
  method CheckNumericFields(order: map<string, Value>, fields: seq<string>) returns (error: Option<string>)
    ensures error == FirstNumericError(order, fields)
  {
    var i := 0;
    while i < |fields|
      invariant 0 <= i <= |fields|
      invariant FirstNumericError(order, fields) == FirstNumericError(order, fields[i..])
    {
      assert fields[i..][1..] == fields[i + 1..];
      var e := FieldError(order, fields[i]);
      if e.Some? {
        return e;
      }
      i := i + 1;
    }
    return None;
  }

  /** 10^21: `JSON.stringify` writes numbers of this magnitude or more in exponent form. */
  const ExponentFormLimit: real := 1000000000000000000000.0

  /**
   * A JavaScript number as the server receives it after `JSON.stringify`: integral values below
   * 10^21 in magnitude arrive as ints, larger ones in exponent form and so as floats, and NaN and
   * the infinities as null.
   */
  function Serialized(n: JsNumber): (v: Value)
    ensures n.Finite? ==> PyFloat(v) == Some(n.value)
    ensures n.Finite? ==> (v.Int? <==> n.value.Floor as real == n.value && -ExponentFormLimit < n.value < ExponentFormLimit)
    ensures n.NotFinite? ==> v == Null
  {
    match n
    case NotFinite => Null
    case Finite(x) =>
      if x.Floor as real == x && -ExponentFormLimit < x < ExponentFormLimit then Int(x.Floor) else Float(x)
  }

  /** `{...orderData, pickup_lat: parseFloat(...), ...}`: the numeric fields replaced by their parsed values. */
  function ParsedData(order: map<string, Value>, fields: seq<string>): (body: map<string, Value>)
    ensures body.Keys == order.Keys + (set f | f in fields)
    ensures forall k :: k in order && k !in fields ==> k in body && body[k] == order[k]
    ensures forall i :: 0 <= i < |fields| ==> fields[i] in body && body[fields[i]] == Serialized(Parsed(order, fields[i]))
  {
    map k | k in order.Keys + (set f | f in fields) :: if k in fields then Serialized(Parsed(order, k)) else order[k]
  }

  /** What `createOrder` does with an order: throw with a message, or post the body with the bearer token. */
  datatype Outcome = Rejected(message: string) | Send(body: map<string, Value>, authorization: string)

  /** The decision of `createOrder`; `token` is what `localStorage.getItem('token')` returns. */
  function Decide(order: map<string, Value>, token: Option<string>): (o: Outcome)
    ensures o.Send? ==> (MissingFields(order, RequiredFields) == [] && FirstNumericError(order, NumericFields).None?
                         && token.Some? && token.value != "")
    ensures o.Send? ==> o == Send(ParsedData(order, NumericFields), "Bearer " + token.value)
  {
    var missing := MissingFields(order, RequiredFields);
    if |missing| > 0 then Rejected("Missing required fields: " + Join(missing, ", "))
    else
      var e := FirstNumericError(order, NumericFields);
      if e.Some? then Rejected(e.value)
      else if token == None || token == Some("") then Rejected("Authentication token not found. Please login first.")
      else Send(ParsedData(order, NumericFields), "Bearer " + token.value)
  }

  /** `createOrder` up to the request it posts. */
  method CreateOrder(order: map<string, Value>, token: Option<string>) returns (outcome: Outcome)
    ensures outcome == Decide(order, token)
  {
    var missing := MissingFields(order, RequiredFields);
    if |missing| > 0 {
      return Rejected("Missing required fields: " + Join(missing, ", "));
    }
    var error := CheckNumericFields(order, NumericFields);
    if error.Some? {
      return Rejected(error.value);
    }
    if token == None || token == Some("") {
      return Rejected("Authentication token not found. Please login first.");
    }
    return Send(ParsedData(order, NumericFields), "Bearer " + token.value);
  }

  /** Blank fields are reported before any numeric check runs, and before the token is looked at. */
  lemma MissingFieldsFirst(order: map<string, Value>, token: Option<string>)
    requires MissingFields(order, RequiredFields) != []
    ensures Decide(order, token) == Rejected("Missing required fields: " + Join(MissingFields(order, RequiredFields), ", "))
  {
  }

  /**
   * A request is made exactly when no required field is blank, every numeric field is a finite
   * number in its range with a positive weight, and a non-empty token is stored; it carries that token.
   */
  lemma {:induction false} SendIff(order: map<string, Value>, token: Option<string>)
    ensures Decide(order, token).Send? <==>
      MissingFields(order, RequiredFields) == []
      && (forall i :: 0 <= i < |NumericFields| ==> FieldError(order, NumericFields[i]).None?)
      && token.Some? && token.value != ""
    ensures Decide(order, token).Send? ==> Decide(order, token).authorization == "Bearer " + token.value
  {
    FirstNumericErrorSpec(order, NumericFields);
  }

  /** A passing order has every numeric field in the body it sends, as a number in its range. */
  lemma {:induction false} SentBodyInRange(order: map<string, Value>, token: Option<string>)
    requires Decide(order, token).Send?
    ensures var body := Decide(order, token).body;
      forall i :: 0 <= i < |NumericFields| ==>
        NumericFields[i] in body && PyFloat(body[NumericFields[i]]).Some?
        && InRange(NumericFields[i], PyFloat(body[NumericFields[i]]).value)
  {
    FirstNumericErrorSpec(order, NumericFields);
  }

  /** Fields are checked in list order: a bad latitude hides a bad weight. */
  lemma FirstFailingFieldWins()
    ensures FirstNumericError(map["pickup_lng" := Int(0), "drop_lat" := Int(0), "drop_lng" := Int(0),
                                  "weight_kg" := Int(0), "pickup_lat" := Int(91)], NumericFields)
      == Some("pickup_lat" + " must be between -90 and 90")
  {
    var order := map["pickup_lng" := Int(0), "drop_lat" := Int(0), "drop_lng" := Int(0),
                     "weight_kg" := Int(0), "pickup_lat" := Int(91)];
    assert NumericFields[0] == "pickup_lat" && order["pickup_lat"] == Int(91);
    assert !IsLongitudeField("pickup_lat") by {
      assert "pickup_lat"[8] != "pickup_lng"[8] && "pickup_lat"[0] != "drop_lng"[0];
    }
    assert Parsed(order, "pickup_lat") == Finite(91.0);
    assert FieldError(order, "pickup_lat") == Some("pickup_lat" + " must be between -90 and 90");
  }
}
