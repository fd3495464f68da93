/** The server-side request validators `require_fields` and `validate_lat_lng`. */
module Validators {
  import opened Wrappers
  import opened Text
  import opened Json

  /** A field counts as supplied when its key is there and its value is neither None nor "". */
  predicate Present(data: map<string, Value>, field: string) {
    field in data && data[field] != Null && data[field] != Str("")
  }

  /** `[f for f in fields if f not in data or data.get(f) in (None, "")]` */
  function MissingFields(data: map<string, Value>, fields: seq<string>): (missing: seq<string>)
    ensures |missing| <= |fields|
  {
    if fields == [] then []
    else (if Present(data, fields[0]) then [] else [fields[0]]) + MissingFields(data, fields[1..])
  }

  /** A name is reported exactly when it is listed and not supplied. */
  lemma {:induction false} MissingFieldsMembers(data: map<string, Value>, fields: seq<string>, f: string)
    ensures f in MissingFields(data, fields) <==> f in fields && !Present(data, f)
  {
    if fields != [] {
      MissingFieldsMembers(data, fields[1..], f);
      assert fields == [fields[0]] + fields[1..];
    }
  }

  /** The missing names keep the order of the field list: the filter distributes over concatenation. */
  lemma {:induction false} MissingFieldsAppend(data: map<string, Value>, a: seq<string>, b: seq<string>)
    ensures MissingFields(data, a + b) == MissingFields(data, a) + MissingFields(data, b)
  {
    if a == [] {
      assert a + b == b;
    } else {
      assert (a + b)[0] == a[0] && (a + b)[1..] == a[1..] + b;
      MissingFieldsAppend(data, a[1..], b);
    }
  }

  /** Nothing is missing exactly when every listed field is supplied. */
  lemma {:induction false} MissingFieldsEmpty(data: map<string, Value>, fields: seq<string>)
    ensures MissingFields(data, fields) == [] <==> forall i :: 0 <= i < |fields| ==> Present(data, fields[i])
  {
    if fields != [] {
      MissingFieldsEmpty(data, fields[1..]);
      assert forall i :: 1 <= i < |fields| ==> fields[i] == fields[1..][i - 1];
    }
  }

  /** The pair `(ok, error)` that `require_fields` returns. */
  datatype FieldCheck = FieldCheck(ok: bool, error: Option<string>)

  function RequireFields(data: map<string, Value>, fields: seq<string>): (r: FieldCheck)
    ensures r.ok <==> forall i :: 0 <= i < |fields| ==> Present(data, fields[i])
    ensures r.ok <==> r.error == None
    ensures !r.ok ==> r.error == Some("Missing fields: " + Join(MissingFields(data, fields), ", "))
  {
    MissingFieldsEmpty(data, fields);
    var missing := MissingFields(data, fields);
    if missing != [] then FieldCheck(false, Some("Missing fields: " + Join(missing, ", ")))
    else FieldCheck(true, None)
  }

  /** A key that is there but holds None or "" is reported like an absent one. */
  lemma {:induction false} EmptyValueIsMissing(data: map<string, Value>, fields: seq<string>, f: string)
    requires f in fields && f in data && (data[f] == Null || data[f] == Str(""))
    ensures !RequireFields(data, fields).ok
    ensures f in MissingFields(data, fields)
  {
    MissingFieldsMembers(data, fields, f);
  }

  /**
   * `validate_lat_lng`: both values convert with `float()` and lie in the closed ranges
   * [-90, 90] and [-180, 180]; a failed conversion gives False instead of raising.
   */
  function ValidateLatLng(lat: Value, lng: Value): (ok: bool)
    ensures ok <==> (PyFloat(lat).Some? && PyFloat(lng).Some?
                     && -90.0 <= PyFloat(lat).value <= 90.0 && -180.0 <= PyFloat(lng).value <= 180.0)
  {
    match PyFloat(lat)
    case None => false
    case Some(y) =>
      match PyFloat(lng)
      case None => false
      case Some(x) => -90.0 <= y <= 90.0 && -180.0 <= x <= 180.0
  }

  /** The bounds are inclusive: the four corners of the range are accepted, one step beyond is not. */
  lemma RangeCorners()
    ensures ValidateLatLng(Int(90), Int(-180)) && ValidateLatLng(Int(-90), Float(180.0))
    ensures !ValidateLatLng(Float(90.5), Int(0)) && !ValidateLatLng(Int(0), Int(181))
    ensures !ValidateLatLng(Null, Int(0)) && !ValidateLatLng(Int(0), Arr([]))
  {
  }
}
