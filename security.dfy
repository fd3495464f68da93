/**
 * `src/backend/utils/security.py`: the access-token layout (the user id as the token identity,
 * the role as an extra claim), the replies for token errors, and `role_required`, which admits
 * a request by its decoded identity and role claim. Signing, decoding and expiry belong to
 * the JWT library; a token here is its decoded content.
 */
module Security {
  import opened Wrappers
  import opened Text
  import opened Json
  import opened Http

  /** A decoded access token: the identity (`sub`) and the additional claims. */
  datatype Token = Token(identity: Value, claims: map<string, Value>)

  /** `make_access_token(identity)`: identity `str(identity.get("id"))`, claim `role` = `identity.get("role")`. */
  function MakeAccessToken(identity: map<string, Value>): (t: Token)
    requires HasPyStr(Get(identity, "id"))
    ensures t.identity.Str? && t.identity.s == PyStr(Get(identity, "id"))
    ensures t.claims.Keys == {"role"} && t.claims["role"] == Get(identity, "role")
  {
    Token(Str(PyStr(Get(identity, "id"))), map["role" := Get(identity, "role")])
  }

  /**
   * What the signed token carried in a reply holds once decoded: `sub`, the identity, beside the
   * additional claims. The signature and the library's standard claims are not modelled.
   */
  function Payload(t: Token): (v: Value)
    ensures v.Obj? && "sub" in v.fields && v.fields["sub"] == t.identity
    ensures forall k :: k in t.claims && k != "sub" ==> k in v.fields && v.fields[k] == t.claims[k]
  {
    Obj(t.claims["sub" := t.identity])
  }

  /* ---------- token errors ---------- */

  /** The four failures the JWT library reports through the registered callbacks. */
  datatype TokenError = Expired | Invalid | Missing | NotFresh

  /** The message of the callback registered for each failure. */
  function TokenErrorText(e: TokenError): string {
    match e
    case Expired => "Token has expired"
    case Invalid => "Invalid token"
    case Missing => "Missing token"
    case NotFresh => "Fresh token required"
  }

  /** The reply of that callback: always 401. */
  function TokenErrorReply(e: TokenError): (r: Response)
    ensures r == Message(401, TokenErrorText(e))
  {
    Message(401, TokenErrorText(e))
  }

  /** The four failures are told apart: no two share a message. */
  lemma TokenErrorsDistinct(e1: TokenError, e2: TokenError)
    ensures TokenErrorReply(e1) == TokenErrorReply(e2) ==> e1 == e2
    ensures Status(TokenErrorReply(e1)) == 401
  {
    assert |TokenErrorText(Expired)| == 17 && |TokenErrorText(NotFresh)| == 20;
    assert |TokenErrorText(Invalid)| == |TokenErrorText(Missing)| == 13;
    assert TokenErrorText(Invalid)[0] == 'I' && TokenErrorText(Missing)[0] == 'M';
    assert e1 != e2 ==> TokenErrorText(e1) != TokenErrorText(e2);
    assert TokenErrorReply(e1).body.fields["message"] == Str(TokenErrorText(e1));
    assert TokenErrorReply(e2).body.fields["message"] == Str(TokenErrorText(e2));
  }

  /* ---------- role_required ---------- */

  /** The admission test: a truthy identity, a truthy role claim, and that role among the allowed ones. */
  predicate Admits(allowed: seq<string>, t: Token) {
    var role := Get(t.claims, "role");
    Truthy(t.identity) && Truthy(role) && role.Str? && role.s in allowed
  }

  /**
   * `role_required(*allowed)` around a handler whose outcome is `handler`: 403 without calling it
   * when the test fails; otherwise the handler's reply, except that whatever the handler raises,
   * an HTTP abort included, is caught and answered with 401.
   */
  function RoleRequired(allowed: seq<string>, t: Token, handler: Response): (r: Response)
    ensures !Admits(allowed, t) ==> r == Message(403, "Forbidden")
    ensures Admits(allowed, t) && handler.Reply? ==> r == handler
    ensures Admits(allowed, t) && !handler.Reply? ==> r == Message(401, "Authentication error")
  {
    if !Admits(allowed, t) then Message(403, "Forbidden")
    else if handler.Reply? then handler
    else Message(401, "Authentication error")
  }

  /** The decision does not depend on the handler: a refused request gets the same 403 whatever it would have done. */
  lemma RefusalIgnoresHandler(allowed: seq<string>, t: Token, h1: Response, h2: Response)
    requires !Admits(allowed, t)
    ensures RoleRequired(allowed, t, h1) == RoleRequired(allowed, t, h2) == Message(403, "Forbidden")
  {
  }

  /**
   * A token issued for a user with an allowed role is admitted: the role checked is the role
   * issued, and the identity `str(id)` is never empty, even for id 0.
   */
  lemma IssuedTokenAdmitted(allowed: seq<string>, id: nat, role: string, handler: Response)
    requires role in allowed && role != ""
    ensures Admits(allowed, MakeAccessToken(map["id" := Int(id), "role" := Str(role)]))
    ensures handler.Reply? ==> RoleRequired(allowed, MakeAccessToken(map["id" := Int(id), "role" := Str(role)]), handler) == handler
  {
    var t := MakeAccessToken(map["id" := Int(id), "role" := Str(role)]);
    assert |NatToString(id)| >= 1;
    assert t.identity == Str(IntToString(id));
  }

  /** A token for a role outside the allowed list, or with no role at all, is refused. */
  lemma IssuedTokenRefused(allowed: seq<string>, identity: map<string, Value>)
    requires HasPyStr(Get(identity, "id"))
    requires var role := Get(identity, "role"); !(role.Str? && role.s in allowed)
    ensures !Admits(allowed, MakeAccessToken(identity))
  {
  }

  /** A dictionary without an "id" still yields a truthy identity, the text "None". */
  lemma MissingIdIsTruthy(role: string)
    ensures MakeAccessToken(map["role" := Str(role)]).identity == Str("None")
    ensures Truthy(MakeAccessToken(map["role" := Str(role)]).identity)
  {
  }

  /* ---------- the aborts swallowed by role_required ---------- */

  /**
   * The handlers call `get_or_404` for an unknown order; the `NotFound` it raises is an
   * `Exception`, so the wrapper turns the intended 404 into 401 "Authentication error".
   */
  lemma NotFoundBecomesAuthError(allowed: seq<string>, t: Token)
    requires Admits(allowed, t)
    ensures RoleRequired(allowed, t, Abort(404)) == Message(401, "Authentication error")
    ensures Status(RoleRequired(allowed, t, Abort(404))) != Status(Abort(404))
  {
  }

  /** `role_required` with HTTP aborts re-raised, so that Flask answers them with their own code. */
  function RoleRequiredPassingAborts(allowed: seq<string>, t: Token, handler: Response): (r: Response)
    ensures !Admits(allowed, t) ==> r == Message(403, "Forbidden")
    ensures Admits(allowed, t) && (handler.Reply? || handler.Abort?) ==> r == handler
    ensures Admits(allowed, t) && handler.Uncaught? ==> r == Message(401, "Authentication error")
  {
    if !Admits(allowed, t) then Message(403, "Forbidden")
    else if handler.Uncaught? then Message(401, "Authentication error")
    else handler
  }

  /** With aborts passed through, an admitted request gets the handler's status code whenever the handler did not crash. */
  lemma AbortsKeepTheirStatus(allowed: seq<string>, t: Token, handler: Response)
    requires Admits(allowed, t) && !handler.Uncaught?
    ensures Status(RoleRequiredPassingAborts(allowed, t, handler)) == Status(handler)
    ensures handler.Reply? ==> RoleRequiredPassingAborts(allowed, t, handler) == RoleRequired(allowed, t, handler)
  {
  }
}
