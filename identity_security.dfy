/**
 * `swiftlogix/backend/utils/security.py`: the whole identity dictionary is the token identity,
 * and `role_required` reads the role out of it. There is no exception handling: a truthy
 * identity that is not a dictionary makes `ident.get` raise.
 */
module IdentitySecurity {
  import opened Json
  import opened Http

  /** `make_access_token(identity)`: the decoded identity of the token is the dictionary itself. */
  function MakeAccessToken(identity: map<string, Value>): (ident: Value)
    ensures ident == Obj(identity)
  {
    Obj(identity)
  }

  /** `role_required(*allowed)` around a handler whose outcome is `handler`. */
  function RoleRequired(allowed: seq<string>, ident: Value, handler: Response): (r: Response)
    ensures !Truthy(ident) ==> r == Message(403, "Forbidden")
    ensures Truthy(ident) && !ident.Obj? ==> r == Uncaught
    ensures ident.Obj? && Truthy(ident) && Get(ident.fields, "role").Str? && Get(ident.fields, "role").s in allowed ==> r == handler
    ensures ident.Obj? && !(Get(ident.fields, "role").Str? && Get(ident.fields, "role").s in allowed) ==> r == Message(403, "Forbidden")
  {
    if !Truthy(ident) then Message(403, "Forbidden")
    else if !ident.Obj? then Uncaught
    else
      var role := Get(ident.fields, "role");
      if !(role.Str? && role.s in allowed) then Message(403, "Forbidden") else handler
  }

  /**
   * The role checked is the role issued: a token made from a dictionary whose "role" is allowed
   * passes the handler's outcome through unchanged, aborts and exceptions included, and any other is refused.
   */
  lemma IssuedRoleDecides(allowed: seq<string>, identity: map<string, Value>, handler: Response)
    ensures var role := Get(identity, "role");
      role.Str? && role.s in allowed ==> RoleRequired(allowed, MakeAccessToken(identity), handler) == handler
    ensures var role := Get(identity, "role");
      !(role.Str? && role.s in allowed) ==> RoleRequired(allowed, MakeAccessToken(identity), handler) == Message(403, "Forbidden")
  {
    if "role" in identity {
      assert identity != map[];
    }
  }
}
