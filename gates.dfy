/** The two middlewares that run before a route's own checks: `auth`, which
    turns the `Authorization` header into the caller's claims, and
    `rolesPermitidos`, which admits only the listed roles. Token verification
    (`jwt.verify`) is a foreign library and enters as the parameter `verify`. */
module Gates {
  import opened Values
  import opened JsStrings

  datatype AuthResult = Unauthorized | Authenticated(user: Claims)

  /** `header.split(" ")[1]`: the second space-separated part, or `undefined`. */
  function BearerToken(header: string): (token: Field)
    ensures token.Some? <==> ' ' in header
    ensures token.Some? ==> ' ' !in token.value
  {
    var parts := Split(header, ' ');
    if |parts| >= 2 then Some(parts[1]) else None
  }

  /** The `auth` middleware: 401 for a missing header, for a header without a
      token part, and for a token `verify` rejects; otherwise the request
      proceeds as the user the token names. */
  function Auth(header: Field, verify: string -> Option<Claims>): (r: AuthResult)
    ensures !Truthy(header) ==> r == Unauthorized
    ensures Truthy(header) && !Truthy(BearerToken(header.value)) ==> r == Unauthorized
    ensures r.Authenticated? ==> Truthy(header) && exists t :: BearerToken(header.value) == Some(t) && verify(t) == Some(r.user)
  {
    if !Truthy(header) then Unauthorized
    else
      var token := BearerToken(header.value);
      if !Truthy(token) then Unauthorized
      else match verify(token.value)
        case None => Unauthorized
        case Some(user) => Authenticated(user)
  }

  /** The `rolesPermitidos(allowed)` middleware: whether the request may go on. */
  predicate RolesPermitidos(allowed: seq<string>, user: Option<Claims>)
    ensures RolesPermitidos(allowed, user) <==>
      user.Some? && exists i :: 0 <= i < |allowed| && allowed[i] == user.value.rol
  {
    user.Some? && user.value.rol in allowed
  }

  /** The header the client sends, `Bearer <token>`, yields exactly its token. */
  lemma BearerTokenOfBearerHeader(token: string)
    requires ' ' !in token
    ensures BearerToken("Bearer " + token) == Some(token)
  {
    SplitWithoutSeparator("Bearer", ' ');
    SplitAfterHead("Bearer", ' ', token);
    SplitWithoutSeparator(token, ' ');
    assert "Bearer " + token == "Bearer" + [' '] + token;
  }

  /** A well-formed header whose token verifies authenticates its claims; one
      whose token part is empty (`"Bearer "`) is refused with 401. */
  lemma AuthOfBearerHeader(token: string, verify: string -> Option<Claims>)
    requires ' ' !in token
    ensures Auth(Some("Bearer " + token), verify) ==
      (if token != "" && verify(token).Some? then Authenticated(verify(token).value) else Unauthorized)
  {
    BearerTokenOfBearerHeader(token);
  }
}
