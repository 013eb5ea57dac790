/**
 * The authentication step every protected endpoint opens with: take the bearer token out of
 * the Authorization header, then verify it. Token extraction and verification are
 * collaborators and are given as functions.
 */
module Session {
  import opened Wrappers
  import opened Store

  /** Why a request was refused before anything else happened; both are answered with 401. */
  datatype Denial = AuthenticationRequired | InvalidToken

  /** The two token collaborators. */
  datatype Verifier = Verifier(
    extractToken: Option<string> -> Option<string>,
    verifyToken: string -> Option<TokenPayload>)

  const Unauthorized: nat := 401

  /** The token the header carries, when it is present and non-empty (`!token` treats "" as missing). */
  function Token(authorization: Option<string>, v: Verifier): (t: Option<string>)
    ensures t.Some? ==> t.value != "" && v.extractToken(authorization) == t
    ensures t.None? <==> v.extractToken(authorization) in {None, Some("")}
  {
    var token := v.extractToken(authorization);
    if token.Some? && token.value != "" then token else None
  }

  /** The session of a request: a missing token is refused first, an unverifiable one second. */
  function Authenticate(authorization: Option<string>, v: Verifier): (r: Result<TokenPayload, Denial>)
    ensures r == Err(AuthenticationRequired) <==> Token(authorization, v).None?
    ensures r == Err(InvalidToken) <==> Token(authorization, v).Some? && v.verifyToken(Token(authorization, v).value).None?
    ensures r.Ok? ==> Token(authorization, v).Some? && v.verifyToken(Token(authorization, v).value) == Some(r.value)
  {
    match Token(authorization, v)
    case None => Err(AuthenticationRequired)
    case Some(token) =>
      match v.verifyToken(token)
      case None => Err(InvalidToken)
      case Some(payload) => Ok(payload)
  }
}
