/** API-key authentication and tenant resolution shared by the routes. */
module Deps {
  import opened Wrappers
  import Text

  const Unauthorized: int := 401

  /** A header counts only when present and non-empty (Python truthiness). */
  predicate Given(h: Option<string>) { h.Some? && h.value != "" }

  /** The key carried by the request: `X-API-Key` first, else an `Authorization: Bearer <token>` token. */
  function ExtractApiKey(xApiKey: Option<string>, authorization: Option<string>): (key: Option<string>)
    ensures Given(xApiKey) ==> key == xApiKey
    ensures !Given(xApiKey) && authorization.Some? && Text.StartsWith(authorization.value, "Bearer ")
      ==> key == Some(authorization.value[7..])
    ensures !Given(xApiKey) && !(authorization.Some? && Text.StartsWith(authorization.value, "Bearer ")) ==> key.None?
  {
    if Given(xApiKey) then xApiKey
    else if authorization.Some? && authorization.value != "" && Text.StartsWith(authorization.value, "Bearer ") then
      Some(authorization.value[7..])
    else None
  }

  /** `verify_api_key`: any non-empty key is accepted; without one, debug mode answers "development" and otherwise 401. */
  function VerifyApiKey(xApiKey: Option<string>, authorization: Option<string>, debug: bool): (r: Result<string, int>)
    ensures r.Err? <==> !debug && !Given(ExtractApiKey(xApiKey, authorization))
    ensures r.Err? ==> r.error == Unauthorized
    ensures Given(ExtractApiKey(xApiKey, authorization)) ==> r == Ok(ExtractApiKey(xApiKey, authorization).value)
    ensures debug && !Given(ExtractApiKey(xApiKey, authorization)) ==> r == Ok("development")
  {
    var key := ExtractApiKey(xApiKey, authorization);
    if debug && !Given(key) then Ok("development")
    else if !Given(key) then Err(Unauthorized)
    else Ok(key.value)
  }

  /** `get_current_tenant`: the `X-Tenant-ID` header when given, else "default"; authentication runs first. */
  function CurrentTenant(xTenantId: Option<string>, xApiKey: Option<string>, authorization: Option<string>, debug: bool): (r: Result<string, int>)
    ensures VerifyApiKey(xApiKey, authorization, debug).Err? ==> r == Err(Unauthorized)
    ensures VerifyApiKey(xApiKey, authorization, debug).Ok? ==> r == Ok(if Given(xTenantId) then xTenantId.value else "default")
  {
    match VerifyApiKey(xApiKey, authorization, debug)
    case Err(e) => Err(e)
    case Ok(_) => Ok(if Given(xTenantId) then xTenantId.value else "default")
  }

  /** A bearer token given with an empty `X-API-Key` still authenticates, and the token is returned without its prefix. */
  lemma BearerRoundTrip(token: string, debug: bool)
    requires token != ""
    ensures VerifyApiKey(Some(""), Some("Bearer " + token), debug) == Ok(token)
  {
    var h := "Bearer " + token;
    assert h[..7] == "Bearer ";
    assert h[7..] == token;
  }
}
