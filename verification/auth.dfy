/**
 * Authentication of the WireGuard admin API: the claims an access token is
 * issued with, the decoding of a token into its user data, the 401 gate and
 * the three nested role gates (403). Signing, verifying and hashing are
 * outside the model: a token reaches it as the payload the JWT library
 * returned, or `None` when the library raised `JWTError`.
 */
module Auth {
  import opened Wrappers
  import Models

  /** A claim value of a JWT payload (JSON): a string, a NumericDate in seconds, or null. */
  datatype Claim = Str(s: string) | Time(seconds: int) | Null

  type Claims = map<string, Claim>

  /** `TokenData` of the data model. */
  datatype TokenData = TokenData(userId: string, username: string, role: string)

  datatype HttpError = HttpError(status: int, detail: string)

  const Unauthorized := 401
  const Forbidden := 403
  const InternalServerError := 500

  /** `JWT_EXPIRATION_HOURS` with no environment override. */
  const JwtExpirationHours := 24
  const SecondsPerHour := 3600

  // ---------------------------------------------------------------- issuing

  /**
   * The payload `create_access_token` signs: a copy of `data` with the `exp`
   * claim (section 4.1.4 of RFC 7519) set to `now + expiresDelta`, or to
   * `now + JWT_EXPIRATION_HOURS` hours when the delta is absent or zero (a zero
   * `timedelta` is falsy). Times are in seconds.
   */
  function AccessClaims(data: Claims, expiresDelta: Option<int>, now: int): (claims: Claims)
    ensures claims.Keys == data.Keys + {"exp"}
    ensures forall k :: k in data && k != "exp" ==> claims[k] == data[k]
    ensures expiresDelta.Some? && expiresDelta.value != 0 ==> claims["exp"] == Time(now + expiresDelta.value)
    ensures expiresDelta.None? || expiresDelta.value == 0 ==>
      claims["exp"] == Time(now + JwtExpirationHours * SecondsPerHour)
  {
    var delta := if expiresDelta.Some? && expiresDelta.value != 0 then expiresDelta.value
                 else JwtExpirationHours * SecondsPerHour;
    data["exp" := Time(now + delta)]
  }

  // ---------------------------------------------------------------- decoding

  /** What `decode_token` does with a token. */
  datatype Decoded =
    | Rejected              // it returns None
    | Accepted(data: TokenData)
    | Unvalidated           // building `TokenData` raises a validation error

  /** `payload.get(key)` as a string: `None` for a missing or null claim. */
  function Get(payload: Claims, key: string): Option<Claim>
  {
    if key in payload && payload[key] != Null then Some(payload[key]) else None
  }

  /**
   * `decode_token`: `None` when the library raised or `user_id`/`username` is
   * absent; the role is not checked here, so a missing or non-string claim
   * only fails when `TokenData` is built.
   */
  function DecodeToken(payload: Option<Claims>): (r: Decoded)
    ensures r.Rejected? <==>
      payload.None? || Get(payload.value, "user_id").None? || Get(payload.value, "username").None?
    ensures r.Accepted? <==>
      payload.Some? && Get(payload.value, "user_id").Some? && Get(payload.value, "username").Some? &&
      payload.value["user_id"].Str? && payload.value["username"].Str? &&
      Get(payload.value, "role").Some? && payload.value["role"].Str?
    ensures r.Accepted? ==>
      payload.value["user_id"] == Str(r.data.userId) &&
      payload.value["username"] == Str(r.data.username) &&
      payload.value["role"] == Str(r.data.role)
  {
    if payload.None? then Rejected
    else
      var p := payload.value;
      match (Get(p, "user_id"), Get(p, "username"), Get(p, "role"))
      case (None, _, _) => Rejected
      case (_, None, _) => Rejected
      case (Some(Str(id)), Some(Str(name)), Some(Str(role))) => Accepted(TokenData(id, name, role))
      case _ => Unvalidated
  }

  /** A token issued for a user's claims decodes back to that user, whatever its expiry. */
  lemma DecodeIssued(data: Claims, expiresDelta: Option<int>, now: int, id: string, name: string, role: string)
    requires "user_id" in data && data["user_id"] == Str(id)
    requires "username" in data && data["username"] == Str(name)
    requires "role" in data && data["role"] == Str(role)
    ensures DecodeToken(Some(AccessClaims(data, expiresDelta, now))) == Accepted(TokenData(id, name, role))
  {
    var claims := AccessClaims(data, expiresDelta, now);
    assert claims["user_id"] == Str(id) && claims["username"] == Str(name) && claims["role"] == Str(role);
  }

  // ---------------------------------------------------------------- gates

  /** `get_current_user`: the decoded user, 401 when the token is rejected. */
  function GetCurrentUser(payload: Option<Claims>): (r: Result<TokenData, HttpError>)
    ensures r.Err? && r.error.status == Unauthorized <==> DecodeToken(payload).Rejected?
    ensures r.Ok? <==> DecodeToken(payload).Accepted?
    ensures r.Ok? ==> r.value == DecodeToken(payload).data
  {
    match DecodeToken(payload)
    case Rejected => Err(HttpError(Unauthorized, "Invalid or expired token"))
    case Accepted(data) => Ok(data)
    // The framework answers the uncaught validation error with its own 500
    // body; this detail text is the model's, not the source's.
    case Unvalidated => Err(HttpError(InternalServerError, "TokenData validation error"))
  }

  /** The user is one of the given roles. */
  predicate HasRoleIn(user: TokenData, roles: set<Models.UserRole>)
  {
    exists r :: r in roles && r.Value() == user.role
  }

  /** `require_super_admin`: only `super_admin` passes, anyone else gets 403. */
  function RequireSuperAdmin(user: TokenData): (r: Result<TokenData, HttpError>)
    ensures r.Ok? <==> HasRoleIn(user, {Models.UserRole.SuperAdmin})
    ensures r.Ok? ==> r.value == user
    ensures r.Err? ==> r.error.status == Forbidden
  {
    if user.role != Models.UserRole.SuperAdmin.Value() then
      Err(HttpError(Forbidden, "Super admin access required"))
    else
      Ok(user)
  }

  /** `require_admin`: `super_admin` and `admin` pass, anyone else gets 403. */
  function RequireAdmin(user: TokenData): (r: Result<TokenData, HttpError>)
    ensures r.Ok? <==> HasRoleIn(user, {Models.UserRole.SuperAdmin, Models.UserRole.Admin})
    ensures r.Ok? ==> r.value == user
    ensures r.Err? ==> r.error.status == Forbidden
  {
    if user.role !in [Models.UserRole.SuperAdmin.Value(), Models.UserRole.Admin.Value()] then
      Err(HttpError(Forbidden, "Admin access required"))
    else
      Ok(user)
  }

  /** `require_support`: every role of the model passes, any other role string gets 403. */
  function RequireSupport(user: TokenData): (r: Result<TokenData, HttpError>)
    ensures r.Ok? <==> HasRoleIn(user, {Models.UserRole.SuperAdmin, Models.UserRole.Admin, Models.UserRole.Support})
    ensures r.Ok? ==> r.value == user
    ensures r.Err? ==> r.error.status == Forbidden
  {
    if user.role !in [Models.UserRole.SuperAdmin.Value(), Models.UserRole.Admin.Value(),
                      Models.UserRole.Support.Value()] then
      Err(HttpError(Forbidden, "Support access required"))
    else
      Ok(user)
  }

  /** The gates are nested: super-admin implies admin implies support. */
  lemma GatesNested(user: TokenData)
    ensures RequireSuperAdmin(user).Ok? ==> RequireAdmin(user).Ok?
    ensures RequireAdmin(user).Ok? ==> RequireSupport(user).Ok?
  {
  }

  /** The nesting is strict: an admin is no super admin, a support user no admin. */
  lemma GatesStrict(id: string, name: string)
    ensures RequireSuperAdmin(TokenData(id, name, "admin")).Err?
    ensures RequireAdmin(TokenData(id, name, "support")).Err?
    ensures RequireSupport(TokenData(id, name, "support")).Ok?
  {
  }

  /** A role gate as a dependency of an endpoint: first the 401 gate, then the role check. */
  function Authorize(payload: Option<Claims>, gate: TokenData -> Result<TokenData, HttpError>): Result<TokenData, HttpError>
  {
    match GetCurrentUser(payload)
    case Err(e) => Err(e)
    case Ok(user) => gate(user)
  }

  /** A rejected token is answered with 401 before any role check. */
  lemma UnauthorizedBeforeForbidden(payload: Option<Claims>, gate: TokenData -> Result<TokenData, HttpError>)
    requires DecodeToken(payload).Rejected?
    ensures Authorize(payload, gate) == Err(HttpError(Unauthorized, "Invalid or expired token"))
  {
  }
}
