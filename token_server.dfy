/**
  The decision logic of the token endpoint (app.py): the allowed-origins list read from the
  environment, the authorization rule of `get_token`, the permission merge and precondition of
  `make_token`, and the status and body of every response `get_token` can give.
  Environment values, the request, the two uuid4 hex strings, the clock and the JWT signer
  are parameters.
*/
module TokenServer {
  import opened Options
  import opened PyText

  // ---------------------------------------------------------------------------------------
  // ALLOWED_ORIGINS

  /** `[p.strip() for p in parts if p.strip()]`. */
  function StrippedNonEmpty(parts: seq<string>): seq<string>
  {
    if parts == [] then []
    else (if Strip(parts[0]) != "" then [Strip(parts[0])] else []) + StrippedNonEmpty(parts[1..])
  }

  /** `ALLOWED_ORIGINS`, from the value of the variable (`None` when it is unset, read as ""). */
  function AllowedOrigins(env: Option<string>): seq<string>
  {
    StrippedNonEmpty(Split(env.GetOr(""), ','))
  }

  lemma {:induction false} StrippedNonEmptyMembers(parts: seq<string>, o: string)
    ensures o in StrippedNonEmpty(parts) <==> o != "" && exists p :: p in parts && Strip(p) == o
  {
    if parts != [] {
      StrippedNonEmptyMembers(parts[1..], o);
      assert forall p :: p in parts <==> p == parts[0] || p in parts[1..];
    }
  }

  /** An origin is allowed iff it is a non-empty, stripped comma-separated piece of the variable. */
  lemma AllowedOriginsMembers(env: string, o: string)
    ensures o in AllowedOrigins(Some(env)) <==> o != "" && exists p :: p in Split(env, ',') && Strip(p) == o
  {
    StrippedNonEmptyMembers(Split(env, ','), o);
  }

  /** Every allowed origin is non-empty, has no comma and no surrounding whitespace. */
  lemma AllowedOriginsWellFormed(env: Option<string>)
    ensures forall o :: o in AllowedOrigins(env) ==>
      o != "" && ',' !in o && Strip(o) == o && !IsSpace(o[0]) && !IsSpace(o[|o| - 1])
  {
    var parts := Split(env.GetOr(""), ',');
    forall o | o in AllowedOrigins(env)
      ensures o != "" && ',' !in o && Strip(o) == o && !IsSpace(o[0]) && !IsSpace(o[|o| - 1])
    {
      StrippedNonEmptyMembers(parts, o);
      var p :| p in parts && Strip(p) == o;
      StripKeepsOut(p, ',');
      assert LeadingSpaces(o) == 0;
      assert TrailingSpaces(o) == 0;
    }
  }

  /** An unset or empty variable allows no origin. */
  lemma NoOriginsWhenUnset()
    ensures AllowedOrigins(None) == []
    ensures AllowedOrigins(Some("")) == []
  {
    assert Split("", ',') == [""];
  }

  // ---------------------------------------------------------------------------------------
  // Authorization

  /** Which branch of `get_token`'s if/elif chain let the request through, if any. */
  datatype Decision = TrustedOrigin | ApiKeyMatch | LocalDevelopment | Denied

  /** Python truthiness of an optional string: `None` and `""` are false. */
  predicate Truthy(s: Option<string>)
  {
    s.Some? && s.value != ""
  }

  /** `origin in ALLOWED_ORIGINS`; `None` is in no list of strings. */
  predicate InList(origin: Option<string>, allowed: seq<string>)
  {
    origin.Some? && origin.value in allowed
  }

  /**
    The if/elif chain of `get_token`: a trusted origin, then an API key equal to SECRET_KEY
    (Python `==` on two possibly-`None` values), then no origin from a host "127.0.0.1...".
  */
  function Authorize(origin: Option<string>, apiKey: Option<string>, secretKey: Option<string>,
                     allowed: seq<string>, host: string): (d: Decision)
    ensures d != Denied <==>
      InList(origin, allowed) || apiKey == secretKey || (!Truthy(origin) && "127.0.0.1" <= host)
    ensures d == TrustedOrigin <==> InList(origin, allowed)
    ensures d == ApiKeyMatch <==> !InList(origin, allowed) && apiKey == secretKey
  {
    if InList(origin, allowed) then TrustedOrigin
    else if apiKey == secretKey then ApiKeyMatch
    else if !Truthy(origin) && "127.0.0.1" <= host then LocalDevelopment
    else Denied
  }

  /** With SECRET_KEY unset, a request without an X-API-Key header is let in from any origin. */
  lemma UnsetSecretKeyAdmitsAll(origin: Option<string>, allowed: seq<string>, host: string)
    ensures Authorize(origin, None, None, allowed, host) != Denied
  {
  }

  // ---------------------------------------------------------------------------------------
  // make_token

  /** `VideoGrants` as `make_token` fills it in. */
  datatype VideoGrants = VideoGrants(
    room: string,
    roomJoin: bool,
    canPublish: bool,
    canSubscribe: bool,
    canPublishData: bool,
    roomAdmin: bool,
    roomCreate: bool)

  /** The claims the access token is signed with (signing itself is not modelled). */
  datatype AccessClaims = AccessClaims(
    apiKey: string,
    apiSecret: string,
    identity: string,
    name: string,
    ttlSeconds: nat,
    grants: VideoGrants)

  /** `make_token` either builds the claims or raises `ValueError`. */
  datatype TokenResult = Minted(claims: AccessClaims) | ValueError(message: string)

  const MissingCredentials := "LiveKit API key and secret are required"

  /** `timedelta(hours=6)`, in seconds. */
  const TokenTtlSeconds: nat := 6 * 60 * 60

  /** `default_permissions` before any update. */
  function DefaultPermissions(): map<string, bool>
  {
    map["room_join" := true, "can_publish" := true, "can_subscribe" := true,
        "can_publish_data" := true, "room_admin" := false, "room_create" := false]
  }

  /** `default_permissions` after `update(permissions)` when `permissions` is truthy. */
  function MergePermissions(permissions: Option<map<string, bool>>): map<string, bool>
  {
    var defaults := DefaultPermissions();
    if permissions.Some? && |permissions.value| > 0 then defaults + permissions.value else defaults
  }

  /** The value a grant takes: the caller's override if present, else `default`. */
  function Grant(permissions: Option<map<string, bool>>, key: string, default: bool): bool
  {
    if permissions.Some? && key in permissions.value then permissions.value[key] else default
  }

  /** `make_token(identity, room, permissions)`, up to the `to_jwt` call. */
  function MakeToken(apiKey: Option<string>, apiSecret: Option<string>, identity: string, room: string,
                     permissions: Option<map<string, bool>>): (r: TokenResult)
    ensures r.ValueError? <==> !Truthy(apiKey) || !Truthy(apiSecret)
    ensures r.ValueError? ==> r.message == MissingCredentials
    ensures r.Minted? ==>
      && r.claims.apiKey == apiKey.value && r.claims.apiSecret == apiSecret.value
      && r.claims.identity == identity && r.claims.name == identity
      && r.claims.ttlSeconds == 21600
      && r.claims.grants.room == room
      && r.claims.grants.roomJoin == Grant(permissions, "room_join", true)
      && r.claims.grants.canPublish == Grant(permissions, "can_publish", true)
      && r.claims.grants.canSubscribe == Grant(permissions, "can_subscribe", true)
      && r.claims.grants.canPublishData == Grant(permissions, "can_publish_data", true)
      && r.claims.grants.roomAdmin == Grant(permissions, "room_admin", false)
      && r.claims.grants.roomCreate == Grant(permissions, "room_create", false)
  {
    if !Truthy(apiKey) || !Truthy(apiSecret) then ValueError(MissingCredentials)
    else
      var p := MergePermissions(permissions);
      var grants := VideoGrants(room, p["room_join"], p["can_publish"], p["can_subscribe"],
                                p["can_publish_data"], p["room_admin"], p["room_create"]);
      Minted(AccessClaims(apiKey.value, apiSecret.value, identity, identity, TokenTtlSeconds, grants))
  }

  /** Override keys other than the six grant names have no effect on the grants. */
  lemma ExtraKeysIgnored(apiKey: Option<string>, apiSecret: Option<string>, identity: string, room: string,
                         p: map<string, bool>, q: map<string, bool>)
    requires forall k :: k in DefaultPermissions() ==> (k in p <==> k in q) && (k in p ==> p[k] == q[k])
    ensures MakeToken(apiKey, apiSecret, identity, room, Some(p)) == MakeToken(apiKey, apiSecret, identity, room, Some(q))
  {
  }

  // ---------------------------------------------------------------------------------------
  // get_token

  datatype HttpMethod = Get | Options

  /** What `get_token` reads from the request. */
  datatype Request = Request(
    verb: HttpMethod,
    origin: Option<string>,
    apiKey: Option<string>,
    host: string,
    roomArg: Option<string>,
    identityArg: Option<string>)

  /** The module-level settings read from the environment at start-up. */
  datatype Settings = Settings(
    livekitUrl: Option<string>,
    livekitApiKey: Option<string>,
    livekitApiSecret: Option<string>,
    secretKey: Option<string>,
    allowedOriginsEnv: Option<string>)

  /** The JSON bodies `get_token` returns. */
  datatype Body =
    | Preflight
    | TokenIssued(url: Option<string>, token: string, room: string, identity: string,
                  expiresIn: string, generatedAt: string)
    | Unauthorized(error: string)
    | GenerationFailed(error: string, message: string)

  datatype Response = Response(status: nat, body: Body)

  /** The outcome of `AccessToken.to_jwt()`: a token or the text of the exception it raised. */
  datatype Signed = Jwt(jwt: string) | SigningError(message: string)

  /** The `success` field of a body; the preflight body `{'status': 'ok'}` has none. */
  function SuccessField(b: Body): Option<bool>
  {
    match b
    case Preflight => None
    case TokenIssued(_, _, _, _, _, _) => Some(true)
    case Unauthorized(_) => Some(false)
    case GenerationFailed(_, _) => Some(false)
  }

  /** How an f-string shows an optional header: `None` prints as "None". */
  function Show(s: Option<string>): string
  {
    s.GetOr("None")
  }

  function UnauthorizedMessage(req: Request): string
  {
    "Unauthorized request | Origin: " + Show(req.origin) + " | API Key: " + Show(req.apiKey)
      + " | Host: " + req.host
  }

  /**
    `get_token`. `roomHex` and `identityHex` are the `.hex` of the two `uuid4()` calls made for
    the defaults of `room` and `identity`, `sign` stands for `to_jwt`, `now` for the ISO time.
  */
  function GetToken(req: Request, settings: Settings, roomHex: string, identityHex: string,
                    sign: AccessClaims -> Signed, now: string): (r: Response)
    ensures req.verb == Options ==> r == Response(200, Preflight)
    ensures req.verb == Get ==>
      var decision := Authorize(req.origin, req.apiKey, settings.secretKey,
                                AllowedOrigins(settings.allowedOriginsEnv), req.host);
      var room := req.roomArg.GetOr("widget-room-" + Take(roomHex, 8));
      var identity := req.identityArg.GetOr("user-" + Take(identityHex, 6));
      && (decision == Denied ==> r == Response(403, Unauthorized(UnauthorizedMessage(req))))
      && (r.status == 403 <==> decision == Denied)
      && (decision != Denied && !(Truthy(settings.livekitApiKey) && Truthy(settings.livekitApiSecret)) ==>
            r == Response(500, GenerationFailed(MissingCredentials, "Failed to generate token")))
      && (decision != Denied && Truthy(settings.livekitApiKey) && Truthy(settings.livekitApiSecret) ==>
            var claims := AccessClaims(settings.livekitApiKey.value, settings.livekitApiSecret.value,
              identity, identity, TokenTtlSeconds, VideoGrants(room, true, true, true, true, false, false));
            && (sign(claims).Jwt? ==>
                  r == Response(200, TokenIssued(settings.livekitUrl, sign(claims).jwt, room, identity, "6 hours", now)))
            && (sign(claims).SigningError? ==>
                  r == Response(500, GenerationFailed(sign(claims).message, "Failed to generate token"))))
      && (r.status == 200 <==> r.body.TokenIssued?)
      && (r.body.TokenIssued? ==>
            && decision != Denied
            && r.body.room == room && r.body.identity == identity
            && r.body.url == settings.livekitUrl
            && r.body.expiresIn == "6 hours" && r.body.generatedAt == now)
      && (r.status in {200, 403, 500})
  {
    if req.verb == Options then Response(200, Preflight)
    else
      var allowed := AllowedOrigins(settings.allowedOriginsEnv);
      var decision := Authorize(req.origin, req.apiKey, settings.secretKey, allowed, req.host);
      if decision == Denied then Response(403, Unauthorized(UnauthorizedMessage(req)))
      else
        var room := req.roomArg.GetOr("widget-room-" + Take(roomHex, 8));
        var identity := req.identityArg.GetOr("user-" + Take(identityHex, 6));
        match MakeToken(settings.livekitApiKey, settings.livekitApiSecret, identity, room, None)
        case ValueError(e) => Response(500, GenerationFailed(e, "Failed to generate token"))
        case Minted(claims) =>
          match sign(claims)
          case SigningError(e) => Response(500, GenerationFailed(e, "Failed to generate token"))
          case Jwt(token) =>
            Response(200, TokenIssued(settings.livekitUrl, token, room, identity, "6 hours", now))
  }

  /** Every refusal and every failure carries `success: False`; only a 200 GET carries `True`. */
  lemma SuccessMatchesStatus(req: Request, settings: Settings, roomHex: string, identityHex: string,
                             sign: AccessClaims -> Signed, now: string)
    requires req.verb == Get
    ensures var r := GetToken(req, settings, roomHex, identityHex, sign, now);
      SuccessField(r.body) == Some(r.status == 200)
  {
  }

  /** An issued token carries exactly the default grants of `make_token`, for the room it names. */
  lemma IssuedTokenGrants(req: Request, settings: Settings, roomHex: string, identityHex: string,
                          sign: AccessClaims -> Signed, now: string)
    requires GetToken(req, settings, roomHex, identityHex, sign, now).body.TokenIssued?
    ensures var r := GetToken(req, settings, roomHex, identityHex, sign, now);
      var claims := AccessClaims(settings.livekitApiKey.value, settings.livekitApiSecret.value,
        r.body.identity, r.body.identity, TokenTtlSeconds,
        VideoGrants(r.body.room, true, true, true, true, false, false));
      Truthy(settings.livekitApiKey) && Truthy(settings.livekitApiSecret) && sign(claims) == Jwt(r.body.token)
  {
  }
}
