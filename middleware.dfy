/**
 * The authentication middleware (src/localghost/auth/middleware.py).
 * `Authorize` is the decision `dispatch` reaches, as a function of the
 * request, the clock, the store's state and the consent dialog's answer;
 * `AuthMiddleware.Dispatch` reaches it step by step against the stateful
 * store and consent handler and is proved to agree with it.
 */
module Middleware {
  import opened Wrappers
  import opened Text
  import opened Crypto
  import opened Tokens
  import opened Permissions
  import opened Requests
  import opened Consent

  /** The public paths used when none (or an empty set) is configured. */
  const DefaultPublicPaths: set<string> := {"/health", "/capabilities", "/docs", "/openapi.json"}

  /** `public_paths or {...}`: an empty configured set is falsy and also gives the defaults. */
  function PublicPathsOf(configured: Option<set<string>>): (r: set<string>)
    ensures configured.Some? && configured.value != {} ==> r == configured.value
    ensures configured.None? || configured.value == {} ==> r == DefaultPublicPaths
    ensures r != {}
  {
    if configured.Some? && configured.value != {} then configured.value else DefaultPublicPaths
  }

  /** Paths that pass without any authentication. */
  predicate IsPublicPath(publicPaths: set<string>, path: string) {
    path in publicPaths || StartsWith(path, "/public/")
  }

  /** The message of the ValueError `int()` raises on a malformed X-Process-PID. */
  const InvalidPid: string := "invalid literal for int() with base 10"

  /**
   * `_identify_client`: a non-empty X-Client-ID header; otherwise the hashed
   * client id of X-Process-Name (default "unknown") and X-Process-PID,
   * where an absent or empty PID means no PID and a malformed one raises.
   */
  function IdentifyClient(m: TokenManager, req: Request): (r: Result<string>)
    ensures req.clientIdHeader.Some? && req.clientIdHeader.value != [] ==> r == Ok(req.clientIdHeader.value)
    ensures r.Raised? ==> r.error == InvalidPid && req.processPid.Some? && ParseInt(req.processPid.value).None?
    ensures (req.clientIdHeader.None? || req.clientIdHeader.value == []) && (req.processPid.None? || req.processPid.value == []) ==>
      r == Ok(GenerateClientId(m, req.processName.GetOr("unknown"), None))
    ensures (req.clientIdHeader.None? || req.clientIdHeader.value == []) && req.processPid.Some? && req.processPid.value != [] ==>
      && (r.Raised? <==> ParseInt(req.processPid.value).None?)
      && (r.Ok? ==> r.value == GenerateClientId(m, req.processName.GetOr("unknown"), ParseInt(req.processPid.value)))
    ensures HexDigest(m.sha256) && r.Ok? && (req.clientIdHeader.None? || req.clientIdHeader.value == []) ==>
      |r.value| == 16 && forall i :: 0 <= i < 16 ==> r.value[i] in HexDigits
  {
    if req.clientIdHeader.Some? && req.clientIdHeader.value != [] then
      Ok(req.clientIdHeader.value)
    else
      var name := req.processName.GetOr("unknown");
      if req.processPid.Some? && req.processPid.value != [] then
        match ParseInt(req.processPid.value)
        case None => Raised(InvalidPid)
        case Some(pid) => Ok(GenerateClientId(m, name, Some(pid)))
      else
        Ok(GenerateClientId(m, name, None))
  }

  /**
   * A process that sends its PID in decimal, within Python's digit limit, is
   * identified by its name and that PID.
   */
  lemma {:induction false} IdentifyByProcess(m: TokenManager, req: Request, pid: int)
    requires req.clientIdHeader.None? || req.clientIdHeader.value == []
    requires |NatToDecimal(Magnitude(pid))| <= MaxStrDigits
    requires req.processPid == Some(IntToDecimal(pid))
    ensures IdentifyClient(m, req) == Ok(GenerateClientId(m, req.processName.GetOr("unknown"), Some(pid)))
  {
    ParseIntRoundTrip(pid);
  }

  /**
   * Without X-Client-ID, a PID of more than MaxStrDigits digits makes `int()`
   * raise, so the request fails before any token, store or consent step.
   */
  lemma {:induction false} OverlongPidRaises(publicPaths: set<string>, m: TokenManager, req: Request, now: int,
                                             storeConnected: bool, rows: map<PairKey, Row>, stage: ConsentStage)
    requires req.clientIdHeader.None? || req.clientIdHeader.value == []
    requires req.processPid.Some? && |req.processPid.value| > MaxStrDigits
    requires forall i :: 0 <= i < |req.processPid.value| ==> IsDigit(req.processPid.value[i])
    ensures IdentifyClient(m, req) == Raised(InvalidPid)
    ensures !IsPublicPath(publicPaths, req.path) ==>
      Authorize(publicPaths, m, req, now, storeConnected, rows, stage) == Fault(InvalidPid)
  {
    OverlongRejected(req.processPid.value);
  }

  /** The bearer token of an Authorization header that starts with "Bearer ". */
  function BearerToken(authorization: Option<string>): (r: Option<string>)
    ensures r.Some? <==> authorization.Some? && StartsWith(authorization.value, "Bearer ")
    ensures r.Some? ==> authorization.value == "Bearer " + r.value
  {
    var header := authorization.GetOr("");
    if StartsWith(header, "Bearer ") then Some(header[7..]) else None
  }

  /**
   * The permissions a bearer token grants this client: present exactly when
   * the token validates now to a payload for the same client id, whatever
   * endpoint the payload names.
   */
  function TokenPermissions(m: TokenManager, authorization: Option<string>, clientId: string, now: int): (r: Option<seq<string>>)
    ensures r.Some? <==>
      BearerToken(authorization).Some? &&
      ValidateToken(m, BearerToken(authorization).value, now).Some? &&
      ValidateToken(m, BearerToken(authorization).value, now).value.clientId == clientId
    ensures r.Some? ==> r == Some(ValidateToken(m, BearerToken(authorization).value, now).value.permissions)
  {
    match BearerToken(authorization)
    case None => None
    case Some(token) =>
      match ValidateToken(m, token, now)
      case Some(p) => if p.clientId == clientId then Some(p.permissions) else None
      case None => None
  }

  /** Which check admitted a request. */
  datatype Route = ByToken | ByStoredGrant | ByConsent

  /**
   * What `dispatch` does with a request: pass it on unauthenticated, pass it
   * on with a client id and permissions, answer 401, or fail with an
   * exception.
   */
  datatype Verdict =
    | PassPublic
    | Admit(clientId: string, permissions: seq<string>, route: Route)
    | Unauthorized(clientId: string, endpoint: string)
    | Fault(error: string)

  /** Whether a consent handler is configured, and if so its store's state, the dialog's answer and its settings. */
  datatype ConsentStage = NoHandler | Handler(storeConnected: bool, answer: ConsentResult, settings: Settings)

  /** The decision `dispatch` reaches. */
  function Authorize(publicPaths: set<string>, m: TokenManager, req: Request, now: int,
                     storeConnected: bool, rows: map<PairKey, Row>, stage: ConsentStage): Verdict
  {
    if IsPublicPath(publicPaths, req.path) then PassPublic
    else match IdentifyClient(m, req)
      case Raised(e) => Fault(e)
      case Ok(clientId) =>
        match TokenPermissions(m, req.authorization, clientId, now)
        case Some(ps) => Admit(clientId, ps, ByToken)
        case None =>
          if !storeConnected then Fault(NotInitialized)
          else match LiveRow(rows, clientId, req.path, now)
            case Some(row) => Admit(clientId, row.permissions, ByStoredGrant)
            case None =>
              match stage
              case NoHandler => Unauthorized(clientId, req.path)
              case Handler(consentConnected, answer, settings) =>
                if answer == Denied then Unauthorized(clientId, req.path)
                else if !consentConnected then Fault(NotInitialized)
                else if ApprovalOverflows(answer, settings, now) then Fault(DateOverflow)
                else Admit(clientId, GrantedPermissions, ByConsent)
  }

  /** The consent dialog is shown: neither the token nor the store admitted an identified client, and a handler exists. */
  predicate PromptReached(publicPaths: set<string>, m: TokenManager, req: Request, now: int,
                          storeConnected: bool, rows: map<PairKey, Row>, hasHandler: bool)
  {
    && !IsPublicPath(publicPaths, req.path)
    && IdentifyClient(m, req).Ok?
    && TokenPermissions(m, req.authorization, IdentifyClient(m, req).value, now).None?
    && storeConnected
    && LiveRow(rows, IdentifyClient(m, req).value, req.path, now).None?
    && hasHandler
  }

  /** The store is consulted only for an identified, non-public request without a valid token. */
  predicate StoreReached(publicPaths: set<string>, m: TokenManager, req: Request, now: int)
  {
    && !IsPublicPath(publicPaths, req.path)
    && IdentifyClient(m, req).Ok?
    && TokenPermissions(m, req.authorization, IdentifyClient(m, req).value, now).None?
  }

  /** A public path passes whatever the headers, the store and the handler. */
  lemma PublicPathPasses(publicPaths: set<string>, m: TokenManager, req: Request, now: int,
                         storeConnected: bool, rows: map<PairKey, Row>, stage: ConsentStage)
    requires IsPublicPath(publicPaths, req.path)
    ensures Authorize(publicPaths, m, req, now, storeConnected, rows, stage) == PassPublic
    ensures !PromptReached(publicPaths, m, req, now, storeConnected, rows, stage.Handler?)
  {
  }

  /**
   * A valid token for the identified client admits it to any protected path,
   * not only the endpoint the token was issued for, and the store and the
   * handler are not consulted.
   */
  lemma {:induction false} TokenAdmitsAnyEndpoint(
    publicPaths: set<string>, m: TokenManager, req: Request, clientId: string,
    issuedFor: string, permissions: seq<string>, hours: Option<int>, issuedAt: int, nonce: Nonce, now: int,
    storeConnected: bool, rows: map<PairKey, Row>, stage: ConsentStage)
    requires Sound(m.fernet)
    requires !IsPublicPath(publicPaths, req.path) && IdentifyClient(m, req) == Ok(clientId)
    requires req.authorization == Some("Bearer " + GenerateToken(m, clientId, issuedFor, permissions, hours, issuedAt, nonce))
    requires hours.None? || now <= issuedAt + hours.value * 3600
    ensures Authorize(publicPaths, m, req, now, storeConnected, rows, stage) == Admit(clientId, permissions, ByToken)
    ensures !StoreReached(publicPaths, m, req, now)
  {
    var token := GenerateToken(m, clientId, issuedFor, permissions, hours, issuedAt, nonce);
    assert StartsWith("Bearer " + token, "Bearer ");
    assert BearerToken(req.authorization) == Some(token);
    GenerateValidateRoundTrip(m, clientId, issuedFor, permissions, hours, issuedAt, nonce, now);
  }

  /** A token issued to a different client id never admits by itself. */
  lemma {:induction false} OtherClientsTokenIgnored(
    publicPaths: set<string>, m: TokenManager, req: Request, clientId: string, otherId: string,
    endpoint: string, permissions: seq<string>, hours: Option<int>, issuedAt: int, nonce: Nonce, now: int,
    storeConnected: bool, rows: map<PairKey, Row>, stage: ConsentStage)
    requires Sound(m.fernet) && clientId != otherId
    requires !IsPublicPath(publicPaths, req.path) && IdentifyClient(m, req) == Ok(clientId)
    requires req.authorization == Some("Bearer " + GenerateToken(m, otherId, endpoint, permissions, hours, issuedAt, nonce))
    ensures StoreReached(publicPaths, m, req, now)
    ensures Authorize(publicPaths, m, req, now, storeConnected, rows, stage) !in
      {Admit(clientId, permissions, ByToken), PassPublic}
  {
    var token := GenerateToken(m, otherId, endpoint, permissions, hours, issuedAt, nonce);
    assert StartsWith("Bearer " + token, "Bearer ");
    assert BearerToken(req.authorization) == Some(token);
    var v := ValidateToken(m, token, now);
    if v.Some? {
      var p := IssuedPayload(otherId, endpoint, permissions, hours, issuedAt);
      DictRoundTrip(p);
      assert m.fernet.decrypt(m.secretKey, token) == Some(ToDict(p));
      assert v.value.clientId == otherId;
    }
  }

  /** How each verdict is reached: the order of the checks, stated for every input. */
  lemma VerdictCases(publicPaths: set<string>, m: TokenManager, req: Request, now: int,
                     storeConnected: bool, rows: map<PairKey, Row>, stage: ConsentStage)
    ensures var v := Authorize(publicPaths, m, req, now, storeConnected, rows, stage);
      && (v.PassPublic? <==> IsPublicPath(publicPaths, req.path))
      && (v.Admit? && v.route == ByToken <==>
            !IsPublicPath(publicPaths, req.path) && IdentifyClient(m, req).Ok? &&
            TokenPermissions(m, req.authorization, IdentifyClient(m, req).value, now).Some?)
      && (v.Admit? && v.route == ByStoredGrant <==>
            StoreReached(publicPaths, m, req, now) && storeConnected &&
            LiveRow(rows, IdentifyClient(m, req).value, req.path, now).Some?)
      && (v.Admit? && v.route == ByConsent <==>
            PromptReached(publicPaths, m, req, now, storeConnected, rows, stage.Handler?) &&
            stage.answer != Denied && stage.storeConnected && !ApprovalOverflows(stage.answer, stage.settings, now))
      && (v.Unauthorized? <==>
            PromptReached(publicPaths, m, req, now, storeConnected, rows, true) &&
            (stage.NoHandler? || stage.answer == Denied))
      && (v.Unauthorized? ==> v.clientId == IdentifyClient(m, req).value && v.endpoint == req.path)
      && (v.Admit? ==> v.clientId == IdentifyClient(m, req).value)
  {
  }

  /**
   * Once consent was given for a session or permanently, later requests of
   * that client to that path are admitted from the store, without a token
   * and without another prompt.
   */
  lemma LastingGrantNotPromptedAgain(
    publicPaths: set<string>, m: TokenManager, req: Request, clientId: string,
    rows: map<PairKey, Row>, answer: ConsentResult, settings: Settings,
    token: string, clientName: Option<string>, grantedAt: int, now: int, stage: ConsentStage)
    requires answer == AllowSession || answer == AllowPermanent
    requires !IsPublicPath(publicPaths, req.path) && IdentifyClient(m, req) == Ok(clientId)
    requires req.authorization.None?
    ensures
      var g := GrantTypeFor(answer);
      var rows' := rows[(clientId, req.path) :=
        NewRow(clientId, req.path, GrantedPermissions, g, token, clientName, TokenLifetime(g, settings), grantedAt)];
      && Authorize(publicPaths, m, req, now, true, rows', stage) == Admit(clientId, GrantedPermissions, ByStoredGrant)
      && !PromptReached(publicPaths, m, req, now, true, rows', stage.Handler?)
  {
  }

  /**
   * An ALLOW_ONCE grant admits from the store for five minutes; after that
   * the client is prompted again.
   */
  lemma AllowOnceLapses(
    publicPaths: set<string>, m: TokenManager, req: Request, clientId: string,
    rows: map<PairKey, Row>, settings: Settings,
    token: string, clientName: Option<string>, grantedAt: int, now: int)
    requires !IsPublicPath(publicPaths, req.path) && IdentifyClient(m, req) == Ok(clientId)
    requires req.authorization.None?
    ensures
      var rows' := rows[(clientId, req.path) :=
        NewRow(clientId, req.path, GrantedPermissions, Temporary, token, clientName, TokenLifetime(Temporary, settings), grantedAt)];
      && (now <= grantedAt + TemporarySeconds <==> !PromptReached(publicPaths, m, req, now, true, rows', true))
  {
  }

  /** The 401 response: its status code and JSON body. */
  const UnauthorizedMessage: string := "Access requires authorization. Use system tray to approve."

  function UnauthorizedResponse(clientId: string, endpoint: string): (r: (int, map<string, string>))
    ensures r.0 == 401
    ensures r.1.Keys == {"error", "message", "client_id", "endpoint"}
    ensures r.1["error"] == "unauthorized" && r.1["client_id"] == clientId && r.1["endpoint"] == endpoint
  {
    (401, map["error" := "unauthorized", "message" := UnauthorizedMessage, "client_id" := clientId, "endpoint" := endpoint])
  }

  class AuthMiddleware {
    const tokens: TokenManager
    const store: PermissionStore
    const publicPaths: set<string>
    const consent: ConsentHandler?

    constructor (tokens: TokenManager, store: PermissionStore, publicPaths: Option<set<string>>, consent: ConsentHandler?)
      ensures this.tokens == tokens && this.store == store && this.consent == consent
      ensures this.publicPaths == PublicPathsOf(publicPaths)
    {
      this.tokens := tokens;
      this.store := store;
      this.publicPaths := PublicPathsOf(publicPaths);
      this.consent := consent;
    }

    /**
     * `dispatch`: public paths pass; otherwise identify the client, then try
     * the bearer token, then the stored grant, then the consent handler, and
     * answer 401 when none admits. `answer` is what the dialog would answer.
     */
    method Dispatch(req: Request, now: int, nonce: Nonce, answer: ConsentResult) returns (v: Verdict)
      requires store.Valid()
      requires consent != null ==> consent.store.Valid()
      modifies store, consent, if consent != null then {consent.store} else {}
      ensures v == Authorize(publicPaths, tokens, req, now, old(store.connected), old(store.rows),
        if consent == null then NoHandler else Handler(old(consent.store.connected), answer, consent.settings))
      ensures store.Valid() && store.connected == old(store.connected)
      ensures !StoreReached(publicPaths, tokens, req, now) ==>
        store.rows == old(store.rows) && store.audit == old(store.audit) &&
        (consent != null ==> consent.shown == old(consent.shown))
      ensures consent != null && !PromptReached(publicPaths, tokens, req, now, old(store.connected), old(store.rows), true) ==>
        consent.shown == old(consent.shown)
      ensures consent != null && PromptReached(publicPaths, tokens, req, now, old(store.connected), old(store.rows), true) ==>
        consent.shown == old(consent.shown) + [ConsentPrompt(IdentifyClient(tokens, req).value, HeaderClientName(req),
          req.path, GrantedPermissions, consent.settings.consentTimeoutSeconds)]
      ensures consent != null ==> consent.pending == old(consent.pending) && consent.order == old(consent.order)
      ensures consent != null ==> consent.store.connected == old(consent.store.connected)
      ensures StoreReached(publicPaths, tokens, req, now) && !old(store.connected) ==>
        store.rows == old(store.rows) && store.audit == old(store.audit) &&
        (consent != null ==> consent.shown == old(consent.shown))
      // The store consulted: an expired row for the pair is deleted and its revoke logged; nothing else
      // changes unless the consent handler writes its grant into this same store.
      ensures (StoreReached(publicPaths, tokens, req, now) && old(store.connected) &&
               !(v.Admit? && v.route == ByConsent && consent != null && consent.store == store)) ==>
        var clientId := IdentifyClient(tokens, req).value;
        && store.rows == AfterLookup(old(store.rows), clientId, req.path, now)
        && store.audit == old(store.audit) + LookupAudit(old(store.rows), clientId, req.path, now)
      ensures v.Admit? && v.route == ByStoredGrant ==> store.rows == old(store.rows) && store.audit == old(store.audit)
      ensures v.Unauthorized? ==> (v.clientId, req.path) !in store.rows
      ensures consent != null && consent.store != store && !(v.Admit? && v.route == ByConsent) ==>
        consent.store.rows == old(consent.store.rows) && consent.store.audit == old(consent.store.audit)
      // A consent admission persists the full grant, on top of the lookup's effect when the stores are one.
      ensures v.Admit? && v.route == ByConsent ==>
        && consent != null
        && var g := GrantTypeFor(answer);
           var life := TokenLifetime(g, consent.settings);
           var token := GenerateToken(consent.tokens, v.clientId, req.path, GrantedPermissions, life, now, nonce);
           var rowsBefore := if consent.store == store then AfterLookup(old(store.rows), v.clientId, req.path, now)
                             else old(consent.store.rows);
           var auditBefore := if consent.store == store
                              then old(store.audit) + LookupAudit(old(store.rows), v.clientId, req.path, now)
                              else old(consent.store.audit);
           && consent.store.rows == rowsBefore[(v.clientId, req.path) :=
                NewRow(v.clientId, req.path, GrantedPermissions, g, token, Some(HeaderClientName(req)), life, now)]
           && consent.store.audit == auditBefore + [GrantEntry(v.clientId, req.path, g, now)]
    {
      if IsPublicPath(publicPaths, req.path) {
        return PassPublic;
      }
      var identified := IdentifyClient(tokens, req);
      if identified.Raised? {
        return Fault(identified.error);
      }
      var clientId := identified.value;
      var fromToken := TokenPermissions(tokens, req.authorization, clientId, now);
      if fromToken.Some? {
        return Admit(clientId, fromToken.value, ByToken);
      }
      var stored := store.CheckPermission(clientId, req.path, now);
      if stored.Raised? {
        return Fault(stored.error);
      }
      if stored.value.Some? {
        return Admit(clientId, stored.value.value.permissions, ByStoredGrant);
      }
      assert store.rows == AfterLookup(old(store.rows), clientId, req.path, now);
      assert store.audit == old(store.audit) + LookupAudit(old(store.rows), clientId, req.path, now);
      if consent != null {
        assert consent.store.connected == old(consent.store.connected);
        var reply := consent.Call(clientId, req.path, req, now, nonce, answer);
        if reply.Failure? {
          return Fault(reply.error);
        }
        if reply.Approved? {
          return Admit(clientId, reply.permissions, ByConsent);
        }
      }
      v := Unauthorized(clientId, req.path);
    }
  }
}
