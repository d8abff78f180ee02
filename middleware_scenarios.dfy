/**
 * Requests through a fresh middleware over a new database file, with one
 * store shared with the consent handler, as src/localghost/server.py:55-69
 * shares it.
 */
module MiddlewareScenarios {
  import opened Wrappers
  import opened Crypto
  import opened Tokens
  import opened Permissions
  import opened Requests
  import opened Consent
  import opened Middleware

  /**
   * A first request without a token is admitted by consent for the session;
   * the same request later is admitted from the stored grant, and the user
   * was prompted once.
   */
  method SessionConsentThenStoredGrant(tokens: TokenManager, req: Request, now: int, later: int, nonce: Nonce)
    returns (first: Verdict, second: Verdict, grant: Option<Row>)
    requires !IsPublicPath(DefaultPublicPaths, req.path) && req.authorization.None?
    requires IdentifyClient(tokens, req).Ok?
    ensures first == Admit(IdentifyClient(tokens, req).value, GrantedPermissions, ByConsent)
    ensures second == Admit(IdentifyClient(tokens, req).value, GrantedPermissions, ByStoredGrant)
    ensures grant.Some? && grant.value.grantType == Session && grant.value.expiresAt.None?
  {
    var store := new PermissionStore(map[], []);
    store.Initialize();
    var consent := new ConsentHandler(DefaultSettings, tokens, store);
    var middleware := new AuthMiddleware(tokens, store, None, consent);
    var clientId := IdentifyClient(tokens, req).value;
    assert TokenPermissions(tokens, req.authorization, clientId, now).None?;
    assert LiveRow(store.rows, clientId, req.path, now).None?;
    ApprovalOverflowCases(AllowSession, DefaultSettings, now);
    first := middleware.Dispatch(req, now, nonce, AllowSession);
    ghost var prompts := |consent.shown|;
    assert (clientId, req.path) in store.rows && store.rows[(clientId, req.path)].grantType == Session;
    LastingGrantNotPromptedAgain(DefaultPublicPaths, tokens, req, clientId, map[], AllowSession, DefaultSettings,
      GenerateToken(tokens, clientId, req.path, GrantedPermissions, TokenLifetime(Session, DefaultSettings), now, nonce),
      Some(HeaderClientName(req)), now, later, Handler(true, AllowSession, DefaultSettings));
    second := middleware.Dispatch(req, later, nonce, AllowSession);
    assert |consent.shown| == prompts == 1;
    grant := if (clientId, req.path) in store.rows then Some(store.rows[(clientId, req.path)]) else None;
  }
}
