/**
  The widget's `startCall` reading the reply `get_token` returns: the browser hands the
  page the body only when CORS lets it, and then `data.success` and `data.error` are the
  server's `success` and `error` fields.
*/
module EndToEnd {
  import opened Options
  import TokenServer
  import CallWidget

  /** The two fields the widget reads from a `get_token` body; a missing `success` is falsy. */
  function ReplyOf(b: TokenServer.Body): (reply: CallWidget.TokenReply)
    ensures reply.success <==> TokenServer.SuccessField(b) == Some(true)
    ensures !reply.success && b.Unauthorized? ==> reply.error == Some(b.error)
    ensures !reply.success && b.GenerationFailed? ==> reply.error == Some(b.error)
  {
    match b
    case Preflight => CallWidget.TokenReply(false, None)
    case TokenIssued(_, _, _, _, _, _) => CallWidget.TokenReply(true, None)
    case Unauthorized(e) => CallWidget.TokenReply(false, Some(e))
    case GenerationFailed(e, _) => CallWidget.TokenReply(false, Some(e))
  }

  /**
    Whether the page that sent `req` may read the reply under the browser's CORS check. A
    same-origin fetch sends no Origin header. A cross-origin reply is readable only when it
    carries an Access-Control-Allow-Origin header naming the page: `get_token` sets one
    itself on a 200, and flask_cors adds one to every reply for a listed origin.
  */
  predicate Readable(req: TokenServer.Request, settings: TokenServer.Settings, r: TokenServer.Response)
  {
    || req.origin.None?
    || TokenServer.InList(req.origin, TokenServer.AllowedOrigins(settings.allowedOriginsEnv))
    || r.status == 200
  }

  /**
    What the widget's `fetch` settles with: the reply when the page may read it, otherwise
    the browser's network error, whose text `blocked` depends on the browser.
  */
  function WidgetFetch(req: TokenServer.Request, settings: TokenServer.Settings,
                       r: TokenServer.Response, blocked: string): CallWidget.Fetch
  {
    if Readable(req, settings, r) then CallWidget.Fetched(ReplyOf(r.body))
    else CallWidget.FetchRejected(blocked)
  }

  /** A refusal with a non-empty `error` ends in the catch block with exactly that text. */
  lemma ServerTextShown(e: string, connect: CallWidget.Outcome)
    requires e != ""
    ensures CallWidget.StartCallError(CallWidget.Fetched(CallWidget.TokenReply(false, Some(e))), connect) == Some(e)
  {
  }

  /**
    A GET the server refuses, or cannot serve for lack of credentials, ends in the widget's
    catch block with the server's own error text whenever the page may read the reply: a
    same-origin refusal, and a credentials failure on a same-origin or listed page.
  */
  lemma ServerErrorReachesWidget(req: TokenServer.Request, settings: TokenServer.Settings,
                                 roomHex: string, identityHex: string,
                                 sign: TokenServer.AccessClaims -> TokenServer.Signed, now: string,
                                 connect: CallWidget.Outcome, blocked: string)
    requires req.verb == TokenServer.Get
    ensures var allowed := TokenServer.AllowedOrigins(settings.allowedOriginsEnv);
      var r := TokenServer.GetToken(req, settings, roomHex, identityHex, sign, now);
      var decision := TokenServer.Authorize(req.origin, req.apiKey, settings.secretKey, allowed, req.host);
      var err := CallWidget.StartCallError(WidgetFetch(req, settings, r, blocked), connect);
      && (decision == TokenServer.Denied && req.origin.None? ==> err == Some(TokenServer.UnauthorizedMessage(req)))
      && (decision != TokenServer.Denied
          && !(TokenServer.Truthy(settings.livekitApiKey) && TokenServer.Truthy(settings.livekitApiSecret))
          && (req.origin.None? || TokenServer.InList(req.origin, allowed))
          ==> err == Some(TokenServer.MissingCredentials))
  {
    var allowed := TokenServer.AllowedOrigins(settings.allowedOriginsEnv);
    var r := TokenServer.GetToken(req, settings, roomHex, identityHex, sign, now);
    var decision := TokenServer.Authorize(req.origin, req.apiKey, settings.secretKey, allowed, req.host);
    if decision == TokenServer.Denied && req.origin.None? {
      var e := TokenServer.UnauthorizedMessage(req);
      assert r == TokenServer.Response(403, TokenServer.Unauthorized(e));
      assert WidgetFetch(req, settings, r, blocked) == CallWidget.Fetched(CallWidget.TokenReply(false, Some(e)));
      assert e[0] == 'U';
      ServerTextShown(e, connect);
    }
    if decision != TokenServer.Denied
       && !(TokenServer.Truthy(settings.livekitApiKey) && TokenServer.Truthy(settings.livekitApiSecret))
       && (req.origin.None? || TokenServer.InList(req.origin, allowed))
    {
      var e := TokenServer.MissingCredentials;
      assert r == TokenServer.Response(500, TokenServer.GenerationFailed(e, "Failed to generate token"));
      assert WidgetFetch(req, settings, r, blocked) == CallWidget.Fetched(CallWidget.TokenReply(false, Some(e)));
      ServerTextShown(e, connect);
    }
  }

  /**
    A refusal or failure served to a cross-origin page that is not listed carries no
    Access-Control-Allow-Origin header, so the widget sees only the browser's network
    error, never the server's text.
  */
  lemma UnlistedPageSeesNetworkError(req: TokenServer.Request, settings: TokenServer.Settings,
                                     roomHex: string, identityHex: string,
                                     sign: TokenServer.AccessClaims -> TokenServer.Signed, now: string,
                                     connect: CallWidget.Outcome, blocked: string)
    requires req.verb == TokenServer.Get
    ensures var allowed := TokenServer.AllowedOrigins(settings.allowedOriginsEnv);
      var r := TokenServer.GetToken(req, settings, roomHex, identityHex, sign, now);
      var err := CallWidget.StartCallError(WidgetFetch(req, settings, r, blocked), connect);
      req.origin.Some? && !TokenServer.InList(req.origin, allowed) && r.status != 200 ==> err == Some(blocked)
  {
  }

  /** An issued token is readable from any page; the call then fails only if `connect` does. */
  lemma IssuedTokenReachesWidget(req: TokenServer.Request, settings: TokenServer.Settings,
                                 roomHex: string, identityHex: string,
                                 sign: TokenServer.AccessClaims -> TokenServer.Signed, now: string,
                                 connect: CallWidget.Outcome, blocked: string)
    requires req.verb == TokenServer.Get
    ensures var r := TokenServer.GetToken(req, settings, roomHex, identityHex, sign, now);
      var err := CallWidget.StartCallError(WidgetFetch(req, settings, r, blocked), connect);
      && (r.status == 200 ==> (err.None? <==> connect.Resolved?))
      && (r.status != 200 ==> err.Some?)
  {
  }

  /**
    The widget's own request carries no X-API-Key header, so while SECRET_KEY is unset the
    server never answers it with 403, whatever page it is embedded in.
  */
  lemma WidgetNeverRefusedWithoutSecret(req: TokenServer.Request, settings: TokenServer.Settings,
                                        roomHex: string, identityHex: string,
                                        sign: TokenServer.AccessClaims -> TokenServer.Signed, now: string)
    requires req.verb == TokenServer.Get && req.apiKey.None? && settings.secretKey.None?
    ensures TokenServer.GetToken(req, settings, roomHex, identityHex, sign, now).status != 403
  {
  }
}
