/**
 * The `POST /ensureuser` route: after bearer authentication has attached the
 * caller's claims, it exchanges the caller's token on behalf of the user,
 * exchanges the refresh token it gets for a SharePoint token, asks the site
 * to ensure the user, and answers with the user record; any failure skips the
 * remaining steps and is mapped to an HTTP error answer.
 *
 * `Handle` states the route's whole effect as a value (the requests it posts,
 * in order, and the answer it writes, if any); `EnsureUser` is the handler
 * itself, step by step, writing to a response object, and is proved to have
 * exactly that effect.
 */
module EnsureUserRoute {
  import opened Options
  import opened JsString
  import opened Http
  import opened CredentialExchanger
  import opened UserResolver

  /** The claims the bearer strategy attaches as `req.user`. */
  datatype Claims = Claims(tid: string, name: string, upn: string)

  /**
   * An authenticated request: its claims, its `Authorization` header and the
   * `domain` and `siteUrl` fields of its JSON body, each possibly absent.
   */
  datatype Inbound = Inbound(user: Claims, authorization: Option<string>, domain: Option<string>, siteUrl: Option<string>)

  /** The two upstream services: the identity platform's token endpoint and SharePoint. */
  datatype Upstream = Upstream(login: TokenEndpointCall, sharePoint: SiteCall)

  /** What `res.send` is given: the user record, a message (maybe `undefined`), or a thrown value. */
  datatype Payload = UserJson(user: User) | Text(text: Option<string>) | ErrorJson(error: Thrown)

  datatype Reply = Reply(status: int, payload: Payload)

  /** The route's effect: the requests posted, in order, and the answer (`None`: it never answers). */
  datatype Trace = Trace(sent: seq<HttpRequest>, reply: Option<Reply>)

  /** The assertion for the on-behalf-of exchange: the header with its first "Bearer " removed. */
  function StripBearer(header: string): string {
    Replace(header, "Bearer ", "")
  }

  /**
   * The `catch` block: a truthy `err.status` is forwarded with `err.message`
   * as the body; otherwise the answer is 500 with the error itself.
   */
  function ErrorReply(e: Thrown): (r: Reply)
    ensures !r.payload.UserJson?
    ensures Truthy(StatusOf(e)) ==> r.status == StatusOf(e).value && r.payload == Text(MessageOf(e))
    ensures !Truthy(StatusOf(e)) ==> r.status == 500 && r.payload == ErrorJson(e)
  {
    if Truthy(StatusOf(e)) then Reply(StatusOf(e).value, Text(MessageOf(e)))
    else Reply(500, ErrorJson(e))
  }

  /** The on-behalf-of request the route posts for a present header. */
  function RouteOboRequest(cfg: Config, req: Inbound): HttpRequest
    requires req.authorization.Some?
  {
    OboRequest(cfg, req.user.tid, StripBearer(req.authorization.value), GraphScopes)
  }

  /** What the token endpoint does with the route's on-behalf-of request. */
  function OboOutcome(cfg: Config, up: Upstream, req: Inbound): AxiosOutcome<TokenBody>
    requires req.authorization.Some?
  {
    up.login(RouteOboRequest(cfg, req))
  }

  /** The route's whole effect for one request. */
  function Handle(cfg: Config, up: Upstream, req: Inbound): Trace {
    match req.authorization
    case None => Trace([], Some(ErrorReply(TypeError("replace"))))
    case Some(header) =>
      var assertion := StripBearer(header);
      var oboRequest := OboRequest(cfg, req.user.tid, assertion, GraphScopes);
      match ExchangeForToken(cfg, up.login, req.user.tid, assertion, GraphScopes)
      case Pending => Trace([oboRequest], None)
      case Rejected(e) => Trace([oboRequest], Some(ErrorReply(e)))
      case Fulfilled(tokens) =>
        match req.domain
        case None => Trace([oboRequest], Some(ErrorReply(TypeError("toLowerCase"))))
        case Some(domain) =>
          var authority, scope := Authority(domain), SpoScope(domain);
          var spoRequest := RefreshRequest(cfg, authority, scope, tokens.refreshToken);
          match GetSPOToken(cfg, up.login, authority, scope, tokens.refreshToken)
          case Pending => Trace([oboRequest, spoRequest], None)
          case Rejected(e) => Trace([oboRequest, spoRequest], Some(ErrorReply(e)))
          case Fulfilled(spoToken) =>
            var siteRequest := EnsureUserRequest(spoToken, req.user.upn, req.siteUrl);
            var sent := [oboRequest, spoRequest, siteRequest];
            match EnsureSPOUserByLogin(up.sharePoint, spoToken, req.user.upn, req.siteUrl)
            case Pending => Trace(sent, None)
            case Rejected(e) => Trace(sent, Some(ErrorReply(e)))
            case Fulfilled(user) => Trace(sent, Some(Reply(200, UserJson(user))))
  }

  /** Express's response object: its status code and what has been sent. */
  class ExpressResponse {
    var statusCode: int
    var sent: Option<Payload>

    constructor ()
      ensures statusCode == 200 && sent == None
    {
      statusCode := 200;
      sent := None;
    }

    /** The answer written so far, if any. */
    function Written(): Option<Reply>
      reads this
    {
      if sent.Some? then Some(Reply(statusCode, sent.value)) else None
    }

    /** `res.status(code)`. */
    method Status(code: int)
      modifies this
      ensures statusCode == code && sent == old(sent)
    {
      statusCode := code;
    }

    /** `res.send(payload)`: an answer is sent once. */
    method Send(payload: Payload)
      requires sent.None?
      modifies this
      ensures sent == Some(payload) && statusCode == old(statusCode)
    {
      sent := Some(payload);
    }
  }

  /** The route's `catch` block, writing the error answer. */
  method SendError(res: ExpressResponse, err: Thrown)
    requires res.sent.None?
    modifies res
    ensures res.Written() == Some(ErrorReply(err))
  {
    if Truthy(StatusOf(err)) {
      res.Status(StatusOf(err).value);
      res.Send(Text(MessageOf(err)));
    } else {
      res.Status(500);
      res.Send(ErrorJson(err));
    }
  }

  /**
   * The handler: awaits each step in turn, returns the requests it posted and
   * leaves in `res` exactly the answer `Handle` describes (none when a step
   * never settles).
   */
  method EnsureUser(cfg: Config, up: Upstream, req: Inbound, res: ExpressResponse) returns (posted: seq<HttpRequest>)
    requires res.statusCode == 200 && res.sent.None?
    modifies res
    ensures posted == Handle(cfg, up, req).sent
    ensures res.Written() == Handle(cfg, up, req).reply
    ensures res.sent.None? ==> res.statusCode == old(res.statusCode)
  {
    posted := [];
    if req.authorization.None? {
      SendError(res, TypeError("replace"));
      return;
    }
    var assertion := StripBearer(req.authorization.value);
    posted := posted + [OboRequest(cfg, req.user.tid, assertion, GraphScopes)];
    var tokenResult := ExchangeForToken(cfg, up.login, req.user.tid, assertion, GraphScopes);
    if tokenResult.Pending? {
      return;
    } else if tokenResult.Rejected? {
      SendError(res, tokenResult.reason);
      return;
    }
    var refreshToken := tokenResult.value.refreshToken;
    if req.domain.None? {
      SendError(res, TypeError("toLowerCase"));
      return;
    }
    var teamSiteDomain := req.domain.value;
    var authority, scope := Authority(teamSiteDomain), SpoScope(teamSiteDomain);
    posted := posted + [RefreshRequest(cfg, authority, scope, refreshToken)];
    var spoAccessToken := GetSPOToken(cfg, up.login, authority, scope, refreshToken);
    if spoAccessToken.Pending? {
      return;
    } else if spoAccessToken.Rejected? {
      SendError(res, spoAccessToken.reason);
      return;
    }
    posted := posted + [EnsureUserRequest(spoAccessToken.value, req.user.upn, req.siteUrl)];
    var spouser := EnsureSPOUserByLogin(up.sharePoint, spoAccessToken.value, req.user.upn, req.siteUrl);
    if spouser.Pending? {
      return;
    } else if spouser.Rejected? {
      SendError(res, spouser.reason);
      return;
    }
    res.Send(UserJson(spouser.value));
  }
}
