/**
 * What the `/ensureuser` route promises, stated over `Handle`: the assertion
 * it forwards, the order and data flow of its three upstream calls, when it
 * stops, what it answers on success and on each failure, and when it never
 * answers.
 */
module RouteProperties {
  import opened Options
  import opened JsString
  import opened Http
  import opened CredentialExchanger
  import opened UserResolver
  import opened EnsureUserRoute

  /** The on-behalf-of exchange is attempted and answered with 200. */
  predicate OboOk(cfg: Config, up: Upstream, req: Inbound) {
    && req.authorization.Some?
    && var o := OboOutcome(cfg, up, req);
    o.Resolved? && o.status == 200
  }

  /** The refresh request the route posts once the exchange succeeded. */
  function SpoRequestOf(cfg: Config, up: Upstream, req: Inbound): HttpRequest
    requires OboOk(cfg, up, req) && req.domain.Some?
  {
    var domain := req.domain.value;
    RefreshRequest(cfg, Authority(domain), SpoScope(domain), OboOutcome(cfg, up, req).data.refresh_token)
  }

  /** Both token exchanges are attempted and answered with 200. */
  predicate SpoOk(cfg: Config, up: Upstream, req: Inbound) {
    && OboOk(cfg, up, req)
    && req.domain.Some?
    && var o := up.login(SpoRequestOf(cfg, up, req));
    o.Resolved? && o.status == 200
  }

  /** The `ensureuser` request the route posts once both exchanges succeeded. */
  function SiteRequestOf(cfg: Config, up: Upstream, req: Inbound): HttpRequest
    requires SpoOk(cfg, up, req)
  {
    EnsureUserRequest(up.login(SpoRequestOf(cfg, up, req)).data.access_token, req.user.upn, req.siteUrl)
  }

  /** All three calls are attempted and the site's call resolves. */
  predicate SiteOk(cfg: Config, up: Upstream, req: Inbound) {
    SpoOk(cfg, up, req) && up.sharePoint(SiteRequestOf(cfg, up, req)).Resolved?
  }

  /** A header "Bearer <token>" yields exactly the token as the assertion. */
  lemma StripBearerOfBearerHeader(token: string)
    ensures StripBearer("Bearer " + token) == token
  {
    var h := "Bearer " + token;
    assert OccursAt(h, "Bearer ", 0) by {
      assert h[0..7] == "Bearer ";
    }
    assert FirstOccurrence(h, "Bearer ", 0);
    FirstOccurrenceUnique(h, "Bearer ", 0, IndexOf(h, "Bearer ").value);
    assert h[7..] == token;
  }

  /**
   * Any header loses its first "Bearer " only, wherever it stands, and a
   * header without one is forwarded unchanged.
   */
  lemma StripBearerRemovesFirstOnly(header: string)
    ensures ReplacedFirst(header, "Bearer ", "", StripBearer(header))
  {
    ReplaceSpec(header, "Bearer ", "", StripBearer(header));
  }

  /**
   * The calls form a chain: the exchange is posted when a header is present,
   * the refresh grant exactly when the exchange answered 200 and the body has
   * a domain, and the `ensureuser` call exactly when the refresh grant also
   * answered 200; each consumes the previous step's token.
   */
  lemma CallsFormAChain(cfg: Config, up: Upstream, req: Inbound)
    ensures var t := Handle(cfg, up, req);
      && |t.sent| == (if req.authorization.None? then 0
                      else if !(OboOk(cfg, up, req) && req.domain.Some?) then 1
                      else if !SpoOk(cfg, up, req) then 2
                      else 3)
      && (|t.sent| >= 1 ==> req.authorization.Some? && t.sent[0] == RouteOboRequest(cfg, req))
      && (|t.sent| >= 2 ==> OboOk(cfg, up, req) && req.domain.Some? && t.sent[1] == SpoRequestOf(cfg, up, req))
      && (|t.sent| == 3 ==> SpoOk(cfg, up, req) && t.sent[2] == SiteRequestOf(cfg, up, req))
  {
  }

  /**
   * The route answers with a user record exactly when all three calls
   * succeed; the record's login is the caller's UPN claim and its lookup id
   * and display name come from the site's answer.
   */
  lemma AnswersUserExactlyOnSuccess(cfg: Config, up: Upstream, req: Inbound)
    ensures var t := Handle(cfg, up, req);
      (t.reply.Some? && t.reply.value.payload.UserJson?) <==> SiteOk(cfg, up, req)
    ensures SiteOk(cfg, up, req) ==>
      var answer := up.sharePoint(SiteRequestOf(cfg, up, req)).data;
      Handle(cfg, up, req).reply == Some(Reply(200, UserJson(User(req.user.upn, answer.Id, answer.Title))))
  {
  }

  /** Whatever the upstream services answer, a returned user's login is the caller's UPN. */
  lemma LoginIsTheCallersUpn(cfg: Config, up: Upstream, req: Inbound)
    ensures var t := Handle(cfg, up, req);
      t.reply.Some? && t.reply.value.payload.UserJson? ==> t.reply.value.payload.user.login == req.user.upn
  {
  }

  /**
   * Each failure is answered through the `catch` block with the value the
   * failing step threw, and nothing after that step is posted; a refresh
   * grant that fails in the HTTP library without a response is not answered.
   */
  lemma FailuresAreAnsweredByTheCatchBlock(cfg: Config, up: Upstream, req: Inbound)
    ensures req.authorization.None? ==>
      Handle(cfg, up, req) == Trace([], Some(ErrorReply(TypeError("replace"))))
    ensures req.authorization.Some? && OboOutcome(cfg, up, req).Failed? ==>
      Handle(cfg, up, req) == Trace([RouteOboRequest(cfg, req)], Some(ErrorReply(LibraryError(OboOutcome(cfg, up, req).error))))
    ensures req.authorization.Some? && OboOutcome(cfg, up, req).Resolved? && OboOutcome(cfg, up, req).status != 200 ==>
      var o := OboOutcome(cfg, up, req);
      Handle(cfg, up, req) == Trace([RouteOboRequest(cfg, req)], Some(ErrorReply(ResponseObject(o.status, o.statusText))))
    ensures OboOk(cfg, up, req) && req.domain.None? ==>
      Handle(cfg, up, req) == Trace([RouteOboRequest(cfg, req)], Some(ErrorReply(TypeError("toLowerCase"))))
    ensures OboOk(cfg, up, req) && req.domain.Some? && up.login(SpoRequestOf(cfg, up, req)).Resolved? && !SpoOk(cfg, up, req) ==>
      var o := up.login(SpoRequestOf(cfg, up, req));
      && Handle(cfg, up, req).sent == [RouteOboRequest(cfg, req), SpoRequestOf(cfg, up, req)]
      && Handle(cfg, up, req).reply == Some(ErrorReply(ResponseObject(o.status, o.statusText)))
    ensures OboOk(cfg, up, req) && req.domain.Some? && up.login(SpoRequestOf(cfg, up, req)).Failed? ==>
      var e := up.login(SpoRequestOf(cfg, up, req)).error;
      && Handle(cfg, up, req).sent == [RouteOboRequest(cfg, req), SpoRequestOf(cfg, up, req)]
      && Handle(cfg, up, req).reply == (if e.hasResponse then Some(ErrorReply(LibraryError(e))) else None)
    ensures SpoOk(cfg, up, req) && up.sharePoint(SiteRequestOf(cfg, up, req)).Failed? ==>
      Handle(cfg, up, req).reply == Some(ErrorReply(LibraryError(up.sharePoint(SiteRequestOf(cfg, up, req)).error)))
  {
  }

  /**
   * The route never answers exactly when the SharePoint token request fails
   * in the HTTP library without a response: the `catch` of `getSPOToken`
   * throws before it rejects.
   */
  lemma NoAnswerOnlyWhenRefreshGrantGetsNoResponse(cfg: Config, up: Upstream, req: Inbound)
    ensures Handle(cfg, up, req).reply.None? <==>
      && OboOk(cfg, up, req) && req.domain.Some?
      && var o := up.login(SpoRequestOf(cfg, up, req));
      o.Failed? && !o.error.hasResponse
  {
  }

  /**
   * How a failure's status reaches the caller: a non-200 token response
   * forwards its status with an empty body, a library error with a status
   * forwards it with the error's message, and anything without a status
   * becomes 500.
   */
  lemma ErrorStatusForwarding(status: int, statusText: string, f: LibraryFailure, property: string)
    ensures status != 0 ==> ErrorReply(ResponseObject(status, statusText)) == Reply(status, Text(None))
    ensures Truthy(f.status) ==> ErrorReply(LibraryError(f)) == Reply(f.status.value, Text(Some(f.message)))
    ensures !Truthy(f.status) ==> ErrorReply(LibraryError(f)) == Reply(500, ErrorJson(LibraryError(f)))
    ensures ErrorReply(TypeError(property)).status == 500
  {
  }
}
