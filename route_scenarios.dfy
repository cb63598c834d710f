/**
 * Two worked requests against the `/ensureuser` route: a caller in the
 * Contoso tenant whose three upstream calls succeed, and one whose
 * on-behalf-of exchange is refused with status 400 because the application
 * has no admin consent.
 */
module RouteScenarios {
  import opened Options
  import opened JsString
  import opened Http
  import opened CredentialExchanger
  import opened UserResolver
  import opened EnsureUserRoute
  import opened RouteProperties

  /**
   * Upstream services that answer every token request and the site's call
   * with 200: a refresh grant gets `spoToken`, any other grant `graphToken`.
   */
  function AllSucceed(graphToken: string, spoToken: string, refreshToken: string, id: int, title: string): Upstream {
    Upstream(
      (r: HttpRequest) =>
        var token := if Lookup(r.body.fields, "grant_type") == Some("refresh_token") then spoToken else graphToken;
        Resolved(200, "OK", TokenBody(token, refreshToken)),
      (r: HttpRequest) => Resolved(200, "OK", SiteUserBody(id, title)))
  }

  /**
   * Alice in "contoso.sharepoint.com": the exchange goes to her tenant, the
   * refresh grant to "contoso.onmicrosoft.com", and the site's `ensureuser`
   * endpoint is asked for her login with the SharePoint token (not the
   * Graph one); the answer is her record with the site's lookup id and title.
   */
  lemma ContosoSucceeds(cfg: Config, tid: string, idToken: string, graphAt: string, spoAt: string, rt: string,
                        id: int, title: string)
    ensures var req := Inbound(Claims(tid, "Alice", "alice@contoso.com"), Some("Bearer " + idToken),
                               Some("contoso" + ".sharepoint.com"), Some("https://contoso.sharepoint.com/sites/team"));
      var t := Handle(cfg, AllSucceed(graphAt, spoAt, rt, id, title), req);
      && |t.sent| == 3
      && t.sent[0] == OboRequest(cfg, tid, idToken, GraphScopes)
      && t.sent[1] == RefreshRequest(cfg, "contoso" + ".onmicrosoft.com", SpoScope("contoso" + ".sharepoint.com"), rt)
      && t.sent[1].url == TokenEndpoint("contoso" + ".onmicrosoft.com")
      && t.sent[2].url == "https://contoso.sharepoint.com/sites/team" + "/_api/web/ensureuser"
      && Lookup(t.sent[2].headers, "Authorization") == Some("Bearer " + spoAt)
      && t.sent[2].body == JsonBody([("logonName", "alice@contoso.com")])
      && t.reply == Some(Reply(200, UserJson(User("alice@contoso.com", id, title))))
  {
    StripBearerOfBearerHeader(idToken);
    ToLowerCaseOfLower("contoso");
    ToLowerCaseOfLower(".sharepoint.com");
    AuthorityOfSharePointDomain("contoso", ".sharepoint.com");
    OboRequestIsJwtBearerGrant(cfg, tid, idToken, GraphScopes);
    RefreshRequestIsRefreshGrant(cfg, "contoso" + ".onmicrosoft.com", SpoScope("contoso" + ".sharepoint.com"), rt);
  }

  /**
   * Without admin consent the exchange is refused with status 400: the
   * caller gets 400 and the library's message, and neither SharePoint call is
   * made.
   */
  lemma ConsentMissingStopsAtFirstCall(cfg: Config, req: Inbound, message: string, site: SiteCall)
    requires req.authorization.Some?
    ensures var up := Upstream((r: HttpRequest) => Failed(LibraryFailure(message, Some(400), true)), site);
      Handle(cfg, up, req) == Trace([RouteOboRequest(cfg, req)], Some(Reply(400, Text(Some(message)))))
  {
  }
}
