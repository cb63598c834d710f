/**
 * The two token exchanges of the `/ensureuser` route: the on-behalf-of
 * exchange of the caller's identity token (`exchangeForToken`, the JWT bearer
 * grant of section 2.1 of RFC 7523 with Microsoft's `requested_token_use`
 * extension) and the refresh-token grant of section 6 of RFC 6749 against the
 * authority derived from the SharePoint domain (`getSPOToken`). The token
 * endpoint itself is a parameter: a function from the posted request to how
 * the HTTP library's promise settles.
 */
module CredentialExchanger {
  import opened Options
  import opened JsString
  import opened Http

  /** The application's registration, read from the environment. */
  datatype Config = Config(appId: string, appSecret: string)

  /** The fields of a token endpoint's JSON answer that the route reads. */
  datatype TokenBody = TokenBody(access_token: string, refresh_token: string)

  /** What `exchangeForToken` fulfils with. */
  datatype TokenPair = TokenPair(accessToken: string, refreshToken: string)

  type TokenEndpointCall = HttpRequest -> AxiosOutcome<TokenBody>

  const JwtBearerGrantType := "urn:ietf:params:oauth:grant-type:jwt-bearer"

  const FormHeaders: seq<Pair> :=
    [("Accept", "application/json"), ("Content-Type", "application/x-www-form-urlencoded")]

  /** The scopes the route asks for in the on-behalf-of exchange. */
  const GraphScopes: seq<string> :=
    ["https://graph.microsoft.com/sites.readwrite.all", "offline_access"]

  function TokenEndpoint(tenant: string): string {
    "https://login.microsoftonline.com/" + tenant + "/oauth2/v2.0/token"
  }

  /** The token tenant derived from a SharePoint domain. */
  function Authority(domain: string): string {
    Replace(ToLowerCase(domain), "sharepoint", "onmicrosoft")
  }

  /** The SharePoint scope, built from the domain as given (case kept). */
  function SpoScope(domain: string): string {
    "https://" + domain + "/Sites.ReadWrite.All"
  }

  /** The on-behalf-of request `exchangeForToken(tid, token, scopes)` posts. */
  function OboRequest(cfg: Config, tid: string, token: string, scopes: seq<string>): HttpRequest {
    Post(TokenEndpoint(tid), FormHeaders, FormBody([
      ("client_id", cfg.appId),
      ("client_secret", cfg.appSecret),
      ("grant_type", JwtBearerGrantType),
      ("assertion", token),
      ("requested_token_use", "on_behalf_of"),
      ("scope", Join(scopes, " "))]))
  }

  /** The refresh-token request `getSPOToken(tenantName, scope, refreshToken)` posts. */
  function RefreshRequest(cfg: Config, tenantName: string, scope: string, refreshToken: string): HttpRequest {
    Post(TokenEndpoint(tenantName), FormHeaders, FormBody([
      ("client_id", cfg.appId),
      ("client_secret", cfg.appSecret),
      ("grant_type", "refresh_token"),
      ("refresh_token", refreshToken),
      ("scope", scope)]))
  }

  /**
   * `exchangeForToken`: fulfils only on status 200, with both tokens of the
   * answer; any other response is rejected as the response object itself, and
   * an HTTP library error is rejected as is. It always settles.
   */
  function ExchangeForToken(cfg: Config, endpoint: TokenEndpointCall, tid: string, token: string, scopes: seq<string>)
    : (s: Settled<TokenPair>)
    ensures !s.Pending?
    ensures var o := endpoint(OboRequest(cfg, tid, token, scopes));
      && (s.Fulfilled? <==> o.Resolved? && o.status == 200)
      && (s.Fulfilled? ==> s.value == TokenPair(o.data.access_token, o.data.refresh_token))
      && (o.Resolved? && o.status != 200 ==> s == Rejected(ResponseObject(o.status, o.statusText)))
      && (o.Failed? ==> s == Rejected(LibraryError(o.error)))
  {
    match endpoint(OboRequest(cfg, tid, token, scopes))
    case Resolved(status, statusText, data) =>
      if status != 200 then Rejected(ResponseObject(status, statusText))
      else Fulfilled(TokenPair(data.access_token, data.refresh_token))
    case Failed(err) => Rejected(LibraryError(err))
  }

  /**
   * `getSPOToken`: fulfils only on status 200, with the access token. Its
   * `catch` reads `err.response.data` before rejecting, so an HTTP library
   * error that carries no response throws inside the handler and the promise
   * never settles.
   */
  function GetSPOToken(cfg: Config, endpoint: TokenEndpointCall, tenantName: string, scope: string, refreshToken: string)
    : (s: Settled<string>)
    ensures var o := endpoint(RefreshRequest(cfg, tenantName, scope, refreshToken));
      && (s.Fulfilled? <==> o.Resolved? && o.status == 200)
      && (s.Fulfilled? ==> s.value == o.data.access_token)
      && (o.Resolved? && o.status != 200 ==> s == Rejected(ResponseObject(o.status, o.statusText)))
      && (s.Pending? <==> o.Failed? && !o.error.hasResponse)
      && (o.Failed? && o.error.hasResponse ==> s == Rejected(LibraryError(o.error)))
  {
    match endpoint(RefreshRequest(cfg, tenantName, scope, refreshToken))
    case Resolved(status, statusText, data) =>
      if status != 200 then Rejected(ResponseObject(status, statusText))
      else Fulfilled(data.access_token)
    case Failed(err) =>
      if err.hasResponse then Rejected(LibraryError(err)) else Pending
  }

  /**
   * The on-behalf-of request is a JWT bearer grant to the tenant's token
   * endpoint: each parameter once, and the assertion is the caller's token.
   */
  lemma OboRequestIsJwtBearerGrant(cfg: Config, tid: string, token: string, scopes: seq<string>)
    ensures var r := OboRequest(cfg, tid, token, scopes);
      && r.url == TokenEndpoint(tid)
      && r.body.FormBody? && DistinctNames(r.body.fields)
      && Lookup(r.body.fields, "grant_type") == Some(JwtBearerGrantType)
      && Lookup(r.body.fields, "assertion") == Some(token)
      && Lookup(r.body.fields, "requested_token_use") == Some("on_behalf_of")
  {
    var fields := OboRequest(cfg, tid, token, scopes).body.fields;
    assert DistinctNames(fields);
    LookupFindsField(fields, 2);
    LookupFindsField(fields, 3);
    LookupFindsField(fields, 4);
  }

  /**
   * The scope parameter of the on-behalf-of request reads back, split at
   * spaces, as the scope list, in order, when no scope contains a space.
   */
  lemma OboScopeReadsBack(cfg: Config, tid: string, token: string, scopes: seq<string>)
    requires |scopes| >= 1
    requires forall k :: 0 <= k < |scopes| ==> ' ' !in scopes[k]
    ensures var r := OboRequest(cfg, tid, token, scopes);
      && r.body.FormBody?
      && Lookup(r.body.fields, "scope").Some?
      && Split(Lookup(r.body.fields, "scope").value, ' ') == scopes
  {
    var fields := OboRequest(cfg, tid, token, scopes).body.fields;
    assert DistinctNames(fields);
    LookupFindsField(fields, 5);
    SplitJoin(scopes, ' ');
  }

  /** Both token requests authenticate the application with its id and secret. */
  lemma TokenRequestsCarryClientCredentials(cfg: Config, tid: string, token: string, scopes: seq<string>,
                                            tenantName: string, scope: string, refreshToken: string)
    ensures var f := OboRequest(cfg, tid, token, scopes).body.fields;
      Lookup(f, "client_id") == Some(cfg.appId) && Lookup(f, "client_secret") == Some(cfg.appSecret)
    ensures var f := RefreshRequest(cfg, tenantName, scope, refreshToken).body.fields;
      Lookup(f, "client_id") == Some(cfg.appId) && Lookup(f, "client_secret") == Some(cfg.appSecret)
  {
  }

  /**
   * The SharePoint token request is a refresh-token grant to the given
   * tenant's token endpoint carrying the given refresh token and scope, and
   * no assertion.
   */
  lemma RefreshRequestIsRefreshGrant(cfg: Config, tenantName: string, scope: string, refreshToken: string)
    ensures var r := RefreshRequest(cfg, tenantName, scope, refreshToken);
      && r.url == TokenEndpoint(tenantName)
      && r.body.FormBody? && DistinctNames(r.body.fields)
      && Lookup(r.body.fields, "grant_type") == Some("refresh_token")
      && Lookup(r.body.fields, "refresh_token") == Some(refreshToken)
      && Lookup(r.body.fields, "scope") == Some(scope)
      && Lookup(r.body.fields, "assertion") == None
  {
    var fields := RefreshRequest(cfg, tenantName, scope, refreshToken).body.fields;
    assert DistinctNames(fields);
    LookupFindsField(fields, 2);
    LookupFindsField(fields, 3);
    LookupFindsField(fields, 4);
    LookupAbsent(fields, "assertion");
  }

  /** The route's scope parameter: the two Graph scopes, one space between them. */
  lemma GraphScopeParameter()
    ensures Join(GraphScopes, " ") == "https://graph.microsoft.com/sites.readwrite.all offline_access"
  {
  }

  /**
   * Neither of the route's scopes contains a space, so its scope parameter
   * reads back as the same list (see `OboScopeReadsBack`).
   */
  lemma GraphScopesHaveNoSpace()
    ensures ' ' !in GraphScopes[0] && ' ' !in GraphScopes[1]
  {
    assert GraphScopes[0] == "https://" + "graph.microsoft.com/" + "sites.readwrite.all";
    assert ' ' !in "https://";
    assert ' ' !in "graph.microsoft.com/";
    assert ' ' !in "sites.readwrite.all";
  }

  /** The route's scope parameter, split at spaces, is the route's scope list. */
  lemma RouteScopeReadsBack()
    ensures Split(Join(GraphScopes, " "), ' ') == GraphScopes
  {
    GraphScopesHaveNoSpace();
    SplitJoin(GraphScopes, ' ');
  }

  /**
   * The SharePoint token request for a domain goes to the authority derived
   * from it, and its scope names the domain as given, not lower-cased.
   */
  lemma RefreshScopeKeepsDomain(cfg: Config, domain: string, refreshToken: string)
    ensures var r := RefreshRequest(cfg, Authority(domain), SpoScope(domain), refreshToken);
      && r.url == TokenEndpoint(Authority(domain))
      && Lookup(r.body.fields, "scope") == Some("https://" + domain + "/Sites.ReadWrite.All")
  {
    RefreshRequestIsRefreshGrant(cfg, Authority(domain), SpoScope(domain), refreshToken);
  }

  /**
   * For "Contoso.SharePoint.com" the scope keeps the domain's case while the
   * authority is lower-cased: "contoso.onmicrosoft.com".
   */
  lemma ContosoScopeAndAuthority(cfg: Config, refreshToken: string)
    ensures var r := RefreshRequest(cfg, Authority("Contoso" + ".SharePoint.com"),
                                    SpoScope("Contoso" + ".SharePoint.com"), refreshToken);
      && r.url == TokenEndpoint("contoso" + ".onmicrosoft.com")
      && Lookup(r.body.fields, "scope") == Some("https://" + "Contoso.SharePoint.com" + "/Sites.ReadWrite.All")
  {
    AuthorityOfContoso();
    assert "Contoso" + ".SharePoint.com" == "Contoso.SharePoint.com";
    RefreshScopeKeepsDomain(cfg, "Contoso" + ".SharePoint.com", refreshToken);
  }

  /**
   * The authority is the lower-cased domain with its first "sharepoint"
   * replaced by "onmicrosoft" (unchanged when there is none); it has no
   * upper-case letter and does not depend on the domain's case.
   */
  lemma AuthorityDerivation(domain: string)
    ensures ReplacedFirst(ToLowerCase(domain), "sharepoint", "onmicrosoft", Authority(domain))
    ensures HasNoUpper(Authority(domain))
    ensures Authority(ToLowerCase(domain)) == Authority(domain)
  {
    ReplaceSpec(ToLowerCase(domain), "sharepoint", "onmicrosoft", Authority(domain));
    ReplaceKeepsNoUpper(ToLowerCase(domain), "sharepoint", "onmicrosoft");
    ToLowerCaseIdempotent(domain);
  }

  /**
   * For a domain made of a tenant part (one label or several, with no
   * "sharepoint" in it, any case) and the suffix ".sharepoint.com" (any
   * case), the authority is the lower-cased tenant part followed by
   * ".onmicrosoft.com".
   */
  lemma AuthorityOfSharePointDomain(tenant: string, suffix: string)
    requires forall j :: !OccursAt(ToLowerCase(tenant), "sharepoint", j)
    requires ToLowerCase(suffix) == ".sharepoint.com"
    ensures Authority(tenant + suffix) == ToLowerCase(tenant) + ".onmicrosoft.com"
  {
    var lt := ToLowerCase(tenant);
    var n := |lt|;
    ToLowerCaseAppend(tenant, suffix);
    var l := lt + ".sharepoint.com";
    assert ToLowerCase(tenant + suffix) == l;
    SuffixHoldsFirstSharePoint(lt);
    assert l[..n + 1] == lt + ".";
    assert l[n + 11..] == ".com";
  }

  /** After a label free of "sharepoint", the first one is the suffix's. */
  lemma SuffixHoldsFirstSharePoint(lt: string)
    requires forall j :: !OccursAt(lt, "sharepoint", j)
    ensures IndexOf(lt + ".sharepoint.com", "sharepoint") == Some(|lt| + 1)
  {
    var n := |lt|;
    var l := lt + ".sharepoint.com";
    assert l[n] == '.';
    assert OccursAt(l, "sharepoint", n + 1) by {
      assert l[n + 1..n + 11] == "sharepoint";
    }
    forall j | 0 <= j < n + 1 ensures !OccursAt(l, "sharepoint", j) {
      if j + 10 <= n {
        assert l[j..j + 10] == lt[j..j + 10];
        assert !OccursAt(lt, "sharepoint", j);
      } else {
        assert l[j..j + 10][n - j] == '.';
        assert '.' !in "sharepoint";
      }
    }
    assert FirstOccurrence(l, "sharepoint", n + 1);
    FirstOccurrenceUnique(l, "sharepoint", n + 1, IndexOf(l, "sharepoint").value);
  }

  /**
   * The derivation is a heuristic: when the tenant label itself contains
   * "sharepoint", that occurrence is the one replaced, the suffix keeps
   * ".sharepoint.com", and the authority is not the tenant's
   * ".onmicrosoft.com" name.
   */
  lemma AuthorityOfTenantNamedSharePoint(tenant: string, suffix: string)
    requires IndexOf(ToLowerCase(tenant), "sharepoint").Some?
    requires ToLowerCase(suffix) == ".sharepoint.com"
    ensures var a := Authority(tenant + suffix);
      |a| >= 15 && a[|a| - 15..] == ".sharepoint.com" && a != ToLowerCase(tenant) + ".onmicrosoft.com"
  {
    var lt := ToLowerCase(tenant);
    var n := |lt|;
    var i := IndexOf(lt, "sharepoint").value;
    ToLowerCaseAppend(tenant, suffix);
    var l := lt + ".sharepoint.com";
    assert ToLowerCase(tenant + suffix) == l;
    assert OccursAt(l, "sharepoint", i) by {
      assert l[i..i + 10] == lt[i..i + 10];
    }
    forall j | 0 <= j < i ensures !OccursAt(l, "sharepoint", j) {
      assert l[j..j + 10] == lt[j..j + 10];
      assert !OccursAt(lt, "sharepoint", j);
    }
    assert FirstOccurrence(l, "sharepoint", i);
    FirstOccurrenceUnique(l, "sharepoint", i, IndexOf(l, "sharepoint").value);
    var a := l[..i] + "onmicrosoft" + l[i + 10..];
    assert a == Authority(tenant + suffix);
    assert l[i + 10..] == lt[i + 10..] + ".sharepoint.com";
    assert a[|a| - 15..] == ".sharepoint.com";
    var b := lt + ".onmicrosoft.com";
    assert |a| == |b|;
    assert b[|b| - 15..] == "onmicrosoft.com";
    assert a[|a| - 15] != b[|b| - 15];
  }

  /** The mixed-case domain "Contoso.SharePoint.com" gives "contoso.onmicrosoft.com". */
  lemma AuthorityOfContoso()
    ensures Authority("Contoso" + ".SharePoint.com") == "contoso" + ".onmicrosoft.com"
  {
    ContosoLowerCase();
    SharePointSuffixLowerCase();
    AuthorityOfSharePointDomain("Contoso", ".SharePoint.com");
  }

  lemma ContosoLowerCase()
    ensures ToLowerCase("Contoso") == "contoso"
  {
    ToLowerCaseAppend("C", "ontoso");
    ToLowerCaseOfLower("ontoso");
  }

  lemma SharePointSuffixLowerCase()
    ensures ToLowerCase(".SharePoint.com") == ".sharepoint.com"
  {
    ToLowerCaseAppend(".S", "hare");
    ToLowerCaseOfLower("hare");
    ToLowerCaseAppend("P", "oint.com");
    ToLowerCaseOfLower("oint.com");
    ToLowerCaseAppend(".Share", "Point.com");
  }
}
