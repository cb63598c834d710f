/**
 * `ensureSPOUserByLogin`: asks a SharePoint site to resolve (or add) a user by
 * login name and maps the answer to the route's user record. The site is a
 * parameter: a function from the posted request to how the HTTP library's
 * promise settles.
 */
module UserResolver {
  import opened Options
  import opened JsString
  import opened Http

  /** The fields of the site's answer that the route reads. */
  datatype SiteUserBody = SiteUserBody(Id: int, Title: string)

  /** The user record the route answers with. */
  datatype User = User(login: string, lookupID: int, displayName: string)

  type SiteCall = HttpRequest -> AxiosOutcome<SiteUserBody>

  /** The request posted to the site; a missing site URL is interpolated as "undefined". */
  function EnsureUserRequest(spoAccessToken: string, userEmail: string, siteUrl: Option<string>): HttpRequest {
    Post(Interpolate(siteUrl) + "/_api/web/ensureuser",
         [("Authorization", "Bearer " + spoAccessToken)],
         JsonBody([("logonName", userEmail)]))
  }

  /**
   * `ensureSPOUserByLogin`: fulfils whenever the HTTP library resolves,
   * whatever the status, with the login taken from the argument and the lookup
   * id and display name from the answer; a library error is passed on as is.
   */
  function EnsureSPOUserByLogin(site: SiteCall, spoAccessToken: string, userEmail: string, siteUrl: Option<string>)
    : (s: Settled<User>)
    ensures var o := site(EnsureUserRequest(spoAccessToken, userEmail, siteUrl));
      && !s.Pending?
      && (s.Fulfilled? <==> o.Resolved?)
      && (s.Fulfilled? ==> s.value.login == userEmail)
      && (s.Fulfilled? ==> s.value.lookupID == o.data.Id && s.value.displayName == o.data.Title)
      && (o.Failed? ==> s == Rejected(LibraryError(o.error)))
  {
    match site(EnsureUserRequest(spoAccessToken, userEmail, siteUrl))
    case Resolved(_, _, data) => Fulfilled(User(userEmail, data.Id, data.Title))
    case Failed(err) => Rejected(LibraryError(err))
  }

  /**
   * The request goes to the site's `ensureuser` endpoint, authenticates with
   * the SharePoint token as a bearer token and names the user by login.
   */
  lemma EnsureUserRequestShape(spoAccessToken: string, userEmail: string, siteUrl: Option<string>)
    ensures var r := EnsureUserRequest(spoAccessToken, userEmail, siteUrl);
      && |r.url| >= 20
      && r.url[..|r.url| - 20] == Interpolate(siteUrl)
      && r.url[|r.url| - 20..] == "/_api/web/ensureuser"
      && Lookup(r.headers, "Authorization") == Some("Bearer " + spoAccessToken)
      && r.body == JsonBody([("logonName", userEmail)])
      && Lookup(r.body.fields, "logonName") == Some(userEmail)
  {
  }
}
