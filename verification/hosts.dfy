/**
 * The host a client talks to and the rewrite of request URLs for GitHub
 * Enterprise hosts (`requestURL`). URL parsing (`url.Parse`) is not part of
 * this model: it is passed in as a function that may fail.
 */
module Hosts {
  import opened Results
  import opened Strings
  import opened Octokit

  /** The public GitHub host. */
  const GitHubHost: string := "github.com"

  /** The prefix under which an Enterprise host serves its API. */
  const EnterprisePrefix: string := "/api/v3/"

  /** A configured host: its name, the user logged in on it, and that user's token (empty when unknown). */
  datatype Host = Host(hostname: string, user: string, accessToken: string)

  /** `url.Parse`, as the client sees it: a URL, or the text of the parse error. */
  type Parser = string -> Result<Url, string>

  /**
   * requestURL: the URL unchanged for no host or the public host; otherwise the
   * parse of the Enterprise prefix followed by the URL's path, or nil when that
   * parse fails (its error is discarded).
   */
  function RequestURL(host: Option<Host>, u: Url, parse: Parser): (r: Option<Url>)
    ensures host.None? || host.value.hostname == GitHubHost ==> r == Some(u)
    ensures r.None? ==> host.Some? && host.value.hostname != GitHubHost && parse(EnterprisePrefix + u.path).Failure?
  {
    if host.None? || host.value.hostname == GitHubHost then Some(u)
    else
      match parse(EnterprisePrefix + u.path)
      case Success(uu) => Some(uu)
      case Failure(_) => None
  }

  /** No host, or the public host: the URL passes through, query and all. */
  lemma PublicHostUnchanged(host: Option<Host>, u: Url, parse: Parser)
    requires host.None? || host.value.hostname == GitHubHost
    ensures RequestURL(host, u, parse) == Some(u)
  {
  }

  /**
   * For any other host only the path survives: two URLs with the same path
   * are rewritten alike, whatever their scheme, host and query.
   */
  lemma EnterpriseDependsOnlyOnPath(host: Option<Host>, u: Url, v: Url, parse: Parser)
    requires host.Some? && host.value.hostname != GitHubHost
    requires u.path == v.path
    ensures RequestURL(host, u, parse) == RequestURL(host, v, parse)
  {
  }

  /**
   * For any other host the result is what the parser makes of a text that
   * starts with `/api/v3/` and continues with the path; nil exactly when the
   * parser rejects that text.
   */
  lemma EnterpriseParsesPrefixedPath(host: Option<Host>, u: Url, parse: Parser)
    requires host.Some? && host.value.hostname != GitHubHost
    ensures exists t :: HasPrefix(t, "/api/v3/") && t[|EnterprisePrefix|..] == u.path
                        && (RequestURL(host, u, parse).Some? <==> parse(t).Success?)
                        && (parse(t).Success? ==> RequestURL(host, u, parse) == Some(parse(t).value))
  {
    var t := EnterprisePrefix + u.path;
    assert t[|EnterprisePrefix|..] == u.path;
    assert HasPrefix(t, "/api/v3/");
  }

  /** A path that already starts with `/` is rewritten to a text with a doubled slash after `v3`. */
  lemma LeadingSlashDoubled(host: Option<Host>, u: Url, parse: Parser)
    requires host.Some? && host.value.hostname != GitHubHost
    requires |u.path| > 0 && u.path[0] == '/'
    ensures RequestURL(host, u, parse)
         == (match parse("/api/v3//" + u.path[1..]) case Success(uu) => Some(uu) case Failure(_) => None)
  {
    assert EnterprisePrefix + u.path == "/api/v3//" + u.path[1..] by {
      assert u.path == "/" + u.path[1..];
      assert "/api/v3/" + "/" == "/api/v3//";
    }
  }
}
