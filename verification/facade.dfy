/**
 * The API client facade: a `Client` holding the host it talks to, which it
 * resolves lazily from the credential store, and the operations that expand
 * a URI template, obtain an authenticated library client, send one request
 * and normalise whatever error comes back.
 *
 * URI template expansion, URL parsing, the credential store and the library
 * requests themselves are not part of this model; they are passed in.
 */
module Facade {
  import opened Results
  import opened Strings
  import opened Octokit
  import opened Errors
  import opened Hosts

  const UserAgent: string := "Hub"
  const OAuthAppName: string := "hub"
  const OAuthAppURL: string := "http://hub.github.com/"

  /** A repository as the facade addresses it; `webURL` is what `Project.WebURL("", "", "")` returns. */
  datatype Project = Project(owner: string, name: string, webURL: string)

  /** `Hyperlink.Expand`: a URI template and its variables give a URL or an error. */
  type Expander = (Hyperlink, map<string, string>) -> Result<Url, Error>

  /** `CurrentConfigs().PromptForHost`: the configured host (with its token) for a hostname, or an error. */
  type CredentialStore = string -> Result<Host, Error>

  /** The collaborators every facade operation relies on. */
  datatype Env = Env(expand: Expander, parse: Parser, lookup: CredentialStore)

  /** The action named in the error of a failed `api()` call and in that of a failed request. */
  datatype Labels = Labels(api: string, request: string)

  // ---------------------------------------------------------------------------
  // api(): lazy credential resolution
  // ---------------------------------------------------------------------------

  /** The library client `api()` builds for a host: its API host, the Hub user agent and its token. */
  function TokenClient(h: Host): ApiClient {
    ApiClient(h.hostname, UserAgent, TokenAuth(h.accessToken))
  }

  /** The host after `api()`: replaced by the store's answer when the token was empty and the lookup succeeded. */
  function HostAfterApi(h: Host, lookup: CredentialStore): Host {
    if h.accessToken == "" && lookup(h.hostname).Success? then lookup(h.hostname).value else h
  }

  /** What `api()` returns: the lookup's own error, unwrapped, or a client for the resulting host. */
  function ApiResult(h: Host, lookup: CredentialStore): Result<ApiClient, Error> {
    if h.accessToken == "" && lookup(h.hostname).Failure? then Failure(lookup(h.hostname).error)
    else Success(TokenClient(HostAfterApi(h, lookup)))
  }

  /** The hostnames `api()` asks the credential store about. */
  function ApiLookups(h: Host): seq<string> {
    if h.accessToken == "" then [h.hostname] else []
  }

  /** With a token at hand `api()` asks nothing and keeps the host. */
  lemma ApiKeepsKnownToken(h: Host, lookup: CredentialStore)
    requires h.accessToken != ""
    ensures ApiLookups(h) == [] && HostAfterApi(h, lookup) == h
    ensures ApiResult(h, lookup) == Success(ApiClient(h.hostname, UserAgent, TokenAuth(h.accessToken)))
  {
  }

  /** Without a token `api()` asks once; a failed lookup leaves the host alone and is returned as is. */
  lemma ApiLookupFailure(h: Host, lookup: CredentialStore)
    requires h.accessToken == "" && lookup(h.hostname).Failure?
    ensures ApiLookups(h) == [h.hostname] && HostAfterApi(h, lookup) == h
    ensures ApiResult(h, lookup) == Failure(lookup(h.hostname).error)
  {
  }

  /**
   * Without a token a successful lookup replaces the host, and the library
   * client is built for the new host (its hostname and token), whatever the
   * old one held.
   */
  lemma ApiLookupSuccess(h: Host, lookup: CredentialStore)
    requires h.accessToken == "" && lookup(h.hostname).Success?
    ensures ApiLookups(h) == [h.hostname] && HostAfterApi(h, lookup) == lookup(h.hostname).value
    ensures ApiResult(h, lookup)
         == Success(ApiClient(lookup(h.hostname).value.hostname, UserAgent,
                              TokenAuth(lookup(h.hostname).value.accessToken)))
  {
  }

  /** Once `api()` has replaced the host with one that has a token, a second call changes nothing. */
  lemma ApiSettles(h: Host, lookup: CredentialStore)
    requires HostAfterApi(h, lookup).accessToken != ""
    ensures HostAfterApi(HostAfterApi(h, lookup), lookup) == HostAfterApi(h, lookup)
    ensures ApiLookups(HostAfterApi(h, lookup)) == []
  {
  }

  // ---------------------------------------------------------------------------
  // The template every facade operation follows
  // ---------------------------------------------------------------------------

  /**
   * The error a failed request turns into: formatted under the action label,
   * and, for the pull-request creators (`hintURL` is the project's web URL),
   * followed on a new line by the not-found hint when there is one.
   */
  function RequestFailure(action: string, e: Error, hintURL: Option<string>): Error {
    match hintURL
    case None => Formatted(action, e)
    case Some(webURL) => WithExistenceHint(Formatted(action, e), WarnExistenceOfRepo(webURL, e))
  }

  /**
   * The outcome of a facade operation started on host `h`: an expansion error
   * as is; an `api()` error formatted under `labels.api`; otherwise the result
   * of the one request sent with the library client of the resolved host, to
   * the expanded URL (rewritten for that host when `rewrite`), its error
   * formatted under `labels.request`.
   */
  function Outcome<T>(h: Host, env: Env, link: Hyperlink, vars: map<string, string>, labels: Labels,
                      rewrite: bool, verb: Verb, hintURL: Option<string>, send: Request -> Result<T, Error>)
    : (r: Result<T, Error>)
    ensures env.expand(link, vars).Failure? ==> r == Failure(env.expand(link, vars).error)
    ensures env.expand(link, vars).Success? && r.Failure? ==> r.error.Plain?
    ensures r.Success? ==> exists req :: send(req) == Success(r.value)
  {
    match env.expand(link, vars)
    case Failure(e) => Failure(e)
    case Success(u) =>
      match ApiResult(h, env.lookup)
      case Failure(e) => Failure(Formatted(labels.api, e))
      case Success(c) =>
        var url := if rewrite then RequestURL(Some(HostAfterApi(h, env.lookup)), u, env.parse) else Some(u);
        match send(Request(c, url, verb))
        case Failure(e) => Failure(RequestFailure(labels.request, e, hintURL))
        case Success(v) => Success(v)
  }

  /** The host after a facade operation: `api()` runs only once the template has expanded. */
  function HostAfterCall(h: Host, env: Env, link: Hyperlink, vars: map<string, string>): Host {
    if env.expand(link, vars).Failure? then h else HostAfterApi(h, env.lookup)
  }

  /** The credential-store calls of a facade operation. */
  function CallLookups(h: Host, env: Env, link: Hyperlink, vars: map<string, string>): seq<string> {
    if env.expand(link, vars).Failure? then [] else ApiLookups(h)
  }

  /** An expansion failure is returned unwrapped, before any lookup. */
  lemma ExpandFailureUnwrapped<T>(h: Host, env: Env, link: Hyperlink, vars: map<string, string>, labels: Labels,
                                  rewrite: bool, verb: Verb, hintURL: Option<string>, send: Request -> Result<T, Error>)
    requires env.expand(link, vars).Failure?
    ensures Outcome(h, env, link, vars, labels, rewrite, verb, hintURL, send) == Failure(env.expand(link, vars).error)
    ensures HostAfterCall(h, env, link, vars) == h && CallLookups(h, env, link, vars) == []
  {
  }

  /**
   * Past the expansion every error a facade operation returns is a plain
   * message: a response error or an AuthError never reaches the caller raw,
   * and formatting it again leaves it alone.
   */
  lemma ErrorsNormalised<T>(h: Host, env: Env, link: Hyperlink, vars: map<string, string>, labels: Labels,
                            rewrite: bool, verb: Verb, hintURL: Option<string>, send: Request -> Result<T, Error>)
    requires env.expand(link, vars).Success?
    requires Outcome(h, env, link, vars, labels, rewrite, verb, hintURL, send).Failure?
    ensures var e := Outcome(h, env, link, vars, labels, rewrite, verb, hintURL, send).error;
            e.Plain? && Formatted(labels.request, e) == e && Formatted(labels.api, e) == e
  {
  }

  /**
   * A credential store that fails with an AuthError (as `FindOrCreateToken`
   * does when it provisions a token) surfaces as the 401 line under the api
   * label, whatever the cause.
   */
  lemma StoreAuthErrorIsUnauthorized<T>(h: Host, env: Env, link: Hyperlink, vars: map<string, string>,
                                        labels: Labels, rewrite: bool, verb: Verb, hintURL: Option<string>,
                                        send: Request -> Result<T, Error>)
    requires env.expand(link, vars).Success?
    requires h.accessToken == "" && env.lookup(h.hostname).Failure? && env.lookup(h.hostname).error.AuthError?
    ensures Outcome(h, env, link, vars, labels, rewrite, verb, hintURL, send)
         == Failure(Plain(UnauthorizedLine(labels.api)))
  {
  }

  /**
   * A failed lookup surfaces as the lookup's error under the api label, and
   * no request is sent: the result does not depend on `send`.
   */
  lemma LookupFailureStopsBeforeRequest<T>(h: Host, env: Env, link: Hyperlink, vars: map<string, string>,
                                           labels: Labels, rewrite: bool, verb: Verb, hintURL: Option<string>,
                                           send: Request -> Result<T, Error>, other: Request -> Result<T, Error>)
    requires env.expand(link, vars).Success?
    requires h.accessToken == "" && env.lookup(h.hostname).Failure?
    ensures Outcome(h, env, link, vars, labels, rewrite, verb, hintURL, send)
         == Outcome(h, env, link, vars, labels, rewrite, verb, hintURL, other)
         == Failure(Formatted(labels.api, env.lookup(h.hostname).error))
    ensures HostAfterCall(h, env, link, vars) == h
  {
  }

  /**
   * The request is authenticated with the token of the host as resolved by
   * `api()` and, when rewritten, addressed for that host; a request that
   * succeeds is returned as is.
   */
  lemma RequestUsesResolvedHost<T>(h: Host, env: Env, link: Hyperlink, vars: map<string, string>, labels: Labels,
                                   rewrite: bool, verb: Verb, hintURL: Option<string>, send: Request -> Result<T, Error>)
    requires env.expand(link, vars).Success?
    requires ApiResult(h, env.lookup).Success?
    ensures var h' := HostAfterCall(h, env, link, vars);
            var u := env.expand(link, vars).value;
            var req := Request(ApiClient(h'.hostname, UserAgent, TokenAuth(h'.accessToken)),
                               if rewrite then RequestURL(Some(h'), u, env.parse) else Some(u), verb);
            send(req).Success? ==> Outcome(h, env, link, vars, labels, rewrite, verb, hintURL, send) == send(req)
  {
  }

  /**
   * A failed request is reported as its error formatted under the operation's
   * request label, followed by the not-found hint for the operations that
   * pass a web URL; the host was resolved first, and the request carried its
   * token.
   */
  lemma RequestFailureLabelled<T>(h: Host, env: Env, link: Hyperlink, vars: map<string, string>, labels: Labels,
                                  rewrite: bool, verb: Verb, hintURL: Option<string>,
                                  send: Request -> Result<T, Error>)
    requires env.expand(link, vars).Success?
    requires ApiResult(h, env.lookup).Success?
    ensures var h' := HostAfterApi(h, env.lookup);
            var u := env.expand(link, vars).value;
            var req := Request(ApiClient(h'.hostname, UserAgent, TokenAuth(h'.accessToken)),
                               if rewrite then RequestURL(Some(h'), u, env.parse) else Some(u), verb);
            send(req).Failure? ==>
              Outcome(h, env, link, vars, labels, rewrite, verb, hintURL, send)
                == Failure(RequestFailure(labels.request, send(req).error, hintURL))
  {
  }

  /**
   * A pull-request creation rejected with a 404 reports the formatted error
   * and, on the next line, the existence question about the project's web URL
   * with its scheme stripped.
   */
  lemma NotFoundHintAppended(action: string, e: Error, scheme: string, rest: string)
    requires e.ResponseError? && e.statusCode == 404
    requires rest != "" && NoneBefore(scheme + "://" + rest, "://", |scheme|)
    ensures RequestFailure(action, e, Some(scheme + "://" + rest))
         == Plain(ErrorText(Formatted(action, e)) + "\n" + "Are you sure that " + rest + " exists?")
  {
    HintStripsScheme(scheme, rest, e);
  }

  /** Without a 404 the pull-request creators report the formatted error alone. */
  lemma NoHintUnlessNotFound(action: string, e: Error, webURL: string)
    requires !(e.ResponseError? && e.statusCode == 404)
    ensures RequestFailure(action, e, Some(webURL)) == Formatted(action, e)
  {
    HintOnlyForNotFound(webURL, e);
  }

  // ---------------------------------------------------------------------------
  // Small facade rules
  // ---------------------------------------------------------------------------

  /** `CreateRepository`'s template: an organisation's when the owner is not the host's user, the user's otherwise. */
  function RepositoryLink(owner: string, h: Host): (link: Hyperlink)
    ensures link == OrgRepositoriesURL <==> owner != h.user
    ensures link == UserRepositoriesURL <==> owner == h.user
  {
    if owner != h.user then OrgRepositoriesURL else UserRepositoriesURL
  }

  /**
   * The endpoint is chosen from the host as it stands before `api()`: a client
   * built from a bare hostname has no user yet, so a non-empty owner goes to
   * the organisation endpoint even when the lookup names that owner as the
   * user, and the host `api()` resolves would have chosen the user endpoint.
   */
  lemma BareClientUsesOrgEndpoint(hostname: string, owner: string, lookup: CredentialStore)
    requires owner != ""
    requires lookup(hostname).Success? && lookup(hostname).value.user == owner
    ensures RepositoryLink(owner, Host(hostname, "", "")) == OrgRepositoriesURL
    ensures RepositoryLink(owner, HostAfterApi(Host(hostname, "", ""), lookup)) == UserRepositoriesURL
  {
  }

  /** `CIStatus`'s answer: the first status of the list, nil for an empty list. */
  function FirstStatus(statuses: seq<Status>): (s: Option<Status>)
    ensures s.None? <==> |statuses| == 0
    ensures s.Some? ==> s.value == statuses[0] && s.value in statuses
  {
    if |statuses| > 0 then Some(statuses[0]) else None
  }

  /** The error of an empty gh release list. */
  const NoGhRelease: Error := Plain("No gh release is available")

  /** The error of a failed gh release request. */
  function GhReleaseFailure(e: Error): Error {
    Plain("Error getting gh release: " + ErrorText(e))
  }

  // ---------------------------------------------------------------------------
  // FindOrCreateToken: the selection
  // ---------------------------------------------------------------------------

  /** The position of the first authorization that belongs to hub's OAuth application, if any. */
  function FirstAppIndex(auths: seq<Authorization>): (r: Option<nat>)
    ensures r.Some? ==> r.value < |auths| && auths[r.value].appURL == OAuthAppURL
    ensures r.Some? ==> forall j :: 0 <= j < r.value ==> auths[j].appURL != OAuthAppURL
    ensures r.None? ==> forall j :: 0 <= j < |auths| ==> auths[j].appURL != OAuthAppURL
  {
    if |auths| == 0 then None
    else if auths[0].appURL == OAuthAppURL then Some(0)
    else match FirstAppIndex(auths[1..])
      case None => None
      case Some(i) => Some(i + 1)
  }

  /** The token found in the list: that of the first authorization of hub's application, or empty. */
  function FoundToken(auths: seq<Authorization>): string {
    match FirstAppIndex(auths)
    case None => ""
    case Some(i) => auths[i].token
  }

  /** Authorizations listed after a match never change the token found. */
  lemma {:induction false} FoundTokenIgnoresLater(auths: seq<Authorization>, more: seq<Authorization>)
    requires FirstAppIndex(auths).Some?
    ensures FirstAppIndex(auths + more) == FirstAppIndex(auths)
    ensures FoundToken(auths + more) == FoundToken(auths)
  {
    assert (auths + more)[0] == auths[0];
    if auths[0].appURL != OAuthAppURL {
      assert (auths + more)[1..] == auths[1..] + more;
      FoundTokenIgnoresLater(auths[1..], more);
    }
  }

  /** Authorizations of other applications listed first never change the token found. */
  lemma {:induction false} FoundTokenSkipsOthers(others: seq<Authorization>, auths: seq<Authorization>)
    requires forall j :: 0 <= j < |others| ==> others[j].appURL != OAuthAppURL
    ensures FoundToken(others + auths) == FoundToken(auths)
    ensures FirstAppIndex(others + auths).Some? <==> FirstAppIndex(auths).Some?
  {
    if others != [] {
      assert (others + auths)[0] == others[0];
      assert (others + auths)[1..] == others[1..] + auths;
      FoundTokenSkipsOthers(others[1..], auths);
    } else {
      assert others + auths == auths;
    }
  }

  /** The parameters of the one authorization FindOrCreateToken may create. */
  const HubAuthorization: AuthorizationParams := AuthorizationParams(["repo"], OAuthAppName, OAuthAppURL)

  // ---------------------------------------------------------------------------
  // The client
  // ---------------------------------------------------------------------------

  /**
   * A `*Client`: the host it talks to, replaced by `api()` when the token is
   * unknown. `lookups` records, in order, the hostnames the credential store
   * has been asked about.
   */
  class Client {
    var host: Host
    ghost var lookups: seq<string>

    /** NewClient: a client for a bare hostname, with no user and no token. */
    constructor (hostname: string)
      ensures host == Host(hostname, "", "") && lookups == []
    {
      host := Host(hostname, "", "");
      lookups := [];
    }

    /** NewClientWithHost. */
    constructor WithHost(h: Host)
      ensures host == h && lookups == []
    {
      host := h;
      lookups := [];
    }

    /**
     * api(): with an empty token, ask the credential store for the host and,
     * on success, keep its answer; then build the token-authenticated library
     * client for the host.
     */
    method Api(lookup: CredentialStore) returns (r: Result<ApiClient, Error>)
      modifies this
      ensures r == ApiResult(old(host), lookup)
      ensures host == HostAfterApi(old(host), lookup)
      ensures lookups == old(lookups) + ApiLookups(old(host))
    {
      if host.accessToken == "" {
        var found := lookup(host.hostname);
        lookups := lookups + [host.hostname];
        if found.Failure? {
          return Failure(found.error);
        }
        host := found.value;
      }
      r := Success(TokenClient(host));
    }

    /** The requestURL of this client. */
    function RequestUrl(u: Url, parse: Parser): (r: Option<Url>)
      reads this
      ensures host.hostname == GitHubHost ==> r == Some(u)
    {
      RequestURL(Some(host), u, parse)
    }

    /** The template: expand, `api()`, one request, errors formatted under the labels. */
    method Call<T>(env: Env, link: Hyperlink, vars: map<string, string>, labels: Labels, rewrite: bool,
                   verb: Verb, hintURL: Option<string>, send: Request -> Result<T, Error>)
      returns (r: Result<T, Error>)
      modifies this
      ensures r == Outcome(old(host), env, link, vars, labels, rewrite, verb, hintURL, send)
      ensures host == HostAfterCall(old(host), env, link, vars)
      ensures lookups == old(lookups) + CallLookups(old(host), env, link, vars)
    {
      var expanded := env.expand(link, vars);
      if expanded.Failure? {
        return Failure(expanded.error);
      }
      var api := Api(env.lookup);
      if api.Failure? {
        var ee := FormatError(labels.api, api.error);
        return Failure(ee);
      }
      var url := if rewrite then RequestUrl(expanded.value, env.parse) else Some(expanded.value);
      var result := send(Request(api.value, url, verb));
      if result.Failure? {
        var ee := FormatError(labels.request, result.error);
        if hintURL.Some? {
          var hint := WarnExistenceOfRepo(hintURL.value, result.error);
          if hint.Some? {
            ee := Plain(ErrorText(ee) + "\n" + ErrorText(hint.value));
          }
        }
        return Failure(ee);
      }
      r := Success(result.value);
    }

    method PullRequest(env: Env, project: Project, id: string, send: Request -> Result<PullRequest, Error>)
      returns (r: Result<PullRequest, Error>)
      modifies this
      ensures r == Outcome(old(host), env, PullRequestsURL,
                           map["owner" := project.owner, "repo" := project.name, "number" := id],
                           Labels("getting pull request", "getting pull request"), true, One, None, send)
      ensures host == HostAfterCall(old(host), env, PullRequestsURL,
                                    map["owner" := project.owner, "repo" := project.name, "number" := id])
      ensures lookups == old(lookups) + CallLookups(old(host), env, PullRequestsURL,
                                                    map["owner" := project.owner, "repo" := project.name, "number" := id])
    {
      r := Call(env, PullRequestsURL, map["owner" := project.owner, "repo" := project.name, "number" := id],
                Labels("getting pull request", "getting pull request"), true, One, None, send);
    }

    /** CreatePullRequest; a failure carries the not-found hint for the project's web URL. */
    method CreatePullRequest(env: Env, project: Project, base: string, head: string, title: string, body: string,
                             send: Request -> Result<PullRequest, Error>)
      returns (r: Result<PullRequest, Error>)
      modifies this
      ensures r == Outcome(old(host), env, PullRequestsURL, map["owner" := project.owner, "repo" := project.name],
                           Labels("creating pull request", "creating pull request"), true,
                           Create, Some(project.webURL), send)
      ensures host == HostAfterCall(old(host), env, PullRequestsURL,
                                    map["owner" := project.owner, "repo" := project.name])
      ensures lookups == old(lookups) + CallLookups(old(host), env, PullRequestsURL,
                                                    map["owner" := project.owner, "repo" := project.name])
    {
      r := Call(env, PullRequestsURL, map["owner" := project.owner, "repo" := project.name],
                Labels("creating pull request", "creating pull request"), true, Create, Some(project.webURL), send);
    }

    /** CreatePullRequestForIssue: as CreatePullRequest, turning an existing issue into the pull request. */
    method CreatePullRequestForIssue(env: Env, project: Project, base: string, head: string, issue: string,
                                     send: Request -> Result<PullRequest, Error>)
      returns (r: Result<PullRequest, Error>)
      modifies this
      ensures r == Outcome(old(host), env, PullRequestsURL, map["owner" := project.owner, "repo" := project.name],
                           Labels("creating pull request", "creating pull request"), true,
                           Create, Some(project.webURL), send)
      ensures host == HostAfterCall(old(host), env, PullRequestsURL,
                                    map["owner" := project.owner, "repo" := project.name])
      ensures lookups == old(lookups) + CallLookups(old(host), env, PullRequestsURL,
                                                    map["owner" := project.owner, "repo" := project.name])
    {
      r := Call(env, PullRequestsURL, map["owner" := project.owner, "repo" := project.name],
                Labels("creating pull request", "creating pull request"), true, Create, Some(project.webURL), send);
    }

    /** Repository; the library may answer with no repository and no error. */
    method Repository(env: Env, project: Project, send: Request -> Result<Option<Repository>, Error>)
      returns (r: Result<Option<Repository>, Error>)
      modifies this
      ensures r == Outcome(old(host), env, RepositoryURL, map["owner" := project.owner, "repo" := project.name],
                           Labels("getting repository", "getting repository"), true, One, None, send)
      ensures host == HostAfterCall(old(host), env, RepositoryURL,
                                    map["owner" := project.owner, "repo" := project.name])
      ensures lookups == old(lookups) + CallLookups(old(host), env, RepositoryURL,
                                                    map["owner" := project.owner, "repo" := project.name])
    {
      r := Call(env, RepositoryURL, map["owner" := project.owner, "repo" := project.name],
                Labels("getting repository", "getting repository"), true, One, None, send);
    }

    /** IsRepositoryExist: the repository request succeeded and returned a repository. */
    method IsRepositoryExist(env: Env, project: Project, send: Request -> Result<Option<Repository>, Error>)
      returns (exists_: bool)
      modifies this
      ensures var o := Outcome(old(host), env, RepositoryURL, map["owner" := project.owner, "repo" := project.name],
                               Labels("getting repository", "getting repository"), true, One, None, send);
              exists_ <==> o.Success? && o.value.Some?
      ensures host == HostAfterCall(old(host), env, RepositoryURL,
                                    map["owner" := project.owner, "repo" := project.name])
      ensures lookups == old(lookups) + CallLookups(old(host), env, RepositoryURL,
                                                    map["owner" := project.owner, "repo" := project.name])
    {
      var repo := Repository(env, project, send);
      exists_ := repo.Success? && repo.value.Some?;
    }

    /** CreateRepository: the endpoint is chosen from the host before `api()` may replace it. */
    method CreateRepository(env: Env, project: Project, description: string, homepage: string, isPrivate: bool,
                            send: Request -> Result<Repository, Error>)
      returns (r: Result<Repository, Error>)
      modifies this
      ensures r == Outcome(old(host), env, RepositoryLink(project.owner, old(host)), map["org" := project.owner],
                           Labels("creating repository", "creating repository"), true, Create, None, send)
      ensures host == HostAfterCall(old(host), env, RepositoryLink(project.owner, old(host)),
                                    map["org" := project.owner])
      ensures lookups == old(lookups) + CallLookups(old(host), env, RepositoryLink(project.owner, old(host)),
                                                    map["org" := project.owner])
    {
      var link := RepositoryLink(project.owner, host);
      r := Call(env, link, map["org" := project.owner],
                Labels("creating repository", "creating repository"), true, Create, None, send);
    }

    method Releases(env: Env, project: Project, send: Request -> Result<seq<Release>, Error>)
      returns (r: Result<seq<Release>, Error>)
      modifies this
      ensures r == Outcome(old(host), env, ReleasesURL, map["owner" := project.owner, "repo" := project.name],
                           Labels("getting release", "getting release"), true, All, None, send)
      ensures host == HostAfterCall(old(host), env, ReleasesURL,
                                    map["owner" := project.owner, "repo" := project.name])
      ensures lookups == old(lookups) + CallLookups(old(host), env, ReleasesURL,
                                                    map["owner" := project.owner, "repo" := project.name])
    {
      r := Call(env, ReleasesURL, map["owner" := project.owner, "repo" := project.name],
                Labels("getting release", "getting release"), true, All, None, send);
    }

    method CreateRelease(env: Env, project: Project, send: Request -> Result<Release, Error>)
      returns (r: Result<Release, Error>)
      modifies this
      ensures r == Outcome(old(host), env, ReleasesURL, map["owner" := project.owner, "repo" := project.name],
                           Labels("creating release", "creating release"), true, Create, None, send)
      ensures host == HostAfterCall(old(host), env, ReleasesURL,
                                    map["owner" := project.owner, "repo" := project.name])
      ensures lookups == old(lookups) + CallLookups(old(host), env, ReleasesURL,
                                                    map["owner" := project.owner, "repo" := project.name])
    {
      r := Call(env, ReleasesURL, map["owner" := project.owner, "repo" := project.name],
                Labels("creating release", "creating release"), true, Create, None, send);
    }

    /**
     * UploadReleaseAsset: a failure to stat the asset is returned before any
     * lookup; the upload goes to the given URL, not rewritten, with the
     * asset's content type and size. The result is the error, if any.
     */
    method UploadReleaseAsset(lookup: CredentialStore, uploadUrl: Url, stat: Result<int, Error>,
                              contentType: string, send: Request -> Result<(), Error>)
      returns (err: Option<Error>)
      modifies this
      ensures stat.Failure? ==> err == Some(stat.error) && host == old(host) && lookups == old(lookups)
      ensures stat.Success? ==>
                host == HostAfterApi(old(host), lookup) && lookups == old(lookups) + ApiLookups(old(host))
      ensures stat.Success? && ApiResult(old(host), lookup).Failure? ==>
                err == Some(Formatted("uploading asset", ApiResult(old(host), lookup).error))
      ensures stat.Success? && ApiResult(old(host), lookup).Success? ==>
                var sent := send(Request(ApiResult(old(host), lookup).value, Some(uploadUrl),
                                         Upload(contentType, stat.value)));
                err == (if sent.Failure? then Some(Formatted("uploading asset", sent.error)) else None)
    {
      if stat.Failure? {
        return Some(stat.error);
      }
      var api := Api(lookup);
      if api.Failure? {
        var ee := FormatError("uploading asset", api.error);
        return Some(ee);
      }
      var result := send(Request(api.value, Some(uploadUrl), Upload(contentType, stat.value)));
      if result.Failure? {
        var ee := FormatError("uploading asset", result.error);
        return Some(ee);
      }
      err := None;
    }

    /** CIStatus: only the first status of the list is surfaced. */
    method CIStatus(env: Env, project: Project, sha: string, send: Request -> Result<seq<Status>, Error>)
      returns (r: Result<Option<Status>, Error>)
      modifies this
      ensures var o := Outcome(old(host), env, StatusesURL,
                               map["owner" := project.owner, "repo" := project.name, "ref" := sha],
                               Labels("getting CI status", "getting CI status"), true, All, None, send);
              r == (match o case Failure(e) => Failure(e) case Success(s) => Success(FirstStatus(s)))
      ensures host == HostAfterCall(old(host), env, StatusesURL,
                                    map["owner" := project.owner, "repo" := project.name, "ref" := sha])
      ensures lookups == old(lookups) + CallLookups(old(host), env, StatusesURL,
                                                    map["owner" := project.owner, "repo" := project.name, "ref" := sha])
    {
      var statuses := Call(env, StatusesURL, map["owner" := project.owner, "repo" := project.name, "ref" := sha],
                           Labels("getting CI status", "getting CI status"), true, All, None, send);
      if statuses.Failure? {
        return Failure(statuses.error);
      }
      var status: Option<Status> := None;
      if |statuses.value| > 0 {
        status := Some(statuses.value[0]);
      }
      r := Success(status);
    }

    method ForkRepository(env: Env, project: Project, send: Request -> Result<Repository, Error>)
      returns (r: Result<Repository, Error>)
      modifies this
      ensures r == Outcome(old(host), env, ForksURL, map["owner" := project.owner, "repo" := project.name],
                           Labels("forking repository", "forking repository"), true, Create, None, send)
      ensures host == HostAfterCall(old(host), env, ForksURL,
                                    map["owner" := project.owner, "repo" := project.name])
      ensures lookups == old(lookups) + CallLookups(old(host), env, ForksURL,
                                                    map["owner" := project.owner, "repo" := project.name])
    {
      r := Call(env, ForksURL, map["owner" := project.owner, "repo" := project.name],
                Labels("forking repository", "forking repository"), true, Create, None, send);
    }

    method Issues(env: Env, project: Project, send: Request -> Result<seq<Issue>, Error>)
      returns (r: Result<seq<Issue>, Error>)
      modifies this
      ensures r == Outcome(old(host), env, RepoIssuesURL, map["owner" := project.owner, "repo" := project.name],
                           Labels("getting issues", "getting issues"), true, All, None, send)
      ensures host == HostAfterCall(old(host), env, RepoIssuesURL,
                                    map["owner" := project.owner, "repo" := project.name])
      ensures lookups == old(lookups) + CallLookups(old(host), env, RepoIssuesURL,
                                                    map["owner" := project.owner, "repo" := project.name])
    {
      r := Call(env, RepoIssuesURL, map["owner" := project.owner, "repo" := project.name],
                Labels("getting issues", "getting issues"), true, All, None, send);
    }

    /** CreateIssue: an `api()` failure is labelled "creating issues", a request failure "creating issue". */
    method CreateIssue(env: Env, project: Project, title: string, body: string, labels: seq<string>,
                       send: Request -> Result<Issue, Error>)
      returns (r: Result<Issue, Error>)
      modifies this
      ensures r == Outcome(old(host), env, RepoIssuesURL, map["owner" := project.owner, "repo" := project.name],
                           Labels("creating issues", "creating issue"), true, Create, None, send)
      ensures host == HostAfterCall(old(host), env, RepoIssuesURL,
                                    map["owner" := project.owner, "repo" := project.name])
      ensures lookups == old(lookups) + CallLookups(old(host), env, RepoIssuesURL,
                                                    map["owner" := project.owner, "repo" := project.name])
    {
      r := Call(env, RepoIssuesURL, map["owner" := project.owner, "repo" := project.name],
                Labels("creating issues", "creating issue"), true, Create, None, send);
    }

    /** CurrentUser: the only operation whose URL is not rewritten for an Enterprise host. */
    method CurrentUser(env: Env, send: Request -> Result<User, Error>)
      returns (r: Result<User, Error>)
      modifies this
      ensures r == Outcome(old(host), env, CurrentUserURL, map[],
                           Labels("getting current user", "getting current user"), false, One, None, send)
      ensures host == HostAfterCall(old(host), env, CurrentUserURL, map[])
      ensures lookups == old(lookups) + CallLookups(old(host), env, CurrentUserURL, map[])
    {
      r := Call(env, CurrentUserURL, map[], Labels("getting current user", "getting current user"),
                false, One, None, send);
    }

    /**
     * GhLatestTagName: the tag of the first release of jingweno/gh, fetched
     * without authentication and without consulting the credential store.
     */
    method GhLatestTagName(env: Env, send: Request -> Result<seq<Release>, Error>)
      returns (r: Result<string, Error>)
      ensures var expanded := env.expand(ReleasesURL, map["owner" := "jingweno", "repo" := "gh"]);
              expanded.Failure? ==> r == Failure(expanded.error)
      ensures var expanded := env.expand(ReleasesURL, map["owner" := "jingweno", "repo" := "gh"]);
              expanded.Success? ==>
                var sent := send(Request(ApiClient(host.hostname, UserAgent, NoAuth),
                                         RequestURL(Some(host), expanded.value, env.parse), All));
                && (sent.Failure? ==> r == Failure(GhReleaseFailure(sent.error)))
                && (sent.Success? && |sent.value| == 0 ==> r == Failure(NoGhRelease))
                && (sent.Success? && |sent.value| > 0 ==> r == Success(sent.value[0].tagName))
    {
      var expanded := env.expand(ReleasesURL, map["owner" := "jingweno", "repo" := "gh"]);
      if expanded.Failure? {
        return Failure(expanded.error);
      }
      var c := ApiClient(host.hostname, UserAgent, NoAuth);
      var releases := send(Request(c, RequestUrl(expanded.value, env.parse), All));
      if releases.Failure? {
        return Failure(GhReleaseFailure(releases.error));
      }
      if |releases.value| == 0 {
        return Failure(NoGhRelease);
      }
      r := Success(releases.value[0].tagName);
    }

    /**
     * FindOrCreateToken: list the user's authorizations with basic
     * authentication and take the token of the first one that belongs to hub's
     * application; when there is none, or its token is empty, create exactly
     * one authorization. `created` lists the parameters of the create calls
     * made. Every failure is wrapped in an AuthError.
     */
    method FindOrCreateToken(env: Env, user: string, password: string, twoFactorCode: string,
                             list: Request -> Result<seq<Authorization>, Error>,
                             create: (Request, AuthorizationParams) -> Result<Authorization, Error>)
      returns (r: Result<string, Error>, created: seq<AuthorizationParams>)
      ensures r.Failure? ==> r.error.AuthError?
      ensures |created| <= 1 && (created != [] ==> created == [HubAuthorization])
      ensures var expanded := env.expand(AuthorizationsURL, map[]);
              expanded.Failure? ==> r == Failure(AuthError(expanded.error)) && created == []
      ensures var expanded := env.expand(AuthorizationsURL, map[]);
              expanded.Success? ==>
                var c := ApiClient(host.hostname, UserAgent, BasicAuth(user, password, twoFactorCode));
                var url := RequestURL(Some(host), expanded.value, env.parse);
                var listed := list(Request(c, url, All));
                && (listed.Failure? ==> r == Failure(AuthError(listed.error)) && created == [])
                && (listed.Success? && FoundToken(listed.value) != "" ==>
                      r == Success(FoundToken(listed.value)) && created == [])
                && (listed.Success? && FoundToken(listed.value) == "" ==>
                      var made := create(Request(c, url, Create), HubAuthorization);
                      && created == [HubAuthorization]
                      && r == (match made case Failure(e) => Failure(AuthError(e))
                                          case Success(a) => Success(a.token)))
    {
      created := [];
      var expanded := env.expand(AuthorizationsURL, map[]);
      if expanded.Failure? {
        return Failure(AuthError(expanded.error)), created;
      }
      var c := ApiClient(host.hostname, UserAgent, BasicAuth(user, password, twoFactorCode));
      var url := RequestUrl(expanded.value, env.parse);
      var listed := list(Request(c, url, All));
      if listed.Failure? {
        return Failure(AuthError(listed.error)), created;
      }
      var auths := listed.value;
      var token := "";
      var i := 0;
      while i < |auths|
        invariant 0 <= i <= |auths|
        invariant token == ""
        invariant forall j :: 0 <= j < i ==> auths[j].appURL != OAuthAppURL
      {
        if auths[i].appURL == OAuthAppURL {
          token := auths[i].token;
          break;
        }
        i := i + 1;
      }
      assert token == FoundToken(auths) by {
        if i < |auths| {
          assert FirstAppIndex(auths) == Some(i) by {
            FirstIndexUnique(auths, i);
          }
        }
      }
      if token == "" {
        created := [HubAuthorization];
        var made := create(Request(c, url, Create), HubAuthorization);
        if made.Failure? {
          return Failure(AuthError(made.error)), created;
        }
        token := made.value.token;
      }
      r := Success(token);
    }
  }

  /** A position holding hub's application with none before it is the first one. */
  lemma FirstIndexUnique(auths: seq<Authorization>, i: nat)
    requires i < |auths| && auths[i].appURL == OAuthAppURL
    requires forall j :: 0 <= j < i ==> auths[j].appURL != OAuthAppURL
    ensures FirstAppIndex(auths) == Some(i)
  {
    match FirstAppIndex(auths)
    case None =>
    case Some(k) =>
  }
}
