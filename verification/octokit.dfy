/**
 * The values the client exchanges with the go-octokit library, as the client
 * sees them. The library itself (URI templates, HTTP, JSON) is not part of this
 * model: its calls are parameters of the operations that make them.
 */
module Octokit {
  import opened Results

  /** octokit.ResponseErrorType; only the one-time-password case is told apart by the client. */
  datatype ResponseErrorType = OneTimePasswordRequired | OtherType(name: string)

  /**
   * An `error` value as the client classifies it:
   * - `ResponseError`: an `*octokit.ResponseError`; `status` is the HTTP status line
   *   (`"422 Unprocessable Entity"`), `fieldErrors` the texts of its field-level
   *   errors in the order received, and `description` what its own `Error()` returns;
   * - `AuthError`: the client's `*AuthError` wrapping a cause;
   * - `Plain`: any other error, such as one built by `fmt.Errorf`.
   */
  datatype Error =
    | ResponseError(statusCode: int, status: string, message: string,
                    fieldErrors: seq<string>, kind: ResponseErrorType, description: string)
    | AuthError(cause: Error)
    | Plain(text: string)

  /** The error's `Error()` text; an AuthError reports its cause's text. */
  function ErrorText(e: Error): string {
    match e
    case ResponseError(_, _, _, _, _, d) => d
    case AuthError(c) => ErrorText(c)
    case Plain(t) => t
  }

  /** A parsed `*url.URL`, reduced to the parts the client reads. */
  datatype Url = Url(scheme: string, host: string, path: string, rawQuery: string)

  /** The octokit URI templates the client expands. */
  datatype Hyperlink =
    | PullRequestsURL | RepositoryURL | OrgRepositoriesURL | UserRepositoriesURL
    | ReleasesURL | StatusesURL | ForksURL | RepoIssuesURL | CurrentUserURL
    | AuthorizationsURL

  /** How an octokit client authenticates its requests. */
  datatype Auth =
    | NoAuth
    | TokenAuth(accessToken: string)
    | BasicAuth(login: string, password: string, oneTimePassword: string)

  /**
   * An `*octokit.Client`: built for the API host of `hostname` (the client's
   * `apiHost()`), with a user agent and an authentication method.
   */
  datatype ApiClient = ApiClient(hostname: string, userAgent: string, auth: Auth)

  /** The library call a facade operation makes on its service. */
  datatype Verb =
    | One
    | All
    | Create
    | Upload(contentType: string, size: int)

  /** One request handed to the library: the client, the (possibly nil) URL, the call. */
  datatype Request = Request(client: ApiClient, url: Option<Url>, verb: Verb)

  /** An `octokit.Authorization`: its token and the URL of the application it belongs to. */
  datatype Authorization = Authorization(token: string, appURL: string)

  /** An `octokit.AuthorizationParams`. */
  datatype AuthorizationParams = AuthorizationParams(scopes: seq<string>, note: string, noteURL: string)

  /** An `octokit.Release`, reduced to its tag name. */
  datatype Release = Release(tagName: string)

  /** The payloads the other requests return, reduced to what identifies them. */
  datatype PullRequest = PullRequest(number: int, htmlURL: string)
  datatype Repository = Repository(owner: string, name: string)
  datatype Status = Status(state: string, context: string)
  datatype Issue = Issue(number: int, title: string)
  datatype User = User(login: string)
}
