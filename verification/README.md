# hub's GitHub API client, modelled in Dafny

This project models the decision logic of hub's API client facade, `github/client.go`. The client:

- normalises the errors the go-octokit library returns (`FormatError`);
- adds a "does this repository exist?" hint to failed pull-request creations (`warnExistenceOfRepo`);
- rewrites request URLs for GitHub Enterprise hosts (`requestURL`);
- finds or creates hub's OAuth token (`FindOrCreateToken`) and tells the one-time-password challenge apart (`AuthError.Is2FAError`);
- resolves the host's credentials lazily, mutating the client (`api`);
- chooses a proxy from the environment (`proxyFromEnvironment`);
- runs every facade operation (`PullRequest`, `CreateRepository`, `CIStatus`, `GhLatestTagName`, …) through the same template: expand a URI template, obtain a library client, send one request, label the error.

Modules:

- `Results` (`results.dfy`): `Option` for Go's nil-able references, `Result` for `(value, err)` pairs.
- `Strings` (`strings.dfy`): the Go library pieces the messages are built from:
  - `strings.SplitN(s, sep, 2)` (as `Cut`), `TrimSpace`, `Join`, `Split`, `HasPrefix`;
  - the `%d` verb;
  - the `%q` verb (`strconv.Quote`), with its inverse to show that the quoted value can be recovered.
- `Octokit` (`octokit.dfy`): the library's values as the client sees them. The `Error` sum type is a response error, an `AuthError`, or any other (plain) error.
- `Errors` (`errors.dfy`): `FormatError` (a method with its loop, proved against the function `Formatted`), `Is2FAError`, `warnExistenceOfRepo`, and the text `fmt.Errorf` makes of a message with no operands.
- `Hosts` (`hosts.dfy`): `Host` and `requestURL`.
- `Proxy` (`proxy.dfy`): `proxyFromEnvironment`.
- `Facade` (`facade.dfy`): the `Client` class.
  - Its `host` field is replaced in place by `api()`, and a ghost `lookups` log records the credential-store calls.
  - The shared template is the specification function `Outcome` and the method `Call`.
  - Each operation is a method of the class.
  - `FindOrCreateToken` is a loop with `break`, proved against `FirstAppIndex`/`FoundToken`. It returns the parameters of the authorizations it created, so "exactly one create call" can be stated.

External collaborators are parameters of the operations that call them, grouped in `Facade.Env` with a per-operation `send`:

- URI template expansion (`Hyperlink.Expand`) is an `Expander`.
- `url.Parse` is a `Parser`.
- The credential store (`CurrentConfigs().PromptForHost`) is a `CredentialStore`.
- Each library request (`One`, `All`, `Create`, `UploadAsset`) is the `send` function of its operation. It receives a `Request` that records:
  - the library client (API host, user agent, authentication);
  - the URL, possibly nil;
  - the call made.
- `http_proxy` and `HTTP_PROXY` are plain string parameters.
- The result of `asset.Stat()` is a parameter of `UploadReleaseAsset`.

Behaviours of the code worth noting:

- `requestURL` keeps only the path for an Enterprise host. It drops the query, scheme and host.
- `api()` stores whatever host the credential store returns. It does not check that the token is now non-empty.
- `CurrentUser` sends its URL without the Enterprise rewrite.
- `FindOrCreateToken` also creates an authorization when the matching one has an empty token.
- `proxyFromEnvironment` fails only when the first parse failed and the `http://` parse failed too. A setting that parses with a non-`http` scheme, and whose `http://` form does not parse, is used as parsed.

## Model

| member | source | states |
|---|---|---|
| Strings.Cut | github/client.go:480 | `SplitN(s, sep, 2)` with two parts: `s` is before + sep + after, and sep does not occur earlier; a single part exactly when sep does not occur |
| Strings.CutUnique | github/client.go:480 | the split at the first occurrence of the separator is the one returned |
| Strings.SplitJoin | github/client.go:500 | splitting on a rune undoes `strings.Join` on it when no part contains the rune |
| Strings.TrimLeft | github/client.go:481 | removes exactly the leading run of Unicode spaces, and keeps a suffix |
| Strings.TrimRight | github/client.go:481 | removes exactly the trailing run of Unicode spaces, and keeps a prefix |
| Strings.TrimSpaceInfix | github/client.go:481 | `TrimSpace` keeps an infix, drops only spaces around it, and leaves no space at either end |
| Strings.TrimSpaceNoop | github/client.go:481 | text with no surrounding space is unchanged by `TrimSpace` |
| Strings.NatDigits | github/client.go:484 | `%d` digits are all decimal digits, with no leading zero |
| Strings.Decimal | github/client.go:484 | `%d` of an int is non-empty and made of digits and a minus sign |
| Strings.NatDigitsValue | github/client.go:484 | reading the `%d` digits back gives the number |
| Strings.Quote | github/client.go:438 | `%q` output starts and ends with a double quote |
| Strings.UnquoteQuote | github/client.go:438 | the quoted proxy address in the error determines the address |
| Errors.CollectMessages | github/client.go:486-497 | the loop appends the message, if non-empty, then each field error in order, and only for status 422 |
| Errors.FormatError | github/client.go:475-512 | the corrected form of the line-503 finding (the built text is returned literally, not read as a format string); the method returns `Formatted`: a headline plus 422 validation lines for a response error, the 401 line for an AuthError, anything else unchanged |
| Errors.ReasonAfterFirstSpace | github/client.go:480-482 | the reason is the trimmed text after the first space of the status line |
| Errors.ReasonWithoutSpace | github/client.go:480-482 | a status line without a space gives an empty reason |
| Errors.ReasonOfStatus | github/client.go:480-482 | `<code> <phrase>` with a trimmed phrase gives that phrase |
| Errors.FormattedHeadline | github/client.go:484-501 | the text starts with `Error <action>: <reason> (HTTP <code>)`; more follows, after a newline, exactly when the status is 422 and there is a message or a field error |
| Errors.FormattedLines | github/client.go:484-501 | read line by line: the headline, then the message if present, then each field error in order; a single line for any status but 422 |
| Errors.ValidationFailedExample | github/client.go:477-503 | the 422 example yields exactly `Error creating repository: Unprocessable Entity (HTTP 422)`, `Validation Failed`, `name already exists` on three lines |
| Errors.Is2FAError | github/client.go:37-40 | holds only for a response-error cause |
| Errors.TwoFactorOnlyFromPredicate | github/client.go:37-40 | an AuthError formats as the 401 line whatever its cause; `Is2FAError` holds for a one-time-password response cause and for no other |
| Errors.FormatIdempotent | github/client.go:507-508 | a formatted error passes through a second FormatError unchanged |
| Errors.WarnExistenceOfRepo | github/client.go:514-526 | a hint only for a 404 response error, naming the non-empty text after the first `://` of the web URL |
| Errors.HintOnlyForNotFound | github/client.go:514-515 | no hint unless the error is a response error with status 404 |
| Errors.NoHintWithoutRemainder | github/client.go:516-522 | no hint when the web URL has no `://` or nothing after it |
| Errors.HintStripsScheme | github/client.go:516-521 | for a 404 the hint is `Are you sure that <rest> exists?`, where `<rest>` follows the first `://` |
| Errors.NotFoundPullRequestLines | github/client.go:82-85 | a 404 pull-request creation reads as the 404 headline, then the existence question |
| Errors.NotFoundExample | github/client.go:82-85 | `https://github.com/octo/hello` with a 404 gives the 404 headline and `Are you sure that github.com/octo/hello exists?` |
| Errors.NoOperandFormatPlain | github/client.go:503 | `fmt.Errorf` with no operands leaves text without `%` unchanged |
| Errors.NoOperandFormatTrailingPercent | github/client.go:503 | `fmt.Errorf` with no operands turns a trailing `%` into `%!(NOVERB)` |
| Errors.AsWrittenAgreesWithoutPercent | github/client.go:503-506 | the code as written agrees with the intended message when the message has no `%` |
| Errors.FormatErrorAsWritten | github/client.go:503-506 | the code as written: always a plain message; a plain error passes through; an AuthError gives the 401 line read as a format string |
| Errors.TrailingPercentMangled | github/client.go:503 | a 422 message ending in its only `%` keeps it when formatted literally and gets `%!(NOVERB)` as written |
| Errors.PercentInMessageIsMangled | github/client.go:503 | a 422 message `Quota at 100%` is reported as `Quota at 100%!(NOVERB)` by the code as written |
| Hosts.RequestURL | github/client.go:461-468 | the URL itself for no host or the public host; nil only for an Enterprise host whose `/api/v3/` text does not parse |
| Hosts.PublicHostUnchanged | github/client.go:461-468 | no host or `github.com`: the URL is returned unchanged |
| Hosts.EnterpriseDependsOnlyOnPath | github/client.go:463-464 | for another host, URLs with the same path are rewritten alike whatever their scheme, host and query |
| Hosts.EnterpriseParsesPrefixedPath | github/client.go:463-464 | for another host, the result is the parse of `/api/v3/` + path, and nil exactly when that parse fails |
| Hosts.LeadingSlashDoubled | github/client.go:464 | a path starting with `/` is parsed as `/api/v3//…` |
| Proxy.ProxyFromEnvironment | github/client.go:423-441 | no proxy and no error exactly when both variables are empty; a failure is a plain message and means the `http://` form failed to parse too; a selected proxy is one of the two parses |
| Proxy.LowerCaseWins | github/client.go:424-427 | a non-empty `http_proxy` decides, whatever `HTTP_PROXY` holds |
| Proxy.NoProxyIffUnset | github/client.go:424-430 | no proxy and no error exactly when both variables are empty |
| Proxy.HttpSchemeKept | github/client.go:431-432 | a setting that parses with an `http…` scheme is used as parsed |
| Proxy.FallbackWins | github/client.go:432-435 | a setting that fails to parse or has another scheme is replaced by its `http://` parse when that succeeds |
| Proxy.FailsOnlyWhenBothParsesFail | github/client.go:431-439 | failure exactly when both parses fail; the error is `invalid proxy address <%q of the setting>: <parse error>` |
| Proxy.SelectedIsAParse | github/client.go:431-440 | a selected proxy is one of the two parses; a non-`http` scheme survives only when the `http://` form does not parse |
| Facade.ApiKeepsKnownToken | github/client.go:443-456 | with a token, `api()` makes no lookup, keeps the host and builds a token client for it |
| Facade.ApiLookupFailure | github/client.go:444-449 | without a token, one lookup; on failure the host is kept and the lookup's error is returned unwrapped |
| Facade.ApiLookupSuccess | github/client.go:444-456 | without a token, one lookup; on success the host is replaced and the client is built for the new host |
| Facade.ApiSettles | github/client.go:444-451 | once the resolved host has a token, a further `api()` changes nothing and makes no lookup |
| Facade.Client.Api | github/client.go:443-459 | the method's result, new host and lookup log are those of `ApiResult`, `HostAfterApi` and `ApiLookups` |
| Facade.ExpandFailureUnwrapped | github/client.go:47-50 | an expansion failure is returned unwrapped, before any lookup, and the host is kept |
| Facade.LookupFailureStopsBeforeRequest | github/client.go:52-56 | a failed lookup is reported under the api label, and no request is sent |
| Facade.RequestUsesResolvedHost | github/client.go:52-62 | the request carries the token and hostname of the host as resolved, and the rewritten URL; success is passed through |
| Facade.Outcome | github/client.go:46-65 | the template: an expansion error is returned as is; past the expansion every failure is a plain message; a success is a value the one request returned |
| Facade.ErrorsNormalised | github/client.go:52-62 | past the expansion, every returned error is a plain message that a second FormatError leaves alone, whatever the credential store or the request failed with |
| Facade.StoreAuthErrorIsUnauthorized | github/client.go:52-55 | a credential store failing with an AuthError surfaces as the 401 line under the api label |
| Facade.RequestFailureLabelled | github/client.go:59-62 | a failed request returns its error formatted under the operation's request label, with the not-found hint appended when a web URL is given (lines 81-85) |
| Facade.NotFoundHintAppended | github/client.go:81-85 | a 404 pull-request creation reports the formatted error, then the existence question on the next line |
| Facade.NoHintUnlessNotFound | github/client.go:81-85 | without a 404 the pull-request creators report the formatted error alone |
| Facade.Client.Call | github/client.go:46-65 | the template method's result, new host and lookup log are those of `Outcome`, `HostAfterCall` and `CallLookups`; every operation below states the same three |
| Facade.Client.PullRequest | github/client.go:46-65 | the template with the pull-request link, owner/repo/number and the label `getting pull request` |
| Facade.Client.CreatePullRequest | github/client.go:67-91 | the template with the label `creating pull request` and the not-found hint for the project's web URL |
| Facade.Client.CreatePullRequestForIssue | github/client.go:93-117 | as `CreatePullRequest` |
| Facade.Client.Repository | github/client.go:119-138 | the template with the repository link and the label `getting repository` |
| Facade.Client.IsRepositoryExist | github/client.go:140-144 | true exactly when the repository request succeeds with a repository; the new host and lookup log are those of the repository call |
| Facade.RepositoryLink | github/client.go:148-152 | the organisation endpoint exactly when the owner is not the host's user |
| Facade.BareClientUsesOrgEndpoint | github/client.go:148-152 | a client built from a bare hostname sends a non-empty owner to the organisation endpoint even when the credential store names that owner as the user, whose resolved host would choose the user endpoint |
| Facade.Client.CreateRepository | github/client.go:146-178 | the endpoint is chosen from the host before `api()`; the template runs with `org` = owner and the label `creating repository` |
| Facade.Client.Releases | github/client.go:180-199 | the template with the releases link and the label `getting release` |
| Facade.Client.CreateRelease | github/client.go:201-220 | the template with the releases link and the label `creating release` |
| Facade.Client.UploadReleaseAsset | github/client.go:222-241 | a stat failure is returned raw, before any lookup; otherwise the upload goes to the given URL, not rewritten, with content type and size, and errors are labelled `uploading asset` |
| Facade.FirstStatus | github/client.go:261-263 | the first status of the list; nil exactly for an empty list |
| Facade.Client.CIStatus | github/client.go:243-266 | the template's error, or the first status of the list returned |
| Facade.Client.ForkRepository | github/client.go:268-287 | the template with the forks link and the label `forking repository` |
| Facade.Client.Issues | github/client.go:289-308 | the template with the issues link and the label `getting issues` |
| Facade.Client.CreateIssue | github/client.go:310-334 | the template with the label `creating issues` for an `api()` failure and `creating issue` for a request failure |
| Facade.Client.GhLatestTagName | github/client.go:336-357 | unauthenticated, no lookup; the expansion error as is; `Error getting gh release: <error>`; `No gh release is available` for an empty list; otherwise the first tag |
| Facade.Client.CurrentUser | github/client.go:359-378 | the template without the Enterprise rewrite, with the label `getting current user` |
| Facade.FirstAppIndex | github/client.go:397-402 | the index of the first authorization of hub's application: it matches and none before it does; none when no authorization matches |
| Facade.FoundTokenIgnoresLater | github/client.go:397-402 | authorizations after the first match never change the token found |
| Facade.FoundTokenSkipsOthers | github/client.go:397-402 | authorizations of other applications listed first never change the token found |
| Facade.Client.FindOrCreateToken | github/client.go:380-420 | basic-auth listing; the token of the first matching authorization; otherwise, or when that token is empty, exactly one create with scopes `repo`, note `hub` and note URL `http://hub.github.com/`; every failure wrapped in an AuthError |
| Facade.Client.constructor | github/client.go:21-23 | `NewClient`: a bare host with no user and no token |
| Facade.Client.WithHost | github/client.go:25-27 | `NewClientWithHost`: the given host |

## Left out

- The go-octokit library:
  - URI template expansion, the HTTP requests, JSON decoding and the payload types, which are reduced to identifying fields;
  - the request parameters each operation sends (`PullRequestParams`, `IssueParams`, `Repository`, `ReleaseParams`): they are not recorded in `Request`.
- `url.Parse`, `os.Getenv`, `asset.Stat()` and the file upload: they are parameters.
- `CurrentConfigs().PromptForHost` is the injected `CredentialStore`. Its prompting and configuration files are not part of this model.
- `apiHost()` and its `String()` are not part of this model. A library client records the hostname it is built from, not the derived API host.
- `Project.WebURL` is not part of this model. Its value is the `webURL` field of `Project`.
- The `http.Transport`/`http.Client` construction in `api()`. Only the proxy decision it installs is modelled, as `Proxy.ProxyFromEnvironment`.
- The payload a library call returns together with an error is dropped: an operation that fails returns only its error.
- `Hosts.RequestURL` takes a possibly nil host. `Client` always holds one, because every operation dereferences `client.Host` before `requestURL` runs.
- Concurrent calls on one `Client` are not modelled: the model is single-threaded.
- Strings.Quote: runes from U+0080 up are kept verbatim. `strconv.Quote` escapes the non-printable ones as `\u`/`\U` sequences, and Unicode printability tables are not modelled. Invalid UTF-8 is not modelled either, since strings are rune sequences.
- Errors.FormatError: returns the built text literally, which is the corrected behaviour of the line-503 finding. `Facade.Outcome`, `Facade.RequestFailure`, `Facade.Client.Call`, `Facade.Client.UploadReleaseAsset` and every operation built on them use this corrected formatter too. The as-written reading of the text as a `fmt.Errorf` format string exists only in `Errors.FormatErrorAsWritten`, so for a server message containing `%` the facade contracts describe the corrected program, not the code at line 503.
- Errors.NoOperandFormat: the as-written behaviour of `fmt.Errorf` is defined only when every `%` is followed by `%`, an ASCII letter, or the end of the text. Flags, widths, precisions and argument indexes after a `%` are not modelled.
- Errors.FormatErrorAsWritten: requires a message in that domain for the same reason.
- Facade.Client.RequestUrl: its contract states only the public-host case. The Enterprise case is stated by the `Hosts` lemmas about `RequestURL`, which it returns.

## Findings

| source | as written | input that shows it | evidently intended | confidence | as-written member | corrected member |
|---|---|---|---|---|---|---|
| github/client.go:503 | `ee = fmt.Errorf(errStr)` passes the built message as a format string, so each `%` in a server-supplied message or field error is read as a directive | a 422 response with message `Quota at 100%` for action `creating issue` is reported as `…(HTTP 422)\nQuota at 100%!(NOVERB)` | the message reported verbatim: `…(HTTP 422)\nQuota at 100%` | not executed | Errors.FormatErrorAsWritten, Errors.PercentInMessageIsMangled | Errors.FormatError |
