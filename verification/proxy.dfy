/**
 * The proxy the client's HTTP transport uses (`proxyFromEnvironment`). The two
 * environment variables are parameters and `url.Parse` is passed in.
 */
module Proxy {
  import opened Results
  import opened Strings
  import opened Octokit
  import opened Hosts

  /** The proxy setting in force: `http_proxy` when set, `HTTP_PROXY` otherwise. */
  function ProxySetting(httpProxy: string, upperHttpProxy: string): string {
    if httpProxy != "" then httpProxy else upperHttpProxy
  }

  /** The error reported for an address that parses neither as given nor with `http://`. */
  function InvalidProxyAddress(proxy: string, cause: string): Error {
    Plain("invalid proxy address " + Quote(proxy) + ": " + cause)
  }

  /**
   * proxyFromEnvironment: no proxy when neither variable is set; otherwise the
   * parsed setting, except that a setting that fails to parse or whose scheme
   * does not start with `http` is parsed again behind `http://`, and that
   * parse wins when it succeeds.
   */
  function ProxyFromEnvironment(httpProxy: string, upperHttpProxy: string, parse: Parser)
    : (r: Result<Option<Url>, Error>)
    ensures r == Success(None) <==> httpProxy == "" && upperHttpProxy == ""
    ensures r.Failure? ==> r.error.Plain? && parse("http://" + ProxySetting(httpProxy, upperHttpProxy)).Failure?
    ensures r.Success? && r.value.Some? ==>
              var proxy := ProxySetting(httpProxy, upperHttpProxy);
              parse(proxy) == Success(r.value.value) || parse("http://" + proxy) == Success(r.value.value)
  {
    var proxy := ProxySetting(httpProxy, upperHttpProxy);
    if proxy == "" then Success(None)
    else
      var first := parse(proxy);
      var retry := first.Failure? || !HasPrefix(first.value.scheme, "http");
      if retry && parse("http://" + proxy).Success? then Success(Some(parse("http://" + proxy).value))
      else if first.Failure? then Failure(InvalidProxyAddress(proxy, first.error))
      else Success(Some(first.value))
  }

  /** A non-empty `http_proxy` decides alone: `HTTP_PROXY` is then never read. */
  lemma LowerCaseWins(httpProxy: string, upper1: string, upper2: string, parse: Parser)
    requires httpProxy != ""
    ensures ProxyFromEnvironment(httpProxy, upper1, parse) == ProxyFromEnvironment(httpProxy, upper2, parse)
  {
  }

  /** No proxy, and no error, exactly when both variables are empty. */
  lemma NoProxyIffUnset(httpProxy: string, upperHttpProxy: string, parse: Parser)
    ensures ProxyFromEnvironment(httpProxy, upperHttpProxy, parse) == Success(None)
        <==> httpProxy == "" && upperHttpProxy == ""
  {
  }

  /** A setting that parses with an `http...` scheme is used as parsed; no second parse is consulted. */
  lemma HttpSchemeKept(httpProxy: string, upperHttpProxy: string, parse: Parser)
    requires ProxySetting(httpProxy, upperHttpProxy) != ""
    requires parse(ProxySetting(httpProxy, upperHttpProxy)).Success?
    requires HasPrefix(parse(ProxySetting(httpProxy, upperHttpProxy)).value.scheme, "http")
    ensures ProxyFromEnvironment(httpProxy, upperHttpProxy, parse)
         == Success(Some(parse(ProxySetting(httpProxy, upperHttpProxy)).value))
  {
  }

  /**
   * A setting that fails to parse, or parses with another scheme, is replaced
   * by its `http://` form whenever that form parses.
   */
  lemma FallbackWins(httpProxy: string, upperHttpProxy: string, parse: Parser)
    requires ProxySetting(httpProxy, upperHttpProxy) != ""
    requires var first := parse(ProxySetting(httpProxy, upperHttpProxy));
             first.Failure? || !HasPrefix(first.value.scheme, "http")
    requires parse("http://" + ProxySetting(httpProxy, upperHttpProxy)).Success?
    ensures ProxyFromEnvironment(httpProxy, upperHttpProxy, parse)
         == Success(Some(parse("http://" + ProxySetting(httpProxy, upperHttpProxy)).value))
  {
  }

  /**
   * The selection fails exactly when the setting and its `http://` form both
   * fail to parse; the error quotes the setting, recoverably, and carries the
   * first parse's error.
   */
  lemma FailsOnlyWhenBothParsesFail(httpProxy: string, upperHttpProxy: string, parse: Parser)
    ensures var proxy := ProxySetting(httpProxy, upperHttpProxy);
            var r := ProxyFromEnvironment(httpProxy, upperHttpProxy, parse);
            && (r.Failure? <==> proxy != "" && parse(proxy).Failure? && parse("http://" + proxy).Failure?)
            && (r.Failure? ==> r.error == InvalidProxyAddress(proxy, parse(proxy).error)
                               && Unquote(Quote(proxy)) == Some(proxy))
  {
    UnquoteQuote(ProxySetting(httpProxy, upperHttpProxy));
  }

  /**
   * Any proxy selected is one of the two parses of the setting; a non-`http`
   * scheme survives only when the `http://` form does not parse.
   */
  lemma SelectedIsAParse(httpProxy: string, upperHttpProxy: string, parse: Parser)
    ensures var proxy := ProxySetting(httpProxy, upperHttpProxy);
            var r := ProxyFromEnvironment(httpProxy, upperHttpProxy, parse);
            r.Success? && r.value.Some? ==>
              && (parse(proxy) == Success(r.value.value) || parse("http://" + proxy) == Success(r.value.value))
              && (!HasPrefix(r.value.value.scheme, "http") && parse("http://" + proxy) != Success(r.value.value)
                  ==> parse("http://" + proxy).Failure?)
  {
  }
}
