/**
 * The error normaliser of the client: `FormatError`, the `AuthError`
 * classification `Is2FAError`, and the not-found hint `warnExistenceOfRepo`
 * that the two pull-request creators join to the formatted error.
 */
module Errors {
  import opened Results
  import opened Strings
  import opened Octokit

  // ---------------------------------------------------------------------------
  // FormatError
  // ---------------------------------------------------------------------------

  /** The reason phrase of a status line: what follows its first space, trimmed; empty when it has no space. */
  function Reason(status: string): string {
    match Cut(status, " ")
    case None => ""
    case Some(parts) => TrimSpace(parts.1)
  }

  /** The first line of a formatted response error. */
  function Headline(action: string, reason: string, statusCode: int): string {
    "Error " + action + ": " + reason + " (HTTP " + Decimal(statusCode) + ")"
  }

  /** The line every formatted AuthError consists of. */
  function UnauthorizedLine(action: string): string {
    "Error " + action + ": Unauthorized (HTTP 401)"
  }

  /** The lines shown under the headline: for a 422, the message if non-empty, then each field error. */
  function ValidationMessages(e: Error): seq<string>
    requires e.ResponseError?
  {
    if e.statusCode == 422 then (if e.message != "" then [e.message] else []) + e.fieldErrors
    else []
  }

  /** `head`, followed by one line per element of `lines` (nothing when there are none). */
  function WithLines(head: string, lines: seq<string>): string {
    if |lines| > 0 then head + "\n" + Join(lines, "\n") else head
  }

  /** The error FormatError returns for `err`. */
  function Formatted(action: string, err: Error): Error {
    match err
    case ResponseError(code, status, _, _, _, _) =>
      Plain(WithLines(Headline(action, Reason(status), code), ValidationMessages(err)))
    case AuthError(_) => Plain(UnauthorizedLine(action))
    case Plain(_) => err
  }

  /** The validation messages of a response error, gathered as FormatError appends them. */
  method CollectMessages(e: Error) returns (messages: seq<string>)
    requires e.ResponseError?
    ensures messages == ValidationMessages(e)
  {
    messages := [];
    if e.statusCode == 422 {
      if e.message != "" {
        messages := messages + [e.message];
      }
      for i := 0 to |e.fieldErrors|
        invariant messages == (if e.message != "" then [e.message] else []) + e.fieldErrors[..i]
      {
        assert e.fieldErrors[..i + 1] == e.fieldErrors[..i] + [e.fieldErrors[i]];
        messages := messages + [e.fieldErrors[i]];
      }
      assert e.fieldErrors[..|e.fieldErrors|] == e.fieldErrors;
    }
  }

  /**
   * FormatError: a response error becomes its headline plus, for a 422, its
   * validation messages; an AuthError becomes the 401 line; anything else is
   * returned unchanged.
   */
  method FormatError(action: string, err: Error) returns (ee: Error)
    ensures ee == Formatted(action, err)
  {
    match err {
      case ResponseError(statusCode, status, _, _, _, _) =>
        var reason := "";
        var parts := Cut(status, " ");
        if parts.Some? {
          reason := TrimSpace(parts.value.1);
        }
        var errStr := Headline(action, reason, statusCode);
        var messages := CollectMessages(err);
        if |messages| > 0 {
          errStr := errStr + "\n" + Join(messages, "\n");
        }
        ee := Plain(errStr);
      case AuthError(_) =>
        ee := Plain(UnauthorizedLine(action));
      case Plain(_) =>
        ee := err;
    }
  }

  /** A status line `<code> <phrase>` whose code has no space yields the trimmed phrase. */
  lemma ReasonAfterFirstSpace(code: string, phrase: string)
    requires ' ' !in code
    ensures Reason(code + " " + phrase) == TrimSpace(phrase)
  {
    var s := code + " " + phrase;
    assert s[..|code|] == code;
    NoneBeforeRune(s, ' ', |code|);
    CutUnique(s, " ", code, phrase);
  }

  /** A status line without a space yields an empty reason. */
  lemma ReasonWithoutSpace(status: string)
    requires ' ' !in status
    ensures Reason(status) == ""
  {
    CutAbsent(status, ' ');
  }

  /**
   * The formatted text of a response error starts with its headline; more
   * follows, after a newline, exactly when the status is 422 and there is a
   * message or a field error.
   */
  lemma FormattedHeadline(action: string, e: Error)
    requires e.ResponseError?
    ensures var t := ErrorText(Formatted(action, e));
            var h := Headline(action, Reason(e.status), e.statusCode);
            && HasPrefix(t, h)
            && (|t| > |h| <==> e.statusCode == 422 && (e.message != "" || |e.fieldErrors| > 0))
            && (|t| > |h| ==> t[|h|] == '\n')
  {
  }

  /** A headline has a newline only where its action or reason has one. */
  lemma HeadlineNoNewline(action: string, reason: string, statusCode: int)
    requires '\n' !in action && '\n' !in reason
    ensures '\n' !in Headline(action, reason, statusCode)
  {
    var d := Decimal(statusCode);
    assert '\n' !in d by {
      forall i | 0 <= i < |d| ensures d[i] != '\n' { }
    }
  }

  lemma JoinCons(head: string, rest: seq<string>, sep: string)
    requires |rest| > 0
    ensures Join([head] + rest, sep) == head + sep + Join(rest, sep)
  {
    assert ([head] + rest)[1..] == rest;
  }

  /**
   * Read line by line, a formatted response error is its headline followed by
   * its validation messages, when none of the parts contains a newline: any
   * status but 422 gives the headline alone.
   */
  lemma {:induction false} FormattedLines(action: string, e: Error)
    requires e.ResponseError?
    requires '\n' !in action && '\n' !in Reason(e.status) && '\n' !in e.message
    requires forall i :: 0 <= i < |e.fieldErrors| ==> '\n' !in e.fieldErrors[i]
    ensures Split(ErrorText(Formatted(action, e)), "\n")
         == [Headline(action, Reason(e.status), e.statusCode)] + ValidationMessages(e)
  {
    var h := Headline(action, Reason(e.status), e.statusCode);
    var msgs := ValidationMessages(e);
    HeadlineNoNewline(action, Reason(e.status), e.statusCode);
    var lines := [h] + msgs;
    assert forall i :: 0 <= i < |lines| ==> '\n' !in lines[i];
    if |msgs| > 0 {
      JoinCons(h, msgs, "\n");
    }
    assert ErrorText(Formatted(action, e)) == Join(lines, "\n");
    SplitJoin(lines, '\n');
  }

  /** A status line `<code> <phrase>` with a trimmed phrase yields that phrase as its reason. */
  lemma ReasonOfStatus(status: string, code: string, phrase: string)
    requires status == code + " " + phrase && ' ' !in code
    requires phrase == [] || (!IsSpace(phrase[0]) && !IsSpace(phrase[|phrase| - 1]))
    ensures Reason(status) == phrase
  {
    ReasonAfterFirstSpace(code, phrase);
    TrimSpaceNoop(phrase);
  }

  /** Two lines under a headline. */
  lemma TwoLines(head: string, a: string, b: string)
    ensures WithLines(head, [a, b]) == head + "\n" + a + "\n" + b
  {
    JoinCons(a, [b], "\n");
  }

  /** The 422 example: a validation message and one field error, one per line. */
  lemma ValidationFailedExample(status: string)
    requires status == "422" + " " + "Unprocessable Entity"
    ensures ErrorText(Formatted("creating repository",
              ResponseError(422, status, "Validation Failed",
                            ["name already exists"], OtherType("UnprocessableEntity"), "")))
         == "Error " + "creating repository" + ": Unprocessable Entity (HTTP 422)" + "\n"
            + "Validation Failed" + "\n"
            + "name already exists"
  {
    var e := ResponseError(422, status, "Validation Failed",
                           ["name already exists"], OtherType("UnprocessableEntity"), "");
    ReasonOfStatus(status, "422", "Unprocessable Entity");
    UnprocessableHeadline("creating repository");
    FormattedTwoLines("creating repository", e, "Unprocessable Entity",
                      "Error " + "creating repository" + ": Unprocessable Entity (HTTP 422)");
  }

  /** A 422 with a message and one field error, given its reason and its headline, reads as three lines. */
  lemma FormattedTwoLines(action: string, e: Error, reason: string, head: string)
    requires e.ResponseError? && e.statusCode == 422 && e.message != "" && |e.fieldErrors| == 1
    requires Reason(e.status) == reason && Headline(action, reason, 422) == head
    ensures ErrorText(Formatted(action, e)) == head + "\n" + e.message + "\n" + e.fieldErrors[0]
  {
    assert ValidationMessages(e) == [e.message, e.fieldErrors[0]];
    TwoLines(head, e.message, e.fieldErrors[0]);
  }

  /** A 422 headline, whatever the action: the reason phrase and the code in the fixed frame. */
  lemma UnprocessableHeadline(action: string)
    ensures Headline(action, "Unprocessable Entity", 422) == "Error " + action + ": Unprocessable Entity (HTTP 422)"
  {
    Decimal422();
    assert ": " + "Unprocessable Entity" == ": Unprocessable Entity";
    assert ": Unprocessable Entity" + " (HTTP " == ": Unprocessable Entity (HTTP ";
    assert ": Unprocessable Entity (HTTP " + "422" + ")" == ": Unprocessable Entity (HTTP 422)";
  }

  /** A 404 headline, whatever the action. */
  lemma NotFoundHeadline(action: string)
    ensures Headline(action, "Not Found", 404) == "Error " + action + ": Not Found (HTTP 404)"
  {
    Decimal404();
    assert ": " + "Not Found" + " (HTTP " == ": Not Found (HTTP ";
    assert ": Not Found (HTTP " + "404" + ")" == ": Not Found (HTTP 404)";
  }

  lemma Decimal404()
    ensures Decimal(404) == "404"
  {
    assert NatDigits(4) == "4";
    assert NatDigits(40) == "40";
  }

  lemma Decimal422()
    ensures Decimal(422) == "422"
  {
    assert NatDigits(4) == "4";
    assert NatDigits(42) == "42";
  }

  // ---------------------------------------------------------------------------
  // AuthError
  // ---------------------------------------------------------------------------

  /** AuthError.Is2FAError: the wrapped cause is a response error asking for a one-time password. */
  predicate Is2FAError(e: Error)
    requires e.AuthError?
    ensures Is2FAError(e) ==> e.cause.ResponseError?
  {
    e.cause.ResponseError? && e.cause.kind == OneTimePasswordRequired
  }

  /**
   * Formatting an AuthError reports 401 whatever its cause, so the one-time
   * password case is told apart only by Is2FAError, which holds for a wrapped
   * one-time-password response and for no other cause.
   */
  lemma TwoFactorOnlyFromPredicate(action: string, cause: Error, other: Error)
    requires cause.ResponseError? && cause.kind == OneTimePasswordRequired
    requires !(other.ResponseError? && other.kind == OneTimePasswordRequired)
    ensures Formatted(action, AuthError(cause)) == Formatted(action, AuthError(other))
         == Plain(UnauthorizedLine(action))
    ensures Is2FAError(AuthError(cause)) && !Is2FAError(AuthError(other))
  {
  }

  /** Formatting passes any other error through, so a normalised error is never labelled twice. */
  lemma FormatIdempotent(action: string, again: string, err: Error)
    ensures Formatted(again, Formatted(action, err)) == Formatted(action, err)
  {
  }

  // ---------------------------------------------------------------------------
  // warnExistenceOfRepo
  // ---------------------------------------------------------------------------

  /**
   * warnExistenceOfRepo: for a 404 response error, a hint naming the project's
   * web URL without its scheme, when what follows the first `://` is non-empty.
   */
  function WarnExistenceOfRepo(webURL: string, ee: Error): (r: Option<Error>)
    ensures r.Some? ==> ee.ResponseError? && ee.statusCode == 404
    ensures r.Some? ==> exists i :: 0 <= i && i + 3 < |webURL| && OccursAt(webURL, "://", i)
                                    && NoneBefore(webURL, "://", i)
                                    && r.value == Plain("Are you sure that " + webURL[i + 3..] + " exists?")
  {
    if ee.ResponseError? && ee.statusCode == 404 then
      var url := match Cut(webURL, "://") case None => "" case Some(parts) => parts.1;
      if url != "" then Some(Plain("Are you sure that " + url + " exists?")) else None
    else None
  }

  /** How the pull-request creators join the hint, if any, to the formatted error. */
  function WithExistenceHint(formatted: Error, hint: Option<Error>): Error {
    match hint
    case None => formatted
    case Some(h) => Plain(ErrorText(formatted) + "\n" + ErrorText(h))
  }

  /** A hint is produced only for a 404 response error. */
  lemma HintOnlyForNotFound(webURL: string, ee: Error)
    requires !(ee.ResponseError? && ee.statusCode == 404)
    ensures WarnExistenceOfRepo(webURL, ee) == None
  {
  }

  /** A web URL without `://`, or ending with its first `://`, yields no hint. */
  lemma NoHintWithoutRemainder(webURL: string, ee: Error)
    requires NoneBefore(webURL, "://", |webURL|) || HasSuffixSep(webURL)
    ensures WarnExistenceOfRepo(webURL, ee) == None
  {
    if NoneBefore(webURL, "://", |webURL|) {
      var c := Cut(webURL, "://");
      if c.Some? {
        assert OccursAt(webURL, "://", |c.value.0|);
        assert false;
      }
    } else {
      var before := webURL[..|webURL| - 3];
      assert webURL == before + "://" + [];
      CutUnique(webURL, "://", before, []);
    }
  }

  /** `s` ends with its first `://`. */
  predicate HasSuffixSep(s: string) {
    |s| >= 3 && s[|s| - 3..] == "://" && NoneBefore(s, "://", |s| - 3)
  }

  /** For a 404, the hint names the web URL with its scheme stripped. */
  lemma HintStripsScheme(scheme: string, rest: string, ee: Error)
    requires ee.ResponseError? && ee.statusCode == 404
    requires rest != "" && NoneBefore(scheme + "://" + rest, "://", |scheme|)
    ensures WarnExistenceOfRepo(scheme + "://" + rest, ee)
         == Some(Plain("Are you sure that " + rest + " exists?"))
  {
    CutUnique(scheme + "://" + rest, "://", scheme, rest);
  }

  /**
   * A pull-request creation rejected with a 404 reads, line by line, as the
   * formatted 404 headline followed by the existence question, when the action,
   * the reason and the URL remainder contain no newline.
   */
  lemma {:induction false} NotFoundPullRequestLines(action: string, ee: Error, scheme: string, rest: string)
    requires ee.ResponseError? && ee.statusCode == 404
    requires rest != "" && NoneBefore(scheme + "://" + rest, "://", |scheme|)
    requires '\n' !in action && '\n' !in Reason(ee.status) && '\n' !in rest
    ensures Split(ErrorText(WithExistenceHint(Formatted(action, ee),
                                              WarnExistenceOfRepo(scheme + "://" + rest, ee))), "\n")
         == [Headline(action, Reason(ee.status), 404), "Are you sure that " + rest + " exists?"]
  {
    var h := Headline(action, Reason(ee.status), 404);
    var q := "Are you sure that " + rest + " exists?";
    FormattedWithHint(action, ee, Reason(ee.status), h, scheme, rest);
    HeadlineNoNewline(action, Reason(ee.status), 404);
    assert '\n' !in q;
    JoinCons(h, [q], "\n");
    SplitJoin([h, q], '\n');
  }

  /** The not-found example: the hint drops `https://` and follows the formatted 404. */
  lemma NotFoundExample(status: string, scheme: string, rest: string)
    requires status == "404" + " " + "Not Found"
    requires scheme == "https" && rest == "github.com/octo/hello"
    ensures (var e := ResponseError(404, status, "", [], OtherType("NotFound"), "");
             ErrorText(WithExistenceHint(Formatted("creating pull request", e),
                                         WarnExistenceOfRepo(scheme + "://" + rest, e)))
             == "Error " + "creating pull request" + ": Not Found (HTTP 404)" + "\n"
                + "Are you sure that github.com/octo/hello exists?")
  {
    NotFoundExampleParts("creating pull request", status, "Not Found", scheme, rest);
    NotFoundHeadline("creating pull request");
    HintText();
  }

  /** A 404 whose status carries a trimmed phrase and whose URL has a `:`-free scheme. */
  lemma NotFoundExampleParts(action: string, status: string, phrase: string, scheme: string, rest: string)
    requires status == "404" + " " + phrase
    requires phrase == [] || (!IsSpace(phrase[0]) && !IsSpace(phrase[|phrase| - 1]))
    requires ':' !in scheme && rest != ""
    ensures (var e := ResponseError(404, status, "", [], OtherType("NotFound"), "");
             ErrorText(WithExistenceHint(Formatted(action, e),
                                         WarnExistenceOfRepo(scheme + "://" + rest, e)))
             == Headline(action, phrase, 404) + "\n"
                + ("Are you sure that " + rest + " exists?"))
  {
    var e := ResponseError(404, status, "", [], OtherType("NotFound"), "");
    ReasonOfStatus(status, "404", phrase);
    SchemeEndsAt(scheme, rest);
    FormattedWithHint(action, e, phrase, Headline(action, phrase, 404), scheme, rest);
  }

  /** A 404, given its reason and its headline, followed by the hint about the web URL. */
  lemma FormattedWithHint(action: string, e: Error, reason: string, head: string, scheme: string, rest: string)
    requires e.ResponseError? && e.statusCode == 404
    requires Reason(e.status) == reason && Headline(action, reason, 404) == head
    requires rest != "" && NoneBefore(scheme + "://" + rest, "://", |scheme|)
    ensures ErrorText(WithExistenceHint(Formatted(action, e), WarnExistenceOfRepo(scheme + "://" + rest, e)))
         == head + "\n" + ("Are you sure that " + rest + " exists?")
  {
    HintStripsScheme(scheme, rest, e);
  }

  /** A scheme without `:` ends at the first `://`. */
  lemma SchemeEndsAt(scheme: string, rest: string)
    requires ':' !in scheme
    ensures NoneBefore(scheme + "://" + rest, "://", |scheme|)
  {
    var s := scheme + "://" + rest;
    forall j: nat | j < |scheme| ensures !OccursAt(s, "://", j) {
      assert s[j] == scheme[j];
    }
  }

  lemma HintText()
    ensures "Are you sure that " + "github.com/octo/hello" + " exists?"
         == "Are you sure that github.com/octo/hello exists?"
  {
    assert "Are you sure that " + "github.com/octo/hello" == "Are you sure that github.com/octo/hello";
  }

  // ---------------------------------------------------------------------------
  // FormatError as written: the message is used as a format string
  // ---------------------------------------------------------------------------

  predicate IsAsciiLetter(c: char) {
    'a' <= c <= 'z' || 'A' <= c <= 'Z'
  }

  /** Every `%` directive is `%%`, a `%` directly followed by an ASCII letter, or a `%` ending the text. */
  predicate SimpleDirectives(s: string)
    decreases |s|
  {
    if s == [] then true
    else if s[0] != '%' then SimpleDirectives(s[1..])
    else if |s| == 1 then true
    else (s[1] == '%' || IsAsciiLetter(s[1])) && SimpleDirectives(s[2..])
  }

  /**
   * What `fmt.Errorf(s)` (no operands) makes of `s`, for texts whose directives
   * are simple: `%%` is a percent sign, a verb letter with no operand is
   * reported as `%!<verb>(MISSING)`, and a trailing `%` as `%!(NOVERB)`.
   */
  function NoOperandFormat(s: string): string
    requires SimpleDirectives(s)
    decreases |s|
  {
    if s == [] then []
    else if s[0] != '%' then [s[0]] + NoOperandFormat(s[1..])
    else if |s| == 1 then "%!(NOVERB)"
    else if s[1] == '%' then "%" + NoOperandFormat(s[2..])
    else "%!" + [s[1]] + "(MISSING)" + NoOperandFormat(s[2..])
  }

  /** Text without `%` comes out of fmt.Errorf unchanged. */
  lemma {:induction false} NoOperandFormatPlain(s: string)
    requires '%' !in s
    ensures SimpleDirectives(s) && NoOperandFormat(s) == s
  {
    if s != [] {
      assert s[0] in s;
      assert forall c :: c in s[1..] ==> c in s;
      NoOperandFormatPlain(s[1..]);
      assert [s[0]] + s[1..] == s;
    }
  }

  /** Text without `%` followed by one trailing `%`. */
  lemma {:induction false} NoOperandFormatTrailingPercent(p: string)
    requires '%' !in p
    ensures SimpleDirectives(p + "%") && NoOperandFormat(p + "%") == p + "%!(NOVERB)"
  {
    if p != [] {
      assert (p + "%")[1..] == p[1..] + "%";
      assert forall c :: c in p[1..] ==> c in p;
      NoOperandFormatTrailingPercent(p[1..]);
      assert [p[0]] + p[1..] == p;
    }
  }

  /** FormatError as written: the built message goes through fmt.Errorf as a format string. */
  function FormatErrorAsWritten(action: string, err: Error): (r: Error)
    requires err.Plain? || SimpleDirectives(ErrorText(Formatted(action, err)))
    ensures r.Plain? && (err.Plain? ==> r == err)
    ensures err.AuthError? ==> r == Plain(NoOperandFormat(UnauthorizedLine(action)))
  {
    match err
    case Plain(_) => err
    case _ => Plain(NoOperandFormat(ErrorText(Formatted(action, err))))
  }

  /** As written, FormatError agrees with the literal message whenever the message has no `%`. */
  lemma AsWrittenAgreesWithoutPercent(action: string, err: Error)
    requires '%' !in ErrorText(Formatted(action, err))
    ensures (err.Plain? || SimpleDirectives(ErrorText(Formatted(action, err))))
         && FormatErrorAsWritten(action, err) == Formatted(action, err)
  {
    NoOperandFormatPlain(ErrorText(Formatted(action, err)));
  }

  /** A validation message ending in `%` is altered by FormatError as written. */
  lemma PercentInMessageIsMangled(status: string)
    requires status == "422" + " " + "Unprocessable Entity"
    ensures (var e := ResponseError(422, status, "Quota at 100%", [], OtherType("UnprocessableEntity"), "");
             && SimpleDirectives(ErrorText(Formatted("creating issue", e)))
             && ErrorText(Formatted("creating issue", e))
                == "Error " + "creating issue" + ": Unprocessable Entity (HTTP 422)" + "\n" + "Quota at 100%"
             && ErrorText(FormatErrorAsWritten("creating issue", e))
                == "Error " + "creating issue" + ": Unprocessable Entity (HTTP 422)" + "\n"
                   + "Quota at 100%!(NOVERB)")
  {
    var e := ResponseError(422, status, "Quota at 100%", [], OtherType("UnprocessableEntity"), "");
    QuotaLiterals();
    ReasonOfStatus(status, "422", "Unprocessable Entity");
    TrailingPercentMangled("creating issue", e, "Unprocessable Entity", "Quota at 100");
    UnprocessableHeadline("creating issue");
  }

  /**
   * A 422 whose message ends in its only `%`: formatted literally the text
   * keeps the `%`; as written the `%` becomes `%!(NOVERB)`.
   */
  lemma TrailingPercentMangled(action: string, e: Error, reason: string, msg: string)
    requires e.ResponseError? && e.statusCode == 422 && e.message == msg + "%" && e.fieldErrors == []
    requires Reason(e.status) == reason
    requires '%' !in action && '%' !in reason && '%' !in msg
    ensures SimpleDirectives(ErrorText(Formatted(action, e)))
    ensures ErrorText(Formatted(action, e)) == Headline(action, reason, 422) + "\n" + (msg + "%")
    ensures ErrorText(FormatErrorAsWritten(action, e)) == Headline(action, reason, 422) + "\n" + (msg + "%!(NOVERB)")
  {
    var h := Headline(action, reason, 422);
    var p := h + "\n" + msg;
    assert ErrorText(Formatted(action, e)) == p + "%" && '%' !in p by {
      FormattedOneLine(action, e, reason, h);
      HeadlinePercentFree(action, reason, 422);
      assert h + "\n" + (msg + "%") == p + "%";
    }
    AsWrittenTrailingPercent(action, e, p);
    assert p + "%" == h + "\n" + (msg + "%");
    assert p + "%!(NOVERB)" == h + "\n" + (msg + "%!(NOVERB)");
  }

  /** A 422 with a message and no field error, given its reason and its headline, reads as two lines. */
  lemma FormattedOneLine(action: string, e: Error, reason: string, head: string)
    requires e.ResponseError? && e.statusCode == 422 && e.message != "" && e.fieldErrors == []
    requires Reason(e.status) == reason && Headline(action, reason, 422) == head
    ensures ErrorText(Formatted(action, e)) == head + "\n" + e.message
  {
    assert ValidationMessages(e) == [e.message];
  }

  /** A formatted message whose only `%` ends it gets `%!(NOVERB)` from FormatError as written. */
  lemma AsWrittenTrailingPercent(action: string, err: Error, p: string)
    requires !err.Plain? && '%' !in p && ErrorText(Formatted(action, err)) == p + "%"
    ensures SimpleDirectives(ErrorText(Formatted(action, err)))
    ensures ErrorText(FormatErrorAsWritten(action, err)) == p + "%!(NOVERB)"
  {
    NoOperandFormatTrailingPercent(p);
  }

  /** A headline has a `%` only where its action or reason has one. */
  lemma HeadlinePercentFree(action: string, reason: string, statusCode: int)
    requires '%' !in action && '%' !in reason
    ensures '%' !in Headline(action, reason, statusCode)
  {
    var d := Decimal(statusCode);
    assert '%' !in d by {
      forall i | 0 <= i < |d| ensures d[i] != '%' { }
    }
  }

  /** The literals of the example: no `%` in the action, the reason or the message stem. */
  lemma QuotaLiterals()
    ensures '%' !in "creating issue" && '%' !in "Unprocessable Entity" && '%' !in "Quota at 100"
    ensures "Quota at 100" + "%" == "Quota at 100%"
    ensures "Quota at 100" + "%!(NOVERB)" == "Quota at 100%!(NOVERB)"
    ensures "Unprocessable Entity"[0] == 'U' && "Unprocessable Entity"[19] == 'y'
  {
  }
}
