/**
 * The fixed set of destinations the two OAuth callback handlers, the setup page and the
 * error page navigate to, their paths, and the error codes carried to the error page.
 */
module Routes {
  import opened Wrappers
  import opened UrlQuery

  /** A navigation target. `AuthCodeError(code)` is `/auth/auth-code-error?error=<code>`,
      with the code URI-encoded. */
  datatype Target = Dashboard | Setup | CallbackClient | AuthCodeError(code: string) | Login

  const ERROR_PAGE := "/auth/auth-code-error"
  const ERROR_PREFIX := ERROR_PAGE + "?error="

  // Error codes the handlers emit (the provider's own code is passed on verbatim).
  const NO_CODE := "no_code"
  const EXCHANGE_FAILED := "exchange_failed"
  const USER_FETCH_FAILED := "user_fetch_failed"
  const NO_USER := "no_user"
  const UNEXPECTED_ERROR := "unexpected_error"
  const MISSING_TOKENS := "missing_tokens"
  const SESSION_SETUP_FAILED := "session_setup_failed"
  const CLIENT_PROCESSING_FAILED := "client_processing_failed"

  /** The path of a target; the code is written with `encodeURIComponent`. */
  function Path(t: Target): (p: string)
    ensures |p| > 0 && p[0] == '/'
    ensures t.AuthCodeError? <==> ERROR_PREFIX <= p
  {
    match t
    case Dashboard => "/"
    case Setup => "/setup"
    case CallbackClient => "/auth/callback-client"
    case AuthCodeError(code) => ERROR_PREFIX + Encode(code)
    case Login => "/auth/login"
  }

  /** Recognises a path produced by `Path`. */
  function ParsePath(p: string): Option<Target> {
    if p == "/" then Some(Dashboard)
    else if p == "/setup" then Some(Setup)
    else if p == "/auth/callback-client" then Some(CallbackClient)
    else if p == "/auth/login" then Some(Login)
    else if ERROR_PREFIX <= p then Some(AuthCodeError(Decode(p[|ERROR_PREFIX|..])))
    else None
  }

  /** Every target is recovered from its path, so distinct targets have distinct paths. */
  lemma ParsePathInvertsPath(t: Target)
    ensures ParsePath(Path(t)) == Some(t)
  {
    if t.AuthCodeError? {
      var p := Path(t);
      assert |p| >= |ERROR_PREFIX| > |"/auth/callback-client"|;
      assert p[|ERROR_PREFIX|..] == Encode(t.code);
      DecodeEncode(t.code);
    }
  }

  lemma PathInjective(t: Target, u: Target)
    ensures Path(t) == Path(u) ==> t == u
  {
    ParsePathInvertsPath(t);
    ParsePathInvertsPath(u);
  }

  /** A full redirect location: the request origin followed by the target's path. */
  function Location(origin: string, t: Target): (url: string)
    ensures origin <= url && url[|origin|..] == Path(t)
  {
    origin + Path(t)
  }

  /** A code of lower-case letters and underscores needs no escaping. */
  lemma SnakeCaseUnescaped(code: string)
    requires forall i :: 0 <= i < |code| ==> 'a' <= code[i] <= 'z' || code[i] == '_'
    ensures Encode(code) == code
  {
    EncodePlain(code);
  }

  /** The codes the server handler writes need no escaping, so their paths are the literal
      strings it redirects to. */
  lemma ServerCodesUnescaped(code: string)
    requires code in {EXCHANGE_FAILED, USER_FETCH_FAILED, NO_USER, UNEXPECTED_ERROR}
    ensures Path(AuthCodeError(code)) == ERROR_PREFIX + code
  {
    if code == EXCHANGE_FAILED { SnakeCaseUnescaped(EXCHANGE_FAILED); }
    else if code == USER_FETCH_FAILED { SnakeCaseUnescaped(USER_FETCH_FAILED); }
    else if code == NO_USER { SnakeCaseUnescaped(NO_USER); }
    else { SnakeCaseUnescaped(UNEXPECTED_ERROR); }
  }

  /** The same for the codes the client handler pushes. */
  lemma ClientCodesUnescaped(code: string)
    requires code in {MISSING_TOKENS, SESSION_SETUP_FAILED, CLIENT_PROCESSING_FAILED}
    ensures Path(AuthCodeError(code)) == ERROR_PREFIX + code
  {
    if code == MISSING_TOKENS { SnakeCaseUnescaped(MISSING_TOKENS); }
    else if code == SESSION_SETUP_FAILED { SnakeCaseUnescaped(SESSION_SETUP_FAILED); }
    else { SnakeCaseUnescaped(CLIENT_PROCESSING_FAILED); }
  }

  /** The prefix holds no fragment mark, and its one `?` is the one before `error=`. */
  lemma PrefixShape()
    ensures '#' !in ERROR_PAGE && '?' !in ERROR_PAGE && '#' !in ERROR_PREFIX
  {
  }

  lemma ErrorPrefixSplit(rest: string)
    ensures ERROR_PREFIX + rest == ERROR_PAGE + ['?'] + ("error=" + rest)
    ensures '#' !in rest ==> '#' !in "error=" + rest
  {
  }

  /** On an error path without a fragment, the page reads the pairs after the `?`. */
  lemma ErrorPathQuery(rest: string)
    requires '#' !in rest
    ensures QueryGet(ERROR_PREFIX + rest, "error") == FirstValue(Split("error=" + rest, '&'), "error")
  {
    ErrorPrefixSplit(rest);
    PrefixShape();
    QueryAfterMark(ERROR_PAGE, "error=" + rest, "error");
  }

  /** A first pair `error=<v>` gives the decoded `v`. */
  lemma FirstErrorPair(v: string, more: seq<string>)
    ensures FirstValue(["error=" + v] + more, "error") == Some(Decode(v))
  {
    var pair := "error=" + v;
    assert pair == "error" + ['='] + v;
    IndexOfFirst("error", '=', v);
    assert pair[..5] == "error" && pair[6..] == v;
    DecodePlain("error");
  }

  /** A lone pair `error=<v>` gives the decoded `v`. */
  lemma OnlyErrorPair(v: string)
    requires '&' !in v
    ensures FirstValue(Split("error=" + v, '&'), "error") == Some(Decode(v))
  {
    assert '&' !in "error=" + v;
    SplitAbsent("error=" + v, '&');
    assert [("error=" + v)] == ["error=" + v] + [];
    FirstErrorPair(v, []);
  }

  /** The error page's `searchParams.get('error')` reads back exactly the code of the path. */
  lemma ErrorPageReadsCode(code: string)
    ensures QueryGet(Path(AuthCodeError(code)), "error") == Some(code)
  {
    EncodeAvoids(code);
    ErrorPathQuery(Encode(code));
    OnlyErrorPair(Encode(code));
    DecodeEncode(code);
  }

  /** The error path as `route.ts` writes it: the provider's code interpolated unescaped. */
  function WrittenErrorPath(code: string): (p: string)
    ensures ERROR_PREFIX <= p && p[|ERROR_PREFIX|..] == code
  {
    ERROR_PREFIX + code
  }

  /** On that path, a code holding `&`, `#` or `+` does not come back as it was sent: the
      query splits at `&`, so the page reads only what precedes it, ... */
  lemma WrittenAmpersandSplits(a: string, b: string)
    requires '&' !in a && '#' !in a && '#' !in b && '+' !in a && '%' !in a
    ensures QueryGet(WrittenErrorPath(a + "&" + b), "error") == Some(a)
  {
    var rest := a + "&" + b;
    assert '#' !in rest;
    ErrorPathQuery(rest);
    assert "error=" + rest == ("error=" + a) + ['&'] + b;
    assert '&' !in "error=" + a;
    SplitFirst("error=" + a, '&', b);
    FirstErrorPair(a, Split(b, '&'));
    DecodePlain(a);
  }

  /** ... everything from `#` on is taken as the fragment, ... */
  lemma WrittenHashCuts(a: string, b: string)
    requires '&' !in a && '#' !in a && '+' !in a && '%' !in a
    ensures QueryGet(WrittenErrorPath(a + "#" + b), "error") == Some(a)
  {
    PrefixShape();
    var page := ERROR_PREFIX + a;
    assert '#' !in page;
    assert WrittenErrorPath(a + "#" + b) == page + ['#'] + b;
    FragmentIgnored(page, b, "error");
    ErrorPathQuery(a);
    OnlyErrorPair(a);
    DecodePlain(a);
  }

  /** ... and `+` is read as a space. */
  lemma WrittenPlusIsSpace(a: string, b: string)
    requires '&' !in a && '#' !in a && '+' !in a && '%' !in a
    requires '&' !in b && '#' !in b && '+' !in b && '%' !in b
    ensures QueryGet(WrittenErrorPath(a + "+" + b), "error") == Some(a + " " + b)
  {
    var rest := a + "+" + b;
    assert '#' !in rest && '&' !in rest;
    ErrorPathQuery(rest);
    OnlyErrorPair(rest);
    assert rest == a + ("+" + b);
    DecodePlainPrefix(a, "+" + b);
    assert ("+" + b)[0] == '+' && ("+" + b)[1..] == b;
    assert Decode("+" + b) == " " + Decode(b);
    DecodePlain(b);
    assert a + (" " + b) == a + " " + b;
  }
}
