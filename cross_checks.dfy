/**
 * Properties that relate several parts of the flow: the two callback handlers, the error
 * page's message table, the setup page's row and the auth state.
 */
module CrossChecks {
  import opened Wrappers
  import opened Entities
  import opened Routes
  import ServerCallback
  import ClientCallback
  import AuthCodeError
  import SetupPage
  import AuthContext
  import UrlQuery

  /** The server's environment once the code was exchanged and the user fetched. */
  function ServerEnvFor(user: User, lookup: Lookup): ServerCallback.Env {
    ServerCallback.Env(true, ServerCallback.ExchangeOk, ServerCallback.UserFetched(Some(user)), lookup)
  }

  /** The client's environment once the session was set with that user. */
  function ClientEnvFor(user: User, lookup: Lookup): ClientCallback.Env {
    ClientCallback.Env(ClientCallback.SessionSet(Some(user)), lookup)
  }

  predicate HasTokens(tokens: ClientCallback.Tokens) {
    Present(tokens.accessToken) && Present(tokens.refreshToken)
  }

  /** Both handlers send a signed-in user to `/setup`, and to `/`, in the same profile
      situations, as long as a lookup error comes without data (as the client library does).
      They differ only in the code of the error page when the lookup throws. */
  lemma HandlersAgreeOnSetup(query: map<string, string>, tokens: ClientCallback.Tokens, user: User, lookup: Lookup)
    requires ServerCallback.Attempted(query) && HasTokens(tokens) && lookup.WellFormed()
    ensures var s := ServerCallback.Decide(query, ServerEnvFor(user, lookup)).target;
            var c := ClientCallback.Decide(tokens, ClientEnvFor(user, lookup)).target;
            && (s == Setup <==> c == Setup)
            && (s == Dashboard <==> c == Dashboard)
            && (lookup.LookupThrew? <==> s.AuthCodeError? && c.AuthCodeError?)
  {
  }

  /** Without that library guarantee the handlers would disagree: a complete row returned
      together with an error sends the server to `/setup` and the client to `/`. */
  lemma HandlersDisagreeOnErrorWithData(query: map<string, string>, tokens: ClientCallback.Tokens, user: User)
    requires ServerCallback.Attempted(query) && HasTokens(tokens)
    ensures var lookup := LookupReturned(QueryResult(Some(map[STARTING_BALANCE_SET := Bool(true)]), Some(PgError("42501", "denied"))));
            && ServerCallback.Decide(query, ServerEnvFor(user, lookup)).target == Setup
            && ClientCallback.Decide(tokens, ClientEnvFor(user, lookup)).target == Dashboard
  {
  }

  /** Every error code the server handler produces on its own has a specific message, and
      `no_code` is never among them. */
  lemma ServerCodesHaveMessages(query: map<string, string>, env: ServerCallback.Env)
    requires !Present(ServerCallback.Param(query, "error"))
    requires ServerCallback.Decide(query, env).target.AuthCodeError?
    ensures var code := ServerCallback.Decide(query, env).target.code;
            && code in {EXCHANGE_FAILED, USER_FETCH_FAILED, NO_USER, UNEXPECTED_ERROR}
            && code in AuthCodeError.KNOWN_CODES
            && AuthCodeError.ErrorMessage(Some(code)) != AuthCodeError.GENERIC
  {
    var code := ServerCallback.Decide(query, env).target.code;
    AuthCodeError.GenericExactlyForUnknown(Some(code));
  }

  /** The same for every code of the client handler; it never receives a provider code. */
  lemma ClientCodesHaveMessages(tokens: ClientCallback.Tokens, env: ClientCallback.Env)
    requires ClientCallback.Decide(tokens, env).target.AuthCodeError?
    ensures var code := ClientCallback.Decide(tokens, env).target.code;
            && code in {MISSING_TOKENS, SESSION_SETUP_FAILED, CLIENT_PROCESSING_FAILED}
            && code in AuthCodeError.KNOWN_CODES
            && AuthCodeError.ErrorMessage(Some(code)) != AuthCodeError.GENERIC
  {
    var code := ClientCallback.Decide(tokens, env).target.code;
    AuthCodeError.GenericExactlyForUnknown(Some(code));
  }

  /** On the corrected path (`Routes.Path`), a provider error code reaches the page verbatim:
      the error page's `searchParams.get('error')` on the redirect path is the provider's
      code, the code line shows it, and an unknown code gets the generic message. */
  lemma ProviderCodeShownVerbatim(query: map<string, string>, env: ServerCallback.Env)
    requires Present(ServerCallback.Param(query, "error"))
    ensures var t := ServerCallback.Decide(query, env).target;
            && t == AuthCodeError(query["error"])
            && UrlQuery.QueryGet(Path(t), "error") == Some(query["error"])
            && (query["error"] !in AuthCodeError.KNOWN_CODES ==> AuthCodeError.ErrorMessage(Some(query["error"])) == AuthCodeError.GENERIC)
            && AuthCodeError.ShowsErrorCode(Some(query["error"]))
  {
    AuthCodeError.GenericExactlyForUnknown(Some(query["error"]));
    ErrorPageReadsCode(query["error"]);
  }

  /** Once the setup row is stored, both handlers send the user to the dashboard. */
  lemma SetupRowLeadsHome(query: map<string, string>, tokens: ClientCallback.Tokens, user: User, balance: real, now: string)
    requires ServerCallback.Attempted(query) && HasTokens(tokens)
    ensures var lookup := LookupReturned(QueryResult(Some(SetupPage.SetupRecord(user, balance, now)), None));
            && ServerCallback.Decide(query, ServerEnvFor(user, lookup)).target == Dashboard
            && ClientCallback.Decide(tokens, ClientEnvFor(user, lookup)).target == Dashboard
  {
  }

  /** After `SIGNED_OUT` the setup page's guard sends the visitor to sign in. */
  lemma SignedOutSetupRedirects(s: AuthContext.AuthState, session: Option<Session>)
    ensures var t := AuthContext.AfterEvent(s, AuthContext.SIGNED_OUT, session);
            SetupPage.Guard(t.loading, t.user) == SetupPage.RedirectToLogin
  {
  }
}
