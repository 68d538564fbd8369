/**
 * The client-side fallback handler (`/auth/callback-client`). Tokens arrive in the URI
 * fragment, as in section 4.2.2 of RFC 6749 (`refresh_token` there is the provider's
 * extension). The navigation decision is a pure chain of early returns (`Decide`); the page
 * itself is a small object whose `status` text is updated step by step and whose router
 * records each navigation (`Page.HandleAuthCallback`).
 */
module ClientCallback {
  import opened Wrappers
  import opened Entities
  import opened Routes

  const PROCESSING := "Processing authentication..."
  const SETTING_UP := "Setting up session..."
  const CHECKING := "Checking profile setup..."

  /** `window.location.hash.substring(1)`: the fragment without its first character. */
  function FragmentQuery(hash: string): (q: string)
    ensures |hash| > 0 ==> hash == [hash[0]] + q
    ensures |hash| == 0 ==> q == ""
  {
    if |hash| == 0 then "" else hash[1..]
  }

  /** The three entries the handler reads from the parsed fragment. */
  datatype Tokens = Tokens(accessToken: Option<string>, refreshToken: Option<string>, expiresAt: Option<string>)

  function ReadTokens(params: map<string, string>): (t: Tokens)
    ensures t.accessToken.Some? <==> "access_token" in params
    ensures t.refreshToken.Some? <==> "refresh_token" in params
    ensures t.expiresAt.Some? <==> "expires_at" in params
    ensures t.accessToken.Some? ==> t.accessToken.value == params["access_token"]
    ensures t.refreshToken.Some? ==> t.refreshToken.value == params["refresh_token"]
  {
    Tokens(
      if "access_token" in params then Some(params["access_token"]) else None,
      if "refresh_token" in params then Some(params["refresh_token"]) else None,
      if "expires_at" in params then Some(params["expires_at"]) else None)
  }

  /** `setSession(...)`: the session's user (possibly absent), an error, or a throw. */
  datatype SetSessionOutcome = SessionSet(user: Option<User>) | SessionError | SessionThrew

  datatype Env = Env(setSession: SetSessionOutcome, lookup: Lookup)

  /** The external calls the handler makes; `expires_at` is not passed to `setSession`. */
  datatype Call = SetSession(accessToken: string, refreshToken: string) | SelectProfile(userId: string)

  /** The single navigation, the calls made and the successive `setStatus` texts. */
  datatype Outcome = Outcome(target: Target, calls: seq<Call>, statuses: seq<string>)

  /** The profile branch: a lookup error other than `PGRST116` is only logged; the decision
      is taken from `profile?.starting_balance_set` alone. */
  function ProfileBranch(q: QueryResult): (t: Target)
    ensures t == Dashboard <==> SetupComplete(q.data)
    ensures t == Dashboard || t == Setup
  {
    if !SetupComplete(q.data) then Setup else Dashboard
  }

  function Decide(tokens: Tokens, env: Env): (r: Outcome)
    // Missing (or empty) tokens: `missing_tokens`, and `setSession` is never called.
    ensures !Present(tokens.accessToken) || !Present(tokens.refreshToken) ==>
      r == Outcome(AuthCodeError(MISSING_TOKENS), [], [])
    // Otherwise `setSession` is called first, with exactly the two tokens.
    ensures Present(tokens.accessToken) && Present(tokens.refreshToken) ==>
      |r.calls| >= 1 && r.calls[0] == SetSession(tokens.accessToken.value, tokens.refreshToken.value)
    ensures env.setSession.SessionError? && Present(tokens.accessToken) && Present(tokens.refreshToken) ==>
      r.target == AuthCodeError(SESSION_SETUP_FAILED)
    // Statuses only ever progress Setting up, then Checking.
    ensures r.statuses <= [SETTING_UP, CHECKING]
    // The profile is looked up (and Checking shown) exactly when the session has a user.
    ensures |r.statuses| == 2 <==> |r.calls| == 2
    ensures |r.calls| == 2 ==> env.setSession.SessionSet? && env.setSession.user.Some?
                               && r.calls[1] == SelectProfile(env.setSession.user.value.id)
  {
    if !Present(tokens.accessToken) || !Present(tokens.refreshToken) then
      Outcome(AuthCodeError(MISSING_TOKENS), [], [])
    else
      var calls := [SetSession(tokens.accessToken.value, tokens.refreshToken.value)];
      match env.setSession
      case SessionThrew => Outcome(AuthCodeError(CLIENT_PROCESSING_FAILED), calls, [SETTING_UP])
      case SessionError => Outcome(AuthCodeError(SESSION_SETUP_FAILED), calls, [SETTING_UP])
      case SessionSet(None) => Outcome(Dashboard, calls, [SETTING_UP])
      case SessionSet(Some(user)) =>
        var calls' := calls + [SelectProfile(user.id)];
        match env.lookup
        case LookupThrew => Outcome(AuthCodeError(CLIENT_PROCESSING_FAILED), calls', [SETTING_UP, CHECKING])
        case LookupReturned(q) => Outcome(ProfileBranch(q), calls', [SETTING_UP, CHECKING])
  }

  /** The handler's whole input: the raw fragment, parsed by `URLSearchParams` (an oracle). */
  function HandleFragment(hash: string, parseQuery: string -> map<string, string>, env: Env): (r: Outcome)
    // A fragment without either token key gives `missing_tokens`, and nothing is called.
    ensures var params := parseQuery(FragmentQuery(hash));
            "access_token" !in params || "refresh_token" !in params ==>
              r.target == AuthCodeError(MISSING_TOKENS) && r.calls == []
  {
    Decide(ReadTokens(parseQuery(FragmentQuery(hash))), env)
  }

  /** The dashboard exactly when both tokens are there, the session is set, and either it has
      no user or the returned profile's flag is truthy. */
  lemma DashboardExactly(tokens: Tokens, env: Env)
    ensures Decide(tokens, env).target == Dashboard <==>
      Present(tokens.accessToken) && Present(tokens.refreshToken) && env.setSession.SessionSet?
      && (env.setSession.user.None? || (env.lookup.LookupReturned? && SetupComplete(env.lookup.result.data)))
  {
  }

  /** `expires_at` is read but has no influence on anything the handler does. */
  lemma ExpiresAtIgnored(tokens: Tokens, e: Option<string>, env: Env)
    ensures Decide(tokens, env) == Decide(tokens.(expiresAt := e), env)
  {
  }

  /** With no user on the new session there is no lookup and the navigation is `/`. */
  lemma NoUserGoesHome(tokens: Tokens, env: Env)
    requires Present(tokens.accessToken) && Present(tokens.refreshToken)
    requires env.setSession == SessionSet(None)
    ensures Decide(tokens, env) == Outcome(Dashboard, [SetSession(tokens.accessToken.value, tokens.refreshToken.value)], [SETTING_UP])
  {
  }

  /** A profile error, whatever its code, leaves `profile` null, and so leads to setup. */
  lemma ProfileErrorMeansSetup(tokens: Tokens, user: User, e: PgError)
    requires Present(tokens.accessToken) && Present(tokens.refreshToken)
    ensures Decide(tokens, Env(SessionSet(Some(user)), LookupReturned(QueryResult(None, Some(e))))).target == Setup
  {
  }

  /** A throw from either awaited call becomes `client_processing_failed`. */
  lemma ThrowIsProcessingFailure(tokens: Tokens, env: Env)
    requires Present(tokens.accessToken) && Present(tokens.refreshToken)
    requires env.setSession.SessionThrew? || (env.setSession.SessionSet? && env.setSession.user.Some? && env.lookup.LookupThrew?)
    ensures Decide(tokens, env).target == AuthCodeError(CLIENT_PROCESSING_FAILED)
  {
  }

  /** The callback page: the text it shows and the navigations its router performed. */
  class Page {
    var status: string
    var navigations: seq<Target>

    constructor ()
      ensures status == PROCESSING && navigations == []
    {
      status := PROCESSING;
      navigations := [];
    }

    /** Runs `handleAuthCallback` once: exactly one navigation is appended, and the status
        shown is the last one the decision set (if any). */
    method HandleAuthCallback(hash: string, parseQuery: string -> map<string, string>, env: Env)
      returns (calls: seq<Call>)
      modifies this
      ensures var r := HandleFragment(hash, parseQuery, env);
        && navigations == old(navigations) + [r.target]
        && calls == r.calls
        && status == (if r.statuses == [] then old(status) else r.statuses[|r.statuses| - 1])
    {
      var tokens := ReadTokens(parseQuery(FragmentQuery(hash)));
      calls := [];
      if !Present(tokens.accessToken) || !Present(tokens.refreshToken) {
        navigations := navigations + [AuthCodeError(MISSING_TOKENS)];
        return;
      }
      status := SETTING_UP;
      calls := calls + [SetSession(tokens.accessToken.value, tokens.refreshToken.value)];
      match env.setSession {
        case SessionThrew =>
          navigations := navigations + [AuthCodeError(CLIENT_PROCESSING_FAILED)];
          return;
        case SessionError =>
          navigations := navigations + [AuthCodeError(SESSION_SETUP_FAILED)];
          return;
        case SessionSet(user) =>
          if user.Some? {
            status := CHECKING;
            calls := calls + [SelectProfile(user.value.id)];
            if env.lookup.LookupThrew? {
              navigations := navigations + [AuthCodeError(CLIENT_PROCESSING_FAILED)];
              return;
            }
            if !SetupComplete(env.lookup.result.data) {
              navigations := navigations + [Setup];
              return;
            }
          }
          navigations := navigations + [Dashboard];
      }
    }
  }
}
