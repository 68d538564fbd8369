/**
 * The server-side OAuth redirect handler (`GET /auth/callback`). It receives the
 * authorization response of section 4.1.2 of RFC 6749 (a `code`, or an `error` as in
 * section 4.1.2.1) and answers with exactly one redirect. The auth-service and table calls
 * are replaced by the outcomes they would produce; the outcome also records which calls
 * were made, in order.
 */
module ServerCallback {
  import opened Wrappers
  import opened Entities
  import opened Routes

  /** `exchangeCodeForSession(code)`: no error, an error, or a thrown exception. */
  datatype Exchange = ExchangeOk | ExchangeError | ExchangeThrew

  /** `getUser()`: an error, the user (possibly null), or a thrown exception. */
  datatype UserFetch = UserFetched(user: Option<User>) | UserFetchError | UserFetchThrew

  /** What the environment answers, one field per awaited step of the `try` block.
      `clientReady` is false when `cookies()` or creating the server client throws. */
  datatype Env = Env(clientReady: bool, exchange: Exchange, userFetch: UserFetch, lookup: Lookup)

  /** The external calls the handler makes. */
  datatype Call = ExchangeCode(code: string) | GetUser | SelectProfile(userId: string)

  datatype Outcome = Outcome(target: Target, calls: seq<Call>)

  /** `searchParams.get(key)`. */
  function Param(query: map<string, string>, key: string): (v: Option<string>)
    ensures v.Some? <==> key in query
    ensures v.Some? ==> v.value == query[key]
  {
    if key in query then Some(query[key]) else None
  }

  /** The profile branch: any lookup error, or an incomplete profile, means setup. */
  function ProfileBranch(q: QueryResult): (t: Target)
    ensures t == Dashboard <==> q.error.None? && SetupComplete(q.data)
    ensures t == Dashboard || t == Setup
  {
    if q.error.Some? then Setup
    else if !SetupComplete(q.data) then Setup
    else Dashboard
  }

  /** The handler's decision chain; first match wins. */
  function Decide(query: map<string, string>, env: Env): (r: Outcome)
    // A provider error wins over everything, and nothing is called.
    ensures Present(Param(query, "error")) ==> r == Outcome(AuthCodeError(query["error"]), [])
    // No code: hand over to the client page, which can read the fragment.
    ensures !Present(Param(query, "error")) && !Present(Param(query, "code")) ==> r == Outcome(CallbackClient, [])
    // Calls happen only with a code and no error, and always in the order exchange, user, profile.
    ensures r.calls != [] ==> Present(Param(query, "code")) && !Present(Param(query, "error"))
    ensures |r.calls| <= 3
    ensures |r.calls| >= 1 ==> r.calls[0] == ExchangeCode(query["code"])
    ensures |r.calls| >= 2 ==> r.calls[1] == GetUser && env.exchange.ExchangeOk?
    ensures |r.calls| == 3 ==>
      env.userFetch.UserFetched? && env.userFetch.user.Some? && r.calls[2] == SelectProfile(env.userFetch.user.value.id)
  {
    var error := Param(query, "error");
    var code := Param(query, "code");
    if Present(error) then Outcome(AuthCodeError(error.value), [])
    else if !Present(code) then Outcome(CallbackClient, [])
    else if !env.clientReady then Outcome(AuthCodeError(UNEXPECTED_ERROR), [])
    else
      var afterExchange := [ExchangeCode(code.value)];
      match env.exchange
      case ExchangeThrew => Outcome(AuthCodeError(UNEXPECTED_ERROR), afterExchange)
      case ExchangeError => Outcome(AuthCodeError(EXCHANGE_FAILED), afterExchange)
      case ExchangeOk =>
        var afterUser := afterExchange + [GetUser];
        match env.userFetch
        case UserFetchThrew => Outcome(AuthCodeError(UNEXPECTED_ERROR), afterUser)
        case UserFetchError => Outcome(AuthCodeError(USER_FETCH_FAILED), afterUser)
        case UserFetched(None) => Outcome(AuthCodeError(NO_USER), afterUser)
        case UserFetched(Some(user)) =>
          var afterProfile := afterUser + [SelectProfile(user.id)];
          match env.lookup
          case LookupThrew => Outcome(AuthCodeError(UNEXPECTED_ERROR), afterProfile)
          case LookupReturned(q) => Outcome(ProfileBranch(q), afterProfile)
  }

  /** The single redirect response: origin followed by the decided path. */
  function Redirect(origin: string, query: map<string, string>, env: Env): (url: string)
    ensures origin <= url
    ensures ParsePath(url[|origin|..]) == Some(Decide(query, env).target)
  {
    ParsePathInvertsPath(Decide(query, env).target);
    Location(origin, Decide(query, env).target)
  }

  /** With a code and no error, every call the chain reaches happens with the code. */
  predicate Attempted(query: map<string, string>) {
    !Present(Param(query, "error")) && Present(Param(query, "code"))
  }

  /** A failed exchange means `exchange_failed`, and neither the user nor the profile is fetched. */
  lemma ExchangeFailureStops(query: map<string, string>, env: Env)
    requires Attempted(query) && env.clientReady && env.exchange.ExchangeError?
    ensures Decide(query, env) == Outcome(AuthCodeError(EXCHANGE_FAILED), [ExchangeCode(query["code"])])
  {
  }

  /** Errors from `getUser`: a fetch error is `user_fetch_failed`, a null user `no_user`. */
  lemma UserFetchFailures(query: map<string, string>, env: Env)
    requires Attempted(query) && env.clientReady && env.exchange.ExchangeOk?
    ensures env.userFetch.UserFetchError? ==> Decide(query, env).target == AuthCodeError(USER_FETCH_FAILED)
    ensures env.userFetch == UserFetched(None) ==> Decide(query, env).target == AuthCodeError(NO_USER)
    ensures !env.userFetch.UserFetched? || env.userFetch.user.None? ==> |Decide(query, env).calls| == 2
  {
  }

  /** The dashboard is reached exactly when every step succeeded and the profile is complete. */
  lemma DashboardExactly(query: map<string, string>, env: Env)
    ensures Decide(query, env).target == Dashboard <==>
      && Attempted(query)
      && env.clientReady
      && env.exchange.ExchangeOk?
      && env.userFetch.UserFetched? && env.userFetch.user.Some?
      && env.lookup.LookupReturned?
      && env.lookup.result.error.None? && SetupComplete(env.lookup.result.data)
  {
  }

  /** Setup is reached exactly when the user is known and the lookup returned an error
      or a profile whose flag is falsy. */
  lemma SetupExactly(query: map<string, string>, env: Env)
    ensures Decide(query, env).target == Setup <==>
      && Attempted(query)
      && env.clientReady
      && env.exchange.ExchangeOk?
      && env.userFetch.UserFetched? && env.userFetch.user.Some?
      && env.lookup.LookupReturned?
      && (env.lookup.result.error.Some? || !SetupComplete(env.lookup.result.data))
  {
  }

  /** A throw anywhere inside the `try` block becomes `unexpected_error`. Outside the `try`
      the provider-error and the no-code checks do not depend on the environment at all. */
  lemma ThrowIsUnexpected(query: map<string, string>, env: Env)
    requires Attempted(query)
    requires !env.clientReady
          || env.exchange.ExchangeThrew?
          || (env.exchange.ExchangeOk? && env.userFetch.UserFetchThrew?)
          || (env.exchange.ExchangeOk? && env.userFetch.UserFetched? && env.userFetch.user.Some? && env.lookup.LookupThrew?)
    ensures Decide(query, env).target == AuthCodeError(UNEXPECTED_ERROR)
  {
  }

  lemma ChecksBeforeTryIgnoreEnv(query: map<string, string>, env: Env, env': Env)
    requires !Attempted(query)
    ensures Decide(query, env) == Decide(query, env')
  {
  }
}
