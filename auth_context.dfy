/**
 * The page-lifetime auth state `{user, session, loading}` and the transitions that update
 * it: the outcome of the initial `getSession()` and the `onAuthStateChange` events. Each
 * callback is one atomic transition; the order in which the promise and the events
 * interleave is not modelled. The pure functions `AfterGetSession` and `AfterEvent` state
 * each transition, the class `AuthProvider` performs it with its setters.
 */
module AuthContext {
  import opened Wrappers
  import opened Entities

  datatype AuthState = AuthState(user: Option<User>, session: Option<Session>, loading: bool)

  const INITIAL := AuthState(None, None, true)

  const REFRESH_TOKEN_NOT_FOUND := "refresh_token_not_found"
  const INVALID_REFRESH_TOKEN := "Invalid Refresh Token"

  const SIGNED_OUT := "SIGNED_OUT"
  const SIGNED_IN := "SIGNED_IN"
  const TOKEN_REFRESHED := "TOKEN_REFRESHED"
  const USER_UPDATED := "USER_UPDATED"

  /** `String.prototype.includes`. */
  function Contains(s: string, pattern: string): (found: bool)
    ensures pattern <= s ==> found
    ensures found ==> |pattern| <= |s|
    decreases |s|
  {
    if pattern <= s then true
    else if |s| == 0 then false
    else Contains(s[1..], pattern)
  }

  /** `pattern` occurs in `s` starting at index `i`. */
  predicate OccursAt(s: string, pattern: string, i: int) {
    0 <= i <= |s| - |pattern| && s[i..i + |pattern|] == pattern
  }

  /** A slice of the tail is the shifted slice of the whole string. */
  lemma TailSlice(s: string, a: int, b: int)
    requires 1 <= |s| && 0 <= a <= b <= |s| - 1
    ensures s[1..][a..b] == s[a + 1..b + 1]
  {
    forall k | 0 <= k < b - a
      ensures s[1..][a..b][k] == s[a + 1..b + 1][k]
    {
    }
  }

  /** `Contains` finds the pattern exactly when it occurs at some index. */
  lemma {:induction false} ContainsOccurs(s: string, pattern: string)
    ensures Contains(s, pattern) <==> exists i :: OccursAt(s, pattern, i)
    decreases |s|
  {
    if pattern <= s {
      assert OccursAt(s, pattern, 0);
    } else if |s| == 0 {
    } else {
      ContainsOccurs(s[1..], pattern);
      if i :| OccursAt(s, pattern, i) {
        assert i != 0;
        TailSlice(s, i - 1, i - 1 + |pattern|);
        assert OccursAt(s[1..], pattern, i - 1);
      }
      if Contains(s[1..], pattern) {
        var j :| OccursAt(s[1..], pattern, j);
        TailSlice(s, j, j + |pattern|);
        assert OccursAt(s, pattern, j + 1);
      }
    }
  }

  /** `error.message?.includes(...)` for either stale-refresh-token text. */
  function IsRefreshTokenError(e: AuthError): (stale: bool)
    // A message too short to hold either phrase, or no message at all, is never recognised.
    ensures stale ==> e.message.Some? && |INVALID_REFRESH_TOKEN| <= |e.message.value|
  {
    e.message.Some? && (Contains(e.message.value, REFRESH_TOKEN_NOT_FOUND) || Contains(e.message.value, INVALID_REFRESH_TOKEN))
  }

  /** `session?.user ?? null`. */
  function UserOf(session: Option<Session>): (u: Option<User>)
    ensures u.Some? ==> session.Some? && session.value.user == u
    ensures session.None? ==> u.None?
  {
    if session.Some? then session.value.user else None
  }

  /** How the `getSession()` promise settles. */
  datatype GetSessionOutcome = Resolved(session: Option<Session>, error: Option<AuthError>) | Rejected

  /** Whether the handler calls `signOut()`. */
  predicate GetSessionSignsOut(o: GetSessionOutcome) {
    o.Rejected? || (o.error.Some? && IsRefreshTokenError(o.error.value))
  }

  /** The state after the `getSession()` handlers ran. */
  function AfterGetSession(s: AuthState, o: GetSessionOutcome): (t: AuthState)
    ensures !t.loading
  {
    match o
    case Rejected => AuthState(None, None, false)
    case Resolved(session, error) =>
      if error.Some? then
        if IsRefreshTokenError(error.value) then AuthState(None, None, false)
        else s.(loading := false)
      else
        AuthState(UserOf(session), session, false)
  }

  /** The `onAuthStateChange` reducer. */
  function AfterEvent(s: AuthState, event: string, session: Option<Session>): (t: AuthState)
    ensures !t.loading
  {
    if event == SIGNED_OUT then AuthState(None, None, false)
    else if event == SIGNED_IN || event == TOKEN_REFRESHED then AuthState(UserOf(session), session, false)
    else if event == USER_UPDATED then s.(user := UserOf(session), loading := false)
    else s.(loading := false)
  }

  /** A stale refresh token signs out and clears both fields; so does a rejection. */
  lemma StaleSessionIsCleared(s: AuthState, o: GetSessionOutcome)
    requires GetSessionSignsOut(o)
    ensures AfterGetSession(s, o) == AuthState(None, None, false)
  {
  }

  /** An error that is not about the refresh token sets only `loading`. */
  lemma OtherSessionErrorKeepsState(s: AuthState, e: AuthError, session: Option<Session>)
    requires !IsRefreshTokenError(e)
    ensures AfterGetSession(s, Resolved(session, Some(e))) == s.(loading := false)
    ensures !GetSessionSignsOut(Resolved(session, Some(e)))
  {
  }

  /** A message holding "Invalid Refresh Token" anywhere, after and before any text, is
      recognised as a stale refresh token. */
  lemma InvalidRefreshTokenAnywhere(a: string, b: string)
    ensures IsRefreshTokenError(AuthError(Some(a + INVALID_REFRESH_TOKEN + b)))
  {
    var m := a + INVALID_REFRESH_TOKEN + b;
    assert OccursAt(m, INVALID_REFRESH_TOKEN, |a|);
    ContainsOccurs(m, INVALID_REFRESH_TOKEN);
  }

  /** The same for "refresh_token_not_found". */
  lemma RefreshTokenNotFoundAnywhere(a: string, b: string)
    ensures IsRefreshTokenError(AuthError(Some(a + REFRESH_TOKEN_NOT_FOUND + b)))
  {
    var m := a + REFRESH_TOKEN_NOT_FOUND + b;
    assert OccursAt(m, REFRESH_TOKEN_NOT_FOUND, |a|);
    ContainsOccurs(m, REFRESH_TOKEN_NOT_FOUND);
  }

  /** At mount, any error leaves the state signed out, because the fields an unrecognised
      error leaves alone are still the initial nulls. */
  lemma FromInitialEveryErrorSignsOut(o: GetSessionOutcome)
    requires o.Rejected? || o.error.Some?
    ensures AfterGetSession(INITIAL, o) == AuthState(None, None, false)
  {
  }

  /** A successful `getSession` adopts the session and its user. */
  lemma SessionAdopted(s: AuthState, session: Option<Session>)
    ensures AfterGetSession(s, Resolved(session, None)).session == session
    ensures AfterGetSession(s, Resolved(session, None)).user == UserOf(session)
  {
  }

  /** `SIGNED_OUT` clears both fields, whatever session it carries. */
  lemma SignedOutClears(s: AuthState, session: Option<Session>)
    ensures AfterEvent(s, SIGNED_OUT, session) == AuthState(None, None, false)
  {
  }

  /** `SIGNED_IN` and `TOKEN_REFRESHED` adopt the event's session and its user. */
  lemma SessionEventsAdopt(s: AuthState, event: string, session: Option<Session>)
    requires event == SIGNED_IN || event == TOKEN_REFRESHED
    ensures AfterEvent(s, event, session) == AuthState(UserOf(session), session, false)
  {
  }

  /** `USER_UPDATED` replaces the user by the event's one and keeps the session. */
  lemma UserUpdatedChangesOnlyUser(s: AuthState, session: Option<Session>)
    ensures AfterEvent(s, USER_UPDATED, session) == s.(user := UserOf(session), loading := false)
    ensures AfterEvent(s, USER_UPDATED, session).session == s.session
  {
  }

  /** Unknown events change neither field. */
  lemma OtherEventKeepsFields(s: AuthState, event: string, session: Option<Session>)
    requires event !in {SIGNED_OUT, SIGNED_IN, TOKEN_REFRESHED, USER_UPDATED}
    ensures AfterEvent(s, event, session) == s.(loading := false)
  {
  }

  /** `SIGNED_OUT`, `SIGNED_IN` and `TOKEN_REFRESHED` set the whole tuple, so their result
      does not depend on the state they are applied to. */
  lemma FullTupleEventsForget(s: AuthState, s': AuthState, event: string, session: Option<Session>)
    requires event in {SIGNED_OUT, SIGNED_IN, TOKEN_REFRESHED}
    ensures AfterEvent(s, event, session) == AfterEvent(s', event, session)
  {
  }

  /** Delivering the same event twice has the effect of delivering it once. */
  lemma EventIdempotent(s: AuthState, event: string, session: Option<Session>)
    ensures AfterEvent(AfterEvent(s, event, session), event, session) == AfterEvent(s, event, session)
  {
  }

  /** The initial fetch and a `SIGNED_IN` carrying the same session converge in either order. */
  lemma SignInAndFetchCommute(s: AuthState, session: Option<Session>)
    ensures AfterEvent(AfterGetSession(s, Resolved(session, None)), SIGNED_IN, session)
         == AfterGetSession(AfterEvent(s, SIGNED_IN, session), Resolved(session, None))
  {
  }

  /** The calls `signInWithGoogle` makes. */
  datatype OAuthOptions = OAuthOptions(provider: string, redirectTo: string, queryParams: map<string, string>)
  datatype AuthCall = SignOut | SignInWithOAuth(options: OAuthOptions)

  /** How an awaited auth-service call settles: it returns its `error` field, or it throws. */
  datatype CallOutcome = Returned(error: Option<AuthError>) | Threw

  const CALLBACK_ROUTE := "/auth/callback"

  /** `useAuth()`: the context value, or the error it throws outside a provider. */
  function UseAuth(context: Option<AuthState>): (r: Result<AuthState, string>)
    ensures r.Failure? <==> context.None?
    ensures r.Success? ==> r.value == context.value
  {
    if context.None? then Failure("useAuth must be used within an AuthProvider")
    else Success(context.value)
  }

  class AuthProvider {
    var user: Option<User>
    var session: Option<Session>
    var loading: bool

    function State(): AuthState
      reads this
    {
      AuthState(user, session, loading)
    }

    constructor ()
      ensures State() == INITIAL
    {
      user := None;
      session := None;
      loading := true;
    }

    /** The `.then` / `.catch` handlers of the initial `getSession()`. */
    method OnGetSession(o: GetSessionOutcome) returns (calledSignOut: bool)
      modifies this
      ensures State() == AfterGetSession(old(State()), o)
      ensures calledSignOut == GetSessionSignsOut(o)
    {
      calledSignOut := false;
      match o {
        case Rejected =>
          calledSignOut := true;
          session := None;
          user := None;
          loading := false;
        case Resolved(s, error) =>
          if error.Some? {
            if IsRefreshTokenError(error.value) {
              calledSignOut := true;
              session := None;
              user := None;
            }
          } else {
            session := s;
            user := if s.Some? then s.value.user else None;
          }
          loading := false;
      }
    }

    /** The `onAuthStateChange` listener. */
    method OnAuthStateChange(event: string, s: Option<Session>)
      modifies this
      ensures State() == AfterEvent(old(State()), event, s)
    {
      if event == SIGNED_OUT {
        session := None;
        user := None;
      } else if event == SIGNED_IN || event == TOKEN_REFRESHED {
        session := s;
        user := if s.Some? then s.value.user else None;
      } else if event == USER_UPDATED {
        user := if s.Some? then s.value.user else None;
      }
      loading := false;
    }

    /** Signs out first, then starts the Google OAuth redirect back to the server callback,
        asking for offline access and forced consent; returns that call's outcome. The
        sign-out is awaited outside any `try`, so when it throws the OAuth call is never made
        and the returned promise rejects. The local state is not touched. */
    method SignInWithGoogle(origin: string, signOutThrows: bool, oauthOutcome: CallOutcome)
      returns (calls: seq<AuthCall>, outcome: CallOutcome)
      ensures |calls| >= 1 && calls[0] == SignOut
      ensures signOutThrows ==> calls == [SignOut] && outcome == Threw
      ensures !signOutThrows ==> |calls| == 2 && calls[1].SignInWithOAuth? && outcome == oauthOutcome
      ensures !signOutThrows ==> calls[1].options.provider == "google"
      ensures !signOutThrows ==> calls[1].options.redirectTo == origin + CALLBACK_ROUTE
      ensures !signOutThrows ==>
              calls[1].options.queryParams == map["access_type" := "offline", "prompt" := "consent"]
      ensures (exists i :: 0 <= i < |calls| && calls[i].SignInWithOAuth?) <==> !signOutThrows
    {
      calls := [SignOut];
      if signOutThrows {
        outcome := Threw;
        return;
      }
      var options := OAuthOptions("google", origin + CALLBACK_ROUTE,
                                  map["access_type" := "offline", "prompt" := "consent"]);
      calls := calls + [SignInWithOAuth(options)];
      outcome := oauthOutcome;
    }

    /** `signOut()` only delegates, passing on what the call returned or that it threw; the
        state changes later, through `SIGNED_OUT`. */
    method SignOutUser(signOutOutcome: CallOutcome) returns (calls: seq<AuthCall>, outcome: CallOutcome)
      ensures calls == [SignOut] && outcome == signOutOutcome
    {
      calls := [SignOut];
      outcome := signOutOutcome;
    }
  }
}
