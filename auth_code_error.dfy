/**
 * The error page `/auth/auth-code-error?error=<code>`: the message shown for a code, whether
 * the raw code is shown, and the "Clear Auth Data & Retry" action.
 */
module AuthCodeError {
  import opened Wrappers
  import opened Entities
  import opened Routes

  const GENERIC := "There was an error signing you in. Please try again."

  /** The codes that have a message of their own. */
  const KNOWN_CODES: set<string> := {NO_CODE, EXCHANGE_FAILED, USER_FETCH_FAILED, NO_USER,
    UNEXPECTED_ERROR, MISSING_TOKENS, SESSION_SETUP_FAILED, CLIENT_PROCESSING_FAILED}

  /** `getErrorMessage`: a `switch` with a default. */
  function ErrorMessage(code: Option<string>): (m: string)
    ensures m != GENERIC <==> code.Some? && code.value in KNOWN_CODES
  {
    if code == Some(NO_CODE) then "No authorization code received from Google. This might be a temporary issue."
    else if code == Some(EXCHANGE_FAILED) then "Failed to exchange authorization code for session. Please try again."
    else if code == Some(USER_FETCH_FAILED) then "Unable to fetch user information after authentication."
    else if code == Some(NO_USER) then "Authentication succeeded but no user data was found."
    else if code == Some(UNEXPECTED_ERROR) then "An unexpected error occurred during authentication."
    else if code == Some(MISSING_TOKENS) then "OAuth tokens were not found in the callback URL."
    else if code == Some(SESSION_SETUP_FAILED) then "Failed to establish authentication session with the provided tokens."
    else if code == Some(CLIENT_PROCESSING_FAILED) then "An error occurred while processing the authentication callback."
    else GENERIC
  }

  /** The generic message is shown exactly for a null or unknown code. */
  lemma GenericExactlyForUnknown(code: Option<string>)
    ensures ErrorMessage(code) == GENERIC <==> code.None? || code.value !in KNOWN_CODES
  {
  }

  /** Distinct known codes get distinct messages. */
  lemma MessagesDistinct(a: string, b: string)
    requires a in KNOWN_CODES && b in KNOWN_CODES && a != b
    ensures ErrorMessage(Some(a)) != ErrorMessage(Some(b))
  {
    MessageLength(a);
    MessageLength(b);
    if MessageLengthOf(a) == MessageLengthOf(b) {
      SameLengthPair(a, b);
      ExchangeAndSessionMessagesDiffer();
    }
  }

  /** The length of each known code's message. */
  function MessageLengthOf(c: string): nat {
    if c == NO_CODE then 76
    else if c == EXCHANGE_FAILED || c == SESSION_SETUP_FAILED then 68
    else if c == USER_FETCH_FAILED then 54
    else if c == NO_USER then 52
    else if c == UNEXPECTED_ERROR then 51
    else if c == MISSING_TOKENS then 48
    else 63
  }

  lemma MessageLength(c: string)
    requires c in KNOWN_CODES
    ensures |ErrorMessage(Some(c))| == MessageLengthOf(c)
  {
    if c == NO_CODE {
    } else if c == EXCHANGE_FAILED {
    } else if c == USER_FETCH_FAILED {
    } else if c == NO_USER {
    } else if c == UNEXPECTED_ERROR {
    } else if c == MISSING_TOKENS {
    } else if c == SESSION_SETUP_FAILED {
    } else {
      assert c == CLIENT_PROCESSING_FAILED;
    }
  }

  /** Only `exchange_failed` and `session_setup_failed` have messages of equal length. */
  lemma SameLengthPair(a: string, b: string)
    requires a in KNOWN_CODES && b in KNOWN_CODES && a != b
    requires MessageLengthOf(a) == MessageLengthOf(b)
    ensures {a, b} == {EXCHANGE_FAILED, SESSION_SETUP_FAILED}
  {
  }

  /** The one pair of messages of equal length differ all the same. */
  lemma ExchangeAndSessionMessagesDiffer()
    ensures ErrorMessage(Some(EXCHANGE_FAILED)) != ErrorMessage(Some(SESSION_SETUP_FAILED))
  {
  }

  /** `{error && ...}`: the code line is shown for a non-null, non-empty code. */
  function ShowsErrorCode(code: Option<string>): (shown: bool)
    ensures shown <==> code.Some? && code.value != ""
  {
    Present(code)
  }

  /** The side effects of `clearAuthData`, in order. */
  datatype Effect = SignOutCall | ClearLocalStorage | Navigate(path: string)

  /** The "Clear Auth Data & Retry" click handler, which runs in the browser, so `window`
      exists. `signOut()` is awaited; if it throws, the storage is not cleared but the page
      still navigates to the sign-in page. */
  method ClearAuthData(signOutThrows: bool) returns (effects: seq<Effect>)
    ensures |effects| >= 2 && effects[0] == SignOutCall
    ensures effects[|effects| - 1] == Navigate(Path(Login))
    ensures ClearLocalStorage in effects <==> !signOutThrows
    ensures forall i :: 0 <= i < |effects| - 1 ==> !effects[i].Navigate?
  {
    effects := [SignOutCall];
    if !signOutThrows {
      effects := effects + [ClearLocalStorage];
      effects := effects + [Navigate(Path(Login))];
    } else {
      effects := effects + [Navigate(Path(Login))];
    }
  }
}
