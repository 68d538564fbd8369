# Expense manager sign-in flow, modelled in Dafny

This project models the decision logic of a small Next.js / Supabase personal-finance app:
the server OAuth callback (`GET /auth/callback`), the client callback that reads tokens from
the URI fragment (`/auth/callback-client`), the page-lifetime auth state
(`{user, session, loading}`), the error page's message table, the setup and profile forms,
and the route middleware. Every call into the auth service or the `profiles` table is
replaced by a parameter holding what that call returned (or that it threw). The handlers
return the external calls they made, in order, beside the single navigation they decide.

Modules, one per source file, plus shared ones:

- `Wrappers`: `Option`, `Result`.
- `UrlQuery`: `encodeURIComponent` and the `URLSearchParams.get` lookup the error page
  performs on its URL.
- `Entities`: users, sessions, JSON values and rows, lookup results, JavaScript truthiness,
  and `SetupComplete` (the value of `profile?.starting_balance_set`).
- `Routes`: the navigation targets, their paths, and the error codes. `ParsePath` recovers the target from its path.
- `ServerCallback` (`app/auth/callback/route.ts`): the pure decision chain `Decide`.
- `ClientCallback` (`app/auth/callback-client/page.tsx`): the pure decision `Decide`, plus
  the page object, whose `HandleAuthCallback` updates `status` step by step and is proved to
  match `Decide`.
- `AuthContext` (`lib/auth-context.tsx`): the reducer functions `AfterGetSession` and
  `AfterEvent`, and the class `AuthProvider`, whose setter-based methods are proved equal to them.
- `AuthCodeError` (`app/auth/auth-code-error/page.tsx`): `ErrorMessage`, the code line, `ClearAuthData`.
- `SetupPage` (`app/setup/page.tsx`), `ProfilePage` (`app/profile/page.tsx`): the form
  handlers as methods of a page class whose fields are the component's state.
- `Middleware` (`middleware.ts`): the allow-list predicate and the constant response.
- `CrossChecks`: lemmas that relate the two handlers, the message table, the setup row and the auth state.

Behaviour of the code worth knowing when reading the model:

- A `getSession()` error that is not about the refresh token leaves `user` and `session`
  as they were; only `loading` changes. `AuthContext.FromInitialEveryErrorSignsOut` shows
  that at mount this is still the signed-out state, because both fields are still null.
- After a profile lookup that fails with an error other than "not found", the client
  handler decides from `profile`, which the client library leaves null, so the client also
  goes to `/setup`. `CrossChecks.HandlersAgreeOnSetup` proves the two handlers agree whenever
  an error comes without data. `CrossChecks.HandlersDisagreeOnErrorWithData` shows they would
  differ only if the library returned a row together with an error.
- JavaScript truthiness is kept. An empty `error` or `code` query parameter counts as absent.
  An empty token counts as missing. The raw code line on the error page is shown only for a
  non-empty code.
- The server callback writes the provider's error code into the error page's URL without
  escaping it (see "## Findings"). `Routes.Path` writes it with `encodeURIComponent`, and
  the rest of the model uses that corrected path; `Routes.WrittenErrorPath` is the path as
  the code writes it.

## Model

| member | source | states |
|---|---|---|
| Routes.Path | app/auth/callback/route.ts:27-123 | every target's path starts with `/`; exactly the error targets start with `/auth/auth-code-error?error=`; the code is URI-encoded (the correction of route.ts:27) |
| Routes.ParsePathInvertsPath | app/auth/callback/route.ts:27-123 | a target, code included, is recovered from its path (round trip) |
| Routes.PathInjective | app/auth/callback/route.ts:27-123 | distinct targets redirect to distinct paths |
| Routes.Location | app/auth/callback/route.ts:14-123 | a redirect location is the request origin followed by the target's path |
| Routes.ServerCodesUnescaped | app/auth/callback/route.ts:71-123 | the four codes the server writes need no escaping, so their paths are the literal strings it redirects to |
| Routes.ClientCodesUnescaped | app/auth/callback-client/page.tsx:30-76 | the three codes the client writes need no escaping, so their paths are the literal strings it pushes |
| Routes.ErrorPageReadsCode | app/auth/auth-code-error/page.tsx:17 | on the encoded error path, the page's `searchParams.get('error')` returns exactly the code, for every code |
| Routes.WrittenErrorPath | app/auth/callback/route.ts:27 | the path as written: the prefix followed by the unescaped code |
| Routes.WrittenAmpersandSplits | app/auth/callback/route.ts:27 | on the unescaped path, a code `a&b` is read back by the page as `a` |
| Routes.WrittenHashCuts | app/auth/callback/route.ts:27 | on the unescaped path, a code `a#b` is read back as `a`, the rest being the fragment |
| Routes.WrittenPlusIsSpace | app/auth/callback/route.ts:27 | on the unescaped path, a code `a+b` is read back as `a b` |
| UrlQuery.DecodeEncode | app/auth/auth-code-error/page.tsx:17 | decoding inverts `encodeURIComponent` for every string |
| UrlQuery.EncodeAvoids | app/auth/callback/route.ts:27 | an encoded code contains no `&`, `#` or `=` |
| UrlQuery.FragmentIgnored | app/auth/auth-code-error/page.tsx:17 | text after the first `#` does not change what `searchParams.get` returns |
| UrlQuery.QueryAfterMark | app/auth/auth-code-error/page.tsx:17 | without a fragment, `searchParams.get` reads the `&`-separated pairs after the first `?` |
| UrlQuery.Encode | app/auth/callback/route.ts:27 | `encodeURIComponent`: each character becomes one or three characters, so the text grows at most threefold; `DecodeEncode` states its inverse |
| UrlQuery.Decode | app/auth/auth-code-error/page.tsx:17 | the percent-decoding of `searchParams.get` never lengthens the text; `DecodeEncode` states it undoes `Encode` |
| UrlQuery.QueryGet | app/auth/auth-code-error/page.tsx:17 | `searchParams.get` on a URL: no value at all without a `?`; `FragmentIgnored` and `QueryAfterMark` state where it looks |
| ServerCallback.ProfileBranch | app/auth/callback/route.ts:102-115 | the dashboard exactly when the lookup had no error and the flag is truthy; otherwise setup |
| ServerCallback.Decide | app/auth/callback/route.ts:24-124 | a provider error wins and makes no calls; no code hands over to the client page; calls happen only with a code and always in the order exchange, user, profile (for that user's id) |
| ServerCallback.Redirect | app/auth/callback/route.ts:14-123 | the one redirect is prefixed by the origin and its path parses back to the decided target |
| ServerCallback.ExchangeFailureStops | app/auth/callback/route.ts:63-72 | a failed exchange gives `exchange_failed` after the exchange call alone |
| ServerCallback.UserFetchFailures | app/auth/callback/route.ts:80-90 | a fetch error gives `user_fetch_failed`, a null user `no_user`, and the profile is not looked up |
| ServerCallback.DashboardExactly | app/auth/callback/route.ts:63-115 | `/` if and only if every step succeeded and the profile flag is truthy |
| ServerCallback.SetupExactly | app/auth/callback/route.ts:96-111 | `/setup` if and only if the user is known and the lookup erred or the flag is falsy |
| ServerCallback.ThrowIsUnexpected | app/auth/callback/route.ts:37-124 | a throw at any awaited step of the `try` gives `unexpected_error` |
| ServerCallback.ChecksBeforeTryIgnoreEnv | app/auth/callback/route.ts:24-35 | without an error-free code the outcome does not depend on any service |
| ServerCallback.Param | app/auth/callback/route.ts:9-11 | a parameter is present exactly when its key is in the query, with that key's value |
| ClientCallback.FragmentQuery | app/auth/callback-client/page.tsx:17 | the fragment minus its first character (empty stays empty) |
| ClientCallback.ReadTokens | app/auth/callback-client/page.tsx:17-20 | each token is present exactly when its key is, with that key's value |
| ClientCallback.HandleFragment | app/auth/callback-client/page.tsx:17-20 | the fragment minus `#` is parsed and its tokens decided on; a fragment lacking either token key gives `missing_tokens` with no call |
| ClientCallback.ProfileBranch | app/auth/callback-client/page.tsx:54-68 | the dashboard exactly when the returned profile's flag is truthy; the error code only gets logged |
| ClientCallback.Decide | app/auth/callback-client/page.tsx:28-77 | missing tokens give `missing_tokens` with no call; `setSession` gets exactly the two tokens; a session error gives `session_setup_failed`; statuses run only Setting up then Checking; the profile is looked up exactly when Checking is shown |
| ClientCallback.ExpiresAtIgnored | app/auth/callback-client/page.tsx:20-40 | `expires_at` influences neither the navigation nor the calls |
| ClientCallback.NoUserGoesHome | app/auth/callback-client/page.tsx:51-72 | a session without a user goes to `/` with no lookup |
| ClientCallback.DashboardExactly | app/auth/callback-client/page.tsx:28-72 | `/` if and only if both tokens are there, the session is set, and either it has no user or the returned profile's flag is truthy |
| ClientCallback.ProfileErrorMeansSetup | app/auth/callback-client/page.tsx:54-68 | any profile error, `PGRST116` or not, goes to `/setup` |
| ClientCallback.ThrowIsProcessingFailure | app/auth/callback-client/page.tsx:74-77 | a throw from either call gives `client_processing_failed` |
| ClientCallback.Page.constructor | app/auth/callback-client/page.tsx:9 | the page starts at "Processing authentication..." with no navigation |
| ClientCallback.Page.HandleAuthCallback | app/auth/callback-client/page.tsx:11-78 | the step-by-step handler appends exactly one navigation, the decided one, and leaves the last status the decision set |
| AuthContext.ContainsOccurs | lib/auth-context.tsx:28 | `includes` holds exactly when the pattern occurs at some index |
| AuthContext.Contains | lib/auth-context.tsx:28 | `includes`: a pattern at the front is found, and a found pattern is no longer than the text; `ContainsOccurs` characterises it exactly |
| AuthContext.IsRefreshTokenError | lib/auth-context.tsx:28 | `error.message?.includes` of either phrase: an error without a message, or with one too short for either phrase, is never recognised; the `...Anywhere` lemmas state recognition |
| AuthContext.UserOf | lib/auth-context.tsx:35-60 | `session?.user ?? null`: a user comes only from a present session, and no session gives no user |
| AuthContext.AfterGetSession | lib/auth-context.tsx:24-45 | every settlement of `getSession` ends with `loading` false |
| AuthContext.AfterEvent | lib/auth-context.tsx:50-64 | every event ends with `loading` false; the field values per event are stated by the lemmas below |
| AuthContext.StaleSessionIsCleared | lib/auth-context.tsx:25-44 | a refresh-token error or a rejection clears both fields |
| AuthContext.OtherSessionErrorKeepsState | lib/auth-context.tsx:25-37 | another error changes only `loading` and does not sign out |
| AuthContext.InvalidRefreshTokenAnywhere | lib/auth-context.tsx:28 | every message holding "Invalid Refresh Token", whatever text surrounds it, is recognised |
| AuthContext.RefreshTokenNotFoundAnywhere | lib/auth-context.tsx:28 | every message holding "refresh_token_not_found", whatever text surrounds it, is recognised |
| AuthContext.FromInitialEveryErrorSignsOut | lib/auth-context.tsx:18-44 | from the initial state any error leaves the state signed-out |
| AuthContext.SessionAdopted | lib/auth-context.tsx:33-36 | success adopts the session and `session?.user ?? null` |
| AuthContext.SignedOutClears | lib/auth-context.tsx:53-55 | `SIGNED_OUT` clears user and session, whatever session it carries |
| AuthContext.SessionEventsAdopt | lib/auth-context.tsx:56-58 | `SIGNED_IN` and `TOKEN_REFRESHED` set the event's session and `session?.user ?? null` |
| AuthContext.UserUpdatedChangesOnlyUser | lib/auth-context.tsx:59-61 | `USER_UPDATED` sets the user to `session?.user ?? null` and keeps the session |
| AuthContext.OtherEventKeepsFields | lib/auth-context.tsx:53-63 | any other event changes only `loading` |
| AuthContext.FullTupleEventsForget | lib/auth-context.tsx:53-58 | `SIGNED_OUT`, `SIGNED_IN`, `TOKEN_REFRESHED` give a state independent of the prior one |
| AuthContext.EventIdempotent | lib/auth-context.tsx:53-63 | delivering an event twice equals delivering it once |
| AuthContext.SignInAndFetchCommute | lib/auth-context.tsx:33-58 | a successful fetch and a `SIGNED_IN` with the same session converge in either order |
| AuthContext.UseAuth | lib/auth-context.tsx:102-107 | fails exactly outside a provider, else returns the context |
| AuthContext.AuthProvider.constructor | lib/auth-context.tsx:18-20 | starts with no user, no session, loading |
| AuthContext.AuthProvider.OnGetSession | lib/auth-context.tsx:24-45 | the setters produce `AfterGetSession` of the old state; `signOut` is called exactly on a refresh-token error or a rejection |
| AuthContext.AuthProvider.OnAuthStateChange | lib/auth-context.tsx:50-64 | the setters produce `AfterEvent` of the old state |
| AuthContext.AuthProvider.SignInWithGoogle | lib/auth-context.tsx:69-84 | sign-out first; if it throws, no OAuth call and the promise rejects; otherwise Google OAuth to origin + `/auth/callback` with `access_type=offline`, `prompt=consent`, returning that call's outcome; OAuth is started exactly when sign-out did not throw |
| AuthContext.AuthProvider.SignOutUser | lib/auth-context.tsx:86-89 | delegates a single sign-out and passes on its outcome, a throw included |
| AuthCodeError.GenericExactlyForUnknown | app/auth/auth-code-error/page.tsx:33-53 | the generic message exactly for a null or unknown code |
| AuthCodeError.ErrorMessage | app/auth/auth-code-error/page.tsx:33-53 | `getErrorMessage` is total and gives a specific message exactly for the eight known codes; `MessagesDistinct` states the messages differ |
| AuthCodeError.MessagesDistinct | app/auth/auth-code-error/page.tsx:35-50 | the eight known codes have pairwise distinct messages |
| AuthCodeError.ShowsErrorCode | app/auth/auth-code-error/page.tsx:66-70 | the code line appears exactly for a non-null, non-empty code |
| AuthCodeError.ClearAuthData | app/auth/auth-code-error/page.tsx:19-31 | signs out first, always ends by navigating to `/auth/login` (only then), clears storage exactly when sign-out did not throw |
| SetupPage.Guard | app/setup/page.tsx:70-84 | spinner while loading, then sign-in redirect exactly when there is no user |
| SetupPage.WithOptional | app/setup/page.tsx:44-46 | an optional field is added exactly when defined, nothing else changes |
| SetupPage.SetupRecord | app/setup/page.tsx:42-52 | id is the user's, both balances are the parsed one, the row's keys are exactly those written, and it makes setup complete |
| SetupPage.Page.constructor | app/setup/page.tsx:21-23 | empty input, not submitting, no error |
| SetupPage.Page.EnterBalance | app/setup/page.tsx:157 | the input text becomes the balance text |
| SetupPage.Page.Render | app/setup/page.tsx:70-84 | a missing user after loading pushes `/auth/login` |
| SetupPage.Page.HandleSubmit | app/setup/page.tsx:26-67 | no user changes nothing; NaN sets the validation error without upsert; otherwise the setup row is upserted; errors reset `isSubmitting` without navigation; success navigates to `/` leaving `isSubmitting` true |
| ProfilePage.BalanceText | app/profile/page.tsx:58 | never empty; "0" without a row, without the column or for a null balance; the number's text, or the non-empty text value, otherwise |
| ProfilePage.WithBalance | app/profile/page.tsx:95-97 | only `current_balance` changes in the copy |
| ProfilePage.WithBalanceLastWins | app/profile/page.tsx:95-97 | a second save overrides the first |
| ProfilePage.UpdatePayload | app/profile/page.tsx:83-89 | the payload holds only `current_balance` and `updated_at` |
| ProfilePage.PayloadMatchesLocalCopy | app/profile/page.tsx:83-97 | the stored row and the page's copy agree on every column but `updated_at` |
| ProfilePage.Page.constructor | app/profile/page.tsx:29-35 | the initial field values |
| ProfilePage.Page.FetchProfile | app/profile/page.tsx:43-66 | past the guard it always ends not loading; success sets the profile and balance text; failure keeps the profile and sets the error |
| ProfilePage.Page.StartEditing | app/profile/page.tsx:233 | the Edit button turns editing on |
| ProfilePage.Page.EnterBalance | app/profile/page.tsx:208 | the input text becomes the balance text |
| ProfilePage.Page.HandleSave | app/profile/page.tsx:68-107 | the guard changes nothing; NaN sends no update; otherwise the payload is sent; success changes only the balance, sets the message, stops editing; failure keeps profile and editing; never left saving |
| ProfilePage.Page.HandleCancel | app/profile/page.tsx:109-114 | balance text reset from the profile, editing off, messages cleared |
| Middleware.PrefixMatchIsClosedUnderExtension | middleware.ts:9-13 | extending an allowed non-root path keeps it allowed |
| Middleware.IsAllowListed | middleware.ts:8-14 | the `if` condition; every path it admits starts with `/`; `RootIsExact`, `PlainPrefixExamples` and `PrefixMatchIsClosedUnderExtension` state its exact and prefix parts |
| Middleware.PlainPrefixExamples | middleware.ts:9-10 | `/authx` and `/apiary` pass the test |
| Middleware.RootIsExact | middleware.ts:14 | `/` passes, `/setup` and `/profile` do not |
| Middleware.Handle | middleware.ts:15-21 | every path is passed through |
| Middleware.ResponseIndependentOfPath | middleware.ts:15-21 | the response does not depend on the path |
| CrossChecks.HandlersAgreeOnSetup | app/auth/callback/route.ts:96-115 | both handlers choose `/setup` and `/` in the same profile situations |
| CrossChecks.HandlersDisagreeOnErrorWithData | app/auth/callback/route.ts:102-111 | a row returned with an error would split them |
| CrossChecks.ServerCodesHaveMessages | app/auth/auth-code-error/page.tsx:33-53 | every server-emitted code is one of four known codes with a specific message |
| CrossChecks.ClientCodesHaveMessages | app/auth/callback-client/page.tsx:28-77 | every client-emitted code is one of three known codes with a specific message |
| CrossChecks.ProviderCodeShownVerbatim | app/auth/callback/route.ts:25-28 | a provider code is read back by the error page exactly (on the encoded path), shown on the code line, with the generic message if unknown |
| CrossChecks.SetupRowLeadsHome | app/setup/page.tsx:42-52 | after setup is stored both handlers go to the dashboard |
| CrossChecks.SignedOutSetupRedirects | app/setup/page.tsx:81-84 | after `SIGNED_OUT` the setup guard redirects to sign-in |

## Left out

- The auth-service and database calls (`exchangeCodeForSession`, `getUser`, `setSession`, `select`, `upsert`, `update`, `signInWithOAuth`, `signOut`): foreign library code. Each is a parameter holding its outcome.
- The cookie adapter, `cookies()` and `createServerClient` (route.ts:38-59): SSR plumbing. A single flag records whether this setup threw.
- `URL` / `URLSearchParams` parsing of the callbacks' own request: the incoming query is a given key-to-value map, and the fragment parser is a function parameter. Only the `substring(1)` step is kept. The error page's lookup of `error` is modelled (`UrlQuery.QueryGet`).
- `parseFloat`, `isNaN`, `toString`, `toFixed`, `toLocaleDateString`: floating point. Parsing is an oracle returning `None` for NaN; number-to-text is a function parameter; balances are reals.
- Timestamps (`new Date().toISOString()`) are a parameter. `localStorage.clear`, `window.location` and `router.push` are recorded as effects or navigations.
- The interleaving of the `getSession` promise with `onAuthStateChange` callbacks, and the subscribe/unsubscribe lifecycle: event-loop concurrency. Each callback is one atomic transition.
- The interleaving of the form handlers with other events: `SetupPage.Page.HandleSubmit`, `ProfilePage.Page.FetchProfile` and `ProfilePage.Page.HandleSave` each await a table call but are modelled as one atomic step. While a save is pending, Cancel is not disabled and the input stays editable (profile/page.tsx:208-224), and `fetchProfile` runs again whenever `user` changes (profile/page.tsx:37-41); none of these can run in the middle of a step here. `ProfilePage.Page.Valid()`'s `!isSaving` holds only between steps under this atomicity.
- SetupPage.SetupRecord: one timestamp `now` is used for both `created_at` and `updated_at`, while setup/page.tsx:50-51 reads the clock twice, so the two may differ by the time between the reads.
- AuthCodeError.ClearAuthData: the handler runs only from a click in the browser, so `window` always exists; the `typeof window` test is taken as true, and a run without a window, where both assignments to `window.location.href` would throw, is not modelled.
- UrlQuery.Encode, UrlQuery.Decode: characters beyond ASCII are kept as they are, where the browser writes them as UTF-8 percent sequences and reads them back, so the round trip is the same; `%XX` above `7F` is left undecoded rather than decoded as UTF-8, and lone surrogates, on which `encodeURIComponent` throws, are not modelled. The query is read from the path; the origin and the URL parser's own normalisation are left out.
- Console logging, all JSX rendering (except the setup page's redirect during render) and the middleware `matcher` configuration.
- ProfilePage.Page.HandleSave: the `prev ? ... : null` functional update is taken with `prev` equal to the profile checked by the guard, because nothing else can write the profile between the two steps here.
- ProfilePage.BalanceText: a number's text is left to the oracle, so "0" for a zero balance is shown only when the oracle says so.
- app/page.tsx and app/auth/login/page.tsx: a redirect guard over `user` and `loading` each, already covered by the auth state; they are not part of this model.

## Findings

| source | as written | input that shows it | evidently intended | confidence | as-written member | corrected member |
|---|---|---|---|---|---|---|
| app/auth/callback/route.ts:27 | the provider's `error`, already decoded by `searchParams.get`, is interpolated into `?error=${error}` without escaping | a callback with `?error=a%26b%3Dc` (the code `a&b=c`) sends the error page to `?error=a&b=c`, which reads the code as `a`; `x%23y` is read as `x`, `a%2Bb` as `a b` | `?error=${encodeURIComponent(error)}`, so that the page shows the provider's code as it was sent | not executed | Routes.WrittenAmpersandSplits | Routes.ErrorPageReadsCode |
