/**
 * The values the auth flow reads from, and writes to, the hosted auth service and the
 * hosted `profiles` table. Each external call is represented only by the value it
 * returns (or by the fact that it threw); the services themselves are not modelled.
 */
module Entities {
  import opened Wrappers

  /** An authenticated user as the auth service reports it. `email` and the two
      `user_metadata` entries may be undefined. */
  datatype User = User(id: string, email: Option<string>, fullName: Option<string>, avatarUrl: Option<string>)

  /** A session token bundle; `user` is read with `session?.user ?? null`. */
  datatype Session = Session(accessToken: string, refreshToken: string, expiresAt: Option<int>, user: Option<User>)

  /** A JSON value of a table column (NaN is not a value here). */
  datatype Value = Null | Bool(b: bool) | Num(n: real) | Text(s: string)

  /** A row of `profiles`, or any other JavaScript object literal sent to the table:
      column name to value. A key that is absent is `undefined`. */
  type Record = map<string, Value>

  const STARTING_BALANCE_SET := "starting_balance_set"
  const CURRENT_BALANCE := "current_balance"
  const STARTING_BALANCE := "starting_balance"

  /** JavaScript truthiness of a value. */
  predicate Truthy(v: Value) {
    match v
    case Null => false
    case Bool(b) => b
    case Num(n) => n != 0.0
    case Text(s) => s != ""
  }

  /** JavaScript truthiness of a possibly-absent string (a query parameter). */
  predicate Present(p: Option<string>) {
    p.Some? && p.value != ""
  }

  /** The value of `profile?.starting_balance_set`, negated by neither handler:
      true exactly when a profile exists and its completeness flag is truthy. */
  predicate SetupComplete(profile: Option<Record>) {
    profile.Some? && STARTING_BALANCE_SET in profile.value && Truthy(profile.value[STARTING_BALANCE_SET])
  }

  /** A PostgREST error; code `PGRST116` means that `.single()` found no row. */
  datatype PgError = PgError(code: string, message: string)

  const NOT_FOUND := "PGRST116"

  /** What `from("profiles").select(...).eq("id", ...).single()` resolves to. */
  datatype QueryResult = QueryResult(data: Option<Record>, error: Option<PgError>) {
    /** The client library returns no data together with an error. */
    predicate WellFormed() {
      error.Some? ==> data.None?
    }
  }

  /** A profile lookup either resolves or throws. */
  datatype Lookup = LookupReturned(result: QueryResult) | LookupThrew {
    predicate WellFormed() {
      LookupReturned? ==> result.WellFormed()
    }
  }

  /** An auth-service error; `message` may be undefined. */
  datatype AuthError = AuthError(message: Option<string>)
}
