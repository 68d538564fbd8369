/**
 * The one-time setup page: its loading / no-user guard and `handleSubmit`, which validates
 * the typed starting balance and upserts the profile row that marks setup as complete.
 * `parseFloat` is an oracle returning `None` for NaN; the clock is a parameter.
 */
module SetupPage {
  import opened Wrappers
  import opened Entities
  import opened Routes

  const INVALID_NUMBER := "Please enter a valid number"
  const SAVE_FAILED := "Failed to save profile. Please try again."
  const UNEXPECTED := "An unexpected error occurred. Please try again."

  /** What the page renders. */
  datatype View = Spinner | RedirectToLogin | Form

  /** While auth loads, a spinner; then, without a user, a redirect to sign-in. */
  function Guard(loading: bool, user: Option<User>): (v: View)
    ensures v == Spinner <==> loading
    ensures v == RedirectToLogin <==> !loading && user.None?
    ensures v == Form <==> !loading && user.Some?
  {
    if loading then Spinner
    else if user.None? then RedirectToLogin
    else Form
  }

  /** Adds an entry for a defined value; `undefined` entries are dropped when the object is
      serialised. */
  function WithOptional(r: Record, key: string, v: Option<string>): (r': Record)
    ensures r'.Keys == r.Keys + (if v.Some? then {key} else {})
    ensures forall k :: k in r && k != key ==> k in r' && r'[k] == r[k]
    ensures v.Some? ==> r'[key] == Text(v.value)
  {
    if v.Some? then r[key := Text(v.value)] else r
  }

  /** The upserted row. */
  function SetupRecord(user: User, balance: real, now: string): (r: Record)
    ensures "id" in r && r["id"] == Text(user.id)
    ensures STARTING_BALANCE in r && r[STARTING_BALANCE] == Num(balance)
    ensures CURRENT_BALANCE in r && r[CURRENT_BALANCE] == Num(balance)
    ensures SetupComplete(Some(r))
    ensures r.Keys == {"id", STARTING_BALANCE, CURRENT_BALANCE, STARTING_BALANCE_SET, "created_at", "updated_at"}
                      + (if user.email.Some? then {"email"} else {})
                      + (if user.fullName.Some? then {"full_name"} else {})
                      + (if user.avatarUrl.Some? then {"avatar_url"} else {})
  {
    var base := map[
      "id" := Text(user.id),
      STARTING_BALANCE := Num(balance),
      CURRENT_BALANCE := Num(balance),
      STARTING_BALANCE_SET := Bool(true),
      "created_at" := Text(now),
      "updated_at" := Text(now)];
    assert base.Keys == {"id", STARTING_BALANCE, CURRENT_BALANCE, STARTING_BALANCE_SET, "created_at", "updated_at"};
    var withEmail := WithOptional(base, "email", user.email);
    var withName := WithOptional(withEmail, "full_name", user.fullName);
    WithOptional(withName, "avatar_url", user.avatarUrl)
  }

  /** How the upsert settles: no error, an error, or a throw. */
  datatype UpsertOutcome = UpsertOk | UpsertError | UpsertThrew

  class Page {
    var startingBalance: string
    var isSubmitting: bool
    var error: string
    var navigations: seq<Target>

    constructor ()
      ensures startingBalance == "" && !isSubmitting && error == "" && navigations == []
    {
      startingBalance := "";
      isSubmitting := false;
      error := "";
      navigations := [];
    }

    /** The input's `onChange`. */
    method EnterBalance(text: string)
      modifies this`startingBalance
      ensures startingBalance == text
    {
      startingBalance := text;
    }

    /** Rendering: a missing user after loading pushes the sign-in page. */
    method Render(loading: bool, user: Option<User>) returns (view: View)
      modifies this`navigations
      ensures view == Guard(loading, user)
      ensures navigations == old(navigations) + (if view == RedirectToLogin then [Login] else [])
    {
      view := Guard(loading, user);
      if view == RedirectToLogin {
        navigations := navigations + [Login];
      }
    }

    /** `handleSubmit`; returns the row it tried to upsert, if any. */
    method HandleSubmit(user: Option<User>, parseFloat: string -> Option<real>, now: string, upsert: UpsertOutcome)
      returns (upserted: Option<Record>)
      modifies this`isSubmitting, this`error, this`navigations
      // Without a user nothing happens.
      ensures user.None? ==> upserted.None? && unchanged(this)
      ensures user.Some? ==> startingBalance == old(startingBalance)
      // An unparsable number: the validation message, no upsert.
      ensures user.Some? && parseFloat(startingBalance).None? ==>
        upserted.None? && error == INVALID_NUMBER && !isSubmitting && navigations == old(navigations)
      // Otherwise exactly the setup row is sent.
      ensures user.Some? && parseFloat(startingBalance).Some? ==>
        upserted == Some(SetupRecord(user.value, parseFloat(startingBalance).value, now))
      ensures user.Some? && parseFloat(startingBalance).Some? && upsert.UpsertError? ==>
        error == SAVE_FAILED && !isSubmitting && navigations == old(navigations)
      ensures user.Some? && parseFloat(startingBalance).Some? && upsert.UpsertThrew? ==>
        error == UNEXPECTED && !isSubmitting && navigations == old(navigations)
      // Success navigates home and leaves the button disabled.
      ensures user.Some? && parseFloat(startingBalance).Some? && upsert.UpsertOk? ==>
        error == "" && isSubmitting && navigations == old(navigations) + [Dashboard]
    {
      upserted := None;
      if user.None? {
        return;
      }
      isSubmitting := true;
      error := "";
      var balance := parseFloat(startingBalance);
      if balance.None? {
        error := INVALID_NUMBER;
        isSubmitting := false;
        return;
      }
      upserted := Some(SetupRecord(user.value, balance.value, now));
      match upsert {
        case UpsertThrew =>
          error := UNEXPECTED;
          isSubmitting := false;
        case UpsertError =>
          error := SAVE_FAILED;
          isSubmitting := false;
        case UpsertOk =>
          navigations := navigations + [Dashboard];
      }
    }
  }
}
