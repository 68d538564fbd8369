/**
 * The profile page: loading the row, editing `current_balance`, saving and cancelling.
 * `parseFloat` is an oracle (`None` for NaN), number formatting (`toString`) is an oracle,
 * and the clock is a parameter.
 */
module ProfilePage {
  import opened Wrappers
  import opened Entities

  const LOAD_FAILED := "Failed to load profile"
  const LOAD_UNEXPECTED := "An unexpected error occurred"
  const INVALID_NUMBER := "Please enter a valid number"
  const UPDATE_FAILED := "Failed to update balance. Please try again."
  const SAVE_UNEXPECTED := "An unexpected error occurred. Please try again."
  const UPDATED := "Balance updated successfully!"

  /** `String(v)` for a value; `None` for `null`, on which `?.toString()` stops. */
  function ValueText(v: Value, numberText: real -> string): Option<string> {
    match v
    case Null => None
    case Bool(b) => Some(if b then "true" else "false")
    case Num(n) => Some(numberText(n))
    case Text(s) => Some(s)
  }

  /** `profile?.current_balance?.toString() || "0"`. */
  function BalanceText(profile: Option<Record>, numberText: real -> string): (text: string)
    ensures text != ""
    ensures profile.None? || CURRENT_BALANCE !in profile.value ==> text == "0"
    ensures profile.Some? && CURRENT_BALANCE in profile.value && profile.value[CURRENT_BALANCE].Num?
            && numberText(profile.value[CURRENT_BALANCE].n) != "" ==>
            text == numberText(profile.value[CURRENT_BALANCE].n)
    ensures profile.Some? && CURRENT_BALANCE in profile.value && profile.value[CURRENT_BALANCE].Null? ==> text == "0"
    ensures profile.Some? && CURRENT_BALANCE in profile.value && profile.value[CURRENT_BALANCE].Text?
            && profile.value[CURRENT_BALANCE].s != "" ==>
            text == profile.value[CURRENT_BALANCE].s
  {
    if profile.None? || CURRENT_BALANCE !in profile.value then "0"
    else
      var t := ValueText(profile.value[CURRENT_BALANCE], numberText);
      if t.None? || t.value == "" then "0" else t.value
  }

  /** `{ ...prev, current_balance: balance }`. */
  function WithBalance(profile: Record, balance: real): (r: Record)
    ensures r.Keys == profile.Keys + {CURRENT_BALANCE}
    ensures r[CURRENT_BALANCE] == Num(balance)
    ensures forall k :: k in profile && k != CURRENT_BALANCE ==> r[k] == profile[k]
  {
    profile[CURRENT_BALANCE := Num(balance)]
  }

  /** Overwriting the balance twice keeps only the second value. */
  lemma WithBalanceLastWins(profile: Record, a: real, b: real)
    ensures WithBalance(WithBalance(profile, a), b) == WithBalance(profile, b)
  {
  }

  /** The `update(...)` payload: nothing but the new balance and the timestamp. */
  function UpdatePayload(balance: real, now: string): (r: Record)
    ensures r.Keys == {CURRENT_BALANCE, "updated_at"}
    ensures r[CURRENT_BALANCE] == Num(balance) && r["updated_at"] == Text(now)
  {
    map[CURRENT_BALANCE := Num(balance), "updated_at" := Text(now)]
  }

  /** Applying the payload to the stored row changes the balance as the page's copy does. */
  lemma PayloadMatchesLocalCopy(row: Record, balance: real, now: string)
    ensures (row + UpdatePayload(balance, now))[CURRENT_BALANCE] == WithBalance(row, balance)[CURRENT_BALANCE]
    ensures forall k :: k in row && k != CURRENT_BALANCE && k != "updated_at" ==>
      (row + UpdatePayload(balance, now))[k] == WithBalance(row, balance)[k]
  {
  }

  /** `select("*")...single()`: the row, an error, or a throw. */
  datatype FetchOutcome = Fetched(data: Record) | FetchError | FetchThrew

  /** `update(...).eq("id", ...)`: no error, an error, or a throw. */
  datatype UpdateOutcome = UpdateOk | UpdateError | UpdateThrew

  /** A sent update: the row's id and the payload. */
  datatype UpdateRequest = UpdateRequest(userId: string, payload: Record)

  class Page {
    var profile: Option<Record>
    var profileLoading: bool
    var isEditing: bool
    var currentBalance: string
    var isSaving: bool
    var error: string
    var success: string

    /** Between handlers no save is in flight, and a loaded profile means loading is over. */
    predicate Valid()
      reads this
    {
      !isSaving && (profile.Some? ==> !profileLoading)
    }

    constructor ()
      ensures Valid()
      ensures profile.None? && profileLoading && !isEditing && currentBalance == ""
      ensures !isSaving && error == "" && success == ""
    {
      profile := None;
      profileLoading := true;
      isEditing := false;
      currentBalance := "";
      isSaving := false;
      error := "";
      success := "";
    }

    /** `fetchProfile`; returns the id it queried, if any. */
    method FetchProfile(user: Option<User>, outcome: FetchOutcome, numberText: real -> string)
      returns (queried: Option<string>)
      requires Valid()
      modifies this
      ensures Valid()
      ensures user.None? ==> queried.None? && unchanged(this)
      ensures user.Some? ==> queried == Some(user.value.id) && !profileLoading
      ensures user.Some? && outcome.Fetched? ==>
        profile == Some(outcome.data) && currentBalance == BalanceText(Some(outcome.data), numberText)
        && error == old(error)
      ensures user.Some? && !outcome.Fetched? ==>
        profile == old(profile) && currentBalance == old(currentBalance)
        && error == (if outcome.FetchError? then LOAD_FAILED else LOAD_UNEXPECTED)
      ensures isEditing == old(isEditing) && isSaving == old(isSaving) && success == old(success)
    {
      queried := None;
      if user.None? {
        return;
      }
      queried := Some(user.value.id);
      match outcome {
        case FetchError =>
          error := LOAD_FAILED;
        case Fetched(data) =>
          profile := Some(data);
          currentBalance := BalanceText(Some(data), numberText);
        case FetchThrew =>
          error := LOAD_UNEXPECTED;
      }
      profileLoading := false;
    }

    /** The Edit button. */
    method StartEditing()
      requires Valid()
      modifies this`isEditing
      ensures Valid() && isEditing
    {
      isEditing := true;
    }

    /** The input's `onChange`. */
    method EnterBalance(text: string)
      requires Valid()
      modifies this`currentBalance
      ensures Valid() && currentBalance == text
    {
      currentBalance := text;
    }

    /** `handleSave`; returns the update it sent, if any. */
    method HandleSave(user: Option<User>, parseFloat: string -> Option<real>, now: string, outcome: UpdateOutcome)
      returns (sent: Option<UpdateRequest>)
      requires Valid()
      modifies this
      ensures Valid()
      // The guard: without both a user and a profile nothing happens.
      ensures user.None? || old(profile).None? ==> sent.None? && unchanged(this)
      ensures currentBalance == old(currentBalance) && profileLoading == old(profileLoading)
      ensures user.Some? && old(profile).Some? ==> (
        var balance := parseFloat(old(currentBalance));
        if balance.None? then
          sent.None? && error == INVALID_NUMBER && success == ""
          && profile == old(profile) && isEditing == old(isEditing)
        else
          && sent == Some(UpdateRequest(user.value.id, UpdatePayload(balance.value, now)))
          && (outcome.UpdateOk? ==>
                profile == Some(WithBalance(old(profile).value, balance.value))
                && error == "" && success == UPDATED && !isEditing)
          && (!outcome.UpdateOk? ==>
                profile == old(profile) && isEditing == old(isEditing) && success == ""
                && error == (if outcome.UpdateError? then UPDATE_FAILED else SAVE_UNEXPECTED)))
    {
      sent := None;
      if user.None? || profile.None? {
        return;
      }
      isSaving := true;
      error := "";
      success := "";
      var balance := parseFloat(currentBalance);
      if balance.None? {
        error := INVALID_NUMBER;
        isSaving := false;
        return;
      }
      sent := Some(UpdateRequest(user.value.id, UpdatePayload(balance.value, now)));
      match outcome {
        case UpdateError =>
          error := UPDATE_FAILED;
        case UpdateOk =>
          profile := Some(WithBalance(profile.value, balance.value));
          success := UPDATED;
          isEditing := false;
        case UpdateThrew =>
          error := SAVE_UNEXPECTED;
      }
      isSaving := false;
    }

    /** `handleCancel`. */
    method HandleCancel(numberText: real -> string)
      requires Valid()
      modifies this`currentBalance, this`isEditing, this`error, this`success
      ensures Valid()
      ensures currentBalance == BalanceText(profile, numberText)
      ensures !isEditing && error == "" && success == ""
    {
      currentBalance := BalanceText(profile, numberText);
      isEditing := false;
      error := "";
      success := "";
    }
  }
}
