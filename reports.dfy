/**
 * The reports page's settings and user controls: `saveSettings`, which
 * clamps the cashiers' share to a percentage and writes the clamped value
 * back into the form before saving it, and the guard of
 * `toggleUserActive`. Its `getBillSharePct` is `JoinedProfileSharePct` and
 * its date presets are `DateRange`.
 */
module Reports {
  import opened Wrappers
  import opened Records

  const SaveSettingsFailedMessage: string := "تعذر حفظ نسبة الكاشير."

  /** `Math.max(0, Math.min(100, Number.isFinite(raw) ? raw : 0))`. */
  function ClampShare(raw: JsNumber): (r: real)
    ensures 0.0 <= r <= 100.0
    ensures raw.NonFinite? ==> r == 0.0
    ensures raw.Finite? && 0.0 <= raw.value <= 100.0 ==> r == raw.value
    ensures raw.Finite? && raw.value > 100.0 ==> r == 100.0
    ensures raw.Finite? && raw.value < 0.0 ==> r == 0.0
  {
    var value := if raw.Finite? then raw.value else 0.0;
    var capped := if value < 100.0 then value else 100.0;
    if capped > 0.0 then capped else 0.0
  }

  /** Saving a saved value again saves the same value. */
  lemma ClampShareIdempotent(raw: JsNumber)
    ensures ClampShare(Finite(ClampShare(raw))) == ClampShare(raw)
  {
  }

  /**
   * Once the clamped share is the configured one, every bill whose stored
   * share is at most 100 (or missing) gets a share between 0 and 100.
   */
  lemma SavedShareIsPercentage(raw: JsNumber, b: Bill)
    requires b.sharePct.Some? ==> b.sharePct.value <= 100.0
    ensures 0.0 <= JoinedProfileSharePct(b, Some(ClampShare(raw))) <= 100.0
  {
    SharePctBounds(b.sharePct, ProfileRole(b), Some(ClampShare(raw)));
  }

  /** The settings form of the reports page. */
  class SettingsForm {
    var cashierSharePct: JsNumber
    var settingsSaving: bool
    var settingsError: string

    /** The form as `data()` sets it up. */
    constructor ()
      ensures cashierSharePct == Finite(0.0) && !settingsSaving && settingsError == ""
    {
      cashierSharePct, settingsSaving, settingsError := Finite(0.0), false, "";
    }

    /**
     * `saveSettings`: the clamped share replaces what the input held and
     * is the value sent; when the upsert fails the form shows the save
     * error, otherwise no error; either way saving is over.
     */
    method SaveSettings(upsertFails: bool) returns (sent: real)
      modifies this
      ensures sent == ClampShare(old(cashierSharePct))
      ensures cashierSharePct == Finite(sent)
      ensures !settingsSaving
      ensures settingsError == (if upsertFails then SaveSettingsFailedMessage else "")
    {
      var nextValue := ClampShare(cashierSharePct);
      cashierSharePct := Finite(nextValue);
      settingsSaving := true;
      settingsError := "";
      sent := nextValue;
      settingsSaving := false;
      if upsertFails {
        settingsError := SaveSettingsFailedMessage;
      }
    }
  }

  /** A row of the users table: its role and its `active` flag, which may be missing. */
  datatype UserRow = UserRow(id: Id, role: Option<string>, active: Option<bool>)

  /** JavaScript truthiness of the `active` flag. */
  predicate IsActive(user: UserRow) {
    user.active == Some(true)
  }

  /** `toggleUserActive(user)`: nothing for a user who is not a cashier, otherwise the update `active := !user.active`. */
  function ToggleRequest(user: UserRow): (r: Option<bool>)
    ensures r.Some? <==> user.role == Some(CashierRole)
    ensures r.Some? ==> (r.value <==> !IsActive(user))
  {
    if user.role != Some(CashierRole) then None else Some(!IsActive(user))
  }

  /** The row after the update is applied. */
  function Applied(user: UserRow, r: Option<bool>): UserRow {
    if r.Some? then user.(active := Some(r.value)) else user
  }

  /**
   * Toggling a cashier twice gives back the flag it had when that was set,
   * and a cashier without a flag ends up active after one toggle.
   */
  lemma ToggleTwice(user: UserRow)
    ensures var once := Applied(user, ToggleRequest(user));
            user.active.Some? ==> Applied(once, ToggleRequest(once)) == user
    ensures user.role == Some(CashierRole) && user.active.None? ==> Applied(user, ToggleRequest(user)).active == Some(true)
  {
    var once := Applied(user, ToggleRequest(user));
    if user.role == Some(CashierRole) && user.active.Some? {
      assert once == user.(active := Some(!user.active.value));
    }
  }
}
