/** The account settings of src/hooks/useUserSettings.tsx: the defaults,
    reading a stored row, the merge that `saveSettings` writes and commits
    only on success, and the reset when the user signs out. The database
    calls are inputs (`LoadOutcome`, `upsertOk`). */
module UserSettings {
  import opened Wrappers

  datatype Settings = Settings(theme: string, currency: string, notifications: bool, liveUpdates: bool)

  const Defaults: Settings := Settings("dark", "USD", true, true)

  /** A stored row; any column may be null. */
  datatype Row = Row(theme: Option<string>, currency: Option<string>, notifications: Option<bool>, liveUpdates: Option<bool>)

  /** `value || fallback` on a string column: null and "" are falsy. */
  function OrString(value: Option<string>, fallback: string): (r: string)
    ensures value.Some? && value.value != "" ==> r == value.value
    ensures value.None? || value.value == "" ==> r == fallback
  {
    if value.Some? && value.value != "" then value.value else fallback
  }

  /** The settings read from a row: the two strings fall back on any falsy
      value, the two flags only on null, so a stored `false` is kept. */
  function FromRow(row: Row): (s: Settings)
    ensures s.theme == OrString(row.theme, Defaults.theme)
    ensures s.currency == OrString(row.currency, Defaults.currency)
    ensures !s.notifications <==> row.notifications == Some(false)
    ensures !s.liveUpdates <==> row.liveUpdates == Some(false)
  {
    Settings(OrString(row.theme, "dark"), OrString(row.currency, "USD"),
      row.notifications.GetOr(true), row.liveUpdates.GetOr(true))
  }

  /** A row of nulls gives the defaults. */
  lemma EmptyRowGivesDefaults()
    ensures FromRow(Row(None, None, None, None)) == Defaults
    ensures FromRow(Row(Some(""), Some(""), None, None)) == Defaults
  {
  }

  /** The fields a caller supplies to `saveSettings`. */
  datatype Patch = Patch(theme: Option<string>, currency: Option<string>, notifications: Option<bool>, liveUpdates: Option<bool>)

  /** `{ ...settings, ...newSettings }`: supplied fields replace the
      current ones, the others are kept. */
  function Merge(current: Settings, patch: Patch): (s: Settings)
    ensures patch.theme.Some? ==> s.theme == patch.theme.value
    ensures patch.theme.None? ==> s.theme == current.theme
    ensures patch.currency.Some? ==> s.currency == patch.currency.value
    ensures patch.currency.None? ==> s.currency == current.currency
    ensures patch.notifications.Some? ==> s.notifications == patch.notifications.value
    ensures patch.notifications.None? ==> s.notifications == current.notifications
    ensures patch.liveUpdates.Some? ==> s.liveUpdates == patch.liveUpdates.value
    ensures patch.liveUpdates.None? ==> s.liveUpdates == current.liveUpdates
  {
    Settings(patch.theme.GetOr(current.theme), patch.currency.GetOr(current.currency),
      patch.notifications.GetOr(current.notifications), patch.liveUpdates.GetOr(current.liveUpdates))
  }

  /** Saving nothing keeps the settings, and saving the same fields twice is
      the same as saving them once. */
  lemma MergeLaws(current: Settings, patch: Patch)
    ensures Merge(current, Patch(None, None, None, None)) == current
    ensures Merge(Merge(current, patch), patch) == Merge(current, patch)
  {
  }

  /** How the read of the row ended: a row, the "no rows" code PGRST116
      (not an error), another error code, or no data at all. */
  datatype LoadOutcome = Loaded(row: Row) | NoRows | Failed(code: string) | NoData

  const NoRowsCode: string := "PGRST116"

  /** An outcome is logged as an error only when it carries a code other
      than PGRST116. */
  function IsLoadError(code: Option<string>): (b: bool)
    ensures b <==> code.Some? && code.value != NoRowsCode
  {
    code.Some? && code.value != NoRowsCode
  }

  /** A save as the hook reports it: `ok` is the returned flag and
      `written` the values sent to the database, if any. */
  datatype SaveReport = SaveReport(ok: bool, written: Option<Settings>)

  class SettingsHook {
    var signedIn: bool
    var settings: Settings
    var loading: bool

    constructor(signedIn: bool)
      ensures this.signedIn == signedIn && settings == Defaults && !loading
    {
      this.signedIn := signedIn;
      settings := Defaults;
      loading := false;
    }

    /** `loadSettings`: signed out it does nothing; otherwise only a row
        replaces the settings, and loading is off again at the end. The
        result says whether an error was logged. */
    method LoadSettings(outcome: LoadOutcome) returns (errorLogged: bool)
      modifies this
      ensures !old(signedIn) ==> settings == old(settings) && loading == old(loading) && !errorLogged
      ensures old(signedIn) && outcome.Loaded? ==> settings == FromRow(outcome.row)
      ensures old(signedIn) && !outcome.Loaded? ==> settings == old(settings)
      ensures old(signedIn) ==> !loading && (errorLogged <==> outcome.Failed? && IsLoadError(Some(outcome.code)))
      ensures signedIn == old(signedIn)
    {
      errorLogged := false;
      if !signedIn {
        return;
      }
      loading := true;
      match outcome {
        case Loaded(row) => settings := FromRow(row);
        case NoRows =>
        case Failed(code) => errorLogged := IsLoadError(Some(code));
        case NoData =>
      }
      loading := false;
    }

    /** `saveSettings`: signed out it reports failure and writes nothing;
        otherwise it writes the merge and commits it only when the write
        succeeded. */
    method SaveSettings(patch: Patch, upsertOk: bool) returns (report: SaveReport)
      modifies this
      ensures !old(signedIn) ==> report == SaveReport(false, None) && settings == old(settings)
      ensures old(signedIn) ==> report.written == Some(Merge(old(settings), patch))
      ensures old(signedIn) ==> (report.ok <==> upsertOk)
      ensures old(signedIn) && upsertOk ==> settings == Merge(old(settings), patch)
      ensures !(old(signedIn) && upsertOk) ==> settings == old(settings)
      ensures signedIn == old(signedIn) && loading == old(loading)
    {
      if !signedIn {
        return SaveReport(false, None);
      }
      var updated := Merge(settings, patch);
      if upsertOk {
        settings := updated;
      }
      report := SaveReport(upsertOk, Some(updated));
    }

    /** The effect on a change of user: a signed-in user's settings are
        loaded, signing out resets them to the defaults. */
    method UserChanged(nowSignedIn: bool, outcome: LoadOutcome)
      modifies this
      ensures signedIn == nowSignedIn
      ensures !nowSignedIn ==> settings == Defaults && loading == old(loading)
      ensures nowSignedIn && outcome.Loaded? ==> settings == FromRow(outcome.row)
      ensures nowSignedIn && !outcome.Loaded? ==> settings == old(settings)
      ensures nowSignedIn ==> !loading
    {
      signedIn := nowSignedIn;
      if nowSignedIn {
        var _ := LoadSettings(outcome);
      } else {
        settings := Defaults;
      }
    }
  }
}
