/**
 * App-wide settings: the dark-mode and unit preferences with their manual and
 * follow-the-system modes, the locale rule for imperial units, and the
 * kilometre-to-mile conversion the screens display through.
 */
module AppSettings {
  import opened Wrappers
  import opened Text

  /** Kilometres to miles (and km/h to mph). */
  const MilesPerKm: real := 0.621371

  /**
   * `convertDistance` and `convertSpeed`, which share one rule: a value that is
   * not a number shows as 0, and a number is scaled to miles when `useMiles`.
   * `x` is the result of `parseFloat`, None when that is NaN.
   */
  function Convert(useMiles: bool, x: Option<real>): (r: real)
    ensures x.None? ==> r == 0.0
    ensures x.Some? && !useMiles ==> r == x.value
    ensures x.Some? && useMiles ==> r == x.value * MilesPerKm
  {
    if x.None? then 0.0
    else if useMiles then x.value * MilesPerKm
    else x.value
  }

  /** The conversion keeps order and sign: a longer distance never shows as shorter. */
  lemma ConvertMonotone(useMiles: bool, x: real, y: real)
    requires x <= y
    ensures Convert(useMiles, Some(x)) <= Convert(useMiles, Some(y))
    ensures x >= 0.0 ==> Convert(useMiles, Some(x)) >= 0.0
    ensures useMiles && x > 0.0 ==> Convert(useMiles, Some(x)) < x
  {
  }

  /** What a unit label is for: a distance or a speed. */
  datatype Quantity = Length | Speed

  /** `getDistanceUnit` and `getSpeedUnit`: the label of a quantity in the unit system chosen. */
  function UnitLabel(useMiles: bool, q: Quantity): (u: string)
    ensures q == Length ==> u == "mi" || u == "km"
    ensures q == Speed ==> u == "mph" || u == "km/h"
  {
    match q
    case Length => if useMiles then "mi" else "km"
    case Speed => if useMiles then "mph" else "km/h"
  }

  /** The two labels always name the same system, the imperial one exactly when `useMiles`. */
  lemma UnitLabelsAgree(useMiles: bool)
    ensures UnitLabel(useMiles, Length) == "mi" <==> UnitLabel(useMiles, Speed) == "mph"
    ensures UnitLabel(useMiles, Length) == "mi" <==> useMiles
  {
  }

  /** The United States, Liberia and Myanmar use imperial units: by locale text or by region code. */
  function IsImperial(locale: string, region: string): (b: bool)
    ensures b <==> Contains(locale, "US") || region == "US"
                   || Contains(locale, "LR") || region == "LR"
                   || Contains(locale, "MM") || region == "MM"
  {
    Includes(locale, "US") || region == "US"
    || Includes(locale, "LR") || region == "LR"
    || Includes(locale, "MM") || region == "MM"
  }

  /** A locale naming one of the three countries selects miles whatever the region. */
  lemma ImperialLocale(lang: string, region: string)
    ensures IsImperial(lang + "-US", region)
  {
    var s := lang + "-US";
    assert OccursAt(s, "US", |lang| + 1) by {
      assert s[|lang| + 1..|lang| + 3] == "US";
    }
  }

  datatype SettingsState = SettingsState(
    isDarkMode: bool,
    useManualTheme: bool,
    useMiles: bool,
    useManualUnits: bool)

  /** What AsyncStorage held: a saved theme pair and a saved units pair. */
  datatype ThemePrefs = ThemePrefs(isDarkMode: bool, useManualTheme: bool)
  datatype UnitPrefs = UnitPrefs(useMiles: bool, useManualUnits: bool)

  /**
   * The state after loading: saved preferences when present, otherwise the
   * system colour scheme and the locale's units, neither marked manual.
   */
  function Loaded(theme: Option<ThemePrefs>, units: Option<UnitPrefs>, systemDark: bool,
                  locale: string, region: string): SettingsState
  {
    SettingsState(
      if theme.Some? then theme.value.isDarkMode else systemDark,
      theme.Some? && theme.value.useManualTheme,
      if units.Some? then units.value.useMiles else IsImperial(locale, region),
      units.Some? && units.value.useManualUnits)
  }

  function DarkModeToggled(s: SettingsState): SettingsState {
    s.(useManualTheme := true, isDarkMode := !s.isDarkMode)
  }

  function SystemThemeFollowed(s: SettingsState, systemDark: bool): SettingsState {
    s.(useManualTheme := false, isDarkMode := systemDark)
  }

  /** The appearance listener: only a theme that follows the system changes with it. */
  function SystemThemeChanged(s: SettingsState, systemDark: bool): SettingsState {
    if s.useManualTheme then s else s.(isDarkMode := systemDark)
  }

  function UnitsToggled(s: SettingsState): SettingsState {
    s.(useManualUnits := true, useMiles := !s.useMiles)
  }

  function SystemUnitsFollowed(s: SettingsState, locale: string, region: string): SettingsState {
    s.(useManualUnits := false, useMiles := IsImperial(locale, region))
  }

  /** With nothing saved, the units follow the locale rule and are not manual. */
  lemma LoadedDefaults(systemDark: bool, locale: string, region: string)
    ensures Loaded(None, None, systemDark, locale, region)
         == SystemUnitsFollowed(SystemThemeFollowed(Loaded(None, None, systemDark, locale, region), systemDark), locale, region)
    ensures Loaded(None, None, systemDark, locale, region).useMiles == IsImperial(locale, region)
  {
  }

  /** Toggling twice restores the flag, and leaves the setting manual; the other setting is untouched. */
  lemma ToggleTwice(s: SettingsState)
    ensures UnitsToggled(UnitsToggled(s)).useMiles == s.useMiles && UnitsToggled(s).useManualUnits
    ensures DarkModeToggled(DarkModeToggled(s)).isDarkMode == s.isDarkMode && DarkModeToggled(s).useManualTheme
    ensures UnitsToggled(s).isDarkMode == s.isDarkMode && UnitsToggled(s).useManualTheme == s.useManualTheme
    ensures DarkModeToggled(s).useMiles == s.useMiles && DarkModeToggled(s).useManualUnits == s.useManualUnits
  {
  }

  /** After a manual toggle the theme ignores system changes; after following the system it tracks them. */
  lemma ManualThemeSticks(s: SettingsState, dark: bool)
    ensures SystemThemeChanged(DarkModeToggled(s), dark) == DarkModeToggled(s)
    ensures SystemThemeChanged(SystemThemeFollowed(s, !dark), dark).isDarkMode == dark
  {
  }

  class Settings {
    var isDarkMode: bool
    var useManualTheme: bool
    var useMiles: bool
    var useManualUnits: bool

    function State(): SettingsState
      reads this
    {
      SettingsState(isDarkMode, useManualTheme, useMiles, useManualUnits)
    }

    /** The initial `useState` values. */
    constructor()
      ensures State() == SettingsState(false, false, false, false)
    {
      isDarkMode, useManualTheme, useMiles, useManualUnits := false, false, false, false;
    }

    method LoadSettings(theme: Option<ThemePrefs>, units: Option<UnitPrefs>, systemDark: bool,
                        locale: string, region: string)
      modifies this
      ensures State() == Loaded(theme, units, systemDark, locale, region)
    {
      if theme.Some? {
        isDarkMode := theme.value.isDarkMode;
        useManualTheme := theme.value.useManualTheme;
      } else {
        isDarkMode := systemDark;
        useManualTheme := false;
      }
      if units.Some? {
        useMiles := units.value.useMiles;
        useManualUnits := units.value.useManualUnits;
      } else {
        useMiles := IsImperial(locale, region);
        useManualUnits := false;
      }
    }

    /** `toggleDarkMode`. */
    method ToggleDarkMode()
      modifies this
      ensures State() == DarkModeToggled(old(State()))
    {
      useManualTheme := true;
      isDarkMode := !isDarkMode;
    }

    /** `followSystemTheme`, given the system colour scheme. */
    method FollowSystemTheme(systemDark: bool)
      modifies this
      ensures State() == SystemThemeFollowed(old(State()), systemDark)
    {
      useManualTheme := false;
      isDarkMode := systemDark;
    }

    /** The appearance listener, installed only while the theme is not manual. */
    method OnSystemThemeChange(systemDark: bool)
      modifies this
      ensures State() == SystemThemeChanged(old(State()), systemDark)
    {
      if !useManualTheme {
        isDarkMode := systemDark;
      }
    }

    /** `toggleUnits`. */
    method ToggleUnits()
      modifies this
      ensures State() == UnitsToggled(old(State()))
    {
      useManualUnits := true;
      useMiles := !useMiles;
    }

    /** `followSystemUnits`, given the device locale and region. */
    method FollowSystemUnits(locale: string, region: string)
      modifies this
      ensures State() == SystemUnitsFollowed(old(State()), locale, region)
    {
      useManualUnits := false;
      useMiles := IsImperial(locale, region);
    }
  }
}
