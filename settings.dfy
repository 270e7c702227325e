/** The settings page (src/pages/Settings.tsx): the profile and appearance schemas, the theme
    chosen at start-up, what submitting a theme does to the stored preference and to the page's
    "dark" class, and the avatar initials. `localStorage` is a `Storage.Store`, the
    `prefers-color-scheme: dark` media query a boolean, and the email check of the schema library
    the parameter `isEmail`. */
module Settings {
  import opened Wrappers
  import opened Types
  import opened Text
  import opened Storage

  datatype ProfileValues = ProfileValues(
    name: string,
    email: string,
    bio: Option<string>,
    title: Option<string>,
    department: Option<string>)

  datatype FieldError = FieldError(field: string, message: string)

  /** `profileFormSchema`: the field errors in field order. */
  function ProfileErrors(v: ProfileValues, isEmail: string -> bool): (r: seq<FieldError>)
    ensures r == [] <==> |v.name| >= 2 && isEmail(v.email) && (v.bio.Some? ==> |v.bio.value| <= 500)
    ensures |r| <= 3
  {
    (if |v.name| < 2 then [FieldError("name", "Name must be at least 2 characters")] else []) +
    (if !isEmail(v.email) then [FieldError("email", "Invalid email address")] else []) +
    (if v.bio.Some? && |v.bio.value| > 500 then [FieldError("bio", "Bio must be less than 500 characters")] else [])
  }

  /** The profile form's initial values, from the signed-in user. */
  function ProfileDefaults(user: Option<User>): (v: ProfileValues)
    ensures v.bio == Some("")
    ensures user.Some? ==> v.name == user.value.name && v.email == user.value.email
    ensures user.None? ==> v.name == "" && v.email == "" && v.title == Some("") && v.department == Some("")
  {
    ProfileValues(
      if user.Some? then user.value.name else "",
      if user.Some? then user.value.email else "",
      Some(""),
      Some(if user.Some? && TruthyString(user.value.title) then user.value.title.value else ""),
      Some(if user.Some? && TruthyString(user.value.department) then user.value.department.value else ""))
  }

  /** The three values of `appearanceFormSchema`. */
  datatype Theme = Light | Dark | System

  function ThemeName(t: Theme): string
  {
    match t
    case Light => "light"
    case Dark => "dark"
    case System => "system"
  }

  /** `z.enum(["light", "dark", "system"])` on a submitted string. */
  function ParseTheme(s: string): (r: Option<Theme>)
    ensures r.Some? <==> s == "light" || s == "dark" || s == "system"
    ensures r.Some? ==> ThemeName(r.value) == s
  {
    if s == "light" then Some(Light)
    else if s == "dark" then Some(Dark)
    else if s == "system" then Some(System)
    else None
  }

  const ThemeKey := "theme"

  /** The theme state after the start-up effect: a stored (non-empty) preference wins, whatever
      string it is; otherwise "system" when the system prefers dark; otherwise the initial
      "light". */
  function StartupTheme(storage: Store, prefersDark: bool): (r: string)
    ensures TruthyString(GetItem(storage, ThemeKey)) ==> r == storage[ThemeKey]
    ensures !TruthyString(GetItem(storage, ThemeKey)) ==> r == (if prefersDark then "system" else "light")
  {
    var stored := GetItem(storage, ThemeKey);
    if TruthyString(stored) then stored.value
    else if prefersDark then "system"
    else "light"
  }

  /** The stored preferences after submitting theme `t`. */
  function StoredAfter(storage: Store, t: Theme): (r: Store)
    ensures t == System ==> ThemeKey !in r
    ensures t != System ==> ThemeKey in r && r[ThemeKey] == ThemeName(t)
    ensures forall k :: k != ThemeKey ==> (k in r <==> k in storage) && (k in r ==> r[k] == storage[k])
  {
    if t == System then storage - {ThemeKey} else storage[ThemeKey := ThemeName(t)]
  }

  /** Whether the page carries the "dark" class after submitting theme `t`. */
  predicate DarkAfter(t: Theme, prefersDark: bool)
  {
    t == Dark || (t == System && prefersDark)
  }

  /** A light or dark choice comes back after a reload as the same theme; "system" comes back as
      "system" only when the system prefers dark, and as "light" otherwise. */
  lemma ThemeSurvivesReload(storage: Store, t: Theme, prefersDark: bool)
    ensures t != System ==> StartupTheme(StoredAfter(storage, t), prefersDark) == ThemeName(t)
    ensures t == System ==> StartupTheme(StoredAfter(storage, t), prefersDark) == (if prefersDark then "system" else "light")
  {
  }

  /** Either way the reloaded theme agrees with the "dark" class the submit set. */
  lemma ReloadKeepsDarkness(storage: Store, t: Theme, prefersDark: bool)
    ensures var reloaded := ParseTheme(StartupTheme(StoredAfter(storage, t), prefersDark));
            reloaded.Some? && DarkAfter(reloaded.value, prefersDark) == DarkAfter(t, prefersDark)
  {
    ThemeSurvivesReload(storage, t, prefersDark);
  }

  /** The theme part of the page: the `theme` state, `localStorage` and whether
      `document.documentElement` has the "dark" class. */
  class ThemeSettings {
    var theme: string
    var storage: Store
    var darkClass: bool

    /** Mounting the page: the state starts as "light" and the effect reads the stored theme.
        The class list is left as it was. */
    constructor (storage: Store, prefersDark: bool, darkClass: bool)
      ensures this.theme == StartupTheme(storage, prefersDark)
      ensures this.storage == storage && this.darkClass == darkClass
    {
      this.storage := storage;
      this.darkClass := darkClass;
      theme := "light";
      var stored := GetItem(storage, ThemeKey);
      if TruthyString(stored) {
        theme := stored.value;
      } else if prefersDark {
        theme := "system";
      }
    }

    /** `onAppearanceSubmit`. */
    method SubmitAppearance(t: Theme, prefersDark: bool)
      modifies this
      ensures theme == ThemeName(t)
      ensures darkClass == DarkAfter(t, prefersDark)
      ensures storage == StoredAfter(old(storage), t)
    {
      theme := ThemeName(t);
      if t == System {
        darkClass := prefersDark;
        storage := storage - {ThemeKey};
      } else {
        darkClass := t == Dark;
        storage := storage[ThemeKey := ThemeName(t)];
      }
    }
  }

  /** The avatar fallback: the name's initials, or "U" without a name. */
  function AvatarFallback(user: Option<User>): (r: string)
    ensures 1 <= |r| <= 2 || (r == "" && user.Some?)
    ensures user.None? || user.value.name == "" ==> r == "U"
    ensures user.Some? && user.value.name != "" ==> r == Initials(user.value.name)
  {
    if user.Some? && user.value.name != "" then Initials(user.value.name) else "U"
  }
}
