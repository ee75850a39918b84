/** The chat header: which language it shows, the language toggle and
    whether the role switcher appears. The language context is a field the
    toggle sets; localStorage is a `Storage` object. */
module ChatHeader {
  import opened Common
  import opened Storage

  /** `selectedLanguage || contextLanguage || 'EN'`. */
  function Language(selected: Option<string>, context: Option<string>): (r: string)
    ensures r != ""
    ensures OrElse(selected, "") != "" ==> r == selected.value
    ensures OrElse(selected, "") == "" && OrElse(context, "") != "" ==> r == context.value
    ensures OrElse(selected, "") == "" && OrElse(context, "") == "" ==> r == "EN"
  {
    OrElse(selected, OrElse(context, "EN"))
  }

  /** The toggle: English goes to Spanish, anything else to English. */
  function Toggled(language: string): (r: string)
    ensures r in {"EN", "ES"}
  {
    if language == "EN" then "ES" else "EN"
  }

  /** Toggling alternates between the two languages, so two toggles from
      'EN' or 'ES' come back; from any other language the toggle goes to
      'EN'. */
  lemma ToggleSpec(language: string)
    ensures language in {"EN", "ES"} ==> Toggled(Toggled(language)) == language && Toggled(language) != language
    ensures language !in {"EN", "ES"} ==> Toggled(language) == "EN" && Toggled(Toggled(language)) == "ES"
  {
  }

  /** After a toggle the header shows the new language when no language is
      passed in; a language passed in still wins over the context. */
  lemma ToggleShows(selected: Option<string>, context: Option<string>)
    ensures OrElse(selected, "") == "" ==>
      Language(selected, Some(Toggled(Language(selected, context)))) == Toggled(Language(selected, context))
    ensures OrElse(selected, "") != "" ==>
      Language(selected, Some(Toggled(Language(selected, context)))) == Language(selected, context)
  {
  }

  /** `userRole && onRoleChange`. */
  predicate ShowsRoleSwitcher(userRole: Option<string>, hasRoleChange: bool) {
    OrElse(userRole, "") != "" && hasRoleChange
  }

  /** The switcher needs both a role and a handler: without either, or
      with an empty role, it is hidden. */
  lemma RoleSwitcherSpec(userRole: Option<string>, hasRoleChange: bool)
    ensures ShowsRoleSwitcher(userRole, hasRoleChange) <==> userRole.Some? && userRole.value != "" && hasRoleChange
    ensures ShowsRoleSwitcher(userRole, hasRoleChange) ==> ShowsRoleSwitcher(userRole, true)
    ensures !ShowsRoleSwitcher(userRole, false) && !ShowsRoleSwitcher(None, hasRoleChange)
  {
  }

  class Header {
    const selectedLanguage: Option<string>
    const hasLanguageChange: bool
    /** The language context's value, which `setLanguage` replaces. */
    var contextLanguage: Option<string>
    /** How many times `onLanguageChange` ran. */
    var languageChanges: nat

    constructor(selected: Option<string>, callback: bool, context: Option<string>)
      ensures selectedLanguage == selected && hasLanguageChange == callback && contextLanguage == context
      ensures languageChanges == 0
    {
      selectedLanguage := selected;
      hasLanguageChange := callback;
      contextLanguage := context;
      languageChanges := 0;
    }

    function Shown(): string
      reads this
    {
      Language(selectedLanguage, contextLanguage)
    }

    /** `handleLanguageToggle`: the toggled language goes to the context
        and to `preferredLanguage`, and the callback runs when there is
        one. */
    method HandleLanguageToggle(storage: LocalStorage)
      modifies this, storage
      ensures contextLanguage == Some(Toggled(old(Shown())))
      ensures storage.items == old(storage.items)["preferredLanguage" := Toggled(old(Shown()))]
      ensures languageChanges == old(languageChanges) + (if hasLanguageChange then 1 else 0)
    {
      var newLanguage := if Shown() == "EN" then "ES" else "EN";
      contextLanguage := Some(newLanguage);
      storage.SetItem("preferredLanguage", newLanguage);
      if hasLanguageChange {
        languageChanges := languageChanges + 1;
      }
    }
  }
}
