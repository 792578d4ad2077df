/** `LanguageProvider`: the site-wide choice between English and Amharic,
    with the choice remembered in the browser's local storage, modelled as a
    map from keys to stored strings. */
module Language {
  import opened Base

  datatype Lang = En | Am

  /** The language code stored for a language. */
  function Code(l: Lang): string {
    match l
    case En => "en"
    case Am => "am"
  }

  /** The local-storage key the preference is kept under. */
  const StorageKey := "gobishoftu-lang"

  /** The language before any saved preference is read. */
  const Initial := En

  /** Local storage: key to stored string. */
  type Storage = map<string, string>

  /** The other language. */
  function Toggle(l: Lang): (r: Lang)
    ensures r != l
  {
    if l == En then Am else En
  }

  /** Toggling twice comes back to where it started. */
  lemma ToggleInvolution(l: Lang)
    ensures Toggle(Toggle(l)) == l
  {
  }

  /** The state of the provider: the shown language and the storage. */
  datatype Prefs = Prefs(lang: Lang, storage: Storage)

  /** `toggleLanguage`: switch language and store the new code under
      `StorageKey`; no other storage key changes. */
  function ToggleLanguage(s: Prefs): (r: Prefs)
    ensures r.lang == Toggle(s.lang)
    ensures StorageKey in r.storage && r.storage[StorageKey] == Code(r.lang)
    ensures forall k :: k in s.storage && k != StorageKey ==> k in r.storage && r.storage[k] == s.storage[k]
    ensures r.storage.Keys == s.storage.Keys + {StorageKey}
  {
    var l := Toggle(s.lang);
    Prefs(l, s.storage[StorageKey := Code(l)])
  }

  /** The language a stored string names, when it is exactly one of the two
      codes. */
  function Parse(saved: string): (r: Option<Lang>)
    ensures r.Some? <==> saved == "en" || saved == "am"
    ensures r.Some? ==> Code(r.value) == saved
  {
    if saved == "am" then Some(Am)
    else if saved == "en" then Some(En)
    else None
  }

  /** The mount-time effect: a saved preference is applied only if it is
      exactly `"am"` or `"en"`; anything else, or nothing, keeps `s.lang`. */
  function Restore(s: Prefs): (r: Prefs)
    ensures r.storage == s.storage
    ensures StorageKey in s.storage && (s.storage[StorageKey] == "am" || s.storage[StorageKey] == "en")
            ==> Code(r.lang) == s.storage[StorageKey]
    ensures !(StorageKey in s.storage && (s.storage[StorageKey] == "am" || s.storage[StorageKey] == "en"))
            ==> r.lang == s.lang
  {
    if StorageKey in s.storage && Parse(s.storage[StorageKey]).Some? then
      s.(lang := Parse(s.storage[StorageKey]).value)
    else s
  }

  /** A fresh page load: start in English, then apply the saved preference.
      The page comes up in Amharic exactly when `"am"` is stored, and the
      storage is only read. */
  function Mount(storage: Storage): (r: Prefs)
    ensures r.storage == storage
    ensures r.lang == Am <==> StorageKey in storage && storage[StorageKey] == "am"
  {
    Restore(Prefs(Initial, storage))
  }

  /** Round trip through storage: after a toggle, the next page load comes
      up in the toggled language, whatever else the storage holds. */
  lemma ToggleSurvivesReload(s: Prefs)
    ensures Mount(ToggleLanguage(s).storage).lang == ToggleLanguage(s).lang
  {
  }

  /** With nothing stored, or garbage stored, the site comes up in English. */
  lemma MountDefaultsToEnglish(storage: Storage)
    requires StorageKey !in storage || Parse(storage[StorageKey]).None?
    ensures Mount(storage).lang == En
  {
  }
}
