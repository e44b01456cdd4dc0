/** The language preference hook (src/hooks/use-language.ts): the state
    starts as English, a mount effect replaces it by the saved preference
    or, failing that, by French when the browser's language is French, and
    `changeLanguage` sets the state and saves it. `localStorage` is a map
    from key to value; `navigator.language` is a parameter. */
module UseLanguage {
  import opened Wrappers
  import opened JsText

  datatype Language = En | Fr

  /** The keys of the object the hook returns: the language and its setter,
      and no translation function. */
  const HookResultKeys: set<string> := {"language", "changeLanguage"}

  /** The key the preference is saved under. */
  const StorageKey: string := "cybersec-language"

  /** The code a language is saved and compared as. */
  function LanguageCode(l: Language): string {
    match l
    case En => "en"
    case Fr => "fr"
  }

  /** `localStorage.getItem(key)`: null when nothing is saved. */
  function GetItem(storage: map<string, string>, key: string): Option<string> {
    if key in storage then Some(storage[key]) else None
  }

  /** The language after the mount effect, from the current one, the saved
      value and the browser's language. A saved "en" or "fr" wins; anything
      else (nothing, the empty string, another code) defers to the browser,
      which can only switch to French. */
  function Resolve(current: Language, saved: Option<string>, browserLanguage: string): (l: Language)
    ensures saved == Some("en") ==> l == En
    ensures saved == Some("fr") ==> l == Fr
    ensures saved != Some("en") && saved != Some("fr") ==>
      l == (if StartsWith(AsciiLower(browserLanguage), "fr") then Fr else current)
  {
    if saved.Some? && saved.value != "" && (saved.value == "en" || saved.value == "fr") then
      (if saved.value == "en" then En else Fr)
    else if StartsWith(AsciiLower(browserLanguage), "fr") then Fr
    else current
  }

  /** A language that was saved is the one the next mount resolves to,
      whatever the browser says. */
  lemma SavedLanguageWins(current: Language, l: Language, browserLanguage: string)
    ensures Resolve(current, Some(LanguageCode(l)), browserLanguage) == l
  {
    if l == Fr {
      assert LanguageCode(l) != "en" by { assert LanguageCode(l)[0] == 'f'; }
    }
  }

  /** Without a valid saved value, French is chosen exactly when the
      browser's language starts with "fr" in any letter case; "FR-ca" and
      "fr" do, "en-US" does not. */
  lemma BrowserDetection(current: Language)
    ensures Resolve(En, None, "FR-ca") == Fr
    ensures Resolve(En, None, "fr") == Fr
    ensures Resolve(En, None, "en-US") == En
    ensures Resolve(current, Some(""), "de") == current
  {
    assert AsciiLower("FR-ca")[..2] == "fr";
    assert AsciiLower("en-US")[0] == 'e';
  }

  /** The hook's state together with the browser storage it reads and writes. */
  class LanguagePreference {
    var language: Language
    var storage: map<string, string>

    /** Before the mount effect has run the language is English. */
    constructor(saved: map<string, string>)
      ensures language == En && storage == saved
    {
      language := En;
      storage := saved;
    }

    /** The mount effect: reads the saved preference and the browser's
        language, and writes nothing to storage. */
    method LoadSavedLanguage(browserLanguage: string)
      modifies this
      ensures language == Resolve(old(language), GetItem(old(storage), StorageKey), browserLanguage)
      ensures storage == old(storage)
    {
      var saved := GetItem(storage, StorageKey);
      if saved.Some? && saved.value != "" && (saved.value == "en" || saved.value == "fr") {
        language := if saved.value == "en" then En else Fr;
      } else {
        var browserLang := AsciiLower(browserLanguage);
        if StartsWith(browserLang, "fr") {
          language := Fr;
        }
      }
    }

    /** `changeLanguage(l)`: sets the state and saves the code under the key. */
    method ChangeLanguage(l: Language)
      modifies this
      ensures language == l
      ensures storage == old(storage)[StorageKey := LanguageCode(l)]
    {
      language := l;
      storage := storage[StorageKey := LanguageCode(l)];
    }
  }

  /** After `changeLanguage(l)`, a fresh mount over the same storage comes
      back to `l`. */
  method ChangeThenRemount(saved: map<string, string>, l: Language, browserLanguage: string) returns (again: Language)
    ensures again == l
  {
    var hook := new LanguagePreference(saved);
    hook.LoadSavedLanguage(browserLanguage);
    hook.ChangeLanguage(l);
    var next := new LanguagePreference(hook.storage);
    next.LoadSavedLanguage(browserLanguage);
    SavedLanguageWins(En, l, browserLanguage);
    again := next.language;
  }
}
