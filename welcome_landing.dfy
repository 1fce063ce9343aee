/** The landing page's language: loaded from the storage on mount, saved
    on every change, and used to pick the page's content with English as
    the fallback. */
module WelcomeLanding {
  import opened Results
  import LanguagePreference

  /** The content tables the page holds; their texts are left out. */
  datatype Content = English | Hindi

  /** `content?.[code] || content?.en`: only `en` and `hi` have a table. */
  function ContentFor(code: string): (c: Content)
    ensures c == Hindi <==> code == "hi"
  {
    if code == "hi" then Hindi else English
  }

  /** The codes the language selector offers. */
  const SelectorCodes: seq<string> := ["en", "hi", "gu", "pa", "or"]

  /** Gujarati, Punjabi and Odia can be chosen but have no table, so they
      render the English page; only Hindi changes the content. */
  lemma SelectorCodesFallBack(i: nat)
    requires i < |SelectorCodes|
    ensures ContentFor(SelectorCodes[i]) == (if SelectorCodes[i] == "hi" then Hindi else English)
    ensures SelectorCodes[i] in {"gu", "pa", "or"} ==> ContentFor(SelectorCodes[i]) == English
  {
  }

  /** The language the mount effect leaves: a stored value that is present
      and not empty replaces the initial `en`. */
  function LanguageOnMount(stored: Option<string>): (lang: string)
    ensures stored.Some? && stored.value != "" ==> lang == stored.value
    ensures stored.None? || stored.value == "" ==> lang == "en"
  {
    if stored.Some? && stored.value != "" then stored.value else "en"
  }

  /** The page's state together with the storage it reads and writes. */
  class LandingPage {
    var currentLanguage: string
    var store: map<string, string>

    /** The content the page renders. */
    function Shown(): Content
      reads this
    {
      ContentFor(currentLanguage)
    }

    /** The first render followed by the mount effect. */
    constructor (stored: map<string, string>)
      ensures store == stored
      ensures currentLanguage == LanguageOnMount(LanguagePreference.Load(stored))
    {
      store := stored;
      currentLanguage := LanguageOnMount(LanguagePreference.Load(stored));
    }

    /** `handleLanguageChange`: the state and the storage both become
        `code`. */
    method LanguageChange(code: string)
      modifies this
      ensures currentLanguage == code && store == LanguagePreference.Save(old(store), code)
      ensures Shown() == ContentFor(code)
    {
      currentLanguage := code;
      store := LanguagePreference.Save(store, code);
    }
  }

  /** A choice survives a reload: the page mounted on the storage a change
      left behind starts in the chosen language, unless the code was empty,
      which the mount effect ignores. */
  lemma ChoiceSurvivesReload(store: map<string, string>, code: string)
    ensures var reloaded := LanguageOnMount(LanguagePreference.Load(LanguagePreference.Save(store, code)));
      (code != "" ==> reloaded == code) && (code == "" ==> reloaded == "en")
  {
    LanguagePreference.LoadAfterSave(store, code);
  }
}
