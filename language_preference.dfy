/** The `preferred-language` entry of the browser's local storage, which
    the header and the landing page write and the landing page reads back.
    The storage is a map from key to stored text. */
module LanguagePreference {
  import opened Results

  /** The storage key. */
  const Key := "preferred-language"

  /** `localStorage.getItem(Key)`: `null` (here `None`) when the key was
      never written. */
  function Load(store: map<string, string>): (r: Option<string>)
    ensures r.Some? <==> Key in store
    ensures r.Some? ==> r.value == store[Key]
  {
    if Key in store then Some(store[Key]) else None
  }

  /** `localStorage.setItem(Key, lang)`: only that entry changes. */
  function Save(store: map<string, string>, lang: string): (r: map<string, string>)
    ensures r.Keys == store.Keys + {Key} && r[Key] == lang
    ensures forall k :: k in store && k != Key ==> r[k] == store[k]
  {
    store[Key := lang]
  }

  /** What is saved is what is loaded next. */
  lemma LoadAfterSave(store: map<string, string>, lang: string)
    ensures Load(Save(store, lang)) == Some(lang)
  {
  }
}
