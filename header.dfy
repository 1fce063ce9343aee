/** The application header: two dropdowns that are never open together,
    the notification badge, and the language it shows and saves. */
module Header {
  import opened Results
  import opened Lookups
  import LanguagePreference

  /** A header notification; its text and time are left out. */
  datatype Notification = Notification(id: nat, kind: string)

  /** The fixed list of notifications the header shows. */
  const Notifications: seq<Notification> := [
    Notification(1, "warning"), Notification(2, "success"), Notification(3, "info")
  ]

  /** The number on the bell, `None` when the badge is not rendered:
      `notifications?.length > 0 && …{notifications?.length}`. */
  function BellBadge(list: seq<Notification>): (r: Option<nat>)
    ensures r.Some? <==> list != []
    ensures r.Some? ==> r.value == |list| && r.value > 0
  {
    if |list| > 0 then Some(|list|) else None
  }

  /** The fixed list puts a 3 on the bell. */
  lemma BellShowsThree()
    ensures BellBadge(Notifications) == Some(3)
  {
  }

  /** The colour of a notification's dot: warning and success have their
      own, every other type the primary colour. */
  function DotColor(n: Notification): (c: string)
    ensures c == "bg-warning" <==> n.kind == "warning"
    ensures c == "bg-success" <==> n.kind == "success"
    ensures c == "bg-primary" <==> n.kind != "warning" && n.kind != "success"
  {
    if n.kind == "warning" then "bg-warning"
    else if n.kind == "success" then "bg-success"
    else "bg-primary"
  }

  /** The name and flag of a language the header knows. */
  datatype LanguageLabel = LanguageLabel(name: string, flag: string)

  /** The header's `languages` list. */
  const Languages: seq<(string, LanguageLabel)> := [
    ("en", LanguageLabel("English", "🇺🇸")), ("hi", LanguageLabel("हिंदी", "🇮🇳")),
    ("te", LanguageLabel("తెలుగు", "🇮🇳")), ("ta", LanguageLabel("தமிழ்", "🇮🇳"))
  ]

  /** `languages?.find(lang => lang?.code === language)`: the label shown
      on the language button, nothing for a code outside the list. */
  function Label(code: string): (r: Option<LanguageLabel>)
    ensures r.Some? <==> code in {"en", "hi", "te", "ta"}
  {
    Find(Languages, code)
  }

  /** The landing page offers Gujarati, Punjabi and Odia, which the header
      has no label for, and English gets its label. */
  lemma LabelExamples()
    ensures Label("en") == Some(LanguageLabel("English", "🇺🇸"))
    ensures Label("gu").None? && Label("pa").None? && Label("or").None?
  {
    FindFirst(Languages, 0);
  }

  /** The header's state together with the storage it writes. */
  class HeaderState {
    var isProfileOpen: bool
    var isNotificationOpen: bool
    var language: string
    var store: map<string, string>

    /** The two dropdowns are never open at the same time. */
    predicate Valid()
      reads this
    {
      !(isProfileOpen && isNotificationOpen)
    }

    /** The first render: both dropdowns closed and English, whatever the
        storage holds. */
    constructor (stored: map<string, string>)
      ensures Valid()
      ensures !isProfileOpen && !isNotificationOpen && language == "en" && store == stored
    {
      isProfileOpen := false;
      isNotificationOpen := false;
      language := "en";
      store := stored;
    }

    /** The bell flips the notification list and closes the profile menu. */
    method BellClick()
      modifies this
      ensures Valid()
      ensures isNotificationOpen == !old(isNotificationOpen) && !isProfileOpen
      ensures language == old(language) && store == old(store)
    {
      isNotificationOpen := !isNotificationOpen;
      isProfileOpen := false;
    }

    /** The profile button flips the profile menu and closes the
        notification list. */
    method ProfileClick()
      modifies this
      ensures Valid()
      ensures isProfileOpen == !old(isProfileOpen) && !isNotificationOpen
      ensures language == old(language) && store == old(store)
    {
      isProfileOpen := !isProfileOpen;
      isNotificationOpen := false;
    }

    /** The language button only closes the notification list; the profile
        menu stays as it was. */
    method LanguageButtonClick()
      requires Valid()
      modifies this
      ensures Valid()
      ensures !isNotificationOpen && isProfileOpen == old(isProfileOpen)
      ensures language == old(language) && store == old(store)
    {
      isNotificationOpen := false;
    }

    /** `handleLanguageChange`: the header shows `lang` and the storage
        remembers it. */
    method LanguageChange(lang: string)
      requires Valid()
      modifies this
      ensures Valid()
      ensures language == lang && store == LanguagePreference.Save(old(store), lang)
      ensures LanguagePreference.Load(store) == Some(lang)
      ensures isProfileOpen == old(isProfileOpen) && isNotificationOpen == old(isNotificationOpen)
    {
      language := lang;
      store := LanguagePreference.Save(store, lang);
    }

    /** `handleLogout` only logs to the console: no state changes. */
    method Logout()
      ensures unchanged(this)
    {
    }
  }
}
