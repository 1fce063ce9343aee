/** The registration form: password strength scoring, field validation and
    the simulated account creation. Messages are those of the English
    table. */
module RegisterForm {
  import opened Results
  import opened JsString
  import opened FormDraft
  import opened AuthPatterns

  predicate IsLower(c: char) { 'a' <= c <= 'z' }
  predicate IsUpper(c: char) { 'A' <= c <= 'Z' }
  predicate IsDigit(c: char) { '0' <= c <= '9' }

  /** `/[a-z]/.test(s)`. */
  predicate HasLower(s: string) { exists i :: 0 <= i < |s| && IsLower(s[i]) }
  /** `/[A-Z]/.test(s)`. */
  predicate HasUpper(s: string) { exists i :: 0 <= i < |s| && IsUpper(s[i]) }
  /** `/[0-9]/.test(s)`. */
  predicate HasDigit(s: string) { exists i :: 0 <= i < |s| && IsDigit(s[i]) }
  /** `/[^A-Za-z0-9]/.test(s)`. */
  predicate HasSymbol(s: string)
  {
    exists i :: 0 <= i < |s| && !IsLower(s[i]) && !IsUpper(s[i]) && !IsDigit(s[i])
  }

  /** `calculatePasswordStrength`: one point each for a length of eight or
      more, a lower-case letter, an upper-case letter, a digit and any
      other character. Only the empty password scores nothing. */
  function PasswordStrength(p: string): (r: nat)
    ensures r <= 5
    ensures r == 0 <==> p == ""
  {
    assert p != "" ==> (IsLower(p[0]) || IsUpper(p[0]) || IsDigit(p[0]) ||
                        (!IsLower(p[0]) && !IsUpper(p[0]) && !IsDigit(p[0])));
    (if |p| >= 8 then 1 else 0) +
    (if HasLower(p) then 1 else 0) +
    (if HasUpper(p) then 1 else 0) +
    (if HasDigit(p) then 1 else 0) +
    (if HasSymbol(p) then 1 else 0)
  }

  /** Typing more never weakens a password: every point the shorter one
      scored is still scored. */
  lemma StrengthGrowsWithTyping(p: string, q: string)
    ensures PasswordStrength(p) <= PasswordStrength(p + q)
  {
    var s := p + q;
    assert forall i :: 0 <= i < |p| ==> s[i] == p[i];
    if HasLower(p) { var i :| 0 <= i < |p| && IsLower(p[i]); assert IsLower(s[i]); }
    if HasUpper(p) { var i :| 0 <= i < |p| && IsUpper(p[i]); assert IsUpper(s[i]); }
    if HasDigit(p) { var i :| 0 <= i < |p| && IsDigit(p[i]); assert IsDigit(s[i]); }
    if HasSymbol(p) {
      var i :| 0 <= i < |p| && !IsLower(p[i]) && !IsUpper(p[i]) && !IsDigit(p[i]);
      assert !IsLower(s[i]) && !IsUpper(s[i]) && !IsDigit(s[i]);
    }
  }

  /** Eight lower-case letters are "Fair"; adding a capital, a digit and a
      symbol makes the password "Strong". */
  lemma StrengthExamples()
    ensures PasswordStrength("password") == 2
    ensures PasswordStrength("Passw0rd!") == 5
  {
    var a := "password";
    assert IsLower(a[0]);
    assert !HasUpper(a) && !HasDigit(a) && !HasSymbol(a) by {
      assert forall i :: 0 <= i < |a| ==> IsLower(a[i]);
    }
    var b := "Passw0rd!";
    assert IsUpper(b[0]) && IsLower(b[1]) && IsDigit(b[5]) && b[8] == '!';
  }

  /** `getPasswordStrengthText`. */
  function StrengthText(strength: int): (t: string)
    ensures t == "Weak" <==> strength <= 1
    ensures t == "Fair" <==> strength == 2
    ensures t == "Good" <==> strength == 3
    ensures t == "Strong" <==> strength >= 4
  {
    if strength <= 1 then "Weak"
    else if strength <= 2 then "Fair"
    else if strength <= 3 then "Good"
    else "Strong"
  }

  /** `getPasswordStrengthColor`. */
  function StrengthColor(strength: int): (c: string)
    ensures c == "bg-destructive" <==> strength <= 1
    ensures c == "bg-warning" <==> strength == 2
    ensures c == "bg-primary" <==> strength == 3
    ensures c == "bg-success" <==> strength >= 4
  {
    if strength <= 1 then "bg-destructive"
    else if strength <= 2 then "bg-warning"
    else if strength <= 3 then "bg-primary"
    else "bg-success"
  }

  /** The text and the colour use the same cut-offs, so each label always
      comes with one colour. */
  lemma StrengthBandsAgree(strength: int)
    ensures StrengthText(strength) == "Weak" <==> StrengthColor(strength) == "bg-destructive"
    ensures StrengthText(strength) == "Fair" <==> StrengthColor(strength) == "bg-warning"
    ensures StrengthText(strength) == "Good" <==> StrengthColor(strength) == "bg-primary"
    ensures StrengthText(strength) == "Strong" <==> StrengthColor(strength) == "bg-success"
  {
  }

  /** The strength bar under the password field. */
  datatype Bar = Bar(text: string, color: string, widthPercent: real)

  /** The bar shows only while the password field is not empty. */
  function StrengthBar(password: string, strength: int): (r: Option<Bar>)
    ensures r.Some? <==> password != ""
    ensures r.Some? ==> r.value.text == StrengthText(strength) && r.value.color == StrengthColor(strength)
  {
    if password != "" then
      Some(Bar(StrengthText(strength), StrengthColor(strength), (strength as real) / 5.0 * 100.0))
    else None
  }

  /** When the bar shows the strength of the password typed, it is never
      empty: its width is between a fifth and all of the track. */
  lemma BarNeverEmpty(password: string)
    requires password != ""
    ensures var b := StrengthBar(password, PasswordStrength(password)).value;
      20.0 <= b.widthPercent <= 100.0
  {
  }

  /** The form's fields. */
  datatype RegisterData = RegisterData(
    name: string, email: string, phone: string, password: string,
    confirmPassword: string, role: string, language: string)

  /** `{ ...prev, [name]: value }` for the fields the form renders; any
      other name adds a property nothing reads. */
  function SetField(d: RegisterData, name: string, value: string): (r: RegisterData)
    ensures name == "password" ==> r == d.(password := value)
    ensures name == "language" ==> r == d.(language := value)
    ensures name !in FieldNames ==> r == d
  {
    match name
    case "name" => d.(name := value)
    case "email" => d.(email := value)
    case "phone" => d.(phone := value)
    case "password" => d.(password := value)
    case "confirmPassword" => d.(confirmPassword := value)
    case "role" => d.(role := value)
    case "language" => d.(language := value)
    case _ => d
  }

  const FieldNames: set<string> := {"name", "email", "phone", "password", "confirmPassword", "role", "language"}

  const NameMessage := "Name is required"
  const EmailMessage := "Please enter a valid email address"
  const PhoneMessage := "Please enter a valid phone number"
  const PasswordMessage := "Password must be at least 8 characters"
  const ConfirmMessage := "Passwords do not match"
  const RoleMessage := "Please select your role"
  const LanguageMessage := "Please select your preferred language"

  /** Whether field `k` breaks its rule in `validateForm`. */
  predicate Fails(d: RegisterData, k: string)
  {
    match k
    case "name" => Trim(d.name) == ""
    case "email" => d.email == "" || !EmailLike(d.email)
    case "phone" => d.phone == "" || !PhoneLike(d.phone)
    case "password" => d.password == "" || |d.password| < 8
    case "confirmPassword" => d.password != d.confirmPassword
    case "role" => d.role == ""
    case "language" => d.language == ""
    case _ => false
  }

  /** `validateForm`: a message for each of the seven fields that breaks
      its rule, each its own; which fields those are is stated by
      `RegisterErrorsAt`. */
  function RegisterErrors(d: RegisterData): (e: Errors)
    ensures e.Keys <= FieldNames
    ensures forall k :: k in e ==> e[k] == Message(k)
  {
    map k | k in FieldNames && Fails(d, k) :: Message(k)
  }

  /** A field has a message exactly when it breaks its rule: a name of
      only white space, an e-mail or phone number that is missing or does
      not match its pattern, a password shorter than eight characters, a
      confirmation that differs, a role or language not chosen. */
  lemma RegisterErrorsAt(d: RegisterData)
    ensures var e := RegisterErrors(d);
      ("name" in e <==> Trim(d.name) == "") &&
      ("email" in e <==> d.email == "" || !EmailLike(d.email)) &&
      ("phone" in e <==> d.phone == "" || !PhoneLike(d.phone)) &&
      ("password" in e <==> |d.password| < 8) &&
      ("confirmPassword" in e <==> d.password != d.confirmPassword) &&
      ("role" in e <==> d.role == "") &&
      ("language" in e <==> d.language == "")
  {
  }

  /** The message of each field. */
  function Message(k: string): string
  {
    match k
    case "name" => NameMessage
    case "email" => EmailMessage
    case "phone" => PhoneMessage
    case "password" => PasswordMessage
    case "confirmPassword" => ConfirmMessage
    case "role" => RoleMessage
    case _ => LanguageMessage
  }

  /** Two equal passwords that are too short raise only the length
      message, and a name of spaces counts as missing. */
  lemma RegisterExamples(d: RegisterData)
    requires d.password == d.confirmPassword == "abc"
    ensures "password" in RegisterErrors(d) && "confirmPassword" !in RegisterErrors(d)
    ensures "name" in RegisterErrors(d.(name := "   "))
  {
    RegisterErrorsAt(d);
    RegisterErrorsAt(d.(name := "   "));
    var n := "   ";
    assert IsBlank(n);
    TrimEmptyIffBlank(n);
  }

  /** A form `validateForm` lets through. */
  predicate Accepted(d: RegisterData)
  {
    NoErrors(RegisterErrors(d))
  }

  /** A form that is let through has a name that is not blank, an address
      and a number that match their patterns, a password of eight or more
      characters typed the same twice, and a role and a language. */
  lemma AcceptedMeansWellFormed(d: RegisterData)
    requires Accepted(d)
    ensures Trim(d.name) != "" && EmailLike(d.email) && PhoneLike(d.phone)
    ensures |d.password| >= 8 && d.confirmPassword == d.password
    ensures d.role != "" && d.language != ""
  {
    var e := RegisterErrors(d);
    RegisterErrorsAt(d);
    assert e.Keys == {};
  }

  /** A pending account creation: the fields captured by `handleSubmit`,
      or the fixed Google account of `handleGoogleRegister` with the page's
      language. */
  datatype Request = FormRequest(data: RegisterData) | GoogleRequest(language: string)

  /** The record a request saves under the `user` key when its timer fires. */
  function SavedUser(r: Request): (u: StoredUser)
    ensures u.isAuthenticated
    ensures r.FormRequest? ==>
      u.email == r.data.email && u.name == r.data.name && u.role == r.data.role &&
      u.phone == Some(r.data.phone) && u.language == Some(r.data.language)
    ensures r.GoogleRequest? ==>
      u.email == "user@gmail.com" && u.role == "farmer" && u.phone.None? && u.language == Some(r.language)
  {
    match r
    case FormRequest(d) => StoredUser(d.email, d.name, d.role, Some(d.phone), Some(d.language), true)
    case GoogleRequest(lang) => StoredUser("user@gmail.com", "Google User", "farmer", None, Some(lang), true)
  }

  /** Whether a request can only have come from an accepted form or the
      Google button. */
  predicate Admissible(r: Request)
  {
    r.FormRequest? ==> Accepted(r.data)
  }

  /** Whatever an admissible request saves is a signed-in user with a
      role and a language, and one from the form also has an address
      matching the pattern and a valid phone number. */
  lemma SavedUserWellFormed(r: Request)
    requires Admissible(r)
    ensures var u := SavedUser(r);
      u.isAuthenticated && u.role != "" && u.language.Some? && u.language.value == (
        match r case FormRequest(d) => d.language case GoogleRequest(l) => l)
    ensures r.FormRequest? ==> EmailLike(SavedUser(r).email) && PhoneLike(SavedUser(r).phone.value)
  {
    if r.FormRequest? {
      AcceptedMeansWellFormed(r.data);
    }
  }

  /** The form while it is open. */
  class RegisterFormState {
    var data: RegisterData
    var errors: Errors
    var isLoading: bool
    var passwordStrength: nat
    /** Requests whose timer has not fired, in the order they were made;
        the form's timer is two seconds and Google's one, so `Complete`
        is told which one fires. */
    var pending: seq<Request>
    /** What the `user` storage entry holds. */
    var savedUser: Option<StoredUser>
    /** The dashboard has been navigated to. */
    var navigated: bool

    /** The strength always scores the password on screen, messages are
        only ever about the seven fields, and no form that failed
        validation is ever waiting to be saved. */
    ghost predicate Valid()
      reads this
    {
      passwordStrength == PasswordStrength(data.password) &&
      errors.Keys <= FieldNames &&
      forall i :: 0 <= i < |pending| ==> Admissible(pending[i])
    }

    /** The empty form, with the page's language preselected. */
    constructor (currentLanguage: string)
      ensures Valid()
      ensures data == RegisterData("", "", "", "", "", "", currentLanguage)
      ensures errors == map[] && !isLoading && passwordStrength == 0 && pending == []
      ensures savedUser == None && !navigated
    {
      data := RegisterData("", "", "", "", "", "", currentLanguage);
      errors := map[];
      isLoading := false;
      passwordStrength := 0;
      pending := [];
      savedUser := None;
      navigated := false;
    }

    /** `handleInputChange`: the field is set, the strength is recomputed
        only for the password, a language change is reported to the page,
        and only this field's message is blanked. */
    method InputChange(name: string, value: string) returns (languageChange: Option<string>)
      requires Valid()
      modifies this
      ensures Valid()
      ensures data == SetField(old(data), name, value)
      ensures name == "password" ==> passwordStrength == PasswordStrength(value)
      ensures name != "password" ==> passwordStrength == old(passwordStrength)
      ensures languageChange == if name == "language" then Some(value) else None
      ensures errors == ClearError(old(errors), name)
      ensures isLoading == old(isLoading) && pending == old(pending)
      ensures savedUser == old(savedUser) && navigated == old(navigated)
    {
      data := SetField(data, name, value);
      if name == "password" {
        passwordStrength := PasswordStrength(value);
      }
      languageChange := if name == "language" then Some(value) else None;
      errors := ClearError(errors, name);
    }

    /** `handleSelectChange`, wired to the role and language selects: the
        same as typing, without any strength update. */
    method SelectChange(name: string, value: string) returns (languageChange: Option<string>)
      requires Valid()
      requires name == "role" || name == "language"
      modifies this
      ensures Valid()
      ensures data == SetField(old(data), name, value)
      ensures passwordStrength == old(passwordStrength)
      ensures languageChange == if name == "language" then Some(value) else None
      ensures errors == ClearError(old(errors), name)
      ensures isLoading == old(isLoading) && pending == old(pending)
      ensures savedUser == old(savedUser) && navigated == old(navigated)
    {
      data := SetField(data, name, value);
      languageChange := if name == "language" then Some(value) else None;
      errors := ClearError(errors, name);
    }

    /** `handleSubmit`: the messages are replaced by a fresh validation;
        only a form without messages starts the simulated request, which
        captures the fields as they are now. */
    method Submit()
      requires Valid()
      modifies this
      ensures Valid()
      ensures errors == RegisterErrors(data)
      ensures Accepted(data) ==> isLoading && pending == old(pending) + [FormRequest(data)]
      ensures !Accepted(data) ==> isLoading == old(isLoading) && pending == old(pending)
      ensures data == old(data) && passwordStrength == old(passwordStrength)
      ensures savedUser == old(savedUser) && navigated == old(navigated)
    {
      errors := RegisterErrors(data);
      if NoErrors(errors) {
        isLoading := true;
        pending := pending + [FormRequest(data)];
      }
    }

    /** `handleGoogleRegister`: no validation, the spinner starts and the
        Google account is queued with the language the page has now. */
    method GoogleRegister(currentLanguage: string)
      requires Valid()
      modifies this
      ensures Valid()
      ensures isLoading && pending == old(pending) + [GoogleRequest(currentLanguage)]
      ensures data == old(data) && errors == old(errors) && passwordStrength == old(passwordStrength)
      ensures savedUser == old(savedUser) && navigated == old(navigated)
    {
      isLoading := true;
      pending := pending + [GoogleRequest(currentLanguage)];
    }

    /** The timer of request `i` fires: its user is saved and the page
        moves to the dashboard. Only the form's timer stops the spinner;
        Google's leaves it running. What is saved is always a signed-in
        user with a role and a language. */
    method Complete(i: nat)
      requires Valid()
      requires i < |pending|
      modifies this
      ensures Valid()
      ensures savedUser == Some(SavedUser(old(pending)[i]))
      ensures savedUser.value.isAuthenticated && savedUser.value.role != "" && savedUser.value.language.Some?
      ensures old(pending)[i].FormRequest? ==> EmailLike(savedUser.value.email)
      ensures navigated && pending == old(pending)[..i] + old(pending)[i + 1..]
      ensures isLoading == (old(isLoading) && old(pending)[i].GoogleRequest?)
      ensures data == old(data) && errors == old(errors) && passwordStrength == old(passwordStrength)
    {
      var r := pending[i];
      SavedUserWellFormed(r);
      savedUser := Some(SavedUser(r));
      navigated := true;
      if r.FormRequest? {
        isLoading := false;
      }
      pending := pending[..i] + pending[i + 1..];
    }
  }
}
