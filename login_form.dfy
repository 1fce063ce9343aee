/** The sign-in form: validation, the demo accounts and the simulated
    sign-in. Messages are those of the English table. */
module LoginForm {
  import opened Results
  import opened FormDraft
  import opened AuthPatterns

  /** The form's fields. */
  datatype LoginData = LoginData(email: string, password: string, rememberMe: bool)

  /** The three inputs: the two text fields carry a value, the checkbox
      its `checked` state. */
  datatype LoginInput = EmailInput(value: string) | PasswordInput(value: string) | RememberMeInput(checked: bool)

  /** The `name` attribute of each input, the key its message is under. */
  function InputName(i: LoginInput): string
  {
    match i
    case EmailInput(_) => "email"
    case PasswordInput(_) => "password"
    case RememberMeInput(_) => "rememberMe"
  }

  /** `{ ...prev, [name]: type === 'checkbox' ? checked : value }`. */
  function ApplyInput(d: LoginData, i: LoginInput): (r: LoginData)
    ensures i.EmailInput? ==> r.email == i.value && r.password == d.password && r.rememberMe == d.rememberMe
    ensures i.PasswordInput? ==> r.password == i.value && r.email == d.email && r.rememberMe == d.rememberMe
    ensures i.RememberMeInput? ==> r.rememberMe == i.checked && r.email == d.email && r.password == d.password
  {
    match i
    case EmailInput(v) => d.(email := v)
    case PasswordInput(v) => d.(password := v)
    case RememberMeInput(c) => d.(rememberMe := c)
  }

  const EmailMessage := "Please enter a valid email address"
  const PasswordMessage := "Password is required"
  const InvalidMessage := "Invalid email or password"

  /** The key of the banner above the form. */
  const InvalidKey := "invalid"

  /** `validateForm`: the address must be present and match the pattern,
      the password must be present; its length is not checked. */
  function LoginErrors(d: LoginData): (e: Errors)
    ensures "email" in e <==> d.email == "" || !EmailLike(d.email)
    ensures "password" in e <==> d.password == ""
    ensures e.Keys <= {"email", "password"}
    ensures "email" in e ==> e["email"] == EmailMessage
    ensures "password" in e ==> e["password"] == PasswordMessage
  {
    var e: Errors := if d.email == "" || !EmailLike(d.email) then map["email" := EmailMessage] else map[];
    if d.password == "" then e["password" := PasswordMessage] else e
  }

  /** A one-character password passes validation; an address with no dot
      after its `@` does not. */
  lemma LoginExamples()
    ensures LoginErrors(LoginData("farmer@kisanai.com", "x", false)) == map[]
    ensures "email" in LoginErrors(LoginData("farmer@kisanai", "farmer123", false))
  {
    EmailExamples();
  }

  /** A demo account's role and display name. */
  datatype Account = Account(role: string, name: string)

  const FarmerEmail := "farmer@kisanai.com"
  const FarmerPassword := "farmer123"
  const ExpertEmail := "expert@kisanai.com"
  const ExpertPassword := "expert123"

  /** The credential check against the two demo accounts. */
  function Authenticate(email: string, password: string): (r: Option<Account>)
    ensures r.Some? <==> (email == FarmerEmail && password == FarmerPassword) ||
                         (email == ExpertEmail && password == ExpertPassword)
    ensures r.Some? && r.value.role == "farmer" ==> email == FarmerEmail
    ensures r.Some? && r.value.role == "expert" ==> email == ExpertEmail
    ensures r.Some? ==> r.value.role == "farmer" || r.value.role == "expert"
  {
    if email == FarmerEmail && password == FarmerPassword then Some(Account("farmer", "Rajesh Kumar"))
    else if email == ExpertEmail && password == ExpertPassword then Some(Account("expert", "Dr. Priya Sharma"))
    else None
  }

  /** Both demo accounts pass validation, so the form can reach them. */
  lemma DemoAccountsPassValidation()
    ensures LoginErrors(LoginData(FarmerEmail, FarmerPassword, false)) == map[]
    ensures LoginErrors(LoginData(ExpertEmail, ExpertPassword, false)) == map[]
  {
    assert EmailAt(FarmerEmail, 6, 14);
    assert EmailAt(ExpertEmail, 6, 14);
    assert LoginErrors(LoginData(FarmerEmail, FarmerPassword, false)).Keys == {};
    assert LoginErrors(LoginData(ExpertEmail, ExpertPassword, false)).Keys == {};
  }

  /** The record a successful sign-in saves: no phone, no language. */
  function SignedInUser(email: string, a: Account): (u: StoredUser)
    ensures u.isAuthenticated && u.email == email && u.name == a.name && u.role == a.role
    ensures u.phone.None? && u.language.None?
  {
    StoredUser(email, a.name, a.role, None, None, true)
  }

  /** A pending sign-in: the address and password captured by
      `handleSubmit`, or the fixed Google account of `handleGoogleLogin`. */
  datatype Request = CredentialsRequest(email: string, password: string) | GoogleRequest

  /** The Google account the mock OAuth saves. */
  const GoogleUser := StoredUser("user@gmail.com", "Google User", "farmer", None, None, true)

  /** Whether `e` is what the form can show: validation messages only,
      or the banner alone. */
  predicate Shape(e: Errors)
  {
    e.Keys <= {"email", "password"} || e == map[InvalidKey := InvalidMessage]
  }

  /** The form while it is open. */
  class LoginFormState {
    var data: LoginData
    var errors: Errors
    var isLoading: bool
    /** Requests whose timer has not fired, in the order they were made;
        the form's timer is 1.5 seconds and Google's one, so `Complete`
        is told which one fires. */
    var pending: seq<Request>
    /** What the `user` storage entry holds. */
    var savedUser: Option<StoredUser>
    /** The dashboard has been navigated to. */
    var navigated: bool

    /** Only validation messages or the banner are ever shown. */
    ghost predicate Valid()
      reads this
    {
      Shape(errors)
    }

    /** `true` when the banner shows. */
    function BannerShown(): (b: bool)
      reads this
      ensures b <==> InvalidKey in errors && errors[InvalidKey] != ""
    {
      InvalidKey in errors && errors[InvalidKey] != ""
    }

    /** The empty form. */
    constructor ()
      ensures Valid()
      ensures data == LoginData("", "", false) && errors == map[] && !isLoading
      ensures pending == [] && savedUser == None && !navigated
    {
      data := LoginData("", "", false);
      errors := map[];
      isLoading := false;
      pending := [];
      savedUser := None;
      navigated := false;
    }

    /** `handleInputChange`: the field is set and only its own message is
        blanked, so the banner stays up while the user retypes. */
    method InputChange(i: LoginInput)
      requires Valid()
      modifies this
      ensures Valid()
      ensures data == ApplyInput(old(data), i)
      ensures errors == ClearError(old(errors), InputName(i))
      ensures BannerShown() == old(BannerShown())
      ensures isLoading == old(isLoading) && pending == old(pending)
      ensures savedUser == old(savedUser) && navigated == old(navigated)
    {
      data := ApplyInput(data, i);
      errors := ClearError(errors, InputName(i));
    }

    /** `handleSubmit`: the messages (and the banner) are replaced by a
        fresh validation; only a form without messages starts the
        simulated request, which captures the address and password as
        they are now. */
    method Submit()
      requires Valid()
      modifies this
      ensures Valid()
      ensures errors == LoginErrors(data) && !BannerShown()
      ensures NoErrors(errors) ==> isLoading && pending == old(pending) + [CredentialsRequest(data.email, data.password)]
      ensures !NoErrors(errors) ==> isLoading == old(isLoading) && pending == old(pending)
      ensures data == old(data) && savedUser == old(savedUser) && navigated == old(navigated)
    {
      errors := LoginErrors(data);
      if NoErrors(errors) {
        isLoading := true;
        pending := pending + [CredentialsRequest(data.email, data.password)];
      }
    }

    /** `handleGoogleLogin`: no validation, the spinner starts and the
        Google account is queued. */
    method GoogleLogin()
      requires Valid()
      modifies this
      ensures Valid()
      ensures isLoading && pending == old(pending) + [GoogleRequest]
      ensures data == old(data) && errors == old(errors)
      ensures savedUser == old(savedUser) && navigated == old(navigated)
    {
      isLoading := true;
      pending := pending + [GoogleRequest];
    }

    /** The timer of request `i` fires. Credentials of a demo account save
        that account and move to the dashboard; any others replace every
        message with the banner and save nothing. The form's timer always
        stops the spinner; Google's saves its account, moves on and leaves
        the spinner running. */
    method Complete(i: nat)
      requires Valid()
      requires i < |pending|
      modifies this
      ensures Valid()
      ensures pending == old(pending)[..i] + old(pending)[i + 1..]
      ensures data == old(data)
      ensures old(pending)[i].GoogleRequest? ==>
        savedUser == Some(GoogleUser) && navigated && errors == old(errors) && isLoading == old(isLoading)
      ensures old(pending)[i].CredentialsRequest? ==>
        var r := old(pending)[i];
        var a := Authenticate(r.email, r.password);
        !isLoading &&
        (a.Some? ==> savedUser == Some(SignedInUser(r.email, a.value)) && navigated && errors == old(errors)) &&
        (a.None? ==> savedUser == old(savedUser) && navigated == old(navigated) &&
                     errors == map[InvalidKey := InvalidMessage] && BannerShown())
    {
      var r := pending[i];
      match r {
        case GoogleRequest =>
          savedUser := Some(GoogleUser);
          navigated := true;
        case CredentialsRequest(email, password) =>
          var a := Authenticate(email, password);
          if a.Some? {
            savedUser := Some(SignedInUser(email, a.value));
            navigated := true;
          } else {
            errors := map[InvalidKey := InvalidMessage];
          }
          isLoading := false;
      }
      pending := pending[..i] + pending[i + 1..];
    }
  }
}
