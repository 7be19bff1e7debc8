/**
 * The sign-in / sign-up page (src/pages/AuthPage.tsx): field checks run before the
 * auth calls, the tab switch after a successful sign-up, and the redirect taken once a
 * user is signed in. Whether a string is an e-mail address is decided by the schema
 * library and is a parameter `isEmail` here.
 */
module AuthPage {
  import opened Common

  const EmailInvalid := "Please enter a valid email"
  const PasswordTooShort := "Password must be at least 6 characters"
  const NameRequired := "Name is required"

  /** `loginErrors`: one message per field, "" when the field passed. */
  datatype LoginErrors = LoginErrors(email: string, password: string)

  /** `signupErrors`. */
  datatype SignupErrors = SignupErrors(email: string, password: string, firstName: string, lastName: string)

  /** `passwordSchema`: at least six characters. */
  predicate PasswordOk(password: string) {
    |password| >= 6
  }

  /** `nameSchema`: at least one character; not trimmed, so a single space passes. */
  predicate NameOk(name: string) {
    |name| >= 1
  }

  /** The message a schema failure records for a field, or "" when it passes. */
  function Message(ok: bool, message: string): (m: string)
    requires message != ""
    ensures m == "" <==> ok
    ensures !ok ==> m == message
  {
    if ok then "" else message
  }

  /** The errors `validateLoginForm` records: both fields are checked. */
  function LoginErrorsFor(isEmail: string -> bool, email: string, password: string): (e: LoginErrors)
    ensures e.email == "" <==> isEmail(email)
    ensures e.password == "" <==> PasswordOk(password)
    ensures e.email != "" ==> e.email == EmailInvalid
    ensures e.password != "" ==> e.password == PasswordTooShort
  {
    LoginErrors(Message(isEmail(email), EmailInvalid), Message(PasswordOk(password), PasswordTooShort))
  }

  /** The errors `validateSignupForm` records: all four fields are checked, none is skipped. */
  function SignupErrorsFor(isEmail: string -> bool, email: string, password: string,
                           firstName: string, lastName: string): (e: SignupErrors)
    ensures e.email == "" <==> isEmail(email)
    ensures e.password == "" <==> PasswordOk(password)
    ensures e.firstName == "" <==> NameOk(firstName)
    ensures e.lastName == "" <==> NameOk(lastName)
    ensures e.email != "" ==> e.email == EmailInvalid
    ensures e.password != "" ==> e.password == PasswordTooShort
    ensures e.firstName != "" ==> e.firstName == NameRequired
    ensures e.lastName != "" ==> e.lastName == NameRequired
  {
    SignupErrors(Message(isEmail(email), EmailInvalid), Message(PasswordOk(password), PasswordTooShort),
                 Message(NameOk(firstName), NameRequired), Message(NameOk(lastName), NameRequired))
  }

  /** Names are not trimmed: a one-space first and last name raise no error, an empty one does. */
  lemma NamesNotTrimmed(isEmail: string -> bool, email: string, password: string)
    ensures SignupErrorsFor(isEmail, email, password, " ", " ").firstName == ""
    ensures SignupErrorsFor(isEmail, email, password, " ", " ").lastName == ""
    ensures SignupErrorsFor(isEmail, email, password, "", " ").firstName == NameRequired
  {
  }

  /** What the profile query for `first_name, last_name` returns after sign-in. */
  datatype NameQuery = QueryFailed | NameRow(first_name: Option<string>, last_name: Option<string>)

  const Home := "/"
  const CreateProfile := "/create-profile"

  /**
   * The redirect once a user is signed in: home when either name column is truthy or the
   * query failed, the profile-creation page otherwise.
   */
  function PostLoginRoute(q: NameQuery): (route: string)
    ensures route == CreateProfile <==> q.NameRow? && !Truthy(q.first_name) && !Truthy(q.last_name)
    ensures route == Home || route == CreateProfile
  {
    match q
    case QueryFailed => Home
    case NameRow(first, last) => if Truthy(first) || Truthy(last) then Home else CreateProfile
  }

  /** The page's state. */
  class Page {
    var activeTab: string
    var isLoading: bool
    var loginEmail: string
    var loginPassword: string
    var loginErrors: LoginErrors
    var signupEmail: string
    var signupPassword: string
    var firstName: string
    var lastName: string
    var signupErrors: SignupErrors

    constructor ()
      ensures activeTab == "login" && !isLoading
      ensures loginEmail == "" && loginPassword == "" && loginErrors == LoginErrors("", "")
      ensures signupEmail == "" && signupPassword == "" && firstName == "" && lastName == ""
      ensures signupErrors == SignupErrors("", "", "", "")
    {
      activeTab := "login";
      isLoading := false;
      loginEmail, loginPassword := "", "";
      loginErrors := LoginErrors("", "");
      signupEmail, signupPassword, firstName, lastName := "", "", "", "";
      signupErrors := SignupErrors("", "", "", "");
    }

    /** `validateLoginForm`: checks each field in turn, recording its message and clearing `valid`. */
    method ValidateLoginForm(isEmail: string -> bool) returns (valid: bool)
      modifies this`loginErrors
      ensures loginErrors == LoginErrorsFor(isEmail, loginEmail, loginPassword)
      ensures valid <==> isEmail(loginEmail) && PasswordOk(loginPassword)
    {
      valid := true;
      var errors := LoginErrors("", "");
      if !isEmail(loginEmail) {
        errors := errors.(email := EmailInvalid);
        valid := false;
      }
      if !PasswordOk(loginPassword) {
        errors := errors.(password := PasswordTooShort);
        valid := false;
      }
      loginErrors := errors;
    }

    /** `validateSignupForm`: the same for the four sign-up fields. */
    method ValidateSignupForm(isEmail: string -> bool) returns (valid: bool)
      modifies this`signupErrors
      ensures signupErrors == SignupErrorsFor(isEmail, signupEmail, signupPassword, firstName, lastName)
      ensures valid <==> isEmail(signupEmail) && PasswordOk(signupPassword) && NameOk(firstName) && NameOk(lastName)
    {
      valid := true;
      var errors := SignupErrors("", "", "", "");
      if !isEmail(signupEmail) {
        errors := errors.(email := EmailInvalid);
        valid := false;
      }
      if !PasswordOk(signupPassword) {
        errors := errors.(password := PasswordTooShort);
        valid := false;
      }
      if !NameOk(firstName) {
        errors := errors.(firstName := NameRequired);
        valid := false;
      }
      if !NameOk(lastName) {
        errors := errors.(lastName := NameRequired);
        valid := false;
      }
      signupErrors := errors;
    }

    /**
     * `handleLogin`: `signIn` receives the typed credentials only when both fields pass; the
     * loading flag is raised around the call and lowered in `finally`.
     */
    method HandleLogin(isEmail: string -> bool) returns (signIn: Option<(string, string)>)
      modifies this`loginErrors, this`isLoading
      ensures loginErrors == LoginErrorsFor(isEmail, loginEmail, loginPassword)
      ensures signIn.Some? <==> isEmail(loginEmail) && PasswordOk(loginPassword)
      ensures signIn.Some? ==> signIn.value == (loginEmail, loginPassword) && !isLoading
      ensures signIn.None? ==> isLoading == old(isLoading)
    {
      var valid := ValidateLoginForm(isEmail);
      if !valid {
        return None;
      }
      isLoading := true;
      signIn := Some((loginEmail, loginPassword));
      isLoading := false;
    }

    /**
     * `handleSignup`: `signUp` receives the four fields only when all pass; when it
     * completes without throwing (`succeeded`), the page switches to the login tab.
     */
    method HandleSignup(isEmail: string -> bool, succeeded: bool) returns (signUp: Option<(string, string, string, string)>)
      modifies this`signupErrors, this`isLoading, this`activeTab
      ensures signupErrors == SignupErrorsFor(isEmail, signupEmail, signupPassword, firstName, lastName)
      ensures signUp.Some? <==> isEmail(signupEmail) && PasswordOk(signupPassword) && NameOk(firstName) && NameOk(lastName)
      ensures signUp.Some? ==> signUp.value == (signupEmail, signupPassword, firstName, lastName) && !isLoading
      ensures signUp.None? ==> isLoading == old(isLoading)
      ensures activeTab == if signUp.Some? && succeeded then "login" else old(activeTab)
    {
      var valid := ValidateSignupForm(isEmail);
      if !valid {
        return None;
      }
      isLoading := true;
      signUp := Some((signupEmail, signupPassword, firstName, lastName));
      if succeeded {
        activeTab := "login";
      }
      isLoading := false;
    }
  }
}
