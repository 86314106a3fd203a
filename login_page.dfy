/**
 * The sign-in page (client/src/pages/Auth/Login.jsx): form state, field
 * errors, the validation run before submitting and the redirect target.
 */
module LoginPage {
  import opened Common
  import opened Api
  import opened Email
  import opened AuthContext

  const LoginFailed: string := "Login failed. Please check your credentials and try again."

  /** The field errors `validateForm` finds for the form's values. */
  function LoginErrors(email: string, password: string): (e: map<string, string>)
    ensures e.Keys <= {"email", "password"}
    ensures "email" in e <==> email == "" || !ValidEmail(email)
    ensures "email" in e ==> e["email"] == (if email == "" then "Email is required" else "Email is invalid")
    ensures "password" in e <==> password == ""
    ensures "password" in e ==> e["password"] == "Password is required"
  {
    var withEmail: map<string, string> :=
      if email == "" then map["email" := "Email is required"]
      else if !ValidEmail(email) then map["email" := "Email is invalid"]
      else map[];
    if password == "" then withEmail["password" := "Password is required"] else withEmail
  }

  /** The form is valid exactly when the address is present and matches the
      pattern and a password is present; no length rule applies. */
  lemma LoginValidIff(email: string, password: string)
    ensures |LoginErrors(email, password)| == 0 <==> email != "" && ValidEmail(email) && password != ""
  {
    var e := LoginErrors(email, password);
    if |e| == 0 {
      assert "email" !in e && "password" !in e;
    } else {
      var k :| k in e;
      assert k == "email" || k == "password";
    }
  }

  /** `location.state?.from || '/dashboard'`. */
  function RedirectTarget(from: Option<string>): (r: string)
    ensures from.Some? && from.value != "" ==> r == from.value
    ensures from.None? || from.value == "" ==> r == "/dashboard"
  {
    if from.Some? && from.value != "" then from.value else "/dashboard"
  }

  /** The message shown when `login` throws: the server's message, else the
      generic one. A login reply without a token throws a plain error,
      which has no server message. */
  function LoginErrorMessage(o: Outcome): (m: string)
    ensures o.Rejected? && o.message != "" ==> m == o.message
    ensures !(o.Rejected? && o.message != "") ==> m == LoginFailed
  {
    FailureMessage(o, LoginFailed)
  }

  class LoginForm {
    var formData: map<string, string>
    var errors: map<string, string>
    var loginError: string
    var loginSuccess: bool

    constructor ()
      ensures formData == map["email" := "", "password" := ""]
      ensures errors == map[] && loginError == "" && !loginSuccess
    {
      formData := map["email" := "", "password" := ""];
      errors := map[];
      loginError := "";
      loginSuccess := false;
    }

    /** `handleChange`: sets one field, blanks that field's error when it
        had one, and clears the login error. */
    method HandleChange(name: string, value: string)
      modifies this
      ensures formData == old(formData)[name := value]
      ensures errors == if Field(old(errors), name) != "" then old(errors)[name := ""] else old(errors)
      ensures loginError == "" && loginSuccess == old(loginSuccess)
    {
      formData := formData[name := value];
      if Field(errors, name) != "" {
        errors := errors[name := ""];
      }
      if loginError != "" {
        loginError := "";
      }
    }

    /** `validateForm`: records the errors of the current values and
        answers whether there are none. */
    method ValidateForm() returns (valid: bool)
      modifies this
      ensures errors == LoginErrors(Field(formData, "email"), Field(formData, "password"))
      ensures valid <==> |errors| == 0
      ensures formData == old(formData) && loginError == old(loginError) && loginSuccess == old(loginSuccess)
    {
      var newErrors: map<string, string> := map[];
      var email := Field(formData, "email");
      if email == "" {
        newErrors := newErrors["email" := "Email is required"];
      } else if !ValidEmail(email) {
        newErrors := newErrors["email" := "Email is invalid"];
      }
      if Field(formData, "password") == "" {
        newErrors := newErrors["password" := "Password is required"];
      }
      errors := newErrors;
      valid := |newErrors| == 0;
    }

    /** `handleSubmit`: an invalid form never reaches `login`; otherwise
        the provider logs in with the backend's answers `o` and `me`, and
        the page either redirects to `from` or shows the failure. */
    method HandleSubmit(auth: AuthProvider, from: string, o: Outcome, me: Outcome)
      returns (navigateTo: Option<string>)
      modifies this, auth, auth.browser
      ensures errors == LoginErrors(Field(old(formData), "email"), Field(old(formData), "password"))
      ensures |errors| > 0 ==>
        auth.State() == old(auth.State()) && navigateTo.None?
        && loginError == old(loginError) && loginSuccess == old(loginSuccess)
      ensures |errors| == 0 ==> auth.State() == AfterLogin(old(auth.State()), o, me).0
      ensures |errors| == 0 && AfterLogin(old(auth.State()), o, me).1 == Success ==>
        navigateTo == Some(from) && loginSuccess && loginError == old(loginError)
      ensures |errors| == 0 && AfterLogin(old(auth.State()), o, me).1 != Success ==>
        navigateTo.None? && !loginSuccess && loginError == LoginErrorMessage(o)
      ensures formData == old(formData)
    {
      var valid := ValidateForm();
      if !valid {
        return None;
      }
      loginSuccess := false;
      var settled := auth.Login(o, me);
      if settled == Success {
        loginSuccess := true;
        navigateTo := Some(from);
      } else {
        loginError := LoginErrorMessage(o);
        navigateTo := None;
      }
    }
  }
}
