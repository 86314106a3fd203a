/**
 * The sign-up page (client/src/pages/Auth/Register.jsx): form state, field
 * errors, the validation run before submitting and the request it sends.
 */
module RegisterPage {
  import opened Common
  import opened Api
  import opened Email
  import opened AuthContext
  import opened LoginPage

  const RegisterFailed: string := "Registration failed. Please try again with different credentials."
  const MinPasswordLength: nat := 6

  /** The body of `POST /api/v1/auth/register`. */
  datatype RegisterRequest = RegisterRequest(name: string, email: string, password: string, role: string)

  /** The field errors `validateForm` finds for the form's values. */
  function RegisterErrors(name: string, email: string, password: string, confirm: string): (e: map<string, string>)
    ensures e.Keys <= {"name", "email", "password", "confirmPassword"}
    ensures "name" in e <==> name == ""
    ensures "email" in e <==> email == "" || !ValidEmail(email)
    ensures "email" in e ==> e["email"] == (if email == "" then "Email is required" else "Email is invalid")
    ensures "password" in e <==> |password| < MinPasswordLength
    ensures "password" in e ==>
      e["password"] == (if password == "" then "Password is required" else "Password must be at least 6 characters")
    ensures "confirmPassword" in e <==> password != confirm
  {
    ConfirmRule(PasswordRule(EmailRule(NameRule(map[], name), email), password), password, confirm)
  }

  function NameRule(e: map<string, string>, name: string): map<string, string>
  {
    if name == "" then e["name" := "Name is required"] else e
  }

  function EmailRule(e: map<string, string>, email: string): map<string, string>
  {
    if email == "" then e["email" := "Email is required"]
    else if !ValidEmail(email) then e["email" := "Email is invalid"]
    else e
  }

  function PasswordRule(e: map<string, string>, password: string): map<string, string>
  {
    if password == "" then e["password" := "Password is required"]
    else if |password| < MinPasswordLength then e["password" := "Password must be at least 6 characters"]
    else e
  }

  function ConfirmRule(e: map<string, string>, password: string, confirm: string): map<string, string>
  {
    if password != confirm then e["confirmPassword" := "Passwords do not match"] else e
  }

  /** The form is valid exactly when a name is given, the address matches,
      the password has six characters or more and the confirmation equals
      it. */
  lemma RegisterValidIff(name: string, email: string, password: string, confirm: string)
    ensures |RegisterErrors(name, email, password, confirm)| == 0
      <==> name != "" && email != "" && ValidEmail(email)
           && |password| >= MinPasswordLength && password == confirm
  {
    var e := RegisterErrors(name, email, password, confirm);
    if |e| == 0 {
      assert "name" !in e && "email" !in e && "password" !in e && "confirmPassword" !in e;
    } else {
      var k :| k in e;
      assert k in {"name", "email", "password", "confirmPassword"};
    }
  }

  /** Both forms apply the same e-mail rule with the same messages. */
  lemma SameEmailRule(name: string, email: string, password: string, confirm: string, loginPassword: string)
    ensures ("email" in RegisterErrors(name, email, password, confirm))
      == ("email" in LoginErrors(email, loginPassword))
    ensures "email" in LoginErrors(email, loginPassword) ==>
      RegisterErrors(name, email, password, confirm)["email"] == LoginErrors(email, loginPassword)["email"]
  {
  }

  class RegisterForm {
    var formData: map<string, string>
    var errors: map<string, string>
    var registerError: string

    constructor ()
      ensures formData == map["name" := "", "email" := "", "password" := "", "confirmPassword" := "", "role" := "teacher"]
      ensures errors == map[] && registerError == ""
    {
      formData := map["name" := "", "email" := "", "password" := "", "confirmPassword" := "", "role" := "teacher"];
      errors := map[];
      registerError := "";
    }

    /** `handleChange`: sets one field, blanks that field's error when it
        had one, and clears the registration error. */
    method HandleChange(name: string, value: string)
      modifies this
      ensures formData == old(formData)[name := value]
      ensures errors == if Field(old(errors), name) != "" then old(errors)[name := ""] else old(errors)
      ensures registerError == ""
    {
      formData := formData[name := value];
      if Field(errors, name) != "" {
        errors := errors[name := ""];
      }
      if registerError != "" {
        registerError := "";
      }
    }

    function Errors(): map<string, string>
      reads this
    {
      RegisterErrors(Field(formData, "name"), Field(formData, "email"),
                     Field(formData, "password"), Field(formData, "confirmPassword"))
    }

    /** `validateForm`: records the errors of the current values and
        answers whether there are none. */
    method ValidateForm() returns (valid: bool)
      modifies this
      ensures errors == old(Errors())
      ensures valid <==> |errors| == 0
      ensures formData == old(formData) && registerError == old(registerError)
    {
      ghost var target := Errors();
      var newErrors: map<string, string> := map[];
      var name := Field(formData, "name");
      if name == "" {
        newErrors := newErrors["name" := "Name is required"];
      }
      assert newErrors == NameRule(map[], name);
      var email := Field(formData, "email");
      if email == "" {
        newErrors := newErrors["email" := "Email is required"];
      } else if !ValidEmail(email) {
        newErrors := newErrors["email" := "Email is invalid"];
      }
      assert newErrors == EmailRule(NameRule(map[], name), email);
      var password := Field(formData, "password");
      if password == "" {
        newErrors := newErrors["password" := "Password is required"];
      } else if |password| < MinPasswordLength {
        newErrors := newErrors["password" := "Password must be at least 6 characters"];
      }
      assert newErrors == PasswordRule(EmailRule(NameRule(map[], name), email), password);
      if password != Field(formData, "confirmPassword") {
        newErrors := newErrors["confirmPassword" := "Passwords do not match"];
      }
      assert newErrors == target;
      errors := newErrors;
      valid := |newErrors| == 0;
    }

    /** `handleSubmit`: an invalid form never reaches `register`; otherwise
        the request always names the role 'teacher', whatever the form's
        `role` holds, and the page goes to the dashboard unless the call
        throws. */
    method HandleSubmit(auth: AuthProvider, o: Outcome)
      returns (sent: Option<RegisterRequest>, navigateTo: Option<string>)
      modifies this, auth, auth.browser
      ensures errors == old(Errors())
      ensures |errors| > 0 ==>
        sent.None? && navigateTo.None? && auth.State() == old(auth.State())
        && registerError == old(registerError)
      ensures |errors| == 0 ==>
        sent == Some(RegisterRequest(Field(formData, "name"), Field(formData, "email"),
                                     Field(formData, "password"), "teacher"))
        && auth.State() == AfterRegister(old(auth.State()), o).0
      ensures |errors| == 0 && AfterRegister(old(auth.State()), o).1 != RequestFailed ==>
        navigateTo == Some("/dashboard") && registerError == old(registerError)
      ensures |errors| == 0 && AfterRegister(old(auth.State()), o).1 == RequestFailed ==>
        navigateTo.None? && registerError == FailureMessage(o, RegisterFailed)
      ensures formData == old(formData)
    {
      var valid := ValidateForm();
      if !valid {
        return None, None;
      }
      sent := Some(RegisterRequest(Field(formData, "name"), Field(formData, "email"),
                                   Field(formData, "password"), RegisterRole(Some("teacher"))));
      var settled := auth.Register(o);
      if settled == RequestFailed {
        registerError := FailureMessage(o, RegisterFailed);
        navigateTo := None;
      } else {
        navigateTo := Some("/dashboard");
      }
    }
  }
}
