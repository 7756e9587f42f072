/** The sign-up form: its ordered input check and where a registration leads. */
module SignUpActivity {
  import opened Text

  /** What the Sign Up button does with the three inputs. */
  datatype SignUpCheck = Register(email: string, password: string) | PasswordsDoNotMatch | FillAllFields

  /** The inputs are trimmed first; any empty one gives "Please fill in all
      fields" whether or not the passwords match; otherwise differing
      passwords give "Passwords do not match!"; otherwise registration is
      attempted with the trimmed email and password. */
  function CheckSignUp(email: string, password: string, confirmPassword: string): (r: SignUpCheck)
    ensures r == FillAllFields <==> Trim(email) == "" || Trim(password) == "" || Trim(confirmPassword) == ""
    ensures r == PasswordsDoNotMatch <==>
      Trim(email) != "" && Trim(password) != "" && Trim(confirmPassword) != "" && Trim(password) != Trim(confirmPassword)
    ensures r.Register? ==> r.email == Trim(email) && r.password == Trim(password)
  {
    var e := Trim(email);
    var p := Trim(password);
    var c := Trim(confirmPassword);
    if e != "" && p != "" && c != "" then
      if p == c then Register(e, p) else PasswordsDoNotMatch
    else FillAllFields
  }

  /** Registration is attempted exactly when no input is blank and the
      passwords agree once trimmed. */
  lemma RegisterIff(email: string, password: string, confirmPassword: string)
    ensures CheckSignUp(email, password, confirmPassword).Register? <==>
      !IsBlank(email) && !IsBlank(password) && Trim(password) == Trim(confirmPassword)
  {
    TrimEmptyIffBlank(email);
    TrimEmptyIffBlank(password);
    TrimEmptyIffBlank(confirmPassword);
  }

  /** A blank input, even all whitespace, is an empty one. */
  lemma FillAllFieldsIffBlank(email: string, password: string, confirmPassword: string)
    ensures CheckSignUp(email, password, confirmPassword) == FillAllFields <==>
      IsBlank(email) || IsBlank(password) || IsBlank(confirmPassword)
  {
    TrimEmptyIffBlank(email);
    TrimEmptyIffBlank(password);
    TrimEmptyIffBlank(confirmPassword);
  }

  /** The check sees only the trimmed inputs: trimming them beforehand changes nothing. */
  lemma CheckSeesTrimmedInputs(email: string, password: string, confirmPassword: string)
    ensures CheckSignUp(Trim(email), Trim(password), Trim(confirmPassword)) == CheckSignUp(email, password, confirmPassword)
  {
    TrimIdempotent(email);
    TrimIdempotent(password);
    TrimIdempotent(confirmPassword);
  }

  /** Where the activity goes once `createUserWithEmailAndPassword` completes. */
  datatype AfterSignUp = OpenProfileSetup | StayOnSignUp

  function AfterRegistration(successful: bool): (next: AfterSignUp)
    ensures next == OpenProfileSetup <==> successful
  {
    if successful then OpenProfileSetup else StayOnSignUp
  }
}
