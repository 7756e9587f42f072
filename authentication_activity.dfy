/** The login screen: the email login check, the Google sign-in result
    handling, and the routing after a sign-in. */
module AuthenticationActivity {
  import opened Wrappers
  import opened Text
  import opened Store

  /** What the Login button does with the two inputs. */
  datatype LoginCheck = Login(email: string, password: string) | FillAllFields

  /** Both inputs are trimmed; login is attempted only when neither is then empty. */
  function CheckLogin(email: string, password: string): (r: LoginCheck)
    ensures r.Login? <==> Trim(email) != "" && Trim(password) != ""
    ensures r.Login? ==> r.email == Trim(email) && r.password == Trim(password)
  {
    var e := Trim(email);
    var p := Trim(password);
    if e != "" && p != "" then Login(e, p) else FillAllFields
  }

  /** A field holding only whitespace counts as empty. */
  lemma LoginIffNotBlank(email: string, password: string)
    ensures CheckLogin(email, password).Login? <==> !IsBlank(email) && !IsBlank(password)
  {
    TrimEmptyIffBlank(email);
    TrimEmptyIffBlank(password);
  }

  /** The activities a finished sign-in opens. */
  datatype Home = OpenMain | OpenProfileSetup

  /** `navigateToHome`: with a signed-in user, the profile document is read;
      an existing one opens MainActivity and a missing one ProfileSetupActivity,
      and the login screen finishes. No user, or a failed read, does nothing. */
  function NavigateToHome(currentUser: Option<string>, store: Store, readOk: bool): (r: Option<Home>)
    ensures currentUser.None? || !readOk ==> r.None?
    ensures currentUser.Some? && readOk ==> r.Some? && (r.value == OpenMain <==> currentUser.value in store)
  {
    match currentUser
    case None => None
    case Some(uid) =>
      match Read(store, uid, readOk)
      case ReadFailed => None
      case Snapshot(data) => if data.Some? then Some(OpenMain) else Some(OpenProfileSetup)
  }

  /** `getSignInCredentialFromIntent`: a credential whose ID token may be null, or an `ApiException`. */
  datatype CredentialResult = Credential(googleIdToken: Option<string>) | ApiError

  /** What the launcher callback does with the One Tap result. */
  datatype GoogleStep = NotHandled | GoogleSignInFailed | AuthWithToken(idToken: string)

  /** Only RESULT_OK is handled; a missing token or an `ApiException`
      reports failure, and only a present token reaches Firebase. */
  function OnGoogleResult(resultOk: bool, credential: CredentialResult): (step: GoogleStep)
    ensures !resultOk ==> step == NotHandled
    ensures step.AuthWithToken? <==> resultOk && credential.Credential? && credential.googleIdToken.Some?
    ensures step.AuthWithToken? ==> step.idToken == credential.googleIdToken.value
    ensures resultOk && credential.Credential? && credential.googleIdToken.None? ==> step == GoogleSignInFailed
  {
    if !resultOk then NotHandled
    else match credential
      case ApiError => GoogleSignInFailed
      case Credential(token) => if token.Some? then AuthWithToken(token.value) else GoogleSignInFailed
  }

  /** The whole Google path: the token is exchanged (`signInWithCredential`
      succeeding or not) and a success continues with `navigateToHome`. */
  function GoogleSignIn(resultOk: bool, credential: CredentialResult, signInOk: bool,
                        currentUser: Option<string>, store: Store, readOk: bool): (r: Option<Home>)
    ensures r.Some? ==> OnGoogleResult(resultOk, credential).AuthWithToken? && signInOk
    ensures r.Some? ==> r == NavigateToHome(currentUser, store, readOk)
    ensures OnGoogleResult(resultOk, credential).AuthWithToken? && signInOk ==> r == NavigateToHome(currentUser, store, readOk)
  {
    match OnGoogleResult(resultOk, credential)
    case AuthWithToken(_) => if signInOk then NavigateToHome(currentUser, store, readOk) else None
    case _ => None
  }

  /** A null ID token never opens anything, whatever follows. */
  lemma NullTokenGoesNowhere(signInOk: bool, currentUser: Option<string>, store: Store, readOk: bool)
    ensures GoogleSignIn(true, Credential(None), signInOk, currentUser, store, readOk).None?
  {
  }

  /** The email path: a passing check, a successful `signInWithEmailAndPassword`, then `navigateToHome`. */
  function EmailSignIn(email: string, password: string, signInOk: bool,
                       currentUser: Option<string>, store: Store, readOk: bool): (r: Option<Home>)
    ensures r.Some? ==> CheckLogin(email, password).Login? && signInOk
    ensures r.Some? ==> r == NavigateToHome(currentUser, store, readOk)
    ensures CheckLogin(email, password).Login? && signInOk ==> r == NavigateToHome(currentUser, store, readOk)
  {
    match CheckLogin(email, password)
    case Login(_, _) => if signInOk then NavigateToHome(currentUser, store, readOk) else None
    case FillAllFields => None
  }
}
