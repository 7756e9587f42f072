/** The Settings screen: the visibility menu, the change-password dialog
    with its ordered validation, and when the dialog is offered. */
module SettingsScreen {
  import opened Wrappers
  import opened Text
  import opened Documents
  import opened Store
  import opened UserProfiles

  const VisibilityOptions: seq<string> := [PublicVisibility, PrivateVisibility]

  /** The minimum length of a new password. */
  const MinPasswordLength := 6

  /** The initial selection: the profile's visibility, or "Private" when it is null. */
  function InitialVisibility(user: UserProfile): (v: string)
    ensures user.visibility.Some? ==> v == user.visibility.value
    ensures user.visibility.None? ==> v == PrivateVisibility
  {
    user.visibility.GetOr(PrivateVisibility)
  }

  /** A profile decoded from a document always has a visibility, so the
      "Private" fallback never applies: a document without one starts the
      menu on "Public". */
  lemma DecodedVisibilityNeverFallsBack(d: Doc, uid: string)
    ensures InitialVisibility(Decode(d, uid)) == StringField(d, "visibility").GetOr(PublicVisibility)
    ensures ("visibility" !in d || !d["visibility"].Str?) ==> InitialVisibility(Decode(d, uid)) == PublicVisibility
  {
    VisibilityDecoding(d, uid);
  }

  datatype VisibilityIcon = Eye | EyeSlash

  /** The eye icon for "Public", the crossed-out eye for anything else. */
  function IconFor(selected: string): (icon: VisibilityIcon)
    ensures icon == Eye <==> selected == PublicVisibility
  {
    if selected == PublicVisibility then Eye else EyeSlash
  }

  /** The provider id of Google sign-in. */
  const GoogleProvider := "google.com"

  /** `currentUser?.providerData?.any { it.providerId == "google.com" } == true`:
      the provider ids of the signed-in user, None without one. */
  function IsGoogleSignIn(providerIds: Option<seq<string>>): (google: bool)
    ensures google <==> providerIds.Some? && exists i :: 0 <= i < |providerIds.value| && providerIds.value[i] == GoogleProvider
  {
    providerIds.Some? && GoogleProvider in providerIds.value
  }

  /** Change Password is offered exactly when the user did not sign in with
      Google: an account without the Google provider, or no user at all. */
  function ChangePasswordOffered(providerIds: Option<seq<string>>): (offered: bool)
    ensures offered <==>
      providerIds.None? || forall i :: 0 <= i < |providerIds.value| ==> providerIds.value[i] != GoogleProvider
  {
    !IsGoogleSignIn(providerIds)
  }

  /** The outcome of the Change button's `when`. */
  datatype PasswordCheck = FillAllFields | TooShort | Mismatch | UpdatePassword

  /** The checks run in order and the first that applies wins: a blank
      field, then a new password shorter than six, then a mismatch. */
  function CheckPasswords(newPassword: string, confirmPassword: string): (r: PasswordCheck)
    ensures r == FillAllFields <==> IsBlank(newPassword) || IsBlank(confirmPassword)
    ensures r == TooShort <==> !IsBlank(newPassword) && !IsBlank(confirmPassword) && |newPassword| < MinPasswordLength
    ensures r == Mismatch <==>
      !IsBlank(newPassword) && !IsBlank(confirmPassword) && |newPassword| >= MinPasswordLength && newPassword != confirmPassword
  {
    if IsBlank(newPassword) || IsBlank(confirmPassword) then FillAllFields
    else if |newPassword| < MinPasswordLength then TooShort
    else if newPassword != confirmPassword then Mismatch
    else UpdatePassword
  }

  /** An update is requested exactly for a non-blank new password of at
      least six characters equal to its confirmation. */
  lemma UpdateRequestedIff(newPassword: string, confirmPassword: string)
    ensures CheckPasswords(newPassword, confirmPassword) == UpdatePassword <==>
      !IsBlank(newPassword) && |newPassword| >= MinPasswordLength && newPassword == confirmPassword
  {
  }

  /** A blank field is reported even when the other one is too short or differs. */
  lemma BlankReportedFirst(newPassword: string)
    requires |newPassword| < MinPasswordLength
    ensures CheckPasswords(newPassword, "") == FillAllFields
  {
  }

  /** After a successful visibility write the stored profile decodes with that visibility. */
  lemma VisibilityWriteReadsBack(store: Store, uid: string, option: string)
    requires Update(store, uid, "visibility", Str(option), true).ok
    ensures var after := Update(store, uid, "visibility", Str(option), true).store;
      uid in after && Decode(after[uid], uid).visibility == Some(option)
  {
    var after := Update(store, uid, "visibility", Str(option), true).store;
    VisibilityDecoding(after[uid], uid);
  }

  /** The screen's `selectedVisibility`, `expanded`, `showPasswordDialog`,
      `newPassword` and the dialog's `confirmPassword`. */
  class SettingsState {
    var selectedVisibility: string
    var expanded: bool
    var showPasswordDialog: bool
    var newPassword: string
    var confirmPassword: string

    /** The screen opens on the user's visibility, menu and dialog closed, fields empty. */
    constructor (user: UserProfile)
      ensures selectedVisibility == InitialVisibility(user)
      ensures !expanded && !showPasswordDialog && newPassword == "" && confirmPassword == ""
    {
      selectedVisibility := InitialVisibility(user);
      expanded := false;
      showPasswordDialog := false;
      newPassword := "";
      confirmPassword := "";
    }

    /** The icon drawn beside the selection. */
    function Icon(): (icon: VisibilityIcon)
      reads this
      ensures icon == Eye <==> selectedVisibility == PublicVisibility
    {
      IconFor(selectedVisibility)
    }

    /** Tapping the visibility row opens the menu. */
    method OpenMenu()
      modifies this
      ensures expanded
      ensures selectedVisibility == old(selectedVisibility) && showPasswordDialog == old(showPasswordDialog)
      ensures newPassword == old(newPassword) && confirmPassword == old(confirmPassword)
    {
      expanded := true;
    }

    /** Dismissing the menu closes it. */
    method DismissMenu()
      modifies this
      ensures !expanded
      ensures selectedVisibility == old(selectedVisibility) && showPasswordDialog == old(showPasswordDialog)
      ensures newPassword == old(newPassword) && confirmPassword == old(confirmPassword)
    {
      expanded := false;
    }

    /** Picking an option selects it and closes the menu at once, whatever
        the outcome of the `update("visibility", option)` it issues. */
    method PickVisibility(option: string, userId: string, store: Store, writeOk: bool) returns (store': Store)
      requires option in VisibilityOptions
      modifies this
      ensures selectedVisibility == option && !expanded
      ensures store' == Update(store, userId, "visibility", Str(option), writeOk).store
      ensures showPasswordDialog == old(showPasswordDialog)
      ensures newPassword == old(newPassword) && confirmPassword == old(confirmPassword)
    {
      selectedVisibility := option;
      expanded := false;
      store' := Update(store, userId, "visibility", Str(option), writeOk).store;
    }

    /** The Change Password item opens the dialog. */
    method OpenPasswordDialog(providerIds: Option<seq<string>>)
      requires ChangePasswordOffered(providerIds)
      modifies this
      ensures showPasswordDialog
      ensures selectedVisibility == old(selectedVisibility) && expanded == old(expanded)
      ensures newPassword == old(newPassword) && confirmPassword == old(confirmPassword)
    {
      showPasswordDialog := true;
    }

    /** Typing into the two password fields. */
    method EditFields(newText: string, confirmText: string)
      modifies this
      ensures newPassword == newText && confirmPassword == confirmText
      ensures selectedVisibility == old(selectedVisibility) && expanded == old(expanded)
      ensures showPasswordDialog == old(showPasswordDialog)
    {
      newPassword := newText;
      confirmPassword := confirmText;
    }

    /** Dismissing the dialog and its Cancel button do the same: close it and clear both fields. */
    method ClosePasswordDialog()
      modifies this
      ensures !showPasswordDialog && newPassword == "" && confirmPassword == ""
      ensures selectedVisibility == old(selectedVisibility) && expanded == old(expanded)
    {
      showPasswordDialog := false;
      newPassword := "";
      confirmPassword := "";
    }

    /** The Change button: the checks pick an outcome; only UpdatePassword,
        with a signed-in user, calls `updatePassword`. Its success clears the
        fields and closes the dialog; its failure, like every other outcome,
        leaves dialog and fields as they are. */
    method ConfirmPasswordChange(signedIn: bool, updateOk: bool) returns (check: PasswordCheck, requested: bool)
      modifies this
      ensures check == CheckPasswords(old(newPassword), old(confirmPassword))
      ensures requested <==> check == UpdatePassword && signedIn
      ensures requested && updateOk ==> !showPasswordDialog && newPassword == "" && confirmPassword == ""
      ensures !(requested && updateOk) ==>
        showPasswordDialog == old(showPasswordDialog) && newPassword == old(newPassword) && confirmPassword == old(confirmPassword)
      ensures selectedVisibility == old(selectedVisibility) && expanded == old(expanded)
    {
      check := CheckPasswords(newPassword, confirmPassword);
      requested := check == UpdatePassword && signedIn;
      if requested && updateOk {
        showPasswordDialog := false;
        newPassword := "";
        confirmPassword := "";
      }
    }
  }
}
