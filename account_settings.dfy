/** The account section of the settings page: the change-password form and
    the typed-confirmation account deletion. */
module AccountSettings {
  import opened Text

  const MinPasswordLength: int := 6
  const PasswordTooShort: string := "Password must be at least 6 characters"
  const PasswordsDiffer: string := "Passwords do not match"
  /** The text the user must type before the delete button is enabled. */
  const DeleteWord: string := "DELETE"

  /** The auth service's answer to a password update; `message` may be empty. */
  datatype UpdateOutcome = UpdateOk | UpdateError(message: string)

  /** The delete action's answer: `{ success: true }`, `{ success: false, error }`,
      or a thrown error. */
  datatype DeleteOutcome = DeleteOk | DeleteRefused(error: string) | DeleteThrew

  datatype PasswordResult = Rejected(reason: string) | Changed | ChangeFailed(toast: string)

  datatype DeleteResult = NoUser | Deleted(navigateTo: string) | DeleteFailed(toast: string)

  /** The local checks `handleChangePassword` makes, in order. */
  function PasswordCheck(newPassword: string, confirmPassword: string): (r: Option<string>)
    ensures r.None? <==> |newPassword| >= MinPasswordLength && newPassword == confirmPassword
    ensures |newPassword| < MinPasswordLength ==> r == Some(PasswordTooShort)
    ensures |newPassword| >= MinPasswordLength && newPassword != confirmPassword ==> r == Some(PasswordsDiffer)
  {
    if |newPassword| < MinPasswordLength then Some(PasswordTooShort)
    else if newPassword != confirmPassword then Some(PasswordsDiffer)
    else None
  }

  /** `error.message || fallback` */
  function MessageOr(message: string, fallback: string): (r: string)
    ensures r == fallback <==> message == "" || message == fallback
  {
    if message == "" then fallback else message
  }

  /** The update button's disabled test never hides a pair the checks would accept. */
  lemma AcceptedIsClickable(newPassword: string, confirmPassword: string)
    requires PasswordCheck(newPassword, confirmPassword).None?
    ensures !UpdateDisabled(false, newPassword, confirmPassword)
  {
  }

  /** The update button is disabled while a change runs or either field is empty. */
  predicate UpdateDisabled(isChangingPassword: bool, newPassword: string, confirmPassword: string) {
    isChangingPassword || newPassword == "" || confirmPassword == ""
  }

  class AccountSection {
    var showPasswordForm: bool
    var newPassword: string
    var confirmPassword: string
    var showNewPassword: bool
    var showConfirmPassword: bool
    var isChangingPassword: bool
    var passwordError: string
    var showDeleteModal: bool
    var deleteConfirmText: string
    var isDeleting: bool

    constructor ()
      ensures !showPasswordForm && newPassword == "" && confirmPassword == ""
      ensures !showNewPassword && !showConfirmPassword && !isChangingPassword && passwordError == ""
      ensures !showDeleteModal && deleteConfirmText == "" && !isDeleting
    {
      showPasswordForm, newPassword, confirmPassword := false, "", "";
      showNewPassword, showConfirmPassword, isChangingPassword, passwordError := false, false, false, "";
      showDeleteModal, deleteConfirmText, isDeleting := false, "", false;
    }

    /** The "Change Password" row opens and closes the form. */
    method TogglePasswordForm()
      modifies this`showPasswordForm
      ensures showPasswordForm == !old(showPasswordForm)
    {
      showPasswordForm := !showPasswordForm;
    }

    /** Typing in either password field clears the error. */
    method TypePassword(confirm: bool, value: string)
      modifies this`newPassword, this`confirmPassword, this`passwordError
      ensures newPassword == (if confirm then old(newPassword) else value)
      ensures confirmPassword == (if confirm then value else old(confirmPassword))
      ensures passwordError == ""
    {
      if confirm {
        confirmPassword := value;
      } else {
        newPassword := value;
      }
      passwordError := "";
    }

    /** The eye buttons beside the two fields. */
    method ToggleVisibility(confirm: bool)
      modifies this`showNewPassword, this`showConfirmPassword
      ensures showNewPassword == (if confirm then old(showNewPassword) else !old(showNewPassword))
      ensures showConfirmPassword == (if confirm then !old(showConfirmPassword) else old(showConfirmPassword))
    {
      if confirm {
        showConfirmPassword := !showConfirmPassword;
      } else {
        showNewPassword := !showNewPassword;
      }
    }

    /** The update button stays disabled while a change runs and until
        both fields hold something. */
    function UpdateButtonDisabled(): (r: bool)
      reads this
      ensures isChangingPassword ==> r
      ensures !r ==> |newPassword| > 0 && |confirmPassword| > 0
    {
      UpdateDisabled(isChangingPassword, newPassword, confirmPassword)
    }

    /** `handleChangePassword` as one event: a pair failing the local checks
        sets the error and issues no update; otherwise `outcome` is the
        service's answer, and success clears both fields and closes the form. */
    method ChangePassword(outcome: UpdateOutcome) returns (result: PasswordResult)
      modifies this`passwordError, this`isChangingPassword, this`newPassword, this`confirmPassword, this`showPasswordForm
      ensures PasswordCheck(old(newPassword), old(confirmPassword)).None? ==> !isChangingPassword
      ensures PasswordCheck(old(newPassword), old(confirmPassword)).Some? ==>
        && isChangingPassword == old(isChangingPassword)
        && result == Rejected(PasswordCheck(old(newPassword), old(confirmPassword)).value)
        && passwordError == result.reason
        && newPassword == old(newPassword) && confirmPassword == old(confirmPassword)
        && showPasswordForm == old(showPasswordForm)
      ensures PasswordCheck(old(newPassword), old(confirmPassword)).None? && outcome.UpdateOk? ==>
        result == Changed && newPassword == "" && confirmPassword == "" && !showPasswordForm && passwordError == ""
      ensures PasswordCheck(old(newPassword), old(confirmPassword)).None? && outcome.UpdateError? ==>
        && result == ChangeFailed(MessageOr(outcome.message, "Failed to change password"))
        && newPassword == old(newPassword) && confirmPassword == old(confirmPassword)
        && showPasswordForm == old(showPasswordForm) && passwordError == ""
    {
      passwordError := "";
      if |newPassword| < MinPasswordLength {
        passwordError := PasswordTooShort;
        return Rejected(PasswordTooShort);
      }
      if newPassword != confirmPassword {
        passwordError := PasswordsDiffer;
        return Rejected(PasswordsDiffer);
      }
      isChangingPassword := true;
      if outcome.UpdateOk? {
        newPassword := "";
        confirmPassword := "";
        showPasswordForm := false;
        result := Changed;
      } else {
        result := ChangeFailed(if outcome.message == "" then "Failed to change password" else outcome.message);
      }
      isChangingPassword := false;
    }

    /** The "Delete Account" row and the dialog's own open/close. */
    method SetDeleteModal(open: bool)
      modifies this`showDeleteModal
      ensures showDeleteModal == open
    {
      showDeleteModal := open;
    }

    method TypeDeleteConfirm(value: string)
      modifies this`deleteConfirmText
      ensures deleteConfirmText == value
    {
      deleteConfirmText := value;
    }

    /** The delete button works only once "DELETE" is typed exactly, and
        not while a deletion runs. */
    function DeleteButtonDisabled(): (r: bool)
      reads this
      ensures !r ==> deleteConfirmText == DeleteWord
      ensures isDeleting ==> r
      ensures deleteConfirmText == DeleteWord && !isDeleting ==> !r
    {
      deleteConfirmText != DeleteWord || isDeleting
    }

    /** `handleDeleteAccount` as one event: without a user nothing happens;
        otherwise the dialog closes and the typed text is cleared whatever
        the outcome, and only a successful deletion signs out and goes to
        the login page. */
    method DeleteAccount(signedIn: bool, outcome: DeleteOutcome) returns (result: DeleteResult)
      modifies this`isDeleting, this`showDeleteModal, this`deleteConfirmText
      ensures !signedIn ==>
        && result == NoUser && isDeleting == old(isDeleting)
        && showDeleteModal == old(showDeleteModal) && deleteConfirmText == old(deleteConfirmText)
      ensures signedIn ==> !isDeleting && !showDeleteModal && deleteConfirmText == ""
      ensures signedIn ==> (result.Deleted? <==> outcome.DeleteOk?)
      ensures result.Deleted? ==> result.navigateTo == "/login"
      ensures signedIn && outcome.DeleteRefused? ==> result == DeleteFailed(MessageOr(outcome.error, "Failed to delete account"))
      ensures signedIn && outcome.DeleteThrew? ==> result == DeleteFailed("Failed to delete account")
    {
      if !signedIn {
        return NoUser;
      }
      isDeleting := true;
      match outcome {
        case DeleteOk => result := Deleted("/login");
        case DeleteRefused(e) => result := DeleteFailed(if e == "" then "Failed to delete account" else e);
        case DeleteThrew => result := DeleteFailed("Failed to delete account");
      }
      isDeleting := false;
      showDeleteModal := false;
      deleteConfirmText := "";
    }
  }

  /** After a deletion attempt by a signed-in user the delete button is
      disabled again until "DELETE" is typed anew. */
  method DeleteThenRetry(page: AccountSection, outcome: DeleteOutcome) returns (disabled: bool)
    modifies page
    ensures disabled
  {
    var _ := page.DeleteAccount(true, outcome);
    disabled := page.DeleteButtonDisabled();
  }
}
