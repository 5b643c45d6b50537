/**
 * The settings modal: the password change with its chain of checks, the
 * account deletion behind a typed confirmation, and the "Go Back" button
 * of the deletion warning. The two sign-in/update calls are reduced to
 * their outcome.
 */
module Settings {
  import opened Common

  datatype Passwords = Passwords(current: string, newPassword: string, confirm: string)

  const Cleared := Passwords("", "", "")

  /** The first failing check of `handlePasswordChange`, as its message. */
  function PasswordProblem(p: Passwords): Option<string>
  {
    if p.current == "" || p.newPassword == "" || p.confirm == "" then Some("Please fill in all fields")
    else if |p.newPassword| < 6 then Some("New password must be at least 6 characters")
    else if p.newPassword != p.confirm then Some("New passwords do not match")
    else if p.current == p.newPassword then Some("New password must be different from current password")
    else None
  }

  /**
   * A change passes exactly when all three fields are filled, the new
   * password has at least 6 characters, matches its confirmation and
   * differs from the current one; each failure is reported only when every
   * earlier check passed.
   */
  lemma PasswordProblemSpec(p: Passwords)
    ensures PasswordProblem(p).None? <==>
      p.current != "" && p.newPassword != "" && p.confirm != "" && |p.newPassword| >= 6 && p.newPassword == p.confirm && p.current != p.newPassword
    ensures p.current == "" || p.newPassword == "" || p.confirm == "" ==> PasswordProblem(p) == Some("Please fill in all fields")
    ensures p.current != "" && p.newPassword != "" && p.confirm != "" && |p.newPassword| < 6 ==>
      PasswordProblem(p) == Some("New password must be at least 6 characters")
    ensures p.current != "" && p.newPassword != "" && p.confirm != "" && |p.newPassword| >= 6 && p.newPassword != p.confirm ==>
      PasswordProblem(p) == Some("New passwords do not match")
    ensures p.current != "" && |p.newPassword| >= 6 && p.newPassword == p.confirm && p.current == p.newPassword ==>
      PasswordProblem(p) == Some("New password must be different from current password")
  {
  }

  /** What the two auth calls yield. */
  datatype ChangeOutcome = WrongCurrent | UpdateFailed | Changed

  function OutcomeMessage(o: ChangeOutcome): string
  {
    match o
    case WrongCurrent => "Current password is incorrect"
    case UpdateFailed => "Failed to change password"
    case Changed => "Password changed successfully!"
  }

  /**
   * How the deletion attempt ends: a call threw before the success toast,
   * the final sign-out threw, or everything completed.
   */
  datatype DeleteOutcome = DataThrew | SignOutFailed | Completed

  const DeletedText := "Account data deleted. Please contact support to complete account deletion."
  const DeleteFailedText := "Failed to delete account"

  class SettingsModal {
    var passwords: Passwords
    var passwordLoading: bool
    var deleteConfirmation: string
    var showDeleteWarning: bool
    var deleteLoading: bool

    constructor()
      ensures passwords == Cleared && !passwordLoading
      ensures deleteConfirmation == "" && !showDeleteWarning && !deleteLoading
    {
      passwords := Cleared;
      passwordLoading := false;
      deleteConfirmation := "";
      showDeleteWarning := false;
      deleteLoading := false;
    }

    /**
     * `handlePasswordChange`: a failed check shows its message and calls
     * nothing; otherwise the auth calls are made, their outcome decides the
     * message, only a completed change clears the fields, and loading is
     * off at the end.
     */
    method HandlePasswordChange(outcome: ChangeOutcome) returns (message: string, authCalled: bool)
      modifies this
      ensures PasswordProblem(old(passwords)).Some? ==>
        && message == PasswordProblem(old(passwords)).value && !authCalled
        && passwords == old(passwords) && passwordLoading == old(passwordLoading)
      ensures PasswordProblem(old(passwords)).None? ==>
        && authCalled && message == OutcomeMessage(outcome) && !passwordLoading
        && passwords == (if outcome == Changed then Cleared else old(passwords))
      ensures deleteConfirmation == old(deleteConfirmation) && showDeleteWarning == old(showDeleteWarning)
      ensures deleteLoading == old(deleteLoading)
    {
      var problem := PasswordProblem(passwords);
      if problem.Some? {
        return problem.value, false;
      }
      authCalled := true;
      passwordLoading := true;
      message := OutcomeMessage(outcome);
      if outcome == Changed {
        passwords := Cleared;
      }
      passwordLoading := false;
    }

    /**
     * `handleDeleteAccount`: nothing is deleted unless the confirmation is
     * exactly "DELETE". Otherwise the deletes are issued (their own errors
     * are only logged), the success toast is shown, the user is signed out,
     * the modal closes and the user is sent to "/"; a throw before the toast or from the sign-out shows
     * the failure toast instead of redirecting. Loading is off at the end.
     */
    method HandleDeleteAccount(outcome: DeleteOutcome) returns (proceeds: bool, toasts: seq<string>, signedOut: bool, redirect: Option<string>)
      modifies this
      ensures proceeds <==> deleteConfirmation == "DELETE"
      ensures !proceeds ==> toasts == ["Please type \"DELETE\" to confirm"] && !signedOut && redirect == None
      ensures !proceeds ==> deleteLoading == old(deleteLoading)
      ensures proceeds ==> !deleteLoading
      ensures proceeds && outcome == Completed ==> toasts == [DeletedText] && signedOut && redirect == Some("/")
      ensures proceeds && outcome == SignOutFailed ==> toasts == [DeletedText, DeleteFailedText] && !signedOut && redirect == None
      ensures proceeds && outcome == DataThrew ==> toasts == [DeleteFailedText] && !signedOut && redirect == None
      ensures passwords == old(passwords) && passwordLoading == old(passwordLoading)
      ensures deleteConfirmation == old(deleteConfirmation) && showDeleteWarning == old(showDeleteWarning)
    {
      signedOut, redirect := false, None;
      if deleteConfirmation != "DELETE" {
        return false, ["Please type \"DELETE\" to confirm"], signedOut, redirect;
      }
      proceeds := true;
      deleteLoading := true;
      match outcome {
        case DataThrew =>
          toasts := [DeleteFailedText];
        case SignOutFailed =>
          toasts := [DeletedText, DeleteFailedText];
        case Completed =>
          toasts := [DeletedText];
          signedOut := true;
          redirect := Some("/");
      }
      deleteLoading := false;
    }

    /** "Go Back": the warning is hidden and the typed confirmation cleared. */
    method GoBack()
      modifies this
      ensures !showDeleteWarning && deleteConfirmation == ""
      ensures passwords == old(passwords) && passwordLoading == old(passwordLoading)
      ensures deleteLoading == old(deleteLoading)
    {
      showDeleteWarning := false;
      deleteConfirmation := "";
    }
  }
}
