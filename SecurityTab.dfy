/** client/src/components/admin/SecurityTab.tsx: the change-password form,
    its validation, and what a submission does to it. The call that changes
    the password is not defined in the client's storage module, so its
    outcome is a parameter. */
module SecurityTab {
  import opened Js
  import opened Browser

  datatype PasswordForm = PasswordForm(currentPassword: string, newPassword: string, confirmPassword: string)

  const EmptyPasswordForm := PasswordForm("", "", "")

  /** The issues `passwordFormSchema` reports, each as (field, message).
      The match check runs alongside the length checks and reports on
      `confirmPassword`. */
  function PasswordFormErrors(f: PasswordForm): set<(string, string)> {
    (if |f.currentPassword| < 1 then {("currentPassword", "Current password is required")} else {})
    + (if |f.newPassword| < 6 then {("newPassword", "New password must be at least 6 characters")} else {})
    + (if |f.confirmPassword| < 6 then {("confirmPassword", "Confirm password is required")} else {})
    + (if f.newPassword != f.confirmPassword then {("confirmPassword", "Passwords don't match")} else {})
  }

  predicate PasswordFormValid(f: PasswordForm) {
    PasswordFormErrors(f) == {}
  }

  /** The form is valid exactly when the current password is not empty,
      the new one has at least six characters, and the confirmation
      repeats it; a mismatch is reported on the confirmation field. */
  lemma PasswordFormRules(f: PasswordForm)
    ensures PasswordFormValid(f) <==> f.currentPassword != "" && |f.newPassword| >= 6 && f.confirmPassword == f.newPassword
    ensures f.newPassword != f.confirmPassword <==> ("confirmPassword", "Passwords don't match") in PasswordFormErrors(f)
    ensures ("currentPassword", "Current password is required") in PasswordFormErrors(f) <==> f.currentPassword == ""
    ensures forall e :: e in PasswordFormErrors(f) ==> e.0 in {"currentPassword", "newPassword", "confirmPassword"}
  {
    if f.currentPassword == "" {
      assert ("currentPassword", "Current password is required") in PasswordFormErrors(f);
    }
    if |f.newPassword| < 6 {
      assert ("newPassword", "New password must be at least 6 characters") in PasswordFormErrors(f);
    }
    if f.newPassword != f.confirmPassword {
      assert ("confirmPassword", "Passwords don't match") in PasswordFormErrors(f);
    }
  }

  /** What the password change answered: success, a refusal with the
      server's message, or an exception. */
  datatype ChangeResult = Changed | Refused(message: string) | Threw

  /** The tab's state. */
  class SecurityForm {
    var form: PasswordForm
    var isSubmitting: bool
    var toast: Option<Toast>

    constructor ()
      ensures form == EmptyPasswordForm && !isSubmitting && toast == None
    {
      form := EmptyPasswordForm;
      isSubmitting := false;
      toast := None;
    }

    /** `onSubmit(data)`, run on valid form data only. Success clears the
        three fields; a refusal shows the server's message and keeps the
        form, as does an exception with a generic message. */
    method Submit(data: PasswordForm, result: ChangeResult)
      requires PasswordFormValid(data)
      modifies this`form, this`isSubmitting, this`toast
      ensures !isSubmitting
      ensures result.Changed? ==>
        form == EmptyPasswordForm && toast == Some(Toast("Password changed successfully", "Your admin password has been updated.", false))
      ensures result.Refused? ==>
        form == old(form) && toast == Some(Toast("Failed to change password", result.message, true))
      ensures result.Threw? ==>
        form == old(form) && toast == Some(Toast("Error", "An unexpected error occurred while changing your password.", true))
    {
      isSubmitting := true;
      match result {
        case Changed =>
          toast := Some(Toast("Password changed successfully", "Your admin password has been updated.", false));
          form := EmptyPasswordForm;
        case Refused(message) =>
          toast := Some(Toast("Failed to change password", message, true));
        case Threw =>
          toast := Some(Toast("Error", "An unexpected error occurred while changing your password.", true));
      }
      isSubmitting := false;
    }
  }
}
