/**
 * The registration form's submit handler: the password confirmation is
 * checked first, then the terms checkbox, and only then is the account
 * requested, for a non-empty email and a password of six characters or
 * more. The loading flag is raised once both checks pass and always
 * lowered at the end.
 */
module Register {
  const MismatchError := "Passwords do not match"
  const TermsError := "You must agree to the terms and conditions"
  const InvalidError := "Invalid email or password (min 6 characters)"
  const FailedError := "Registration failed. Please try again."
  const MinPasswordLength := 6

  /** What one submission does: the error shown, whether it succeeded, called `register`, raised `loading`. */
  datatype Submission = Submission(error: string, succeeded: bool, calledRegister: bool, raisedLoading: bool)

  /**
   * handleSubmit in Register.tsx. `registerThrows` stands for the outcome
   * of the `register` call, whose implementation is not part of this model.
   */
  function Submit(email: string, password: string, confirm: string, agree: bool, registerThrows: bool)
    : (s: Submission)
    ensures s.succeeded ==> s.error == "" && s.calledRegister
    ensures s.calledRegister ==> s.raisedLoading
  {
    if password != confirm then Submission(MismatchError, false, false, false)
    else if !agree then Submission(TermsError, false, false, false)
    else if email != "" && |password| >= MinPasswordLength then
      if registerThrows then Submission(FailedError, false, true, true)
      else Submission("", true, true, true)
    else Submission(InvalidError, false, false, true)
  }

  /** A mismatch is reported first, whatever else is wrong, and nothing else happens. */
  lemma MismatchCheckedFirst(email: string, password: string, confirm: string, agree: bool, registerThrows: bool)
    requires password != confirm
    ensures Submit(email, password, confirm, agree, registerThrows) == Submission(MismatchError, false, false, false)
  {
  }

  /** With matching passwords, not agreeing to the terms is reported and nothing else happens. */
  lemma TermsCheckedSecond(email: string, password: string, agree: bool, registerThrows: bool)
    requires !agree
    ensures Submit(email, password, password, agree, registerThrows) == Submission(TermsError, false, false, false)
  {
  }

  /** `register` is called exactly when both checks pass and the email and password are acceptable. */
  lemma RegisterCalledOnlyWhenValid(email: string, password: string, confirm: string, agree: bool, registerThrows: bool)
    ensures Submit(email, password, confirm, agree, registerThrows).calledRegister
        <==> password == confirm && agree && email != "" && |password| >= MinPasswordLength
  {
  }

  /** Loading is raised exactly when both checks pass. */
  lemma LoadingRaisedAfterChecks(email: string, password: string, confirm: string, agree: bool, registerThrows: bool)
    ensures Submit(email, password, confirm, agree, registerThrows).raisedLoading <==> password == confirm && agree
  {
  }

  /** A submission fails with an error message exactly when it does not succeed. */
  lemma ErrorUnlessSucceeded(email: string, password: string, confirm: string, agree: bool, registerThrows: bool)
    ensures var s := Submit(email, password, confirm, agree, registerThrows);
      s.succeeded <==> s.error == ""
    ensures Submit(email, password, confirm, agree, registerThrows).succeeded
        <==> password == confirm && agree && email != "" && |password| >= MinPasswordLength && !registerThrows
  {
  }

  class RegisterForm {
    var email: string
    var password: string
    var confirm: string
    var agree: bool
    var loading: bool
    var error: string
    var success: bool

    constructor ()
      ensures email == "" && password == "" && confirm == "" && !agree
      ensures !loading && error == "" && !success
    {
      email, password, confirm, agree := "", "", "", false;
      loading, error, success := false, "", false;
    }

    /**
     * handleSubmit, run to completion. `raised` reports whether `loading`
     * was set on the way; it is always false again at the end.
     */
    method HandleSubmit(registerThrows: bool) returns (called: bool, raised: bool)
      modifies this
      ensures var s := Submit(old(email), old(password), old(confirm), old(agree), registerThrows);
        error == s.error && called == s.calledRegister && raised == s.raisedLoading
        && success == (old(success) || s.succeeded)
      ensures raised ==> !loading
      ensures !raised ==> loading == old(loading)
      ensures email == old(email) && password == old(password) && confirm == old(confirm) && agree == old(agree)
    {
      called, raised := false, false;
      error := "";
      if password != confirm {
        error := MismatchError;
        return;
      }
      if !agree {
        error := TermsError;
        return;
      }
      loading := true;
      raised := true;
      if email != "" && |password| >= MinPasswordLength {
        called := true;
        if registerThrows {
          error := FailedError;
        } else {
          success := true;
        }
      } else {
        error := InvalidError;
      }
      loading := false;
    }
  }
}
