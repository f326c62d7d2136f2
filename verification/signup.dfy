/**
 * The sign-up form: the password checks run before the account is requested, and the
 * form's error, success and loading flags around that request.
 */
module Signup {
  import opened Optional

  const MismatchMessage: string := "Passwords do not match"
  const TooShortMessage: string := "Password must be at least 8 characters"
  const FallbackMessage: string := "Failed to create an account"
  const MinPasswordLength: nat := 8

  /** The form's verdict on a password and its confirmation: None when sign-up may proceed. */
  function PasswordError(password: string, confirmPassword: string): (r: Option<string>)
    ensures r.None? <==> password == confirmPassword && |password| >= MinPasswordLength
    ensures password != confirmPassword ==> r == Some(MismatchMessage)
    ensures password == confirmPassword && |password| < MinPasswordLength ==> r == Some(TooShortMessage)
  {
    if password != confirmPassword then Some(MismatchMessage)
    else if |password| < MinPasswordLength then Some(TooShortMessage)
    else None
  }

  /** A mismatch is reported even when the password is also too short. */
  lemma MismatchTakesPrecedence(password: string, confirmPassword: string)
    requires password != confirmPassword && |password| < MinPasswordLength
    ensures PasswordError(password, confirmPassword) == Some(MismatchMessage)
  {
  }

  /** Eight characters are the boundary: seven are refused and eight accepted. */
  lemma LengthBoundary(password: string)
    ensures |password| == 7 ==> PasswordError(password, password) == Some(TooShortMessage)
    ensures |password| == 8 ==> PasswordError(password, password) == None
  {
  }

  /** The form's flags as the page holds them. */
  class SignupForm {
    var error: string
    var success: bool
    var isLoading: bool

    constructor ()
      ensures error == "" && !success && !isLoading
    {
      error := "";
      success := false;
      isLoading := false;
    }

    /**
     * The synchronous part of `handleSubmit`: clear the flags, check the passwords, and
     * either report the first failed check or start loading. The result says whether the
     * account is requested.
     */
    method Submit(password: string, confirmPassword: string) returns (requested: bool)
      modifies this
      ensures requested <==> PasswordError(password, confirmPassword).None?
      ensures !success
      ensures requested ==> error == "" && isLoading
      ensures !requested ==> error == PasswordError(password, confirmPassword).value && isLoading == old(isLoading)
    {
      error := "";
      success := false;
      var problem := PasswordError(password, confirmPassword);
      if problem.Some? {
        error := problem.value;
        return false;
      }
      isLoading := true;
      requested := true;
    }

    /**
     * The rest of `handleSubmit` once the request settles: `failure` is None when the account
     * was created, or the error's message (possibly empty) when it was not.
     */
    method Settle(failure: Option<string>)
      modifies this
      ensures !isLoading
      ensures failure.None? ==> success && error == old(error)
      ensures failure.Some? ==> success == old(success)
      ensures failure.Some? ==> error == if failure.value != "" then failure.value else FallbackMessage
    {
      if failure.None? {
        success := true;
      } else {
        error := if failure.value != "" then failure.value else FallbackMessage;
      }
      isLoading := false;
    }
  }

  /** Submitting a matching eight-character password that the service accepts ends in success, not loading, no error. */
  method SuccessfulSignup(password: string) returns (error: string, success: bool, isLoading: bool)
    requires |password| == MinPasswordLength
    ensures error == "" && success && !isLoading
  {
    var form := new SignupForm();
    var requested := form.Submit(password, password);
    assert requested;
    form.Settle(None);
    error, success, isLoading := form.error, form.success, form.isLoading;
  }
}
