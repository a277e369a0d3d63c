/** The signup form's submit handler: the password checks, in their order,
    and what the page does with the signup call's outcome. */
module Signup {
  import opened Wrappers
  import opened Text
  import Auth

  const MismatchMessage := "비밀번호가 일치하지 않습니다."
  const TooShortMessage := "비밀번호는 8자 이상이어야 합니다."
  const FailureMessage := "회원가입에 실패했습니다. 다시 시도해주세요."
  const MinPasswordLength := 8

  datatype SignupForm = SignupForm(email: string, name: string, password: string, confirmPassword: string)

  /** The validation message, if any: the mismatch check runs first. */
  function ValidationError(form: SignupForm): (e: Option<string>)
    ensures e.None? <==> form.password == form.confirmPassword && Utf16Length(form.password) >= MinPasswordLength
    ensures form.password != form.confirmPassword ==> e == Some(MismatchMessage)
    ensures form.password == form.confirmPassword && Utf16Length(form.password) < MinPasswordLength ==>
      e == Some(TooShortMessage)
  {
    if form.password != form.confirmPassword then Some(MismatchMessage)
    else if Utf16Length(form.password) < MinPasswordLength then Some(TooShortMessage)
    else None
  }

  /** What the signup call did: resolved with success, resolved with
      `success: false`, or threw. */
  datatype SignupReply = Succeeded | Refused | Threw

  class SignupPage {
    var error: string
    var isLoading: bool
    var navigatedTo: Option<string>
    /** The signup calls made, as (email, password, name). */
    var signupCalls: seq<(string, string, string)>

    constructor()
      ensures error == "" && !isLoading && navigatedTo.None? && signupCalls == []
    {
      error := "";
      isLoading := false;
      navigatedTo := None;
      signupCalls := [];
    }

    /** `handleSubmit`, with the call's outcome given as `reply`. */
    method HandleSubmit(form: SignupForm, reply: SignupReply)
      modifies this
      ensures ValidationError(form).Some? ==>
        error == ValidationError(form).value && signupCalls == old(signupCalls) && navigatedTo == old(navigatedTo)
        && isLoading == old(isLoading)
      ensures ValidationError(form).None? ==>
        signupCalls == old(signupCalls) + [(form.email, form.password, form.name)] && !isLoading
      ensures ValidationError(form).None? && reply == Succeeded ==> error == "" && navigatedTo == Some(Auth.LoginPath)
      ensures ValidationError(form).None? && reply == Refused ==> error == "" && navigatedTo == old(navigatedTo)
      ensures ValidationError(form).None? && reply == Threw ==> error == FailureMessage && navigatedTo == old(navigatedTo)
    {
      error := "";
      if form.password != form.confirmPassword {
        error := MismatchMessage;
        return;
      }
      if Utf16Length(form.password) < MinPasswordLength {
        error := TooShortMessage;
        return;
      }
      isLoading := true;
      signupCalls := signupCalls + [(form.email, form.password, form.name)];
      if reply == Succeeded {
        navigatedTo := Some(Auth.LoginPath);
      } else if reply == Threw {
        error := FailureMessage;
      }
      isLoading := false;
    }
  }
}
