/** The email-verification page: it reads the email and token from the
    link, calls the verification endpoint once, and ends in a success or an
    error status with a message. */
module VerifyEmail {
  import opened Wrappers
  import opened Text

  const InvalidLinkMessage := "유효하지 않은 인증 링크입니다."
  const VerifiedMessage := "이메일 인증이 완료되었습니다. 이제 로그인이 가능합니다."
  const RefusedDefault := "인증에 실패했습니다. 링크가 만료되었거나 이미 사용되었을 수 있습니다."
  const ThrownDefault := "인증 처리 중 오류가 발생했습니다."

  datatype Status = Loading | Success | Error

  /** What the verification call did: resolved with success, resolved with
      `success: false` and perhaps a message, or threw an error that perhaps
      has a message. */
  datatype VerifyReply = Verified | Refused(message: Option<string>) | Threw(message: Option<string>)

  /** Whether the link carries both parameters, each non-empty. */
  predicate LinkIsValid(email: Option<string>, token: Option<string>) {
    IsTruthy(email) && IsTruthy(token)
  }

  /** The status and message the effect ends with. */
  function Outcome(email: Option<string>, token: Option<string>, reply: VerifyReply): (r: (Status, string))
    ensures r.0 != Loading && r.1 != ""
    ensures r.0 == Success <==> LinkIsValid(email, token) && reply == Verified
    ensures r.0 == Success ==> r.1 == VerifiedMessage
    ensures !LinkIsValid(email, token) ==> r == (Error, InvalidLinkMessage)
    ensures LinkIsValid(email, token) && reply.Refused? ==>
      r.1 == if IsTruthy(reply.message) then reply.message.value else RefusedDefault
    ensures LinkIsValid(email, token) && reply.Threw? ==>
      r.1 == if IsTruthy(reply.message) then reply.message.value else ThrownDefault
  {
    if !LinkIsValid(email, token) then (Error, InvalidLinkMessage)
    else match reply
      case Verified => (Success, VerifiedMessage)
      case Refused(m) => (Error, OrElse(m, RefusedDefault))
      case Threw(m) => (Error, OrElse(m, ThrownDefault))
  }

  class VerifyEmailPage {
    var status: Status
    var message: string
    /** The verification calls made, as (email, token). */
    var verifyCalls: seq<(string, string)>

    constructor()
      ensures status == Loading && message == "" && verifyCalls == []
    {
      status := Loading;
      message := "";
      verifyCalls := [];
    }

    /** The effect, for the link's parameters and the call's outcome. */
    method Run(email: Option<string>, token: Option<string>, reply: VerifyReply)
      modifies this
      ensures (status, message) == Outcome(email, token, reply)
      ensures LinkIsValid(email, token) ==> verifyCalls == old(verifyCalls) + [(email.value, token.value)]
      ensures !LinkIsValid(email, token) ==> verifyCalls == old(verifyCalls)
    {
      if !IsTruthy(email) || !IsTruthy(token) {
        status := Error;
        message := InvalidLinkMessage;
        return;
      }
      verifyCalls := verifyCalls + [(email.value, token.value)];
      match reply {
        case Verified =>
          status := Success;
          message := VerifiedMessage;
        case Refused(m) =>
          status := Error;
          message := OrElse(m, RefusedDefault);
        case Threw(m) =>
          status := Error;
          message := OrElse(m, ThrownDefault);
      }
    }
  }
}
