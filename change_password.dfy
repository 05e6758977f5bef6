/**
 * The password form of dashboard/components/ChangePasswordModal.jsx: the
 * two checks on the new password, in their order, the choice between the
 * administrator's per-user endpoint and the self-service one, and what the
 * answer of the request does to the form.
 */
module ChangePassword {
  import opened JsStrings
  import opened JsNumbers
  import opened JsValues

  /** The `minLength` prop, which defaults to 8 when it is not given. */
  function EffectiveMinLength(prop: Option<int>): (n: int)
    ensures prop.None? ==> n == 8
    ensures prop.Some? ==> n == prop.value
  {
    if prop.None? then 8 else prop.value
  }

  const MismatchError: string := "两次输入的密码不一致"
  const FailedError: string := "修改失败，请重试"
  const NetworkError: string := "网络错误"

  function TooShortError(minLength: int): string {
    "密码长度至少为" + IntToDecimal(minLength) + "位"
  }

  /**
   * The checks before any request: the confirmation must match, then the
   * length, counted in UTF-16 code units as `newPassword.length` counts, must
   * reach the minimum.
   */
  function Check(newPassword: string, confirmPassword: string, minLength: int): Option<string> {
    if newPassword != confirmPassword then Some(MismatchError)
    else if Utf16Length(newPassword) < minLength then Some(TooShortError(minLength))
    else None
  }

  /** The endpoint: an administrator resets the given user's password, anyone else changes their own. */
  function Endpoint(isAdmin: bool, userId: Json): string {
    if isAdmin then "/api/dashboard/admin/user/" + ToJsString(userId) + "/password" else "/api/dashboard/user/password"
  }

  datatype Request = Request(url: string, body: Json)

  /** What the request gave: a network failure, or a response with its `ok` flag. */
  datatype Answer = Unreachable | Responded(ok: bool)

  /** The form after `handleSubmit`: the request sent, the error shown, and whether `onClose(true)` was called. */
  datatype SubmitEffect = SubmitEffect(request: Option<Request>, error: string, closed: bool)

  /** `handleSubmit` with the form's values, the error shown before, and the answer the request would get. */
  function Submit(newPassword: string, confirmPassword: string, minLength: int, isAdmin: bool, userId: Json,
                  answer: Answer, error: string): SubmitEffect {
    match Check(newPassword, confirmPassword, minLength)
    case Some(message) => SubmitEffect(None, message, false)
    case None =>
      var request := Some(Request(Endpoint(isAdmin, userId), JObj(map["newPassword" := JStr(newPassword)])));
      match answer
      case Unreachable => SubmitEffect(request, NetworkError, false)
      case Responded(ok) => if ok then SubmitEffect(request, error, true) else SubmitEffect(request, FailedError, false)
  }

  /** The modal's state fields. */
  class PasswordModal {
    var loading: bool
    var error: string
    var closed: bool

    constructor ()
      ensures !loading && error == "" && !closed
    {
      loading := false;
      error := "";
      closed := false;
    }

    method HandleSubmit(newPassword: string, confirmPassword: string, minLength: int, isAdmin: bool, userId: Json,
                        answer: Answer) returns (request: Option<Request>)
      modifies this
      ensures var e := Submit(newPassword, confirmPassword, minLength, isAdmin, userId, answer, old(error));
        request == e.request && error == e.error && closed == (old(closed) || e.closed)
      ensures loading == (old(loading) && request.None?)
    {
      if newPassword != confirmPassword {
        error := MismatchError;
        return None;
      }
      if Utf16Length(newPassword) < minLength {
        error := TooShortError(minLength);
        return None;
      }
      loading := true;
      var url := if isAdmin then "/api/dashboard/admin/user/" + ToJsString(userId) + "/password" else "/api/dashboard/user/password";
      request := Some(Request(url, JObj(map["newPassword" := JStr(newPassword)])));
      match answer {
        case Unreachable =>
          error := NetworkError;
        case Responded(ok) =>
          if ok {
            closed := true;
          } else {
            error := FailedError;
          }
      }
      loading := false;
    }
  }

  /**
   * A request is sent exactly when the confirmation matches and the password
   * is long enough; a mismatch is reported first, whatever the length, and a
   * short password is reported with the minimum.
   */
  lemma CheckOrder(newPassword: string, confirmPassword: string, minLength: int, isAdmin: bool, userId: Json, answer: Answer, error: string)
    ensures var e := Submit(newPassword, confirmPassword, minLength, isAdmin, userId, answer, error);
      && (e.request.Some? <==> newPassword == confirmPassword && Utf16Length(newPassword) >= minLength)
      && (newPassword != confirmPassword ==> e == SubmitEffect(None, MismatchError, false))
      && (newPassword == confirmPassword && Utf16Length(newPassword) < minLength ==> e == SubmitEffect(None, TooShortError(minLength), false))
  {
  }

  /**
   * Four characters outside the Basic Multilingual Plane are eight code units:
   * they pass the default minimum of 8 although they are four characters.
   */
  lemma AstralCharactersCountTwice()
    ensures Utf16Length("\U{1F600}\U{1F600}\U{1F600}\U{1F600}") == 8
    ensures Check("\U{1F600}\U{1F600}\U{1F600}\U{1F600}", "\U{1F600}\U{1F600}\U{1F600}\U{1F600}", EffectiveMinLength(None)) == None
  {
  }

  /** The request goes to the per-user endpoint of `userId` for an administrator and to the self endpoint otherwise, carrying only the new password. */
  lemma EndpointChoice(newPassword: string, minLength: int, isAdmin: bool, userId: Json, answer: Answer, error: string)
    requires Utf16Length(newPassword) >= minLength
    ensures var e := Submit(newPassword, newPassword, minLength, isAdmin, userId, answer, error);
      && e.request.Some?
      && e.request.value.body == JObj(map["newPassword" := JStr(newPassword)])
      && (isAdmin ==> e.request.value.url == "/api/dashboard/admin/user/" + ToJsString(userId) + "/password")
      && (!isAdmin ==> e.request.value.url == "/api/dashboard/user/password")
  {
  }

  /**
   * The modal closes exactly on an ok response; otherwise it stays open with
   * the failure message, or the network message when there was no response.
   */
  lemma ClosesOnlyOnOk(newPassword: string, confirmPassword: string, minLength: int, isAdmin: bool, userId: Json, answer: Answer, error: string)
    ensures var e := Submit(newPassword, confirmPassword, minLength, isAdmin, userId, answer, error);
      && (e.closed <==> e.request.Some? && answer == Responded(true))
      && (e.request.Some? && answer == Responded(false) ==> e.error == FailedError)
      && (e.request.Some? && answer == Unreachable ==> e.error == NetworkError)
  {
  }

  /** The length message names the minimum, by default 8. */
  lemma DefaultTooShortMessage()
    ensures TooShortError(EffectiveMinLength(None)) == "密码长度至少为8位"
  {
  }
}
