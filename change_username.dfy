/**
 * The username form of dashboard/components/ChangeUsernameModal.jsx: the
 * field's initial value, the two checks before a request, and what the
 * answer of the request does.
 */
module ChangeUsername {
  import opened JsStrings
  import opened JsValues

  /** `useState(currentUsername || '')`. */
  function InitialName(currentUsername: Option<string>): (name: string)
    ensures currentUsername.Some? ==> name == currentUsername.value
    ensures currentUsername.None? ==> name == ""
  {
    if currentUsername.Some? && currentUsername.value != "" then currentUsername.value else ""
  }

  datatype Toast = NoToast | Warning(text: string) | Info(text: string) | Failure(text: string)

  /** What the request gave: a network failure, or a response with its `ok` flag and its body (None when it did not parse). */
  datatype Answer = Unreachable | Responded(ok: bool, body: Option<Json>)

  /** `handleSave`: the request body sent, the toast shown, and the name handed to `onSuccess`. */
  datatype SaveEffect = SaveEffect(request: Option<Json>, toast: Toast, succeeded: Option<string>)

  /** The message of a failed response: its `error` field when truthy, `修改失败` otherwise, also when the body is unusable. */
  function FailureText(body: Option<Json>): string {
    if body.Some? && body.value != JNull && Truthy(Get(body.value, "error")) then ToJsString(Get(body.value, "error").value)
    else "修改失败"
  }

  function Save(username: string, currentUsername: Option<string>, answer: Answer): SaveEffect {
    if Trim(username) == "" then SaveEffect(None, Warning("用户名不能为空"), None)
    else if currentUsername == Some(username) then SaveEffect(None, Info("用户名未修改"), None)
    else
      var request := Some(JObj(map["newUsername" := JStr(username)]));
      match answer
      case Unreachable => SaveEffect(request, Failure("修改失败"), None)
      case Responded(ok, body) =>
        if ok then SaveEffect(request, NoToast, Some(username)) else SaveEffect(request, Failure(FailureText(body)), None)
  }

  /** The modal's state fields. */
  class UsernameModal {
    var username: string
    var saving: bool

    constructor (currentUsername: Option<string>)
      ensures username == InitialName(currentUsername) && !saving
    {
      username := if currentUsername.Some? && currentUsername.value != "" then currentUsername.value else "";
      saving := false;
    }

    method HandleSave(currentUsername: Option<string>, answer: Answer) returns (effect: SaveEffect)
      requires !saving
      modifies this
      ensures effect == Save(old(username), currentUsername, answer)
      ensures username == old(username) && !saving
    {
      if Trim(username) == "" {
        return SaveEffect(None, Warning("用户名不能为空"), None);
      }
      if currentUsername == Some(username) {
        return SaveEffect(None, Info("用户名未修改"), None);
      }
      saving := true;
      var request := Some(JObj(map["newUsername" := JStr(username)]));
      match answer {
        case Unreachable =>
          effect := SaveEffect(request, Failure("修改失败"), None);
        case Responded(ok, body) =>
          effect := if ok then SaveEffect(request, NoToast, Some(username)) else SaveEffect(request, Failure(FailureText(body)), None);
      }
      saving := false;
    }
  }

  /**
   * No request is sent for an empty or whitespace-only name (a warning) or
   * for the current name (an info); every other name is sent as it was typed.
   */
  lemma SaveChecks(username: string, currentUsername: Option<string>, answer: Answer)
    ensures var e := Save(username, currentUsername, answer);
      && (e.toast.Warning? <==> AllWhiteSpace(username))
      && (e.toast.Info? <==> !AllWhiteSpace(username) && currentUsername == Some(username))
      && (e.request.Some? <==> !AllWhiteSpace(username) && currentUsername != Some(username))
      && (e.request.Some? ==> e.request.value == JObj(map["newUsername" := JStr(username)]))
  {
    TrimEmptyIffAllWhiteSpace(username);
  }

  /** `onSuccess` is called exactly on an ok response, with the untrimmed name that was sent. */
  lemma SuccessPassesSentName(username: string, currentUsername: Option<string>, answer: Answer)
    ensures var e := Save(username, currentUsername, answer);
      && (e.succeeded.Some? <==> e.request.Some? && answer.Responded? && answer.ok)
      && (e.succeeded.Some? ==> e.succeeded.value == username && e.request.value.fields["newUsername"] == JStr(username))
  {
  }

  /**
   * A name with surrounding whitespace is sent with it, even though only its
   * trimmed form is tested for emptiness: typing spaces around the current
   * name is not "unchanged", and the untrimmed name is what the request carries.
   */
  lemma UntrimmedNameSent(username: string, answer: Answer)
    requires !AllWhiteSpace(username) && Trim(username) != username
    ensures var e := Save(username, Some(Trim(username)), answer);
      && e.request == Some(JObj(map["newUsername" := JStr(username)]))
      && (answer == Responded(true, None) ==> e == SaveEffect(e.request, NoToast, Some(username)))
  {
    TrimEmptyIffAllWhiteSpace(username);
  }
}
