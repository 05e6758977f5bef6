/**
 * The login form of frontend/dashboard/components/Login.jsx: which captcha
 * the public settings select, the checks `handleSubmit` makes before it
 * sends anything, the body it sends, and how a failed attempt resets the
 * captcha.
 */
module LoginForm {
  import opened JsStrings
  import opened JsValues

  /** What the public settings select: the captcha type, the Turnstile site key, and whether Turnstile is usable. */
  datatype CaptchaSettings = CaptchaSettings(captchaType: Json, siteKey: Json, configured: bool)

  const Builtin: Json := JStr("builtin")
  const Turnstile: Json := JStr("turnstile")

  /** The state before the settings arrive. */
  const InitialCaptcha: CaptchaSettings := CaptchaSettings(Builtin, JStr(""), false)

  /** `x || d` on a property that may be missing. */
  function OrDefault(v: Option<Json>, d: Json): (r: Json)
    ensures Truthy(v) ==> r == v.value
    ensures !Truthy(v) ==> r == d
  {
    if Truthy(v) then v.value else d
  }

  /** `loadPublicSettings` with the parsed body; a body of `null` throws and keeps the previous settings. */
  function LoadPublicSettings(previous: CaptchaSettings, data: Json): CaptchaSettings {
    if data == JNull then previous
    else
      var captchaType := OrDefault(Get(data, "captchaType"), Builtin);
      var siteKey := OrDefault(Get(data, "turnstileSiteKey"), JStr(""));
      CaptchaSettings(captchaType, siteKey, captchaType == Turnstile && Truthy(Some(siteKey)))
  }

  const TurnstileMissing: string := "人机验证未配置，请联系管理员"
  const TurnstilePending: string := "请完成人机验证"
  const CodeMissing: string := "请输入验证码"

  /** The checks before the request: Turnstile must be configured and solved; any other type needs a typed code. */
  function Guard(c: CaptchaSettings, turnstileToken: string, captchaCode: string): Option<string> {
    if c.captchaType == Turnstile then
      if !c.configured then Some(TurnstileMissing)
      else if turnstileToken == "" then Some(TurnstilePending)
      else None
    else if captchaCode == "" then Some(CodeMissing)
    else None
  }

  /** The login body: credentials plus the builtin captcha's id and code, or else the Turnstile token. */
  function Body(c: CaptchaSettings, username: string, password: string, captchaId: string, captchaCode: string, turnstileToken: string): Json {
    var credentials := map["username" := JStr(username), "password" := JStr(password)];
    if c.captchaType == Builtin then JObj(credentials + map["captchaId" := JStr(captchaId), "captchaCode" := JStr(captchaCode)])
    else JObj(credentials + map["turnstileToken" := JStr(turnstileToken)])
  }

  /** What the login request gave: no usable answer (network failure or unparsable body), or its `ok` flag and body. */
  datatype Answer = Unreachable | Responded(ok: bool, data: Json)

  /**
   * The outcome of `handleSubmit`: the body sent, the error shown, whether a
   * new builtin captcha is loaded, the Turnstile token afterwards, and the
   * response body handed to `login` on success.
   */
  datatype SubmitEffect = SubmitEffect(request: Option<Json>, error: string, reloadCaptcha: bool, turnstileToken: string, loggedIn: Option<Json>)

  /** A failed attempt: a new builtin captcha, or a cleared Turnstile token. */
  function FailureReset(c: CaptchaSettings, request: Json, error: string, turnstileToken: string): SubmitEffect {
    if c.captchaType == Builtin then SubmitEffect(Some(request), error, true, turnstileToken, None)
    else SubmitEffect(Some(request), error, false, "", None)
  }

  function Submit(c: CaptchaSettings, username: string, password: string, captchaId: string, captchaCode: string,
                  turnstileToken: string, answer: Answer, error: string): SubmitEffect {
    match Guard(c, turnstileToken, captchaCode)
    case Some(message) => SubmitEffect(None, message, false, turnstileToken, None)
    case None =>
      var request := Body(c, username, password, captchaId, captchaCode, turnstileToken);
      match answer
      case Unreachable => FailureReset(c, request, "网络错误，请重试", turnstileToken)
      case Responded(ok, data) =>
        if data == JNull then FailureReset(c, request, "网络错误，请重试", turnstileToken)
        else if ok then SubmitEffect(Some(request), "", false, turnstileToken, Some(data))
        else FailureReset(c, request, ToJsString(OrDefault(Get(data, "error"), JStr("登录失败"))), turnstileToken)
  }

  /** The form's state fields. */
  class Form {
    var captcha: CaptchaSettings
    var turnstileToken: string
    var error: string
    var loading: bool

    constructor ()
      ensures captcha == InitialCaptcha && turnstileToken == "" && error == "" && !loading
    {
      captcha := InitialCaptcha;
      turnstileToken := "";
      error := "";
      loading := false;
    }

    /** `loadPublicSettings()`; None stands for a request or body that failed, which changes nothing. */
    method LoadPublicSettingsNow(data: Option<Json>)
      modifies this
      ensures captcha == if data.Some? then LoadPublicSettings(old(captcha), data.value) else old(captcha)
      ensures turnstileToken == old(turnstileToken) && error == old(error) && loading == old(loading)
    {
      if data.Some? && data.value != JNull {
        var captchaType := OrDefault(Get(data.value, "captchaType"), Builtin);
        var siteKey := OrDefault(Get(data.value, "turnstileSiteKey"), JStr(""));
        captcha := CaptchaSettings(captchaType, siteKey, captchaType == Turnstile && Truthy(Some(siteKey)));
      }
    }

    method HandleSubmit(username: string, password: string, captchaId: string, captchaCode: string, answer: Answer)
      returns (effect: SubmitEffect)
      modifies this
      ensures effect == Submit(old(captcha), username, password, captchaId, captchaCode, old(turnstileToken), answer, old(error))
      ensures error == effect.error && turnstileToken == effect.turnstileToken && captcha == old(captcha)
      ensures loading == (old(loading) && effect.request.None?)
    {
      var check := Guard(captcha, turnstileToken, captchaCode);
      if check.Some? {
        error := check.value;
        return SubmitEffect(None, error, false, turnstileToken, None);
      }
      loading := true;
      error := "";
      var request := Body(captcha, username, password, captchaId, captchaCode, turnstileToken);
      if answer.Responded? && answer.data != JNull && answer.ok {
        effect := SubmitEffect(Some(request), "", false, turnstileToken, Some(answer.data));
      } else {
        error := if answer.Responded? && answer.data != JNull
          then ToJsString(OrDefault(Get(answer.data, "error"), JStr("登录失败"))) else "网络错误，请重试";
        if captcha.captchaType == Builtin {
          effect := SubmitEffect(Some(request), error, true, turnstileToken, None);
        } else {
          turnstileToken := "";
          effect := SubmitEffect(Some(request), error, false, "", None);
        }
      }
      loading := false;
    }
  }

  /**
   * Without a captcha type from the server the form uses the builtin
   * captcha, and Turnstile counts as configured exactly when the type is
   * `turnstile` and the site key is not empty.
   */
  lemma CaptchaSelection(previous: CaptchaSettings, data: Json)
    requires data != JNull
    ensures var c := LoadPublicSettings(previous, data);
      && (!Truthy(Get(data, "captchaType")) ==> c.captchaType == Builtin && !c.configured)
      && (c.configured <==> Get(data, "captchaType") == Some(Turnstile) && Truthy(Get(data, "turnstileSiteKey")))
  {
  }

  /**
   * The guard chain: in Turnstile mode an unconfigured Turnstile and a
   * missing token are two different errors; otherwise a missing code is an
   * error; a request is sent exactly when none applies.
   */
  lemma GuardChain(c: CaptchaSettings, username: string, password: string, captchaId: string, captchaCode: string,
                   turnstileToken: string, answer: Answer, error: string)
    ensures var e := Submit(c, username, password, captchaId, captchaCode, turnstileToken, answer, error);
      && (e.request.Some? <==> Guard(c, turnstileToken, captchaCode).None?)
      && (c.captchaType == Turnstile && !c.configured ==> e.request.None? && e.error == TurnstileMissing)
      && (c.captchaType == Turnstile && c.configured && turnstileToken == "" ==> e.request.None? && e.error == TurnstilePending)
      && (c.captchaType == Builtin && captchaCode == "" ==> e.request.None? && e.error == CodeMissing)
      && TurnstileMissing != TurnstilePending
  {
  }

  /** The builtin body carries the captcha id and code and no token; any other body carries only the token besides the credentials. */
  lemma BodyShape(c: CaptchaSettings, username: string, password: string, captchaId: string, captchaCode: string, turnstileToken: string)
    ensures var b := Body(c, username, password, captchaId, captchaCode, turnstileToken);
      && b.JObj? && b.fields["username"] == JStr(username) && b.fields["password"] == JStr(password)
      && (c.captchaType == Builtin ==> b.fields.Keys == {"username", "password", "captchaId", "captchaCode"})
      && (c.captchaType == Builtin ==> b.fields["captchaId"] == JStr(captchaId) && b.fields["captchaCode"] == JStr(captchaCode))
      && (c.captchaType != Builtin ==> b.fields.Keys == {"username", "password", "turnstileToken"})
      && (c.captchaType != Builtin ==> b.fields["turnstileToken"] == JStr(turnstileToken))
  {
  }

  /** After any failed attempt the builtin captcha is reloaded and the Turnstile token is kept, or, in any other mode, the token is cleared. */
  lemma FailureResetsCaptcha(c: CaptchaSettings, username: string, password: string, captchaId: string, captchaCode: string,
                             turnstileToken: string, answer: Answer, error: string)
    requires Guard(c, turnstileToken, captchaCode).None?
    requires !(answer.Responded? && answer.ok && answer.data != JNull)
    ensures var e := Submit(c, username, password, captchaId, captchaCode, turnstileToken, answer, error);
      && e.loggedIn.None?
      && (c.captchaType == Builtin ==> e.reloadCaptcha && e.turnstileToken == turnstileToken)
      && (c.captchaType != Builtin ==> !e.reloadCaptcha && e.turnstileToken == "")
  {
  }

  /**
   * A captcha type that is neither `builtin` nor `turnstile` is checked like
   * the builtin one, so a code must be typed, yet the body then carries the
   * Turnstile token and not the code.
   */
  lemma UnknownCaptchaType(c: CaptchaSettings, username: string, password: string, captchaId: string, turnstileToken: string)
    requires c.captchaType != Builtin && c.captchaType != Turnstile
    ensures Guard(c, turnstileToken, "") == Some(CodeMissing)
    ensures "captchaCode" !in Body(c, username, password, captchaId, "1234", turnstileToken).fields
  {
  }
}
