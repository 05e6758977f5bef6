/**
 * The administrator's system settings form of
 * dashboard/components/SystemSettings.jsx: the settings record loaded from
 * the server, the single-key update every input makes, the normalisation of
 * the numeric inputs, the defaults the form shows for unset fields, and the
 * save request.
 */
module SystemSettings {
  import opened JsStrings
  import opened JsNumbers
  import opened JsValues

  const TokenExpiryKey: string := "tokenExpiryHours"
  const PasswordMinLengthKey: string := "passwordMinLength"
  const CronBatchSizeKey: string := "cronBatchSize"
  const CronMaxUsersKey: string := "cronMaxUsers"
  const CronTimeBudgetKey: string := "cronTimeBudgetMs"
  const ShowUserPathKey: string := "showUserPath"
  const CaptchaTypeKey: string := "captchaType"

  /** `updateSetting(key, value)` on the record `prev`: `{ ...prev, [key]: value }`. */
  function UpdateSettingStep(prev: Json, key: string, value: Json): Json {
    JObj(Fields(prev)[key := value])
  }

  /** The update gives `key` the new value and keeps every other field of the record as it was. */
  lemma UpdateSettingOnlyKey(prev: Json, key: string, value: Json)
    ensures var next := Fields(UpdateSettingStep(prev, key, value));
      && next.Keys == Fields(prev).Keys + {key}
      && next[key] == value
      && (forall k :: k in Fields(prev) && k != key ==> next[k] == Fields(prev)[k])
  {
  }

  /** Updating the same key twice keeps only the second value. */
  lemma UpdateSettingLastWins(prev: Json, key: string, v1: Json, v2: Json)
    ensures UpdateSettingStep(UpdateSettingStep(prev, key, v1), key, v2) == UpdateSettingStep(prev, key, v2)
  {
  }

  // ---------------------------------------------------------------------------
  // The numeric inputs: what each `onChange` stores for the input's text

  /** Token lifetime in hours: `parseInt(text) || 168`, with no radix. */
  function TokenExpiryInput(text: string): int {
    OrElse(ParseInt(text, 0), 168)
  }

  /** `parseInt(text, 10) || 8`. */
  function PasswordMinLengthInput(text: string): int {
    OrElse(ParseInt(text, 10), 8)
  }

  /** `parseInt(text, 10) || 50`. */
  function CronBatchSizeInput(text: string): int {
    OrElse(ParseInt(text, 10), 50)
  }

  /** `Math.max(0, parseInt(text, 10) || 0)`. */
  function CronMaxUsersInput(text: string): int {
    var p := OrElse(ParseInt(text, 10), 0);
    if p > 0 then p else 0
  }

  /** `parseInt(text, 10) || 20000`. */
  function CronTimeBudgetInput(text: string): int {
    OrElse(ParseInt(text, 10), 20000)
  }

  /**
   * Every field the form writes from a text input is never 0 except the user
   * cap, which is never negative; text that is not a number, or is 0, stores
   * the field's default (0, "no cap", for the user cap).
   */
  lemma NumericInputFallbacks(text: string)
    ensures TokenExpiryInput(text) != 0 && PasswordMinLengthInput(text) != 0
    ensures CronBatchSizeInput(text) != 0 && CronTimeBudgetInput(text) != 0
    ensures CronMaxUsersInput(text) >= 0
    ensures ParseInt(text, 0) == None || ParseInt(text, 0) == Some(0) ==> TokenExpiryInput(text) == 168
    ensures ParseInt(text, 10) == None || ParseInt(text, 10) == Some(0) ==>
      && PasswordMinLengthInput(text) == 8
      && CronBatchSizeInput(text) == 50
      && CronTimeBudgetInput(text) == 20000
      && CronMaxUsersInput(text) == 0
  {
  }

  /**
   * The decimal text of a non-zero integer is stored as that integer (the
   * user cap only when it is positive; a negative cap is stored as 0).
   */
  lemma NumericInputOfDecimal(n: int)
    ensures n != 0 ==> TokenExpiryInput(IntToDecimal(n)) == n
    ensures n != 0 ==> PasswordMinLengthInput(IntToDecimal(n)) == n
    ensures n != 0 ==> CronBatchSizeInput(IntToDecimal(n)) == n
    ensures n != 0 ==> CronTimeBudgetInput(IntToDecimal(n)) == n
    ensures CronMaxUsersInput(IntToDecimal(n)) == if n > 0 then n else 0
  {
    ParseIntOfDecimal(n, 0);
    ParseIntOfDecimal(n, 10);
  }

  // ---------------------------------------------------------------------------
  // What the form shows for each field

  /** `v ?? d` on a field read. */
  function Nullish(v: Option<Json>, d: Json): Json {
    if v.None? || v.value == JNull then d else v.value
  }

  /** The token lifetime shown: `settings.tokenExpiryHours || 168`. */
  function TokenExpiryShown(settings: map<string, Json>): Json {
    var v := Lookup(settings, TokenExpiryKey);
    if Truthy(v) then v.value else JNum(168)
  }

  /** The four `??` fields shown, in order: password length, batch size, user cap, time budget. */
  function NullishShown(settings: map<string, Json>): seq<Json> {
    [Nullish(Lookup(settings, PasswordMinLengthKey), JNum(8)),
     Nullish(Lookup(settings, CronBatchSizeKey), JNum(50)),
     Nullish(Lookup(settings, CronMaxUsersKey), JNum(200)),
     Nullish(Lookup(settings, CronTimeBudgetKey), JNum(20000))]
  }

  /**
   * The lifetime shown falls back on every falsy value, the `??` fields only on
   * a missing or null one: a stored 0 shows as 0 there (and a stored 0 cap
   * shows as 0, not as the 200 of an unset one).
   */
  lemma ShownDefaults(settings: map<string, Json>)
    ensures !Truthy(Lookup(settings, TokenExpiryKey)) ==> TokenExpiryShown(settings) == JNum(168)
    ensures Truthy(Lookup(settings, TokenExpiryKey)) ==> TokenExpiryShown(settings) == settings[TokenExpiryKey]
    ensures CronMaxUsersKey !in settings ==> NullishShown(settings)[2] == JNum(200)
    ensures Lookup(settings, CronMaxUsersKey) == Some(JNum(0)) ==> NullishShown(settings)[2] == JNum(0)
    ensures PasswordMinLengthKey !in settings ==> NullishShown(settings)[0] == JNum(8)
    ensures CronBatchSizeKey !in settings ==> NullishShown(settings)[1] == JNum(50)
    ensures CronTimeBudgetKey !in settings ==> NullishShown(settings)[3] == JNum(20000)
  {
  }

  /** The switch shows "on" unless the field is exactly `false`. */
  predicate ShowsUserPath(settings: map<string, Json>) {
    Lookup(settings, ShowUserPathKey) != Some(JBool(false))
  }

  /** The toggle as written: it stores `!settings.showUserPath`, the negated truthiness. */
  function ToggleShowUserPathAsWritten(settings: map<string, Json>): map<string, Json> {
    settings[ShowUserPathKey := JBool(!Truthy(Lookup(settings, ShowUserPathKey)))]
  }

  /** The toggle that negates what the switch shows. */
  function ToggleShowUserPath(settings: map<string, Json>): map<string, Json> {
    settings[ShowUserPathKey := JBool(!ShowsUserPath(settings))]
  }

  /**
   * On a record without the field the switch shows "on", and the toggle as
   * written stores `true`: the first click leaves the switch "on".
   */
  lemma ToggleAsWrittenStuckWhenUnset(settings: map<string, Json>)
    requires ShowUserPathKey !in settings
    ensures ShowsUserPath(settings)
    ensures ToggleShowUserPathAsWritten(settings)[ShowUserPathKey] == JBool(true)
    ensures ShowsUserPath(ToggleShowUserPathAsWritten(settings))
  {
  }

  /** A concrete record that shows the stuck switch: the empty record the form starts from. */
  lemma ToggleAsWrittenCounterexample()
    ensures ShowsUserPath(map[]) && ShowsUserPath(ToggleShowUserPathAsWritten(map[]))
  {
    ToggleAsWrittenStuckWhenUnset(map[]);
  }

  /** The toggle that negates the shown state always flips the switch and stores a boolean. */
  lemma ToggleFlips(settings: map<string, Json>)
    ensures ShowsUserPath(ToggleShowUserPath(settings)) == !ShowsUserPath(settings)
    ensures ToggleShowUserPath(ToggleShowUserPath(settings))[ShowUserPathKey] == JBool(ShowsUserPath(settings))
  {
  }

  /** The two toggles agree on every record whose field is a boolean already. */
  lemma TogglesAgreeOnBooleans(settings: map<string, Json>, b: bool)
    requires Lookup(settings, ShowUserPathKey) == Some(JBool(b))
    ensures ToggleShowUserPathAsWritten(settings) == ToggleShowUserPath(settings)
  {
  }

  /** The built-in captcha button is highlighted: `(settings.captchaType || 'builtin') === 'builtin'`. */
  predicate BuiltinSelected(settings: map<string, Json>) {
    var v := Lookup(settings, CaptchaTypeKey);
    (if Truthy(v) then v.value else JStr("builtin")) == JStr("builtin")
  }

  /** The Turnstile button is highlighted, and its key fields are shown: `settings.captchaType === 'turnstile'`. */
  predicate TurnstileSelected(settings: map<string, Json>) {
    Lookup(settings, CaptchaTypeKey) == Some(JStr("turnstile"))
  }

  /**
   * An unset (or falsy) captcha type highlights the built-in captcha; at most
   * one button is highlighted; and any other value highlights neither.
   */
  lemma CaptchaButtons(settings: map<string, Json>)
    ensures !Truthy(Lookup(settings, CaptchaTypeKey)) ==> BuiltinSelected(settings)
    ensures !(BuiltinSelected(settings) && TurnstileSelected(settings))
    ensures Truthy(Lookup(settings, CaptchaTypeKey)) ==>
      (BuiltinSelected(settings) <==> settings[CaptchaTypeKey] == JStr("builtin"))
  {
  }

  // ---------------------------------------------------------------------------
  // The form

  /** What the save request gave: no answer (the `fetch` threw) or the response's `ok`. */
  datatype SaveAnswer = Unreachable | Responded(ok: bool)

  class SettingsForm {
    var settings: Json
    var loading: bool
    var saving: bool

    /** The form starts from `{}` and is loading. */
    constructor ()
      ensures settings == JObj(map[]) && loading && !saving
    {
      settings := JObj(map[]);
      loading := true;
      saving := false;
    }

    /** The settings fetch settled: the parsed body replaces the record, or (`data` None) an error toast and the record stays. */
    method Loaded(data: Option<Json>) returns (toastError: bool)
      modifies this
      ensures !loading && saving == old(saving)
      ensures toastError <==> data.None?
      ensures settings == if data.Some? then data.value else old(settings)
    {
      toastError := data.None?;
      if data.Some? {
        settings := data.value;
      }
      loading := false;
    }

    /** `updateSetting(key, value)`. */
    method UpdateSetting(key: string, value: Json)
      modifies this
      ensures settings == UpdateSettingStep(old(settings), key, value)
      ensures loading == old(loading) && saving == old(saving)
    {
      settings := JObj(Fields(settings)[key := value]);
    }

    /** The `showUserPath` switch, flipping what it shows. */
    method ToggleUserPath()
      modifies this
      ensures settings == JObj(ToggleShowUserPath(Fields(old(settings))))
      ensures loading == old(loading) && saving == old(saving)
    {
      var shown := Lookup(Fields(settings), ShowUserPathKey) != Some(JBool(false));
      UpdateSetting(ShowUserPathKey, JBool(!shown));
    }

    /** `handleSave()`: the whole record is posted; success is toasted only on an ok response. */
    method HandleSave(answer: SaveAnswer) returns (body: Json, success: bool)
      modifies this
      ensures body == old(settings) && settings == old(settings)
      ensures success <==> answer == Responded(true)
      ensures !saving && loading == old(loading)
    {
      saving := true;
      body := settings;
      success := answer.Responded? && answer.ok;
      saving := false;
    }
  }
}
