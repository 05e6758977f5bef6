/**
 * The login state of frontend/dashboard/contexts/AuthContext.jsx: the token,
 * role, secret path, frontend URL and must-change-password flag, mirrored in
 * `localStorage`, with the `login`, `logout` and `updatePath` transitions and
 * the start-up validation of a remembered token.
 *
 * `localStorage` is a map from keys to strings; the two requests of the
 * validation are an input describing what they answered.
 */
module AuthContext {
  import opened JsStrings

  const FrontendDefaultUrl: string := "https://sub-store.vercel.app/"

  const TokenKey: string := "ss_token"
  const RoleKey: string := "ss_role"
  const PathKey: string := "ss_path"
  const FrontendUrlKey: string := "ss_frontend_url"
  const MustChangeKey: string := "ss_must_change_password"

  /** The provider's state fields and the storage behind them; None is `null`. */
  datatype AuthState = AuthState(
    token: Option<string>,
    role: Option<string>,
    userPath: Option<string>,
    frontendUrl: string,
    mustChangePassword: bool,
    validating: bool,
    storage: map<string, string>)

  /** `localStorage.getItem(key)`. */
  function GetItem(storage: map<string, string>, key: string): Option<string> {
    if key in storage then Some(storage[key]) else None
  }

  /** JavaScript truthiness of a string that may be `null`. */
  predicate Present(v: Option<string>) {
    v.Some? && v.value != ""
  }

  /** `isAuthenticated`: `!!token`. */
  predicate IsAuthenticated(s: AuthState) {
    Present(s.token)
  }

  /** `isAdmin`: `role === 'admin'`. */
  predicate IsAdmin(s: AuthState) {
    s.role == Some("admin")
  }

  /** The state the provider starts from, read from storage. */
  function Initial(storage: map<string, string>): AuthState {
    var url := GetItem(storage, FrontendUrlKey);
    AuthState(
      GetItem(storage, TokenKey), GetItem(storage, RoleKey), GetItem(storage, PathKey),
      if Present(url) then url.value else FrontendDefaultUrl,
      GetItem(storage, MustChangeKey) == Some("1"),
      Present(GetItem(storage, TokenKey)),
      storage)
  }

  /** `path || ''`. */
  function OrEmpty(v: Option<string>): string {
    if Present(v) then v.value else ""
  }

  /** `login(newToken, newRole, path, feUrl, mustChange)`. */
  function Login(s: AuthState, newToken: string, newRole: string, path: Option<string>, feUrl: Option<string>, mustChange: bool): AuthState {
    var stored := s.storage[TokenKey := newToken][RoleKey := newRole][PathKey := OrEmpty(path)];
    var stored' := if Present(feUrl) then stored[FrontendUrlKey := feUrl.value] else stored;
    AuthState(Some(newToken), Some(newRole), Some(OrEmpty(path)),
      if Present(feUrl) then feUrl.value else s.frontendUrl,
      mustChange, s.validating,
      stored'[MustChangeKey := if mustChange then "1" else "0"])
  }

  /** `logout()`. */
  function Logout(s: AuthState): AuthState {
    AuthState(None, None, None, FrontendDefaultUrl, false, s.validating,
      s.storage - {TokenKey, RoleKey, PathKey, FrontendUrlKey, MustChangeKey})
  }

  /** `updatePath(newPath)`. */
  function UpdatePath(s: AuthState, newPath: string): AuthState {
    s.(userPath := Some(newPath), storage := s.storage[PathKey := newPath])
  }

  /** What `GET /api/dashboard/settings/public` gave: a failure, or its `ok` flag and `frontendUrl` field. */
  datatype SettingsAnswer = SettingsFailed | SettingsReply(ok: bool, frontendUrl: Option<string>)

  /** What `GET /api/dashboard/user/me` gave: a network failure, or a status (and then the settings request). */
  datatype MeAnswer = MeFailed | MeReply(status: int, settings: SettingsAnswer)

  /** `res.ok`. */
  predicate Ok(status: int) {
    200 <= status <= 299
  }

  /** `validateToken()` finishing with the given answers. */
  function Validate(s: AuthState, answer: MeAnswer): AuthState {
    if !Present(GetItem(s.storage, TokenKey)) then s.(validating := false)
    else
      match answer
      case MeFailed => s.(validating := false)
      case MeReply(status, settings) =>
        if status == 401 then
          AuthState(None, None, None, FrontendDefaultUrl, s.mustChangePassword, false,
            s.storage - {TokenKey, RoleKey, PathKey, FrontendUrlKey})
        else if Ok(status) && settings.SettingsReply? && settings.ok && Present(settings.frontendUrl) then
          s.(frontendUrl := settings.frontendUrl.value,
             storage := s.storage[FrontendUrlKey := settings.frontendUrl.value],
             validating := false)
        else s.(validating := false)
  }

  /** The provider, its state fields and `localStorage`. */
  class AuthProvider {
    var token: Option<string>
    var role: Option<string>
    var userPath: Option<string>
    var frontendUrl: string
    var mustChangePassword: bool
    var validating: bool
    var storage: map<string, string>

    ghost function State(): AuthState
      reads this
    {
      AuthState(token, role, userPath, frontendUrl, mustChangePassword, validating, storage)
    }

    /** Mounting the provider with whatever storage holds. */
    constructor (storage: map<string, string>)
      ensures State() == Initial(storage)
    {
      this.storage := storage;
      token := GetItem(storage, TokenKey);
      role := GetItem(storage, RoleKey);
      userPath := GetItem(storage, PathKey);
      var url := GetItem(storage, FrontendUrlKey);
      frontendUrl := if Present(url) then url.value else FrontendDefaultUrl;
      mustChangePassword := GetItem(storage, MustChangeKey) == Some("1");
      validating := Present(GetItem(storage, TokenKey));
    }

    method LoginNow(newToken: string, newRole: string, path: Option<string>, feUrl: Option<string>, mustChange: bool)
      modifies this
      ensures State() == Login(old(State()), newToken, newRole, path, feUrl, mustChange)
    {
      storage := storage[TokenKey := newToken];
      storage := storage[RoleKey := newRole];
      storage := storage[PathKey := OrEmpty(path)];
      if Present(feUrl) {
        storage := storage[FrontendUrlKey := feUrl.value];
        frontendUrl := feUrl.value;
      }
      storage := storage[MustChangeKey := if mustChange then "1" else "0"];
      token := Some(newToken);
      role := Some(newRole);
      userPath := Some(OrEmpty(path));
      mustChangePassword := mustChange;
    }

    method LogoutNow()
      modifies this
      ensures State() == Logout(old(State()))
    {
      storage := storage - {TokenKey, RoleKey, PathKey, FrontendUrlKey, MustChangeKey};
      token := None;
      role := None;
      userPath := None;
      frontendUrl := FrontendDefaultUrl;
      mustChangePassword := false;
    }

    method UpdatePathNow(newPath: string)
      modifies this
      ensures State() == UpdatePath(old(State()), newPath)
    {
      storage := storage[PathKey := newPath];
      userPath := Some(newPath);
    }

    method ValidateToken(answer: MeAnswer)
      modifies this
      ensures State() == Validate(old(State()), answer)
    {
      var storedToken := GetItem(storage, TokenKey);
      if !Present(storedToken) {
        validating := false;
        return;
      }
      if answer.MeReply? {
        if answer.status == 401 {
          storage := storage - {TokenKey, RoleKey, PathKey, FrontendUrlKey};
          token := None;
          role := None;
          userPath := None;
          frontendUrl := FrontendDefaultUrl;
        } else if Ok(answer.status) {
          var settings := answer.settings;
          if settings.SettingsReply? && settings.ok && Present(settings.frontendUrl) {
            storage := storage[FrontendUrlKey := settings.frontendUrl.value];
            frontendUrl := settings.frontendUrl.value;
          }
        }
      }
      validating := false;
    }
  }

  // ---------------------------------------------------------------------------
  // Properties of the login state

  /**
   * At start-up the frontend URL falls back to the default, the must-change
   * flag is on only for a stored `'1'`, and validation runs exactly when a
   * token is remembered.
   */
  lemma InitialState(storage: map<string, string>)
    ensures var s := Initial(storage);
      && (s.frontendUrl == FrontendDefaultUrl <==> !Present(GetItem(storage, FrontendUrlKey)) || storage[FrontendUrlKey] == FrontendDefaultUrl)
      && (s.mustChangePassword <==> MustChangeKey in storage && storage[MustChangeKey] == "1")
      && (s.validating <==> IsAuthenticated(s))
  {
  }

  /**
   * `login` authenticates exactly for a non-empty token, grants admin exactly
   * for the role `admin`, stores the path or `''`, stores the must-change flag
   * as `'1'` or `'0'`, and keeps the frontend URL when `feUrl` is falsy.
   */
  lemma LoginEffect(s: AuthState, newToken: string, newRole: string, path: Option<string>, feUrl: Option<string>, mustChange: bool)
    ensures var t := Login(s, newToken, newRole, path, feUrl, mustChange);
      && (IsAuthenticated(t) <==> newToken != "")
      && (IsAdmin(t) <==> newRole == "admin")
      && t.userPath == Some(if Present(path) then path.value else "")
      && t.storage[PathKey] == t.userPath.value
      && t.mustChangePassword == mustChange
      && t.storage[MustChangeKey] == (if mustChange then "1" else "0")
      && (!Present(feUrl) ==> t.frontendUrl == s.frontendUrl && GetItem(t.storage, FrontendUrlKey) == GetItem(s.storage, FrontendUrlKey))
  {
  }

  /** What `login` stores is what a reload reads back: the same token, role, path and flag. */
  lemma {:induction false} LoginSurvivesReload(s: AuthState, newToken: string, newRole: string, path: Option<string>, feUrl: Option<string>, mustChange: bool)
    ensures var t := Login(s, newToken, newRole, path, feUrl, mustChange);
      var r := Initial(t.storage);
      && r.token == t.token && r.role == t.role && r.userPath == t.userPath
      && r.mustChangePassword == t.mustChangePassword
      && (Present(feUrl) ==> r.frontendUrl == t.frontendUrl)
      && (r.validating <==> IsAuthenticated(t))
  {
    var t := Login(s, newToken, newRole, path, feUrl, mustChange);
    assert GetItem(t.storage, TokenKey) == Some(newToken);
    assert GetItem(t.storage, RoleKey) == Some(newRole);
    assert GetItem(t.storage, PathKey) == Some(OrEmpty(path));
    assert GetItem(t.storage, MustChangeKey) == Some(if mustChange then "1" else "0");
    if Present(feUrl) {
      assert GetItem(t.storage, FrontendUrlKey) == feUrl;
    }
  }

  /** `logout` leaves nobody logged in, with default settings, and a reload stays logged out. */
  lemma LogoutEffect(s: AuthState)
    ensures var t := Logout(s);
      && !IsAuthenticated(t) && !IsAdmin(t) && t.userPath == None
      && t.frontendUrl == FrontendDefaultUrl && !t.mustChangePassword
      && (forall k :: k in t.storage <==> k in s.storage && k !in {TokenKey, RoleKey, PathKey, FrontendUrlKey, MustChangeKey})
      && Initial(t.storage) == t.(validating := false)
  {
  }

  /** `updatePath` changes the path, in state and in storage, and nothing else. */
  lemma UpdatePathOnlyPath(s: AuthState, newPath: string)
    ensures var t := UpdatePath(s, newPath);
      && t.userPath == Some(newPath) && t.storage == s.storage[PathKey := newPath]
      && t.token == s.token && t.role == s.role && t.frontendUrl == s.frontendUrl
      && t.mustChangePassword == s.mustChangePassword && t.validating == s.validating
  {
  }

  /**
   * Validation always ends. Only an explicit 401 on a remembered token logs
   * out, clearing token, role, path and frontend URL but, unlike `logout`,
   * keeping the must-change flag; a success may only refresh the frontend URL;
   * any other status or a network failure changes nothing else.
   */
  lemma ValidateOutcome(s: AuthState, answer: MeAnswer)
    ensures var t := Validate(s, answer);
      var cleared := Present(GetItem(s.storage, TokenKey)) && answer.MeReply? && answer.status == 401;
      && !t.validating
      && t.mustChangePassword == s.mustChangePassword
      && (cleared ==> !IsAuthenticated(t) && t.role == None && t.userPath == None && t.frontendUrl == FrontendDefaultUrl)
      && (!cleared ==> t.token == s.token && t.role == s.role && t.userPath == s.userPath)
      && (!cleared && t.frontendUrl != s.frontendUrl ==> answer.MeReply? && Ok(answer.status))
      && (!Present(GetItem(s.storage, TokenKey)) || answer.MeFailed? ==> t == s.(validating := false))
  {
  }
}
