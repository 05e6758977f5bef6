/**
 * The control-plane gateway of backend/server.js: the tenant table with its
 * UNIQUE columns, the seeding of the default administrator, the login and
 * logout handlers, the `requireAuth` middleware, the admin-only user listing,
 * the self-service password change and secret-path reset, and the two path
 * rewrites of the reverse proxy together with its error reply.
 *
 * bcrypt, jsonwebtoken and `crypto.randomBytes` are idealised: a password
 * hash records the password it was made from, a token records its claims,
 * the key it was signed with and its issue and expiry times in seconds, and
 * the random bytes are a parameter.
 */
module Gateway {
  import opened JsStrings
  import opened JsNumbers
  import opened JsValues

  newtype byte = x: int | 0 <= x < 256

  // ---------------------------------------------------------------------------
  // Random paths: `'/' + crypto.randomBytes(16).toString('hex')`

  predicate IsLowerHex(c: char) {
    '0' <= c <= '9' || 'a' <= c <= 'f'
  }

  /** The value of a lowercase hex digit. */
  function HexValue(c: char): (d: nat)
    requires IsLowerHex(c)
    ensures d < 16
  {
    if c <= '9' then c as int - '0' as int else c as int - 'a' as int + 10
  }

  function HexDigit(d: int): (c: char)
    requires 0 <= d < 16
    ensures IsLowerHex(c) && HexValue(c) == d
  {
    if d < 10 then ('0' as int + d) as char else ('a' as int + d - 10) as char
  }

  /** `buffer.toString('hex')`: two lowercase hex digits per byte, high nibble first. */
  function Hex(bytes: seq<byte>): (s: string)
    ensures |s| == 2 * |bytes|
    ensures forall i :: 0 <= i < |s| ==> IsLowerHex(s[i])
  {
    if bytes == [] then []
    else [HexDigit(bytes[0] as int / 16), HexDigit(bytes[0] as int % 16)] + Hex(bytes[1..])
  }

  /** Reading a hex string back into bytes, the inverse of `Hex`. */
  function Unhex(s: string): seq<byte>
    requires |s| % 2 == 0
    requires forall i :: 0 <= i < |s| ==> IsLowerHex(s[i])
  {
    if s == [] then []
    else
      assert IsLowerHex(s[0]) && IsLowerHex(s[1]);
      [(HexValue(s[0]) * 16 + HexValue(s[1])) as byte] + Unhex(s[2..])
  }

  /** The hex rendering of a buffer loses nothing: reading it back gives the buffer. */
  lemma {:induction false} UnhexHex(bytes: seq<byte>)
    ensures Unhex(Hex(bytes)) == bytes
  {
    if bytes != [] {
      var s := Hex(bytes);
      assert s[2..] == Hex(bytes[1..]);
      UnhexHex(bytes[1..]);
    }
  }

  /** A fresh secret path from 16 random bytes. */
  function RandomPath(bytes: seq<byte>): string
    requires |bytes| == 16
  {
    "/" + Hex(bytes)
  }

  /** Every secret path is a slash and 32 lowercase hex digits, and different bytes give different paths. */
  lemma RandomPathShape(bytes: seq<byte>, other: seq<byte>)
    requires |bytes| == 16 && |other| == 16
    ensures var p := RandomPath(bytes);
      |p| == 33 && p[0] == '/' && (forall i :: 1 <= i < 33 ==> IsLowerHex(p[i]))
    ensures RandomPath(bytes) == RandomPath(other) <==> bytes == other
  {
    var p := RandomPath(bytes);
    assert forall i :: 1 <= i < 33 ==> p[i] == Hex(bytes)[i - 1];
    if RandomPath(bytes) == RandomPath(other) {
      assert Hex(bytes) == RandomPath(bytes)[1..] == RandomPath(other)[1..] == Hex(other);
      UnhexHex(bytes);
      UnhexHex(other);
    }
  }

  // ---------------------------------------------------------------------------
  // The users table

  /** An idealised bcrypt hash: it records the password it was computed from. */
  datatype PasswordHash = Bcrypt(password: string)

  /** `bcrypt.compareSync(password, hash)`. */
  predicate PasswordMatches(password: string, hash: PasswordHash) {
    hash.password == password
  }

  /** A row of `users` without its id and creation time. */
  datatype UserRow = UserRow(username: string, hash: PasswordHash, path: string, role: string)

  /** The table: rows by id, and the next AUTOINCREMENT id. */
  datatype Db = Db(rows: map<int, UserRow>, nextId: nat)

  /** The UNIQUE constraints on `username` and `sub_store_path`. */
  predicate Unique(rows: map<int, UserRow>) {
    forall a, b :: a in rows && b in rows && a != b ==>
      rows[a].username != rows[b].username && rows[a].path != rows[b].path
  }

  /** Every id was handed out by AUTOINCREMENT, and the constraints hold. */
  predicate WellFormed(db: Db) {
    db.nextId >= 1 && (forall id :: id in db.rows ==> 1 <= id < db.nextId) && Unique(db.rows)
  }

  /** `SELECT ... WHERE username = ?` over the ids below `bound`. */
  function FindByName(rows: map<int, UserRow>, name: string, bound: nat): (r: Option<int>)
    ensures r.Some? ==> 0 <= r.value < bound && r.value in rows && rows[r.value].username == name
    ensures r.None? ==> forall id :: 0 <= id < bound && id in rows ==> rows[id].username != name
  {
    if bound == 0 then None
    else if bound - 1 in rows && rows[bound - 1].username == name then Some(bound - 1)
    else FindByName(rows, name, bound - 1)
  }

  /** On a well-formed table the lookup finds the one row with that name, or reports that there is none. */
  lemma FindByNameExact(db: Db, name: string)
    requires WellFormed(db)
    ensures var r := FindByName(db.rows, name, db.nextId);
      && (r.None? <==> forall id :: id in db.rows ==> db.rows[id].username != name)
      && (r.Some? ==> forall id :: id in db.rows && db.rows[id].username == name ==> id == r.value)
  {
  }

  /** Does some row other than `id` hold `path`? */
  predicate PathTakenByOther(rows: map<int, UserRow>, path: string, id: int) {
    exists other :: other in rows && other != id && rows[other].path == path
  }

  predicate NameTaken(rows: map<int, UserRow>, name: string) {
    exists id :: id in rows && rows[id].username == name
  }

  predicate PathTaken(rows: map<int, UserRow>, path: string) {
    exists id :: id in rows && rows[id].path == path
  }

  /** `INSERT INTO users`: a UNIQUE conflict inserts nothing; otherwise the row gets the next id. */
  function Insert(db: Db, row: UserRow): (Db, Option<int>) {
    if NameTaken(db.rows, row.username) || PathTaken(db.rows, row.path) then (db, None)
    else (Db(db.rows[db.nextId := row], db.nextId + 1), Some(db.nextId))
  }

  /** `INSERT` keeps the table well-formed, and a successful one adds exactly the new row. */
  lemma InsertKeepsWellFormed(db: Db, row: UserRow)
    requires WellFormed(db)
    ensures var (t, id) := Insert(db, row);
      && WellFormed(t)
      && (id.None? <==> NameTaken(db.rows, row.username) || PathTaken(db.rows, row.path))
      && (id.None? ==> t == db)
      && (id.Some? ==> id.value !in db.rows && t.rows == db.rows[id.value := row])
  {
  }

  /** The default administrator: `admin`/`admin` with a random path. */
  function AdminRow(bytes: seq<byte>): UserRow
    requires |bytes| == 16
  {
    UserRow("admin", Bcrypt("admin"), RandomPath(bytes), "admin")
  }

  /** Seeding at start-up: insert the default administrator unless a row named `admin` exists. */
  function Seed(db: Db, bytes: seq<byte>): Db
    requires |bytes| == 16
  {
    if FindByName(db.rows, "admin", db.nextId).Some? then db else Insert(db, AdminRow(bytes)).0
  }

  /**
   * Seeding leaves an existing `admin` alone; otherwise it inserts one with
   * role admin, password admin and a fresh path (unless that path is already
   * taken, when the insert fails and nothing changes).
   */
  lemma SeedEffect(db: Db, bytes: seq<byte>)
    requires WellFormed(db) && |bytes| == 16
    ensures WellFormed(Seed(db, bytes))
    ensures NameTaken(db.rows, "admin") ==> Seed(db, bytes) == db
    ensures !NameTaken(db.rows, "admin") && !PathTaken(db.rows, RandomPath(bytes)) ==>
      Seed(db, bytes).rows == db.rows[db.nextId := AdminRow(bytes)]
      && AdminRow(bytes).role == "admin" && PasswordMatches("admin", AdminRow(bytes).hash)
  {
    FindByNameExact(db, "admin");
    InsertKeepsWellFormed(db, AdminRow(bytes));
  }

  // ---------------------------------------------------------------------------
  // Tokens and replies

  /** The claims `jwt.sign` receives at login. */
  datatype Claims = Claims(id: int, username: string, role: string, path: string)

  /** A cookie value: a token the gateway signed, or any other string. */
  datatype Token = Signed(claims: Claims, key: string, iat: int, exp: int) | Opaque(text: string)

  /** `expiresIn: '7d'` in seconds. */
  const TokenLifetime: int := 7 * 24 * 3600

  /** `jwt.sign(claims, secret, { expiresIn: '7d' })` at `nowSec`. */
  function Sign(claims: Claims, secret: string, nowSec: int): Token {
    Signed(claims, secret, nowSec, nowSec + TokenLifetime)
  }

  /** `jwt.verify(token, secret)` at `nowSec`: the signature must match and the expiry lie ahead. */
  function Verify(token: Token, secret: string, nowSec: int): Option<Claims> {
    if token.Signed? && token.key == secret && nowSec < token.exp then Some(token.claims) else None
  }

  /** A token verifies with its own secret exactly during the seven days after it was signed, and never with another. */
  lemma SignVerify(claims: Claims, secret: string, other: string, iat: int, nowSec: int)
    ensures Verify(Sign(claims, secret, iat), secret, nowSec) == (if nowSec < iat + 604800 then Some(claims) else None)
    ensures other != secret ==> Verify(Sign(claims, secret, iat), other, nowSec) == None
  {
  }

  /**
   * What reaches the client. `ErrorPage` is the page Express's default error
   * handler sends when a route handler throws.
   */
  datatype Reply = JsonReply(status: int, body: Json) | Redirect(location: string) | ErrorPage(status: int)

  /** What happens to the `auth_token` cookie. */
  datatype CookieAction = KeepCookie | SetAuthCookie(token: Token) | ClearAuthCookie

  datatype Response = Response(reply: Reply, cookie: CookieAction)

  function Obj1(k: string, v: Json): Json {
    JObj(map[k := v])
  }

  function Obj2(k1: string, v1: Json, k2: string, v2: Json): Json {
    JObj(map[k1 := v1, k2 := v2])
  }

  const InvalidCredentials: Json := Obj2("success", JBool(false), "message", JStr("凭证无效"))
  const LoginPage: string := "/dashboard/index.html"

  /**
   * What `POST /api/auth/login` leads to: a reply, or a throw inside the
   * database callback, which nothing catches and which ends the process.
   */
  datatype LoginResult = Answered(response: Response) | Crashed

  /** `req.body.password` is a string: the only kind `bcrypt.compareSync` and `bcrypt.hashSync` accept from a JSON body. */
  predicate IsPassword(password: Option<Json>) {
    password.Some? && password.value.JStr?
  }

  /**
   * `POST /api/auth/login`: an unknown name and a wrong password both give 401
   * with the same body; for a known name a password that is missing or not a
   * string makes `compareSync` throw.
   */
  function Login(db: Db, username: string, password: Option<Json>, secret: string, nowSec: int): LoginResult {
    match FindByName(db.rows, username, db.nextId)
    case None => Answered(Response(JsonReply(401, InvalidCredentials), KeepCookie))
    case Some(id) =>
      var user := db.rows[id];
      if !IsPassword(password) then Crashed
      else if PasswordMatches(password.value.s, user.hash) then
        var token := Sign(Claims(id, user.username, user.role, user.path), secret, nowSec);
        var body := JObj(map["success" := JBool(true), "sub_store_path" := JStr(user.path), "role" := JStr(user.role)]);
        Answered(Response(JsonReply(200, body), SetAuthCookie(token)))
      else Answered(Response(JsonReply(401, InvalidCredentials), KeepCookie))
  }

  /** The successful login reply for row `id`: the cookie holds its claims for seven days, the body its path and role. */
  predicate LoginReplyFor(r: Response, id: int, u: UserRow, secret: string, nowSec: int) {
    && r.cookie == SetAuthCookie(Signed(Claims(id, u.username, u.role, u.path), secret, nowSec, nowSec + 604800))
    && r.reply == JsonReply(200, JObj(map["success" := JBool(true), "sub_store_path" := JStr(u.path), "role" := JStr(u.role)]))
  }

  /**
   * Login succeeds exactly when the password is a string, some row has that
   * username and the password matches its hash; the cookie then carries the
   * row's id, name, role and path in a token valid for seven days and the
   * reply echoes the path and role. Every other answer, unknown name or wrong
   * password alike, is the same 401 reply; the process goes down exactly when
   * the name is known and the password is not a string.
   */
  lemma LoginOutcome(db: Db, username: string, password: Option<Json>, secret: string, nowSec: int)
    requires WellFormed(db)
    ensures var r := Login(db, username, password, secret, nowSec);
      && (r.Crashed? <==> !IsPassword(password) && exists id :: id in db.rows && db.rows[id].username == username)
      && (r.Answered? && r.response.cookie.SetAuthCookie? <==>
            IsPassword(password) && exists id :: id in db.rows && db.rows[id].username == username
                                              && PasswordMatches(password.value.s, db.rows[id].hash))
      && (r.Answered? && !r.response.cookie.SetAuthCookie? ==> r.response == Response(JsonReply(401, InvalidCredentials), KeepCookie))
      && (r.Answered? && r.response.cookie.SetAuthCookie? ==>
            exists id :: id in db.rows && db.rows[id].username == username && LoginReplyFor(r.response, id, db.rows[id], secret, nowSec))
  {
    FindByNameExact(db, username);
  }

  /** `POST /api/auth/logout`. */
  function Logout(): (r: Response)
    ensures r.cookie == ClearAuthCookie && r.reply == JsonReply(200, Obj1("success", JBool(true)))
  {
    Response(JsonReply(200, Obj1("success", JBool(true))), ClearAuthCookie)
  }

  /** The outcome of `requireAuth`: go on with the decoded claims, or answer now. */
  datatype AuthDecision = Next(user: Claims) | Stop(response: Response)

  /** `!token` on `req.cookies.auth_token`: a missing cookie and an empty one are both falsy. */
  predicate TokenPresent(cookie: Option<Token>) {
    cookie.Some? && cookie.value != Opaque("")
  }

  /** `requireAuth` on a request whose `req.path` is `path`. */
  function RequireAuth(path: string, cookie: Option<Token>, secret: string, nowSec: int): AuthDecision {
    var api := StartsWith(path, "/api/");
    if !TokenPresent(cookie) then
      Stop(Response(if api then JsonReply(401, Obj1("error", JStr("Unauthorized"))) else Redirect(LoginPage), KeepCookie))
    else
      match Verify(cookie.value, secret, nowSec)
      case Some(claims) => Next(claims)
      case None =>
        Stop(Response(if api then JsonReply(401, Obj1("error", JStr("Token Expired"))) else Redirect(LoginPage), ClearAuthCookie))
  }

  /**
   * The decision table of `requireAuth`: a request goes on exactly when a
   * token is present and verifies, and then carries the token's claims; a
   * missing token is 401 `Unauthorized` under `/api/` and a redirect to the
   * login page elsewhere, with the cookie untouched; a token that fails is
   * 401 `Token Expired` or the redirect, and the cookie is cleared.
   */
  lemma RequireAuthTable(path: string, cookie: Option<Token>, secret: string, nowSec: int)
    ensures var d := RequireAuth(path, cookie, secret, nowSec);
      var api := StartsWith(path, "/api/");
      && (d.Next? <==> TokenPresent(cookie) && Verify(cookie.value, secret, nowSec).Some?)
      && (d.Next? ==> d.user == Verify(cookie.value, secret, nowSec).value)
      && (!TokenPresent(cookie) ==> d == Stop(Response(
            if api then JsonReply(401, Obj1("error", JStr("Unauthorized"))) else Redirect(LoginPage), KeepCookie)))
      && (TokenPresent(cookie) && d.Stop? ==> d == Stop(Response(
            if api then JsonReply(401, Obj1("error", JStr("Token Expired"))) else Redirect(LoginPage), ClearAuthCookie)))
  {
  }

  /** The cookie a successful login sets lets every request through for seven days, carrying the row's path. */
  lemma LoginCookieAuthenticates(db: Db, username: string, password: Option<Json>, secret: string, loginSec: int, path: string, nowSec: int)
    requires Login(db, username, password, secret, loginSec).Answered?
    requires Login(db, username, password, secret, loginSec).response.cookie.SetAuthCookie?
    requires loginSec <= nowSec < loginSec + 604800
    ensures var token := Login(db, username, password, secret, loginSec).response.cookie.token;
      var d := RequireAuth(path, Some(token), secret, nowSec);
      && d.Next? && d.user.username == username
      && exists id :: id in db.rows && d.user.id == id && d.user.path == db.rows[id].path
  {
  }

  /** A row as `/api/users` shows it: without its password hash. */
  datatype PublicRow = PublicRow(id: int, username: string, role: string, path: string)

  /** The answer of `GET /api/users`: 403, or the rows in no promised order. */
  datatype Listing = Refused(response: Response) | Listed(data: set<PublicRow>)

  function PublicRows(rows: map<int, UserRow>): set<PublicRow> {
    set id | id in rows :: PublicRow(id, rows[id].username, rows[id].role, rows[id].path)
  }

  /** `GET /api/users` for the authenticated `user`. */
  function ListUsers(user: Claims, db: Db): Listing {
    if user.role != "admin" then Refused(Response(JsonReply(403, Obj1("error", JStr("Forbidden"))), KeepCookie))
    else Listed(PublicRows(db.rows))
  }

  /** Only the role `admin` sees the table, and it then sees every row, each with its own id, name, role and path. */
  lemma ListUsersGuard(user: Claims, db: Db)
    ensures ListUsers(user, db).Listed? <==> user.role == "admin"
    ensures ListUsers(user, db).Refused? ==> ListUsers(user, db).response.reply == JsonReply(403, Obj1("error", JStr("Forbidden")))
    ensures user.role == "admin" ==> forall p :: p in ListUsers(user, db).data <==>
      p.id in db.rows && p == PublicRow(p.id, db.rows[p.id].username, db.rows[p.id].role, db.rows[p.id].path)
  {
  }

  const PasswordUpdated: Json := Obj2("success", JBool(true), "message", JStr("密码已更新"))

  /**
   * `PUT /api/users/me/password`: `bcrypt.hashSync` throws on a `newPassword`
   * that is missing or not a string, and Express answers 500 with nothing
   * written; otherwise `UPDATE users SET password_hash = ? WHERE id = ?` runs,
   * where no constraint can fail and a missing id changes nothing.
   */
  function ChangePassword(db: Db, id: int, newPassword: Option<Json>): (Db, Response) {
    if !IsPassword(newPassword) then (db, Response(ErrorPage(500), KeepCookie))
    else
      var rows := if id in db.rows then db.rows[id := db.rows[id].(hash := Bcrypt(newPassword.value.s))] else db.rows;
      (Db(rows, db.nextId), Response(JsonReply(200, PasswordUpdated), KeepCookie))
  }

  /**
   * `UPDATE users SET sub_store_path = ? WHERE id = ?` with a fresh path: when
   * another row holds that path the UNIQUE constraint fails with 500 and
   * nothing changes; otherwise the caller's row takes it (an id that no longer
   * exists changes nothing) and the reply carries it.
   */
  function ResetPath(db: Db, id: int, bytes: seq<byte>): (Db, Response)
    requires |bytes| == 16
  {
    var newPath := RandomPath(bytes);
    if PathTakenByOther(db.rows, newPath, id) then
      (db, Response(JsonReply(500, Obj1("success", JBool(false))), KeepCookie))
    else
      var rows := if id in db.rows then db.rows[id := db.rows[id].(path := newPath)] else db.rows;
      (Db(rows, db.nextId), Response(JsonReply(200, Obj2("success", JBool(true), "new_path", JStr(newPath))), KeepCookie))
  }

  /**
   * A password change touches only the caller's hash and keeps the table
   * well-formed; the new password then matches. A password that is not a
   * string changes nothing and the reply is Express's 500 page.
   */
  lemma ChangePasswordOnlyCaller(db: Db, id: int, newPassword: Option<Json>)
    requires WellFormed(db)
    ensures var (t, r) := ChangePassword(db, id, newPassword);
      && WellFormed(t) && t.rows.Keys == db.rows.Keys
      && (forall other :: other in db.rows && other != id ==> t.rows[other] == db.rows[other])
      && (!IsPassword(newPassword) <==> r.reply == ErrorPage(500))
      && (!IsPassword(newPassword) ==> t == db)
      && (IsPassword(newPassword) ==> r.reply == JsonReply(200, PasswordUpdated))
      && (IsPassword(newPassword) && id in db.rows ==> t.rows[id] == db.rows[id].(hash := Bcrypt(newPassword.value.s)))
      && (IsPassword(newPassword) && id in db.rows ==> PasswordMatches(newPassword.value.s, t.rows[id].hash))
  {
  }

  /**
   * A path reset keeps the table well-formed and changes only the caller's
   * path: every other row, and every other column of the caller's row, is
   * as before; on success the reply names the path the row now holds.
   */
  lemma ResetPathOnlyCaller(db: Db, id: int, bytes: seq<byte>)
    requires WellFormed(db) && |bytes| == 16
    ensures var (t, r) := ResetPath(db, id, bytes);
      && WellFormed(t) && t.rows.Keys == db.rows.Keys
      && (forall other :: other in db.rows && other != id ==> t.rows[other] == db.rows[other])
      && (r.reply.status == 500 <==> PathTakenByOther(db.rows, RandomPath(bytes), id))
      && (r.reply.status == 500 ==> t == db)
      && (r.reply.status != 500 && id in db.rows ==> t.rows[id] == db.rows[id].(path := RandomPath(bytes)))
  {
    var newPath := RandomPath(bytes);
    if !PathTakenByOther(db.rows, newPath, id) && id in db.rows {
      var t := ResetPath(db, id, bytes).0;
      forall a, b | a in t.rows && b in t.rows && a != b
        ensures t.rows[a].username != t.rows[b].username && t.rows[a].path != t.rows[b].path
      {
        if a != id && b != id {
        } else if a == id {
          assert db.rows[b].path != newPath;
        } else {
          assert db.rows[a].path != newPath;
        }
      }
    }
  }

  /**
   * Tokens are snapshots: after a reset, a token issued before it still
   * verifies and still carries the old path, so the proxy keeps rewriting to
   * the old path until the token expires.
   */
  lemma TokenOutlivesReset(db: Db, id: int, bytes: seq<byte>, token: Token, secret: string, nowSec: int)
    requires |bytes| == 16 && id in db.rows
    requires token == Sign(Claims(id, db.rows[id].username, db.rows[id].role, db.rows[id].path), secret, nowSec)
    requires db.rows[id].path != RandomPath(bytes) && !PathTakenByOther(db.rows, RandomPath(bytes), id)
    ensures var t := ResetPath(db, id, bytes).0;
      var d := RequireAuth("/core-api/x", Some(token), secret, nowSec);
      && t.rows[id].path == RandomPath(bytes)
      && d.Next? && d.user.path == db.rows[id].path && d.user.path != t.rows[id].path
  {
  }

  // ---------------------------------------------------------------------------
  // The reverse proxy

  /** `pathRewrite` of the `/core-api` proxy: the first `/core-api` becomes the user's path. */
  function CoreApiRewrite(path: string, userPath: string): string {
    ReplaceFirst(path, "/core-api", userPath)
  }

  /** `pathRewrite` of the root proxy: the user's path is put in front. */
  function RootRewrite(path: string, userPath: string): string {
    userPath + path
  }

  /**
   * A request under `/core-api` reaches the engine at the same place as the
   * root proxy would send the rest of its path: the prefix is swapped for
   * the user's path and the remainder is kept as it is.
   */
  lemma CoreApiRewriteSwapsPrefix(rest: string, userPath: string)
    ensures CoreApiRewrite("/core-api" + rest, userPath) == RootRewrite(rest, userPath)
    ensures StartsWith(RootRewrite(rest, userPath), userPath)
  {
    ReplaceFirstAtStart("/core-api" + rest, "/core-api", userPath);
    assert ("/core-api" + rest)[|"/core-api"|..] == rest;
  }

  /** A path without `/core-api` in it is passed through unchanged by the `/core-api` rewrite. */
  lemma CoreApiRewriteWithoutPrefix(path: string, userPath: string)
    requires forall j :: 0 <= j <= |path| ==> !OccursAt(path, "/core-api", j)
    ensures CoreApiRewrite(path, userPath) == path
  {
    ReplaceFirstAbsent(path, "/core-api", userPath);
  }

  /** `onError` of the `/core-api` proxy: a fixed 502 reply. */
  function ProxyError(): (r: Response)
    ensures r.cookie == KeepCookie
    ensures r.reply == JsonReply(502, Obj1("error", JStr("Sub-Store 核心引擎未响应")))
  {
    Response(JsonReply(502, Obj1("error", JStr("Sub-Store 核心引擎未响应"))), KeepCookie)
  }

  // ---------------------------------------------------------------------------
  // The database handle the handlers share

  class UsersDb {
    var rows: map<int, UserRow>
    var nextId: nat

    ghost function State(): Db
      reads this
    {
      Db(rows, nextId)
    }

    ghost predicate Valid()
      reads this
    {
      WellFormed(State())
    }

    /** `CREATE TABLE IF NOT EXISTS users` on a new database. */
    constructor ()
      ensures Valid() && rows == map[] && nextId == 1
    {
      rows := map[];
      nextId := 1;
    }

    /** The start-up `SELECT` for `admin` followed by the `INSERT` when there is none. */
    method SeedAdmin(bytes: seq<byte>)
      requires Valid() && |bytes| == 16
      modifies this
      ensures Valid() && State() == Seed(old(State()), bytes)
    {
      SeedEffect(State(), bytes);
      var found := FindByName(rows, "admin", nextId);
      if found.None? {
        var row := AdminRow(bytes);
        if !(exists id :: id in rows && rows[id].username == row.username)
          && !(exists id :: id in rows && rows[id].path == row.path)
        {
          rows := rows[nextId := row];
          nextId := nextId + 1;
        }
      }
    }

    /** `PUT /api/users/me/password` for the authenticated `user`. */
    method ChangeOwnPassword(user: Claims, newPassword: Option<Json>) returns (response: Response)
      requires Valid()
      modifies this
      ensures Valid()
      ensures (State(), response) == ChangePassword(old(State()), user.id, newPassword)
    {
      ChangePasswordOnlyCaller(State(), user.id, newPassword);
      if !(newPassword.Some? && newPassword.value.JStr?) {
        return Response(ErrorPage(500), KeepCookie);
      }
      if user.id in rows {
        rows := rows[user.id := rows[user.id].(hash := Bcrypt(newPassword.value.s))];
      }
      response := Response(JsonReply(200, PasswordUpdated), KeepCookie);
    }

    /** `POST /api/users/me/reset-path` for the authenticated `user`, with `bytes` from `crypto.randomBytes(16)`. */
    method ResetOwnPath(user: Claims, bytes: seq<byte>) returns (response: Response)
      requires Valid() && |bytes| == 16
      modifies this
      ensures Valid()
      ensures (State(), response) == ResetPath(old(State()), user.id, bytes)
    {
      ResetPathOnlyCaller(State(), user.id, bytes);
      var newPath := "/" + Hex(bytes);
      if exists other :: other in rows && other != user.id && rows[other].path == newPath {
        return Response(JsonReply(500, Obj1("success", JBool(false))), KeepCookie);
      }
      if user.id in rows {
        rows := rows[user.id := rows[user.id].(path := newPath)];
      }
      response := Response(JsonReply(200, Obj2("success", JBool(true), "new_path", JStr(newPath))), KeepCookie);
    }
  }
}
