/**
 * The user dashboard of frontend/dashboard/components/UserDashboard.jsx: the
 * short rendering of a log target, the path and API URL shown to the user,
 * the paginated loading of the access log, and the guard on refreshing the
 * engine's cache.
 *
 * Loading the log is split at the request: `StartLoad` is everything up to
 * the `fetch`, `FinishLoad` everything after it, so that a second load
 * started while one is in flight meets the `logsLoading` guard.
 */
module UserDashboard {
  import opened JsStrings
  import opened JsNumbers
  import opened JsValues
  import Impersonation

  /** `formatTargetShort(target)`: falsy gives '', otherwise at most 12 characters and an ellipsis. */
  function FormatTargetShort(target: Option<Json>): (r: string)
    ensures !Truthy(target) ==> r == ""
    ensures Truthy(target) && |ToJsString(target.value)| <= 12 ==> r == ToJsString(target.value)
    ensures Truthy(target) && |ToJsString(target.value)| > 12 ==> r == ToJsString(target.value)[..12] + "…"
  {
    if !Truthy(target) then ""
    else
      var s := ToJsString(target.value);
      if |s| > 12 then s[..12] + "…" else s
  }

  /** The short form is never longer than 13 characters and always starts like the full text. */
  lemma FormatTargetShortBound(target: Option<Json>)
    ensures |FormatTargetShort(target)| <= 13
    ensures Truthy(target) ==> var s := ToJsString(target.value);
      var r := FormatTargetShort(target);
      r[..if |s| > 12 then 12 else |s|] == s[..if |s| > 12 then 12 else |s|]
  {
  }

  /** `effectivePath`: the impersonated user's path, else the logged-in user's (which may be null). */
  function EffectivePath(impersonatedUser: Option<Impersonation.Target>, userPath: Option<string>): Option<string> {
    if impersonatedUser.Some? then Some(impersonatedUser.value.path) else userPath
  }

  /** The dashboard's path agrees with the impersonation context's `getEffectivePath`. */
  lemma EffectivePathAgrees(s: Impersonation.ViewState, userPath: string)
    ensures EffectivePath(s.impersonatedUser, Some(userPath)) == Some(Impersonation.EffectivePath(s, userPath))
  {
  }

  /** `backendApiUrl`: the origin, followed by `/` and the path when the path is not empty. */
  function BackendApiUrl(origin: string, effectivePath: Option<string>): string {
    if Present(effectivePath) then origin + "/" + effectivePath.value else origin
  }

  predicate Present(v: Option<string>) {
    v.Some? && v.value != ""
  }

  /** The API URL extends the origin exactly when there is a path, and then ends with it. */
  lemma BackendApiUrlShape(origin: string, effectivePath: Option<string>)
    ensures var u := BackendApiUrl(origin, effectivePath);
      && StartsWith(u, origin)
      && (u == origin <==> !Present(effectivePath))
      && (Present(effectivePath) ==> u[|origin|..] == "/" + effectivePath.value)
  {
  }

  // ---------------------------------------------------------------------------
  // The access log

  /** Whose log is read: a user's by id (an administrator impersonating them), or one's own. */
  datatype LogSource = UserLog(id: int) | OwnLog

  /** A log request: `limit=50` always, and maybe `beforeId`. */
  datatype LogsQuery = LogsQuery(source: LogSource, limit: int, beforeId: Option<string>)

  /** What the request gave: nothing usable, or the `ok` flag, the results when they are an array, and `nextBeforeId` when it is neither null nor missing. */
  datatype LogsAnswer = LogsFailed | LogsPage(ok: bool, results: Option<seq<Json>>, nextBeforeId: Option<Json>)

  /** The request `loadLogs({ reset })` makes with the current cursor and impersonation. */
  function Query(reset: bool, cursor: Option<Json>, isImpersonating: bool, impersonatedUser: Option<Impersonation.Target>, isAdmin: bool): LogsQuery {
    var source := if isImpersonating && impersonatedUser.Some? && isAdmin then UserLog(impersonatedUser.value.id) else OwnLog;
    LogsQuery(source, 50, if !reset && Truthy(cursor) then Some(ToJsString(cursor.value)) else None)
  }

  /** The log list after an ok page: a reset replaces it, a continuation appends in order. */
  function Merge(logs: seq<Json>, reset: bool, results: seq<Json>): seq<Json> {
    if reset then results else logs + results
  }

  /** The listing state of the dashboard. */
  class LogsView {
    var logs: seq<Json>
    var cursor: Option<Json>
    var loading: bool
    var pendingReset: bool

    constructor ()
      ensures logs == [] && cursor == None && !loading
    {
      logs := [];
      cursor := None;
      loading := false;
      pendingReset := false;
    }

    /** `loadLogs({ reset })` up to its `fetch`: nothing while a load is in flight. */
    method StartLoad(reset: bool, isImpersonating: bool, impersonatedUser: Option<Impersonation.Target>, isAdmin: bool)
      returns (query: Option<LogsQuery>)
      modifies this
      ensures old(loading) ==> query == None && logs == old(logs) && cursor == old(cursor) && loading && pendingReset == old(pendingReset)
      ensures !old(loading) ==> query == Some(Query(reset, cursor, isImpersonating, impersonatedUser, isAdmin)) && loading && pendingReset == reset
      ensures logs == old(logs) && cursor == old(cursor)
    {
      if loading {
        return None;
      }
      loading := true;
      pendingReset := reset;
      var source := if isImpersonating && impersonatedUser.Some? && isAdmin then UserLog(impersonatedUser.value.id) else OwnLog;
      query := Some(LogsQuery(source, 50, if !reset && Truthy(cursor) then Some(ToJsString(cursor.value)) else None));
    }

    /** `loadLogs` after its `fetch`: a page that is not ok, or no answer, leaves the list and the cursor. */
    method FinishLoad(answer: LogsAnswer) returns (toastError: bool)
      requires loading
      modifies this
      ensures !loading
      ensures toastError <==> !(answer.LogsPage? && answer.ok)
      ensures toastError ==> logs == old(logs) && cursor == old(cursor)
      ensures !toastError ==> logs == Merge(old(logs), old(pendingReset), if answer.results.Some? then answer.results.value else [])
      ensures !toastError ==> cursor == answer.nextBeforeId
    {
      toastError := !(answer.LogsPage? && answer.ok);
      if !toastError {
        var results := if answer.results.Some? then answer.results.value else [];
        if pendingReset {
          logs := results;
        } else {
          logs := logs + results;
        }
        cursor := answer.nextBeforeId;
      }
      loading := false;
    }
  }

  /**
   * `beforeId` is sent exactly when continuing with a truthy cursor (a cursor
   * of 0 restarts from the top), and then as the cursor's text; the log of
   * another user is read only by an administrator impersonating that user.
   */
  lemma QueryCursor(reset: bool, cursor: Option<Json>, isImpersonating: bool, impersonatedUser: Option<Impersonation.Target>, isAdmin: bool)
    ensures var q := Query(reset, cursor, isImpersonating, impersonatedUser, isAdmin);
      && q.limit == 50
      && (q.beforeId.Some? <==> !reset && Truthy(cursor))
      && (q.beforeId.Some? ==> q.beforeId.value == ToJsString(cursor.value))
      && (q.source.UserLog? <==> isImpersonating && isAdmin && impersonatedUser.Some?)
      && (q.source.UserLog? ==> q.source.id == impersonatedUser.value.id)
  {
  }

  /** A reset shows exactly the new page; a continuation keeps every earlier entry, in order, and the page after them. */
  lemma {:induction false} MergeOrder(logs: seq<Json>, reset: bool, results: seq<Json>)
    ensures reset ==> Merge(logs, reset, results) == results
    ensures !reset ==> |Merge(logs, reset, results)| == |logs| + |results|
    ensures !reset ==> Merge(logs, reset, results)[..|logs|] == logs
    ensures !reset ==> Merge(logs, reset, results)[|logs|..] == results
  {
    if !reset {
      assert (logs + results)[..|logs|] == logs;
      assert (logs + results)[|logs|..] == results;
    }
  }

  /** Loading two pages one after the other lists the same entries as one page holding both. */
  lemma MergeTwice(logs: seq<Json>, first: seq<Json>, second: seq<Json>)
    ensures Merge(Merge(logs, false, first), false, second) == Merge(logs, false, first + second)
  {
    assert logs + first + second == logs + (first + second);
  }

  // ---------------------------------------------------------------------------
  // Refreshing the engine's cache

  datatype RefreshStep = AlreadyRefreshing | RefusedEmptyPath | RefreshRequest(url: string)

  /** `handleRefreshCache` at time `now`: the in-flight guard, then the empty-path guard, then the request. */
  function Refresh(refreshing: bool, origin: string, effectivePath: Option<string>, now: int): RefreshStep {
    if refreshing then AlreadyRefreshing
    else if !Present(effectivePath) then RefusedEmptyPath
    else RefreshRequest(origin + "/" + effectivePath.value + "/api/utils/refresh?t=" + IntToDecimal(now))
  }

  /** A refresh is asked for exactly when none is in flight and the path is not empty, and then under that path. */
  lemma RefreshGuard(refreshing: bool, origin: string, effectivePath: Option<string>, now: int)
    ensures var r := Refresh(refreshing, origin, effectivePath, now);
      && (r.RefreshRequest? <==> !refreshing && Present(effectivePath))
      && (!refreshing && !Present(effectivePath) ==> r == RefusedEmptyPath)
      && (r.RefreshRequest? ==> StartsWith(r.url, BackendApiUrl(origin, effectivePath) + "/api/utils/refresh?t="))
  {
    var r := Refresh(refreshing, origin, effectivePath, now);
    if r.RefreshRequest? {
      var prefix := BackendApiUrl(origin, effectivePath) + "/api/utils/refresh?t=";
      assert r.url == prefix + IntToDecimal(now);
    }
  }
}
