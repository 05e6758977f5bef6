/**
 * The impersonation state of frontend/dashboard/contexts/ImpersonateContext.jsx:
 * an administrator either views the admin console, views their own user
 * panel, or views the panel of another user. Two state fields hold this,
 * and the three transitions never let both be set at once.
 */
module Impersonation {
  import opened JsStrings

  /** `{ id, username, path }` of the user being impersonated. */
  datatype Target = Target(id: int, username: string, path: string)

  /** `viewingOwnPanel` and `impersonatedUser` (None is `null`). */
  datatype ViewState = ViewState(viewingOwnPanel: bool, impersonatedUser: Option<Target>)

  /** The two fields are never set together. */
  predicate Exclusive(s: ViewState) {
    !(s.viewingOwnPanel && s.impersonatedUser.Some?)
  }

  /** `isImpersonating`: viewing any user panel rather than the admin console. */
  predicate IsImpersonating(s: ViewState) {
    s.viewingOwnPanel || s.impersonatedUser.Some?
  }

  /** `getEffectivePath(originalPath)`: the impersonated user's path while there is one. */
  function EffectivePath(s: ViewState, originalPath: string): string {
    if s.impersonatedUser.Some? then s.impersonatedUser.value.path else originalPath
  }

  /** `impersonatedUser?.username || null`: an empty username counts as none. */
  function ImpersonatedUsername(s: ViewState): Option<string> {
    if s.impersonatedUser.Some? && s.impersonatedUser.value.username != "" then Some(s.impersonatedUser.value.username)
    else None
  }

  const Initial: ViewState := ViewState(false, None)

  function SwitchToOwnPanel(s: ViewState): ViewState {
    ViewState(true, None)
  }

  function Impersonate(s: ViewState, id: int, username: string, path: string): ViewState {
    ViewState(false, Some(Target(id, username, path)))
  }

  function ReturnToAdmin(s: ViewState): ViewState {
    ViewState(false, None)
  }

  /** The provider's state, updated by the three transitions. */
  class ImpersonateProvider {
    var viewingOwnPanel: bool
    var impersonatedUser: Option<Target>

    ghost function State(): ViewState
      reads this
    {
      ViewState(viewingOwnPanel, impersonatedUser)
    }

    ghost predicate Valid()
      reads this
    {
      Exclusive(State())
    }

    constructor ()
      ensures Valid() && State() == Initial
    {
      viewingOwnPanel := false;
      impersonatedUser := None;
    }

    method SwitchToOwnPanelNow()
      modifies this
      ensures Valid() && State() == SwitchToOwnPanel(old(State()))
    {
      viewingOwnPanel := true;
      impersonatedUser := None;
    }

    method ImpersonateNow(id: int, username: string, path: string)
      modifies this
      ensures Valid() && State() == Impersonate(old(State()), id, username, path)
    {
      impersonatedUser := Some(Target(id, username, path));
      viewingOwnPanel := false;
    }

    method ReturnToAdminNow()
      modifies this
      ensures Valid() && State() == ReturnToAdmin(old(State()))
    {
      viewingOwnPanel := false;
      impersonatedUser := None;
    }

    /** `getEffectivePath(originalPath)` on the current state. */
    method GetEffectivePath(originalPath: string) returns (path: string)
      ensures path == EffectivePath(State(), originalPath)
    {
      if impersonatedUser.Some? {
        return impersonatedUser.value.path;
      }
      return originalPath;
    }
  }

  /** The initial state is the admin console, and every transition ends in a state with at most one field set. */
  lemma TransitionsExclusive(s: ViewState, id: int, username: string, path: string)
    ensures Exclusive(Initial) && !IsImpersonating(Initial)
    ensures Exclusive(SwitchToOwnPanel(s))
    ensures Exclusive(Impersonate(s, id, username, path))
    ensures Exclusive(ReturnToAdmin(s))
  {
  }

  /** Switching to the own panel impersonates nobody: the path is the administrator's own. */
  lemma SwitchToOwnPanelEffect(s: ViewState, originalPath: string)
    ensures var t := SwitchToOwnPanel(s);
      IsImpersonating(t) && t.viewingOwnPanel && EffectivePath(t, originalPath) == originalPath
      && ImpersonatedUsername(t) == None
  {
  }

  /** Impersonating a user shows that user's path and, when it is not empty, that user's name. */
  lemma ImpersonateEffect(s: ViewState, id: int, username: string, path: string, originalPath: string)
    ensures var t := Impersonate(s, id, username, path);
      && IsImpersonating(t) && !t.viewingOwnPanel
      && EffectivePath(t, originalPath) == path
      && ImpersonatedUsername(t) == (if username == "" then None else Some(username))
  {
  }

  /** Returning to the console ends all impersonation, from any state. */
  lemma ReturnToAdminEffect(s: ViewState, originalPath: string)
    ensures var t := ReturnToAdmin(s);
      !IsImpersonating(t) && t == Initial && EffectivePath(t, originalPath) == originalPath
  {
  }

  /** The effective path differs from the original only while a user is impersonated. */
  lemma EffectivePathChangesOnlyWhenImpersonating(s: ViewState, originalPath: string)
    requires Exclusive(s) && EffectivePath(s, originalPath) != originalPath
    ensures s.impersonatedUser.Some? && IsImpersonating(s) && !s.viewingOwnPanel
  {
  }
}
