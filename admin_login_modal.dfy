/**
 * The admin login modal. Sign-in, the profile lookup and sign-out belong to the hosted auth
 * service; their outcomes are parameters here. The handler clears the error, marks itself
 * loading, admits only a profile whose role is admin, and always ends not loading.
 */
module AdminLoginModal {
  import opened Common
  import opened Schema

  datatype AuthUser = AuthUser(id: string, email: string)

  /** What `signInWithPassword` resolves to: a user, an error message, or neither. */
  datatype AuthResponse = AuthResponse(user: Option<AuthUser>, error: Option<string>)

  /** The record handed to `onLogin`: the auth user with its profile. */
  datatype AdminSession = AdminSession(user: AuthUser, profile: Profile)

  /** What the handler does besides its own state: toast, sign out, and the two callbacks. */
  datatype AdminEffect = ShowToast(toast: Toast) | SignOut | OnLogin(userType: string, session: AdminSession) | OnClose

  /** The component's `loading` and `error` state after one of the handler's state updates. */
  datatype Snapshot = Snapshot(loading: bool, error: string)

  /** One run of the handler: the successive states it passes through and the effects it has. */
  datatype Run = Run(snapshots: seq<Snapshot>, effects: seq<AdminEffect>)

  const AccessDenied := "Access denied. Admin credentials required."
  const UnexpectedError := "An unexpected error occurred"
  const WelcomeAdminToast := Toast("Welcome Admin!", "You have successfully logged in to the admin panel.", false)

  /** `profile?.role === 'admin'`. */
  predicate IsAdminProfile(profile: Option<Profile>)
  {
    profile.Some? && profile.value.role == Admin
  }

  /** Closes a run: the `finally` clears `loading` and keeps the last error. */
  function Finish(snapshots: seq<Snapshot>, effects: seq<AdminEffect>): (r: Run)
    requires snapshots != []
  {
    Run(snapshots + [Snapshot(false, snapshots[|snapshots| - 1].error)], effects)
  }

  /** The states and effects of `handleLogin`, given the error shown before and the remote outcomes. */
  function LoginRun(previousError: string, signIn: Call<AuthResponse>, lookup: Call<Option<Profile>>, signOutThrows: bool): (r: Run)
    ensures |r.snapshots| >= 3
    ensures r.snapshots[0] == Snapshot(true, previousError) && r.snapshots[1] == Snapshot(true, "")
    ensures !r.snapshots[|r.snapshots| - 1].loading
  {
    var opening := [Snapshot(true, previousError), Snapshot(true, "")];
    match signIn
    case Throws => Finish(opening + [Snapshot(true, UnexpectedError)], [])
    case Returns(response) =>
      if response.error.Some? then Finish(opening + [Snapshot(true, response.error.value)], [])
      else if response.user.None? then Finish(opening, [])
      else match lookup
        case Throws => Finish(opening + [Snapshot(true, UnexpectedError)], [])
        case Returns(profile) =>
          if !IsAdminProfile(profile) then
            var denied := opening + [Snapshot(true, AccessDenied)];
            if signOutThrows then Finish(denied + [Snapshot(true, UnexpectedError)], [SignOut])
            else Finish(denied, [SignOut])
          else
            Finish(opening, [ShowToast(WelcomeAdminToast), OnLogin(RoleName(Admin), AdminSession(response.user.value, profile.value)), OnClose])
  }

  function FinalError(r: Run): string
    requires r.snapshots != []
  {
    r.snapshots[|r.snapshots| - 1].error
  }

  /** Every attempt first clears the error while loading, stays loading until its last state, and ends not loading. */
  lemma LoginRunLoadingDiscipline(previousError: string, signIn: Call<AuthResponse>, lookup: Call<Option<Profile>>, signOutThrows: bool)
    ensures var r := LoginRun(previousError, signIn, lookup, signOutThrows);
      && r.snapshots[0] == Snapshot(true, previousError)
      && r.snapshots[1] == Snapshot(true, "")
      && (forall i :: 0 <= i < |r.snapshots| - 1 ==> r.snapshots[i].loading)
      && !r.snapshots[|r.snapshots| - 1].loading
  {
  }

  /** The error shown after an attempt never depends on the error shown before it. */
  lemma FinalErrorIsFresh(e1: string, e2: string, signIn: Call<AuthResponse>, lookup: Call<Option<Profile>>, signOutThrows: bool)
    ensures FinalError(LoginRun(e1, signIn, lookup, signOutThrows)) == FinalError(LoginRun(e2, signIn, lookup, signOutThrows))
    ensures LoginRun(e1, signIn, lookup, signOutThrows).effects == LoginRun(e2, signIn, lookup, signOutThrows).effects
  {
  }

  /** `onLogin` is reached exactly when sign-in yields a user and that user's profile has the admin role. */
  lemma OnLoginOnlyForAdmin(previousError: string, signIn: Call<AuthResponse>, lookup: Call<Option<Profile>>, signOutThrows: bool)
    ensures var r := LoginRun(previousError, signIn, lookup, signOutThrows);
      (exists e :: e in r.effects && e.OnLogin?) <==>
        && signIn.Returns? && signIn.value.error.None? && signIn.value.user.Some?
        && lookup.Returns? && IsAdminProfile(lookup.value)
  {
    var r := LoginRun(previousError, signIn, lookup, signOutThrows);
    if signIn.Returns? && signIn.value.error.None? && signIn.value.user.Some? && lookup.Returns? && IsAdminProfile(lookup.value) {
      assert r.effects[1] in r.effects;
    }
  }

  /** An admitted attempt shows no error and ends with `onLogin` for an admin profile, then `onClose`. */
  lemma AdmittedRun(previousError: string, u: AuthUser, p: Profile, signOutThrows: bool)
    requires p.role == Admin
    ensures var r := LoginRun(previousError, Returns(AuthResponse(Some(u), None)), Returns(Some(p)), signOutThrows);
      && FinalError(r) == ""
      && r.effects == [ShowToast(WelcomeAdminToast), OnLogin("admin", AdminSession(u, p)), OnClose]
  {
  }

  /** An auth error is shown as it is, and nothing else happens. */
  lemma AuthErrorShown(previousError: string, response: AuthResponse, lookup: Call<Option<Profile>>, signOutThrows: bool)
    requires response.error.Some?
    ensures var r := LoginRun(previousError, Returns(response), lookup, signOutThrows);
      FinalError(r) == response.error.value && r.effects == []
  {
  }

  /** A missing or non-admin profile is denied and signed out; a throw from sign-out replaces the message. */
  lemma NonAdminDenied(previousError: string, u: AuthUser, profile: Option<Profile>, signOutThrows: bool)
    requires !IsAdminProfile(profile)
    ensures var r := LoginRun(previousError, Returns(AuthResponse(Some(u), None)), Returns(profile), signOutThrows);
      && r.effects == [SignOut]
      && FinalError(r) == (if signOutThrows then UnexpectedError else AccessDenied)
  {
  }

  /** A throw from sign-in or from the profile lookup shows the generic message and does nothing else. */
  lemma ThrowShowsUnexpected(previousError: string, signIn: Call<AuthResponse>, lookup: Call<Option<Profile>>, signOutThrows: bool)
    requires signIn.Throws? || (signIn.value.error.None? && signIn.value.user.Some? && lookup.Throws?)
    ensures var r := LoginRun(previousError, signIn, lookup, signOutThrows);
      FinalError(r) == UnexpectedError && r.effects == []
  {
  }

  /** A sign-in answer with neither a user nor an error ends the attempt with no error shown and nothing done. */
  lemma NoUserNoErrorIsSilent(previousError: string, lookup: Call<Option<Profile>>, signOutThrows: bool)
    ensures var r := LoginRun(previousError, Returns(AuthResponse(None, None)), lookup, signOutThrows);
      FinalError(r) == "" && r.effects == []
  {
  }

  /** An auth error whose message is empty fails the attempt with no error shown. */
  lemma EmptyAuthMessageIsSilent(previousError: string, user: Option<AuthUser>, lookup: Call<Option<Profile>>, signOutThrows: bool)
    ensures var r := LoginRun(previousError, Returns(AuthResponse(user, Some(""))), lookup, signOutThrows);
      FinalError(r) == "" && r.effects == []
  {
  }

  /** Every attempt that does not reach `onLogin` ends with an error shown, except a response with neither user nor error. */
  lemma RejectionShowsError(previousError: string, signIn: Call<AuthResponse>, lookup: Call<Option<Profile>>, signOutThrows: bool)
    requires signIn.Returns? ==> signIn.value.user.Some? || signIn.value.error.Some?
    requires signIn.Returns? && signIn.value.error.Some? ==> signIn.value.error.value != ""
    ensures var r := LoginRun(previousError, signIn, lookup, signOutThrows);
      (forall e :: e in r.effects ==> !e.OnLogin?) <==> FinalError(r) != ""
  {
    var r := LoginRun(previousError, signIn, lookup, signOutThrows);
    if signIn.Returns? && signIn.value.error.None? && signIn.value.user.Some? && lookup.Returns? && IsAdminProfile(lookup.value) {
      assert r.effects[1] in r.effects;
    }
  }

  /** The state of the admin login modal component. */
  class AdminLoginModalState {
    var email: string
    var password: string
    var loading: bool
    var error: string
    /** What the handler has done so far, oldest first. */
    var effects: seq<AdminEffect>
    /** Every `loading` / `error` state the component has passed through. */
    ghost var history: seq<Snapshot>

    constructor ()
      ensures email == "" && password == "" && !loading && error == "" && effects == [] && history == []
    {
      email, password := "", "";
      loading, error := false, "";
      effects := [];
      history := [];
    }

    method SetEmail(v: string)
      modifies this
      ensures email == v && password == old(password)
      ensures loading == old(loading) && error == old(error) && effects == old(effects) && history == old(history)
    {
      email := v;
    }

    method SetPassword(v: string)
      modifies this
      ensures password == v && email == old(email)
      ensures loading == old(loading) && error == old(error) && effects == old(effects) && history == old(history)
    {
      password := v;
    }

    /** `handleLogin`, with the outcomes of sign-in, the profile lookup and sign-out as parameters. */
    method HandleLogin(signIn: Call<AuthResponse>, lookup: Call<Option<Profile>>, signOutThrows: bool)
      modifies this
      ensures var r := LoginRun(old(error), signIn, lookup, signOutThrows);
        && history == old(history) + r.snapshots
        && effects == old(effects) + r.effects
        && !loading && error == FinalError(r)
      ensures email == old(email) && password == old(password)
    {
      ghost var run := LoginRun(error, signIn, lookup, signOutThrows);
      ghost var trace: seq<Snapshot> := [];
      loading := true;
      trace := trace + [Snapshot(loading, error)];
      error := "";
      trace := trace + [Snapshot(loading, error)];
      var thrown := false;
      match signIn {
        case Throws =>
          thrown := true;
        case Returns(response) =>
          if response.error.Some? {
            error := response.error.value;
            trace := trace + [Snapshot(loading, error)];
          } else if response.user.Some? {
            match lookup {
              case Throws =>
                thrown := true;
              case Returns(profile) =>
                if !IsAdminProfile(profile) {
                  error := AccessDenied;
                  trace := trace + [Snapshot(loading, error)];
                  effects := effects + [SignOut];
                  thrown := signOutThrows;
                } else {
                  effects := effects + [ShowToast(WelcomeAdminToast)];
                  effects := effects + [OnLogin(RoleName(profile.value.role), AdminSession(response.user.value, profile.value))];
                  effects := effects + [OnClose];
                }
            }
          }
      }
      if thrown {
        error := UnexpectedError;
        trace := trace + [Snapshot(loading, error)];
      }
      loading := false;
      trace := trace + [Snapshot(loading, error)];
      assert trace == run.snapshots;
      history := history + trace;
    }
  }
}
