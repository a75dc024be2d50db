/**
 * The index page: a session toggle between the landing page (with the login modal open or
 * closed) and the dashboard of the signed-in user. Also ties the login modal's effects to the
 * page.
 */
module IndexPage {
  import opened Common
  import opened LoginModal

  /** The page's two state fields: `user` and `showLoginModal`. */
  datatype PageState = PageState(user: Option<UserData>, showLoginModal: bool)

  /** The page's handlers: Navbar Login, Get Started, the modal's `onClose`, `onLogin` and `onLogout`. */
  datatype PageEvent = NavbarLoginClicked | GetStartedClicked | ModalClosed
                     | LoggedIn(userType: string, userData: UserData) | LoggedOut

  /** What the page renders. */
  datatype Screen = DashboardScreen(user: UserData) | LandingScreen(loginModalOpen: bool)

  const InitialPage := PageState(None, false)

  /** The state after one handler has run. */
  function Step(s: PageState, e: PageEvent): (t: PageState)
    ensures e.LoggedIn? ==> t.user == Some(e.userData)
    ensures e.LoggedOut? ==> t.user == None
    ensures !e.LoggedIn? && !e.LoggedOut? ==> t.user == s.user
    ensures e.NavbarLoginClicked? || e.GetStartedClicked? ==> t.showLoginModal
    ensures e.ModalClosed? ==> !t.showLoginModal
    ensures e.LoggedIn? || e.LoggedOut? ==> t.showLoginModal == s.showLoginModal
  {
    match e
    case NavbarLoginClicked => s.(showLoginModal := true)
    case GetStartedClicked => s.(showLoginModal := true)
    case ModalClosed => s.(showLoginModal := false)
    case LoggedIn(_, u) => s.(user := Some(u))
    case LoggedOut => s.(user := None)
  }

  /** The dashboard is shown iff a user is set; otherwise the landing page with the modal as the flag says. */
  function Render(s: PageState): (v: Screen)
    ensures v.DashboardScreen? <==> s.user.Some?
    ensures v.DashboardScreen? ==> v.user == s.user.value
    ensures v.LandingScreen? ==> v.loginModalOpen == s.showLoginModal
  {
    if s.user.Some? then DashboardScreen(s.user.value) else LandingScreen(s.showLoginModal)
  }

  /** `handleLogin` ignores the user type it is given. */
  lemma LoginIgnoresUserType(s: PageState, t1: string, t2: string, u: UserData)
    ensures Step(s, LoggedIn(t1, u)) == Step(s, LoggedIn(t2, u))
  {
  }

  /** The page event a login-modal effect triggers, if any (toasts trigger none). */
  function EventOf(e: Effect): Option<PageEvent>
  {
    match e
    case OnLogin(t, u) => Some(LoggedIn(t, u))
    case OnClose => Some(ModalClosed)
    case ShowToast(_) => None
  }

  /** The page after the handler one effect triggers. */
  function EventOfStep(s: PageState, e: Effect): PageState
  {
    match EventOf(e) case Some(ev) => Step(s, ev) case None => s
  }

  /** Runs the page handlers that a sequence of login-modal effects triggers, in order. */
  function Deliver(s: PageState, effects: seq<Effect>): (t: PageState)
    ensures (forall e :: e in effects ==> e.ShowToast?) ==> t == s
    ensures (forall e :: e in effects ==> !e.OnLogin?) ==> t.user == s.user
    ensures (forall e :: e in effects ==> !e.OnClose?) ==> t.showLoginModal == s.showLoginModal
    decreases |effects|
  {
    if effects == [] then s else Deliver(EventOfStep(s, effects[0]), effects[1..])
  }

  /** Toasts never change the page. */
  lemma {:induction false} DeliverOnlyCallbacks(s: PageState, effects: seq<Effect>)
    ensures Deliver(s, effects) == Deliver(s, Callbacks(effects))
    decreases |effects|
  {
    if effects != [] {
      DeliverOnlyCallbacks(EventOfStep(s, effects[0]), effects[1..]);
      if !effects[0].ShowToast? {
        assert Callbacks(effects) == [effects[0]] + Callbacks(effects[1..]);
        assert ([effects[0]] + Callbacks(effects[1..]))[1..] == Callbacks(effects[1..]);
      }
    }
  }


  /** An accepted login closes the modal and shows the dashboard of the new user, with that role's tabs. */
  lemma AcceptedLoginShowsDashboard(s: PageState, f: LoginForm)
    requires CheckLogin(f).Success?
    ensures var u := CheckLogin(f).value;
      && Deliver(s, LoginEffects(f)) == PageState(Some(u), false)
      && Render(Deliver(s, LoginEffects(f))) == DashboardScreen(u)
  {
    var u := CheckLogin(f).value;
    DeliverOnlyCallbacks(s, LoginEffects(f));
    LoginCallbacks(f);
    var s1 := Step(s, LoggedIn(f.role, u));
    assert [OnLogin(f.role, u), OnClose][1..] == [OnClose];
    assert Deliver(s1, [OnClose]) == Deliver(Step(s1, ModalClosed), []);
  }

  /** A rejected login leaves the page exactly as it was. */
  lemma RejectedLoginChangesNothing(s: PageState, f: LoginForm)
    requires CheckLogin(f).Failure?
    ensures Deliver(s, LoginEffects(f)) == s
  {
  }

  /** An accepted registration closes the modal and shows the dashboard of the registered user. */
  lemma AcceptedRegistrationShowsDashboard(s: PageState, f: RegisterForm)
    requires CheckRegister(f).Success?
    ensures var u := CheckRegister(f).value;
      && Deliver(s, RegisterEffects(f)) == PageState(Some(u), false)
      && Render(Deliver(s, RegisterEffects(f))) == DashboardScreen(u)
  {
    var u := CheckRegister(f).value;
    DeliverOnlyCallbacks(s, RegisterEffects(f));
    RegisterCallbacks(f);
    var s1 := Step(s, LoggedIn(f.role, u));
    assert [OnLogin(f.role, u), OnClose][1..] == [OnClose];
    assert Deliver(s1, [OnClose]) == Deliver(Step(s1, ModalClosed), []);
  }

  /** A rejected registration leaves the page exactly as it was. */
  lemma RejectedRegistrationChangesNothing(s: PageState, f: RegisterForm)
    requires CheckRegister(f).Failure?
    ensures Deliver(s, RegisterEffects(f)) == s
  {
  }

  /** Signing in through the modal and then logging out lands on the landing page with the modal closed. */
  lemma LoginThenLogoutLandsClosed(s: PageState, f: LoginForm)
    requires CheckLogin(f).Success?
    ensures Render(Step(Deliver(s, LoginEffects(f)), LoggedOut)) == LandingScreen(false)
  {
    AcceptedLoginShowsDashboard(s, f);
  }

  /** The page component's state. */
  class IndexState {
    var user: Option<UserData>
    var showLoginModal: bool

    constructor ()
      ensures user == None && !showLoginModal
    {
      user := None;
      showLoginModal := false;
    }

    function Page(): PageState
      reads this
    {
      PageState(user, showLoginModal)
    }

    /** `handleLogin`: store the user record; the user type is not used. */
    method HandleLogin(userType: string, userData: UserData)
      modifies this
      ensures user == Some(userData) && showLoginModal == old(showLoginModal)
      ensures Page() == Step(old(Page()), LoggedIn(userType, userData))
    {
      user := Some(userData);
    }

    /** `handleLogout`. */
    method HandleLogout()
      modifies this
      ensures user == None && showLoginModal == old(showLoginModal)
      ensures Page() == Step(old(Page()), LoggedOut)
    {
      user := None;
    }

    /** Navbar Login and Get Started both open the modal. */
    method OpenLoginModal()
      modifies this
      ensures showLoginModal && user == old(user)
      ensures Page() == Step(old(Page()), NavbarLoginClicked) == Step(old(Page()), GetStartedClicked)
    {
      showLoginModal := true;
    }

    /** The modal's `onClose`. */
    method CloseLoginModal()
      modifies this
      ensures !showLoginModal && user == old(user)
      ensures Page() == Step(old(Page()), ModalClosed)
    {
      showLoginModal := false;
    }

    /** What the page renders now. */
    function View(): (v: Screen)
      reads this
      ensures v.DashboardScreen? <==> user.Some?
    {
      Render(Page())
    }
  }
}
