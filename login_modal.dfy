/**
 * The login / registration modal: its two forms, updated one field at a time, and the two
 * submit handlers, which validate the form and then call back into the page.
 */
module LoginModal {
  import opened Common
  import opened Schema

  datatype LoginForm = LoginForm(instituteId: string, password: string, role: string)

  datatype RegisterForm = RegisterForm(name: string, email: string, instituteId: string,
                                       password: string, confirmPassword: string, role: string)

  datatype LoginField = LoginInstituteId | LoginPassword | LoginRole

  datatype RegisterField = RegisterName | RegisterEmail | RegisterInstituteId
                         | RegisterPassword | RegisterConfirmPassword | RegisterRole

  /** The user record handed to `onLogin`; only a registration carries an email. There is no password in it. */
  datatype UserData = UserData(id: string, role: string, name: string, email: Option<string>)

  /** One thing a submit handler does: raise a toast, call `onLogin` or call `onClose`. */
  datatype Effect = ShowToast(toast: Toast) | OnLogin(userType: string, userData: UserData) | OnClose

  /** The icons `GraduationCap`, `User` and `Shield`. */
  datatype Icon = GraduationCapIcon | UserIcon | ShieldIcon

  const EmptyLoginForm := LoginForm("", "", "")
  const EmptyRegisterForm := RegisterForm("", "", "", "", "", "")
  const FillAllFields := "Please fill in all fields"
  const PasswordsDoNotMatch := "Passwords do not match"

  // ----- single-field updates -----

  function LoginValue(f: LoginForm, k: LoginField): string
  {
    match k
    case LoginInstituteId => f.instituteId
    case LoginPassword => f.password
    case LoginRole => f.role
  }

  /** `setLoginData({...loginData, k: v})`. */
  function WithLoginValue(f: LoginForm, k: LoginField, v: string): (g: LoginForm)
    ensures LoginValue(g, k) == v
    ensures forall k' :: k' != k ==> LoginValue(g, k') == LoginValue(f, k')
  {
    match k
    case LoginInstituteId => f.(instituteId := v)
    case LoginPassword => f.(password := v)
    case LoginRole => f.(role := v)
  }

  function RegisterValue(f: RegisterForm, k: RegisterField): string
  {
    match k
    case RegisterName => f.name
    case RegisterEmail => f.email
    case RegisterInstituteId => f.instituteId
    case RegisterPassword => f.password
    case RegisterConfirmPassword => f.confirmPassword
    case RegisterRole => f.role
  }

  /** `setRegisterData({...registerData, k: v})`. */
  function WithRegisterValue(f: RegisterForm, k: RegisterField, v: string): (g: RegisterForm)
    ensures RegisterValue(g, k) == v
    ensures forall k' :: k' != k ==> RegisterValue(g, k') == RegisterValue(f, k')
  {
    match k
    case RegisterName => f.(name := v)
    case RegisterEmail => f.(email := v)
    case RegisterInstituteId => f.(instituteId := v)
    case RegisterPassword => f.(password := v)
    case RegisterConfirmPassword => f.(confirmPassword := v)
    case RegisterRole => f.(role := v)
  }

  // ----- validation and the simulated user record -----

  /** The name the simulated sign-in gives each role. */
  function SimulatedName(role: string): string
  {
    if role == "admin" then "Admin User" else if role == "teacher" then "John Teacher" else "Jane Student"
  }

  /** The checks of `handleLogin` and the record it builds. */
  function CheckLogin(f: LoginForm): (r: Result<UserData, string>)
    ensures r.Failure? <==> f.instituteId == "" || f.password == "" || f.role == ""
    ensures r.Failure? ==> r.error == FillAllFields
    ensures r.Success? ==> r.value.id == f.instituteId && r.value.role == f.role && r.value.email.None?
    ensures r.Success? && f.role == "admin" ==> r.value.name == "Admin User"
    ensures r.Success? && f.role == "teacher" ==> r.value.name == "John Teacher"
    ensures r.Success? && f.role != "admin" && f.role != "teacher" ==> r.value.name == "Jane Student"
  {
    if f.instituteId == "" || f.password == "" || f.role == "" then Failure(FillAllFields)
    else Success(UserData(f.instituteId, f.role, SimulatedName(f.role), None))
  }

  /** The sign-in is simulated: which non-empty password is typed makes no difference. */
  lemma LoginIgnoresPassword(f: LoginForm, p: string)
    requires f.password != "" && p != ""
    ensures CheckLogin(f.(password := p)) == CheckLogin(f)
  {
  }

  /** The checks of `handleRegister`, in the order it makes them, and the record it builds. */
  function CheckRegister(f: RegisterForm): (r: Result<UserData, string>)
    ensures r == Failure(FillAllFields) <==>
      f.name == "" || f.email == "" || f.instituteId == "" || f.password == "" || f.confirmPassword == "" || f.role == ""
    ensures r == Failure(PasswordsDoNotMatch) <==>
      f.name != "" && f.email != "" && f.instituteId != "" && f.password != "" && f.confirmPassword != "" && f.role != ""
      && f.password != f.confirmPassword
    ensures r.Success? <==>
      f.name != "" && f.email != "" && f.instituteId != "" && f.password != "" && f.confirmPassword != "" && f.role != ""
      && f.password == f.confirmPassword
    ensures r.Success? ==> r.value == UserData(f.instituteId, f.role, f.name, Some(f.email))
  {
    if f.name == "" || f.email == "" || f.instituteId == "" || f.password == "" || f.confirmPassword == "" || f.role == "" then
      Failure(FillAllFields)
    else if f.password != f.confirmPassword then
      Failure(PasswordsDoNotMatch)
    else
      Success(UserData(f.instituteId, f.role, f.name, Some(f.email)))
  }

  /** An accepted registration needs matching passwords, and the record does not depend on them. */
  lemma RegisterIgnoresPasswordValue(f: RegisterForm, p: string)
    requires CheckRegister(f).Success? && p != ""
    ensures f.password == f.confirmPassword
    ensures CheckRegister(f.(password := p, confirmPassword := p)) == CheckRegister(f)
  {
  }

  /** `getRoleIcon`: one icon per known role, none for anything else. */
  function RoleIcon(role: string): (icon: Option<Icon>)
    ensures icon.Some? <==> ParseRole(role).Some?
    ensures icon == Some(GraduationCapIcon) <==> role == "student"
    ensures icon == Some(UserIcon) <==> role == "teacher"
    ensures icon == Some(ShieldIcon) <==> role == "admin"
  {
    match ParseRole(role)
    case Some(Student) => Some(GraduationCapIcon)
    case Some(Teacher) => Some(UserIcon)
    case Some(Admin) => Some(ShieldIcon)
    case None => None
  }

  /** Distinct roles show distinct icons. */
  lemma RoleIconsDistinct(r1: Role, r2: Role)
    ensures RoleIcon(RoleName(r1)) == RoleIcon(RoleName(r2)) <==> r1 == r2
  {
  }

  // ----- what the submit handlers do -----

  function WelcomeToast(title: string, u: UserData): Toast
  {
    Toast(title, "Welcome " + u.name + "!", false)
  }

  /** The effects of `handleLogin` on a form. */
  function LoginEffects(f: LoginForm): (r: seq<Effect>)
    ensures CheckLogin(f).Failure? ==> r == [ShowToast(ErrorToast(FillAllFields))]
    ensures CheckLogin(f).Success? ==>
      && |r| == 3 && r[0] == OnLogin(f.role, CheckLogin(f).value) && r[1] == OnClose
      && r[2].ShowToast? && !r[2].toast.destructive
  {
    match CheckLogin(f)
    case Failure(msg) => [ShowToast(ErrorToast(msg))]
    case Success(u) => [OnLogin(f.role, u), OnClose, ShowToast(WelcomeToast("Login Successful", u))]
  }

  /** The effects of `handleRegister` on a form. */
  function RegisterEffects(f: RegisterForm): (r: seq<Effect>)
    ensures CheckRegister(f).Failure? ==> r == [ShowToast(ErrorToast(CheckRegister(f).error))]
    ensures CheckRegister(f).Success? ==>
      && |r| == 3 && r[0] == OnLogin(f.role, CheckRegister(f).value) && r[1] == OnClose
      && r[2].ShowToast? && !r[2].toast.destructive
  {
    match CheckRegister(f)
    case Failure(msg) => [ShowToast(ErrorToast(msg))]
    case Success(u) => [OnLogin(f.role, u), OnClose, ShowToast(WelcomeToast("Registration Successful", u))]
  }

  /** The callbacks among the effects, in order (toasts dropped). */
  function Callbacks(effects: seq<Effect>): (r: seq<Effect>)
    ensures |r| <= |effects|
    ensures forall e :: e in r <==> e in effects && !e.ShowToast?
  {
    if effects == [] then []
    else if effects[0].ShowToast? then Callbacks(effects[1..])
    else [effects[0]] + Callbacks(effects[1..])
  }

  /** An accepted login calls `onLogin` once and then `onClose`; a rejected one calls neither. */
  lemma LoginCallbacks(f: LoginForm)
    ensures CheckLogin(f).Success? ==> Callbacks(LoginEffects(f)) == [OnLogin(f.role, CheckLogin(f).value), OnClose]
    ensures CheckLogin(f).Failure? ==> Callbacks(LoginEffects(f)) == []
  {
    if CheckLogin(f).Success? {
      var e := LoginEffects(f);
      assert e[0] == OnLogin(f.role, CheckLogin(f).value) && e[1] == OnClose && e[2].ShowToast?;
      assert e[1..][1..][1..] == [];
      assert Callbacks(e[2..]) == [];
      assert Callbacks(e[1..]) == [OnClose];
    }
  }

  /** An accepted registration calls `onLogin` once and then `onClose`; a rejected one calls neither. */
  lemma RegisterCallbacks(f: RegisterForm)
    ensures CheckRegister(f).Success? ==> Callbacks(RegisterEffects(f)) == [OnLogin(f.role, CheckRegister(f).value), OnClose]
    ensures CheckRegister(f).Failure? ==> Callbacks(RegisterEffects(f)) == []
  {
    if CheckRegister(f).Success? {
      var e := RegisterEffects(f);
      assert e[0] == OnLogin(f.role, CheckRegister(f).value) && e[1] == OnClose && e[2].ShowToast?;
      assert e[1..][1..][1..] == [];
      assert Callbacks(e[2..]) == [];
      assert Callbacks(e[1..]) == [OnClose];
    }
  }

  /** The state of the login modal component. */
  class LoginModalState {
    var showPassword: bool
    var loginData: LoginForm
    var registerData: RegisterForm
    /** Everything the handlers have done so far, oldest first. */
    var effects: seq<Effect>

    constructor ()
      ensures !showPassword && loginData == EmptyLoginForm && registerData == EmptyRegisterForm && effects == []
    {
      showPassword := false;
      loginData := EmptyLoginForm;
      registerData := EmptyRegisterForm;
      effects := [];
    }

    /** The `onChange` / `onValueChange` of one login field. */
    method UpdateLogin(k: LoginField, v: string)
      modifies this
      ensures loginData == WithLoginValue(old(loginData), k, v)
      ensures registerData == old(registerData) && showPassword == old(showPassword) && effects == old(effects)
    {
      loginData := WithLoginValue(loginData, k, v);
    }

    /** The `onChange` / `onValueChange` of one registration field. */
    method UpdateRegister(k: RegisterField, v: string)
      modifies this
      ensures registerData == WithRegisterValue(old(registerData), k, v)
      ensures loginData == old(loginData) && showPassword == old(showPassword) && effects == old(effects)
    {
      registerData := WithRegisterValue(registerData, k, v);
    }

    /** The eye button next to the login password. */
    method TogglePasswordVisibility()
      modifies this
      ensures showPassword == !old(showPassword)
      ensures loginData == old(loginData) && registerData == old(registerData) && effects == old(effects)
    {
      showPassword := !showPassword;
    }

    /** `handleLogin`: reject an incomplete form, otherwise sign in with the simulated record. */
    method HandleLogin()
      modifies this
      ensures effects == old(effects) + LoginEffects(loginData)
      ensures loginData == old(loginData) && registerData == old(registerData) && showPassword == old(showPassword)
    {
      if loginData.instituteId == "" || loginData.password == "" || loginData.role == "" {
        effects := effects + [ShowToast(ErrorToast(FillAllFields))];
        return;
      }
      var userData := UserData(loginData.instituteId, loginData.role, SimulatedName(loginData.role), None);
      effects := effects + [OnLogin(loginData.role, userData)];
      effects := effects + [OnClose];
      effects := effects + [ShowToast(WelcomeToast("Login Successful", userData))];
    }

    /** `handleRegister`: reject an incomplete form, then mismatched passwords, otherwise sign in. */
    method HandleRegister()
      modifies this
      ensures effects == old(effects) + RegisterEffects(registerData)
      ensures loginData == old(loginData) && registerData == old(registerData) && showPassword == old(showPassword)
    {
      var f := registerData;
      if f.name == "" || f.email == "" || f.instituteId == "" || f.password == "" || f.confirmPassword == "" || f.role == "" {
        effects := effects + [ShowToast(ErrorToast(FillAllFields))];
        return;
      }
      if f.password != f.confirmPassword {
        effects := effects + [ShowToast(ErrorToast(PasswordsDoNotMatch))];
        return;
      }
      var userData := UserData(f.instituteId, f.role, f.name, Some(f.email));
      effects := effects + [OnLogin(f.role, userData)];
      effects := effects + [OnClose];
      effects := effects + [ShowToast(WelcomeToast("Registration Successful", userData))];
    }
  }
}
