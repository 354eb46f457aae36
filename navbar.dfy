/** The top navigation bar: login, OTP verification, registration and logout
    over the session keys in localStorage and the bar's own component state, and
    the list of navigation links the bar shows for a session.

    Each handler is one atomic step: the backend's answers are parameters, and
    what the handler sends, stores, shows and navigates to is appended, in order,
    to the effect log. */
module Navbar {
  import opened Session

  /** The login/registration form (`formData`). */
  datatype Form = Form(name: string, email: string, myUsername: string, password: string, role: Role)

  const EmptyForm := Form("", "", "", "", USER)

  /** The per-operation busy flags (`loading`). */
  datatype Loading = Loading(login: bool, register: bool, otp: bool, logout: bool)

  /** Everything the handlers read or write. */
  datatype NavState = NavState(
    storage: Store,
    loginOpen: bool,
    isRegistering: bool,
    form: Form,
    otpModalOpen: bool,
    loginEmail: string,
    user: Option<Record>,
    loading: Loading,
    effects: seq<Effect>)

  /** The state on first render, before the mount effect has run. */
  function Initial(storage: Store): NavState {
    NavState(storage, false, false, EmptyForm, false, "", None,
             Loading(false, false, false, false), [])
  }

  const AdminRoute := "/tms/admin"

  /** The record written under `user` from a reply's account. */
  function UserData(ou: Account, token: string, refreshedToken: Option<string>): Record {
    Record(Some(ou.name), Some(ou.email), Some(ou.myUsername), Some(RoleName(ou.role)),
           None, Some(token), refreshedToken)
  }

  /** The login call succeeded: status 200 and a non-empty token. */
  predicate LoginAccepted(reply: Reply) {
    reply.Response? && reply.data.status == 200 && Truthy(reply.data.token)
  }

  /** The verification call succeeded: status 200 and an account. */
  predicate VerifyAccepted(reply: Reply) {
    reply.Response? && reply.data.status == 200 && reply.data.ourUser.Some?
  }

  predicate RegisterAccepted(reply: Reply) {
    reply.Response? && reply.data.status == 200
  }

  function LoginFailedAlert(reply: Reply): Effect {
    Alert(ErrorIcon, "Login Failed", FailureText(reply, "Invalid credentials"))
  }

  function OtpErrorAlert(otpReply: Reply): Effect {
    Alert(ErrorIcon, "OTP Error", FailureText(otpReply, "Failed to send OTP"))
  }

  const OtpSentAlert := Alert(SuccessIcon, "OTP Sent!", "Verification code has been sent to your email")
  const LoggedInAlert := Alert(SuccessIcon, "success!", "You have logedin successfuly!")
  const VerifiedAlert := Alert(SuccessIcon, "Verified!", "OTP verification successful")

  function VerifyFailedAlert(reply: Reply): Effect {
    Alert(ErrorIcon, "Verification Failed", FailureText(reply, "Invalid OTP. Please try again."))
  }

  const RegisteredAlert := Alert(SuccessIcon, "Registration Successful!", "Please login with your credentials")

  function RegisterFailedAlert(reply: Reply): Effect {
    Alert(ErrorIcon, "Registration Failed", FailureText(reply, "Registration failed. Please try again."))
  }

  const LoggedOutAlert := Alert(SuccessIcon, "Logged Out", "You have been successfully logged out")

  /** The mount effect: adopt the stored `user` record when it has an email and a role. */
  function LoadUser(s: NavState): NavState {
    match GetUser(s.storage)
    case Some(Json(r)) => if Truthy(r.email) && Truthy(r.role) then s.(user := Some(r)) else s
    case _ => s
  }

  /** `handleLogin`, given the login reply and the reply to the OTP request (the
      latter is consulted only when the login is accepted). */
  function Login(s: NavState, reply: Reply, otpReply: Reply): NavState {
    var done := s.(loading := s.loading.(login := false));
    var asked := s.effects + [Send(LoginRequest(s.form.email, s.form.password))];
    if !LoginAccepted(reply) then
      done.(effects := asked + [LoginFailedAlert(reply)])
    else
      var token := reply.data.token.value;
      var withToken := s.storage[TokenKey := Text(token)];
      var otpAsked := asked + [SetItem(TokenKey, Text(token))] + [Send(OtpRequest(s.form.email))];
      if otpReply.HttpError? then
        done.(storage := withToken, effects := otpAsked + [OtpErrorAlert(otpReply)])
      else if reply.data.ourUser.None? then
        // the OTP was dispatched but the reply names no account: nothing is shown
        done.(storage := withToken, effects := otpAsked)
      else
        var ou := reply.data.ourUser.value;
        // the record's token is read back from storage
        var rec := UserData(ou, OrElse(GetText(withToken, TokenKey), ""), reply.data.refreshedToken);
        var withUser := withToken[UserKey := Json(rec)];
        var userWritten := otpAsked + [SetItem(UserKey, Json(rec))];
        if ou.role == ADMIN then
          done.(storage := withUser, loginEmail := s.form.email, otpModalOpen := true, loginOpen := false,
                effects := userWritten + [OtpSentAlert])
        else
          done.(storage := withUser, effects := userWritten + [Push(AdminRoute)] + [Refresh] + [LoggedInAlert])
  }

  /** `handleOtpVerification` for the code typed into the OTP field, given the
      verification reply. */
  function VerifyOtp(s: NavState, code: string, reply: Reply): NavState {
    var done := s.(loading := s.loading.(otp := false));
    var asked := s.effects + [Send(VerifyRequest(s.loginEmail, code))];
    if !VerifyAccepted(reply) then
      done.(effects := asked + [VerifyFailedAlert(reply)])
    else
      var refreshed := reply.data.refreshedToken;
      var rec := UserData(reply.data.ourUser.value, OrElse(GetText(s.storage, TokenKey), ""), refreshed);
      var withUser := s.storage[UserKey := Json(rec)];
      var userWritten := asked + [SetItem(UserKey, Json(rec))];
      var storage := if Truthy(refreshed) then withUser[RefreshedTokenKey := Text(refreshed.value)] else withUser;
      var written := if Truthy(refreshed) then userWritten + [SetItem(RefreshedTokenKey, Text(refreshed.value))] else userWritten;
      done.(storage := storage, user := Some(rec), otpModalOpen := false,
            effects := written + [VerifiedAlert] + [Push(AdminRoute)] + [Refresh])
  }

  /** `handleRegister`, given the registration reply. */
  function Register(s: NavState, reply: Reply): NavState {
    var done := s.(loading := s.loading.(register := false));
    var f := s.form;
    var asked := s.effects + [Send(RegisterRequest(f.name, f.email, f.myUsername, f.password, f.role))];
    if RegisterAccepted(reply) then
      done.(isRegistering := false, loginOpen := true, form := EmptyForm,
            effects := asked + [RegisteredAlert])
    else
      done.(effects := asked + [RegisterFailedAlert(reply)])
  }

  /** `handleLogout`. */
  function Logout(s: NavState): NavState {
    s.(storage := s.storage - {UserKey} - {TokenKey} - {RefreshedTokenKey}, user := None,
       loading := s.loading.(logout := false),
       effects := s.effects + [RemoveItem(UserKey)] + [RemoveItem(TokenKey)] + [RemoveItem(RefreshedTokenKey)]
                  + [LoggedOutAlert] + [Push("/")] + [Refresh])
  }

  // ---------------------------------------------------------------------------
  // The component

  /** The Navbar's state fields and the browser state it touches. A handler works
      on local copies of localStorage (`store`) and of the effect log (`log`) and
      commits them when it ends. The busy flag a handler raises while its request
      is outstanding is lowered again by its `finally` block; as one atomic step,
      only the lowered flag is visible. */
  class NavbarComponent {
    var storage: Store
    var loginOpen: bool
    var isRegistering: bool
    var form: Form
    var otpModalOpen: bool
    var loginEmail: string
    var user: Option<Record>
    var loading: Loading
    var effects: seq<Effect>

    function State(): NavState
      reads this
    {
      NavState(storage, loginOpen, isRegistering, form, otpModalOpen, loginEmail, user, loading, effects)
    }

    constructor (storage0: Store)
      ensures State() == Initial(storage0)
    {
      storage, loginOpen, isRegistering, form := storage0, false, false, EmptyForm;
      otpModalOpen, loginEmail, user := false, "", None;
      loading, effects := Loading(false, false, false, false), [];
    }

    method MountUser()
      modifies this
      ensures State() == LoadUser(old(State()))
    {
      var stored := GetUser(storage);
      if stored.Some? && stored.value.Json? {
        var parsed := stored.value.record;
        if Truthy(parsed.email) && Truthy(parsed.role) {
          user := Some(parsed);
        }
      }
    }

    method HandleLogin(reply: Reply, otpReply: Reply)
      modifies this
      ensures State() == Login(old(State()), reply, otpReply)
    {
      var store, log := storage, effects;
      log := log + [Send(LoginRequest(form.email, form.password))];
      if reply.Response? && reply.data.status == 200 && Truthy(reply.data.token) {
        // store the token before anything else is asked of the backend
        var token := reply.data.token.value;
        store := store[TokenKey := Text(token)];
        log := log + [SetItem(TokenKey, Text(token))];
        log := log + [Send(OtpRequest(form.email))];
        if otpReply.HttpError? {
          log := log + [OtpErrorAlert(otpReply)];
        } else if reply.data.status == 200 && reply.data.ourUser.Some? {
          var ou := reply.data.ourUser.value;
          var userData := UserData(ou, OrElse(GetText(store, TokenKey), ""), reply.data.refreshedToken);
          store := store[UserKey := Json(userData)];
          log := log + [SetItem(UserKey, Json(userData))];
          if ou.role == ADMIN {
            loginEmail, otpModalOpen, loginOpen := form.email, true, false;
            log := log + [OtpSentAlert];
          } else {
            log := log + [Push(AdminRoute)];
            log := log + [Refresh];
            log := log + [LoggedInAlert];
          }
        }
      } else {
        log := log + [LoginFailedAlert(reply)];
      }
      storage, effects := store, log;
      loading := loading.(login := false);
    }

    method HandleOtpVerification(code: string, reply: Reply)
      modifies this
      ensures State() == VerifyOtp(old(State()), code, reply)
    {
      var store, log := storage, effects;
      log := log + [Send(VerifyRequest(loginEmail, code))];
      if reply.Response? && reply.data.status == 200 && reply.data.ourUser.Some? {
        var userData := UserData(reply.data.ourUser.value, OrElse(GetText(store, TokenKey), ""),
                                 reply.data.refreshedToken);
        store := store[UserKey := Json(userData)];
        log := log + [SetItem(UserKey, Json(userData))];
        if Truthy(reply.data.refreshedToken) {
          store := store[RefreshedTokenKey := Text(reply.data.refreshedToken.value)];
          log := log + [SetItem(RefreshedTokenKey, Text(reply.data.refreshedToken.value))];
        }
        user := Some(userData);
        otpModalOpen := false;
        log := log + [VerifiedAlert];
        log := log + [Push(AdminRoute)];
        log := log + [Refresh];
      } else {
        log := log + [VerifyFailedAlert(reply)];
      }
      storage, effects := store, log;
      loading := loading.(otp := false);
    }

    method HandleRegister(reply: Reply)
      modifies this
      ensures State() == Register(old(State()), reply)
    {
      var log := effects;
      log := log + [Send(RegisterRequest(form.name, form.email, form.myUsername, form.password, form.role))];
      if reply.Response? && reply.data.status == 200 {
        log := log + [RegisteredAlert];
        isRegistering, loginOpen, form := false, true, EmptyForm;
      } else {
        log := log + [RegisterFailedAlert(reply)];
      }
      effects, loading := log, loading.(register := false);
    }

    /** "Need an account? Register" / "Already have an account? Sign In" switches
        the modal between the two forms. */
    method ToggleRegistering()
      modifies this
      ensures State() == old(State()).(isRegistering := !old(isRegistering))
    {
      isRegistering := !isRegistering;
    }

    method HandleLogout()
      modifies this
      ensures State() == Logout(old(State()))
    {
      var store, log := storage, effects;
      store := store - {UserKey};
      log := log + [RemoveItem(UserKey)];
      store := store - {TokenKey};
      log := log + [RemoveItem(TokenKey)];
      store := store - {RefreshedTokenKey};
      log := log + [RemoveItem(RefreshedTokenKey)];
      user := None;
      log := log + [LoggedOutAlert];
      log := log + [Push("/")];
      log := log + [Refresh];
      storage, effects := store, log;
      loading := loading.(logout := false);
    }
  }

  // ---------------------------------------------------------------------------
  // Navigation links

  datatype NavItem = NavItem(caption: string, href: string)

  const Home := NavItem("Home", "/")
  /** The desktop list links Service to `/tms/services`, the mobile menu to `/tms/service`. */
  function Service(mobile: bool): NavItem {
    NavItem("Service", if mobile then "/tms/service" else "/tms/services")
  }

  const Dashboard := NavItem("Dashboard", AdminRoute)
  const AdminPanel := NavItem("Admin Panel", AdminRoute)
  const About := NavItem("About", "/tms/about")

  predicate IsAdmin(user: Option<Record>) {
    user.Some? && user.value.role == Some("ADMIN")
  }

  /** The links the bar shows: the desktop list, or the mobile menu's list when
      `mobile`; they differ only in the Service link. */
  function NavItems(user: Option<Record>, mobile: bool): (items: seq<NavItem>)
    ensures |items| == 3 + (if user.Some? then 1 else 0) + (if IsAdmin(user) then 1 else 0)
    ensures items[0] == Home && items[1] == Service(mobile) && items[|items| - 1] == About
    ensures Dashboard in items <==> user.Some?
    ensures AdminPanel in items <==> IsAdmin(user)
    ensures IsAdmin(user) ==> items[2] == Dashboard && items[3] == AdminPanel
  {
    [Home, Service(mobile)]
    + (if user.Some? then [Dashboard] else [])
    + (if IsAdmin(user) then [AdminPanel] else [])
    + [About]
  }
}
