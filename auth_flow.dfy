/** Properties of the Navbar's authentication flow: what each handler does to
    the session keys and the bar's state, the order of its steps, and what
    sequences of handlers can and cannot bring about. */
module AuthFlow {
  import opened Session
  import opened Navbar

  /** Two stores agree on every key outside `keys`. */
  ghost predicate SameOutside(a: Store, b: Store, keys: set<string>) {
    forall k :: k !in keys ==> (k in a <==> k in b) && (k in a ==> a[k] == b[k])
  }

  // ---------------------------------------------------------------------------
  // Login

  /** A rejected login (an error, a status other than 200, or no token) writes no
      storage key, opens no modal, and ends in the "Login Failed" notice. A reply
      that arrived (whatever its status) shows the fallback text, not its message. */
  lemma RejectedLogin(s: NavState, reply: Reply, otpReply: Reply)
    requires !LoginAccepted(reply)
    ensures var r := Login(s, reply, otpReply);
      && r.storage == s.storage
      && r.otpModalOpen == s.otpModalOpen && r.loginOpen == s.loginOpen
      && r.loginEmail == s.loginEmail && r.user == s.user
      && r.effects == s.effects + [Send(LoginRequest(s.form.email, s.form.password)),
                                   Alert(ErrorIcon, "Login Failed", FailureText(reply, "Invalid credentials"))]
      && (reply.Response? ==> r.effects[|r.effects| - 1].text == "Invalid credentials")
  {
  }

  /** After an accepted login, whatever the account's role and whatever the OTP
      request returns: the first three steps are the login request, the token
      write, and the OTP request to the submitted email; no other request follows;
      and the token stays stored. */
  lemma TokenStoredBeforeOtpRequest(s: NavState, reply: Reply, otpReply: Reply)
    requires LoginAccepted(reply)
    ensures var r := Login(s, reply, otpReply);
      var n := |s.effects|;
      && |r.effects| >= n + 3
      && r.effects[..n] == s.effects
      && r.effects[n..n + 3] == [Send(LoginRequest(s.form.email, s.form.password)),
                                 SetItem(TokenKey, Text(reply.data.token.value)),
                                 Send(OtpRequest(s.form.email))]
      && (forall k :: n + 3 <= k < |r.effects| ==> !r.effects[k].Send?)
      && GetText(r.storage, TokenKey) == reply.data.token
  {
  }

  /** When the OTP request fails the token written by the login stays, nothing
      else is stored, the OTP modal and the user are left as they were, and the
      "OTP Error" notice shows the server's message or "Failed to send OTP". */
  lemma OtpDispatchFailureKeepsToken(s: NavState, reply: Reply, otpReply: Reply)
    requires LoginAccepted(reply) && otpReply.HttpError?
    ensures var r := Login(s, reply, otpReply);
      && r.storage == s.storage[TokenKey := Text(reply.data.token.value)]
      && r.otpModalOpen == s.otpModalOpen && r.loginOpen == s.loginOpen && r.user == s.user
      && r.effects[|r.effects| - 1] == Alert(ErrorIcon, "OTP Error", OrElse(otpReply.message, "Failed to send OTP"))
  {
  }

  /** Once the OTP request went out and the reply names an account, the `user`
      record is written for every role, ADMIN included, before any verification:
      it carries the account's fields and role, and its token is the stored one. */
  lemma UserRecordWrittenForEveryRole(s: NavState, reply: Reply, otpReply: Reply)
    requires LoginAccepted(reply) && otpReply.Response? && reply.data.ourUser.Some?
    ensures var r := Login(s, reply, otpReply);
      var ou := reply.data.ourUser.value;
      && UserKey in r.storage && r.storage[UserKey].Json?
      && r.storage[UserKey].record == Record(Some(ou.name), Some(ou.email), Some(ou.myUsername), Some(RoleName(ou.role)),
                                             None, reply.data.token, reply.data.refreshedToken)
      && r.storage[UserKey].record.token == GetText(r.storage, TokenKey)
      && SameOutside(r.storage, s.storage, {TokenKey, UserKey})
  {
  }

  /** With the record written, an ADMIN account gets the OTP modal (the login
      modal closes and the submitted email is kept for verification); any other
      role goes straight to the admin route and the modals are left alone. */
  lemma AdminWaitsForOtp(s: NavState, reply: Reply, otpReply: Reply)
    requires LoginAccepted(reply) && otpReply.Response? && reply.data.ourUser.Some?
    ensures var r := Login(s, reply, otpReply);
      var admin := reply.data.ourUser.value.role == ADMIN;
      && (admin ==> r.loginEmail == s.form.email && r.otpModalOpen && !r.loginOpen
                    && r.effects[|r.effects| - 1] == OtpSentAlert
                    && Push(AdminRoute) !in r.effects[|s.effects|..])
      && (!admin ==> r.loginEmail == s.loginEmail && r.otpModalOpen == s.otpModalOpen && r.loginOpen == s.loginOpen
                     && r.effects[|r.effects| - 3..] == [Push(AdminRoute), Refresh, LoggedInAlert])
  {
  }

  /** The login handler never sets the bar's `user`: a signed-in user appears only
      through verification or a remount. */
  lemma LoginLeavesUserState(s: NavState, reply: Reply, otpReply: Reply)
    ensures Login(s, reply, otpReply).user == s.user
  {
  }

  // ---------------------------------------------------------------------------
  // OTP verification

  /** A successful verification rewrites `user` with the stored token, writes
      `refreshedToken` only when the reply carries one, keeps the token and every
      other key, adopts the record as the bar's user and closes the OTP modal. */
  lemma VerifiedSession(s: NavState, code: string, reply: Reply)
    requires VerifyAccepted(reply)
    ensures var r := VerifyOtp(s, code, reply);
      var refreshed := reply.data.refreshedToken;
      var ou := reply.data.ourUser.value;
      && UserKey in r.storage && r.storage[UserKey].Json?
      && r.user == Some(r.storage[UserKey].record)
      && r.storage[UserKey].record.role == Some(RoleName(ou.role))
      && r.storage[UserKey].record.token == Some(OrElse(GetText(s.storage, TokenKey), ""))
      && GetText(r.storage, TokenKey) == GetText(s.storage, TokenKey)
      && (Truthy(refreshed) ==> GetText(r.storage, RefreshedTokenKey) == refreshed)
      && (!Truthy(refreshed) ==> (RefreshedTokenKey in r.storage <==> RefreshedTokenKey in s.storage))
      && (!Truthy(refreshed) && RefreshedTokenKey in s.storage ==> r.storage[RefreshedTokenKey] == s.storage[RefreshedTokenKey])
      && SameOutside(r.storage, s.storage, {UserKey, RefreshedTokenKey})
      && !r.otpModalOpen
      && r.effects[..|s.effects| + 1] == s.effects + [Send(VerifyRequest(s.loginEmail, code))]
  {
  }

  /** A failed verification changes no storage key (the token stays), leaves the
      OTP modal and the user as they were, and shows "Verification Failed". */
  lemma FailedVerificationChangesNothing(s: NavState, code: string, reply: Reply)
    requires !VerifyAccepted(reply)
    ensures var r := VerifyOtp(s, code, reply);
      && r.storage == s.storage
      && r.otpModalOpen == s.otpModalOpen && r.user == s.user && r.loginOpen == s.loginOpen
      && r.effects == s.effects + [Send(VerifyRequest(s.loginEmail, code)), VerifyFailedAlert(reply)]
  {
  }

  // ---------------------------------------------------------------------------
  // Registration and logout

  /** A successful registration returns to the login form with an empty draft
      (role USER); a failed one keeps the draft and the modal flags. Neither signs
      anyone in or touches storage. */
  lemma RegistrationOutcome(s: NavState, reply: Reply)
    ensures var r := Register(s, reply);
      && r.storage == s.storage && r.user == s.user && r.otpModalOpen == s.otpModalOpen
      && (RegisterAccepted(reply) ==>
            r.form == Form("", "", "", "", USER) && !r.isRegistering && r.loginOpen)
      && (!RegisterAccepted(reply) ==>
            r.form == s.form && r.isRegistering == s.isRegistering && r.loginOpen == s.loginOpen)
  {
  }

  /** Logout removes exactly the three session keys, clears the user and ends on
      the landing route. */
  lemma LogoutClearsSession(s: NavState)
    ensures var r := Logout(s);
      && (forall k :: k in SessionKeys ==> k !in r.storage)
      && SameOutside(r.storage, s.storage, SessionKeys)
      && r.user == None
      && r.effects[|r.effects| - 2..] == [Push("/"), Refresh]
  {
  }

  // ---------------------------------------------------------------------------
  // Sequences of handlers

  /** A remount after an accepted ADMIN login, before any code is verified,
      adopts the record the login stored: the bar then shows the Admin Panel link. */
  lemma RemountBeforeVerificationShowsAdmin(s: NavState, reply: Reply, otpReply: Reply)
    requires LoginAccepted(reply) && otpReply.Response? && reply.data.ourUser.Some?
    requires reply.data.ourUser.value.role == ADMIN && reply.data.ourUser.value.email != ""
    ensures var reloaded := LoadUser(Initial(Login(s, reply, otpReply).storage));
      && IsAdmin(reloaded.user)
      && (forall mobile :: AdminPanel in NavItems(reloaded.user, mobile))
  {
  }

  /** An ADMIN signs in, mistypes the code once, then enters the right one: after
      the failed attempt the token is still stored and the OTP modal still open;
      after the good one the user is signed in with that token and the modal is
      closed. Both codes go to the email the login was submitted with. */
  lemma AdminSignInWithOneWrongCode(s: NavState, reply: Reply, otpReply: Reply,
                                    wrong: string, badReply: Reply, right: string, goodReply: Reply)
    requires LoginAccepted(reply) && otpReply.Response? && reply.data.ourUser.Some?
    requires reply.data.ourUser.value.role == ADMIN
    requires !VerifyAccepted(badReply) && VerifyAccepted(goodReply)
    ensures var s1 := Login(s, reply, otpReply);
      var s2 := VerifyOtp(s1, wrong, badReply);
      var s3 := VerifyOtp(s2, right, goodReply);
      && s2.otpModalOpen && s2.user == s.user && GetText(s2.storage, TokenKey) == reply.data.token
      && !s3.otpModalOpen && s3.user.Some? && s3.user.value.token == reply.data.token
      && GetText(s3.storage, TokenKey) == reply.data.token
      && Send(VerifyRequest(s.form.email, wrong)) in s3.effects
      && Send(VerifyRequest(s.form.email, right)) in s3.effects
  {
  }

  /** The user-visible events the Navbar reacts to. */
  datatype NavEvent =
    | Mount
    | SubmitLogin(reply: Reply, otpReply: Reply)
    | SubmitOtp(code: string, verifyReply: Reply)
    | SubmitRegistration(registerReply: Reply)
    | ClickLogout
    | ClickRegisterToggle

  function Step(s: NavState, ev: NavEvent): NavState {
    match ev
    case Mount => LoadUser(s)
    case SubmitLogin(reply, otpReply) => Login(s, reply, otpReply)
    case SubmitOtp(code, reply) => VerifyOtp(s, code, reply)
    case SubmitRegistration(reply) => Register(s, reply)
    case ClickLogout => Logout(s)
    case ClickRegisterToggle => s.(isRegistering := !s.isRegistering)
  }

  /** The state after the events, oldest first. */
  function Run(s: NavState, evs: seq<NavEvent>): NavState
    decreases |evs|
  {
    if evs == [] then s else Step(Run(s, evs[..|evs| - 1]), evs[|evs| - 1])
  }

  /** The event is an accepted login whose reply carried token `t`. */
  predicate IssuesToken(ev: NavEvent, t: string) {
    ev.SubmitLogin? && LoginAccepted(ev.reply) && ev.reply.data.token == Some(t)
  }

  /** One step either leaves the stored token as it was, removes it, or stores
      the token an accepted login was issued. */
  lemma StepToken(s: NavState, ev: NavEvent, t: string)
    requires GetText(Step(s, ev).storage, TokenKey) == Some(t)
    ensures GetText(s.storage, TokenKey) == Some(t) || IssuesToken(ev, t)
  {
  }

  /** A token found in storage after any sequence of events was there from the
      start or was issued by an accepted login among those events: no other
      handler invents one. */
  lemma {:induction false} StoredTokenComesFromLogin(s: NavState, evs: seq<NavEvent>, t: string)
    requires GetText(Run(s, evs).storage, TokenKey) == Some(t)
    ensures GetText(s.storage, TokenKey) == Some(t) || exists k :: 0 <= k < |evs| && IssuesToken(evs[k], t)
  {
    if evs != [] {
      var prefix := evs[..|evs| - 1];
      StepToken(Run(s, prefix), evs[|evs| - 1], t);
      if GetText(Run(s, prefix).storage, TokenKey) == Some(t) {
        StoredTokenComesFromLogin(s, prefix, t);
        if GetText(s.storage, TokenKey) != Some(t) {
          var k :| 0 <= k < |prefix| && IssuesToken(prefix[k], t);
          assert evs[k] == prefix[k];
        }
      } else {
        assert IssuesToken(evs[|evs| - 1], t);
      }
    }
  }

  /** The event cannot store a session key: a remount, a logout, a registration,
      the switch between the two forms, or a login or verification the backend
      turned down. */
  predicate Harmless(ev: NavEvent) {
    || ev.Mount?
    || ev.ClickLogout?
    || ev.SubmitRegistration?
    || ev.ClickRegisterToggle?
    || (ev.SubmitLogin? && !LoginAccepted(ev.reply))
    || (ev.SubmitOtp? && !VerifyAccepted(ev.verifyReply))
  }

  /** After a logout, no session key is stored until an accepted login or
      verification writes one: registrations, form switches, remounts and failed attempts never do. */
  lemma {:induction false} LoggedOutStaysLoggedOut(s: NavState, evs: seq<NavEvent>)
    requires forall k :: 0 <= k < |evs| ==> Harmless(evs[k])
    ensures forall k :: k in SessionKeys ==> k !in Run(Logout(s), evs).storage
  {
    if evs != [] {
      var prefix := evs[..|evs| - 1];
      LoggedOutStaysLoggedOut(s, prefix);
    }
  }
}
