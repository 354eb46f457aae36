/** The dashboard header: the signed-in user it hydrates from localStorage, the
    notifications it lists for that user's role, the password and username
    forms of its settings dialogs, its logout, and the flags of its menus and of
    the notification panels.

    As in the Navbar, each handler is one atomic step, the backend's answers are
    parameters, and what a handler sends, stores, shows or asks of the
    notification service is appended to the effect log. */
module Header {
  import opened Session

  // ---------------------------------------------------------------------------
  // The current user

  /** The header's `currentUser`: every field a string, the avatar a URL. */
  datatype CurrentUser = CurrentUser(name: string, email: string, myUsername: string, role: string, avatar: Avatar)

  /** The record used when no usable user is stored. */
  const Guest := CurrentUser("Guest", "guest@example.com", "guest", "Unknown", Generated("Guest"))

  /** JavaScript truthiness of a stored avatar: a given URL must be non-empty; a
      generated one is a full URL and so never empty. */
  predicate AvatarTruthy(a: Option<Avatar>) {
    a.Some? && (a.value.Generated? || a.value.url != "")
  }

  /** A user every field of which is truthy: what hydration always produces. */
  predicate Complete(u: CurrentUser) {
    u.name != "" && u.email != "" && u.myUsername != "" && u.role != "" && AvatarTruthy(Some(u.avatar))
  }

  /** `e.split('@')[0]`: the part of an email address before its first '@'. */
  function LocalPart(e: string): (p: string)
    ensures p <= e && '@' !in p
    ensures |p| < |e| ==> e[|p|] == '@'
  {
    if e == [] || e[0] == '@' then [] else [e[0]] + LocalPart(e[1..])
  }

  /** The lazy initialiser of `currentUser`, given `localStorage.getItem("user")`.
      Nothing stored, or text that is not a user object, gives the Guest record.
      Otherwise each field falls back to its own default; the avatar falls back to
      one generated from the name or else from the email's local part. That
      fallback reads `email.split`, which throws when the name and the avatar are
      falsy and the email is absent, and the thrown error also gives Guest. */
  function Hydrate(stored: Option<Stored>): (u: CurrentUser)
    ensures Complete(u)
  {
    match stored
    case None => Guest
    case Some(Text(_)) => Guest
    case Some(Json(r)) =>
      if !AvatarTruthy(r.avatar) && !Truthy(r.name) && r.email.None? then Guest
      else
        CurrentUser(OrElse(r.name, "Guest"), OrElse(r.email, "guest@example.com"),
                    OrElse(r.myUsername, "guest"), OrElse(r.role, "Unknown"),
                    if AvatarTruthy(r.avatar) then r.avatar.value
                    else Generated(if Truthy(r.name) then r.name.value else LocalPart(r.email.value)))
  }

  /** `JSON.stringify(currentUser)` as a stored record: the five fields, no tokens. */
  function ToRecord(u: CurrentUser): Record {
    Record(Some(u.name), Some(u.email), Some(u.myUsername), Some(u.role), Some(u.avatar), None, None)
  }

  // ---------------------------------------------------------------------------
  // Notifications

  /** A notification from the notification service, as far as the header reads it. */
  datatype Notification = Notification(id: int, role: string, read: bool, link: string)

  /** `filteredNotifications`: the notifications addressed to `role`, in order. */
  function ForRole(ns: seq<Notification>, role: string): (r: seq<Notification>)
    ensures |r| <= |ns|
    ensures forall n :: n in r <==> n in ns && n.role == role
  {
    if ns == [] then []
    else (if ns[0].role == role then [ns[0]] else []) + ForRole(ns[1..], role)
  }

  /** `unreadNotifications`: those not yet read, in order. */
  function Unread(ns: seq<Notification>): (r: seq<Notification>)
    ensures |r| <= |ns|
    ensures forall n :: n in r <==> n in ns && !n.read
  {
    if ns == [] then []
    else (if !ns[0].read then [ns[0]] else []) + Unread(ns[1..])
  }

  /** The count badge on the bell is rendered. */
  predicate BadgeShown(loadingNotifications: bool, ns: seq<Notification>, role: string) {
    !loadingNotifications && |Unread(ForRole(ns, role))| > 0
  }

  // ---------------------------------------------------------------------------
  // Component state

  /** The settings and password form (`formData`). */
  datatype Form = Form(myUsername: string, currentPassword: string, newPassword: string, confirmPassword: string)

  const EmptyForm := Form("", "", "", "")

  /** The profile drop-down and the three dialogs it leads to. */
  datatype Menus = Menus(profileMenu: bool, profileModal: bool, settingsModal: bool, passwordModal: bool)

  /** The notification drop-down (`isNotificationsOpen`), the auto-shown panel
      (`autoShowNotifications`), whether its 15-second hide timer is pending, and
      the unread count the auto-show effect last ran for (None before its first run). */
  datatype Notices = Notices(isOpen: bool, autoShow: bool, timerArmed: bool, lastUnread: Option<nat>)

  datatype HeaderState = HeaderState(
    storage: Store,
    currentUser: CurrentUser,
    form: Form,
    loading: bool,
    menus: Menus,
    notices: Notices,
    effects: seq<Effect>)

  /** The state on first render. */
  function Initial(storage: Store): HeaderState {
    HeaderState(storage, Hydrate(GetUser(storage)), EmptyForm, false,
                Menus(false, false, false, false), Notices(false, false, false, None), [])
  }

  /** The auto-shown panel is rendered. */
  predicate AutoShowVisible(n: Notices) {
    n.autoShow && !n.isOpen
  }

  // ---------------------------------------------------------------------------
  // Password and username

  const MismatchAlert := Alert(ErrorIcon, "Error", "New passwords do not match")
  const PasswordChangedAlert := Alert(SuccessIcon, "Success!", "Password changed successfully")
  const UsernameUpdatedAlert := Alert(SuccessIcon, "Success!", "Username updated successfully")

  function PasswordFailedAlert(reply: Reply): Effect {
    Alert(ErrorIcon, "Error", FailureText(reply, "Failed to change password"))
  }

  function UsernameFailedAlert(reply: Reply): Effect {
    Alert(ErrorIcon, "Error", FailureText(reply, "Failed to update username"))
  }

  /** The error an absent token raises carries no server message. */
  const NoServerReply := HttpError(None)

  /** `handlePasswordChange`: a mismatch between the new password and its
      confirmation is reported before anything else; then a missing token fails
      without a request; otherwise the request is sent with the token as bearer.
      Status 200 closes the dialog and clears the three password fields; another
      2xx status is silent; a thrown error is reported. */
  function ChangePassword(s: HeaderState, reply: Reply): HeaderState {
    if s.form.newPassword != s.form.confirmPassword then s.(effects := s.effects + [MismatchAlert])
    else
      var token := GetText(s.storage, TokenKey);
      if !Truthy(token) then s.(loading := false, effects := s.effects + [PasswordFailedAlert(NoServerReply)])
      else
        var asked := s.effects + [Send(ChangePasswordRequest(s.form.currentPassword, s.form.newPassword, token.value))];
        if reply.HttpError? then s.(loading := false, effects := asked + [PasswordFailedAlert(reply)])
        else if reply.data.status == 200 then
          s.(loading := false, menus := s.menus.(passwordModal := false),
             form := s.form.(currentPassword := "", newPassword := "", confirmPassword := ""),
             effects := asked + [PasswordChangedAlert])
        else s.(loading := false, effects := asked)
  }

  /** The "Update Username" handler: with a token, send the form's username; on
      status 200 store the current user with that username under `user` and adopt
      it as the current user. */
  function UpdateUsername(s: HeaderState, reply: Reply): HeaderState {
    var token := GetText(s.storage, TokenKey);
    if !Truthy(token) then s.(loading := false, effects := s.effects + [UsernameFailedAlert(NoServerReply)])
    else
      var asked := s.effects + [Send(UpdateProfileRequest(s.form.myUsername, token.value))];
      if reply.HttpError? then s.(loading := false, effects := asked + [UsernameFailedAlert(reply)])
      else if reply.data.status == 200 then
        var updated := s.currentUser.(myUsername := s.form.myUsername);
        s.(storage := s.storage[UserKey := Json(ToRecord(updated))], currentUser := updated, loading := false,
           effects := asked + [SetItem(UserKey, Json(ToRecord(updated)))] + [UsernameUpdatedAlert])
      else s.(loading := false, effects := asked)
  }

  /** `handleLogout`: remove the three session keys and leave for the landing page. */
  function Logout(s: HeaderState): HeaderState {
    s.(storage := s.storage - {TokenKey} - {UserKey} - {RefreshedTokenKey},
       effects := s.effects + [RemoveItem(TokenKey)] + [RemoveItem(UserKey)] + [RemoveItem(RefreshedTokenKey)]
                  + [LocationAssign("/")])
  }

  // ---------------------------------------------------------------------------
  // Menus and dialogs

  /** The avatar button toggles the profile drop-down. */
  function ToggleProfileMenu(m: Menus): Menus {
    m.(profileMenu := !m.profileMenu)
  }

  /** "Profile": the drop-down closes and the profile dialog opens. */
  function OpenProfile(m: Menus): Menus {
    m.(profileMenu := false, profileModal := true)
  }

  /** "Settings": the drop-down closes, the settings dialog opens, and the form is
      reset to the current username with empty password fields. */
  function OpenSettings(s: HeaderState): HeaderState {
    s.(menus := s.menus.(profileMenu := false, settingsModal := true),
       form := Form(s.currentUser.myUsername, "", "", ""))
  }

  /** "Change Password" in the settings dialog replaces it with the password dialog. */
  function OpenChangePassword(m: Menus): Menus {
    m.(settingsModal := false, passwordModal := true)
  }

  datatype Dialog = ProfileDialog | SettingsDialog | PasswordDialog

  /** A dialog's close button or backdrop closes that dialog only. */
  function CloseDialog(m: Menus, d: Dialog): Menus {
    match d
    case ProfileDialog => m.(profileModal := false)
    case SettingsDialog => m.(settingsModal := false)
    case PasswordDialog => m.(passwordModal := false)
  }

  // ---------------------------------------------------------------------------
  // Notification panels

  /** The auto-show effect, run after a render whose unread count is `count`. It
      runs only when the count differs from the one it last ran for: its cleanup
      cancels the pending hide timer, and a positive count plays the sound, shows
      the panel and arms a new timer. */
  function UnreadCountSettled(s: HeaderState, count: nat): HeaderState {
    if s.notices.lastUnread == Some(count) then s
    else
      var cleaned := s.notices.(timerArmed := false, lastUnread := Some(count));
      if count > 0 then s.(notices := cleaned.(autoShow := true, timerArmed := true), effects := s.effects + [PlaySound])
      else s.(notices := cleaned)
  }

  /** The hide timer fires (only a pending one can). */
  function HideTimerFired(n: Notices): Notices {
    if n.timerArmed then n.(autoShow := false, timerArmed := false) else n
  }

  /** The bell toggles the drop-down, hides the auto-shown panel, and asks for the
      notifications when it opens the drop-down. */
  function BellClicked(s: HeaderState): HeaderState {
    var wasOpen := s.notices.isOpen;
    s.(notices := s.notices.(isOpen := !wasOpen, autoShow := false),
       effects := if wasOpen then s.effects else s.effects + [FetchNotifications])
  }

  /** "Hide All" on the auto-shown panel. */
  function HideAll(n: Notices): Notices {
    n.(autoShow := false)
  }

  /** A mouse-down outside the profile area closes its drop-down; one outside the
      notification area closes the drop-down and hides the auto-shown panel. */
  function OutsideClick(s: HeaderState, outsideProfile: bool, outsideNotifications: bool): HeaderState {
    s.(menus := if outsideProfile then s.menus.(profileMenu := false) else s.menus,
       notices := if outsideNotifications then s.notices.(isOpen := false, autoShow := false) else s.notices)
  }

  /** A notification on the auto-shown panel is a link: its handler asks for the
      item to be marked read, the link is followed, and the panel hides. */
  function AutoShowItemClicked(s: HeaderState, n: Notification): HeaderState {
    s.(notices := s.notices.(autoShow := false), effects := s.effects + [MarkAsRead(n.id), FollowLink(n.link)])
  }

  /** A notification in the drop-down is a link too: mark it read, follow the
      link, and close the drop-down. */
  function DropdownItemClicked(s: HeaderState, n: Notification): HeaderState {
    s.(notices := s.notices.(isOpen := false), effects := s.effects + [MarkAsRead(n.id), FollowLink(n.link)])
  }

  /** The small mark button beside a drop-down notification: mark it read only. */
  function ReadMarkClicked(s: HeaderState, id: int): HeaderState {
    s.(effects := s.effects + [MarkAsRead(id)])
  }

  /** "Mark all as read": mark everything read, then close the drop-down. */
  function MarkAllClicked(s: HeaderState): HeaderState {
    s.(notices := s.notices.(isOpen := false), effects := s.effects + [MarkAllAsRead])
  }

  /** The drop-down's close button. */
  function CloseDropdown(n: Notices): Notices {
    n.(isOpen := false)
  }

  // ---------------------------------------------------------------------------
  // The component

  /** The Header's state fields and the browser state it touches. As in the
      Navbar, the busy flag raised while a request is outstanding is lowered
      again by the handler's `finally` block before the step ends. */
  class HeaderComponent {
    var storage: Store
    var currentUser: CurrentUser
    var form: Form
    var loading: bool
    var menus: Menus
    var notices: Notices
    var effects: seq<Effect>

    function State(): HeaderState
      reads this
    {
      HeaderState(storage, currentUser, form, loading, menus, notices, effects)
    }

    constructor (storage0: Store)
      ensures State() == Initial(storage0)
    {
      storage, currentUser, form, loading := storage0, Hydrate(GetUser(storage0)), EmptyForm, false;
      menus, notices, effects := Menus(false, false, false, false), Notices(false, false, false, None), [];
    }

    method HandlePasswordChange(reply: Reply)
      modifies this
      ensures State() == ChangePassword(old(State()), reply)
    {
      if form.newPassword != form.confirmPassword {
        effects := effects + [MismatchAlert];
        return;
      }
      var log := effects;
      var token := GetText(storage, TokenKey);
      if !Truthy(token) {
        log := log + [PasswordFailedAlert(NoServerReply)];
      } else {
        log := log + [Send(ChangePasswordRequest(form.currentPassword, form.newPassword, token.value))];
        if reply.HttpError? {
          log := log + [PasswordFailedAlert(reply)];
        } else if reply.data.status == 200 {
          log := log + [PasswordChangedAlert];
          menus := menus.(passwordModal := false);
          form := form.(currentPassword := "", newPassword := "", confirmPassword := "");
        }
      }
      effects, loading := log, false;
    }

    method HandleUsernameUpdate(reply: Reply)
      modifies this
      ensures State() == UpdateUsername(old(State()), reply)
    {
      var log := effects;
      var token := GetText(storage, TokenKey);
      if !Truthy(token) {
        log := log + [UsernameFailedAlert(NoServerReply)];
      } else {
        log := log + [Send(UpdateProfileRequest(form.myUsername, token.value))];
        if reply.HttpError? {
          log := log + [UsernameFailedAlert(reply)];
        } else if reply.data.status == 200 {
          var updated := currentUser.(myUsername := form.myUsername);
          storage := storage[UserKey := Json(ToRecord(updated))];
          log := log + [SetItem(UserKey, Json(ToRecord(updated)))];
          currentUser := updated;
          log := log + [UsernameUpdatedAlert];
        }
      }
      effects, loading := log, false;
    }

    method HandleLogout()
      modifies this
      ensures State() == Logout(old(State()))
    {
      var store, log := storage, effects;
      store := store - {TokenKey};
      log := log + [RemoveItem(TokenKey)];
      store := store - {UserKey};
      log := log + [RemoveItem(UserKey)];
      store := store - {RefreshedTokenKey};
      log := log + [RemoveItem(RefreshedTokenKey)];
      log := log + [LocationAssign("/")];
      storage, effects := store, log;
    }

    method ClickAvatar()
      modifies this
      ensures State() == old(State()).(menus := ToggleProfileMenu(old(menus)))
    {
      menus := menus.(profileMenu := !menus.profileMenu);
    }

    method ClickProfile()
      modifies this
      ensures State() == old(State()).(menus := OpenProfile(old(menus)))
    {
      menus := menus.(profileMenu := false, profileModal := true);
    }

    method ClickSettings()
      modifies this
      ensures State() == OpenSettings(old(State()))
    {
      menus := menus.(profileMenu := false, settingsModal := true);
      form := Form(currentUser.myUsername, "", "", "");
    }

    method ClickChangePassword()
      modifies this
      ensures State() == old(State()).(menus := OpenChangePassword(old(menus)))
    {
      menus := menus.(settingsModal := false, passwordModal := true);
    }

    method Close(d: Dialog)
      modifies this
      ensures State() == old(State()).(menus := CloseDialog(old(menus), d))
    {
      match d
      case ProfileDialog => menus := menus.(profileModal := false);
      case SettingsDialog => menus := menus.(settingsModal := false);
      case PasswordDialog => menus := menus.(passwordModal := false);
    }

    method AutoShowEffect(count: nat)
      modifies this
      ensures State() == UnreadCountSettled(old(State()), count)
    {
      if notices.lastUnread == Some(count) {
        return;
      }
      notices := notices.(timerArmed := false, lastUnread := Some(count));
      if count > 0 {
        effects := effects + [PlaySound];
        notices := notices.(autoShow := true, timerArmed := true);
      }
    }

    method HideTimer()
      modifies this
      ensures State() == old(State()).(notices := HideTimerFired(old(notices)))
    {
      if notices.timerArmed {
        notices := notices.(autoShow := false, timerArmed := false);
      }
    }

    method ClickBell()
      modifies this
      ensures State() == BellClicked(old(State()))
    {
      var wasOpen := notices.isOpen;
      notices := notices.(isOpen := !wasOpen, autoShow := false);
      if !wasOpen {
        effects := effects + [FetchNotifications];
      }
    }

    method ClickHideAll()
      modifies this
      ensures State() == old(State()).(notices := HideAll(old(notices)))
    {
      notices := notices.(autoShow := false);
    }

    method MouseDown(outsideProfile: bool, outsideNotifications: bool)
      modifies this
      ensures State() == OutsideClick(old(State()), outsideProfile, outsideNotifications)
    {
      if outsideProfile {
        menus := menus.(profileMenu := false);
      }
      if outsideNotifications {
        notices := notices.(isOpen := false, autoShow := false);
      }
    }

    method ClickAutoShowItem(n: Notification)
      modifies this
      ensures State() == AutoShowItemClicked(old(State()), n)
    {
      effects := effects + [MarkAsRead(n.id), FollowLink(n.link)];
      notices := notices.(autoShow := false);
    }

    method ClickDropdownItem(n: Notification)
      modifies this
      ensures State() == DropdownItemClicked(old(State()), n)
    {
      effects := effects + [MarkAsRead(n.id), FollowLink(n.link)];
      notices := notices.(isOpen := false);
    }

    method ClickReadMark(id: int)
      modifies this
      ensures State() == ReadMarkClicked(old(State()), id)
    {
      effects := effects + [MarkAsRead(id)];
    }

    method ClickMarkAll()
      modifies this
      ensures State() == MarkAllClicked(old(State()))
    {
      effects := effects + [MarkAllAsRead];
      notices := notices.(isOpen := false);
    }

    method ClickCloseDropdown()
      modifies this
      ensures State() == old(State()).(notices := CloseDropdown(old(notices)))
    {
      notices := notices.(isOpen := false);
    }
  }
}
