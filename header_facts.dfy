/** Properties of the Header: hydration and its agreement with what the header
    itself stores, the notification filters, the password and username forms,
    logout, and the notification panels. */
module HeaderFacts {
  import opened Session
  import opened Header
  import Navbar

  // ---------------------------------------------------------------------------
  // Hydration

  /** Hydration throws on this stored record: avatar and name falsy, email absent. */
  predicate Throws(r: Record) {
    !AvatarTruthy(r.avatar) && !Truthy(r.name) && r.email.None?
  }

  /** Nothing stored, a stored value that is not a user object, or a record whose
      avatar fallback throws, each give the whole Guest record. */
  lemma GuestWhenUnusable(stored: Option<Stored>)
    requires stored.None? || stored.value.Text? || Throws(stored.value.record)
    ensures Hydrate(stored) == Guest
  {
  }

  /** Otherwise each field is the stored one when that is truthy and its own
      default when not, whatever the other fields hold. */
  lemma FieldByFieldDefaults(r: Record)
    requires !Throws(r)
    ensures var u := Hydrate(Some(Json(r)));
      && (Truthy(r.name) ==> u.name == r.name.value) && (!Truthy(r.name) ==> u.name == "Guest")
      && (Truthy(r.email) ==> u.email == r.email.value) && (!Truthy(r.email) ==> u.email == "guest@example.com")
      && (Truthy(r.myUsername) ==> u.myUsername == r.myUsername.value) && (!Truthy(r.myUsername) ==> u.myUsername == "guest")
      && (Truthy(r.role) ==> u.role == r.role.value) && (!Truthy(r.role) ==> u.role == "Unknown")
      && (AvatarTruthy(r.avatar) ==> u.avatar == r.avatar.value)
  {
  }

  /** The generated avatar is seeded by the name, or else by the part of the
      email before its '@', which never contains an '@'. */
  lemma AvatarSeed(r: Record)
    requires !Throws(r) && !AvatarTruthy(r.avatar)
    ensures var u := Hydrate(Some(Json(r)));
      && u.avatar.Generated?
      && (Truthy(r.name) ==> u.avatar.seed == r.name.value)
      && (!Truthy(r.name) ==> u.avatar.seed <= r.email.value && '@' !in u.avatar.seed)
  {
  }

  /** What the header stores for a complete user hydrates back to that user. */
  lemma HydrateStoredUser(u: CurrentUser)
    requires Complete(u)
    ensures Hydrate(Some(Json(ToRecord(u)))) == u
  {
  }

  /** Storing a hydrated user and hydrating again changes nothing. */
  lemma HydrateIdempotent(stored: Option<Stored>)
    ensures Hydrate(Some(Json(ToRecord(Hydrate(stored))))) == Hydrate(stored)
  {
  }

  // ---------------------------------------------------------------------------
  // Notification filters

  /** `a` is `b` with some elements left out, the rest in order. */
  ghost predicate Subseq<T>(a: seq<T>, b: seq<T>)
    decreases |b|
  {
    a == [] || (b != [] && ((a[0] == b[0] && Subseq(a[1..], b[1..])) || Subseq(a, b[1..])))
  }

  /** `filteredNotifications` keeps the order of the notification list. */
  lemma {:induction false} ForRoleInOrder(ns: seq<Notification>, role: string)
    ensures Subseq(ForRole(ns, role), ns)
  {
    if ns != [] {
      ForRoleInOrder(ns[1..], role);
      var r := ForRole(ns, role);
      if ns[0].role == role {
        assert r[0] == ns[0] && r[1..] == ForRole(ns[1..], role);
      } else {
        assert r == ForRole(ns[1..], role);
      }
    }
  }

  /** ... and keeps every notification for the role, each as often as it occurs. */
  lemma {:induction false} ForRoleCounts(ns: seq<Notification>, role: string)
    ensures forall n :: multiset(ForRole(ns, role))[n] == if n.role == role then multiset(ns)[n] else 0
  {
    if ns != [] {
      ForRoleCounts(ns[1..], role);
      assert ns == [ns[0]] + ns[1..];
    }
  }

  /** `unreadNotifications` keeps the order of the list. */
  lemma {:induction false} UnreadInOrder(ns: seq<Notification>)
    ensures Subseq(Unread(ns), ns)
  {
    if ns != [] {
      UnreadInOrder(ns[1..]);
      var r := Unread(ns);
      if !ns[0].read {
        assert r[0] == ns[0] && r[1..] == Unread(ns[1..]);
      } else {
        assert r == Unread(ns[1..]);
      }
    }
  }

  /** ... and keeps every unread notification, each as often as it occurs. */
  lemma {:induction false} UnreadCounts(ns: seq<Notification>)
    ensures forall n :: multiset(Unread(ns))[n] == if !n.read then multiset(ns)[n] else 0
  {
    if ns != [] {
      UnreadCounts(ns[1..]);
      assert ns == [ns[0]] + ns[1..];
    }
  }

  /** Filtering by role and by unread commute. */
  lemma {:induction false} FiltersCommute(ns: seq<Notification>, role: string)
    ensures Unread(ForRole(ns, role)) == ForRole(Unread(ns), role)
  {
    if ns != [] {
      FiltersCommute(ns[1..], role);
      var h := ns[0];
      assert ForRole(ns, role) == (if h.role == role then [h] else []) + ForRole(ns[1..], role);
      assert Unread(ns) == (if !h.read then [h] else []) + Unread(ns[1..]);
      UnreadOfAppend(if h.role == role then [h] else [], ForRole(ns[1..], role));
      ForRoleOfAppend(if !h.read then [h] else [], Unread(ns[1..]), role);
    }
  }

  lemma {:induction false} UnreadOfAppend(a: seq<Notification>, b: seq<Notification>)
    ensures Unread(a + b) == Unread(a) + Unread(b)
  {
    if a != [] {
      assert (a + b)[1..] == a[1..] + b;
      UnreadOfAppend(a[1..], b);
    } else {
      assert a + b == b;
    }
  }

  lemma {:induction false} ForRoleOfAppend(a: seq<Notification>, b: seq<Notification>, role: string)
    ensures ForRole(a + b, role) == ForRole(a, role) + ForRole(b, role)
  {
    if a != [] {
      assert (a + b)[1..] == a[1..] + b;
      ForRoleOfAppend(a[1..], b, role);
    } else {
      assert a + b == b;
    }
  }

  /** The bell's badge shows exactly when the notifications are loaded and one of
      them is for the user's role and unread. */
  lemma BadgeIffUnreadForRole(loadingNotifications: bool, ns: seq<Notification>, role: string)
    ensures BadgeShown(loadingNotifications, ns, role)
        <==> !loadingNotifications && exists n :: n in ns && n.role == role && !n.read
  {
    var r := Unread(ForRole(ns, role));
    if !loadingNotifications && exists n :: n in ns && n.role == role && !n.read {
      var n :| n in ns && n.role == role && !n.read;
      assert n in r;
    }
    if |r| > 0 {
      assert r[0] in r;
    }
  }

  // ---------------------------------------------------------------------------
  // Password change

  predicate NoRequest(before: seq<Effect>, after: seq<Effect>) {
    |before| <= |after| && forall k :: |before| <= k < |after| ==> !after[k].Send?
  }

  /** A new password that differs from its confirmation is refused before
      anything else: no request, and the busy flag, the form, the dialogs and
      storage stay as they were. */
  lemma MismatchCheckedFirst(s: HeaderState, reply: Reply)
    requires s.form.newPassword != s.form.confirmPassword
    ensures var r := ChangePassword(s, reply);
      && r == s.(effects := s.effects + [MismatchAlert])
      && NoRequest(s.effects, r.effects)
  {
  }

  /** Without a stored token the change fails with no request sent. */
  lemma NoTokenNoPasswordRequest(s: HeaderState, reply: Reply)
    requires s.form.newPassword == s.form.confirmPassword && !Truthy(GetText(s.storage, TokenKey))
    ensures var r := ChangePassword(s, reply);
      && NoRequest(s.effects, r.effects)
      && r.effects[|r.effects| - 1] == Alert(ErrorIcon, "Error", "Failed to change password")
      && r.form == s.form && r.menus == s.menus
  {
  }

  /** With a token, exactly one request is sent, carrying the token as bearer and
      the form's current and new passwords. Status 200 closes the password dialog
      and clears the three password fields, keeping the username. */
  lemma PasswordChangeRequest(s: HeaderState, reply: Reply)
    requires s.form.newPassword == s.form.confirmPassword && Truthy(GetText(s.storage, TokenKey))
    ensures var r := ChangePassword(s, reply);
      && r.effects[|s.effects|] == Send(ChangePasswordRequest(s.form.currentPassword, s.form.newPassword,
                                                             GetText(s.storage, TokenKey).value))
      && NoRequest(s.effects + [r.effects[|s.effects|]], r.effects)
      && (reply.Response? && reply.data.status == 200 ==>
            !r.menus.passwordModal && r.form == Form(s.form.myUsername, "", "", ""))
      && (!(reply.Response? && reply.data.status == 200) ==> r.form == s.form && r.menus == s.menus)
  {
  }

  /** Once the passwords match, the busy flag is down after the change whatever
      happens; and a password change never touches storage or the current user. */
  lemma PasswordChangeSettles(s: HeaderState, reply: Reply)
    ensures var r := ChangePassword(s, reply);
      && (s.form.newPassword == s.form.confirmPassword ==> !r.loading)
      && r.storage == s.storage && r.currentUser == s.currentUser && r.notices == s.notices
  {
  }

  // ---------------------------------------------------------------------------
  // Username update

  /** A successful update stores the current user with only the username
      replaced (no token fields), adopts it, and leaves every other key. */
  lemma UsernameOnlyChange(s: HeaderState, reply: Reply)
    requires Truthy(GetText(s.storage, TokenKey)) && reply.Response? && reply.data.status == 200
    ensures var r := UpdateUsername(s, reply);
      var u := s.currentUser;
      && r.currentUser.myUsername == s.form.myUsername
      && r.currentUser.name == u.name && r.currentUser.email == u.email
      && r.currentUser.role == u.role && r.currentUser.avatar == u.avatar
      && r.storage == s.storage[UserKey := Json(Record(Some(u.name), Some(u.email), Some(s.form.myUsername),
                                                       Some(u.role), Some(u.avatar), None, None))]
      && !r.loading
  {
  }

  /** Rehydrating after a successful update gives back the updated user, provided
      both it and the new username are non-empty. */
  lemma UsernameSurvivesReload(s: HeaderState, reply: Reply)
    requires Truthy(GetText(s.storage, TokenKey)) && reply.Response? && reply.data.status == 200
    requires Complete(s.currentUser) && s.form.myUsername != ""
    ensures var r := UpdateUsername(s, reply);
      Hydrate(GetUser(r.storage)) == r.currentUser
  {
  }

  /** Any other outcome leaves storage and the current user as they were. */
  lemma UsernameUnchangedOnFailure(s: HeaderState, reply: Reply)
    requires !(Truthy(GetText(s.storage, TokenKey)) && reply.Response? && reply.data.status == 200)
    ensures var r := UpdateUsername(s, reply);
      r.storage == s.storage && r.currentUser == s.currentUser && r.form == s.form && !r.loading
  {
  }

  // ---------------------------------------------------------------------------
  // Logout

  /** Logout removes the three session keys and nothing else, and leaves for "/";
      the storage it leaves is the one the Navbar's logout leaves. */
  lemma HeaderLogoutClearsSession(s: HeaderState, n: Navbar.NavState)
    requires n.storage == s.storage
    ensures var r := Logout(s);
      && (forall k :: k in SessionKeys ==> k !in r.storage)
      && (forall k :: k !in SessionKeys ==> (k in r.storage <==> k in s.storage))
      && (forall k :: k !in SessionKeys && k in s.storage ==> r.storage[k] == s.storage[k])
      && r.effects[|r.effects| - 1] == LocationAssign("/")
      && r.storage == Navbar.Logout(n).storage
  {
  }

  // ---------------------------------------------------------------------------
  // Notification panels

  /** The bell, "Hide All", a click outside the notification area and a click on
      an auto-shown notification each hide the auto-shown panel. */
  lemma PanelHidingEvents(s: HeaderState, n: Notification, outsideProfile: bool)
    ensures !BellClicked(s).notices.autoShow && !AutoShowVisible(BellClicked(s).notices)
    ensures !HideAll(s.notices).autoShow && !AutoShowVisible(HideAll(s.notices))
    ensures !OutsideClick(s, outsideProfile, true).notices.autoShow
    ensures !AutoShowVisible(OutsideClick(s, outsideProfile, true).notices)
    ensures !AutoShowItemClicked(s, n).notices.autoShow && !AutoShowVisible(AutoShowItemClicked(s, n).notices)
  {
  }

  /** A notification on either panel is followed to its own link after the
      request to mark it read; the mark button beside it navigates nowhere. */
  lemma NotificationClickFollowsLink(s: HeaderState, n: Notification)
    ensures AutoShowItemClicked(s, n).effects == s.effects + [MarkAsRead(n.id), FollowLink(n.link)]
    ensures DropdownItemClicked(s, n).effects == s.effects + [MarkAsRead(n.id), FollowLink(n.link)]
    ensures ReadMarkClicked(s, n.id).effects == s.effects + [MarkAsRead(n.id)]
    ensures AutoShowItemClicked(s, n).storage == s.storage && DropdownItemClicked(s, n).storage == s.storage
  {
  }

  /** Two bell clicks restore the drop-down and fetch the notifications exactly
      once, on the click that opens it. */
  lemma BellTwice(s: HeaderState)
    ensures var r := BellClicked(BellClicked(s));
      && r.notices.isOpen == s.notices.isOpen
      && !r.notices.autoShow
      && r.effects == s.effects + [FetchNotifications]
  {
  }

  /** A new positive unread count, with the drop-down closed, plays the sound and
      shows the panel with a hide timer pending; when that timer fires the panel
      is hidden. The same count again does nothing. */
  lemma NewUnreadShowsPanelUntilTimer(s: HeaderState, count: nat)
    requires count > 0 && s.notices.lastUnread != Some(count) && !s.notices.isOpen
    ensures var r := UnreadCountSettled(s, count);
      && AutoShowVisible(r.notices) && r.notices.timerArmed
      && r.effects == s.effects + [PlaySound]
      && !AutoShowVisible(HideTimerFired(r.notices))
      && UnreadCountSettled(r, count) == r
  {
  }

  /** The hide timer belongs to one run of the auto-show effect: if the drop-down
      item that was shown is read while the drop-down is open, the count falls to
      zero, its timer is cancelled and none replaces it, so the panel that appears
      when the drop-down closes is not hidden by any timer. The notification
      service is not part of this model: the lemma assumes that its `markAsRead`
      has lowered the unread count before the drop-down closes. */
  lemma PanelOutlivesItsTimer(s: HeaderState, n: Notification)
    requires s.notices.isOpen && s.notices.lastUnread == Some(0)
    ensures var shown := UnreadCountSettled(s, 1);
      var clicked := DropdownItemClicked(shown, n);
      var after := UnreadCountSettled(clicked, 0);
      && AutoShowVisible(after.notices)
      && !after.notices.timerArmed
      && HideTimerFired(after.notices) == after.notices
  {
  }

  // ---------------------------------------------------------------------------
  // Sequences of events

  datatype HeaderEvent =
    | SubmitPassword(passwordReply: Reply)
    | SubmitUsername(usernameReply: Reply)
    | ClickLogout
    | ClickAvatar
    | ClickProfile
    | ClickSettings
    | ClickChangePassword
    | CloseDialogEvent(dialog: Dialog)
    | UnreadCount(count: nat)
    | TimerFired
    | ClickBell
    | ClickHideAll
    | MouseDown(outsideProfile: bool, outsideNotifications: bool)
    | ClickAutoShown(autoItem: Notification)
    | ClickDropdownItem(dropdownItem: Notification)
    | ClickReadMark(markId: int)
    | ClickMarkAll
    | ClickCloseDropdown

  function Step(s: HeaderState, ev: HeaderEvent): HeaderState {
    match ev
    case SubmitPassword(reply) => ChangePassword(s, reply)
    case SubmitUsername(reply) => UpdateUsername(s, reply)
    case ClickLogout => Logout(s)
    case ClickAvatar => s.(menus := ToggleProfileMenu(s.menus))
    case ClickProfile => s.(menus := OpenProfile(s.menus))
    case ClickSettings => OpenSettings(s)
    case ClickChangePassword => s.(menus := OpenChangePassword(s.menus))
    case CloseDialogEvent(d) => s.(menus := CloseDialog(s.menus, d))
    case UnreadCount(count) => UnreadCountSettled(s, count)
    case TimerFired => s.(notices := HideTimerFired(s.notices))
    case ClickBell => BellClicked(s)
    case ClickHideAll => s.(notices := HideAll(s.notices))
    case MouseDown(p, n) => OutsideClick(s, p, n)
    case ClickAutoShown(n) => AutoShowItemClicked(s, n)
    case ClickDropdownItem(n) => DropdownItemClicked(s, n)
    case ClickReadMark(id) => ReadMarkClicked(s, id)
    case ClickMarkAll => MarkAllClicked(s)
    case ClickCloseDropdown => s.(notices := CloseDropdown(s.notices))
  }

  function Run(s: HeaderState, evs: seq<HeaderEvent>): HeaderState
    decreases |evs|
  {
    if evs == [] then s else Step(Run(s, evs[..|evs| - 1]), evs[|evs| - 1])
  }

  /** Between events no request is outstanding, and a pending hide timer belongs
      to a run of the auto-show effect for a positive count. */
  predicate Settled(s: HeaderState) {
    && !s.loading
    && (s.notices.timerArmed ==> s.notices.lastUnread.Some? && s.notices.lastUnread.value > 0)
  }

  lemma StepSettled(s: HeaderState, ev: HeaderEvent)
    requires Settled(s)
    ensures Settled(Step(s, ev))
  {
  }

  /** From first render, every sequence of events ends settled. */
  lemma {:induction false} AlwaysSettled(storage: Store, evs: seq<HeaderEvent>)
    ensures Settled(Run(Initial(storage), evs))
  {
    if evs != [] {
      AlwaysSettled(storage, evs[..|evs| - 1]);
      StepSettled(Run(Initial(storage), evs[..|evs| - 1]), evs[|evs| - 1]);
    }
  }
}
