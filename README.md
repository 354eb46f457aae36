# Client-side session model of the transport-management site

This project models the client-side session and authentication logic of a
Next.js fleet/transport-management website, and proves properties of it in
Dafny. It covers four parts:

- **Navbar** (`navbar.dfy`, lemmas in `auth_flow.dfy`). Login with an OTP
  request, OTP verification, registration and logout. They act on the three
  localStorage keys `token`, `user` and `refreshedToken` and on the bar's
  flags. The navigation links the bar shows are a function of the session.
- **Header** (`header.dfy`, lemmas in `header_facts.dfy`):
  - hydrating the current user from storage;
  - the role and unread filters over the notification list;
  - the password-change and username-update forms and logout;
  - the menu flags and the notification panel flags.
- **Sidebar** (`sidebar.dfy`). The single expanded item, active-link
  classification, and the rows rendered.
- **Hero slideshow** (`hero.dfy`). Wrap-around next and previous over eight
  slides, and the mode switch that gates auto-advance.

`session.dfy` holds what the Navbar and the Header share:
- the storage map, whose values are text or a JSON user record;
- the backend's replies (an axios error with an optional message, or a 2xx body);
- the log of visible effects: requests, storage writes, dialogs, navigation
  (router calls, `window.location` and followed links) and notification-service
  calls.

Each event handler is one atomic step. Its backend replies are parameters.
A component whose handlers update its state becomes a class with those
fields. Each handler method ensures `State() == Op(old(State()), inputs)`,
where `Op` is a pure function over a state value. The properties are then
proved as lemmas about these functions, including lemmas over whole
sequences of events.

Behaviour of the code worth knowing:
- An OTP is requested after every accepted login, not only for ADMIN
  accounts.
- The `user` record, role included, is written after the OTP request for
  every role. For ADMIN it is written before verification, so a remount
  before verification restores the session without a code
  (`AuthFlow.RemountBeforeVerificationShowsAdmin`).
- A 2xx reply whose body status is not 200 makes the handler throw a plain
  `Error`. The notice then shows the fallback text, not the server's
  `message`.
- A non-ADMIN login navigates to `/tms/admin` but does not set the bar's
  `user`; only verification or a remount does.
- An accepted login whose reply has no `ourUser` ends silently after the OTP
  request, with no notice and no modal.

## Model

| member | source | states |
|---|---|---|
| Navbar.NavbarComponent.constructor | src/app/component/Navbar.tsx:45-65 | on first render both modals are closed, registration mode is off, the form is empty with role USER, there is no user, the login email is empty and no busy flag is raised; the storage is whatever the browser holds |
| Navbar.NavbarComponent.MountUser | src/app/component/Navbar.tsx:68-80 | the mount effect adopts the stored `user` record as the bar's user only when it is a JSON object with a truthy email and role; nothing else changes |
| Navbar.NavbarComponent.HandleLogin | src/app/component/Navbar.tsx:92-179 | the state after a login is `Login(old state, login reply, OTP reply)`: request, token write, OTP request, record write, then the ADMIN modal or navigation; failures end in the source's notices |
| Navbar.NavbarComponent.HandleOtpVerification | src/app/component/Navbar.tsx:181-240 | the state after a verification is `VerifyOtp(old state, code, reply)`: `user` rewritten with the stored token, `refreshedToken` stored when truthy, bar user set, modal closed |
| Navbar.NavbarComponent.HandleRegister | src/app/component/Navbar.tsx:242-285 | the state after a registration is `Register(old state, reply)`: on 200 the form resets and the login form opens, otherwise a notice only |
| Navbar.NavbarComponent.HandleLogout | src/app/component/Navbar.tsx:287-313 | the state after logout is `Logout(old state)`: the three keys removed, user cleared, notice, navigation to `/` |
| Navbar.NavItems | src/app/component/Navbar.tsx:401-408 | the links are Home, Service, then Dashboard exactly when a user is present, Admin Panel exactly when the role is ADMIN, and About last; the mobile menu's list differs only in linking Service to /tms/service |
| Navbar.NavbarComponent.ToggleRegistering | src/app/component/Navbar.tsx:808-813 | the link under the form flips isRegistering and changes nothing else |
| AuthFlow.RejectedLogin | src/app/component/Navbar.tsx:106-175 | a login without status 200 and a token writes no storage key, opens no modal, leaves the user, and ends in "Login Failed"; a 2xx reply shows "Invalid credentials" |
| AuthFlow.TokenStoredBeforeOtpRequest | src/app/component/Navbar.tsx:106-115 | after an accepted login, for every role and OTP outcome, the first steps are login request, token write, OTP request to the submitted email; no further request; the token stays stored |
| AuthFlow.OtpDispatchFailureKeepsToken | src/app/component/Navbar.tsx:108-164 | when the OTP request fails, storage is the old storage plus the token, `user` is not written, the modals and the user are unchanged, and "OTP Error" comes last |
| AuthFlow.UserRecordWrittenForEveryRole | src/app/component/Navbar.tsx:117-127 | once the OTP request succeeds and the reply names an account, `user` holds its fields and role for every role, its token equals the stored token, and no other key changes |
| AuthFlow.AdminWaitsForOtp | src/app/component/Navbar.tsx:128-154 | ADMIN: `loginEmail` becomes the submitted email, the OTP modal opens, the login modal closes, no navigation; other roles: modals untouched, ends with push to `/tms/admin`, refresh, notice |
| AuthFlow.LoginLeavesUserState | src/app/component/Navbar.tsx:92-179 | the login handler never sets the bar's user |
| AuthFlow.VerifiedSession | src/app/component/Navbar.tsx:195-226 | a successful verification stores `user` with the account's role and the stored token, keeps the token, writes `refreshedToken` only if truthy, changes no other key, sets the user and closes the modal |
| AuthFlow.FailedVerificationChangesNothing | src/app/component/Navbar.tsx:227-236 | a failed verification leaves storage, the modals and the user unchanged and ends in "Verification Failed" |
| AuthFlow.RegistrationOutcome | src/app/component/Navbar.tsx:253-281 | success empties the form with role USER, leaves registration mode and opens login; failure keeps form and flags; neither touches storage or the user |
| AuthFlow.LogoutClearsSession | src/app/component/Navbar.tsx:291-302 | logout removes exactly the three session keys, keeps every other key, clears the user and ends with push to `/` and refresh |
| AuthFlow.RemountBeforeVerificationShowsAdmin | src/app/component/Navbar.tsx:68-80 | a remount after an accepted ADMIN login, before any code is verified, makes the bar's user an ADMIN and shows the Admin Panel link |
| AuthFlow.AdminSignInWithOneWrongCode | src/app/component/Navbar.tsx:92-240 | ADMIN login, wrong code, right code: after the wrong one the token is kept and the modal stays open; after the right one the user holds that token and the modal is closed; both codes go to the login email |
| AuthFlow.StepToken | src/app/component/Navbar.tsx:68-813 | one handler either keeps the stored token, removes it, or stores the token an accepted login was issued |
| AuthFlow.StoredTokenComesFromLogin | src/app/component/Navbar.tsx:68-813 | after any sequence of Navbar events, a stored token was stored at the start or issued by an accepted login in that sequence |
| AuthFlow.LoggedOutStaysLoggedOut | src/app/component/Navbar.tsx:68-813 | after logout, remounts, registrations, form switches, logouts and rejected logins or verifications never store a session key |
| Header.LocalPart | src/app/component/Header.tsx:67 | `email.split('@')[0]` is a prefix of the email, contains no '@', and is followed by '@' when shorter |
| Header.Hydrate | src/app/component/Header.tsx:56-88 | the hydrated user always has every field non-empty and a truthy avatar |
| Header.ForRole | src/app/component/Header.tsx:91-93 | `filteredNotifications` holds exactly the notifications whose role equals the user's |
| Header.Unread | src/app/component/Header.tsx:96-98 | `unreadNotifications` holds exactly the unread ones |
| Header.HeaderComponent.constructor | src/app/component/Header.tsx:27-88 | the first render hydrates the user from storage, with empty form, nothing open and no pending timer |
| Header.HeaderComponent.HandlePasswordChange | src/app/component/Header.tsx:159-205 | the state after a submission is `ChangePassword(old state, reply)`: mismatch check, token check, request, then close and clear on 200 |
| Header.HeaderComponent.HandleUsernameUpdate | src/app/component/Header.tsx:713-752 | the state after an update is `UpdateUsername(old state, reply)`: with a token, on 200, store and adopt the user with the new username |
| Header.HeaderComponent.HandleLogout | src/app/component/Header.tsx:207-212 | the state after logout is `Logout(old state)`: remove token, user, refreshedToken, then go to `/` |
| Header.HeaderComponent.ClickAvatar | src/app/component/Header.tsx:537 | the avatar button toggles only the profile menu |
| Header.HeaderComponent.ClickProfile | src/app/component/Header.tsx:559-562 | "Profile" closes the menu and opens the profile dialog |
| Header.HeaderComponent.ClickSettings | src/app/component/Header.tsx:569-578 | "Settings" closes the menu, opens settings, and resets the form to the current username with empty passwords |
| Header.HeaderComponent.ClickChangePassword | src/app/component/Header.tsx:763-766 | the settings dialog is replaced by the password dialog |
| Header.HeaderComponent.Close | src/app/component/Header.tsx:609-813 | a dialog's close control closes that dialog only |
| Header.HeaderComponent.AutoShowEffect | src/app/component/Header.tsx:111-133 | the state after the effect is `UnreadCountSettled(old state, count)`: no-op for an unchanged count; otherwise cancel the timer, and for a positive count play the sound, show the panel and arm the timer |
| Header.HeaderComponent.HideTimer | src/app/component/Header.tsx:125-127 | a pending hide timer hides the panel; without one nothing changes |
| Header.HeaderComponent.ClickBell | src/app/component/Header.tsx:354-360 | the bell toggles the drop-down, hides the panel, and asks for notifications only when opening |
| Header.HeaderComponent.ClickHideAll | src/app/component/Header.tsx:307-309 | "Hide All" hides the auto-shown panel only |
| Header.HeaderComponent.MouseDown | src/app/component/Header.tsx:135-149 | outside the profile area the menu closes; outside the notification area the drop-down closes and the panel hides |
| Header.HeaderComponent.ClickAutoShowItem | src/app/component/Header.tsx:414-419 | an auto-shown notification is marked read, its link is followed, and the panel hides |
| Header.HeaderComponent.ClickDropdownItem | src/app/component/Header.tsx:491-496 | a drop-down notification is marked read, its link is followed, and the drop-down closes |
| Header.HeaderComponent.ClickReadMark | src/app/component/Header.tsx:502-505 | the mark button only marks its notification read |
| Header.HeaderComponent.ClickMarkAll | src/app/component/Header.tsx:451-454 | everything is marked read and the drop-down closes |
| Header.HeaderComponent.ClickCloseDropdown | src/app/component/Header.tsx:460 | the close button closes the drop-down only |
| HeaderFacts.GuestWhenUnusable | src/app/component/Header.tsx:56-88 | no stored user, a value that is not a user object, or a record whose avatar fallback throws, gives the whole Guest record |
| HeaderFacts.FieldByFieldDefaults | src/app/component/Header.tsx:62-67 | otherwise each field is the stored one when truthy and its own default ("Guest", "guest@example.com", "guest", "Unknown") when not |
| HeaderFacts.AvatarSeed | src/app/component/Header.tsx:67 | without a truthy avatar, the generated one is seeded by the name, or else by the email's part before '@' |
| HeaderFacts.HydrateStoredUser | src/app/component/Header.tsx:56-88 | hydrating the record the header stores for a complete user gives back that user |
| HeaderFacts.HydrateIdempotent | src/app/component/Header.tsx:56-88 | storing a hydrated user and hydrating again changes nothing |
| HeaderFacts.ForRoleInOrder | src/app/component/Header.tsx:91-93 | the role filter keeps the list order |
| HeaderFacts.ForRoleCounts | src/app/component/Header.tsx:91-93 | the role filter keeps each notification for the role as often as it occurs, and no other |
| HeaderFacts.UnreadInOrder | src/app/component/Header.tsx:96-98 | the unread filter keeps the list order |
| HeaderFacts.UnreadCounts | src/app/component/Header.tsx:96-98 | the unread filter keeps each unread notification as often as it occurs, and no other |
| HeaderFacts.FiltersCommute | src/app/component/Header.tsx:91-98 | filtering by role then unread equals filtering by unread then role |
| HeaderFacts.UnreadOfAppend | src/app/component/Header.tsx:96-98 | the unread filter distributes over concatenation |
| HeaderFacts.ForRoleOfAppend | src/app/component/Header.tsx:91-93 | the role filter distributes over concatenation |
| HeaderFacts.BadgeIffUnreadForRole | src/app/component/Header.tsx:364 | the badge shows exactly when notifications are loaded and one for the user's role is unread |
| HeaderFacts.MismatchCheckedFirst | src/app/component/Header.tsx:161-169 | differing new and confirm passwords give a notice only: no request; busy flag, form, dialogs and storage unchanged |
| HeaderFacts.NoTokenNoPasswordRequest | src/app/component/Header.tsx:173-174 | without a stored token no request is sent and "Failed to change password" is shown |
| HeaderFacts.PasswordChangeRequest | src/app/component/Header.tsx:176-194 | with a token exactly one request is sent, carrying the token and both passwords; on 200 the dialog closes and the three password fields clear, keeping the username; otherwise form and dialogs stay |
| HeaderFacts.PasswordChangeSettles | src/app/component/Header.tsx:202-204 | once the passwords match the busy flag is down afterwards; storage, user and panels never change |
| HeaderFacts.UsernameOnlyChange | src/app/component/Header.tsx:727-733 | a successful update stores and adopts the current user with only `myUsername` replaced and no token fields; no other key changes |
| HeaderFacts.UsernameSurvivesReload | src/app/component/Header.tsx:727-733 | hydrating after a successful update with a non-empty username gives back the updated user |
| HeaderFacts.UsernameUnchangedOnFailure | src/app/component/Header.tsx:716-751 | any other outcome leaves storage, the user and the form as they were |
| HeaderFacts.HeaderLogoutClearsSession | src/app/component/Header.tsx:207-212 | logout removes the three keys and nothing else, ends at `/`, and leaves the storage the Navbar's logout leaves |
| HeaderFacts.PanelHidingEvents | src/app/component/Header.tsx:140-419 | the bell (354-360), "Hide All" (307-309), a click outside the notification area (140-143) and a click on an auto-shown item (416-419) each clear the auto-show flag and leave the panel hidden |
| HeaderFacts.NotificationClickFollowsLink | src/app/component/Header.tsx:414-496 | a click on a notification in either panel logs the mark-as-read request and then the navigation to that notification's own link, and touches no storage; the mark button beside it only marks |
| HeaderFacts.BellTwice | src/app/component/Header.tsx:354-360 | two bell clicks restore the drop-down and fetch exactly once |
| HeaderFacts.NewUnreadShowsPanelUntilTimer | src/app/component/Header.tsx:111-133 | a new positive count, drop-down closed, plays the sound and shows the panel until its timer fires; the same count again does nothing |
| HeaderFacts.PanelOutlivesItsTimer | src/app/component/Header.tsx:111-133 | reading the only unread notification from the open drop-down cancels the hide timer, so the panel shown when the drop-down closes has no timer |
| HeaderFacts.StepSettled | src/app/component/Header.tsx:159-752 | every Header handler (menus, dialogs, bell, drop-down, read marks, timers, password, username, logout) keeps the busy flag down and a pending timer tied to a positive count |
| HeaderFacts.AlwaysSettled | src/app/component/Header.tsx:27-752 | from first render, every sequence of Header events ends in that settled state |
| Sidebar.Toggled | src/app/component/Sidebar.tsx:28-30 | a click leaves nothing expanded exactly when the clicked item was expanded, otherwise expands the clicked item |
| Sidebar.SidebarComponent.constructor | src/app/component/Sidebar.tsx:24 | nothing is expanded at first |
| Sidebar.SidebarComponent.HandleItemClick | src/app/component/Sidebar.tsx:28-30 | the expanded item becomes `Toggled(old expanded item, link)` |
| Sidebar.ClickTwice | src/app/component/Sidebar.tsx:28-30 | two clicks restore a collapsed sidebar or the clicked item expanded; from another item expanded they leave none expanded |
| Sidebar.ActiveClassification | src/app/component/Sidebar.tsx:52-99 | every item is active on its own link; on a longer pathname extending it, exactly the parents are active |
| Sidebar.AtMostOneExpanded | src/app/component/Sidebar.tsx:75 | with distinct links, at most one item lists its sub-items |
| Sidebar.ClickListsSubItems | src/app/component/Sidebar.tsx:28-75 | in an open sidebar a click lists the parent's sub-items exactly when they were hidden, and hides those of every other link |
| Sidebar.SubRows | src/app/component/Sidebar.tsx:77-91 | one sub-row per sub-item, in order, each active exactly on its own link |
| Sidebar.ItemRowsShape | src/app/component/Sidebar.tsx:48-106 | an item draws its own row, then its sub-items exactly when listed; every row shows text exactly when open |
| Sidebar.CollapsedShowsNoText | src/app/component/Sidebar.tsx:35-105 | collapsed: one untitled row per item, in order, and no heading |
| Sidebar.OpenShowsText | src/app/component/Sidebar.tsx:35-105 | open: the "TMS" heading first and text on every row |
| Sidebar.OpenItemsShowText | src/app/component/Sidebar.tsx:46-106 | open: every item's rows show text |
| Hero.Next | src/app/page.tsx:77-80 | the next index is on a slide, one more, and the last wraps to 0 |
| Hero.Prev | src/app/page.tsx:83-88 | the previous index is on a slide, one less, and 0 wraps to 7 |
| Hero.PrevUndoesNext | src/app/page.tsx:77-88 | previous after next restores the index |
| Hero.NextUndoesPrev | src/app/page.tsx:77-88 | next after previous restores the index |
| Hero.NextNIsModular | src/app/page.tsx:79 | k steps forward land on `(i + k) mod 8` |
| Hero.FullCycle | src/app/page.tsx:79 | eight steps forward return to the start, visiting every slide |
| Hero.HeroSection.constructor | src/app/page.tsx:72-74 | first slide, direction right, animated hero shown |
| Hero.HeroSection.Current | src/app/page.tsx:145-175 | the slide on show is one of the eight |
| Hero.HeroSection.NextSlide | src/app/page.tsx:77-80 | direction becomes right and the index `Next(old index)`; the mode is kept |
| Hero.HeroSection.PrevSlide | src/app/page.tsx:83-88 | direction becomes left and the index `Prev(old index)`; the mode is kept |
| Hero.HeroSection.ModeTick | src/app/page.tsx:91-98 | each 15-second tick flips the mode and nothing else |
| Hero.HeroSection.AutoAdvanceTick | src/app/page.tsx:101-109 | the 5-second tick advances the slide only while the slideshow is shown |
| Hero.ShownAfterOddTicks | src/app/page.tsx:74-95 | from the start, the slideshow is shown after k mode ticks exactly when k is odd |
| Hero.HiddenSlideshowStandsStill | src/app/page.tsx:101-106 | with the hero animation shown and no mode switch, auto-advance ticks never move the slide |
| Hero.IndexStaysOnASlide | src/app/page.tsx:77-109 | every sequence of ticks keeps the index on a slide |

## Left out

- The backend, axios, the environment's base URL and network failures become reply parameters. Every axios error is one `HttpError` with an optional message.
- SweetAlert dialogs are log entries with the source's titles and texts. Their confirm colours and the awaiting of the dialog are not modelled.
- Navigation (`router.push`, `router.refresh`, `window.location.href`, a notification `<Link>` being followed) and the notification service (`fetchNotifications`, `markAsRead`, `markAllAsRead`) appear only as log entries. The notification context is not part of this model, so what those calls do to the list is not either.
- `refreshNotifications` behind the refresh button is not modelled; it calls only into that context.
- JSON parse and stringify are not modelled: a stored value is either text or an already-parsed record. A `token` key holding a JSON object is treated as no token.
- The URL encoding of generated avatars is not modelled. A generated avatar is represented by its seed.
- Timers are not modelled as durations. The 15-second hide timer, the 15-second mode interval and the 5-second advance interval are discrete tick events.
- Audio playback is a `PlaySound` log entry.
- The busy flags raised while a request is outstanding, the stale-closure `{...loading}` spreads and async interleaving are left out. Each handler is atomic, so only the lowered flag is visible afterwards.
- The Navbar's `error` state is left out: it is only ever reset to the empty string.
- Input-change handlers, the Navbar's mobile-menu open flag, the Navbar's modal open and close buttons and the search box are left out as form plumbing and presentation.
- The Navbar logout's `catch` branch is left out: nothing in its `try` block can throw in this model.
- Server-side rendering (`typeof window`), the page's scroll animation, Framer Motion variants, images, Tailwind classes, the About page and the Footer are presentation.
- The slide index is a natural number: it starts at 0 and only the two updaters change it, so it is never negative.
- Sidebar: `onToggle` belongs to the parent layout, so `isOpen` is a parameter.
