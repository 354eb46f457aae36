/** Values shared by the Navbar and the Header: the browser's localStorage, the
    user record stored in it, the backend's replies, and the log of externally
    visible effects (requests, storage writes, dialogs, navigation) in the order a
    handler performs them. */
module Session {

  datatype Option<T> = None | Some(value: T)

  /** JavaScript truthiness of an optional string: absent and "" are both falsy. */
  predicate Truthy(s: Option<string>) {
    s.Some? && s.value != ""
  }

  /** `s || fallback` on an optional string. */
  function OrElse(s: Option<string>, fallback: string): string {
    if Truthy(s) then s.value else fallback
  }

  /** The roles the backend assigns to an account. */
  datatype Role = USER | ADMIN | DISTRIBUTOR | HEAD_OF_DISTRIBUTOR

  function RoleName(r: Role): string {
    match r
    case USER => "USER"
    case ADMIN => "ADMIN"
    case DISTRIBUTOR => "DISTRIBUTOR"
    case HEAD_OF_DISTRIBUTOR => "HEAD_OF_DISTRIBUTOR"
  }

  /** An avatar URL: one given verbatim, or the generated ui-avatars URL for a seed. */
  datatype Avatar = AvatarUrl(url: string) | Generated(seed: string)

  /** A user record as JSON-serialised under the `user` key; a field absent from
      the JSON object is None. */
  datatype Record = Record(
    name: Option<string>,
    email: Option<string>,
    myUsername: Option<string>,
    role: Option<string>,
    avatar: Option<Avatar>,
    token: Option<string>,
    refreshedToken: Option<string>)

  /** A localStorage value: plain text (a token, or anything that is not a JSON
      object), or a JSON-serialised user record. */
  datatype Stored = Text(text: string) | Json(record: Record)

  type Store = map<string, Stored>

  const TokenKey := "token"
  const UserKey := "user"
  const RefreshedTokenKey := "refreshedToken"

  /** The three keys that make up a client session. */
  const SessionKeys: set<string> := {TokenKey, UserKey, RefreshedTokenKey}

  /** `localStorage.getItem(key)` for a key that holds text. */
  function GetText(st: Store, key: string): Option<string> {
    if key in st && st[key].Text? then Some(st[key].text) else None
  }

  /** `localStorage.getItem("user")`. */
  function GetUser(st: Store): Option<Stored> {
    if UserKey in st then Some(st[UserKey]) else None
  }

  /** The account object (`ourUser`) carried by a backend reply. */
  datatype Account = Account(name: string, email: string, myUsername: string, role: Role)

  /** The body of a 2xx reply (the source's `UserResponse`). */
  datatype UserResponse = UserResponse(
    status: int,
    message: Option<string>,
    token: Option<string>,
    refreshedToken: Option<string>,
    ourUser: Option<Account>)

  /** What an axios call ends in: it throws (non-2xx status or no answer, with the
      reply's `message` if there was one), or it resolves with a body. */
  datatype Reply = HttpError(message: Option<string>) | Response(data: UserResponse)

  /** The text a failure dialog shows: `err.response?.data?.message || fallback`.
      Only an axios error has a `response`; the plain Error the handlers throw on
      a 2xx reply whose body is not a success has none, so it shows the fallback. */
  function FailureText(reply: Reply, fallback: string): string {
    if reply.HttpError? then OrElse(reply.message, fallback) else fallback
  }

  /** The backend requests the handlers issue, with their payloads. */
  datatype Request =
    | LoginRequest(email: string, password: string)
    | OtpRequest(email: string)
    | VerifyRequest(email: string, otp: string)
    | RegisterRequest(name: string, email: string, myUsername: string, password: string, role: Role)
    | ChangePasswordRequest(currentPassword: string, newPassword: string, bearer: string)
    | UpdateProfileRequest(myUsername: string, bearer: string)

  datatype Icon = SuccessIcon | ErrorIcon

  /** The externally visible steps of a handler, in the order it takes them. */
  datatype Effect =
    | Send(request: Request)
    | SetItem(key: string, value: Stored)
    | RemoveItem(key: string)
    | Alert(icon: Icon, title: string, text: string)
    | Push(route: string)
    | Refresh
    | LocationAssign(url: string)
    | FetchNotifications
    | MarkAsRead(id: int)
    | FollowLink(href: string)
    | MarkAllAsRead
    | PlaySound
}
