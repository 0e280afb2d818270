/**
  The session manager of the auth provider, as values: its state (the token
  held in React state, the token persisted in local storage, the default
  Authorization header of the request client, the signed-in user, the online
  users, the push socket and the loading flag) and the transition each
  operation applies once the outcome of its request is known.
 */
module Session {
  import opened Wrappers
  import opened JsValues

  /**
    A push socket: the user id it was opened for, a serial number telling
    distinct `io()` objects apart, and its `connected` flag.
   */
  datatype Socket = Socket(userId: JsStr, serial: nat, connected: bool)

  /** The state the auth provider holds, together with the two process-wide stores it writes. */
  datatype Session = Session(
    token: Option<string>,
    storedToken: Option<string>,
    authHeader: Option<string>,
    authUser: Option<User>,
    onlineUsers: seq<string>,
    socket: Option<Socket>,
    socketsOpened: nat,
    loading: bool)

  /** The fields of a successful GET /api/auth/check reply. */
  datatype CheckData = CheckData(user: Option<User>, userData: Option<User>)

  /** The fields of a successful login or signup reply. */
  datatype LoginData = LoginData(userData: Option<User>, token: string)

  /** JavaScript truthiness of a token: present and non-empty. */
  predicate TokenTruthy(t: Option<string>) {
    t.Some? && t.value != ""
  }

  /** The Authorization header the token effect installs for a token (None: header removed). */
  function HeaderFor(t: Option<string>): (h: Option<string>)
    ensures h.Some? <==> TokenTruthy(t)
    ensures h.Some? ==> h.value == "Bearer " + t.value
  {
    if TokenTruthy(t) then Some("Bearer " + t.value) else None
  }

  /** The header mirrors the token. */
  predicate HeaderMirrors(s: Session) {
    s.authHeader == HeaderFor(s.token)
  }

  /** The persisted token is the token in React state. */
  predicate TokenPersisted(s: Session) {
    s.storedToken == s.token
  }

  /** The provider renders its children only once loading is over. */
  predicate RendersChildren(s: Session) {
    !s.loading
  }

  /**
    The state before the first effects run, for the value found in local
    storage: the module-level code has installed the header for a truthy
    token, and the provider waits for the session check exactly when there is one.
   */
  function Initial(stored: Option<string>): (s: Session)
    ensures s.token == stored && TokenPersisted(s) && HeaderMirrors(s)
    ensures s.loading <==> TokenTruthy(stored)
    ensures s.authUser.None? && s.onlineUsers == [] && s.socket.None?
  {
    Session(stored, stored, HeaderFor(stored), None, [], None, 0, TokenTruthy(stored))
  }

  /**
    The effect keyed on the token: after an operation has changed the token,
    the header is set from the new one; an unchanged token leaves it alone.
   */
  function AfterTokenEffect(before: Option<string>, s: Session): (r: Session)
    ensures r.token != before ==> HeaderMirrors(r)
    ensures r.token == before ==> r == s
    ensures r == s.(authHeader := r.authHeader)
  {
    if s.token != before then s.(authHeader := HeaderFor(s.token)) else s
  }

  /**
    `connectSocket`: nothing happens without user data or while the current
    socket is connected; otherwise a new socket opened for the user's id
    replaces it (not yet connected: the handshake completes later).
   */
  function ConnectSocket(s: Session, userData: Option<User>): (r: Session)
    ensures userData.None? || (s.socket.Some? && s.socket.value.connected) ==> r == s
    ensures userData.Some? && !(s.socket.Some? && s.socket.value.connected) ==>
      r == s.(socket := r.socket, socketsOpened := s.socketsOpened + 1) &&
      r.socket == Some(Socket(userData.value.id, s.socketsOpened, false))
  {
    if userData.None? || (s.socket.Some? && s.socket.value.connected) then s
    else s.(socket := Some(Socket(userData.value.id, s.socketsOpened, false)),
            socketsOpened := s.socketsOpened + 1)
  }

  /** The socket's transport reports it connected or disconnected. */
  function SocketConnectionChanged(s: Session, connected: bool): (r: Session)
    ensures s.socket.None? ==> r == s
    ensures s.socket.Some? ==> r == s.(socket := Some(s.socket.value.(connected := connected)))
  {
    if s.socket.Some? then s.(socket := Some(s.socket.value.(connected := connected))) else s
  }

  /**
    `checkAuth`: success signs in `data.user` (or `data.userData` when the
    former is missing) and connects the socket; an unsuccessful reply or an
    exception signs out and drops the token everywhere. Either way loading ends.
   */
  function CheckAuth(s: Session, reply: Reply<CheckData>): (r: Session)
    ensures !r.loading
    ensures r.onlineUsers == s.onlineUsers
    ensures reply.Success? ==>
      var user := if reply.data.user.Some? then reply.data.user else reply.data.userData;
      r.authUser == user &&
      r.token == s.token && r.storedToken == s.storedToken && r.authHeader == s.authHeader &&
      r.socket == ConnectSocket(s, user).socket && r.socketsOpened == ConnectSocket(s, user).socketsOpened
    ensures !reply.Success? ==>
      r.authUser.None? && r.token.None? && r.storedToken.None? && r.authHeader.None? &&
      r.socket == s.socket && r.socketsOpened == s.socketsOpened
  {
    var before := s.token;
    match reply
    case Success(data) =>
      var user := if data.user.Some? then data.user else data.userData;
      var s1 := ConnectSocket(s.(authUser := user), user);
      AfterTokenEffect(before, s1.(loading := false))
    case _ =>
      var s1 := s.(authUser := None, token := None, storedToken := None, authHeader := None);
      AfterTokenEffect(before, s1.(loading := false))
  }

  /**
    `login` (or signup): success signs in `data.userData`, connects the socket
    and stores the token in state, in local storage and in the header; an
    unsuccessful reply or an exception changes nothing.
   */
  function Login(s: Session, reply: Reply<LoginData>): (r: Session)
    ensures reply.Success? ==>
      r.authUser == reply.data.userData &&
      r.token == Some(reply.data.token) && r.storedToken == Some(reply.data.token) &&
      (reply.data.token != "" ==> r.authHeader == Some("Bearer " + reply.data.token)) &&
      (reply.data.token == "" ==> r.authHeader == (if s.token == Some("") then Some("Bearer ") else None)) &&
      r.socket == ConnectSocket(s, reply.data.userData).socket &&
      r.socketsOpened == ConnectSocket(s, reply.data.userData).socketsOpened &&
      r.onlineUsers == s.onlineUsers && r.loading == s.loading
    ensures !reply.Success? ==> r == s
  {
    var before := s.token;
    match reply
    case Success(data) =>
      var s1 := ConnectSocket(s.(authUser := data.userData), data.userData);
      var s2 := s1.(token := Some(data.token), storedToken := Some(data.token),
                    authHeader := Some("Bearer " + data.token));
      assert "Bearer " + "" == "Bearer ";
      AfterTokenEffect(before, s2)
    case _ => s
  }

  /**
    `logout`: drops the token everywhere, signs out, empties the online list
    and disconnects the socket (which stays in state, disconnected).
   */
  function Logout(s: Session): (r: Session)
    ensures r.token.None? && r.storedToken.None? && r.authHeader.None?
    ensures r.authUser.None? && r.onlineUsers == []
    ensures s.socket.Some? ==> r.socket == Some(s.socket.value.(connected := false))
    ensures s.socket.None? ==> r.socket.None?
    ensures r.loading == s.loading && r.socketsOpened == s.socketsOpened
  {
    var before := s.token;
    var s1 := s.(storedToken := None, token := None, authUser := None, onlineUsers := [], authHeader := None);
    var s2 := if s1.socket.Some? then s1.(socket := Some(s1.socket.value.(connected := false))) else s1;
    AfterTokenEffect(before, s2)
  }

  /** `updateProfile`: success replaces the signed-in user by `data.user`; nothing else ever changes. */
  function UpdateProfile(s: Session, reply: Reply<Option<User>>): (r: Session)
    ensures reply.Success? ==> r == s.(authUser := reply.data)
    ensures !reply.Success? ==> r == s
  {
    match reply
    case Success(user) => s.(authUser := user)
    case _ => s
  }

  /** The socket's `getOnlineUsers` event replaces the online list wholesale. */
  function OnlineUsers(s: Session, userIds: seq<string>): (r: Session)
    ensures r.onlineUsers == userIds
    ensures r.(onlineUsers := s.onlineUsers) == s
  {
    s.(onlineUsers := userIds)
  }

  /**
    The first effects: the token effect installs or removes the header, then
    a truthy token starts the session check (whose reply is `reply`) and no
    token simply ends loading.
   */
  function Mount(s: Session, reply: Reply<CheckData>): (r: Session)
    ensures !r.loading
    ensures !TokenTruthy(s.token) ==> r == s.(authHeader := None, loading := false)
    ensures TokenTruthy(s.token) ==> r == CheckAuth(s.(authHeader := HeaderFor(s.token)), reply)
  {
    var s1 := s.(authHeader := HeaderFor(s.token));
    if TokenTruthy(s1.token) then CheckAuth(s1, reply) else s1.(loading := false)
  }
}
