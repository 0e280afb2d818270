/**
  Properties of the session manager: loading ends on mount whatever the check
  returns, logout is idempotent, a presence event supersedes the previous one,
  and every operation keeps the persisted token equal to the token and the
  header mirroring it (login with an empty token over an empty token being
  the one exception for the header).
 */
module SessionProps {
  import opened Wrappers
  import opened JsValues
  import opened Session

  /** Loading is on at start exactly when a token is stored, and mounting always ends it. */
  lemma MountEndsLoading(stored: Option<string>, reply: Reply<CheckData>)
    ensures !RendersChildren(Initial(stored)) <==> TokenTruthy(stored)
    ensures RendersChildren(Mount(Initial(stored), reply))
  {
  }

  /** A stored token the server rejects leaves no token anywhere after mounting. */
  lemma MountWithRejectedToken(stored: Option<string>, reply: Reply<CheckData>)
    requires TokenTruthy(stored) && !reply.Success?
    ensures var r := Mount(Initial(stored), reply);
      r.token.None? && r.storedToken.None? && r.authHeader.None? && r.authUser.None? && RendersChildren(r)
  {
  }

  /** Logging out twice leaves the state logging out once leaves. */
  lemma LogoutIdempotent(s: Session)
    ensures Logout(Logout(s)) == Logout(s)
  {
  }

  /** A presence event fully supersedes the one before it. */
  lemma OnlineUsersSupersedes(s: Session, first: seq<string>, second: seq<string>)
    ensures OnlineUsers(OnlineUsers(s, first), second) == OnlineUsers(s, second)
  {
  }

  /**
    Once a user's socket has been opened and its handshake has completed,
    connecting again, for any user data, opens no second socket.
   */
  lemma ReconnectOpensNothing(s: Session, first: User, later: Option<User>)
    ensures var live := SocketConnectionChanged(ConnectSocket(s, Some(first)), true);
      live.socket.Some? && ConnectSocket(live, later) == live
  {
  }

  /**
    A successful check or login whose reply carries no user data opens no
    socket, although the login still sets the token.
   */
  lemma SuccessWithoutUserOpensNoSocket(s: Session, check: CheckData, login: LoginData)
    requires check.user.None? && check.userData.None? && login.userData.None?
    ensures var r := CheckAuth(s, Success(check));
      r.authUser.None? && r.socket == s.socket && r.socketsOpened == s.socketsOpened
    ensures var r := Login(s, Success(login));
      r.authUser.None? && r.token == Some(login.token) && r.socket == s.socket && r.socketsOpened == s.socketsOpened
  {
  }

  /** Every operation keeps the persisted token equal to the token in state. */
  lemma OperationsKeepTokenPersisted(s: Session, check: Reply<CheckData>, login: Reply<LoginData>,
                                     profile: Reply<Option<User>>, userIds: seq<string>,
                                     userData: Option<User>, connected: bool)
    requires TokenPersisted(s)
    ensures TokenPersisted(CheckAuth(s, check))
    ensures TokenPersisted(Login(s, login))
    ensures TokenPersisted(Logout(s))
    ensures TokenPersisted(UpdateProfile(s, profile))
    ensures TokenPersisted(OnlineUsers(s, userIds))
    ensures TokenPersisted(ConnectSocket(s, userData))
    ensures TokenPersisted(SocketConnectionChanged(s, connected))
    ensures TokenPersisted(Mount(s, check))
  {
  }

  /**
    Every operation keeps the header mirroring the token, except a login
    whose token is "" when the token already is "": the token does not change,
    so the effect does not run, and the explicit "Bearer " header stays.
   */
  lemma OperationsKeepHeaderMirror(s: Session, check: Reply<CheckData>, login: Reply<LoginData>,
                                   profile: Reply<Option<User>>, userIds: seq<string>,
                                   userData: Option<User>, connected: bool)
    requires HeaderMirrors(s)
    ensures HeaderMirrors(CheckAuth(s, check))
    ensures !(login.Success? && login.data.token == "" && s.token == Some("")) ==> HeaderMirrors(Login(s, login))
    ensures HeaderMirrors(Logout(s))
    ensures HeaderMirrors(UpdateProfile(s, profile))
    ensures HeaderMirrors(OnlineUsers(s, userIds))
    ensures HeaderMirrors(ConnectSocket(s, userData))
    ensures HeaderMirrors(SocketConnectionChanged(s, connected))
    ensures HeaderMirrors(Mount(s, check))
  {
  }

  /** The exception above, exhibited. */
  lemma EmptyTokenLoginKeepsBearerHeader(s: Session, userData: Option<User>)
    requires s.token == Some("") && HeaderMirrors(s)
    ensures Login(s, Success(LoginData(userData, ""))).authHeader == Some("Bearer ")
    ensures !HeaderMirrors(Login(s, Success(LoginData(userData, ""))))
  {
    assert "Bearer " + "" == "Bearer ";
  }
}
