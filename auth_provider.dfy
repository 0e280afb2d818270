/**
  The auth provider as the stateful object it is: the React state fields, the
  token in local storage and the request client's default Authorization header,
  updated field by field by each operation, each operation proved to perform
  the transition the Session module defines for it.
 */
module AuthStore {
  import opened Wrappers
  import opened JsValues
  import Session

  class AuthProvider {
    var token: Option<string>
    /** The "token" entry of local storage. */
    var storedToken: Option<string>
    /** `axios.defaults.headers.common["Authorization"]`. */
    var authHeader: Option<string>
    var authUser: Option<User>
    var onlineUsers: seq<string>
    var socket: Option<Session.Socket>
    /** How many sockets `io()` has created so far. */
    var socketsOpened: nat
    var loading: bool

    /** The provider's state as a value. */
    ghost function State(): Session.Session
      reads this
    {
      Session.Session(token, storedToken, authHeader, authUser, onlineUsers, socket, socketsOpened, loading)
    }

    /**
      Module load and first render, for the token found in local storage:
      the header is installed for a truthy token and loading is on exactly then.
     */
    constructor (stored: Option<string>)
      ensures State() == Session.Initial(stored)
    {
      storedToken := stored;
      authHeader := None;
      if Session.TokenTruthy(stored) {
        authHeader := Session.HeaderFor(stored);
      }
      token := stored;
      authUser := None;
      onlineUsers := [];
      socket := None;
      socketsOpened := 0;
      loading := Session.TokenTruthy(stored);
    }

    /** The effect keyed on the token: install the header for a truthy token, remove it otherwise. */
    method SyncAuthHeader()
      modifies this
      ensures State() == old(State()).(authHeader := Session.HeaderFor(token))
    {
      authHeader := Session.HeaderFor(token);
    }

    /** `connectSocket`. */
    method ConnectSocket(userData: Option<User>)
      modifies this
      ensures State() == Session.ConnectSocket(old(State()), userData)
    {
      if userData.None? || (socket.Some? && socket.value.connected) {
        return;
      }
      var newSocket := Session.Socket(userData.value.id, socketsOpened, false);
      socketsOpened := socketsOpened + 1;
      socket := Some(newSocket);
    }

    /** The socket's transport reports it connected or disconnected. */
    method OnSocketConnectionChanged(connected: bool)
      modifies this
      ensures State() == Session.SocketConnectionChanged(old(State()), connected)
    {
      if socket.Some? {
        socket := Some(socket.value.(connected := connected));
      }
    }

    /** `checkAuth`, once the reply of GET /api/auth/check is known. */
    method CheckAuth(reply: Reply<Session.CheckData>)
      modifies this
      ensures State() == Session.CheckAuth(old(State()), reply)
    {
      var before := token;
      match reply {
        case Success(data) =>
          var user := if data.user.Some? then data.user else data.userData;
          authUser := user;
          ConnectSocket(user);
        case _ =>
          authUser := None;
          token := None;
          storedToken := None;
          authHeader := None;
      }
      loading := false;
      if token != before {
        SyncAuthHeader();
      }
    }

    /** `login` (or signup), once the reply of POST /api/auth/:state is known. */
    method Login(reply: Reply<Session.LoginData>)
      modifies this
      ensures State() == Session.Login(old(State()), reply)
    {
      var before := token;
      match reply {
        case Success(data) =>
          authUser := data.userData;
          ConnectSocket(data.userData);
          token := Some(data.token);
          storedToken := Some(data.token);
          authHeader := Some("Bearer " + data.token);
        case _ =>
      }
      if token != before {
        SyncAuthHeader();
      }
    }

    /** `logout`. */
    method Logout()
      modifies this
      ensures State() == Session.Logout(old(State()))
    {
      var before := token;
      storedToken := None;
      token := None;
      authUser := None;
      onlineUsers := [];
      authHeader := None;
      if socket.Some? {
        socket := Some(socket.value.(connected := false));
      }
      if token != before {
        SyncAuthHeader();
      }
    }

    /** `updateProfile`, once the reply of PUT /api/auth/update-profile is known. */
    method UpdateProfile(reply: Reply<Option<User>>)
      modifies this
      ensures State() == Session.UpdateProfile(old(State()), reply)
    {
      match reply
      case Success(user) => authUser := user;
      case _ =>
    }

    /** The socket's `getOnlineUsers` event. */
    method OnGetOnlineUsers(userIds: seq<string>)
      modifies this
      ensures State() == Session.OnlineUsers(old(State()), userIds)
    {
      onlineUsers := userIds;
    }

    /** The first effects after mounting; `reply` answers the session check a truthy token starts. */
    method Mount(reply: Reply<Session.CheckData>)
      modifies this
      ensures State() == Session.Mount(old(State()), reply)
    {
      SyncAuthHeader();
      if token.Some? && token.value != "" {
        CheckAuth(reply);
      } else {
        loading := false;
      }
    }
  }
}
