/** The client-side session: the logged-in user, the start-up loading flag,
    and the two browser storage entries that keep the session across page
    loads. Server replies are inputs to the methods. */
module AuthContext {
  import opened Wrappers
  import opened Schema

  datatype SessionUser = SessionUser(id: int, email: string, name: string, role: string)

  /** A storage entry: a user record written as JSON, or plain text (the
      token, or anything that does not parse). */
  datatype Stored = UserJson(user: SessionUser) | Raw(text: string)

  const USER_KEY := "caffaine_user"
  const TOKEN_KEY := "caffaine_token"

  const LOGIN_FAILED := "Login failed"
  const REGISTRATION_FAILED := "Registration failed"
  const ACCESS_DENIED := "Access denied. Administrator privileges required."

  /** What the login or signup endpoint answered: an error body whose
      message may be missing, or the user and its token. */
  datatype AuthReply = Rejected(message: Option<string>) | Accepted(user: SessionUser, accessToken: string)

  /** `error.message || fallback`: an absent or empty message gives the
      fallback. */
  function ErrorText(message: Option<string>, fallback: string): (r: string)
    ensures message.Some? && message.value != "" ==> r == message.value
    ensures message.None? || message == Some("") ==> r == fallback
  {
    if message.Some? && message.value != "" then message.value else fallback
  }

  class AuthProvider {
    var user: Option<SessionUser>
    var loading: bool
    /** localStorage. */
    var storage: map<string, Stored>

    /** The user shown is the user stored. */
    ghost predicate Consistent()
      reads this
    {
      user.Some? ==> USER_KEY in storage && storage[USER_KEY] == UserJson(user.value)
    }

    constructor (storage: map<string, Stored>)
      ensures user.None? && loading && this.storage == storage
      ensures Consistent()
    {
      user := None;
      loading := true;
      this.storage := storage;
    }

    function IsAuthenticated(): (b: bool)
      reads this
      ensures b <==> user.Some?
    {
      user.Some?
    }

    function IsAdmin(): (b: bool)
      reads this
      ensures b <==> user.Some? && user.value.role == ADMIN
      ensures b ==> IsAuthenticated()
    {
      user.Some? && user.value.role == ADMIN
    }

    /** The mount effect: a stored user record is restored, an empty or
        unparseable entry is ignored, and loading ends either way. */
    method Restore()
      requires Consistent()
      modifies this
      ensures Consistent()
      ensures !loading && storage == old(storage)
      ensures USER_KEY in storage && storage[USER_KEY].UserJson? ==> user == Some(storage[USER_KEY].user)
      ensures !(USER_KEY in storage && storage[USER_KEY].UserJson?) ==> user == old(user)
    {
      if USER_KEY in storage {
        var saved := storage[USER_KEY];
        if saved.UserJson? {
          user := Some(saved.user);
        }
      }
      loading := false;
    }

    /** login. Returns the message thrown, or None on success. A rejection
        and, in admin mode, a non-admin user leave user and storage alone. */
    method Login(reply: AuthReply, adminMode: bool) returns (thrown: Option<string>)
      requires Consistent()
      modifies this
      ensures Consistent() && loading == old(loading)
      ensures reply.Rejected? ==>
        thrown == Some(ErrorText(reply.message, LOGIN_FAILED))
        && user == old(user) && storage == old(storage)
      ensures reply.Accepted? && adminMode && reply.user.role != ADMIN ==>
        thrown == Some(ACCESS_DENIED) && user == old(user) && storage == old(storage)
      ensures reply.Accepted? && (!adminMode || reply.user.role == ADMIN) ==>
        && thrown.None? && user == Some(reply.user)
        && storage == old(storage)[USER_KEY := UserJson(reply.user)][TOKEN_KEY := Raw(reply.accessToken)]
      ensures adminMode && thrown.None? ==> IsAdmin()
    {
      if reply.Rejected? {
        return Some(ErrorText(reply.message, LOGIN_FAILED));
      }
      if adminMode && reply.user.role != ADMIN {
        return Some(ACCESS_DENIED);
      }
      user := Some(reply.user);
      storage := storage[USER_KEY := UserJson(reply.user)];
      storage := storage[TOKEN_KEY := Raw(reply.accessToken)];
      thrown := None;
    }

    /** signup: like login without the admin check. */
    method Signup(reply: AuthReply) returns (thrown: Option<string>)
      requires Consistent()
      modifies this
      ensures Consistent() && loading == old(loading)
      ensures reply.Rejected? ==>
        thrown == Some(ErrorText(reply.message, REGISTRATION_FAILED))
        && user == old(user) && storage == old(storage)
      ensures reply.Accepted? ==>
        && thrown.None? && user == Some(reply.user)
        && storage == old(storage)[USER_KEY := UserJson(reply.user)][TOKEN_KEY := Raw(reply.accessToken)]
    {
      if reply.Rejected? {
        return Some(ErrorText(reply.message, REGISTRATION_FAILED));
      }
      user := Some(reply.user);
      storage := storage[USER_KEY := UserJson(reply.user)];
      storage := storage[TOKEN_KEY := Raw(reply.accessToken)];
      thrown := None;
    }

    /** logout: no user, and neither entry is left in storage. */
    method Logout()
      modifies this
      ensures Consistent() && loading == old(loading)
      ensures user.None? && !IsAuthenticated()
      ensures storage == old(storage) - {USER_KEY, TOKEN_KEY}
    {
      user := None;
      storage := storage - {USER_KEY, TOKEN_KEY};
    }
  }

  /** A session survives a reload: after a successful login, a fresh
      provider over the same storage restores the same user; after a
      logout it restores none. */
  method ReloadAfterLogin(storage: map<string, Stored>, reply: AuthReply)
    returns (before: Option<SessionUser>, after: Option<SessionUser>, loggedOut: Option<SessionUser>)
    requires reply.Accepted?
    ensures before == Some(reply.user) && after == before && loggedOut.None?
  {
    var tab := new AuthProvider(storage);
    var thrown := tab.Login(reply, false);
    before := tab.user;
    var reloaded := new AuthProvider(tab.storage);
    reloaded.Restore();
    after := reloaded.user;
    tab.Logout();
    var again := new AuthProvider(tab.storage);
    again.Restore();
    loggedOut := again.user;
  }
}
