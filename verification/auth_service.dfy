/** Accounts: credential check, login with a mock access token, and
    registration of new customers. The user table is keyed by email, which
    the database keeps unique. */
module AuthService {
  import opened Wrappers
  import opened Schema
  import opened Text

  /** A user as sent back to the client: every stored field but the password. */
  datatype PublicUser = PublicUser(id: int, email: string, name: string, role: string)

  function WithoutPassword(u: User): PublicUser {
    PublicUser(u.id, u.email, u.name, u.role)
  }

  datatype Session = Session(user: PublicUser, accessToken: string)

  /** Both are raised as UnauthorizedException (HTTP 401). */
  datatype AuthError = InvalidCredentials | EmailAlreadyRegistered

  function AuthErrorMessage(e: AuthError): string {
    match e
    case InvalidCredentials => "Invalid credentials"
    case EmailAlreadyRegistered => "Email already registered"
  }

  const TOKEN_PREFIX := "mock_jwt_token_"

  /** The mock access token: the prefix, the role, an underscore, the id. */
  function AccessToken(role: string, id: int): (t: string)
    ensures StartsWith(t, TOKEN_PREFIX + role + "_") && EndsWith(t, IntToString(id))
  {
    var head, digits := TOKEN_PREFIX + role + "_", IntToString(id);
    assert (head + digits)[..|head|] == head;
    assert (head + digits)[|head + digits| - |digits|..] == digits;
    head + digits
  }

  /** Position of the first `c` in `s`, or -1. */
  function FirstIndex(s: string, c: char): (k: int)
    ensures -1 <= k < |s|
    ensures k >= 0 ==> s[k] == c && c !in s[..k]
    ensures k == -1 <==> c !in s
    decreases |s|
  {
    if s == [] then -1
    else if s[0] == c then 0
    else
      var k := FirstIndex(s[1..], c);
      assert k >= 0 ==> s[..k + 1] == [s[0]] + s[1..][..k];
      if k < 0 then -1 else k + 1
  }

  lemma FirstIndexAfter(r: string, c: char, s: string)
    requires c !in r
    ensures FirstIndex(r + [c] + s, c) == |r|
  {
    var t := r + [c] + s;
    var k := FirstIndex(t, c);
    assert t[|r|] == c;
    assert forall j | 0 <= j < |r| :: t[j] == r[j];
    assert forall j | 0 <= j < k :: t[..k][j] == t[j];
  }

  /** Reads the role and the id back out of a token. */
  function ParseToken(t: string): Option<(string, int)> {
    if !StartsWith(t, TOKEN_PREFIX) then None
    else
      var rest := t[|TOKEN_PREFIX|..];
      var k := FirstIndex(rest, '_');
      if k < 0 then None
      else match ParseInt(rest[k + 1..])
        case None => None
        case Some(id) => Some((rest[..k], id))
  }

  /** The token carries the role and the id recoverably, for any role without
      an underscore (ADMIN and CUSTOMER among them). */
  lemma ParseAccessToken(role: string, id: int)
    requires '_' !in role
    ensures ParseToken(AccessToken(role, id)) == Some((role, id))
  {
    var digits := IntToString(id);
    var rest := role + "_" + digits;
    var t := AccessToken(role, id);
    assert t == TOKEN_PREFIX + rest;
    assert t[..|TOKEN_PREFIX|] == TOKEN_PREFIX && t[|TOKEN_PREFIX|..] == rest;
    FirstIndexAfter(role, '_', digits);
    assert rest[|role| + 1..] == digits && rest[..|role|] == role;
    ParseIntToString(id);
  }

  /** So two users whose roles have no underscore share a token only if they
      share role and id. */
  lemma AccessTokenIdentifiesUser(role1: string, id1: int, role2: string, id2: int)
    requires '_' !in role1 && '_' !in role2
    requires AccessToken(role1, id1) == AccessToken(role2, id2)
    ensures role1 == role2 && id1 == id2
  {
    ParseAccessToken(role1, id1);
    ParseAccessToken(role2, id2);
  }

  /** The signup body. The role it may carry is overridden. */
  datatype RegisterRequest = RegisterRequest(email: string, name: string, password: string, role: Option<string>)

  class AccountStore {
    /** The user table, keyed by email. */
    var users: map<string, User>
    /** The next autoincrement user id. */
    var nextId: int

    ghost predicate Valid()
      reads this
    {
      && nextId >= 1
      && forall e | e in users :: users[e].email == e && 1 <= users[e].id < nextId
    }

    constructor (seed: map<string, User>, nextId: int)
      requires nextId >= 1
      requires forall e | e in seed :: seed[e].email == e && 1 <= seed[e].id < nextId
      ensures Valid() && users == seed && this.nextId == nextId
    {
      users := seed;
      this.nextId := nextId;
    }

    /** validateUser: the user without its password iff the email is known and
        the stored password equals the given one exactly; otherwise nothing. */
    function ValidateUser(email: string, password: string): (r: Option<PublicUser>)
      reads this
      requires Valid()
      ensures r.Some? <==> email in users && users[email].password == password
      ensures r.Some? ==> r.value == WithoutPassword(users[email]) && r.value.email == email
    {
      if email in users && users[email].password == password then Some(WithoutPassword(users[email]))
      else None
    }

    /** login: a session for the validated user, or Invalid credentials. */
    function Login(email: string, password: string): (r: Result<Session, AuthError>)
      reads this
      requires Valid()
      ensures r.Ok? <==> email in users && users[email].password == password
      ensures r.Err? ==> r.error == InvalidCredentials
      ensures r.Ok? ==>
        && r.value.user == WithoutPassword(users[email])
        && r.value.accessToken == AccessToken(users[email].role, users[email].id)
    {
      match ValidateUser(email, password)
      case None => Err(InvalidCredentials)
      case Some(user) => Ok(Session(user, AccessToken(user.role, user.id)))
    }

    /** register: refuses a known email and leaves the table alone; otherwise
        stores a new CUSTOMER, whatever role was asked for, and returns the
        same session a login with these credentials would. */
    method Register(req: RegisterRequest) returns (r: Result<Session, AuthError>)
      requires Valid()
      modifies this
      ensures Valid()
      ensures req.email in old(users) ==>
        r == Err(EmailAlreadyRegistered) && users == old(users) && nextId == old(nextId)
      ensures req.email !in old(users) ==>
        && users == old(users)[req.email := User(old(nextId), req.email, req.name, req.password, CUSTOMER)]
        && nextId == old(nextId) + 1
        && r.Ok? && r.value.user.role == CUSTOMER
      ensures r.Ok? ==> r == Login(req.email, req.password)
    {
      if req.email in users {
        return Err(EmailAlreadyRegistered);
      }
      var user := User(nextId, req.email, req.name, req.password, CUSTOMER);
      users := users[req.email := user];
      nextId := nextId + 1;
      var result := WithoutPassword(user);
      r := Ok(Session(result, AccessToken(user.role, user.id)));
    }
  }
}
