/**
 * The session store (contexts/auth-context.tsx): the signed-in user held in
 * component state, mirrored with the two tokens in `localStorage`, and the
 * handlers that establish, check, replace and tear down that session.
 */
module Auth {
  import opened Wrappers
  import opened Platform

  const AdminHome := "/admin/dashboard"
  const CaseManagerHome := "/case-manager/dashboard"
  const ApplicantHome := "/dashboard"
  const LoginPage := "/login"

  datatype User = User(
    id: string,
    email: string,
    firstName: string,
    lastName: string,
    role: string,
    phone: Option<string>,
    profileImage: Option<string>,
    isEmailVerified: bool,
    isActive: bool)

  /** The `data` of a successful login or registration reply. */
  datatype Session = Session(user: User, accessToken: string, refreshToken: string)

  /** What `GET /auth/me` produced: a rejected call, or a body `{ success, data }`. */
  datatype MeReply = MeFailed | Me(success: bool, data: Option<User>)

  /**
   * What `POST /auth/login` or `POST /auth/register` produced: a rejected
   * call with the server's message, or a body `{ success, data }`.
   */
  datatype AuthReply = AuthFailed(message: Option<string>) | AuthReplied(success: bool, data: Option<Session>)

  /** The reply establishes a session. */
  predicate Establishes(reply: AuthReply) {
    reply.AuthReplied? && reply.success && reply.data.Some?
  }

  /**
   * The handler ends in its `catch` and rethrows: the call rejected, or a
   * `success` reply had no `data` to destructure.
   */
  predicate Throws(reply: AuthReply) {
    reply.AuthFailed? || (reply.success && reply.data.None?)
  }

  /** The error toast of a throwing handler: the server's message, or `fallback`. */
  function FailureMessage(reply: AuthReply, fallback: string): string {
    if reply.AuthFailed? && Truthy(reply.message) then reply.message.value else fallback
  }

  /** Where a successful login lands, by role. */
  function RoleHome(role: string): (path: string)
    ensures path == AdminHome <==> role == "admin"
    ensures path == CaseManagerHome <==> role == "case_manager"
    ensures path == ApplicantHome <==> role != "admin" && role != "case_manager"
  {
    if role == "admin" then AdminHome
    else if role == "case_manager" then CaseManagerHome
    else ApplicantHome
  }

  /** A JSON string literal: quotes, backslashes and control characters escaped. */
  function JsonString(s: string): string {
    "\"" + JsonBody(s) + "\""
  }

  function JsonBody(s: string): string {
    if s == [] then "" else JsonEscape(s[0]) + JsonBody(s[1..])
  }

  function HexDigit(d: nat): char
    requires d < 16
  {
    "0123456789abcdef"[d]
  }

  function JsonEscape(c: char): string {
    if c == '"' then "\\\""
    else if c == '\\' then "\\\\"
    else if c == '\n' then "\\n"
    else if c == '\r' then "\\r"
    else if c == '\t' then "\\t"
    else if c == '\U{8}' then "\\b"
    else if c == '\U{C}' then "\\f"
    else if c < ' ' then "\\u00" + [HexDigit(c as int / 16), HexDigit(c as int % 16)]
    else [c]
  }

  function JsonBool(b: bool): string {
    if b then "true" else "false"
  }

  /** `"name":value` pairs joined by commas. */
  function JsonMembers(fields: seq<(string, string)>): string {
    if fields == [] then ""
    else JsonString(fields[0].0) + ":" + fields[0].1
         + (if |fields| == 1 then "" else "," + JsonMembers(fields[1..]))
  }

  /** The members `JSON.stringify` writes for a user: an absent optional field is omitted. */
  function UserFields(u: User): seq<(string, string)> {
    [("_id", JsonString(u.id)), ("email", JsonString(u.email)), ("firstName", JsonString(u.firstName)),
     ("lastName", JsonString(u.lastName)), ("role", JsonString(u.role))]
    + (if u.phone.Some? then [("phone", JsonString(u.phone.value))] else [])
    + (if u.profileImage.Some? then [("profileImage", JsonString(u.profileImage.value))] else [])
    + [("isEmailVerified", JsonBool(u.isEmailVerified)), ("isActive", JsonBool(u.isActive))]
  }

  /** `JSON.stringify(user)`, with the fields in the order of the `User` interface. */
  function Stringify(u: User): string {
    "{" + JsonMembers(UserFields(u)) + "}"
  }

  /** The storage after a session is established: the two tokens and the user's JSON. */
  function Established(storage: map<string, string>, s: Session): map<string, string> {
    storage[AccessTokenKey := s.accessToken][RefreshTokenKey := s.refreshToken][UserKey := Stringify(s.user)]
  }

  class AuthProvider {
    var user: Option<User>
    var loading: bool
    const browser: Browser

    constructor (browser: Browser)
      ensures user == None && loading && this.browser == browser
    {
      user := None;
      loading := true;
      this.browser := browser;
    }

    /**
     * Runs on mount: with no stored access token nothing is asked; otherwise
     * `/auth/me` either confirms the user or, on failure, the session is cleared.
     */
    method CheckAuth(reply: MeReply)
      modifies this, browser
      ensures !loading
      ensures !Truthy(old(browser.GetItem(AccessTokenKey))) ==>
                && user == old(user)
                && browser.storage == old(browser.storage)
                && browser.events == old(browser.events)
      ensures Truthy(old(browser.GetItem(AccessTokenKey))) ==>
                && browser.events == old(browser.events) + [Call(Get, "/auth/me")]
                && browser.storage == (if reply.MeFailed? then old(browser.storage) - SessionKeys else old(browser.storage))
                && user == (if reply.Me? && reply.success && reply.data.Some? then reply.data else old(user))
    {
      var token := browser.GetItem(AccessTokenKey);
      if !Truthy(token) {
        loading := false;
        return;
      }
      browser.Emit(Call(Get, "/auth/me"));
      if reply.MeFailed? {
        browser.RemoveItem(AccessTokenKey);
        browser.RemoveItem(RefreshTokenKey);
        browser.RemoveItem(UserKey);
      } else if reply.success && reply.data.Some? {
        user := reply.data;
      }
      loading := false;
    }

    /**
     * `login`: a successful reply stores the session, sets the user and goes
     * to the role's home; an unsuccessful one does nothing further; a failing
     * one shows the error and rethrows (`thrown`).
     */
    method Login(reply: AuthReply) returns (thrown: bool)
      modifies this, browser
      ensures loading == old(loading)
      ensures thrown <==> Throws(reply)
      ensures Establishes(reply) ==>
                && browser.storage == Established(old(browser.storage), reply.data.value)
                && user == Some(reply.data.value.user)
                && browser.events == old(browser.events) + [Call(Post, "/auth/login"),
                     Notify(Success, "Login successful!", None), Navigate(RoleHome(reply.data.value.user.role))]
      ensures !Establishes(reply) ==> browser.storage == old(browser.storage) && user == old(user)
      ensures reply.AuthReplied? && !reply.success ==> browser.events == old(browser.events) + [Call(Post, "/auth/login")]
      ensures Throws(reply) ==>
                browser.events == old(browser.events) + [Call(Post, "/auth/login"),
                  Notify(Error, FailureMessage(reply, "Login failed"), None)]
    {
      browser.Emit(Call(Post, "/auth/login"));
      thrown := false;
      if reply.AuthFailed? || (reply.success && reply.data.None?) {
        browser.Emit(Notify(Error, FailureMessage(reply, "Login failed"), None));
        return true;
      }
      if reply.success {
        var session := reply.data.value;
        Establish(session, "Login successful!", RoleHome(session.user.role));
      }
    }

    /** The success path shared by `login` and `register`: store the session, set the user, greet, go home. */
    method Establish(session: Session, greeting: string, home: string)
      modifies this, browser
      ensures loading == old(loading)
      ensures browser.storage == Established(old(browser.storage), session)
      ensures user == Some(session.user)
      ensures browser.events == old(browser.events) + [Notify(Success, greeting, None), Navigate(home)]
    {
      browser.SetItem(AccessTokenKey, session.accessToken);
      browser.SetItem(RefreshTokenKey, session.refreshToken);
      browser.SetItem(UserKey, Stringify(session.user));
      user := Some(session.user);
      browser.Emit(Notify(Success, greeting, None));
      browser.Emit(Navigate(home));
    }

    /** `register`: as `login`, but every new account lands on `/dashboard`. */
    method Register(reply: AuthReply) returns (thrown: bool)
      modifies this, browser
      ensures loading == old(loading)
      ensures thrown <==> Throws(reply)
      ensures Establishes(reply) ==>
                && browser.storage == Established(old(browser.storage), reply.data.value)
                && user == Some(reply.data.value.user)
                && browser.events == old(browser.events) + [Call(Post, "/auth/register"),
                     Notify(Success, "Registration successful!", None), Navigate(ApplicantHome)]
      ensures !Establishes(reply) ==> browser.storage == old(browser.storage) && user == old(user)
      ensures reply.AuthReplied? && !reply.success ==> browser.events == old(browser.events) + [Call(Post, "/auth/register")]
      ensures Throws(reply) ==>
                browser.events == old(browser.events) + [Call(Post, "/auth/register"),
                  Notify(Error, FailureMessage(reply, "Registration failed"), None)]
    {
      browser.Emit(Call(Post, "/auth/register"));
      thrown := false;
      if reply.AuthFailed? || (reply.success && reply.data.None?) {
        browser.Emit(Notify(Error, FailureMessage(reply, "Registration failed"), None));
        return true;
      }
      if reply.success {
        var session := reply.data.value;
        Establish(session, "Registration successful!", ApplicantHome);
      }
    }

    /**
     * `logout`: the server is told (its answer, or failure, is ignored), then
     * the session is cleared and the page goes to `/login`, whatever happened.
     * It never rejects.
     */
    method Logout()
      modifies this, browser
      ensures user == None && loading == old(loading)
      ensures browser.storage == old(browser.storage) - SessionKeys
      ensures browser.events == old(browser.events) + [Call(Post, "/auth/logout"), Navigate(LoginPage),
                                                       Notify(Success, "Logged out successfully", None)]
    {
      BeginLogout();
      FinishLogout();
    }

    /** The part of `logout` before its call is awaited: the call is made. */
    method BeginLogout()
      modifies browser
      ensures browser.storage == old(browser.storage)
      ensures browser.events == old(browser.events) + [Call(Post, "/auth/logout")]
    {
      browser.Emit(Call(Post, "/auth/logout"));
    }

    /** The `finally` of `logout`, once its call has settled either way. */
    method FinishLogout()
      modifies this, browser
      ensures user == None && loading == old(loading)
      ensures browser.storage == old(browser.storage) - SessionKeys
      ensures browser.events == old(browser.events) + [Navigate(LoginPage), Notify(Success, "Logged out successfully", None)]
    {
      browser.RemoveItem(AccessTokenKey);
      browser.RemoveItem(RefreshTokenKey);
      browser.RemoveItem(UserKey);
      user := None;
      browser.Emit(Navigate(LoginPage));
      browser.Emit(Notify(Success, "Logged out successfully", None));
    }

    /** `updateUser`: replaces the user and its stored copy; the tokens are untouched. */
    method UpdateUser(updated: User)
      modifies this, browser
      ensures user == Some(updated) && loading == old(loading)
      ensures browser.storage == old(browser.storage)[UserKey := Stringify(updated)]
      ensures browser.events == old(browser.events)
    {
      user := Some(updated);
      browser.SetItem(UserKey, Stringify(updated));
    }
  }
}
