/**
 * The access-token gate of the hw6 server (`authenticateJWT`) and the
 * login/logout handlers of its auth controller. Signing, verifying and
 * password comparison are cryptographic calls outside the model: they are
 * taken as functions, and a verification that throws is `None`.
 */
module JwtMiddleware {
  import opened Common
  import opened Store

  /** The access token's payload (`username`, `email`, `group`, `avatar`). */
  datatype Claims = Claims(username: string, email: string, group: string, avatar: Option<string>)

  const AccessDenied := "Access denied"
  const InvalidToken := "Invalid token"

  /** The parts of the request the middleware reads and writes. */
  class HttpRequest {
    var cookies: map<string, string>
    var user: Option<Claims>

    constructor (cookies: map<string, string>)
      ensures this.cookies == cookies && user == None
    {
      this.cookies := cookies;
      user := None;
    }
  }

  /** `req.cookies.accessToken`, with an absent or empty cookie read as no token. */
  function AccessToken(cookies: map<string, string>): (r: Option<string>)
    ensures r.Some? <==> "accessToken" in cookies && cookies["accessToken"] != ""
    ensures r.Some? ==> r.value == cookies["accessToken"]
  {
    if "accessToken" in cookies && cookies["accessToken"] != "" then Some(cookies["accessToken"]) else None
  }

  /**
   * `authenticateJWT`: without a token it answers 401 'Access denied', with
   * a token that fails verification 401 'Invalid token'; otherwise it sets
   * `req.user` to the decoded payload and calls `next` once.
   */
  method AuthenticateJWT(req: HttpRequest, verify: string -> Option<Claims>) returns (response: Option<Reply>, nextCalls: nat)
    modifies req`user
    ensures AccessToken(req.cookies).None? ==>
      response == Some(Reply(401, Error(AccessDenied))) && nextCalls == 0 && req.user == old(req.user)
    ensures AccessToken(req.cookies).Some? && verify(AccessToken(req.cookies).value).None? ==>
      response == Some(Reply(401, Error(InvalidToken))) && nextCalls == 0 && req.user == old(req.user)
    ensures AccessToken(req.cookies).Some? && verify(AccessToken(req.cookies).value).Some? ==>
      response.None? && nextCalls == 1 && req.user == verify(AccessToken(req.cookies).value)
    ensures response.Some? <==> nextCalls == 0
  {
    var token := AccessToken(req.cookies);
    if token.None? {
      return Some(Reply(401, Error(AccessDenied))), 0;
    }
    var user := verify(token.value);
    if user.None? {
      return Some(Reply(401, Error(InvalidToken))), 0;
    }
    req.user := user;
    response, nextCalls := None, 1;
  }
}

module AuthController {
  import opened Common
  import opened Store

  /** What the handler does to the response's cookies. */
  datatype CookieOp = SetCookie(name: string, value: string, httpOnly: bool) | ClearCookie(name: string)

  /**
   * The handler either answers, with its cookie operations, or never
   * answers: a rejected `await` in these handlers is not caught.
   */
  datatype Answer = Answered(reply: Reply, cookies: seq<CookieOp>) | Unanswered

  /** `7 * 24 * 60 * 60 * 1000`: a refresh token lives seven days, in milliseconds. */
  const RefreshLifetime: int := 604800000

  const UserNotFound := "User not found"
  const InvalidPassword := "Invalid password"
  const LoggedIn := "Logged in successfully"
  const NoRefreshToken := "No refresh token provided"
  const LoggedOut := "Logged out successfully"

  /**
   * `login`. `comparePassword` stands for the bcrypt comparison,
   * `signAccess` and `signRefresh` for the token generators, `now` for
   * `Date.now()`. The refresh-token collection has a unique index on
   * `token`, so creating a token that is already stored fails and, not
   * being caught, leaves the request unanswered.
   */
  method Login(db: Database, username: string, password: string,
               comparePassword: (UserDoc, string) -> bool,
               signAccess: UserDoc -> string, signRefresh: UserDoc -> string, now: int)
    returns (answer: Answer)
    modifies db`refreshTokens
    ensures username !in db.users ==>
      answer == Answered(Reply(400, Error(UserNotFound)), []) && db.refreshTokens == old(db.refreshTokens)
    ensures username in db.users && !comparePassword(db.users[username], password) ==>
      answer == Answered(Reply(400, Error(InvalidPassword)), []) && db.refreshTokens == old(db.refreshTokens)
    ensures (username in db.users && comparePassword(db.users[username], password)
             && signRefresh(db.users[username]) in old(db.refreshTokens)) ==>
      answer == Unanswered && db.refreshTokens == old(db.refreshTokens)
    ensures (username in db.users && comparePassword(db.users[username], password)
             && signRefresh(db.users[username]) !in old(db.refreshTokens)) ==>
      var user := db.users[username];
      && db.refreshTokens == old(db.refreshTokens)[signRefresh(user) := TokenDoc(user.id, now + RefreshLifetime)]
      && answer == Answered(Reply(200, Message(LoggedIn)),
           [SetCookie("accessToken", signAccess(user), true), SetCookie("refreshToken", signRefresh(user), true)])
  {
    if username !in db.users {
      return Answered(Reply(400, Error(UserNotFound)), []);
    }
    var user := db.users[username];
    var validPassword := comparePassword(user, password);
    if !validPassword {
      return Answered(Reply(400, Error(InvalidPassword)), []);
    }
    var accessToken := signAccess(user);
    var refreshToken := signRefresh(user);
    if refreshToken in db.refreshTokens {
      return Unanswered;
    }
    db.refreshTokens := db.refreshTokens[refreshToken := TokenDoc(user.id, now + 7 * 24 * 60 * 60 * 1000)];
    var cookies := [SetCookie("accessToken", accessToken, true)];
    cookies := cookies + [SetCookie("refreshToken", refreshToken, true)];
    answer := Answered(Reply(200, Message(LoggedIn)), cookies);
  }

  /**
   * `logout`: without a refresh cookie it answers 400 and changes nothing;
   * otherwise it deletes the token's record, if there is one, and clears
   * both cookies.
   */
  method Logout(db: Database, refreshCookie: Option<string>) returns (answer: Answer)
    modifies db`refreshTokens
    ensures refreshCookie.None? || refreshCookie == Some("") ==>
      answer == Answered(Reply(400, Error(NoRefreshToken)), []) && db.refreshTokens == old(db.refreshTokens)
    ensures refreshCookie.Some? && refreshCookie.value != "" ==>
      && db.refreshTokens == old(db.refreshTokens) - {refreshCookie.value}
      && answer == Answered(Reply(200, Message(LoggedOut)), [ClearCookie("accessToken"), ClearCookie("refreshToken")])
  {
    if refreshCookie.None? || refreshCookie.value == "" {
      return Answered(Reply(400, Error(NoRefreshToken)), []);
    }
    db.refreshTokens := db.refreshTokens - {refreshCookie.value};
    var cookies := [ClearCookie("accessToken")];
    cookies := cookies + [ClearCookie("refreshToken")];
    answer := Answered(Reply(200, Message(LoggedOut)), cookies);
  }

  /**
   * Logout undoes login: a successful login followed by a logout with the
   * refresh cookie it set leaves the token collection as it was.
   */
  method LoginThenLogout(db: Database, username: string, password: string,
                         comparePassword: (UserDoc, string) -> bool,
                         signAccess: UserDoc -> string, signRefresh: UserDoc -> string, now: int)
    returns (loggedIn: Answer, loggedOut: Answer)
    requires username in db.users && comparePassword(db.users[username], password)
    requires signRefresh(db.users[username]) !in db.refreshTokens && signRefresh(db.users[username]) != ""
    modifies db`refreshTokens
    ensures loggedIn.Answered? && loggedIn.reply == Reply(200, Message(LoggedIn))
    ensures loggedOut == Answered(Reply(200, Message(LoggedOut)), [ClearCookie("accessToken"), ClearCookie("refreshToken")])
    ensures db.refreshTokens == old(db.refreshTokens)
  {
    var token := signRefresh(db.users[username]);
    loggedIn := Login(db, username, password, comparePassword, signAccess, signRefresh, now);
    loggedOut := Logout(db, Some(token));
    assert db.refreshTokens.Keys == old(db.refreshTokens).Keys;
  }
}

module ServerHw6 {
  import opened Common
  import opened Store
  import opened JwtMiddleware
  import ServerHw5

  /**
   * A request to one of the `/api/categories` or `/api/products` routes of
   * the hw6 server: `authenticateJWT` runs first, and only when it calls
   * `next` does the route handler (the same code as in hw5) run.
   */
  method HandleGated(db: Database, req: HttpRequest, verify: string -> Option<Claims>,
                     route: ServerHw5.Request, newId: Id)
    returns (reply: Reply)
    requires newId !in db.categories && newId !in db.products
    modifies db`categories, db`products, req`user
    ensures AccessToken(req.cookies).None? ==>
      reply == Reply(401, Error(AccessDenied))
      && db.categories == old(db.categories) && db.products == old(db.products)
    ensures AccessToken(req.cookies).Some? && verify(AccessToken(req.cookies).value).None? ==>
      reply == Reply(401, Error(InvalidToken))
      && db.categories == old(db.categories) && db.products == old(db.products)
    ensures AccessToken(req.cookies).Some? && verify(AccessToken(req.cookies).value).Some? ==>
      && reply.status in {200, 201, 400, 404}
      && req.user == verify(AccessToken(req.cookies).value)
      && (ServerHw5.IsRead(route) ==> db.categories == old(db.categories) && db.products == old(db.products))
      && (ServerHw5.IsCategoryWrite(route) ==> db.products == old(db.products))
      && (!ServerHw5.IsRead(route) && !ServerHw5.IsCategoryWrite(route) ==> db.categories == old(db.categories))
  {
    var response, nextCalls := AuthenticateJWT(req, verify);
    if response.Some? {
      return response.value;
    }
    reply := ServerHw5.Handle(db, route, newId);
  }
}
