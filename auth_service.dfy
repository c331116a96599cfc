/** Sign-in through the identity provider: the authorization redirect, and
    the callback that exchanges the code, looks the account up by e-mail,
    stores the token pair and issues a session token.  The provider's two
    endpoints are given as functions from the request to its answer. */
module AuthService {
  import opened Wrappers
  import opened Models
  import opened Http

  const CalendarScope := "https://www.googleapis.com/auth/calendar"
  const EmailScope := "https://www.googleapis.com/auth/userinfo.email"
  const ProfileScope := "https://www.googleapis.com/auth/userinfo.profile"
  const SessionExpiry := "1d"

  const AuthFailedMessage := "Authentication failed"
  const NoCodeMessage := "Authorization code not provided by Google."
  const NoAccessTokenMessage := "Failed to obtain access token from Google."
  const NoUserInfoMessage := "Failed to retrieve user information from Google."
  /** The message of the schema's `required` check on `name`. */
  const NameRequiredMessage := "User validation failed: name: Path `name` is required."

  /** The token set of a code exchange; every member may be missing. */
  datatype Tokens = Tokens(accessToken: Option<string>, refreshToken: Option<string>, idToken: Option<string>)

  /** The answer to a code exchange: an error, or a response whose token
      set may be missing. */
  datatype TokenExchange = ExchangeRejected(message: string) | Exchanged(tokens: Option<Tokens>)

  datatype UserInfo = UserInfo(email: Option<string>, name: Option<string>)

  /** The answer to the user-info request: an error, or a response whose
      data may be missing. */
  datatype UserInfoAnswer = UserInfoRejected(message: string) | UserInfoFetched(data: Option<UserInfo>)

  /** A request the callback sends to the provider. */
  datatype ProviderCall = TokenRequest(code: string) | UserInfoRequest(accessToken: string)

  /** What the callback has learnt once all three checks pass. */
  datatype Login = Login(tokens: Tokens, email: string, name: Option<string>)

  /** The response to `GET /auth/google`: a redirect to the provider,
      asking for a refresh token (offline access, consent forced) and for
      exactly the calendar, e-mail and profile scopes. */
  function GoogleAuth(): (r: Response)
    ensures r.Response? && r.status == 302 && r.body.RedirectTo?
    ensures r.body.url.accessType == "offline" && r.body.url.prompt == "consent"
    ensures r.body.url.scope == [
      "https://www.googleapis.com/auth/calendar",
      "https://www.googleapis.com/auth/userinfo.email",
      "https://www.googleapis.com/auth/userinfo.profile"]
  {
    Response(302, RedirectTo(AuthUrlRequest("offline", [CalendarScope, EmailScope, ProfileScope], "consent")))
  }

  function AuthFailure(message: string): Response {
    Response(500, AuthErrorJson(AuthFailedMessage, message))
  }

  function SignedIn(id: UserId): Response {
    Response(200, TokenJson(SessionToken(id, SessionExpiry)))
  }

  /** The callback's three checks, in the order it makes them, with the
      provider answers it would receive along the way. */
  function CheckLogin(code: Option<string>, exchange: string -> TokenExchange, userInfo: string -> UserInfoAnswer)
    : (r: Result<Login, string>)
    ensures !Truthy(code) ==> r == Failure(NoCodeMessage)
    ensures Truthy(code) && exchange(code.value).ExchangeRejected? ==>
      r == Failure(exchange(code.value).message)
    ensures Truthy(code) && exchange(code.value).Exchanged? ==>
      var t := exchange(code.value).tokens;
      (t.None? || !Truthy(t.value.accessToken)) ==> r == Failure(NoAccessTokenMessage)
    ensures Truthy(code) && exchange(code.value).Exchanged? && exchange(code.value).tokens.Some?
            && Truthy(exchange(code.value).tokens.value.accessToken) ==>
      var t := exchange(code.value).tokens.value;
      var info := userInfo(t.accessToken.value);
      && (info.UserInfoRejected? ==> r == Failure(info.message))
      && (info.UserInfoFetched? && (info.data.None? || !Truthy(info.data.value.email)) ==>
            r == Failure(NoUserInfoMessage))
      && (info.UserInfoFetched? && info.data.Some? && Truthy(info.data.value.email) ==>
            r == Success(Login(t, info.data.value.email.value, info.data.value.name)))
    ensures r.Success? ==>
      && Truthy(code)
      && exchange(code.value) == Exchanged(Some(r.value.tokens))
      && Truthy(r.value.tokens.accessToken)
      && r.value.email != ""
      && userInfo(r.value.tokens.accessToken.value)
         == UserInfoFetched(Some(UserInfo(Some(r.value.email), r.value.name)))
  {
    if !Truthy(code) then Failure(NoCodeMessage)
    else match exchange(code.value)
      case ExchangeRejected(m) => Failure(m)
      case Exchanged(t) =>
        if t.None? || !Truthy(t.value.accessToken) then Failure(NoAccessTokenMessage)
        else match userInfo(t.value.accessToken.value)
          case UserInfoRejected(m) => Failure(m)
          case UserInfoFetched(d) =>
            if d.None? || !Truthy(d.value.email) then Failure(NoUserInfoMessage)
            else Success(Login(t.value, d.value.email.value, d.value.name))
  }

  /** An access token that passes the check, and user info without an
      e-mail address, fail with the user-info message. */
  lemma NoEmailFails(code: Option<string>, exchange: string -> TokenExchange, userInfo: string -> UserInfoAnswer)
    requires Truthy(code) && exchange(code.value).Exchanged?
    requires exchange(code.value).tokens.Some? && Truthy(exchange(code.value).tokens.value.accessToken)
    requires var info := userInfo(exchange(code.value).tokens.value.accessToken.value);
      info.UserInfoFetched? && (info.data.None? || !Truthy(info.data.value.email))
    ensures CheckLogin(code, exchange, userInfo) == Failure(NoUserInfoMessage)
  {
  }

  /** The requests the callback sends: none without a code, the code
      exchange, and the user-info request only with an access token. */
  function ProviderCalls(code: Option<string>, exchange: string -> TokenExchange): (r: seq<ProviderCall>)
    ensures !Truthy(code) ==> r == []
    ensures Truthy(code) ==> 1 <= |r| <= 2 && r[0] == TokenRequest(code.value)
    ensures |r| == 2 ==> r[1].UserInfoRequest? && Truthy(Some(r[1].accessToken))
    ensures |r| == 2 <==>
      && Truthy(code) && exchange(code.value).Exchanged? && exchange(code.value).tokens.Some?
      && Truthy(exchange(code.value).tokens.value.accessToken)
    ensures |r| == 2 ==> r[1] == UserInfoRequest(exchange(code.value).tokens.value.accessToken.value)
  {
    if !Truthy(code) then []
    else
      var ex := exchange(code.value);
      if ex.Exchanged? && ex.tokens.Some? && Truthy(ex.tokens.value.accessToken) then
        [TokenRequest(code.value), UserInfoRequest(ex.tokens.value.accessToken.value)]
      else
        [TokenRequest(code.value)]
  }

  /** A known account after sign-in: only the token pair changes, and a
      token the provider left out is stored as `''`. */
  function Refreshed(u: User, t: Tokens): (r: User)
    ensures r.email == u.email && r.name == u.name && r.googleId == u.googleId
    ensures r.accessToken == Some(OrEmpty(t.accessToken))
    ensures r.refreshToken == Some(OrEmpty(t.refreshToken))
    ensures t.refreshToken.None? ==> r.refreshToken == Some("")
  {
    u.(accessToken := Some(OrEmpty(t.accessToken)), refreshToken := Some(OrEmpty(t.refreshToken)))
  }

  /** A new account: missing tokens stay missing. */
  function NewUser(login: Login): (r: User)
    requires Truthy(login.name)
    ensures r.email == login.email && Some(r.name) == login.name
    ensures r.googleId == login.tokens.idToken
    ensures r.accessToken == login.tokens.accessToken && r.refreshToken == login.tokens.refreshToken
  {
    User(login.email, login.name.value, login.tokens.idToken, login.tokens.accessToken, login.tokens.refreshToken)
  }

  /** `GET /auth/google/callback?code=...`. */
  method GoogleAuthCallback(db: Database, code: Option<string>,
                            exchange: string -> TokenExchange, userInfo: string -> UserInfoAnswer)
    returns (res: Response, calls: seq<ProviderCall>)
    requires db.Valid()
    modifies db`users, db`nextUserId
    ensures db.Valid()
    ensures calls == ProviderCalls(code, exchange)
    ensures CheckLogin(code, exchange, userInfo).Failure? ==>
      && res == AuthFailure(CheckLogin(code, exchange, userInfo).error)
      && db.users == old(db.users) && db.nextUserId == old(db.nextUserId)
    ensures CheckLogin(code, exchange, userInfo).Success? ==>
      var login := CheckLogin(code, exchange, userInfo).value;
      var owner := FindByEmail(old(db.users), login.email);
      && (owner.Some? ==>
            && db.users == old(db.users)[owner.value := Refreshed(old(db.users)[owner.value], login.tokens)]
            && db.nextUserId == old(db.nextUserId)
            && res == SignedIn(owner.value))
      && (owner.None? && !Truthy(login.name) ==>
            && res == AuthFailure(NameRequiredMessage)
            && db.users == old(db.users) && db.nextUserId == old(db.nextUserId))
      && (owner.None? && Truthy(login.name) ==>
            var id := old(db.nextUserId);
            && id !in old(db.users)
            && db.users == old(db.users)[id := NewUser(login)]
            && db.nextUserId == id + 1
            && res == SignedIn(id))
  {
    calls := [];
    if !Truthy(code) {
      res := AuthFailure(NoCodeMessage);
      return;
    }
    calls := calls + [TokenRequest(code.value)];
    var exchanged := exchange(code.value);
    if exchanged.ExchangeRejected? {
      res := AuthFailure(exchanged.message);
      return;
    }
    var tokens := exchanged.tokens;
    if tokens.None? || !Truthy(tokens.value.accessToken) {
      res := AuthFailure(NoAccessTokenMessage);
      return;
    }
    var accessToken := tokens.value.accessToken.value;
    calls := calls + [UserInfoRequest(accessToken)];
    var info := userInfo(accessToken);
    if info.UserInfoRejected? {
      res := AuthFailure(info.message);
      return;
    }
    if info.data.None? || !Truthy(info.data.value.email) {
      res := AuthFailure(NoUserInfoMessage);
      return;
    }
    var email := info.data.value.email.value;
    var name := info.data.value.name;

    var found: Option<UserId> := None;
    if exists id :: id in db.users && db.users[id].email == email {
      var id :| id in db.users && db.users[id].email == email;
      found := Some(id);
    }
    ghost var login := Login(tokens.value, email, name);
    assert CheckLogin(code, exchange, userInfo) == Success(login);
    assert found == FindByEmail(db.users, email);

    if found.None? {
      if !Truthy(name) {
        res := AuthFailure(NameRequiredMessage);
        return;
      }
      var id := db.nextUserId;
      var user := User(email, name.value, tokens.value.idToken, tokens.value.accessToken, tokens.value.refreshToken);
      db.users := db.users[id := user];
      db.nextUserId := id + 1;
      res := SignedIn(id);
    } else {
      var id := found.value;
      var user := db.users[id];
      user := user.(accessToken := Some(OrEmpty(tokens.value.accessToken)),
                    refreshToken := Some(OrEmpty(tokens.value.refreshToken)));
      db.users := db.users[id := user];
      res := SignedIn(id);
    }
  }
}
