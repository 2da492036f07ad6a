/**
 * frontend/lib/nextauth.ts: the fetch helper, access-token verification and refresh, the
 * credentials `authorize` step, and the `jwt` and `session` callbacks. Every backend call is an
 * oracle: the backend is a function from the request sent to the reply received.
 */
module NextAuth {
  import opened Wrappers
  import opened Text

  /** A parsed JSON object, restricted to its string-valued members. */
  type JsonObject = map<string, string>

  /** `obj.key`: undefined when the member is missing. */
  function Member(o: JsonObject, key: string): (r: Option<string>)
    ensures r.Some? <==> key in o
    ensures r.Some? ==> r.value == o[key]
  {
    if key in o then Some(o[key]) else None
  }

  /** An optional text is truthy when it is defined and non-empty. */
  predicate Present(s: Option<string>)
  {
    s.Some? && s.value != ""
  }

  /** The request as fetch sends it: full URL, method, optional bearer header and JSON body. */
  datatype ApiRequest = ApiRequest(url: string, httpMethod: string, authorization: Option<string>, body: JsonObject)

  /** The outcome of fetch: a rejected promise, or a response whose JSON body may fail to parse. */
  datatype Reply = NetworkError | Answered(ok: bool, status: int, body: Option<JsonObject>)

  type Backend = ApiRequest -> Reply

  datatype ApiError = NoApiUrl | Unreachable | HttpError(status: int) | Unparsable

  /** The messages of the errors fetchAPI throws itself. */
  function ApiErrorMessage(e: ApiError): (m: Option<string>)
    ensures e.NoApiUrl? ==> m == Some("API URLが設定されていません")
    ensures e.HttpError? ==> m == Some("APIでエラーが発生しました: " + IntToString(e.status))
    ensures (e.Unreachable? || e.Unparsable?) <==> m.None?
  {
    match e
    case NoApiUrl => Some("API URLが設定されていません")
    case HttpError(status) => Some("APIでエラーが発生しました: " + IntToString(status))
    case _ => None
  }

  /** fetchAPI: the path is appended to NEXT_PUBLIC_API_URL. */
  function FetchApi(apiUrl: Option<string>, backend: Backend, path: string, httpMethod: string,
                    authorization: Option<string>, body: JsonObject): (r: Result<JsonObject, ApiError>)
    ensures !Present(apiUrl) ==> r == Failure(NoApiUrl)
    ensures Present(apiUrl) ==>
      match backend(ApiRequest(apiUrl.value + path, httpMethod, authorization, body))
      case NetworkError => r == Failure(Unreachable)
      case Answered(ok, status, parsed) =>
        (!ok ==> r == Failure(HttpError(status)))
        && (ok && parsed.None? ==> r == Failure(Unparsable))
        && (ok && parsed.Some? ==> r == Success(parsed.value))
  {
    if !Present(apiUrl) then Failure(NoApiUrl)
    else
      match backend(ApiRequest(apiUrl.value + path, httpMethod, authorization, body))
      case NetworkError => Failure(Unreachable)
      case Answered(ok, status, parsed) =>
        if !ok then Failure(HttpError(status))
        else if parsed.None? then Failure(Unparsable)
        else Success(parsed.value)
  }

  /** Without an API URL fetchAPI fails the same way whatever the backend would have answered. */
  lemma NoApiUrlBeforeRequest(apiUrl: Option<string>, b1: Backend, b2: Backend, path: string, m: string,
                              a: Option<string>, body: JsonObject)
    requires !Present(apiUrl)
    ensures FetchApi(apiUrl, b1, path, m, a, body) == FetchApi(apiUrl, b2, path, m, a, body) == Failure(NoApiUrl)
  {
  }

  /** A reply that is not ok always makes fetchAPI fail, whatever its body. */
  lemma NotOkFails(apiUrl: Option<string>, backend: Backend, path: string, m: string, a: Option<string>, body: JsonObject)
    requires Present(apiUrl)
    requires backend(ApiRequest(apiUrl.value + path, m, a, body)).Answered?
    requires !backend(ApiRequest(apiUrl.value + path, m, a, body)).ok
    ensures FetchApi(apiUrl, backend, path, m, a, body).Failure?
    ensures FetchApi(apiUrl, backend, path, m, a, body).error.HttpError?
  {
  }

  // ---------------------------------------------------------------- tokens

  /** UserType: the profile carried in the token and the session. */
  datatype Profile = Profile(uid: Option<string>, name: Option<string>, email: Option<string>,
                             avatar: Option<string>, introduction: Option<string>)

  /** The NextAuth User returned by authorize: the profile plus both JWTs. */
  datatype User = User(access: Option<string>, refresh: Option<string>, uid: Option<string>, name: Option<string>,
                       email: Option<string>, avatar: Option<string>, introduction: Option<string>)

  /** The JWT record as a value. */
  datatype Jwt = Jwt(accessToken: Option<string>, refreshToken: Option<string>, user: Option<Profile>,
                     error: Option<string>)

  function VerifyBody(token: string): JsonObject
  {
    map["token" := token]
  }

  /** verifyAccessToken: true exactly when the verify request succeeds; every error is false. */
  function VerifyAccessToken(apiUrl: Option<string>, backend: Backend, token: string): (valid: bool)
    ensures valid <==> FetchApi(apiUrl, backend, "/api/auth/jwt/verify/", "POST", None, VerifyBody(token)).Success?
    ensures !Present(apiUrl) ==> !valid
  {
    FetchApi(apiUrl, backend, "/api/auth/jwt/verify/", "POST", None, VerifyBody(token)).Success?
  }

  /** `JSON.stringify({ refresh })`: an undefined member is left out of the text. */
  function RefreshBody(refresh: Option<string>): (body: JsonObject)
    ensures refresh.Some? <==> "refresh" in body
    ensures refresh.Some? ==> body == map["refresh" := refresh.value]
    ensures refresh.None? ==> body == map[]
  {
    if refresh.Some? then map["refresh" := refresh.value] else map[]
  }

  const RefreshError := "RefreshAccessTokenError"

  /**
   * refreshAccessToken. It never throws: a successful refresh replaces only accessToken (with the
   * reply's `access`, undefined when missing), and any failure keeps every field and sets `error`.
   */
  function RefreshAccessToken(apiUrl: Option<string>, backend: Backend, token: Jwt): (r: Jwt)
    ensures FetchApi(apiUrl, backend, "/api/auth/jwt/refresh/", "POST", None, RefreshBody(token.refreshToken)).Success? ==>
      r == token.(accessToken :=
        Member(FetchApi(apiUrl, backend, "/api/auth/jwt/refresh/", "POST", None, RefreshBody(token.refreshToken)).value, "access"))
    ensures FetchApi(apiUrl, backend, "/api/auth/jwt/refresh/", "POST", None, RefreshBody(token.refreshToken)).Failure? ==>
      r == token.(error := Some(RefreshError))
    ensures r.refreshToken == token.refreshToken && r.user == token.user
  {
    match FetchApi(apiUrl, backend, "/api/auth/jwt/refresh/", "POST", None, RefreshBody(token.refreshToken))
    case Success(reply) => token.(accessToken := Member(reply, "access"))
    case Failure(_) => token.(error := Some(RefreshError))
  }

  /** The `jwt` callback as a function of the incoming token: the value NextAuth writes back. */
  function JwtResult(apiUrl: Option<string>, backend: Backend, token: Jwt, user: Option<User>): (r: Jwt)
    ensures user.Some? ==> r == SignedIn(token, user.value)
    ensures user.None? && Present(token.accessToken) && !VerifyAccessToken(apiUrl, backend, token.accessToken.value) ==>
      r == RefreshAccessToken(apiUrl, backend, token)
    ensures user.None? && !(Present(token.accessToken) && !VerifyAccessToken(apiUrl, backend, token.accessToken.value)) ==>
      r == token
  {
    if user.Some? then SignedIn(token, user.value)
    else if Present(token.accessToken) && !VerifyAccessToken(apiUrl, backend, token.accessToken.value) then
      RefreshAccessToken(apiUrl, backend, token)
    else token
  }

  /** The sign-in branch: both JWTs and the five profile fields copied from the user. */
  function SignedIn(token: Jwt, user: User): (r: Jwt)
    ensures r.accessToken == user.access && r.refreshToken == user.refresh
    ensures r.user == Some(Profile(user.uid, user.name, user.email, user.avatar, user.introduction))
    ensures r.error == token.error
  {
    token.(accessToken := user.access, refreshToken := user.refresh,
           user := Some(Profile(user.uid, user.name, user.email, user.avatar, user.introduction)))
  }

  /** On sign-in the backend is not consulted: the result is the same whatever it would answer. */
  lemma SignInMakesNoRequest(api1: Option<string>, b1: Backend, api2: Option<string>, b2: Backend, token: Jwt, user: User)
    ensures JwtResult(api1, b1, token, Some(user)) == JwtResult(api2, b2, token, Some(user))
  {
  }

  /** A token that still verifies, or has no access token, comes back unchanged. */
  lemma ValidTokenUnchanged(apiUrl: Option<string>, backend: Backend, token: Jwt)
    requires !Present(token.accessToken) || VerifyAccessToken(apiUrl, backend, token.accessToken.value)
    ensures JwtResult(apiUrl, backend, token, None) == token
  {
  }

  /** After a failed verification the refresh token, the profile and every other field survive. */
  lemma RefreshKeepsIdentity(apiUrl: Option<string>, backend: Backend, token: Jwt)
    requires Present(token.accessToken) && !VerifyAccessToken(apiUrl, backend, token.accessToken.value)
    ensures JwtResult(apiUrl, backend, token, None).refreshToken == token.refreshToken
    ensures JwtResult(apiUrl, backend, token, None).user == token.user
    ensures var r := JwtResult(apiUrl, backend, token, None);
      r.error == token.error || r == token.(error := Some(RefreshError))
  {
  }

  /** The token object the `jwt` callback receives and, on sign-in, assigns in place. */
  class Token {
    var accessToken: Option<string>
    var refreshToken: Option<string>
    var user: Option<Profile>
    var error: Option<string>

    constructor (value: Jwt)
      ensures Value() == value
    {
      accessToken := value.accessToken;
      refreshToken := value.refreshToken;
      user := value.user;
      error := value.error;
    }

    function Value(): (v: Jwt)
      reads this
      ensures v.accessToken == accessToken && v.refreshToken == refreshToken
      ensures v.user == user && v.error == error
    {
      Jwt(accessToken, refreshToken, user, error)
    }

    /**
     * The `jwt` callback. With a user it assigns the three fields and returns this token; on a
     * failed verification it returns the refresh result, a copy, leaving this token as it was.
     */
    method JwtCallback(apiUrl: Option<string>, backend: Backend, user: Option<User>) returns (r: Jwt)
      modifies this
      ensures r == JwtResult(apiUrl, backend, old(Value()), user)
      ensures user.Some? ==> Value() == r
      ensures user.None? ==> unchanged(this)
    {
      if user.Some? {
        var u := user.value;
        accessToken := u.access;
        refreshToken := u.refresh;
        this.user := Some(Profile(u.uid, u.name, u.email, u.avatar, u.introduction));
      } else if Present(accessToken) {
        var valid := VerifyAccessToken(apiUrl, backend, accessToken.value);
        if !valid {
          r := RefreshAccessToken(apiUrl, backend, Value());
          return;
        }
      }
      r := Value();
    }
  }

  // ---------------------------------------------------------------- authorize

  datatype Credentials = Credentials(email: Option<string>, password: Option<string>)

  /** authorize either throws (with its message) or resolves to a user or to null. */
  datatype AuthorizeOutcome = Thrown(message: string) | Resolved(user: Option<User>)

  const MissingCredentials := "メールアドレスとパスワードを入力してください"

  function CreateBody(email: string, password: string): JsonObject
  {
    map["email" := email, "password" := password]
  }

  /** The header `Bearer ${auth.access}`: a missing access token is sent as the text "undefined". */
  function Bearer(access: Option<string>): (h: string)
    ensures StartsWith(h, "Bearer ")
    ensures h[|"Bearer "|..] == Interpolated(access)
    ensures access.None? ==> h == "Bearer undefined"
  {
    "Bearer " + Interpolated(access)
  }

  /** authorizeUser: create the JWT pair, then read the profile with it; any failure is None. */
  function AuthorizeUser(apiUrl: Option<string>, backend: Backend, email: string, password: string): (r: Option<User>)
    ensures var auth := FetchApi(apiUrl, backend, "/api/auth/jwt/create/", "POST", None, CreateBody(email, password));
      r.Some? <==> (auth.Success?
        && FetchApi(apiUrl, backend, "/api/auth/users/me/", "GET", Some(Bearer(Member(auth.value, "access"))), map[]).Success?)
    ensures r.Some? ==>
      var auth := FetchApi(apiUrl, backend, "/api/auth/jwt/create/", "POST", None, CreateBody(email, password)).value;
      var me := FetchApi(apiUrl, backend, "/api/auth/users/me/", "GET", Some(Bearer(Member(auth, "access"))), map[]).value;
      r.value == User(Member(auth, "access"), Member(auth, "refresh"), Member(me, "uid"), Member(me, "name"),
                      Member(me, "email"), Member(me, "avatar"), Member(me, "introduction"))
  {
    match FetchApi(apiUrl, backend, "/api/auth/jwt/create/", "POST", None, CreateBody(email, password))
    case Failure(_) => None
    case Success(auth) =>
      match FetchApi(apiUrl, backend, "/api/auth/users/me/", "GET", Some(Bearer(Member(auth, "access"))), map[])
      case Failure(_) => None
      case Success(me) =>
        Some(User(Member(auth, "access"), Member(auth, "refresh"), Member(me, "uid"), Member(me, "name"),
                  Member(me, "email"), Member(me, "avatar"), Member(me, "introduction")))
  }

  /** authorize: missing email or password throws before any request; backend failures resolve to null. */
  function Authorize(apiUrl: Option<string>, backend: Backend, credentials: Option<Credentials>): (r: AuthorizeOutcome)
    ensures r.Thrown? <==> credentials.None? || !Present(credentials.value.email) || !Present(credentials.value.password)
    ensures r.Thrown? ==> r.message == MissingCredentials
    ensures r.Resolved? ==> r.user == AuthorizeUser(apiUrl, backend, credentials.value.email.value, credentials.value.password.value)
  {
    if credentials.None? || !Present(credentials.value.email) || !Present(credentials.value.password) then
      Thrown(MissingCredentials)
    else Resolved(AuthorizeUser(apiUrl, backend, credentials.value.email.value, credentials.value.password.value))
  }

  /** A failing backend makes authorize resolve to null instead of throwing. */
  lemma AuthorizeFailureIsNull(apiUrl: Option<string>, backend: Backend, email: string, password: string)
    requires email != "" && password != ""
    requires FetchApi(apiUrl, backend, "/api/auth/jwt/create/", "POST", None, CreateBody(email, password)).Failure?
    ensures Authorize(apiUrl, backend, Some(Credentials(Some(email), Some(password)))) == Resolved(None)
  {
  }

  // ---------------------------------------------------------------- session

  /** The session object the `session` callback fills in place. */
  class Session {
    var accessToken: Option<string>
    var user: Option<Profile>

    constructor ()
      ensures accessToken.None? && user.None?
    {
      accessToken := None;
      user := None;
    }

    /** The `session` callback: copies accessToken and user from the token. */
    method SessionCallback(token: Jwt)
      modifies this
      ensures accessToken == token.accessToken && user == token.user
    {
      accessToken := token.accessToken;
      user := token.user;
    }
  }

  /** The session as getServerSession returns it. */
  datatype SessionValue = SessionValue(accessToken: Option<string>, user: Option<Profile>)

  /** getAuthSession: null without a session or without a truthy access token, else the session's user. */
  function GetAuthSession(session: Option<SessionValue>): (r: Option<Option<Profile>>)
    ensures r.None? <==> session.None? || !Present(session.value.accessToken)
    ensures r.Some? ==> r.value == session.value.user
  {
    if session.None? || !Present(session.value.accessToken) then None else Some(session.value.user)
  }

  /** A session filled from a token yields the token's user exactly when the token has an access token. */
  lemma SessionFromToken(token: Jwt)
    ensures GetAuthSession(Some(SessionValue(token.accessToken, token.user))) ==
      (if Present(token.accessToken) then Some(token.user) else None)
  {
  }
}
