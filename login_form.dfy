/**
 * frontend/src/components/LoginForm: the API-URL effect and the submit handler's error, loading and
 * navigation around next-auth's signIn.
 */
module LoginForm {
  import opened Wrappers
  import SearchParams
  import NextAuth

  const NoApiUrl := "API URLが設定されていません"
  const LoginFailed := "ログインに失敗しました"
  const LoginCrashed := "ログイン中にエラーが発生しました"

  /** What `await signIn('credentials', …)` gives: a rejection, or a result whose `error` may be set. */
  datatype SignInReply = Rejected | Returned(error: Option<string>)

  /** How one submission ends: the error text shown and whether the router pushed "/". */
  datatype Attempt = Attempt(error: string, navigated: bool)

  /** handleSubmit's effect on the error text and the navigation, for the stored API URL and signIn's reply. */
  function Submission(apiUrl: Option<string>, reply: SignInReply): (a: Attempt)
    ensures !SearchParams.Truthy(apiUrl) ==> a == Attempt(NoApiUrl, false)
    ensures SearchParams.Truthy(apiUrl) && reply.Rejected? ==> a == Attempt(LoginCrashed, false)
    ensures SearchParams.Truthy(apiUrl) && reply.Returned? ==>
      a == Attempt(if SearchParams.Truthy(reply.error) then LoginFailed else "", true)
  {
    if !SearchParams.Truthy(apiUrl) then Attempt(NoApiUrl, false)
    else match reply
      case Rejected => Attempt(LoginCrashed, false)
      case Returned(e) => Attempt(if SearchParams.Truthy(e) then LoginFailed else "", true)
  }

  /** The router moves to "/" exactly when signIn was called and returned, whether or not it reports an error. */
  lemma NavigatesIffReturned(apiUrl: Option<string>, reply: SignInReply)
    ensures Submission(apiUrl, reply).navigated <==> SearchParams.Truthy(apiUrl) && reply.Returned?
    ensures Submission(apiUrl, reply).navigated && Submission(apiUrl, reply).error != "" ==>
      Submission(apiUrl, reply).error == LoginFailed
  {
  }

  /** The error text stays empty exactly on a sign-in that returned without an error. */
  lemma NoErrorIffSignedIn(apiUrl: Option<string>, reply: SignInReply)
    ensures Submission(apiUrl, reply).error == "" <==>
      SearchParams.Truthy(apiUrl) && reply.Returned? && !SearchParams.Truthy(reply.error)
  {
  }

  class LoginFormState {
    var email: string
    var password: string
    var error: string
    var isLoading: bool
    var apiUrl: Option<string>
    /** The routes pushed so far, oldest first. */
    var pushed: seq<string>

    constructor ()
      ensures email == "" && password == "" && error == "" && !isLoading && apiUrl.None? && pushed == []
    {
      email := "";
      password := "";
      error := "";
      isLoading := false;
      apiUrl := None;
      pushed := [];
    }

    /** The mount effect: a set, non-empty NEXT_PUBLIC_API_URL is stored; otherwise nothing changes. */
    method LoadApiUrl(env: Option<string>)
      modifies this
      ensures apiUrl == (if SearchParams.Truthy(env) then env else old(apiUrl))
      ensures email == old(email) && password == old(password) && error == old(error)
      ensures isLoading == old(isLoading) && pushed == old(pushed)
    {
      if SearchParams.Truthy(env) {
        apiUrl := env;
      }
    }

    /** The two inputs' onChange. */
    method SetCredentials(newEmail: string, newPassword: string)
      modifies this
      ensures email == newEmail && password == newPassword
      ensures error == old(error) && isLoading == old(isLoading) && apiUrl == old(apiUrl) && pushed == old(pushed)
    {
      email := newEmail;
      password := newPassword;
    }

    /**
     * handleSubmit: clears the error and sets loading, stops at a missing API URL, otherwise signs in
     * with the typed credentials (returned in `signedIn`), and always ends with loading false.
     */
    method HandleSubmit(reply: SignInReply) returns (signedIn: Option<NextAuth.Credentials>)
      modifies this
      ensures signedIn == (if SearchParams.Truthy(apiUrl) then Some(NextAuth.Credentials(Some(email), Some(password))) else None)
      ensures error == Submission(apiUrl, reply).error
      ensures pushed == old(pushed) + (if Submission(apiUrl, reply).navigated then ["/"] else [])
      ensures !isLoading
      ensures email == old(email) && password == old(password) && apiUrl == old(apiUrl)
    {
      error := "";
      isLoading := true;
      if !SearchParams.Truthy(apiUrl) {
        error := NoApiUrl;
        isLoading := false;
        return None;
      }
      signedIn := Some(NextAuth.Credentials(Some(email), Some(password)));
      match reply {
        case Rejected =>
          error := LoginCrashed;
        case Returned(e) =>
          if SearchParams.Truthy(e) {
            error := LoginFailed;
          }
          pushed := pushed + ["/"];
      }
      isLoading := false;
    }
  }
}
