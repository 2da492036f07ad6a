/**
 * frontend/src/actions/user.ts: the signup schema, the provisional signup request, the
 * activation-mail resend and the classification of the activation response.
 */
module UserActions {
  import opened Wrappers
  import opened Text
  import NextAuth

  // ---------------------------------------------------------------- the signup schema

  datatype SignUpInput = SignUpInput(email: string, password: string, rePassword: string)

  datatype InputField = EmailField | PasswordField | RePasswordField

  /** A zod issue: the field it is reported on and its message. */
  datatype Issue = Issue(path: InputField, message: string)

  const BadEmail := "メールアドレスの形式ではありません"
  const ShortPassword := "8文字以上入力する必要があります"
  const Mismatch := "パスワードが一致しません"

  /**
   * The issues signUpSchema reports, in zod's order: the field checks, then the object refinement.
   * The string checks leave the object parse dirty rather than aborted, so the refinement still runs.
   * zod's e-mail pattern is the predicate `isEmail`.
   */
  function SignUpIssues(input: SignUpInput, isEmail: string -> bool): (r: seq<Issue>)
    ensures (Issue(EmailField, BadEmail) in r) <==> !isEmail(input.email)
    ensures (Issue(PasswordField, ShortPassword) in r) <==> |input.password| < 8
    ensures (Issue(RePasswordField, Mismatch) in r) <==> input.password != input.rePassword
    ensures forall i :: 0 <= i < |r| ==> r[i] in {Issue(EmailField, BadEmail), Issue(PasswordField, ShortPassword),
                                                  Issue(RePasswordField, Mismatch)}
    ensures r != [] && !isEmail(input.email) ==> r[0] == Issue(EmailField, BadEmail)
    ensures |r| <= 3
    ensures forall i, j :: 0 <= i < j < |r| ==> FieldRank(r[i].path) < FieldRank(r[j].path)
  {
    CheckIssues(isEmail(input.email), Issue(EmailField, BadEmail))
    + CheckIssues(|input.password| >= 8, Issue(PasswordField, ShortPassword))
    + CheckIssues(input.password == input.rePassword, Issue(RePasswordField, Mismatch))
  }

  /** The position of a field in the schema: email, then password, then rePassword. */
  function FieldRank(f: InputField): nat
  {
    match f
    case EmailField => 0
    case PasswordField => 1
    case RePasswordField => 2
  }

  /** The issues of one check: none when it passes, its own issue when it fails. */
  function CheckIssues(passes: bool, issue: Issue): seq<Issue>
  {
    if passes then [] else [issue]
  }

  /** The schema accepts exactly a well-formed e-mail, a password of 8 or more characters and a matching repeat. */
  lemma SchemaAcceptsIff(input: SignUpInput, isEmail: string -> bool)
    ensures SignUpIssues(input, isEmail) == [] <==>
      (isEmail(input.email) && |input.password| >= 8 && input.password == input.rePassword)
  {
    if SignUpIssues(input, isEmail) == [] {
      assert Issue(EmailField, BadEmail) !in SignUpIssues(input, isEmail);
    }
  }

  // ---------------------------------------------------------------- action results

  /** The records the actions return: `{ success: true [, alreadyActivated: true] }` or `{ success: false, error }`. */
  datatype Outcome = Succeeded(alreadyActivated: bool) | Failed(error: string)

  /** A reply with its JSON body; `body` None when it does not parse. A rejected fetch is no reply at all. */
  datatype JsonReply = JsonReply(ok: bool, body: Option<NextAuth.JsonObject>)

  /** The JSON body of the provisional signup, with rePassword renamed to re_password. */
  function SignupBody(input: SignUpInput): (body: seq<(string, string)>)
    ensures body == [("email", input.email), ("password", input.password), ("re_password", input.rePassword)]
  {
    [("email", input.email), ("password", input.password), ("re_password", input.rePassword)]
  }

  datatype SignupRequest = SignupRequest(url: string, body: seq<(string, string)>)

  /**
   * The reply read back by `apiRes.json()`. `errorText` is JSON.stringify of the parsed body, kept
   * abstract; `errorText` None means the body did not parse. A rejected fetch is no reply at all.
   */
  datatype SignupReply = SignupReply(ok: bool, errorText: Option<string>)

  const SignupFailed := "サインアップに失敗しました"
  const SignupCrashed := "サインアップ中にエラーが発生しました"

  /**
   * temporarySignup. Validation runs first: an invalid input fails with the first issue's message
   * and no request. A rejected fetch or an unparsable body fails with the generic message; a non-ok
   * reply fails with the stringified body.
   */
  function TemporarySignup(input: SignUpInput, isEmail: string -> bool, apiUrl: Option<string>,
                           backend: SignupRequest -> Option<SignupReply>): (r: Outcome)
    ensures SignUpIssues(input, isEmail) != [] ==> r == Failed(SignUpIssues(input, isEmail)[0].message)
    ensures SignUpIssues(input, isEmail) == [] ==>
      match backend(SignupRequest(Interpolated(apiUrl) + "/api/auth/users/", SignupBody(input)))
      case None => r == Failed(SignupCrashed)
      case Some(reply) =>
        (reply.errorText.None? ==> r == Failed(SignupCrashed))
        && (reply.errorText.Some? && !reply.ok ==>
              r == Failed(if reply.errorText.value != "" then reply.errorText.value else SignupFailed))
        && (reply.errorText.Some? && reply.ok ==> r == Succeeded(false))
  {
    var issues := SignUpIssues(input, isEmail);
    if issues != [] then Failed(issues[0].message)
    else
      match backend(SignupRequest(Interpolated(apiUrl) + "/api/auth/users/", SignupBody(input)))
      case None => Failed(SignupCrashed)
      case Some(reply) =>
        if reply.errorText.None? then Failed(SignupCrashed)
        else if !reply.ok then Failed(if reply.errorText.value != "" then reply.errorText.value else SignupFailed)
        else Succeeded(false)
  }

  /** An invalid input gives the same failure whatever the backend would have said: no request is made. */
  lemma ValidationBeforeRequest(input: SignUpInput, isEmail: string -> bool, a1: Option<string>, a2: Option<string>,
                                b1: SignupRequest -> Option<SignupReply>, b2: SignupRequest -> Option<SignupReply>)
    requires !(isEmail(input.email) && |input.password| >= 8 && input.password == input.rePassword)
    ensures TemporarySignup(input, isEmail, a1, b1) == TemporarySignup(input, isEmail, a2, b2)
    ensures TemporarySignup(input, isEmail, a1, b1).Failed?
  {
    SchemaAcceptsIff(input, isEmail);
  }

  /** A password mismatch alone is reported with the rePassword message. */
  lemma MismatchReported(input: SignUpInput, isEmail: string -> bool, a: Option<string>,
                         b: SignupRequest -> Option<SignupReply>)
    requires isEmail(input.email) && |input.password| >= 8 && input.password != input.rePassword
    ensures TemporarySignup(input, isEmail, a, b) == Failed(Mismatch)
  {
  }

  // ---------------------------------------------------------------- resend

  const ResendFailed := "メールの再送信に失敗しました"
  const ResendCrashed := "メールの再送信中にエラーが発生しました"

  /** `errorData.detail || fallback`. */
  function DetailOr(body: NextAuth.JsonObject, fallback: string): (m: string)
    ensures NextAuth.Present(NextAuth.Member(body, "detail")) ==> m == body["detail"]
    ensures !NextAuth.Present(NextAuth.Member(body, "detail")) ==> m == fallback
  {
    if NextAuth.Present(NextAuth.Member(body, "detail")) then body["detail"] else fallback
  }

  /**
   * resendActivationEmail. The body is read only on a non-ok reply; if it does not parse there, the
   * throw is caught like a rejected fetch.
   */
  function ResendActivationEmail(reply: Option<JsonReply>): (r: Outcome)
    ensures reply.None? ==> r == Failed(ResendCrashed)
    ensures reply.Some? && reply.value.ok ==> r == Succeeded(false)
    ensures reply.Some? && !reply.value.ok && reply.value.body.None? ==> r == Failed(ResendCrashed)
    ensures reply.Some? && !reply.value.ok && reply.value.body.Some? ==>
      r == Failed(DetailOr(reply.value.body.value, ResendFailed))
  {
    match reply
    case None => Failed(ResendCrashed)
    case Some(JsonReply(ok, body)) =>
      if ok then Succeeded(false)
      else if body.None? then Failed(ResendCrashed)
      else Failed(DetailOr(body.value, ResendFailed))
  }

  /** resendActivationEmail never reports alreadyActivated, and succeeds exactly on an ok reply. */
  lemma ResendSucceedsIffOk(reply: Option<JsonReply>)
    ensures ResendActivationEmail(reply).Succeeded? <==> reply.Some? && reply.value.ok
    ensures ResendActivationEmail(reply).Succeeded? ==> !ResendActivationEmail(reply).alreadyActivated
  {
  }

  // ---------------------------------------------------------------- activation

  /** A JSON value as JSON.parse returns it; only an object's string-valued members are kept. */
  datatype Json = JsonNull | JsonObject(members: NextAuth.JsonObject) | OtherJson

  /** The activation reply: status and body text. `ok` is fetch's 200..299 test. */
  datatype TextReply = TextReply(status: int, text: string)

  predicate Ok(status: int)
  {
    200 <= status <= 299
  }

  const ActivationUnparsable := "サーバーからの応答を解析できませんでした"
  const ActivationFailed := "アカウントの有効化に失敗しました"
  const ActivationCrashed := "アカウントの有効化中にエラーが発生しました"

  /** The detail text that marks an account as already active. */
  predicate AlreadyActive(detail: string)
  {
    Contains(Lower(detail), "already activated") || Contains(Lower(detail), "stale token")
  }

  /** `data.detail` of a parsed body; on null reading it throws (None). */
  function Detail(data: Json): Option<Option<string>>
  {
    match data
    case JsonNull => None
    case JsonObject(members) => Some(NextAuth.Member(members, "detail"))
    case OtherJson => Some(None)
  }

  /**
   * completeSignup. JSON.parse is the oracle `parse`. The branches are taken in completeSignup's order:
   * a rejected fetch, status 204, an unparsable body (success when blank), a non-ok status
   * (already active, or the detail or a default message), and then success.
   */
  function CompleteSignup(reply: Option<TextReply>, parse: string -> Option<Json>): (r: Outcome)
    ensures reply.None? ==> r == Failed(ActivationCrashed)
    ensures reply.Some? && reply.value.status == 204 ==> r == Succeeded(false)
    ensures reply.Some? && reply.value.status != 204 && parse(reply.value.text).None? ==>
      r == (if Trim(reply.value.text) == "" then Succeeded(false) else Failed(ActivationUnparsable))
    ensures reply.Some? && reply.value.status != 204 && parse(reply.value.text).Some? && Ok(reply.value.status) ==>
      r == Succeeded(false)
    ensures reply.Some? && reply.value.status != 204 && parse(reply.value.text).Some? && !Ok(reply.value.status) ==>
      match Detail(parse(reply.value.text).value)
      case None => r == Failed(ActivationCrashed)
      case Some(detail) =>
        (NextAuth.Present(detail) && AlreadyActive(detail.value) ==> r == Succeeded(true))
        && (!(NextAuth.Present(detail) && AlreadyActive(detail.value)) ==>
              r == Failed(if NextAuth.Present(detail) then detail.value else ActivationFailed))
  {
    match reply
    case None => Failed(ActivationCrashed)
    case Some(TextReply(status, text)) =>
      if status == 204 then Succeeded(false)
      else
        match parse(text)
        case None => if Trim(text) == "" then Succeeded(false) else Failed(ActivationUnparsable)
        case Some(data) =>
          if Ok(status) then Succeeded(false)
          else
            match Detail(data)
            case None => Failed(ActivationCrashed)
            case Some(detail) =>
              if NextAuth.Present(detail) && AlreadyActive(detail.value) then Succeeded(true)
              else Failed(if NextAuth.Present(detail) then detail.value else ActivationFailed)
  }

  /** A whitespace-only body that does not parse is success whatever the status. */
  lemma BlankBodySucceeds(status: int, text: string, parse: string -> Option<Json>)
    requires AllWhitespace(text) && parse(text).None?
    ensures CompleteSignup(Some(TextReply(status, text)), parse).Succeeded?
  {
    TrimEmptyIff(text);
  }

  /** Only a non-ok status with an "already activated" or "stale token" detail reports alreadyActivated. */
  lemma AlreadyActivatedOnlyFromDetail(status: int, text: string, parse: string -> Option<Json>)
    requires CompleteSignup(Some(TextReply(status, text)), parse) == Succeeded(true)
    ensures status != 204 && !Ok(status)
    ensures parse(text).Some? && parse(text).value.JsonObject?
    ensures "detail" in parse(text).value.members && AlreadyActive(parse(text).value.members["detail"])
  {
  }

  /** The detail test ignores ASCII letter case. */
  lemma AlreadyActiveIgnoresCase(detail: string)
    ensures AlreadyActive(Lower(detail)) == AlreadyActive(detail)
  {
    assert Lower(Lower(detail)) == Lower(detail);
  }
}
