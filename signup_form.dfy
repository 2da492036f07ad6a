/**
 * frontend/src/components/SignUpForm: the client-side schema, the terms-agreement gate, and the
 * loading / completion flags and toasts around the provisional signup.
 */
module SignUpForm {
  import opened Wrappers
  import opened UserActions

  /** A react-hot-toast notification. */
  datatype Toast = ErrorToast(message: string) | SuccessToast(message: string)

  const AgreeFirst := "利用規約に同意してください"
  const ResendDone := "本登録メールを再送しました"

  /**
   * The message shown under one input: react-hook-form's zod resolver keeps the first issue whose
   * path is that field. The form's schema is the same as the signup action's.
   */
  function FieldError(issues: seq<Issue>, field: InputField): (m: Option<string>)
    ensures m.None? <==> forall i :: 0 <= i < |issues| ==> issues[i].path != field
    ensures m.Some? ==> exists i :: 0 <= i < |issues| && issues[i] == Issue(field, m.value)
    decreases |issues|
  {
    if issues == [] then None
    else if issues[0].path == field then Some(issues[0].message)
    else
      var m := FieldError(issues[1..], field);
      assert forall i :: 1 <= i < |issues| ==> issues[1..][i - 1] == issues[i];
      m
  }

  /** The first issue for a field comes from the front part when it has one there. */
  lemma {:induction false} FieldErrorAppend(a: seq<Issue>, b: seq<Issue>, field: InputField)
    ensures FieldError(a + b, field) == if FieldError(a, field).Some? then FieldError(a, field) else FieldError(b, field)
    decreases |a|
  {
    if a == [] {
      assert a + b == b;
    } else {
      assert (a + b)[1..] == a[1..] + b;
      FieldErrorAppend(a[1..], b, field);
    }
  }

  /** The first issue for a field among three consecutive lists. */
  lemma FieldErrorOfThree(e: seq<Issue>, p: seq<Issue>, r: seq<Issue>, field: InputField)
    ensures FieldError(e + p + r, field) ==
      if FieldError(e, field).Some? then FieldError(e, field)
      else if FieldError(p, field).Some? then FieldError(p, field)
      else FieldError(r, field)
  {
    FieldErrorAppend(e, p, field);
    FieldErrorAppend(e + p, r, field);
  }

  /** A passing check puts nothing under any field; a failing one puts its message under its own field. */
  lemma CheckIssuesError(passes: bool, issue: Issue, field: InputField)
    ensures FieldError(CheckIssues(passes, issue), field) ==
      if !passes && issue.path == field then Some(issue.message) else None
  {
    if !passes {
      assert [issue][1..] == [];
    }
  }

  /** Each input shows exactly its own check's message, and the mismatch shows under the repeat field. */
  lemma FieldErrorsShown(input: SignUpInput, isEmail: string -> bool)
    ensures FieldError(SignUpIssues(input, isEmail), EmailField) ==
      (if isEmail(input.email) then None else Some(BadEmail))
    ensures FieldError(SignUpIssues(input, isEmail), PasswordField) ==
      (if |input.password| >= 8 then None else Some(ShortPassword))
    ensures FieldError(SignUpIssues(input, isEmail), RePasswordField) ==
      (if input.password == input.rePassword then None else Some(Mismatch))
  {
    var e := CheckIssues(isEmail(input.email), Issue(EmailField, BadEmail));
    var p := CheckIssues(|input.password| >= 8, Issue(PasswordField, ShortPassword));
    var r := CheckIssues(input.password == input.rePassword, Issue(RePasswordField, Mismatch));
    FieldErrorOfThree(e, p, r, EmailField);
    FieldErrorOfThree(e, p, r, PasswordField);
    FieldErrorOfThree(e, p, r, RePasswordField);
    CheckIssuesError(isEmail(input.email), Issue(EmailField, BadEmail), EmailField);
    CheckIssuesError(isEmail(input.email), Issue(EmailField, BadEmail), PasswordField);
    CheckIssuesError(isEmail(input.email), Issue(EmailField, BadEmail), RePasswordField);
    CheckIssuesError(|input.password| >= 8, Issue(PasswordField, ShortPassword), PasswordField);
    CheckIssuesError(|input.password| >= 8, Issue(PasswordField, ShortPassword), RePasswordField);
    CheckIssuesError(input.password == input.rePassword, Issue(RePasswordField, Mismatch), RePasswordField);
  }

  /**
   * The toast a finished signup attempt shows: none on success, otherwise the action's error, or the
   * generic failure when that error is empty or the server action itself was not reached.
   */
  function FailureToast(outcome: Option<Outcome>): (t: Option<Toast>)
    ensures t.None? <==> outcome.Some? && outcome.value.Succeeded?
    ensures t.Some? ==> t.value.ErrorToast? && t.value.message != ""
    ensures outcome.Some? && outcome.value.Failed? && outcome.value.error != "" ==>
      t == Some(ErrorToast(outcome.value.error))
  {
    match outcome
    case None => Some(ErrorToast(SignupFailed))
    case Some(Succeeded(_)) => None
    case Some(Failed(e)) => Some(ErrorToast(if e != "" then e else SignupFailed))
  }

  /** The toast of a resend: a success notice, or the action's error or the generic one. */
  function ResendToast(outcome: Outcome): (t: Toast)
    ensures t.SuccessToast? <==> outcome.Succeeded?
    ensures t.message != ""
  {
    match outcome
    case Succeeded(_) => SuccessToast(ResendDone)
    case Failed(e) => ErrorToast(if e != "" then e else ResendFailed)
  }

  class SignUpFormState {
    var isLoading: bool
    var isSignUp: bool
    var isAgreed: bool
    /** The issues the inputs currently show. */
    var errors: seq<Issue>
    /** Every toast shown so far, oldest first. */
    var toasts: seq<Toast>

    constructor ()
      ensures !isLoading && !isSignUp && !isAgreed && errors == [] && toasts == []
    {
      isLoading := false;
      isSignUp := false;
      isAgreed := false;
      errors := [];
      toasts := [];
    }

    /** The terms checkbox. */
    method SetAgreed(agreed: bool)
      modifies this
      ensures isAgreed == agreed
      ensures isLoading == old(isLoading) && isSignUp == old(isSignUp) && errors == old(errors) && toasts == old(toasts)
    {
      isAgreed := agreed;
    }

    /**
     * handleSubmit(onSubmit). The resolver runs first: with issues the inputs show them and onSubmit
     * is not called. Without agreement a toast is shown and nothing else happens. Otherwise the
     * signup action runs (`reached` false: the call to it rejected); a failure shows a toast, a
     * success opens the completion modal, and loading ends false either way. `called` says whether
     * temporarySignup was invoked.
     */
    method HandleSubmit(input: SignUpInput, isEmail: string -> bool, apiUrl: Option<string>,
                        backend: SignupRequest -> Option<SignupReply>, reached: bool)
      returns (called: bool)
      modifies this
      ensures isAgreed == old(isAgreed)
      ensures errors == SignUpIssues(input, isEmail)
      ensures called <==> SignUpIssues(input, isEmail) == [] && isAgreed
      ensures SignUpIssues(input, isEmail) != [] ==>
        isLoading == old(isLoading) && isSignUp == old(isSignUp) && toasts == old(toasts)
      ensures SignUpIssues(input, isEmail) == [] && !isAgreed ==>
        isLoading == old(isLoading) && isSignUp == old(isSignUp) && toasts == old(toasts) + [ErrorToast(AgreeFirst)]
      ensures called ==> !isLoading
      ensures called ==>
        var outcome := if reached then Some(TemporarySignup(input, isEmail, apiUrl, backend)) else None;
        isSignUp == (old(isSignUp) || FailureToast(outcome).None?)
        && toasts == old(toasts) + (if FailureToast(outcome).Some? then [FailureToast(outcome).value] else [])
    {
      var issues := SignUpIssues(input, isEmail);
      errors := issues;
      if issues != [] {
        return false;
      }
      if !isAgreed {
        toasts := toasts + [ErrorToast(AgreeFirst)];
        return false;
      }
      isLoading := true;
      var outcome := if reached then Some(TemporarySignup(input, isEmail, apiUrl, backend)) else None;
      var toast := FailureToast(outcome);
      if toast.Some? {
        toasts := toasts + [toast.value];
      } else {
        isSignUp := true;
      }
      isLoading := false;
      return true;
    }

    /**
     * handleResendEmail: `emailInput` is the value of the element with id 'email', None when no
     * such element exists, so that reading `.value` throws before anything is sent and no toast
     * appears. Otherwise `reply` answers the resend for that address and its outcome is reported.
     */
    method HandleResendEmail(emailInput: Option<string>, reply: Option<JsonReply>)
      modifies this
      ensures emailInput.None? ==> unchanged(this)
      ensures emailInput.Some? ==> toasts == old(toasts) + [ResendToast(ResendActivationEmail(reply))]
      ensures isLoading == old(isLoading) && isSignUp == old(isSignUp) && isAgreed == old(isAgreed) && errors == old(errors)
    {
      if emailInput.None? {
        return;
      }
      toasts := toasts + [ResendToast(ResendActivationEmail(reply))];
    }
  }
}
