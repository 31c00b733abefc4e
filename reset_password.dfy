/** The reset-password form: the password rule and the handling of the backend's answer. */
module ResetPassword {
  import opened Wrappers
  import opened Text
  import opened StorefrontTypes

  /** A validation message attached to a form field. */
  datatype FieldError = FieldError(path: string, message: string)

  const MinLength := 8
  const TooShort := "Salasanan on oltava vähintään 8 merkkiä pitkä"
  const Mismatch := "Salasanat eivät täsmää"
  const InvalidToken := "Virheellinen tai vanhentunut palautuskoodi."
  const LoginAfterReset := "/login?reset=success"

  /** `ResetPasswordSchema`: the length rule on `password` and the equality rule reported on
      `confirmPassword`. */
  function SchemaErrors(password: string, confirmPassword: string): seq<FieldError> {
    (if |password| < MinLength then [FieldError("password", TooShort)] else [])
    + (if password != confirmPassword then [FieldError("confirmPassword", Mismatch)] else [])
  }

  /** The form is accepted exactly when the password has at least eight characters and the
      confirmation equals it; a mismatch is always reported on the confirmation field. */
  lemma SchemaRule(password: string, confirmPassword: string)
    ensures SchemaErrors(password, confirmPassword) == [] <==> |password| >= MinLength && password == confirmPassword
    ensures password != confirmPassword ==> FieldError("confirmPassword", Mismatch) in SchemaErrors(password, confirmPassword)
    ensures forall e :: e in SchemaErrors(password, confirmPassword) && e.message == Mismatch ==> e.path == "confirmPassword"
  {
  }

  /** `result.error`: absent, a string, or some other value. */
  datatype ErrorValue = NoError | StringError(text: string) | OtherError

  predicate ErrorTruthy(e: ErrorValue) {
    e.OtherError? || (e.StringError? && e.text != "")
  }

  /** The resolved value of `resetPassword`. */
  datatype ResetResult = ResetResult(error: ErrorValue, success: bool, message: Option<string>)

  /** The error text shown: a string error verbatim, anything else replaced by the fixed text. */
  function ErrorMessage(e: ErrorValue): (r: string)
    ensures e.StringError? ==> r == e.text
    ensures !e.StringError? ==> r == InvalidToken
  {
    if e.StringError? then e.text else InvalidToken
  }

  /** The form data sent: token, password and confirmation. */
  datatype ResetRequest = ResetRequest(token: string, password: string, confirmPassword: string)

  class ResetPasswordForm {
    const token: string
    var isLoading: bool
    var formError: Option<string>
    var formSuccess: Option<string>
    /** Whether the redirect to the login page has been scheduled (the timer is not modelled). */
    var redirectScheduled: bool

    constructor (token: string)
      ensures this.token == token && !isLoading && formError == None && formSuccess == None && !redirectScheduled
    {
      this.token := token;
      isLoading := false;
      formError := None;
      formSuccess := None;
      redirectScheduled := false;
    }

    /** `disabled={isLoading || !!formSuccess}` */
    predicate SubmitDisabled()
      reads this
    {
      isLoading || Truthy(formSuccess)
    }

    /** The start of `onSubmit`. */
    method BeginSubmit(password: string, confirmPassword: string) returns (request: ResetRequest)
      modifies this`isLoading, this`formError, this`formSuccess
      ensures isLoading && formError == None && formSuccess == None && SubmitDisabled()
      ensures request == ResetRequest(token, password, confirmPassword)
    {
      isLoading := true;
      formError := None;
      formSuccess := None;
      request := ResetRequest(token, password, confirmPassword);
    }

    /** The end of `onSubmit`. A thrown failure is not caught: it propagates after `isLoading` is
        reset. */
    method CompleteSubmit(reply: Result<ResetResult, Thrown>) returns (rethrown: Option<Thrown>)
      modifies this`isLoading, this`formError, this`formSuccess, this`redirectScheduled
      ensures !isLoading
      ensures reply.Failure? ==>
        (rethrown == Some(reply.error) && formError == old(formError)
         && formSuccess == old(formSuccess) && redirectScheduled == old(redirectScheduled))
      ensures reply.Success? && ErrorTruthy(reply.value.error) ==>
        (rethrown == None && formError == Some(ErrorMessage(reply.value.error)) && formSuccess == old(formSuccess)
         && redirectScheduled == old(redirectScheduled))
      ensures reply.Success? && !ErrorTruthy(reply.value.error) && reply.value.success ==>
        (rethrown == None && formSuccess == reply.value.message && formError == old(formError) && redirectScheduled)
      ensures reply.Success? && !ErrorTruthy(reply.value.error) && !reply.value.success ==>
        (rethrown == None && formError == old(formError) && formSuccess == old(formSuccess)
         && redirectScheduled == old(redirectScheduled))
    {
      rethrown := None;
      match reply {
        case Failure(e) =>
          rethrown := Some(e);
        case Success(r) =>
          if ErrorTruthy(r.error) {
            formError := Some(ErrorMessage(r.error));
          } else if r.success {
            formSuccess := r.message;
            redirectScheduled := true;
          }
      }
      isLoading := false;
    }

    /** A submit: the schema decides whether `onSubmit` runs at all. */
    method HandleSubmit(password: string, confirmPassword: string, reply: Result<ResetResult, Thrown>)
      returns (errors: seq<FieldError>, request: Option<ResetRequest>, rethrown: Option<Thrown>)
      modifies this`isLoading, this`formError, this`formSuccess, this`redirectScheduled
      ensures errors == SchemaErrors(password, confirmPassword)
      ensures errors != [] ==> request == None && rethrown == None && unchanged(this)
      ensures errors == [] ==> request == Some(ResetRequest(token, password, confirmPassword)) && !isLoading
      ensures errors == [] && reply.Success? && reply.value.error.StringError? && reply.value.error.text != "" ==>
        formError == Some(reply.value.error.text)
    {
      errors := SchemaErrors(password, confirmPassword);
      if errors != [] {
        request := None;
        rethrown := None;
      } else {
        var r := BeginSubmit(password, confirmPassword);
        request := Some(r);
        rethrown := CompleteSubmit(reply);
      }
    }
  }
}
