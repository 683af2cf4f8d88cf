/** The storefront registration page. */
module RegisterPage {
  import opened Wrappers
  import opened Http
  import opened Storage

  /** The body posted to `/auth/register/`; the confirmation is not part of it. */
  datatype RegisterRequest = RegisterRequest(username: string, email: string, password: string)

  const HomePath := "/"
  const MissingMessage := "Please fill all fields"
  const MismatchMessage := "Passwords do not match"
  const RegisteredMessage := "Registration successful! Redirecting to login..."
  const FailedMessage := "Registration failed. Please try again."

  /** The mount effect: someone already logged in is sent home. */
  method Mount(ls: LocalStorage) returns (navigations: seq<string>)
    ensures navigations == (if HasValue(ls.items, UserTokenKey) then [HomePath] else [])
  {
    var accessToken := ls.GetItem(UserTokenKey);
    navigations := if accessToken.Some? && accessToken.value != "" then [HomePath] else [];
  }

  /** The two early returns of `handleSubmit`, in their order. */
  function SubmitError(username: string, email: string, password: string, confirm: string): Option<string> {
    if username == "" || email == "" || password == "" || confirm == "" then Some(MissingMessage)
    else if password != confirm then Some(MismatchMessage)
    else None
  }

  /** The form is sent exactly when all four fields are filled and the passwords agree. */
  lemma SubmitErrorNoneIff(username: string, email: string, password: string, confirm: string)
    ensures SubmitError(username, email, password, confirm).None? <==>
              username != "" && email != "" && password != "" && confirm != "" && password == confirm
  {
  }

  /** An empty field is reported even when the passwords also differ: it is checked first. */
  lemma EmptyFieldReportedFirst(username: string, email: string, password: string, confirm: string)
    requires username == "" || email == "" || password == "" || confirm == ""
    ensures SubmitError(username, email, password, confirm) == Some(MissingMessage)
  {
  }

  lemma MismatchReported(username: string, email: string, password: string, confirm: string)
    requires username != "" && email != "" && password != "" && confirm != ""
    ensures SubmitError(username, email, password, confirm) == Some(MismatchMessage) <==> password != confirm
  {
  }

  class Register {
    var username: string
    var email: string
    var password: string
    var confirmPassword: string
    var isSubmitting: bool

    constructor ()
      ensures username == "" && email == "" && password == "" && confirmPassword == "" && !isSubmitting
    {
      username, email, password, confirmPassword := "", "", "", "";
      isSubmitting := false;
    }

    /**
     * `handleSubmit`, given the reply the request would get; `request` is
     * the body sent, if any. The delayed navigation to the login page is
     * not part of this model.
     */
    method HandleSubmit(reply: Reply<()>) returns (request: Option<RegisterRequest>, toasts: seq<Toast>)
      modifies this`isSubmitting
      ensures var e := SubmitError(username, email, password, confirmPassword);
              e.Some? ==> request.None? && toasts == [ErrorToast(e.value)] && isSubmitting == old(isSubmitting)
      ensures SubmitError(username, email, password, confirmPassword).None? ==>
                request == Some(RegisterRequest(username, email, password)) && !isSubmitting
      ensures SubmitError(username, email, password, confirmPassword).None? && reply.Ok? ==>
                toasts == [SuccessToast(RegisteredMessage)]
      ensures SubmitError(username, email, password, confirmPassword).None? && reply.Err? && reply.failure.details.Some? ==>
                toasts == ErrorsOf(Messages(reply.failure.details.value))
      ensures SubmitError(username, email, password, confirmPassword).None? && reply.Err? && reply.failure.details.None? ==>
                toasts == [ErrorToast(FailedMessage)]
    {
      if username == "" || email == "" || password == "" || confirmPassword == "" {
        return None, [ErrorToast(MissingMessage)];
      }
      if password != confirmPassword {
        return None, [ErrorToast(MismatchMessage)];
      }
      isSubmitting := true;
      request := Some(RegisterRequest(username, email, password));
      match reply {
        case Ok(_) =>
          toasts := [SuccessToast(RegisteredMessage)];
        case Err(f) =>
          toasts := RejectionToasts(f, FailedMessage);
      }
      isSubmitting := false;
    }
  }

  /**
   * The server's 400 reply for a taken email and a short password gives
   * one toast per message, the email's first.
   */
  lemma RejectedRegistration()
    ensures ErrorsOf(Messages([("email", ["A user with this email already exists."]),
                               ("password", ["Password must be at least 8 characters long."])]))
         == [ErrorToast("A user with this email already exists."),
             ErrorToast("Password must be at least 8 characters long.")]
  {
    var d: Details := [("email", ["A user with this email already exists."]),
                       ("password", ["Password must be at least 8 characters long."])];
    assert d[1..][1..] == [];
    assert Messages(d) == ["A user with this email already exists.", "Password must be at least 8 characters long."];
  }
}
