/**
 * The decision chains of handlers/authentication.go: the alert shown for a
 * failed login (`loginAlerts`) and the order of the checks in `register`,
 * `editAccount` and `editPassword`.
 *
 * A handler's inputs are its parameters: whether the form parsed, the form
 * values, the signed-in user, and the replies of the user service and the
 * session store. The result is the response and the list of service calls
 * the handler made, in order.
 */
module Authentication {
  import opened GoErrors
  import Toast
  import Render

  const StatusBadRequest: int := 400
  const StatusNotFound: int := 404

  /** `components.Alert`. */
  datatype Alert = Alert(title: string, text: string)

  /** `domain.User`, as far as these handlers use it. */
  datatype User = User(id: int, name: string, email: string)

  /** The services a handler calls. */
  datatype Call =
    | CreateUser(name: string, email: string, password: string)
    | UpdateUser(userID: int, name: string, email: string)
    | VerifyLogin(email: string, password: string)
    | UpdatePassword(userID: int, password: string)
    | SetSession

  /** What the handler writes back. */
  datatype Reply =
    | HttpError(status: int, text: string)   // `http.Error` with a fixed text
    | HttpErrorOf(status: int, err: Error)   // `http.Error(w, err.Error(), status)`
    | HXRedirect(href: string)
    | Form(status: int, alert: Option<Alert>, toast: Option<Toast.Toast>, reswap: bool)  // a rendered form

  datatype Handled = Handled(reply: Reply, calls: seq<Call>)

  // ---- loginAlerts ---------------------------------------------------------

  const InvalidCredentialsAlert: Alert :=
    Alert("Invalid credentials", "The password you entered is incorrect. Please try again.")
  const UserNotFoundAlert: Alert :=
    Alert("User not found", "The email you entered is not associated with an account. Please try again.")
  const LoginFailedAlert: Alert :=
    Alert("Login failed", "An unexpected error occurred. Please try again.")

  /** `loginAlerts`: the credentials check comes first, then the unknown-user check. */
  function LoginAlerts(err: Error): (a: Alert)
    ensures Is(err, ErrInvalidCredentials) ==> a == InvalidCredentialsAlert
    ensures !Is(err, ErrInvalidCredentials) && Is(err, ErrUserNotFound) ==> a == UserNotFoundAlert
    ensures !Is(err, ErrInvalidCredentials) && !Is(err, ErrUserNotFound) ==> a == LoginFailedAlert
  {
    if Is(err, ErrInvalidCredentials) then InvalidCredentialsAlert
    else if Is(err, ErrUserNotFound) then UserNotFoundAlert
    else LoginFailedAlert
  }

  /**
   * The alert and the status of a failed login agree: a specific alert
   * exactly when the status is 422, the generic one exactly when it is 500.
   */
  lemma AlertMatchesStatus(err: Error)
    ensures LoginAlerts(err) != LoginFailedAlert <==>
            Render.ExpectedStatus(Some(err)) == Render.StatusUnprocessableEntity
    ensures LoginAlerts(err) == LoginFailedAlert <==>
            Render.ExpectedStatus(Some(err)) == Render.StatusInternalServerError
  {
    IsDependsOnlyOnRoot(err, ErrInvalidCredentials);
    IsDependsOnlyOnRoot(err, ErrUserNotFound);
  }

  // ---- register ------------------------------------------------------------

  /** The sequence of calls a successful registration makes, cut at the first failure. */
  function RegisterCalls(name: string, email: string, password: string): seq<Call>
  {
    [CreateUser(name, email, password), SetSession]
  }

  /** `register`. */
  function Register(parseErr: Option<Error>, name: string, email: string, password: string, confirm: string,
                    createUser: Option<Error>, setSession: Option<Error>): (h: Handled)
    ensures h.calls <= RegisterCalls(name, email, password)
    ensures parseErr.Some? ==> h == Handled(HttpErrorOf(500, parseErr.value), [])
    // the required fields are checked before the confirmation
    ensures parseErr.None? && (name == "" || email == "" || password == "") ==>
      h == Handled(HttpError(StatusBadRequest, "email and password are required"), [])
    ensures parseErr.None? && name != "" && email != "" && password != "" && password != confirm ==>
      h == Handled(HttpError(StatusBadRequest, "passwords do not match"), [])
    // the user is created only when every check passes
    ensures |h.calls| > 0 <==>
      parseErr.None? && name != "" && email != "" && password != "" && password == confirm
    ensures h.reply == HXRedirect("/") <==>
      |h.calls| > 0 && createUser.None? && setSession.None?
  {
    if parseErr.Some? then Handled(HttpErrorOf(500, parseErr.value), [])
    else if |name| == 0 || |email| == 0 || |password| == 0 then
      Handled(HttpError(StatusBadRequest, "email and password are required"), [])
    else if password != confirm then
      Handled(HttpError(StatusBadRequest, "passwords do not match"), [])
    else if createUser.Some? then
      Handled(HttpErrorOf(500, createUser.value), [CreateUser(name, email, password)])
    else if setSession.Some? then
      Handled(HttpError(500, "unexpected error"), RegisterCalls(name, email, password))
    else
      Handled(HXRedirect("/"), RegisterCalls(name, email, password))
  }

  // ---- editAccount ---------------------------------------------------------

  /** `editAccount`. */
  function EditAccount(parseErr: Option<Error>, name: string, email: string, user: Option<User>,
                       updateUser: Option<Error>, setSession: Option<Error>): (h: Handled)
    ensures parseErr.Some? ==> h == Handled(HttpErrorOf(500, parseErr.value), [])
    ensures parseErr.None? && user.None? ==> h == Handled(HttpError(StatusNotFound, "user not found"), [])
    ensures parseErr.None? && user.Some? && (name == "" || email == "") ==>
      h == Handled(Form(Render.StatusUnprocessableEntity, Some(Alert("Edit failed", "Name and email are required")), None, false), [])
    // the update runs only for a signed-in user with both fields filled in
    ensures |h.calls| > 0 <==> parseErr.None? && user.Some? && name != "" && email != ""
    ensures |h.calls| > 0 ==> h.calls[0] == UpdateUser(user.value.id, name, email)
    ensures h.calls <= [UpdateUser(if user.Some? then user.value.id else 0, name, email), SetSession]
    ensures h.reply.Form? && h.reply.toast.Some? <==> |h.calls| > 0 && updateUser.None? && setSession.None?
  {
    if parseErr.Some? then Handled(HttpErrorOf(500, parseErr.value), [])
    else if user.None? then Handled(HttpError(StatusNotFound, "user not found"), [])
    else if |name| == 0 || |email| == 0 then
      Handled(Form(Render.StatusUnprocessableEntity, Some(Alert("Edit failed", "Name and email are required")), None, false), [])
    else
      var update := UpdateUser(user.value.id, name, email);
      if updateUser.Some? then
        Handled(Form(Render.StatusUnprocessableEntity,
                     Some(Alert("Edit failed", "An unexpected error occurred. Please try again.")), None, false),
                [update])
      else if setSession.Some? then
        Handled(HttpError(500, "unexpected error"), [update, SetSession])
      else
        Handled(Form(Render.StatusOK, None,
                     Some(Toast.SuccessToast("Account updated", "Your account has been updated successfully", [])), false),
                [update, SetSession])
  }

  // ---- editPassword --------------------------------------------------------

  /** The failed-edit form of `editPassword`, with its alert. */
  function PasswordAlert(status: int, text: string): Reply
  {
    Form(status, Some(Alert("Edit failed", text)), None, false)
  }

  /** `editPassword`. */
  function EditPassword(parseErr: Option<Error>, oldPassword: string, newPassword: string, confirm: string,
                        user: Option<User>, verifyLogin: Option<Error>, updatePassword: Option<Error>,
                        setSession: Option<Error>): (h: Handled)
    ensures parseErr.Some? ==> h == Handled(HttpErrorOf(500, parseErr.value), [])
    // a missing user is reported in the form, with the default status
    ensures parseErr.None? && user.None? ==> h == Handled(PasswordAlert(Render.StatusOK, "User not found"), [])
    ensures parseErr.None? && user.Some? && (oldPassword == "" || newPassword == "") ==>
      h == Handled(PasswordAlert(Render.StatusUnprocessableEntity, "Old and new password are required"), [])
    ensures parseErr.None? && user.Some? && oldPassword != "" && newPassword != "" && newPassword != confirm ==>
      h == Handled(PasswordAlert(Render.StatusUnprocessableEntity, "New passwords do not match"), [])
    // the old password is checked only once the form itself is valid
    ensures |h.calls| > 0 <==>
      parseErr.None? && user.Some? && oldPassword != "" && newPassword != "" && newPassword == confirm
    ensures |h.calls| > 0 ==> h.calls[0] == VerifyLogin(user.value.email, oldPassword)
    ensures |h.calls| > 0 && verifyLogin.Some? ==>
      h == Handled(PasswordAlert(Render.StatusUnprocessableEntity, "Old password is incorrect"), h.calls) && |h.calls| == 1
    // the password changes only after every check has passed
    ensures |h.calls| >= 2 <==> |h.calls| > 0 && verifyLogin.None?
    ensures |h.calls| >= 2 ==> h.calls[1] == UpdatePassword(user.value.id, newPassword)
    ensures forall i :: 0 <= i < |h.calls| && h.calls[i].UpdatePassword? ==> i == 1
    ensures h.reply.Form? && h.reply.reswap <==>
      |h.calls| > 0 && verifyLogin.None? && updatePassword.None? && setSession.None?
  {
    if parseErr.Some? then Handled(HttpErrorOf(500, parseErr.value), [])
    else if user.None? then Handled(PasswordAlert(Render.StatusOK, "User not found"), [])
    else if |oldPassword| == 0 || |newPassword| == 0 then
      Handled(PasswordAlert(Render.StatusUnprocessableEntity, "Old and new password are required"), [])
    else if newPassword != confirm then
      Handled(PasswordAlert(Render.StatusUnprocessableEntity, "New passwords do not match"), [])
    else
      var verify := VerifyLogin(user.value.email, oldPassword);
      var update := UpdatePassword(user.value.id, newPassword);
      if verifyLogin.Some? then
        Handled(PasswordAlert(Render.StatusUnprocessableEntity, "Old password is incorrect"), [verify])
      else if updatePassword.Some? then
        Handled(PasswordAlert(Render.StatusUnprocessableEntity, "An unexpected error occurred. Please try again."),
                [verify, update])
      else if setSession.Some? then
        Handled(HttpError(500, "unexpected error"), [verify, update, SetSession])
      else
        Handled(Form(Render.StatusOK, None,
                     Some(Toast.SuccessToast("Password updated", "Your password has been updated successfully", [])), true),
                [verify, update, SetSession])
  }
}
