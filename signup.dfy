/** The signup page's submit handler. The server's answer to the signup
    request is a parameter: the access token, or the failure. */
module SignupPage {
  import opened Common
  import opened Api
  import opened Toasts
  import opened Session
  import AuthRoutes

  const MissingFields: string := "Username and password are required"
  const PasswordMismatch: string := "Passwords do not match"
  const AccountCreated: string := "Account created successfully!"
  const SignupFallback: string := "Signup failed"

  /** The body the page sends: an empty email is left out, and no full name
      is sent. */
  function SignupBody(username: string, password: string, email: string): (req: AuthRoutes.SignupRequest)
    ensures req.username == username && req.password == password && req.fullName == None
    ensures req.email.None? <==> email == ""
    ensures req.email.Some? ==> req.email.value == email
  {
    AuthRoutes.SignupRequest(username, password, if email == "" then None else Some(email), None)
  }

  /** The signup form's state. */
  class SignupForm {
    var username: string
    var email: string
    var password: string
    var confirm: string
    var loading: bool

    constructor ()
      ensures username == "" && email == "" && password == "" && confirm == "" && !loading
    {
      username, email, password, confirm, loading := "", "", "", "", false;
    }

    /** handleSubmit. A missing username or password is reported first, then
        a confirmation that differs; neither sends anything. Otherwise it
        sends the signup body; on success it stores the token and the
        username, installs the token, shows the success toast and signs the
        app in; on failure it shows the server's detail or the fallback
        text. Either way `loading` ends false. `sent` is the body sent, if
        any. */
    method HandleSubmit(app: App, toasts: ToastQueue, response: Outcome<string>, now: int)
      returns (sent: Option<AuthRoutes.SignupRequest>)
      requires app.Valid() && toasts.Valid()
      modifies this, app, app.browser, toasts
      ensures app.Valid() && toasts.Valid()
      ensures username == old(username) && email == old(email) && password == old(password) && confirm == old(confirm)
      ensures sent.Some? <==> old(username) != "" && old(password) != "" && old(password) == old(confirm)
      ensures sent.Some? ==> sent.value == SignupBody(username, password, email)
      ensures toasts.pending == old(toasts.pending) + [now]
      ensures sent.None? ==>
        && toasts.toasts == old(toasts.toasts) +
             [if username == "" || password == "" then Toast(now, MissingFields, Warning) else Toast(now, PasswordMismatch, Error)]
        && loading == old(loading)
        && app.State() == old(app.State())
        && app.browser.storage == old(app.browser.storage)
        && app.browser.authorization == old(app.browser.authorization)
      ensures sent.Some? ==> !loading
      ensures sent.Some? && response.Done? ==>
        && app.browser.storage == old(app.browser.storage)[TokenKey := response.value][UsernameKey := username]
        && app.browser.authorization == Some(BearerHeader(response.value))
        && toasts.toasts == old(toasts.toasts) + [Toast(now, AccountCreated, Success)]
        && app.State() == old(app.State()).(isAuthenticated := true, username := Some(username))
      ensures sent.Some? && response.Failed? ==>
        && app.browser.storage == old(app.browser.storage)
        && app.browser.authorization == old(app.browser.authorization)
        && toasts.toasts == old(toasts.toasts) + [Toast(now, ErrorText(response.detail, SignupFallback), Error)]
        && app.State() == old(app.State())
    {
      if username == "" || password == "" {
        toasts.AddToast(MissingFields, Warning, now);
        return None;
      }
      if password != confirm {
        toasts.AddToast(PasswordMismatch, Error, now);
        return None;
      }
      loading := true;
      sent := Some(SignupBody(username, password, email));
      match response {
        case Done(token) =>
          app.browser.SetItem(TokenKey, token);
          app.browser.SetItem(UsernameKey, username);
          app.browser.SetAuthToken(token);
          toasts.AddToast(AccountCreated, Success, now);
          app.HandleLoginSuccess(username);
        case Failed(detail) =>
          toasts.AddToast(ErrorText(detail, SignupFallback), Error, now);
      }
      loading := false;
    }
  }
}
