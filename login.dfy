/** The login page's submit handler. The server's answer to the login
    request is a parameter: the access token, or the failure. */
module LoginPage {
  import opened Common
  import opened Api
  import opened Toasts
  import opened Session

  const MissingFields: string := "Please enter both username and password"
  const LoginFallback: string := "Invalid credentials. Try admin/secret"

  /** The success toast's text. */
  function Welcome(username: string): (m: string)
    ensures |m| == |username| + 15
    ensures m[..14] == "Welcome back, " && m[14..|m| - 1] == username && m[|m| - 1] == '!'
  {
    "Welcome back, " + username + "!"
  }

  /** The login form's state. */
  class LoginForm {
    var username: string
    var password: string
    var loading: bool

    constructor ()
      ensures username == "" && password == "" && !loading
    {
      username, password, loading := "", "", false;
    }

    /** handleSubmit. With a field empty it shows a warning and sends
        nothing. Otherwise it sends the login request; on success it stores
        the token and the username, installs the token, shows the welcome
        toast and signs the app in; on failure it shows the server's detail
        or the fallback text and changes nothing else. Either way `loading`
        ends false. `requested` tells whether the request was sent. */
    method HandleSubmit(app: App, toasts: ToastQueue, response: Outcome<string>, now: int) returns (requested: bool)
      requires app.Valid() && toasts.Valid()
      modifies this, app, app.browser, toasts
      ensures app.Valid() && toasts.Valid()
      ensures username == old(username) && password == old(password)
      ensures requested <==> old(username) != "" && old(password) != ""
      ensures toasts.pending == old(toasts.pending) + [now]
      ensures !requested ==>
        && toasts.toasts == old(toasts.toasts) + [Toast(now, MissingFields, Warning)]
        && loading == old(loading)
        && app.State() == old(app.State())
        && app.browser.storage == old(app.browser.storage)
        && app.browser.authorization == old(app.browser.authorization)
      ensures requested ==> !loading
      ensures requested && response.Done? ==>
        && app.browser.storage == old(app.browser.storage)[TokenKey := response.value][UsernameKey := username]
        && app.browser.authorization == Some(BearerHeader(response.value))
        && toasts.toasts == old(toasts.toasts) + [Toast(now, Welcome(username), Success)]
        && app.State() == old(app.State()).(isAuthenticated := true, username := Some(username))
      ensures requested && response.Failed? ==>
        && app.browser.storage == old(app.browser.storage)
        && app.browser.authorization == old(app.browser.authorization)
        && toasts.toasts == old(toasts.toasts) + [Toast(now, ErrorText(response.detail, LoginFallback), Error)]
        && app.State() == old(app.State())
    {
      if username == "" || password == "" {
        toasts.AddToast(MissingFields, Warning, now);
        return false;
      }
      loading := true;
      match response {
        case Done(token) =>
          app.browser.SetItem(TokenKey, token);
          app.browser.SetItem(UsernameKey, username);
          app.browser.SetAuthToken(token);
          toasts.AddToast(Welcome(username), Success, now);
          app.HandleLoginSuccess(username);
        case Failed(detail) =>
          toasts.AddToast(ErrorText(detail, LoginFallback), Error, now);
      }
      loading := false;
      return true;
    }
  }
}
