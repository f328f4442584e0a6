/** The client's session state machine: whether the user is signed in and
    under which name, which page is shown, and the two `localStorage` keys
    and the credential header that carry a session across page loads. */
module Session {
  import opened Common
  import opened Api

  const TokenKey: string := "access_token"
  const UsernameKey: string := "username"

  /** The page values the client navigates between. */
  predicate IsPageType(page: string)
  {
    page in {"dashboard", "franchises", "franchises-new", "branches", "budgets", "budgets-new", "budgets-view"}
  }

  datatype AuthMode = LoginMode | SignupMode

  /** What the client shows. */
  datatype Screen =
    | LoginScreen
    | SignupScreen
    | DashboardScreen
    | FranchiseListScreen
    | FranchiseFormScreen
    | BranchScreen
    | BudgetListScreen
    | BudgetFormScreen(budgetId: Option<int>)

  /** The screen for a signed-out user. */
  function AuthScreen(mode: AuthMode): Screen
  {
    if mode == LoginMode then LoginScreen else SignupScreen
  }

  /** The whole view: the auth gate, then `renderPage`. */
  function Render(authenticated: bool, mode: AuthMode, page: string, selected: Option<int>): (r: Screen)
    ensures !authenticated <==> r in {LoginScreen, SignupScreen}
    ensures !authenticated ==> r == AuthScreen(mode)
    ensures authenticated && !IsPageType(page) ==> r == DashboardScreen
    ensures r.BudgetFormScreen? && r.budgetId.Some? ==> page == "budgets-view" && r.budgetId == selected
  {
    if !authenticated then AuthScreen(mode)
    else if page == "franchises" then FranchiseListScreen
    else if page == "franchises-new" then FranchiseFormScreen
    else if page == "branches" then BranchScreen
    else if page == "budgets" then BudgetListScreen
    else if page == "budgets-new" then BudgetFormScreen(None)
    else if page == "budgets-view" then BudgetFormScreen(selected)
    else DashboardScreen
  }

  /** The stored session the start-up effect restores: the token and the
      username, when both are stored and neither is empty. */
  function StoredSession(storage: map<string, string>): (r: Option<(string, string)>)
    ensures r.Some? <==> TokenKey in storage && UsernameKey in storage && storage[TokenKey] != "" && storage[UsernameKey] != ""
    ensures r.Some? ==> r.value == (storage[TokenKey], storage[UsernameKey])
  {
    if TokenKey in storage && UsernameKey in storage && storage[TokenKey] != "" && storage[UsernameKey] != "" then
      Some((storage[TokenKey], storage[UsernameKey]))
    else None
  }

  /** What a successful login or signup stores is restored on the next
      start, when the token and the name are not empty. */
  lemma StoredLoginRestores(storage: map<string, string>, token: string, user: string)
    requires token != "" && user != ""
    ensures StoredSession(storage[TokenKey := token][UsernameKey := user]) == Some((token, user))
  {
  }

  /** After logout nothing is left to restore. */
  lemma LogoutLeavesNothing(storage: map<string, string>)
    ensures StoredSession(storage - {TokenKey} - {UsernameKey}) == None
  {
  }

  /** A snapshot of the `App` component's own state. */
  datatype AppState = AppState(
    isAuthenticated: bool,
    username: Option<string>,
    currentPage: string,
    selectedBudgetId: Option<int>,
    authMode: AuthMode)

  /** The `App` component's state. */
  class App {
    var isAuthenticated: bool
    var username: Option<string>
    var currentPage: string
    var selectedBudgetId: Option<int>
    var authMode: AuthMode
    const browser: Browser

    /** The user is signed in exactly when a username is held, and the
        page is one of the page values. */
    ghost predicate Valid()
      reads this
    {
      (isAuthenticated <==> username.Some?) && IsPageType(currentPage)
    }

    function State(): AppState
      reads this
    {
      AppState(isAuthenticated, username, currentPage, selectedBudgetId, authMode)
    }

    /** What is on screen. */
    function Screen(): Screen
      reads this
    {
      Render(isAuthenticated, authMode, currentPage, selectedBudgetId)
    }

    /** The initial state, before the start-up effect runs. */
    constructor (browser: Browser)
      ensures Valid()
      ensures !isAuthenticated && username == None && currentPage == "dashboard"
      ensures selectedBudgetId == None && authMode == LoginMode
      ensures this.browser == browser
      ensures Screen() == LoginScreen
    {
      isAuthenticated, username := false, None;
      currentPage, selectedBudgetId := "dashboard", None;
      authMode := LoginMode;
      this.browser := browser;
    }

    /** The start-up effect: a stored session is restored, installing its
        token; otherwise nothing changes. */
    method RestoreSession()
      requires Valid()
      modifies this, browser
      ensures Valid()
      ensures browser.storage == old(browser.storage)
      ensures currentPage == old(currentPage) && selectedBudgetId == old(selectedBudgetId) && authMode == old(authMode)
      ensures match StoredSession(old(browser.storage))
        case Some((token, user)) =>
          isAuthenticated && username == Some(user) && browser.authorization == Some(BearerHeader(token))
        case None =>
          isAuthenticated == old(isAuthenticated) && username == old(username) && browser.authorization == old(browser.authorization)
    {
      var stored := StoredSession(browser.storage);
      if stored.Some? {
        var (token, user) := stored.value;
        browser.SetAuthToken(token);
        isAuthenticated := true;
        username := Some(user);
      }
    }

    /** handleLoginSuccess, called by the login and signup pages. */
    method HandleLoginSuccess(user: string)
      requires Valid()
      modifies this
      ensures Valid()
      ensures isAuthenticated && username == Some(user)
      ensures currentPage == old(currentPage) && selectedBudgetId == old(selectedBudgetId) && authMode == old(authMode)
    {
      isAuthenticated := true;
      username := Some(user);
    }

    /** handleLogout: forget the stored session, install an empty token, sign
        out and go back to the dashboard page; the sign-in form shown is the
        one last chosen. */
    method HandleLogout()
      requires Valid()
      modifies this, browser
      ensures Valid()
      ensures browser.storage == old(browser.storage) - {TokenKey} - {UsernameKey}
      ensures browser.authorization == Some(BearerHeader(""))
      ensures !isAuthenticated && username == None && currentPage == "dashboard"
      ensures selectedBudgetId == old(selectedBudgetId) && authMode == old(authMode)
      ensures Screen() == AuthScreen(authMode)
    {
      browser.RemoveItem(TokenKey);
      browser.RemoveItem(UsernameKey);
      browser.SetAuthToken("");
      isAuthenticated := false;
      username := None;
      currentPage := "dashboard";
    }

    /** The links between the login and the signup form. */
    method SetAuthMode(mode: AuthMode)
      requires Valid()
      modifies this
      ensures Valid()
      ensures authMode == mode
      ensures isAuthenticated == old(isAuthenticated) && username == old(username)
      ensures currentPage == old(currentPage) && selectedBudgetId == old(selectedBudgetId)
    {
      authMode := mode;
    }

    /** `setCurrentPage`, from the navigation bar and the pages' callbacks. */
    method Navigate(page: string)
      requires Valid() && IsPageType(page)
      modifies this
      ensures Valid()
      ensures currentPage == page
      ensures isAuthenticated == old(isAuthenticated) && username == old(username)
      ensures selectedBudgetId == old(selectedBudgetId) && authMode == old(authMode)
    {
      currentPage := page;
    }

    /** The budget list's view action: remember the budget and open the form
        on it. */
    method ViewBudget(id: int)
      requires Valid()
      modifies this
      ensures Valid()
      ensures selectedBudgetId == Some(id) && currentPage == "budgets-view"
      ensures isAuthenticated ==> Screen() == BudgetFormScreen(Some(id))
      ensures isAuthenticated == old(isAuthenticated) && username == old(username) && authMode == old(authMode)
    {
      selectedBudgetId := Some(id);
      currentPage := "budgets-view";
    }
  }
}
