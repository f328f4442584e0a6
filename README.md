# Franchise budget manager — a Dafny model

This project models the core of a small franchise management application.
It has a FastAPI backend over SQLite and a React single-page frontend.

The backend keeps four tables: franchises, branches, budgets and expenses.
It also keeps an in-memory user store for logging in and signing up. The
model covers every request handler the frontend calls:

- the budget routes: create, list, get, update, delete, approve, reject and summary;
- the expense routes: create, list, get and delete. An expense adjusts the
  actual amount of the budget it is linked to;
- the franchise routes: create, list with a name search, stats, get, update,
  delete, and the alias that lists a franchise's branches;
- the branch routes: create, list, get and delete;
- the login, verify and signup routes.

The frontend side models the following:

- the toast queue;
- the API client's authorization header;
- the application shell with its session restore, log-in, log-out and page
  switch;
- the event handlers of the login, signup, budget list, budget form,
  franchise list and branch management pages.

How the pieces are laid out in Dafny:

- **Backend tables.** Each table is a `map` from primary key to row, plus the
  ascending list of its keys (the order a query without `ORDER BY` returns).
  A new row gets one more than the largest key present, as SQLite assigns an
  `INTEGER PRIMARY KEY` without `AUTOINCREMENT`.
- **Backend handlers.** A handler that writes is a method on the database
  object (`Ledger`, `Registry`, `UserStore`). Its `modifies` clause names that
  object. Its `ensures` clauses state:
  - the new contents of the tables;
  - the response;
  - every failure: the 404s, the 400s, a 422 for a body the schema refuses,
    and a 500 for a commit the database refuses.
- **Read-only handlers.** These are functions over the rows.
- **Amounts.** Amounts are integers in hundredths of the currency unit.
- **Frontend state.** Component state that the source updates in place is a
  class, with one method per event handler.
- **Server answers.** The server's answer to a request (an
  `Outcome<T>`: `Done(value)` or `Failed(detail)`) and the clock are
  parameters of these methods.

## Model

| member | source | states |
|---|---|---|
| Common.NotFound | backend/app/routes/budget.py:68-69 | the keyed handlers' failure for an unknown id is a 404 whose detail is the entity name followed by " not found" |
| Seqs.Filter | backend/app/routes/budget.py:55-61 | a query filter keeps exactly the rows that satisfy it, each one taken from the input |
| Seqs.FilterAppend | backend/app/routes/budget.py:55-61 | filtering distributes over concatenation, so row order is kept |
| Seqs.FilterKeepsAll | backend/app/routes/budget.py:55-61 | a filter every row passes returns the rows unchanged |
| Seqs.FilterIdempotent | backend/app/routes/budget.py:55-61 | applying the same filter twice is the same as applying it once |
| Seqs.FilterFilter | backend/app/routes/budget.py:56-61 | two chained filters equal one filter on their conjunction, which is how successive `.filter()` calls combine |
| Seqs.RemoveKey | frontend/src/components/Toast.tsx:32-34 | removing by key keeps exactly the elements with a different key, and never grows the list |
| Seqs.RemoveKeyAppend | frontend/src/components/Toast.tsx:32-34 | removal by key distributes over concatenation (order kept) |
| Seqs.RemoveKeyAbsent | frontend/src/pages/FranchiseList.tsx:44-55 | removing a key no element has changes nothing |
| Seqs.RemoveKeyIdempotent | frontend/src/pages/BranchManagement.tsx:69-83 | removing the same key twice is the same as once |
| Seqs.Offset | backend/app/routes/budget.py:62 | `OFFSET skip` never starts past the end of the result, and starts exactly at `skip` when that lies within it |
| Seqs.Page | backend/app/routes/budget.py:62 | `OFFSET skip LIMIT limit` returns the consecutive rows from the offset on: exactly `limit` of them when that many remain (no bound when negative), otherwise all the rest |
| Seqs.PageWithin | backend/app/routes/franchise.py:50 | every row of a page is a row of the result it was cut from |
| Seqs.PageAll | backend/app/routes/franchise.py:50 | with no offset and a limit at least the row count, the page is the whole result |
| Seqs.Query | backend/app/routes/franchise.py:42-50 | filter then page: exactly the window of the matching rows, in input order, that starts `skip` rows in and holds `limit` rows or as many as remain; so at most `limit` rows, each a matching input row, and every matching row when a first page can hold them all |
| Tables.NextKey | backend/app/models/budget.py:17 | the key SQLite assigns to an inserted row is larger than every key present, and 1 in an empty table |
| Tables.Rows | backend/app/routes/budget.py:55 | a query without ORDER BY lists rows in ascending key order, one per key |
| Tables.InsertValid | backend/app/routes/budget.py:40-42 | inserting under the next key uses a fresh key and keeps the table well formed, with the new row listed last |
| Tables.ReplaceValid | backend/app/routes/budget.py:79-81 | rewriting an existing row keeps the table well formed |
| Tables.ReplaceAll | backend/app/routes/budget.py:180-181 | rewriting rows under the same keys keeps the table well formed |
| Tables.Without | backend/app/routes/budget.py:91-92 | deleting keys leaves exactly the other keys |
| Tables.WithoutIncreasing | backend/app/routes/budget.py:91-92 | deleting keys keeps the key list ascending |
| Tables.RemoveValid | backend/app/routes/budget.py:91-92 | deleting a set of rows keeps the table well formed |
| Tables.NextKeyReused | backend/app/models/budget.py:17 | after the row with the largest key is deleted, the next insert can receive that key again |
| SqlLike.Lower | backend/app/routes/franchise.py:45 | SQLite's case folding in `ilike` lowers the ASCII capitals by 32 and leaves every other character alone |
| SqlLike.Like | backend/app/routes/franchise.py:45 | defines `name ILIKE pattern` without an escape character: `%` matches any run, `_` any one character, other characters match ignoring ASCII case |
| SqlLike.PercentMatchesAll | backend/app/routes/franchise.py:45 | a lone `%` pattern matches every name |
| SqlLike.PrefixPattern | backend/app/routes/franchise.py:45 | `t%` with a wildcard-free `t` matches exactly the names starting with `t`, ignoring ASCII case |
| SqlLike.LeadingPercent | backend/app/routes/franchise.py:45 | `%q` matches exactly when `q` matches some suffix |
| SqlLike.ContainsSearch | backend/app/routes/franchise.py:44-45 | the search `%t%` with a wildcard-free `t` keeps exactly the names that contain `t`, ignoring ASCII case |
| SqlLike.UnderscoreIsWildcard | backend/app/routes/franchise.py:45 | the unescaped search text makes `_` match any character: searching "a_c" finds "ABC", which does not contain "a_c" |
| BudgetSchemas.IsPeriod | backend/app/schemas/budget.py:9 | a period the pattern accepts has seven characters with a dash at index 4 |
| BudgetSchemas.PeriodMonthUnchecked | backend/app/schemas/budget.py:9 | the pattern accepts months 00 and 13 and refuses "2025-1", "2025/12" and "202512" |
| BudgetSchemas.CreateCurrency | backend/app/schemas/budget.py:10 | an omitted currency defaults to "TRY"; a given one is kept |
| BudgetSchemas.ValidBudgetCreate | backend/app/schemas/budget.py:6-11 | defines the accepted create body: a YYYY-MM period, a 3-character currency when given, a non-negative planned amount |
| BudgetSchemas.ValidBudgetUpdate | backend/app/schemas/budget.py:14-20 | defines the accepted update body: a given currency has 3 characters, given amounts are non-negative, the status is free text |
| BudgetSchemas.ValidExpenseCreate | backend/app/schemas/budget.py:38-45 | defines the accepted expense body: a non-negative amount |
| BudgetSchemas.ValidCreateFits | backend/app/schemas/budget.py:9-11 | an accepted create body has a 3-letter currency, a 7-character period and a non-negative planned amount, so it fits the `String(3)` and `String(7)` columns |
| BudgetModels.ParseStatus | backend/app/models/budget.py:7-11 | a status string is read back only when it is one of the four enum values, and then it names that value |
| BudgetModels.StatusNameRoundTrip | backend/app/models/budget.py:7-11 | every status reads back as itself from its stored name |
| BudgetModels.NewBudget | backend/app/models/budget.py:21-25 | a new budget row gets the column defaults: status draft, actual 0, no approved amount |
| BudgetModels.DbUnique | backend/app/models/budget.py:31-33 | defines what the unique key `uq_budget_scope_period` enforces: two budgets with a branch never share franchise, branch and period (NULL branches are distinct) |
| BudgetModels.ScopeUnique | backend/app/routes/budget.py:19-30 | defines the uniqueness the create check keeps: no two budgets share franchise, branch and period, a NULL branch matching a NULL branch (`== None` is `IS NULL`) |
| BudgetModels.ScopeUniqueIsStronger | backend/app/models/budget.py:31-33 | the create handler's uniqueness (NULL branch matches NULL branch) implies the database's unique key (NULLs distinct) |
| BudgetModels.InsertKeepsUnique | backend/app/models/budget.py:31-33 | inserting a budget whose scope is free keeps both kinds of uniqueness |
| BudgetModels.SameScopeKeepsUnique | backend/app/models/budget.py:31-33 | rewriting a budget without changing its franchise, branch and period keeps both kinds of uniqueness |
| BudgetModels.ExpensesOf | backend/app/models/budget.py:29 | the expenses a budget delete cascades to are exactly those linked to that budget |
| BudgetModels.Ledger.constructor | backend/app/models/budget.py:14-46 | an empty database satisfies the table and unique-key invariant |
| BudgetRoutes.Created | backend/app/routes/budget.py:32-39 | the inserted budget has the requested scope, currency and planned amount, status draft, actual 0 and no approved amount |
| BudgetRoutes.FindBudgetByScope | backend/app/routes/budget.py:20-28 | the lookup finds a budget with the requested scope exactly when one exists |
| BudgetRoutes.CreateBudget | backend/app/routes/budget.py:17-43 | 422 for a body the schema refuses; 400 "Budget for this period already exists" when the scope is taken; otherwise exactly one row is inserted under the next key and returned; the database invariant and create-side uniqueness are kept |
| BudgetRoutes.MatchesBudgetQuery | backend/app/routes/budget.py:56-61 | defines the budget filters: each given franchise, branch and period must equal the row's, and a branch filter never matches a row without a branch |
| BudgetRoutes.ListBudgets | backend/app/routes/budget.py:46-62 | 422 exactly when skip < 0 or limit is outside 1..100; otherwise exactly the page of the matching rows, in table order, that starts `skip` rows in (at most `limit` rows, default 50), each matching every given filter, and all matches when skip is 0 and there are no more than `limit` |
| BudgetRoutes.GetBudget | backend/app/routes/budget.py:65-70 | returns the stored budget exactly when the id exists, else 404 "Budget not found" |
| BudgetRoutes.BudgetSummary | backend/app/routes/budget.py:120-139 | 404 for an unknown id; otherwise variance = actual − planned, approved defaults to 0, and a burn rate is present exactly when planned > 0 |
| BudgetRoutes.ApplyUpdate | backend/app/routes/budget.py:78-80 | an update changes exactly the fields that were sent; franchise and period are never changed; an explicit null clears branch or approved amount |
| BudgetRoutes.EmptyUpdateChangesNothing | backend/app/routes/budget.py:78-80 | an update with no fields set leaves the budget unchanged |
| BudgetRoutes.UpdateIdempotent | backend/app/routes/budget.py:78-80 | applying the same update twice equals applying it once |
| BudgetRoutes.NoClashKeepsDbUnique | backend/app/models/budget.py:31-33 | a rewrite whose scope clashes with no other row keeps the database's unique key |
| BudgetRoutes.StoreBudget | backend/app/routes/budget.py:80-81 | committing a non-clashing rewrite changes exactly that row and keeps the invariant |
| BudgetRoutes.UpdateBudget | backend/app/routes/budget.py:73-83 | 422 for a bad body, 404 for an unknown id, 500 for an unknown status, 500 when the new branch clashes with another budget; otherwise the row becomes the updated budget and nothing else changes |
| BudgetRoutes.ClearedBranchEscapesCreateCheck | backend/app/routes/budget.py:20-30 | moving a budget to the franchise level by update can leave two franchise-level budgets for one period, which create would have refused |
| BudgetRoutes.DeleteBudget | backend/app/routes/budget.py:86-93 | 404 for an unknown id; otherwise the budget and every expense linked to it are removed and nothing else |
| BudgetRoutes.Approve | backend/app/routes/budget.py:101-103 | approving sets status approved, fills an absent approved amount with the planned amount, keeps a present one, and changes nothing else |
| BudgetRoutes.Reject | backend/app/routes/budget.py:114 | rejecting sets status rejected and changes nothing else |
| BudgetRoutes.ApproveRejectIdempotent | backend/app/routes/budget.py:96-117 | approve and reject are idempotent, and each one overrides the other's status |
| BudgetRoutes.ApproveBudget | backend/app/routes/budget.py:96-106 | 404 for an unknown id; otherwise exactly that row becomes `Approve` of it |
| BudgetRoutes.RejectBudget | backend/app/routes/budget.py:109-117 | 404 for an unknown id; otherwise exactly that row becomes `Reject` of it |
| BudgetRoutes.Link | backend/app/routes/budget.py:177 | an expense's budget link counts only when present and non-zero (`if exp.budget_id`) |
| BudgetRoutes.Adjust | backend/app/routes/budget.py:177-180 | only the linked budget's actual amount changes, by exactly `delta`; an unknown or absent link changes nothing |
| BudgetRoutes.AdjustUndo | backend/app/routes/budget.py:219-222 | adjusting by −delta undoes adjusting by delta |
| BudgetRoutes.AdjustKeepsUnique | backend/app/routes/budget.py:177-180 | adjusting an actual amount keeps column fit and both kinds of uniqueness |
| BudgetRoutes.AdjustActual | backend/app/routes/budget.py:178-180 | the budget table becomes `Adjust` of the old one; expenses are untouched |
| BudgetRoutes.NewExpense | backend/app/routes/budget.py:174 | the inserted expense carries every field of the body |
| BudgetRoutes.CreateExpense | backend/app/routes/budget.py:172-183 | 422 for a bad body; otherwise the expense is inserted under the next key and the linked budget's actual amount rises by the amount |
| BudgetRoutes.DeleteExpense | backend/app/routes/budget.py:213-225 | 404 for an unknown id; otherwise the expense is removed and the linked budget's actual amount falls by its amount |
| BudgetRoutes.ExpenseCreateDeleteRestores | backend/app/routes/budget.py:172-225 | creating then deleting the same expense restores every budget's actual amount |
| BudgetRoutes.GetExpense | backend/app/routes/budget.py:205-210 | returns the stored expense exactly when the id exists, else 404 "Expense not found" |
| BudgetRoutes.InsertByDate | backend/app/routes/budget.py:202 | inserting into a newest-first list keeps it newest-first and is a permutation of the old list plus the new expense |
| BudgetRoutes.SortNewestFirst | backend/app/routes/budget.py:202 | `ORDER BY date DESC` yields a newest-first permutation of the rows |
| BudgetRoutes.SortedFromInput | backend/app/routes/budget.py:202 | every sorted row comes from the input |
| BudgetRoutes.PageNewestFirst | backend/app/routes/budget.py:202 | a page of a newest-first list is newest-first |
| BudgetRoutes.SortedPageMembers | backend/app/routes/budget.py:195-202 | every row of a page of the sorted matches is a table row that passes the filters |
| BudgetRoutes.SortedPageAll | backend/app/routes/budget.py:195-202 | a first page that can hold every match holds exactly the matches, as a multiset |
| BudgetRoutes.MatchesExpenseQuery | backend/app/routes/budget.py:196-201 | defines the expense filters: each given franchise, branch and budget must equal the row's |
| BudgetRoutes.ListExpenses | backend/app/routes/budget.py:186-202 | 422 exactly when the paging bounds fail; otherwise exactly the page, starting `skip` rows in, of the matching rows sorted newest date first: at most `limit` rows, newest first, each one from the table and matching every given filter, and all the matches when skip is 0 and they fit in `limit` |
| FranchiseSchemas.CreateIsActive | backend/app/schemas/franchise.py:9 | `is_active` defaults to true when omitted |
| FranchiseSchemas.ValidFranchiseCreate | backend/app/schemas/franchise.py:6-9 | defines the accepted create body: a name of 1 to 255 characters and a tax number of 1 to 50 |
| FranchiseSchemas.ValidFranchiseUpdate | backend/app/schemas/franchise.py:12-14 | defines the accepted update body: a given name has 1 to 255 characters |
| FranchiseModels.BranchOut | backend/app/schemas/branch.py:10-14 | the branch response carries the row's id, name, city and franchise |
| FranchiseModels.BranchesOf | backend/app/models/franchise.py:16 | the branches a franchise delete cascades to are exactly those of that franchise |
| FranchiseModels.CascadeKeepsOwned | backend/app/models/franchise.py:16 | deleting a franchise with its branches leaves every remaining branch owned by a remaining franchise |
| FranchiseModels.Registry.constructor | backend/app/models/franchise.py:7-16 | an empty database satisfies the table, tax-number uniqueness and ownership invariant |
| FranchiseRoutes.NewFranchise | backend/app/routes/franchise.py:19 | the inserted franchise has the body's name and tax number, the defaulted active flag and the given creation time |
| FranchiseRoutes.FindByTaxNumber | backend/app/routes/franchise.py:15 | the lookup finds a franchise with the tax number exactly when one exists |
| FranchiseRoutes.CreateFranchise | backend/app/routes/franchise.py:13-23 | 422 for a bad body; 400 "Tax number already registered" when the tax number is taken; otherwise exactly one row is inserted under the next key |
| FranchiseRoutes.MatchesFranchiseQuery | backend/app/routes/franchise.py:44-48 | defines the franchise filters: a non-empty search keeps names matching `%search%`, an activity filter keeps that flag |
| FranchiseRoutes.ListFranchises | backend/app/routes/franchise.py:26-51 | 422 exactly when the paging bounds fail; otherwise exactly the page of the matching rows, in table order, that starts `skip` rows in (at most `limit` rows, default 10), each matching the search and the active filter, and all matches when skip is 0 and they fit |
| FranchiseRoutes.SearchFindsContaining | backend/app/routes/franchise.py:44-45 | with a wildcard-free search, every listed franchise's name contains the search text, ignoring ASCII case |
| FranchiseRoutes.CountActive | backend/app/routes/franchise.py:58 | the active count is the number of active franchises |
| FranchiseRoutes.FranchiseStats | backend/app/routes/franchise.py:54-65 | total is the row count, active the active count, inactive their difference, all three 0 on an empty table |
| FranchiseRoutes.GetFranchise | backend/app/routes/franchise.py:68-73 | returns the stored franchise exactly when the id exists, else 404 "Franchise not found" |
| FranchiseRoutes.ApplyFranchiseUpdate | backend/app/routes/franchise.py:86-88 | an update changes only the name and active flag that were sent; tax number and creation time stay |
| FranchiseRoutes.FranchiseUpdateIdempotent | backend/app/routes/franchise.py:86-88 | applying an update twice equals once, and the empty update changes nothing |
| FranchiseRoutes.UpdateFranchise | backend/app/routes/franchise.py:76-92 | 422 for a bad body, 404 for an unknown id; otherwise exactly that row is updated |
| FranchiseRoutes.DeleteFranchise | backend/app/routes/franchise.py:95-103 | 404 for an unknown id; otherwise the franchise and all its branches are removed and nothing else |
| FranchiseRoutes.ListBranchesForFranchise | backend/app/routes/franchise.py:106-126 | 422 for bad paging, 404 for an unknown franchise, and success exactly when neither applies; then exactly the page of that franchise's branches, in table order, that starts `skip` rows in: at most `limit` branches, all of that franchise, and all of them when skip is 0 and they fit |
| BranchSchemas.ValidBranchCreate | backend/app/schemas/branch.py:4-7 | defines the accepted branch body: a name and a city of 1 to 255 characters each |
| BranchRoutes.NewBranch | backend/app/routes/branch.py:17 | the inserted branch carries the body's name, city and franchise |
| BranchRoutes.CreateBranch | backend/app/routes/branch.py:11-21 | 422 for a bad body, 404 when the franchise does not exist; otherwise exactly one branch is inserted under the next key and returned |
| BranchRoutes.ListBranches | backend/app/routes/branch.py:24-31 | exactly the page, in table order, of the rows passing the franchise filter: at most `limit` rows (when it is not negative), each matching the filter; a franchise id of 0 filters nothing, and a negative limit with no offset returns every row |
| BranchRoutes.GetBranch | backend/app/routes/branch.py:34-39 | returns the branch exactly when the id exists, else 404 "Branch not found" |
| BranchRoutes.DeleteBranch | backend/app/routes/branch.py:42-50 | 404 for an unknown id; otherwise exactly that branch is removed |
| Security.Hash | backend/app/security.py:57-58 | hashing yields a well-formed stored hash |
| Security.VerifyPassword | backend/app/security.py:49-54 | a malformed stored hash never verifies (the ValueError case) |
| Security.HashVerifies | backend/app/security.py:49-58 | a password verifies against its own hash and against no other password's |
| Security.Admin | backend/app/security.py:37-46 | the demo user is "admin", enabled, with password "secret" |
| Security.UserStore.constructor | backend/app/security.py:37-46 | the store starts with only the demo user |
| Security.AuthenticateUser | backend/app/security.py:61-67 | an unknown user fails; a known user succeeds exactly when the password verifies, and the record returned is that user's |
| Security.AdminCredentials | backend/app/security.py:37-67 | with the initial store, "admin" logs in exactly with password "secret" |
| Security.CreateAccessToken | backend/app/security.py:70-78 | the token carries the given claims and expires at now + delta, or at now + 15 minutes when the delta is absent or zero |
| AuthRoutes.Login | backend/app/routes/auth.py:18-39 | 401 "Invalid credentials" exactly when authentication fails; otherwise a bearer token for that username expiring after 30 minutes |
| AuthRoutes.SplitScheme | backend/app/routes/auth.py:15 | the authorization header splits at its first space into a space-free scheme and the rest |
| AuthRoutes.LowerAscii | backend/app/routes/auth.py:15 | the scheme is lowered character by character: each ASCII capital becomes its lower-case letter (code point plus 32) and every other character stays, keeping the length |
| AuthRoutes.VerifyToken | backend/app/routes/auth.py:42-47 | no header gives 403 "Not authenticated"; any success is `{valid: true, message: "Token is valid"}` |
| AuthRoutes.HeaderVerdict | backend/app/routes/auth.py:15 | a header `scheme credentials` passes exactly when both are non-empty and the scheme is "bearer" in any case; an empty part gives "Not authenticated", another scheme gives "Invalid authentication credentials" |
| AuthRoutes.BearerTokenAccepted | backend/app/routes/auth.py:42-47 | any non-empty, space-free token sent as "Bearer token" is accepted without being decoded |
| AuthRoutes.EmptyBearerRejected | backend/app/routes/auth.py:15 | "Bearer " with no token is refused with 403 "Not authenticated" |
| AuthRoutes.OtherSchemeRejected | backend/app/routes/auth.py:15 | a Basic header is refused with 403 "Invalid authentication credentials" |
| AuthRoutes.LowerSchemes | backend/app/routes/auth.py:15 | "Bearer" lowers to "bearer" and "Basic" does not |
| AuthRoutes.SplitAt | backend/app/routes/auth.py:15 | splitting `scheme + " " + rest` with a space-free scheme gives back exactly scheme and rest |
| AuthRoutes.ValidSignup | backend/app/routes/auth.py:50-54 | defines the accepted signup body: a username of 3 to 50 characters and a password of 6 to 128 |
| AuthRoutes.NewUser | backend/app/routes/auth.py:65-71 | the stored user has the request's username and full name, an email only when a non-empty one was given, the password's hash, and is enabled |
| AuthRoutes.Signup | backend/app/routes/auth.py:57-74 | 422 for a bad body; 400 "Username already exists" for a taken name; otherwise exactly that user is added and a token for them is returned |
| AuthRoutes.LoginAfterSignup | backend/app/routes/auth.py:57-74 | after signing up, the new user can log in with their password, and every other user's login is unchanged |
| Toasts.WithoutId | frontend/src/components/Toast.tsx:32-34 | removing a toast keeps exactly the toasts with a different id |
| Toasts.RemoveIdempotent | frontend/src/components/Toast.tsx:32-34 | removing a toast twice equals removing it once |
| Toasts.RemoveAbsent | frontend/src/components/Toast.tsx:32-34 | removing an id no toast has changes nothing |
| Toasts.RemoveKeepsOrder | frontend/src/components/Toast.tsx:32-34 | removal keeps the remaining toasts in order |
| Toasts.SameMillisecondCollision | frontend/src/components/Toast.tsx:24-29 | two toasts added in the same millisecond share an id, and one removal takes both away |
| Toasts.ToastQueue.constructor | frontend/src/components/Toast.tsx:22 | the queue starts empty with no timer pending |
| Toasts.ToastQueue.AddToast | frontend/src/components/Toast.tsx:24-30 | adding appends one toast with the clock as its id and schedules one removal timer for that id |
| Toasts.ToastQueue.RemoveToast | frontend/src/components/Toast.tsx:32-34 | closing removes exactly the toasts with that id; timers stay scheduled |
| Toasts.ToastQueue.FireTimer | frontend/src/components/Toast.tsx:29 | a timer firing removes its toasts and its own timer; when no timer is left, no toast is left |
| Api.BearerHeader | frontend/src/api.ts:10-12 | the header is "Bearer " followed by the token |
| Api.LoggedOutHeaderRejected | frontend/src/App.tsx:49-56 | after logout the header "Bearer " is refused by the verify route with 403 "Not authenticated" |
| Api.InstalledHeaderAccepted | frontend/src/api.ts:10-12 | the header installed for any non-empty, space-free token passes the verify route |
| Api.ErrorText | frontend/src/pages/Login.tsx:38-43 | the server's detail is shown when present and non-empty, the page's fallback otherwise |
| Api.Browser.constructor | frontend/src/api.ts:5-7 | the client starts with the given storage and no authorization header |
| Api.Browser.SetAuthToken | frontend/src/api.ts:10-12 | sets the authorization header to `BearerHeader(token)` and leaves storage alone |
| Api.Browser.SetItem | frontend/src/pages/Login.tsx:30-31 | storage gains exactly that key and value |
| Api.Browser.RemoveItem | frontend/src/App.tsx:50-51 | storage loses exactly that key |
| Session.Render | frontend/src/App.tsx:58-111 | a visitor who is not logged in sees only the login or signup screen, as the auth mode says; an unknown page shows the dashboard; the budget form is shown for an id only on the "budgets-view" page and with the selected id |
| Session.StoredSession | frontend/src/App.tsx:34-37 | a session is restored exactly when both stored items are present and non-empty |
| Session.StoredLoginRestores | frontend/src/pages/Login.tsx:30-31 | what login stores is restored on the next start |
| Session.LogoutLeavesNothing | frontend/src/App.tsx:50-51 | after logout no session is restored |
| Session.App.constructor | frontend/src/App.tsx:22-30 | the shell starts logged out on the dashboard page in login mode, showing the login screen |
| Session.App.RestoreSession | frontend/src/App.tsx:32-42 | a stored session logs the user in and installs their token; without one nothing changes |
| Session.App.HandleLoginSuccess | frontend/src/App.tsx:44-47 | the user is logged in under that name and the page is kept |
| Session.App.HandleLogout | frontend/src/App.tsx:49-56 | both stored items are removed, the header becomes "Bearer ", the user is logged out, the page returns to the dashboard, and the auth screen is shown |
| Session.App.SetAuthMode | frontend/src/App.tsx:65 | switches only the auth mode |
| Session.App.Navigate | frontend/src/App.tsx:121-161 | switches only the current page |
| Session.App.ViewBudget | frontend/src/App.tsx:93-96 | selects the budget and shows its form when logged in |
| LoginPage.Welcome | frontend/src/pages/Login.tsx:36 | the greeting is "Welcome back, " + username + "!" |
| LoginPage.LoginForm.constructor | frontend/src/pages/Login.tsx:10-14 | the form starts empty and not loading |
| LoginPage.LoginForm.HandleSubmit | frontend/src/pages/Login.tsx:16-47 | a request is sent exactly when both fields are non-empty, otherwise a warning; success stores token and username, installs the header, greets the user and logs them in; failure shows the detail or "Invalid credentials. Try admin/secret"; loading ends false |
| SignupPage.SignupBody | frontend/src/pages/Signup.tsx:31-35 | the body carries username and password, and an email only when one was typed |
| SignupPage.SignupForm.constructor | frontend/src/pages/Signup.tsx:11-16 | the form starts empty and not loading |
| SignupPage.SignupForm.HandleSubmit | frontend/src/pages/Signup.tsx:18-47 | a request is sent exactly when username and password are non-empty and the confirmation matches; success stores the session, installs the header and logs in; failure shows the detail or "Signup failed" |
| BudgetListPage.Item | frontend/src/pages/BudgetList.tsx:5-15 | a listed budget carries the row's id, amounts and status name |
| BudgetListPage.RequestQuery | frontend/src/pages/BudgetList.tsx:37-39 | the franchise filter is sent only when non-zero and the period only when non-empty; no branch, offset or limit is sent |
| BudgetListPage.StatusFiltered | frontend/src/pages/BudgetList.tsx:41-44 | the status filter keeps exactly the budgets with that status, and all of them when it is empty |
| BudgetListPage.StatusFilterKeepsOrder | frontend/src/pages/BudgetList.tsx:41-44 | filtering by status keeps the server's order |
| BudgetListPage.StatusFilterOnServerRows | frontend/src/pages/BudgetList.tsx:41-44 | filtering server rows by a status name keeps only budgets with that status |
| BudgetListPage.TotalPlanned | frontend/src/pages/BudgetList.tsx:109 | the planned total of no budgets is 0, and of non-negative amounts non-negative |
| BudgetListPage.TotalActual | frontend/src/pages/BudgetList.tsx:110 | the actual total of no budgets is 0, and of non-negative amounts non-negative |
| BudgetListPage.TotalsAppend | frontend/src/pages/BudgetList.tsx:109-110 | totals add up over concatenated lists |
| BudgetListPage.Variance | frontend/src/pages/BudgetList.tsx:111 | variance plus planned total is the actual total |
| BudgetListPage.VarianceAppend | frontend/src/pages/BudgetList.tsx:111 | variance adds up over concatenated lists |
| BudgetListPage.StatusColor | frontend/src/pages/BudgetList.tsx:88-101 | approved, rejected and closed get green, red and blue; every other status, draft included, gets the gray default |
| BudgetListPage.StatusColors | frontend/src/pages/BudgetList.tsx:88-101 | draft looks like any unknown status, and the three decided statuses each differ from every other status |
| BudgetListPage.ReviewOfferedOnDrafts | frontend/src/pages/BudgetList.tsx:259-274 | approve and reject are offered exactly for draft budgets |
| BudgetListPage.ActionToast | frontend/src/pages/BudgetList.tsx:54-86 | an action's toast is a success exactly when the request succeeded |
| BudgetListPage.BudgetList.constructor | frontend/src/pages/BudgetList.tsx:24-28 | the page starts loading, with no budgets and no filters |
| BudgetListPage.BudgetList.FetchBudgets | frontend/src/pages/BudgetList.tsx:34-52 | on success the list is the server rows filtered by status; on failure one error toast; loading ends false; filters are kept |
| BudgetListPage.BudgetList.ClearFilters | frontend/src/pages/BudgetList.tsx:188-192 | all filters are cleared, so the next request sends no filter |
| BudgetListPage.BudgetList.HandleAction | frontend/src/pages/BudgetList.tsx:54-86 | an unconfirmed delete does nothing; otherwise one toast is shown, and the list is refetched exactly when the request succeeded |
| BudgetFormPage.Errors | frontend/src/pages/BudgetForm.tsx:115-211 | each field's error is absent exactly when its rule holds: franchise chosen, period matching YYYY-MM, a 3-character currency, a non-negative planned amount; empty period and currency get the "required" messages |
| BudgetFormPage.AcceptedEdgeCases | frontend/src/pages/BudgetForm.tsx:163-211 | the form accepts amount 0 and month 13, and refuses a negative amount or a missing franchise |
| BudgetFormPage.ReadBranch | backend/app/schemas/budget.py:8 | the server reads a chosen branch as that id, null or a left-out field as no branch, and refuses the empty string with 422 |
| BudgetFormPage.CreateBodyAsWritten | frontend/src/pages/BudgetForm.tsx:83-89 | the create request as the page sends it is refused with 422 exactly when the branch select holds its placeholder value, and otherwise equals the corrected body |
| BudgetFormPage.UpdateBodyAsWritten | frontend/src/pages/BudgetForm.tsx:83-85 | the update request as the page sends it is refused with 422 exactly when the branch select holds its placeholder value, and otherwise equals the corrected body |
| BudgetFormPage.FranchiseLevelRefused | frontend/src/pages/BudgetForm.tsx:142-153 | after a branch is chosen and then "Franchise-level (No Branch)" again, a form the page accepts is refused by the server on both create and edit; with a branch chosen both are sent |
| BudgetFormPage.BranchChoice | frontend/src/pages/BudgetForm.tsx:143-152 | the "Franchise-level (No Branch)" option gives the placeholder value and a branch option gives that branch's id |
| BudgetFormPage.SentBranch | frontend/src/pages/BudgetForm.tsx:147 | the corrected branch value is never the empty string, and reads as the chosen branch or none |
| BudgetFormPage.CreateBody | frontend/src/pages/BudgetForm.tsx:83-89 | every accepted form gives a create body the server accepts, with the form's scope, currency and amount; the placeholder means no branch |
| BudgetFormPage.UpdateBody | frontend/src/pages/BudgetForm.tsx:83-86 | every accepted form gives an update body the server accepts, setting currency, planned amount and branch only; the "no branch" option clears the branch, and a branch field never set is left out |
| BudgetFormPage.UpdateKeepsScope | backend/app/schemas/budget.py:14-20 | the franchise and period sent by the edit form are dropped, so saving never moves a budget or changes its status or amounts beyond planned |
| BudgetFormPage.CallFor | frontend/src/pages/BudgetForm.tsx:83-89 | an update is sent exactly when the budget id is present and non-zero, else a create |
| BudgetFormPage.BudgetForm.constructor | frontend/src/pages/BudgetForm.tsx:19-27 | the form starts empty, not loading, with the branch field not yet set and currency "TRY" (the currency field's default value) |
| BudgetFormPage.BudgetForm.SelectBranch | frontend/src/pages/BudgetForm.tsx:142-153 | choosing a branch option sets the branch field to that option's value and nothing else |
| BudgetFormPage.BudgetForm.LoadBudget | frontend/src/pages/BudgetForm.tsx:63-78 | on success the fields take the budget's values; on failure one error toast |
| BudgetFormPage.BudgetForm.Submit | frontend/src/pages/BudgetForm.tsx:80-100 | a request is sent exactly when the form is valid, and it is the corrected create or update body; success shows a toast and returns to the budget list; failure shows the detail or "Failed to save budget"; loading ends false |
| FranchiseListPage.EncodeStatus | frontend/src/pages/FranchiseList.tsx:77-85 | the status select shows "", "true" or "false", and "" exactly for no filter |
| FranchiseListPage.DecodeStatus | frontend/src/pages/FranchiseList.tsx:78-79 | the select's value gives no filter exactly for "", and active exactly for "true" |
| FranchiseListPage.StatusSelectRoundTrip | frontend/src/pages/FranchiseList.tsx:77-85 | decoding an encoded filter gives it back, and so does encoding a decoded option |
| FranchiseListPage.RequestQuery | frontend/src/pages/FranchiseList.tsx:30-34 | the search is sent only when non-empty, with the active filter and limit 50; the server's paging bounds always hold |
| FranchiseListPage.FranchiseList.constructor | frontend/src/pages/FranchiseList.tsx:17-21 | the page starts loading, with no franchises and no filters |
| FranchiseListPage.FranchiseList.FetchFranchises | frontend/src/pages/FranchiseList.tsx:28-42 | on success the list is the server's answer; on failure one error toast; loading ends false |
| FranchiseListPage.FranchiseList.HandleDelete | frontend/src/pages/FranchiseList.tsx:44-55 | unconfirmed: nothing changes; success: the franchise is dropped from the list and one success toast shown; failure: the list stays and one error toast is shown |
| FranchiseListPage.DeleteOneFranchise | frontend/src/pages/FranchiseList.tsx:44-55 | deleting a franchise with a unique id leaves the rest of the list in order |
| BranchManagementPage.FranchiseName | frontend/src/pages/BranchManagement.tsx:183 | the name column is empty exactly when no listed franchise has the id, and otherwise shows a listed franchise's name |
| BranchManagementPage.FirstMatch | frontend/src/pages/BranchManagement.tsx:183 | the name shown is that of the first franchise with the id |
| BranchManagementPage.FranchiseNameFirstWins | frontend/src/pages/BranchManagement.tsx:183 | later entries never override an earlier match |
| BranchManagementPage.Errors | frontend/src/pages/BranchManagement.tsx:98-137 | each field's error is absent exactly when a franchise is chosen, the name is non-empty, and the city is non-empty |
| BranchManagementPage.Body | frontend/src/pages/BranchManagement.tsx:54-67 | the request carries the form's fields, and the server accepts it exactly when name and city fit 255 characters |
| BranchManagementPage.BranchManagement.constructor | frontend/src/pages/BranchManagement.tsx:24-34 | the page starts loading with empty lists and an empty form |
| BranchManagementPage.BranchManagement.FetchData | frontend/src/pages/BranchManagement.tsx:40-52 | franchises are asked for only after the branches arrive; both lists are taken when both succeed; otherwise one error toast; loading ends false |
| BranchManagementPage.BranchManagement.Submit | frontend/src/pages/BranchManagement.tsx:54-67 | a request is sent exactly when the form is valid; success resets the form, shows a toast and refetches; failure shows the detail or the fallback |
| BranchManagementPage.BranchManagement.HandleDelete | frontend/src/pages/BranchManagement.tsx:69-83 | unconfirmed: nothing changes; success: the branch is dropped from the list and one success toast shown; failure: one error toast is shown |
| BranchManagementPage.DeleteOneBranch | frontend/src/pages/BranchManagement.tsx:69-83 | with distinct branch ids, a delete removes exactly that branch and keeps the others in order |

## Left out

- The `/budgets/rollup` route: it is declared after `/budgets/{budget_id}`, so the router never reaches it, and the frontend does not call it.
- Routing itself: mounting, CORS, dependency injection and the OpenAPI schema.
- Password hashing and JWT encoding are symbolic. A hash is a value that verifies only its own password. A token is its claims and expiry, with no signature.
- The clock (`datetime.utcnow`, `datetime.now`, `Date.now`) is a parameter.
- `Numeric(12,2)` and the floats of the responses are integers in hundredths. The burn rate is a pair of amounts, not a float.
- AuthRoutes.Signup: `EmailStr` validation and normalisation are not modelled. Any string is accepted as an email.
- BudgetRoutes.UpdateBudget: an unknown status string is modelled as a 500 that leaves the table unchanged. What the ORM really does with such a string is not modelled.
- BudgetRoutes.UpdateBudget: an explicit null is modelled only for the nullable columns (branch and approved amount). A null sent for currency, planned amount, actual amount or status is not modelled.
- SQLite does not enforce `VARCHAR` lengths or foreign keys. The model keeps only the length invariant the schemas already guarantee. It does not model expenses or budgets that point at missing franchises or branches.
- AuthRoutes.VerifyToken: the 403 status for a missing or malformed header follows the `HTTPBearer` of the FastAPI version this code targets. Newer versions answer 401.
- The Dashboard and FranchiseForm pages, `seed.py` and the branch model module are not part of this model. The branch row shape is declared with the franchise model.
- BudgetSchemas.IsPeriod: the period pattern is modelled with ASCII digits. The server's `\d` also accepts other Unicode digits.
- BudgetListPage.RequestQuery: the page has no input that sets the franchise filter; only Clear Filters writes it. The filter is a parameter, and 0 counts as no filter, as the truthiness test at line 38 has it.
- BudgetFormPage.Errors: choosing the franchise select's placeholder after a franchise sets the field to `Number("") = 0`, which passes the required rule. The model treats the field as either chosen or absent.
- BudgetFormPage.BudgetForm: the franchise and branch option lists (`fetchFranchises`, `fetchBranches`) only fill the selects and log failures. They are not modelled.
- Api.ErrorText: a `detail` that is not a string (a 422 error list) is shown as-is by the pages. The model only has string details.
- Async ordering between overlapping requests, confirm dialogs (modelled as a boolean parameter), `console.error` logging and rendering markup are not modelled.
- Toasts.ToastQueue.FireTimer: the 3000 ms `setTimeout` delay is not modelled. A timer firing is an explicit event that may happen at any time.
- BudgetFormPage.BudgetForm.Submit: it sends the corrected create and update bodies (see Findings). The as-written bodies are modelled separately.
- BudgetFormPage.BudgetForm: the branch select is disabled until a franchise is chosen, and the form library may leave a never-set or disabled select out of the submitted data. The model reads such a field as left out (no branch on create, branch kept on update). Only a placeholder chosen after a branch is taken to send the empty string.
- FranchiseRoutes.UpdateFranchise: an explicit null in the body is not modelled. A null name would break the NOT NULL column (a 500). A null `is_active` would be stored and then fail response validation (a 500). The model's update fields are only "not sent" or a value.
- Row order: a list without `ORDER BY` (budgets, franchises, branches) is modelled in primary-key order, and expenses with the same date keep that order. SQLite does not promise this. A plan that reads through an index, such as those at backend/app/models/budget.py:18-20 and :40-42, can return another order.

## Findings

| source | as written | input that shows it | evidently intended | confidence | as-written member | corrected member |
|---|---|---|---|---|---|---|
| frontend/src/pages/BudgetForm.tsx:147 | the branch select's placeholder option "Franchise-level (No Branch)" has value "", and the create request sends it as `branch_id: ""`; the server's `Optional[int]` refuses "" with 422 | new budget: franchise 1, choose a branch, then choose "Franchise-level (No Branch)" again; period "2025-12", currency "TRY", planned 1000.00 | a franchise-level budget is created with `branch_id` null | medium; not executed | BudgetFormPage.FranchiseLevelRefused | BudgetFormPage.CreateBody |
| frontend/src/pages/BudgetForm.tsx:84 | the edit form sends the same `branch_id: ""` in the update, which the server's `Optional[int]` at backend/app/schemas/budget.py:15 refuses with 422 | edit a budget of a branch, choose "Franchise-level (No Branch)", save | the budget's branch is cleared | medium; not executed | BudgetFormPage.UpdateBodyAsWritten | BudgetFormPage.UpdateBody |
