# Teamacy authentication and message intake, modelled in Dafny

Teamacy's website is mostly static pages. Its logic is a small core in two
halves, and this project models both:

- **The FastAPI server** (`backend/server.py`). It keeps a MongoDB `users`
  collection and two message collections, `enquiries` and `feedback`. Its
  routes are `register`, `login`, the startup admin re-seed `create_admin`,
  the `get_current_user` dependency and the two submission routes.
  Submissions are stored and announced by e-mail, and URLs in the e-mail are
  made clickable by `make_links_clickable`.
- **The React client.** Its session is the stored 'token' and 'user', the
  app's `user` and `loading`. The model covers the restore effect, the
  `ProtectedRoute` guard and the route table, the user and admin login forms,
  the admin dashboard's fetch, logout and counts, the navbar, and the contact
  form's two submissions. The dashboard has its own `makeLinksClickable`,
  which splits a message into text and URL parts.

Everything is a value. The database is `Server.Db`: users in natural
(insertion) order, so `find_one` returns the first match. The client session
is `App.Session`. Each route or handler is a pure function from the state and
the request to the response and the new state. Whatever a handler draws from
outside comes in as a parameter:

- uuid4 ids;
- bcrypt salts;
- the clock, in whole seconds;
- the e-mail provider's answer;
- the outcome of an HTTP request.

bcrypt and JWT are abstract data with the laws the server relies on:

- a hash accepts exactly the password it was made from;
- a token decodes to its claims under the server's key until its `exp`;
- anything else fails with 401 "Invalid token".

PyJWT writes `exp` as whole seconds. It rejects a token once `exp <= now`.
For an integer `exp`, that test gives the same answer on the clock's value
as on the clock's floor. So for token expiry a clock in whole seconds loses
nothing. The stored `created_at` is coarsened by it (see "Left out").

Some facts the model keeps on purpose:

- Email uniqueness is checked only by `register`, with an exact string
  comparison. `create_admin` does not check it. No global uniqueness is
  assumed: `Scenarios.AdminEmailShadowed` shows that the seeded admin can be
  shadowed by an earlier user with the same email.
- The two linkifiers share one scanner. It is parameterised by the regular
  expression engine's notion of `\s`. Python's `str.isspace()` includes
  U+001C..U+001F and U+0085. ECMAScript's `\s` includes U+FEFF instead.
- The admin listing routes (`GET /api/enquiries`, `GET /api/feedback`) are
  called by the dashboard but are not in `backend/server.py`. Their guard,
  `Server.ListMessages`, is derived from `backend_test.py` only:
  - no token gives 401;
  - an ordinary user's token gives 403;
  - an admin's token gives 200.
  These are the cases as the test script names them. Its request helper
  (backend_test.py:43-46) attaches the user's token whenever it holds one,
  so "Enquiries Without Token" (backend_test.py:226-231) may in fact send
  that token. The model follows the names, not the literal requests.
  The test script never reads the body of the 200 answer. That the body is
  the whole collection is an assumption of the model, on which the
  dashboard scenarios rest.
- The contact page posts to `/api/messages`, which `backend/server.py` does
  not define either. The contact form is modelled on the client side only.
  Whether a post succeeds is a parameter.

## Model

| member | source | states |
|---|---|---|
| `Linkify.MakeLinksClickableHtml` | backend/server.py:113-114 | the e-mail text equals the message exactly when the message holds no `https?://` run, and is never shorter |
| `Linkify.LinkifyFromLength` | backend/server.py:113-114 | from any position, `re.sub` copies URL-free text unchanged, and each URL makes the output strictly longer, since the anchor holds it twice |
| `Linkify.MatchIsMaximalUrl` | backend/server.py:114 | a match is a scheme and at least one more character, holds no whitespace, and ends at whitespace or at the end of the text (greedy) |
| `Linkify.HtmlMatchesSplit` | backend/server.py:113-114 | the server's e-mail text is the dashboard-style split of the message with each URL piece wrapped in `<a href="u">u</a>` and text pieces copied |
| `Linkify.MakeLinksClickable` | frontend/src/pages/AdminDashboard.js:59-76 | the parts' texts concatenate back to the message; text parts sit at even positions and anchors at odd ones; each anchor is one whole URL; no URL starts inside a text part, even when it is read together with the parts after it, so every URL of the message is an anchor; a single text part comes back exactly when the message has no URL |
| `Linkify.ClickableIsDetermined` | frontend/src/pages/AdminDashboard.js:59-76 | any list of parts with that shape (reading back as the message, text at even and anchors at odd positions, no URL starting inside a text part) is exactly what `makeLinksClickable` returns |
| `Linkify.SplitConcat` | frontend/src/pages/AdminDashboard.js:60-61 | concatenating the pieces of `text.split(urlPattern)` gives back the text |
| `Linkify.SplitAlternates` | frontend/src/pages/AdminDashboard.js:60-62 | the pieces alternate text and URL, with text first and last; no match starts inside a text piece, even when it is read together with the text after it; every URL piece starts with a scheme and has no whitespace; every text piece after a URL starts with whitespace or is the empty last piece |
| `Linkify.AlternatingIsSplit` | frontend/src/pages/AdminDashboard.js:60-62 | any list of pieces with that shape is exactly the split of its own concatenation, so the shape determines the split |
| `Linkify.SplitSingleIffNoUrl` | frontend/src/pages/AdminDashboard.js:61-75 | the split has one piece exactly when the text has no URL, and that piece is the text |
| `Linkify.SplitByUrls` | frontend/src/pages/AdminDashboard.js:60-61 | the loop of ECMAScript's split computes the same pieces as the recursive definition, and they concatenate back to the text |
| `Common.RoleNamesDistinct` | backend/server.py:65 | the role strings "user" and "admin" name different roles, so `Register` (role string "user") never makes an admin and `CreateAdmin` (role string "admin") always does |
| `Crypto.HashPassword` | backend/server.py:87-88 | the hash of a password accepts that password and keeps the given salt |
| `Crypto.VerifyHashIff` | backend/server.py:87-91 | `checkpw(q, hash(p))` holds exactly when `q == p`, whatever the salt |
| `Crypto.CreateAccessToken` | backend/server.py:93-96 | the token carries the given sub and role, and `exp` is the issue time plus the configured hours; it decodes to those claims at every moment before `exp` and fails with 401 from `exp` on |
| `Crypto.DecodeToken` | backend/server.py:98-102 | decoding succeeds exactly for a token signed with the configured key and algorithm that has not expired, and then yields its claims; every failure is 401 "Invalid token" |
| `Crypto.ForeignTokenRejected` | backend/server.py:98-102 | a token signed with another key or algorithm never decodes |
| `Crypto.ExpiryIsMonotone` | backend/server.py:98-102 | a token that decodes at some moment also decoded at every earlier moment |
| `Server.FindOne` | backend/server.py:146 | `find_one` answers nothing exactly when no document matches, and otherwise the first matching document in natural order |
| `Server.FindOneAppend` | backend/server.py:154 | inserting a document keeps every earlier `find_one` answer; it only answers queries nothing matched before |
| `Server.Register` | backend/server.py:144-157 | fails with 400 "Email already exists" exactly when some stored user has that email, and then changes nothing; otherwise appends exactly one user (the drawn id, role string "user", a hash that accepts exactly the password), keeps everything else, and returns a bearer token for that user's id and role |
| `Server.Login` | backend/server.py:159-167 | succeeds exactly when the first user with the email exists and its hash accepts the password; returns that user and a token for its id and role; an unknown email and a wrong password both give 401 "Invalid credentials" |
| `Server.GetCurrentUser` | backend/server.py:104-111 | a token that does not decode gives 401 "Invalid token"; a decoded `sub` naming no user gives 401 "User not found"; otherwise it returns a stored user whose id is the `sub` |
| `Server.NonAdmins` | backend/server.py:197 | `delete_many({"role": "admin"})` keeps exactly the non-admin documents |
| `Server.CreateAdmin` | backend/server.py:195-210 | afterwards exactly one user is an admin; it is named "Teamacy Admin", has the role string "admin" and the configured email, and has a hash that accepts exactly the configured password; the non-admins before it are the old non-admins in order; messages are untouched |
| `Server.ReseedKeepsNonAdmins` | backend/server.py:196-209 | re-seeding once or twice leaves the same non-admin users |
| `Server.Submit` | backend/server.py:169-191 | the submission is appended verbatim to its own collection only; users are untouched; the notification goes to the business inbox with the route's subject and the body `MailHtml` builds from the submission; the answer is "ok", and the log line is an error exactly when delivery failed |
| `Server.MailHtml` | backend/server.py:118-125 | the body starts with the subject as a heading and ends with the message paragraph, which holds the server's linkified message; a message without a URL appears there verbatim |
| `Server.IntakeIgnoresDelivery` | backend/server.py:127-136 | the status, the stored data and the notification do not depend on whether the e-mail was delivered |
| `Server.ListMessages` | backend_test.py:199-245 | (test-derived) no token gives 401; an unusable token gives that token's 401; a non-admin gets 403; an admin gets an answer, assumed to be every stored message of the kind |
| `App.Mount` | frontend/src/App.js:15-16 | the app starts with no user and loading |
| `App.Restore` | frontend/src/App.js:18-25 | the stored user becomes the app's user when both 'token' and 'user' are stored, and otherwise the user is left as it was; loading ends in every case; storage is untouched |
| `App.SignOut` | frontend/src/components/Navbar.js:8-12 | both storage entries are removed and the user is cleared |
| `App.RestoreAfterSignOut` | frontend/src/App.js:18-25 | a reload after a sign-out restores nobody |
| `App.ProtectedRoute` | frontend/src/App.js:27-39 | while loading, the loading screen whoever the user is; once loaded, nobody goes to /login and a non-admin on an admin-only route goes to /; the children render exactly when loaded with a user who passes the admin check |
| `App.CanonMatchesPattern` | frontend/src/App.js:44-61 | a location matches a route path exactly when, with capitals folded, it is the path followed by nothing but slashes; this is how the router compares a location with a `<Route path>` (case-insensitive, trailing slashes allowed) |
| `App.Visit` | frontend/src/App.js:44-61 | nothing renders exactly when no route's path matches the location in that sense |
| `App.OnlyDashboardIsGuarded` | frontend/src/App.js:53-60 | /admin/dashboard is the only route behind `ProtectedRoute`, and it is admin-only |
| `App.OpenRoutesIgnoreSession` | frontend/src/App.js:45-52 | every location that does not match /admin/dashboard selects the same page whatever the session (the navigation bar around it still depends on the session) |
| `App.VisitDashboard` | frontend/src/App.js:53-60 | every location that matches /admin/dashboard, in any letter case and with any trailing slashes, shows the loading screen, then /login for nobody, / for a non-admin, and the dashboard for an admin |
| `App.VisitIgnoresCase` | frontend/src/App.js:45 | "/About" renders the About page |
| `App.VisitIgnoresSlash` | frontend/src/App.js:53-60 | "/Admin/Dashboard/" goes through the same guard as "/admin/dashboard" |
| `SignIn.SignInAs` | frontend/src/pages/Login.js:25-27 | both the token and the user are stored, and the user becomes the app's user |
| `SignIn.LoginSubmit` | frontend/src/pages/Login.js:17-41 | on success both are stored, the user is set, and an admin goes to /admin/dashboard while anyone else goes to /; on failure the session is unchanged and there is no navigation; loading ends on every path |
| `SignIn.AdminLoginSubmit` | frontend/src/pages/AdminLogin.js:17-42 | the session changes only for an admin, who is stored, set and sent to /admin/dashboard; a non-admin answer and a failure change nothing and do not navigate; loading ends on every path |
| `SignIn.AdminFormAgreesForAdmins` | frontend/src/pages/AdminLogin.js:25-36 | for an admin the admin form behaves exactly like the user form; for anyone else it only stops loading |
| `SignIn.SignInSurvivesReload` | frontend/src/App.js:18-23 | mounting the app on what a sign-in stored restores the same session |
| `Dashboard.Combine` | frontend/src/pages/AdminDashboard.js:31-38 | both lists arrive exactly when both requests succeed; otherwise the failure carries the status of a request that failed |
| `Dashboard.HandleLogout` | frontend/src/pages/AdminDashboard.js:52-57 | afterwards storage is empty and there is no user, and the dashboard goes to / |
| `Dashboard.FetchData` | frontend/src/pages/AdminDashboard.js:23-50 | with no stored token: go to /admin/login, send no request, change nothing else; otherwise loading ends, success replaces both lists, a 401 signs out and goes to /, and other failures keep the lists and the session |
| `Dashboard.CardOf` | frontend/src/pages/AdminDashboard.js:216-237 | a card shows the name, a `mailto:` link and the subject; its message is `makeLinksClickable` of the message: the parts read back as the message, text and anchors alternate, and no URL starts inside a text part, so every URL in it is an anchor |
| `Dashboard.RenderBoard` | frontend/src/pages/AdminDashboard.js:90-189 | the loading screen exactly while loading; otherwise the counts are the lengths of the two lists, and there is one card per message of the active tab whose text reads back as that message |
| `Dashboard.SelectTab` | frontend/src/pages/AdminDashboard.js:164-188 | a tab button changes only the active tab |
| `Dashboard.CountsAfterLoad` | frontend/src/pages/AdminDashboard.js:139-184 | after a successful load the counts are the lengths of the fetched lists |
| `Navbar.Items` | frontend/src/components/Navbar.js:29-77 | the five page links come first; the Dashboard link is there exactly for an admin; the Logout button exactly when there is a user; the name box exactly with that user's name; the Login link exactly when there is no user |
| `Navbar.MobileItems` | frontend/src/components/Navbar.js:89-138 | the closed mobile menu shows nothing; the open one shows the desktop items |
| `Navbar.Toggle` | frontend/src/components/Navbar.js:81-86 | the menu button flips `isOpen` and nothing else |
| `Navbar.Logout` | frontend/src/components/Navbar.js:63-68 | after desktop logout storage is empty, there is no user, and the menu is as it was |
| `Navbar.MobileLogout` | frontend/src/components/Navbar.js:122-126 | after mobile logout storage is empty, there is no user, and the menu is closed |
| `Navbar.LogoutShowsLogin` | frontend/src/components/Navbar.js:36-77 | after a logout the bar offers Login, neither Logout nor Dashboard, and the mobile menu is closed |
| `Navbar.ToggleTwice` | frontend/src/components/Navbar.js:83 | pressing the menu button twice restores the bar |
| `Common.KindNamesDistinct` | frontend/src/pages/Contact.js:37-60 | "enquiry" and "feedback" name different kinds |
| `Contact.PayloadOf` | frontend/src/pages/Contact.js:37-40 | the payload's `type` is the form's kind |
| `Contact.PayloadRoundTrip` | frontend/src/pages/Contact.js:57-60 | a payload's `type` recovers the kind that sent it, and its other fields are the form's four fields |
| `Contact.Submit` | frontend/src/pages/Contact.js:32-69 | the payload is the submitted form's four fields with its kind; on success that form is emptied, and on failure it is kept; its loading flag ends false; the other form and its flag are untouched |
| `Contact.FormsAreIndependent` | frontend/src/pages/Contact.js:28-29 | submitting the two forms in either order gives the same page |
| `Scenarios.RegisterThenLogin` | backend_test.py:104-123 | after `register(e, p)`, `login(e, p)` succeeds at any later time and returns the registered user with the same id |
| `Scenarios.RegisterTokenIdentifiesUser` | backend/server.py:104-111 | if the drawn id is not already taken, the token `register` returns identifies the new user until it expires |
| `Scenarios.UserTokenIsForbidden` | backend_test.py:221-245 | an ordinary user's valid token gets 403 from the listing, and no token gets 401 |
| `Scenarios.SeededAdminCanList` | backend_test.py:199-219 | after the re-seed, if no remaining user has the admin email or the drawn id, the configured credentials sign in as the admin, and that token lists every stored message |
| `Scenarios.AdminEmailShadowed` | backend/server.py:196-209 | when an earlier non-admin has the admin email, signing in with that email never gives an admin, and the admin form lets nobody in |
| `Scenarios.SubmissionReachesAdmin` | backend/server.py:169-191 | after a submission, the admin listing of its kind has exactly one more copy of it, and the other listing is unchanged |
| `Scenarios.LoginReachesDashboardOnlyAsAdmin` | frontend/src/pages/Login.js:31-35 | the login form sends an admin to the dashboard, which the guard then renders; anyone else goes to /, where the guard would also send them |
| `Scenarios.DashboardShowsDatabase` | frontend/src/pages/AdminDashboard.js:139-184 | with an admin's token, the dashboard's counts are the sizes of the stored collections |
| `Scenarios.StaleTokenSignsOut` | frontend/src/pages/AdminDashboard.js:42-57 | a stored token the server rejects signs the dashboard out and sends it to /, and a reload then restores nobody |
| `Scenarios.NonAdminFetchKeepsSession` | frontend/src/pages/AdminDashboard.js:42-49 | a non-admin's fetch gets 403: the session is kept, nothing is listed, and loading ends |

## Left out

- I/O is not modelled: MongoDB/motor, Resend, environment loading, CORS,
  axios and `localStorage`. Their effects are values, and their inputs are
  parameters: ids, salts, the clock, delivery and request outcomes.
- Request validation by pydantic is not modelled: `EmailStr` checking and
  normalisation, and the 422 answers. Emails are compared as they arrive.
- bcrypt internals are not modelled: the random salt, the hash string format
  and the 72-byte password limit.
- JWT encoding and signing are not modelled. A token is a signed claims
  record or opaque text. A correctly signed token without `sub` can only be
  made with the secret, so the `KeyError` path of `get_current_user` is left
  out.
- `register` reads the clock twice: once for `created_at` and once, inside
  `create_access_token`, for `exp`. The model uses one reading for both.
- `Server.Register` and `Server.CreateAdmin` are each one atomic step on the
  database. The server awaits between the e-mail lookup and the insert
  (server.py:146 and 154), and between the admin deletion and the insert
  (server.py:197 and 209). Two concurrent registrations with one e-mail
  can therefore both be inserted. Several workers starting at once can
  each seed an admin. Interleaved requests are not modelled, so
  "400 exactly when the e-mail is stored" holds only for serialised
  requests.
- `User.createdAt` is a whole number of seconds. The server stores a
  timezone-aware `datetime` with microseconds, as an ISO string. Sub-second
  precision and the string format are not modelled.
- `Server.ListMessages`: the handlers are not in the server source, so the
  contract promises the stored messages as a multiset and no order. The
  test script checks only the 200 status of an admin's request and never
  its body, so "the answer is the whole collection" is an assumption.
  `Scenarios.SeededAdminCanList`, `Scenarios.SubmissionReachesAdmin` and
  `Scenarios.DashboardShowsDatabase` rest on it. The 403
  detail is unknown and is modelled as an empty string. The 401 for a missing
  header follows the test script.
- Contact submissions go to `/api/messages`, which the server source does not
  define. The server side of that route is not modelled.
- Stored messages carry no `id` or `created_at`. The dashboard's
  `key={item.id}` and `formatDate(item.created_at)` are therefore not
  modelled, and neither is `formatDate`, which depends on locale and clock.
- `Dashboard.Combine`: `Promise.all` is concurrent. When both requests fail,
  the status of the first rejection to settle is reported. The model takes
  the enquiries request's status, because the order depends on timing.
- Toasts, animations and page markup are not modelled. Neither are the
  intermediate `loading = true` states while a request is in flight; only
  the state after each handler is modelled.
- The register page and the static pages are not modelled.
- `App.Visit`: the location is the pathname after the router has
  percent-decoded it. Percent-decoding and a `basename` are not modelled.
  The router ranks routes rather than taking the first match. The nine
  route paths match disjoint sets of locations, so the first match is the
  ranked one.
- `App.Canon` folds only the capitals A-Z. The router's pattern also folds
  other letters case-insensitively, but no other letter folds to a
  character of the all-ASCII route paths, so the matches are the same.
- JSON serialisation of the stored user is not modelled: the stored object
  is the server's user. A stored entry that is present but empty is treated
  as present.
- JavaScript strings are UTF-16 code units, and Dafny strings are Unicode
  scalar values. A surrogate pair is never whitespace, so splitting gives
  the same pieces either way.
