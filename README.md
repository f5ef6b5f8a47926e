# Job portal: session, route guard, job routes and form logic in Dafny

This project models the logic of a small job-card portal: an Express backend that lists, creates and updates job cards, and a React front end in which admins create users and job cards and supervisors update the defect and status of a card. The model covers:

- the client session (`AuthProvider`), with its mount-time token validation, `login` and `logout`;
- the route guard (`PrivateRoute`) and the login page's redirects and demo presets;
- the three `/api/jobs` handlers, over an in-memory sequence of documents;
- the form validators and helpers of the admin and supervisor screens:
  - the password-strength meter;
  - the required-field checks;
  - the quantity stepper, with JavaScript's `parseInt`, `NaN` and `||`;
  - the `JBC` job id;
  - the profile-photo checks and the upload progress bar;
  - job selection;
  - the dashboard counters;
  - the admin tab resolution.

Each source file is one module:

- `auth_context.dfy`
- `private_route.dfy`
- `login_page.dfy`
- `jobs_routes.dfy`
- `role_creation.dfy`
- `job_creation.dfy`
- `profile_settings.dfy`
- `job_page.dfy`
- `dashboard.dfy`
- `admin_dashboard.dfy`

Three modules are shared:

- `wrappers.dfy`: `Option` and `Result`.
- `records.dfy`: the user and job records the front end receives, and the status colour used by both job screens.
- `js_text.dfy`: the JavaScript string semantics the components depend on. It covers `includes`, `startsWith`, `length` in UTF-16 code units, `parseInt` with no radix, loose `== 1` on a string, and `String(n)`. These follow sections 7.1.4.1.1 (StringToNumber) and 19.2.5 (parseInt) of the ECMAScript language specification.

State that a component or handler updates in place is a class. Its methods are specified by pure step functions over a state record (`State() == AfterLogin(old(State()), response)`), and the lemmas state what the step functions promise.

Everything asynchronous becomes a parameter or a separate step:

- A network call's outcome is a `Result` or `Option` argument.
- `Math.random()` is a `real` argument.
- The creation time of a saved document is a `now` argument.
- Whether the store throws is a `Storage` argument.
- Each timer callback is its own method.

Password strength is kept in half points (twice the percentage shown), so the 12.5-point steps are whole numbers. The meter's bands at 30, 60 and 80 therefore sit at 60, 120 and 160.

The provider's own API does not order the mount-time validation request against a `login` call. `AuthContext.LoginThenExpiredValidation` shows the consequence: if a login completes first and the stale token's validation then fails, the provider holds a signed-in user while the token has been removed from storage. The application's screens cannot produce this interleaving. The login page shows a loading screen instead of its form while `loading` is true (frontend/src/pages/Login.jsx:52-59), the guard does the same for the pages that offer logout, and `loading` ends only when the validation settles. `AuthContext.UiReachableConsistent` proves that every session reachable through those screens holds a user only together with a token.

## Model

| member | source | states |
|---|---|---|
| AuthContext.Initial | frontend/src/context/AuthContext.jsx:11-13 | The first render is in the Loading phase with `loading` true, no user, no error and no validation in flight. The token is exactly the stored one. |
| AuthContext.StartMount | frontend/src/context/AuthContext.jsx:16-30 | With no non-empty stored token, loading ends at once and no validation is started. With one, a validation is in flight and loading continues. |
| AuthContext.SettleValidation | frontend/src/context/AuthContext.jsx:18-27 | A successful validation sets the returned user and keeps the token. A failed one removes the token, sets "Session expired. Please login again." and leaves the user as it was. Loading ends either way. |
| AuthContext.AfterLogin | frontend/src/context/AuthContext.jsx:33-44 | Success stores exactly the returned token and user and clears the error. Failure sets "Invalid credentials" and leaves the token and user unchanged. Loading and the in-flight validation are untouched. |
| AuthContext.AfterLogout | frontend/src/context/AuthContext.jsx:46-50 | Token, user and error are all cleared, and loading and the in-flight validation are untouched. Outside loading, the phase becomes Unauthenticated. |
| AuthContext.MountOutcome | frontend/src/context/AuthContext.jsx:15-31 | Mounting always ends loading. It is Authenticated exactly when a non-empty stored token validates; it has the "session expired" error and no token exactly when one fails to validate. |
| AuthContext.ConsistentKept | frontend/src/context/AuthContext.jsx:15-50 | "A user is held only together with a token" holds initially. It is kept by the start of mount, by login and by logout, and it holds after an uninterrupted mount. |
| AuthContext.LoginThenExpiredValidation | frontend/src/context/AuthContext.jsx:18-39 | Through the provider's API alone, a login completing before a failing validation of a stale token leaves a user with no stored token. |
| AuthContext.UiInvariantKept | frontend/src/context/AuthContext.jsx:15-50 | Each event the screens can trigger keeps three facts: a user implies a token, there is no user while loading, and a validation in flight happens while loading and with a token. Mount is enabled only during the first loading; login and logout only once loading is over. |
| AuthContext.RunKeepsInvariant | frontend/src/context/AuthContext.jsx:15-50 | Any sequence of screen events keeps that invariant. |
| AuthContext.UiReachableConsistent | frontend/src/context/AuthContext.jsx:15-50 | From any stored token, every session the screens can reach holds a user only together with a token. The login form is hidden while loading (Login.jsx:52-59), and so are the pages behind the guard. |
| AuthContext.LogoutIdempotent | frontend/src/context/AuthContext.jsx:46-50 | Logging out twice gives the same state as logging out once. |
| AuthContext.FailedLoginKeepsPhase | frontend/src/context/AuthContext.jsx:40-43 | A rejected login does not change the session's phase. |
| AuthContext.AuthProvider.constructor | frontend/src/context/AuthContext.jsx:11-13 | The provider starts in the initial session. |
| AuthContext.AuthProvider.MountEffect | frontend/src/context/AuthContext.jsx:15-31 | The new state is StartMount of the old one. |
| AuthContext.AuthProvider.ValidationSettled | frontend/src/context/AuthContext.jsx:19-27 | The new state is SettleValidation of the old one and the validation outcome. |
| AuthContext.AuthProvider.Login | frontend/src/context/AuthContext.jsx:33-44 | The new state is AfterLogin of the old one. The caller gets the response data, or the rejection rethrown. |
| AuthContext.AuthProvider.Logout | frontend/src/context/AuthContext.jsx:46-50 | The new state is AfterLogout of the old one. |
| PrivateRoute.Guard | frontend/src/components/PrivateRoute.jsx:9-32 | The loading screen is shown exactly while loading, whatever the user and role are. Children render iff not loading, a user is present, and no role is required or the user's role equals it. Every redirect goes to "/" with replace. A `from` location is carried exactly when there is no user, and it is the current location. |
| PrivateRoute.RouteRole | frontend/src/App.jsx:17-26 | "/admin/*" requires "Admin" and "/supervisor" requires "Supervisor". |
| PrivateRoute.WrongRoleIsRedirected | frontend/src/components/PrivateRoute.jsx:28-30 | A signed-in user with the wrong role for a protected route is redirected to "/" without a `from`. |
| LoginPage.LandingPath | frontend/src/pages/Login.jsx:25-31 | "Admin" lands on "/admin" and "Supervisor" on "/supervisor". Every other role, "Floor attendant" included, lands on "/". |
| LoginPage.FromPath | frontend/src/pages/Login.jsx:16 | The remembered pathname when there is a non-empty one, and "/" otherwise. |
| LoginPage.DemoCredentials | frontend/src/pages/Login.jsx:39-50 | "admin" gives (admin, admin123) and "supervisor" gives (supervisor1, sup123). Any other argument gives (floor1, floor123). |
| LoginPage.LoginForm.constructor | frontend/src/pages/Login.jsx:7-16 | Empty fields, not submitting, no navigation yet, and `from` as FromPath computes it. |
| LoginPage.LoginForm.HandleSubmit | frontend/src/pages/Login.jsx:16-37 | The session moves by AfterLogin. Success appends exactly one navigation, to LandingPath of the returned role, with replace. `from` does not appear in the contract, so the target is the same whatever location was remembered. Failure navigates nowhere. `isSubmitting` is false on both paths. |
| LoginPage.LoginForm.HandleDemoLogin | frontend/src/pages/Login.jsx:39-50 | Both fields hold DemoCredentials of the argument. Nothing else changes. |
| JobsRoutes.Insert | backend/routes/jobs.js:9 | Inserting into a newest-first list keeps it newest first, and the result is the old multiset plus the new document. |
| JobsRoutes.SortNewestFirst | backend/routes/jobs.js:9 | The result is ordered by `createdAt` descending and is a permutation of the input. |
| JobsRoutes.FindById | backend/routes/jobs.js:31 | A found document is in the collection with that id. Nothing is found only when no document has that id. |
| JobsRoutes.UpdateById | backend/routes/jobs.js:31 | The matching document gets the body's fields set over its own. Ids, creation times and every other document are unchanged, and the length is kept. |
| JobsRoutes.UpdateIdempotent | backend/routes/jobs.js:31 | Applying the same update twice gives the same collection as applying it once. |
| JobsRoutes.UpdatedDoc | backend/routes/jobs.js:31-32 | The response holds a document iff the id exists. That document has the id and is in the updated collection. |
| JobsRoutes.JobStore.List | backend/routes/jobs.js:7-14 | A storage failure gives 500 with its message. Otherwise the response is 200 with every stored job, newest first. |
| JobsRoutes.JobStore.Create | backend/routes/jobs.js:16-27 | A non-Admin caller gets 403 "Access denied" and nothing changes. A storage failure gives 500 and nothing changes. Otherwise exactly one document, built from the body and with a fresh id, is appended and returned with 201. |
| JobsRoutes.JobStore.Update | backend/routes/jobs.js:29-36 | There is no role check. A storage failure gives 500 and nothing changes. Otherwise the collection becomes UpdateById, and the response is 200 with the updated document, or `null` for an unknown id. |
| JobsRoutes.CreatedJobIsListed | backend/routes/jobs.js:9-23 | A job added to the collection appears in the next listing. |
| JobsRoutes.LaterJobListedFirst | backend/routes/jobs.js:9 | Of two jobs, the later-created one is listed first. |
| RoleCreation.Strength | frontend/src/components/admin/RoleCreation.jsx:102-113 | The empty password scores 0. The score is within 0..100 in steps of 12.5. A length (in UTF-16 code units, as `password.length` counts) of 12 or more scores at least 50, and one under 8 at most 50. The full score holds exactly when all five criteria hold. |
| RoleCreation.AstralCharactersCountTwice | frontend/src/components/admin/RoleCreation.jsx:106-110 | Four emoji are eight code units long, so they earn the length award: 37.5, in the "medium" band. |
| JsText.Utf16Length | frontend/src/components/admin/RoleCreation.jsx:106-107 | `password.length` is between the number of characters and twice that. It equals the number of characters when every character is below U+10000. |
| RoleCreation.CapNeverBinds | frontend/src/components/admin/RoleCreation.jsx:105-112 | The score is exactly the sum of the five awards: 25, 25, 25, 12.5 and 12.5. The cap at 100 never takes effect. |
| RoleCreation.StrengthBand | frontend/src/components/admin/RoleCreation.jsx:129-134 | Below 30 is weak, below 60 medium, below 80 strong, and anything else very strong. Each band holds exactly on its interval. |
| RoleCreation.BandMonotone | frontend/src/components/admin/RoleCreation.jsx:129-134 | A higher score never gets a weaker band. |
| RoleCreation.BandOfLength | frontend/src/components/admin/RoleCreation.jsx:102-134 | The empty password is weak. A password of twelve code units or more is at least medium. |
| RoleCreation.RoleIcon | frontend/src/components/admin/RoleCreation.jsx:121-123 | Only "Admin" gets the shield icon. Every other role gets the tie. |
| RoleCreation.RoleColor | frontend/src/components/admin/RoleCreation.jsx:125-127 | Only "Admin" gets the "admin" colour. Every other role, "Floor attendant" included, gets "supervisor". |
| RoleCreation.RoleForm.constructor | frontend/src/components/admin/RoleCreation.jsx:7-15 | Empty form, strength 0, not creating. |
| RoleCreation.RoleForm.CalculatePasswordStrength | frontend/src/components/admin/RoleCreation.jsx:102-113 | The score accumulated on the UTF-16 length and the four character tests equals Strength of the password. |
| RoleCreation.RoleForm.HandlePasswordChange | frontend/src/components/admin/RoleCreation.jsx:115-119 | Only the password field changes, and the meter shows Strength of the new password. |
| RoleCreation.RoleForm.HandleSubmit | frontend/src/components/admin/RoleCreation.jsx:31-53 | With any field empty, nothing is sent and nothing changes. Otherwise the form is sent. On success the form resets to empty strings and the strength to 0. On failure both are kept. `isCreating` is false afterwards. |
| JobCreation.ParseQuantity | frontend/src/components/admin/JobCreation.jsx:45 | `parseInt` of the field: a number reads back as itself, NaN stays NaN, and text follows JsText.ParseInt. |
| JobCreation.Decrement | frontend/src/components/admin/JobCreation.jsx:203 | A quantity that parses to 2 or more drops by one. One that parses to 2 or less becomes exactly 1, so the result is never below 1. A field that does not parse becomes NaN. |
| JobCreation.Increment | frontend/src/components/admin/JobCreation.jsx:210 | The result is `parseInt(q) + 1` unless that is NaN or 0, in which case it is 1. The result is never 0. |
| JobCreation.StepperStaysPositive | frontend/src/components/admin/JobCreation.jsx:203-210 | On a positive quantity, minus keeps it positive, plus adds one, and minus undoes plus. |
| JobCreation.UnitLabel | frontend/src/components/admin/JobCreation.jsx:219 | "unit" iff the field loosely equals 1, so a number equal to 1 or a text whose numeric value is exactly 1. Otherwise "units". |
| JobCreation.UnitLabelOfDigits | frontend/src/components/admin/JobCreation.jsx:219 | For typed digits, the label is "unit" iff `parseInt` reads 1. |
| JobCreation.StatusIcon | frontend/src/components/admin/JobCreation.jsx:89-91 | "Done" gets the check icon. Every other status gets the clock. |
| Records.StatusColor | frontend/src/components/admin/JobCreation.jsx:93-95 | "Done" maps to "success" and every other status to "warning". JobPage.jsx:96-98 is the same rule. |
| JobCreation.JobIdFor | frontend/src/components/admin/JobCreation.jsx:97-101 | The id is "JBC" followed by three decimal digits that `parseInt` reads as an integer in 100..999. |
| JobCreation.Payload | frontend/src/components/admin/JobCreation.jsx:43-46 | The payload keeps jobId and customer and replaces quantity with its parsed integer, or NaN. |
| JobCreation.PayloadOfTypedQuantity | frontend/src/components/admin/JobCreation.jsx:45 | A quantity typed as digits is sent as the integer those digits denote. |
| JobCreation.JobForm.constructor | frontend/src/components/admin/JobCreation.jsx:6-12 | Empty form, not creating. |
| JobCreation.JobForm.HandleSubmit | frontend/src/components/admin/JobCreation.jsx:32-59 | With jobId, customer or quantity empty (falsy), nothing is sent and nothing changes. Otherwise the payload is sent. On success the form resets to empty fields; on failure it is kept. `isCreating` is false afterwards. |
| JobCreation.JobForm.DecrementQuantity | frontend/src/components/admin/JobCreation.jsx:203 | Only the quantity changes, to Decrement of the old one. |
| JobCreation.JobForm.IncrementQuantity | frontend/src/components/admin/JobCreation.jsx:210 | Only the quantity changes, to Increment of the old one. |
| JobCreation.JobForm.GenerateJobId | frontend/src/components/admin/JobCreation.jsx:97-101 | Only jobId changes, to JobIdFor of the random value. Customer and quantity are kept. |
| JsText.ParseInt | frontend/src/components/admin/JobCreation.jsx:45 | `parseInt` with no radix yields a number only when the text holds a digit. The exact value on digit strings is given by ParseIntOfDigits. |
| JsText.ParseIntOfDigits | frontend/src/components/admin/JobCreation.jsx:45 | On a non-empty string of decimal digits, `parseInt` reads the value of all of them. |
| JsText.NatToString | frontend/src/components/admin/JobCreation.jsx:100 | `${n}` is a non-empty run of decimal digits denoting n, with no leading zero unless n is 0. It is one character long iff n < 10. |
| JsText.ThreeDigits | frontend/src/components/admin/JobCreation.jsx:99-100 | A number in 100..999 is written with exactly three digits. |
| JsText.ParseIntOfNatToString | frontend/src/components/admin/JobCreation.jsx:99-100 | `parseInt` of `${n}` gives back n. |
| JsText.NumberStringIsOne | frontend/src/components/admin/JobCreation.jsx:219 | `text == 1`: the trimmed text is a decimal or non-decimal literal whose value is exactly 1. A text that loosely equals 1 is never blank and never starts with '-'. |
| JsText.FractionalOneIsOne | frontend/src/components/admin/JobCreation.jsx:219 | `"1.0" == 1` holds. |
| JsText.TrailingLetterIsNotOne | frontend/src/components/admin/JobCreation.jsx:219 | `"1a" == 1` is false although `parseInt("1a")` is 1: the unit label reads the whole text, while the payload reads only the leading digits. |
| JsText.Includes | frontend/src/pages/AdminDashboard.jsx:16-18 | `pathname.includes(sub)` holds when `sub` occurs at some position. It needs `sub` no longer than the path, holds for a prefix, and holds for the empty fragment. |
| JsText.StartsWith | frontend/src/components/supervisor/ProfileSettings.jsx:53 | `file.type.startsWith(prefix)` holds iff the type is at least as long as the prefix and agrees with it character by character. |
| JsText.NumberStringIsOneOnDigits | frontend/src/components/admin/JobCreation.jsx:219 | On digit strings, loose equality with 1 agrees with `parseInt` reading 1. |
| ProfileSettings.CheckImage | frontend/src/components/supervisor/ProfileSettings.jsx:47-56 | A file over 5·1024·1024 bytes is rejected as too large. Otherwise a MIME type not starting with "image/" is rejected. A file is accepted iff it passes both checks. |
| ProfileSettings.SizeCheckedFirst | frontend/src/components/supervisor/ProfileSettings.jsx:48-56 | A file that fails both checks is reported as too large. |
| ProfileSettings.ProgressTick | frontend/src/components/supervisor/ProfileSettings.jsx:74-80 | A tick adds 10 below 90 and clamps at 90. |
| ProfileSettings.TicksFromZero | frontend/src/components/supervisor/ProfileSettings.jsx:73-81 | After n ticks from an empty bar it shows min(10·n, 90). Only completion shows 100. |
| ProfileSettings.TickNeverAbove90 | frontend/src/components/supervisor/ProfileSettings.jsx:74-80 | On multiples of ten, a tick stays a multiple of ten and never exceeds 90. From 90 or above, including 100, it gives 90. |
| ProfileSettings.ImageKey | frontend/src/components/supervisor/ProfileSettings.jsx:23 | The key is "profileImage_" followed by the username, or by "undefined" when there is no user. |
| ProfileSettings.SubmitDisabled | frontend/src/components/supervisor/ProfileSettings.jsx:313 | The button is disabled iff updating, the new password is empty, or the confirmation is empty. |
| ProfileSettings.Settings.constructor | frontend/src/components/supervisor/ProfileSettings.jsx:5-18 | Empty password fields and both hidden. Not updating or uploading, no image or preview, progress 0, no interval, dialog closed. |
| ProfileSettings.Settings.LoadSavedImage | frontend/src/components/supervisor/ProfileSettings.jsx:22-27 | A non-empty stored photo under the user's key becomes the preview. Nothing else changes. |
| ProfileSettings.Settings.HandlePasswordUpdate | frontend/src/components/supervisor/ProfileSettings.jsx:29-36 | Mismatched passwords report "Passwords do not match" and change nothing. Matching ones start the update and change nothing else. |
| ProfileSettings.Settings.PasswordUpdateDone | frontend/src/components/supervisor/ProfileSettings.jsx:38-42 | The update ends and both password fields are reset to empty. Nothing else changes. |
| ProfileSettings.Settings.TogglePasswordVisibility | frontend/src/components/supervisor/ProfileSettings.jsx:135-140 | Only the named field's visibility flips. |
| ProfileSettings.Settings.HandleImageUpload | frontend/src/components/supervisor/ProfileSettings.jsx:45-66 | No file changes nothing. A rejected file reports CheckImage's message and changes nothing. An accepted one becomes the pending image, its data URL the preview, and the crop dialog opens. |
| ProfileSettings.Settings.StartUpload | frontend/src/components/supervisor/ProfileSettings.jsx:68-104 | Without a pending image or canvas, nothing changes. Otherwise uploading starts and the interval is scheduled. A failing export stops uploading and resets progress to 0, but leaves the interval running. |
| ProfileSettings.Settings.Tick | frontend/src/components/supervisor/ProfileSettings.jsx:73-81 | A running interval moves the bar by ProgressTick, and is cleared once the bar was already at 90. A cleared one changes nothing. |
| ProfileSettings.Settings.UploadStored | frontend/src/components/supervisor/ProfileSettings.jsx:86-89 | The cropped photo is stored under the user's key and becomes the preview, and the bar shows 100. |
| ProfileSettings.Settings.UploadFinished | frontend/src/components/supervisor/ProfileSettings.jsx:91-94 | Uploading ends, progress resets to 0, and the dialog closes. |
| ProfileSettings.Settings.RemovePhoto | frontend/src/components/supervisor/ProfileSettings.jsx:106-111 | Preview and pending image are cleared, and the user's key is removed from storage. Nothing else changes. |
| JobPage.InitialPage | frontend/src/components/supervisor/JobPage.jsx:6-13 | No jobs and no selection. The edit state is defect "" and status "In Process". |
| JobPage.AfterFetch | frontend/src/components/supervisor/JobPage.jsx:19-37 | A fetched list replaces the jobs. A non-empty one selects its first job and copies that job's defect and status. An empty one keeps the selection and edit state. A failure keeps everything. Searching ends. |
| JobPage.AfterSelect | frontend/src/components/supervisor/JobPage.jsx:39-45 | The job becomes the selection, with exactly its defect and status. Nothing else changes. |
| JobPage.FetchAndSelectSync | frontend/src/components/supervisor/JobPage.jsx:24-45 | After a non-empty fetch or a selection, the edit state matches the selected job, and a fetched selection is one of the fetched jobs. An empty or failed fetch keeps that agreement. |
| JobPage.EmptyFetchKeepsStaleSelection | frontend/src/components/supervisor/JobPage.jsx:24 | After an empty fetch, the previous selection remains although it is no longer among the jobs. |
| JobPage.StatusIcon | frontend/src/components/supervisor/JobPage.jsx:92-94 | "Done" gets the check icon. Every other status gets the pulsing spinner. |
| JobPage.JobPageView.constructor | frontend/src/components/supervisor/JobPage.jsx:6-13 | The page starts as InitialPage. |
| JobPage.JobPageView.FetchJobs | frontend/src/components/supervisor/JobPage.jsx:19-37 | The new state is AfterFetch of the old one and the outcome. |
| JobPage.JobPageView.HandleJobSelect | frontend/src/components/supervisor/JobPage.jsx:39-45 | The new state is AfterSelect of the old one and the job. |
| JobPage.JobPageView.EditDefect | frontend/src/components/supervisor/JobPage.jsx:180 | Only the edit state's defect changes. |
| JobPage.JobPageView.EditStatus | frontend/src/components/supervisor/JobPage.jsx:239 | Only the edit state's status changes. |
| JobPage.JobPageView.HandleUpdateJob | frontend/src/components/supervisor/JobPage.jsx:47-62 | With no selection, nothing is sent and nothing changes. Otherwise the selected id and edit state are sent. On success the list is refetched (AfterFetch); on failure nothing else changes. `isUpdating` is false afterwards. |
| Dashboard.CountInProcess | frontend/src/components/admin/Dashboard.jsx:27 | The count of jobs whose status is exactly "In Process" is at most the number of jobs. It is 0 iff none is in process, and equals the number of jobs iff all are. |
| Dashboard.CountAppend | frontend/src/components/admin/Dashboard.jsx:27 | The count over two lists joined is the sum of their counts. |
| Dashboard.MarkDoneCountsDown | frontend/src/components/admin/Dashboard.jsx:27 | Marking one in-process job "Done" lowers the count by exactly one. |
| Dashboard.AfterFetchStats | frontend/src/components/admin/Dashboard.jsx:16-32 | `totalUsers` and `totalJobs` are the fetched lengths and `inProcess` is CountInProcess, so `inProcess` ≤ `totalJobs`. A failed fetch leaves the stats unchanged. |
| Dashboard.DashboardView.constructor | frontend/src/components/admin/Dashboard.jsx:6-10 | All three counters start at 0. |
| Dashboard.DashboardView.FetchStats | frontend/src/components/admin/Dashboard.jsx:16-32 | The new stats are AfterFetchStats of the old ones and the outcome. |
| AdminDashboard.ActiveTab | frontend/src/pages/AdminDashboard.jsx:15-20 | "role-creation" anywhere gives the role-creation tab. Otherwise "job-creation" gives job creation, then "job-details" gives job details, and anything else gives the dashboard. Each case holds iff its condition holds, so the result is always one of four tabs. |
| AdminDashboard.RoleCreationWins | frontend/src/pages/AdminDashboard.jsx:16 | A path containing "role-creation" resolves to that tab whatever else it contains. |
| AdminDashboard.AdminRoutes | frontend/src/pages/AdminDashboard.jsx:15-19 | "/admin" shows the dashboard and "/admin/role-creation" the role-creation tab. |
| AdminDashboard.HandleLogout | frontend/src/pages/AdminDashboard.jsx:24-27 | The session moves by AfterLogout, then the page navigates to "/". |

## Left out

- The axios service wrappers (authService, jobService, userService) and the backend user service are not modelled. The outcomes of the requests they send are parameters.
- JSX markup, CSS classes other than the helpers above, and the DOM notifications (`showSuccess`, `showError`, `createNotification`) are not modelled. Their messages appear only where they are the result (`HandlePasswordUpdate`, `HandleImageUpload`).
- Timers and concurrency (`setTimeout`, `setInterval`, `Promise.all`) are not modelled as such. Each callback is a separate step, and the interleavings are whatever order the caller chooses.
- Canvas cropping (`handleCrop`), `FileReader` and the data-URL export are not modelled. The data URL and the cropped image are parameters, and a throwing export is `cropped == None`.
- `Math.random()` is a parameter of `GenerateJobId`. The date and locale time stamps sent with a new job card are not part of the payload model.
- The auth middleware and the Job schema are not part of this model. The caller's identity is an argument, and schema defaults, validation and cast errors are not modelled. Any store error, a cast error on a malformed id included, is the `Failing` storage outcome.
- Document ids are natural numbers from a counter, so a new id is always fresh. `createdAt` is the `now` argument of `Create`, and documents carry string fields only.
- JsText.ParseInt: the value is the exact integer the digits denote. Rounding of very long digit runs to a double, and results of 2^53 or more, are not modelled.
- JsText.NumberStringIsOne: texts are compared by their exact decimal value. A text that only rounds to 1 as a double (for example, one with more than 17 significant digits) is treated as different from 1.
- JobCreation.Decrement: `parseInt` of a number field is taken to be the number itself. The field only ever holds integers here, because the stepper produces integers and typed input stays text.
- `fetchUsers` and `handleDelete` of the user-creation screen, and the existing-jobs fetch of the job-creation screen, are not modelled. They only refresh lists shown on screen.
- JobPage's select box offers an empty option. Choosing it makes `find` return `undefined` and the handler throw. `HandleJobSelect` models only the selection of a listed job.
- SupervisorPortal, JobDetails and DebugInfo are layout and display only, and are not modelled. Of the App route table, only the role each protected route requires is modelled (`PrivateRoute.RouteRole`).
- AdminDashboard.AdminRoutes: the example for "/admin/job-creation" is not stated. Only the dashboard and role-creation routes are given as examples, and ActiveTab's contract covers the general case.
