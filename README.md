# TUES Repo web client: a Dafny model

TUES Repo is a React client for a university document repository. Authors,
staff and administrators sign in through it, manage users and departments, and
submit and edit bibliographic records: dissertations, books, book chapters,
conference proceedings, conference papers and reports.

The model centres on the **authenticated API gateway**. This is an axios
instance whose response interceptor handles a 401 or 403 that has not yet been
retried:

- it makes one call to `/refresh-token`;
- it then reissues the failed request once;
- when the refresh fails, it evicts the cached session and sends the browser
  to `/login`.

Around the gateway sit the session services (authenticate, sign-out, profile
refresh, password update, author registration), the language preference and
the route guard that gates pages by role. The pages and forms that call the
services are modelled too, each as the state the component holds:

- user profile, author registration and document submission;
- the user and department dashboards;
- the contributor search box;
- the six document update modals with their validation rules.

Modelling decisions:

* **Gateway.**
  - Each call on the wire records its verb, its URL and the `Authorization`
    header it carries.
  - The browser globals the gateway touches are the fields of the class
    `Api.Client`: localStorage `user` and `lang`, the last `location.href`, the
    default `Authorization` header and the log of calls put on the wire.
  - The server is an oracle `nat -> Reply`, indexed by position in the call log.
  - `Client.Request` and `Client.OnRejected` are mutually recursive methods that
    follow the interceptor step by step. They are proved against the flat
    per-request state machine `Api.Expected`, and the gateway's promises are
    proved about that.
  - The `_retry` flag is a mutable field of `Api.RequestConfig`.
* **Forms and pages.**
  - Each component's React state is a class whose methods are its handlers.
  - A call to a feature service is a parameter: whether it succeeded, the
    server's reply, or the list it returned.
  - The rules declared to react-hook-form are predicates. The handler's effects
    (the payload sent, the alerts shown, the callbacks run) are its results.
* **JavaScript built-ins.** The built-ins the code relies on are modelled in
  modules `Js` and `JsNumber`:
  - `trim`, `replaceAll`, `split`/`join`, `toUpperCase` on ASCII letters;
  - `length`, which counts UTF-16 code units: a character beyond the Basic
    Multilingual Plane, such as an emoji, counts twice (`Js.Length`). Every
    length bound of the pages and of react-hook-form's `minLength` and
    `maxLength` uses it;
  - `Number(...)`, `Number.parseInt`, `isNaN` and truthiness.
  
  `Number("")` is 0 while `parseInt("")` is NaN, and the forms depend on that
  difference.

Three behaviours of the gateway follow from the code and are easy to miss:

- A refresh call that is itself refused with 401/403 redirects to `/login` and
  rethrows, but it does not clear the cached user
  (src/services/api/api.js:25-29). The session is evicted only when a request's
  refresh fails, by that request's handler (lines 34-40).
  `Api.RefreshRefusedEndsLoggedOut` shows that an ordinary request whose
  refresh is refused still ends logged out.
- The reissued request is returned from inside the `try` without `await` (line
  33). If it fails, the failure reaches the caller unchanged: the catch block
  does not run, nothing is evicted and there is no redirect.
- A request that gets no response reaches the handler without
  `error.response`. Reading its `status` throws a `TypeError`, so that is what
  the caller receives (`Api.Failure.TypeError`) rather than the original
  network error.

## Model

| member | source | states |
|---|---|---|
| Api.Expected | src/services/api/api.js:12-45 | Every request is sent, and at most a refresh and one reissue follow it. Anything but an unretried 401/403 passes through. A failing refresh call is never refreshed again. A reissue happens exactly when the refresh was answered, and its result is what the caller gets. The session is evicted exactly when the refresh fails, and only together with the redirect. The legacy instance in src/api.js has the same state machine, because `return Promise.reject(e)` and `throw e` settle an async handler alike. |
| Api.RefreshRefusedEndsLoggedOut | src/services/api/api.js:19-40 | When the refresh call is refused with 401/403, its own handler redirects without evicting. The original request's handler then evicts the session, and the caller receives the refresh call's error. |
| Api.Send | src/services/api/api.js:12-45 | A request never touches the language or the Authorization header. It can only clear the cached user and only set the location to `/login`, and it appends one to three calls to the log. A resolved request carries the body of the last call it made, and leaves the user and location as they were. |
| Api.Client.Transmit | src/services/api/api.js:7-10 | Sending a request appends exactly that call, with the current default `Authorization` header, to the log and returns the server's reply for its position. |
| Api.Client.Request | src/services/api/api.js:12-45 | Sending through the instance has exactly the outcome and the new global state that `Send` specifies. The `_retry` flag ends set exactly when it was set before or the interceptor marked it. |
| Api.Client.OnRejected | src/services/api/api.js:16-44 | The error handler's outcome, the calls it adds, the eviction, the redirect and the `_retry` flag are those of `Expected` for the failed call. It does not touch the language or the Authorization header. The same holds for the legacy handler in src/api.js. |
| AuthService.Authentication | src/services/api/AuthService.js:3-20 | Authenticating posts to `/authenticate`. On success the Bearer header is set to the returned access token, the last call is a GET `/user` sent with that header, and the user it returned is cached and its role returned. On failure it rethrows the error of the call that failed, `/authenticate` or `/user`, and the cached user is unchanged or evicted. The language is never touched. |
| AuthService.Authenticate | src/services/api/AuthService.js:3-20 | The imperative service call has exactly the result and the state that `Authentication` specifies. |
| AuthService.SignOut | src/services/api/AuthService.js:22-30 | Signing out posts to `/sign-out` and always ends with no cached user, whether or not the server call fails. |
| AuthService.Signout | src/services/api/AuthService.js:22-30 | The imperative sign-out leaves exactly the state that `SignOut` specifies. |
| UserService.Refreshed | src/services/api/UserService.js:3-15 | Refreshing the profile makes a GET `/user`. On success it caches and returns the user the server answered with. It throws exactly when the gateway rejects the request, and then rethrows that rejection with the browser on `/login`. |
| UserService.DetailsUpdated | src/services/api/UserService.js:17-27 | Updating details makes a PUT `/user`, and on success caches and returns the user the server answered with. It throws exactly when the gateway rejects the request, and rethrows that rejection. |
| UserService.PasswordUpdated | src/services/api/UserService.js:29-37 | Updating the password resolves to `true` exactly when the PUT `/user/password` request resolves, and then leaves the session alone. |
| UserService.AuthorRegistered | src/services/api/UserService.js:39-49 | Registering an author posts to `/register/author`, and on success returns the server's answer and leaves the cached user alone. |
| UserService.UpdateUserInStorage | src/services/api/UserService.js:3-15 | Has exactly the result and state of `Refreshed`. |
| UserService.UpdateUserDetails | src/services/api/UserService.js:17-27 | Has exactly the result and state of `DetailsUpdated`. |
| UserService.UpdateUserPassword | src/services/api/UserService.js:29-37 | Has exactly the result and state of `PasswordUpdated`. |
| UserService.RegisterAuthor | src/services/api/UserService.js:39-49 | Has exactly the result and state of `AuthorRegistered`. |
| LegacyUserService.UpdateUserInStorage | src/services/UserService.js:3-19 | The legacy copy behaves exactly as the current `updateUserInStorage` does. |
| LegacyUserService.UpdateUserDetails | src/services/UserService.js:21-31 | The legacy copy behaves exactly as the current `updateUserDetails` does. |
| LegacyUserService.UpdateUserPassword | src/services/UserService.js:33-41 | The legacy copy behaves exactly as the current `updateUserPassword` does. |
| LangService.LangRead | src/services/LangService.js:7-14 | Reading the language always yields a non-empty code and leaves it stored. A stored non-empty code is kept, and a missing or empty one becomes `en`. |
| LangService.ReadAfterSet | src/services/LangService.js:16-29 | After any of the three setters, reading returns the code that was set. |
| LangService.ReadIsIdempotent | src/services/LangService.js:7-14 | Reading twice is the same as reading once. |
| LangService.GetLang | src/services/LangService.js:7-14 | Returns and stores what `LangRead` specifies. |
| LangService.SetLangToEn | src/services/LangService.js:16-19 | Stores and returns `en`. |
| LangService.SetLangToUz | src/services/LangService.js:21-24 | Stores and returns `uz`. |
| LangService.SetLangToRu | src/services/LangService.js:26-29 | Stores and returns `ru`. |
| RouteGuard.ProtectedRouteComp | src/routing/ProtectedRouteComp.jsx:5-17 | An anonymous visitor goes to `/login`, and a user whose role is not listed goes home. The page renders exactly when a user is cached and either no role list was given or the role is in it. |
| RouteGuard.ProtectedRouteLiteral | src/components/routing/ProtectedRouteComp.jsx:4-16 | The copy with literal paths decides the same as the first guard for every session and role list. So does the older `ProtectedRoute` in src/components/ProtectedRoute.jsx. |
| RouteGuard.EmptyRolesDenyEveryone | src/routing/ProtectedRouteComp.jsx:12-14 | An empty role list renders for nobody, and every signed-in user is sent home. |
| RouteGuard.UndefinedRolesAdmitAnyUser | src/routing/ProtectedRouteComp.jsx:12-14 | Without a role list, every signed-in user sees the page. |
| RouteGuard.AnonymousNeverSentHome | src/routing/ProtectedRouteComp.jsx:8-10 | An anonymous visitor is never sent home, whatever the roles. |
| RouteGuard.Mount | src/routing/ProtectedRouteComp.jsx:5-17 | Mounting decides from the cached user in localStorage, exactly as `ProtectedRouteComp` does. |
| DocumentUtils.NamePart | src/features/document/utils.js:1-5 | The name part is trimmed, and it is empty exactly when both the first and last names are missing or blank. |
| DocumentUtils.FormatContributorName | src/features/document/utils.js:1-5 | A missing user shows as "Unknown User" and a user with no name as the username. Otherwise the name is followed by the username in parentheses. |
| DocumentUtils.OnlyLastName | src/features/document/utils.js:1-5 | A user with only a last name shows as that name followed by the username, with no stray space. |
| DocForms.FindById | src/components/forms/DocForms.jsx:76-82 | The duplicate lookup finds a contributor exactly when one with that id is in the list, and what it finds is the first entry with that id. |
| DocForms.WithoutId | src/components/forms/DocForms.jsx:96-100 | Removing a contributor keeps exactly the entries with other ids. |
| DocForms.WithoutIdConcat | src/components/forms/DocForms.jsx:96-100 | Filtering a concatenation filters each part and keeps them in order. |
| DocForms.RemovalKeepsOrder | src/components/forms/DocForms.jsx:96-100 | Removing the one contributor with an id leaves the others in their original order. |
| DocForms.WithoutIdKeepsDistinct | src/components/forms/DocForms.jsx:96-100 | Removal keeps the added contributors' ids distinct. |
| DocForms.DisplayName | src/components/forms/DocForms.jsx:84-88 | The added contributor's name is the first name, one space, then the last name, and a null part reads as "null". |
| DocForms.BuildPayload | src/components/forms/DocForms.jsx:105-120 | The payload has the department as `Number(...)`, and title and abstract as typed. Each optional field is present exactly when its text is non-empty, and is absent from the payload otherwise. A present edition or page is `Number(...)` of its text, and a present text field is sent as typed. There is one contributor reference per added contributor, in order, with its id and role. |
| DocForms.Refs | src/components/forms/DocForms.jsx:116-119 | The contributor list sent holds each added contributor's id and role, in order. |
| DocForms.PayloadContributorsDistinct | src/components/forms/DocForms.jsx:70-120 | The add and remove guards keep the ids distinct, so no contributor is sent twice. |
| DocForms.DocForm.constructor | src/components/forms/DocForms.jsx:40-55 | The form starts empty, with no contributors and the author role selected. |
| DocForms.DocForm.HandleAddContributor | src/components/forms/DocForms.jsx:70-94 | With nothing selected, it alerts and changes nothing. A contributor already added is refused with an alert. Otherwise the contributor is appended with the chosen role and display name, and the selection is cleared. |
| DocForms.DocForm.HandleRemoveContributor | src/components/forms/DocForms.jsx:96-100 | Removes exactly the entries with that id. |
| DocForms.DocForm.HandleSubmit | src/components/forms/DocForms.jsx:102-142 | Sends `BuildPayload` of the current form. On success it alerts success and resets the form and contributors. On failure it alerts the failure and keeps everything. |
| ContributorAddForm.HandleSearch | src/features/document/ContributorAddForm.jsx:16-18 | A search fires exactly when the trimmed key is at least 3 UTF-16 code units long, and it searches for the trimmed key. |
| ContributorAddForm.SearchDisabled | src/features/document/ContributorAddForm.jsx:16-38 | The search button is always disabled while a search is loading. Otherwise it is disabled exactly when a click would not fire the search callback, so an enabled button always searches and a disabled one never could. |
| ContributorAddForm.IsAlreadyContributor | src/features/document/ContributorAddForm.jsx:20-21 | True exactly when the document already lists that user. |
| ContributorAddForm.AddButton | src/features/document/ContributorAddForm.jsx:80-87 | The add button is disabled while adding or for an existing contributor, and reads "Added" exactly for an existing contributor. |
| ContributorAddForm.InitialRoleIsAuthor | src/features/document/ContributorAddForm.jsx:14 | The role picker starts on AUTHOR. |
| RegisterAuthor.FirstMissing | src/pages/RegisterAthor.jsx:34-40 | Nothing is missing exactly when email, first name and last name are all non-empty. Otherwise it is the first empty one in that order. |
| RegisterAuthor.FirstMissingField | src/pages/RegisterAthor.jsx:34-40 | The loop finds the field that `FirstMissing` specifies. |
| RegisterAuthor.BuildPayload | src/pages/RegisterAthor.jsx:44-53 | The department is sent as `parseInt` of the text. The optional fields are sent as typed, or as null when empty, and the required fields are sent as typed. |
| RegisterAuthor.WithoutNulls | src/pages/RegisterAthor.jsx:56-60 | Cleaning keeps exactly the non-null entries, unchanged. |
| RegisterAuthor.DeleteNulls | src/pages/RegisterAthor.jsx:56-60 | The deleting loop leaves exactly `WithoutNulls` of the payload. |
| RegisterAuthor.OptionalSentWhenFilled | src/pages/RegisterAthor.jsx:49-60 | An optional field is sent exactly when filled in, and then as typed. |
| RegisterAuthor.RequiredSentAsTyped | src/pages/RegisterAthor.jsx:44-60 | A required field is sent as typed. |
| RegisterAuthor.DepartmentAlwaysSent | src/pages/RegisterAthor.jsx:47 | The department is always sent, because `parseInt` never gives null. |
| RegisterAuthor.EmptyDepartmentIsSentAsNaN | src/pages/RegisterAthor.jsx:47 | An empty department is sent as NaN. |
| RegisterAuthor.RegisterAuthorPage.constructor | src/pages/RegisterAthor.jsx:9-21 | The page starts with every field empty and no messages. |
| RegisterAuthor.RegisterAuthorPage.HandleRegistration | src/pages/RegisterAthor.jsx:28-80 | Nothing is sent exactly when a required field is empty, and then the error names that field. Otherwise the cleaned payload is sent. On success the form is reset with the success message. On failure the server's message or the default is shown. Loading always ends. |
| RegisterAuthor.RegisterAuthorPage.Refuse | src/pages/RegisterAthor.jsx:30-38 | An empty required field shows the message naming it, with no success message. |
| RegisterAuthor.RegisterAuthorPage.Settle | src/pages/RegisterAthor.jsx:62-79 | Acceptance empties the form and shows the success message with no error. Refusal keeps the form and shows the server's message or the default. Loading ends either way. |
| UserPage.FormFromUser | src/pages/UserPage.jsx:8-14 | Without a cached user the form is empty. The department text is always empty or digits. |
| UserPage.Message | src/pages/UserPage.jsx:55-86 | Every failed check shows an error marked with a cross, never the saved or failed outcome message. |
| UserPage.MessagesDistinct | src/pages/UserPage.jsx:55-86 | No two checks show the same message. |
| UserPage.DetailsError | src/pages/UserPage.jsx:55-86 | No error exactly when every check passes. Otherwise the error is a failing check, and every earlier check passes. The length limits of 63 and 31 count UTF-16 code units of the untrimmed text. |
| UserPage.PaddedFirstNameTooLong | src/pages/UserPage.jsx:55-62 | The length check counts untrimmed text: any first name that is not blank and is longer than 63 code units is refused as too long, surrounding spaces included. |
| UserPage.PaddedOneLetterName | src/pages/UserPage.jsx:55-62 | A one-letter name padded with 64 spaces is not blank, yet it is refused as too long. |
| UserPage.LoadedDepartmentIsNumeric | src/pages/UserPage.jsx:8-14 | A form filled from a user always passes the department-number check. |
| UserPage.UserPageForm.constructor | src/pages/UserPage.jsx:5-21 | The page starts loading, with the form filled from the cached user and empty passwords. |
| UserPage.UserPageForm.Load | src/pages/UserPage.jsx:23-41 | After the profile refresh, the user and form come from the refreshed user and loading ends on success. When the refresh throws, the user and form stay as they were and loading stays set, because `setLoading(false)` is skipped. |
| UserPage.UserPageForm.FirstFailedCheck | src/pages/UserPage.jsx:55-86 | The chain of early returns stops at exactly the check that `DetailsError` names, and runs through when every check passes. |
| UserPage.UserPageForm.HandleDetailsSubmit | src/pages/UserPage.jsx:51-95 | A failing check shows its message and sends nothing. Otherwise it sends the details, and on success takes the returned user and shows the saved message. On failure it shows the failure message. |
| UserPage.UserPageForm.HandlePasswordSubmit | src/pages/UserPage.jsx:97-106 | Shows the saved message and clears the passwords exactly when the update succeeds. Otherwise it shows the failure message. |
| AdminDepartmentDashboard.EditForm | src/pages/AdminDepartmentDashboard.jsx:63-72 | Editing copies the names and the blocked flag. The type falls back to FACULTY when it is missing or empty, so it is never empty. |
| AdminDepartmentDashboard.EditedFormCompleteness | src/pages/AdminDepartmentDashboard.jsx:41-72 | A row opened for editing passes the required-fields guard exactly when its three names are non-empty. |
| AdminDepartmentDashboard.InitialFormIncomplete | src/pages/AdminDepartmentDashboard.jsx:14-18 | The empty form cannot be submitted. |
| AdminDepartmentDashboard.DepartmentDashboard.constructor | src/pages/AdminDepartmentDashboard.jsx:14-18 | The dashboard starts loading, with no rows, the initial form and no edit in progress. |
| AdminDepartmentDashboard.DepartmentDashboard.FetchDepartments | src/pages/AdminDepartmentDashboard.jsx:20-31 | A fetched list replaces the rows. A failure keeps them and shows the fetch error. Loading ends. |
| AdminDepartmentDashboard.DepartmentDashboard.HandleSubmit | src/pages/AdminDepartmentDashboard.jsx:37-61 | Nothing is sent exactly when a name or the type is empty. The call is an update while editing and a create otherwise. The list reloads exactly on success, which also resets the form. The success and failure messages name updating exactly when the call made was an update. |
| AdminDepartmentDashboard.DepartmentDashboard.HandleEdit | src/pages/AdminDepartmentDashboard.jsx:63-72 | Starts editing that row with its form. A row with id 0 does not count as editing. |
| AdminDepartmentDashboard.DepartmentDashboard.HandleCancelEdit | src/pages/AdminDepartmentDashboard.jsx:74-78 | Returns to the initial form with no edit and no message. |
| DepartmentDashboard.WithInput | src/pages/DepartmentDashboard.jsx:41-47 | The changed input is set to its `checked` value for a checkbox and its text otherwise. Every other field is unchanged. |
| DepartmentDashboard.EditForm | src/pages/DepartmentDashboard.jsx:76-84 | Editing fills the form with the row's names and blocked flag. |
| DepartmentDashboard.CheckedFlagCountsAsName | src/pages/DepartmentDashboard.jsx:41-56 | A checked checkbox event under a name key stores `true`, and that passes the required-names guard. |
| DepartmentDashboard.DepartmentDashboard.constructor | src/pages/DepartmentDashboard.jsx:9-21 | The dashboard starts loading, with no rows, the initial form and no edit in progress. |
| DepartmentDashboard.DepartmentDashboard.FetchDepartments | src/pages/DepartmentDashboard.jsx:24-34 | A fetched list replaces the rows. A failure keeps them and shows the fetch error. Loading ends. |
| DepartmentDashboard.DepartmentDashboard.HandleInputChange | src/pages/DepartmentDashboard.jsx:41-47 | The form becomes `WithInput` of the event. |
| DepartmentDashboard.DepartmentDashboard.HandleSubmit | src/pages/DepartmentDashboard.jsx:49-74 | Nothing is sent exactly when a name is not filled. The call is an update while editing and a create otherwise. The list reloads exactly on success, which also resets the form. The success and failure messages name updating exactly when the call made was an update. |
| DepartmentDashboard.DepartmentDashboard.HandleEdit | src/pages/DepartmentDashboard.jsx:76-84 | Starts editing that row with its form. A row with id 0 does not count as editing. |
| DepartmentDashboard.DepartmentDashboard.HandleCancelEdit | src/pages/DepartmentDashboard.jsx:86-90 | Returns to the initial form with no edit and no message. |
| AdminUserDashboard.SearchQuery | src/pages/AdminUserDashboard.jsx:34-41 | The search asks for 10 users with the given key and page. The role is left out exactly when it is missing or ALL, and is passed on otherwise. |
| AdminUserDashboard.ReloadAsWritten | src/pages/AdminUserDashboard.jsx:112 | The reload the handlers issue keeps the key and the limit, passes the page number as the role and leaves the page undefined. |
| AdminUserDashboard.Reload | src/pages/AdminUserDashboard.jsx:74-76 | The corrected reload asks for the current page under the current role filter, the same query the listing effect makes. |
| AdminUserDashboard.ReloadAsWrittenLosesFilterAndPage | src/pages/AdminUserDashboard.jsx:112 | The reload as written never equals the listing query or the corrected reload, whatever the filter. |
| AdminUserDashboard.FirstDepartmentId | src/pages/AdminUserDashboard.jsx:111 | After a registration, the reset form keeps the first department's id exactly when there is one and its id is not 0. Otherwise the department is null. |
| AdminUserDashboard.WithInput | src/pages/AdminUserDashboard.jsx:85-91 | The department field gets `Number(...)` of the text, and every other input gets its text. Nothing else changes. |
| AdminUserDashboard.RegistrationBlocked | src/pages/AdminUserDashboard.jsx:97-105 | A null department always blocks registration. Any other department, 0 and NaN included, leaves the decision to the four text fields. |
| AdminUserDashboard.TouchedDepartmentNeverNull | src/pages/AdminUserDashboard.jsx:85-106 | Once the department input is touched, it is never null: a blank entry becomes 0. The guard then decides on the four text fields alone, so a cleared department no longer blocks registration. |
| AdminUserDashboard.FirstDepartmentZeroId | src/pages/AdminUserDashboard.jsx:58-111 | The mount preset keeps a first department whose id is 0, and that passes the guard. The reset after a registration turns it into null, which blocks the next registration until a department is picked. |
| AdminUserDashboard.HasSpace | src/pages/AdminUserDashboard.jsx:178 | True exactly when the password contains a whitespace character. |
| AdminUserDashboard.PasswordRejected | src/pages/AdminUserDashboard.jsx:178-181 | A password is accepted exactly when it is 8 to 64 UTF-16 code units long and has no whitespace. |
| AdminUserDashboard.FourEmojiPasswordAccepted | src/pages/AdminUserDashboard.jsx:178 | Four emoji have length 8, so they make an acceptable password. |
| AdminUserDashboard.UserDashboard.constructor | src/pages/AdminUserDashboard.jsx:19-31 | The dashboard starts loading on page 0 of all roles, with empty lists and forms and the reset modal closed. |
| AdminUserDashboard.UserDashboard.FetchUsers | src/pages/AdminUserDashboard.jsx:34-51 | It asks for `SearchQuery`. A result replaces the users and counts, and a missing client list counts as empty. A failure empties the list, zeroes the counts and shows the fetch error. Loading ends. |
| AdminUserDashboard.UserDashboard.LoadInitial | src/pages/AdminUserDashboard.jsx:54-71 | A failed departments load shows the load error and asks for nothing. Otherwise the departments replace the list and the form takes the first department. The users are then fetched with the current key, filter and page. |
| AdminUserDashboard.UserDashboard.HandlePageChange | src/pages/AdminUserDashboard.jsx:150-154 | The page moves only to a page within range. |
| AdminUserDashboard.UserDashboard.HandleRoleFilterChange | src/pages/AdminUserDashboard.jsx:80-83 | Sets the filter and goes back to page 0. |
| AdminUserDashboard.UserDashboard.HandleInputChange | src/pages/AdminUserDashboard.jsx:85-91 | The form becomes `WithInput` of the event. |
| AdminUserDashboard.UserDashboard.HandleRegisterSubmit | src/pages/AdminUserDashboard.jsx:93-118 | Nothing is sent exactly when the guard blocks, and then the required message is shown. Otherwise the form is sent. Success shows the message, resets the form and reloads with the page as the role, as written. Refusal shows the server's message or the default. |
| AdminUserDashboard.UserDashboard.HandleDelete | src/pages/AdminUserDashboard.jsx:122-133 | Nothing happens unless confirmed. On success it shows the message and reloads with the page as the role, as written. On failure it shows the delete error. |
| AdminUserDashboard.UserDashboard.HandleToggleBlock | src/pages/AdminUserDashboard.jsx:135-148 | Only when confirmed is a request made, and it asks for the opposite of the row's status. Success shows the action's message and reloads with the page as the role, as written. Failure shows the action's error. |
| AdminUserDashboard.UserDashboard.OpenPasswordModal | src/pages/AdminUserDashboard.jsx:158-164 | Opens the modal for that user with an empty password, and clears only an error message. |
| AdminUserDashboard.UserDashboard.ClosePasswordModal | src/pages/AdminUserDashboard.jsx:166-172 | Closes the modal and clears the user, password and message. |
| AdminUserDashboard.UserDashboard.HandlePasswordReset | src/pages/AdminUserDashboard.jsx:174-193 | A password breaking the rule, lengths counted in UTF-16 code units, is never sent, and the rule's message is shown. An accepted password is sent exactly when a user is chosen. Success closes the modal, and otherwise the reset error shows. |
| UpdateModalRules.IsbnShape | src/features/document/update/BookUpdateModal.jsx:59-63 | A string the ISBN pattern accepts is made only of digits and hyphens. |
| UpdateModalRules.IsbnRule | src/features/document/update/BookUpdateModal.jsx:59-66 | A non-empty ISBN that passes the pattern and the 17-unit length rules has 13 digits and 4 hyphens. |
| UpdateModalRules.EditionRule | src/features/document/update/BookUpdateModal.jsx:78-82 | The edition rule accepts a missing value, refuses NaN, and accepts a whole number exactly when it is not negative. Another numeral passes exactly when it is not below zero, so -0 passes. |
| UpdateModalRules.ValidIsbnSentAsTyped | src/features/document/update/BookUpdateModal.jsx:23 | A non-empty ISBN the rules accept is sent exactly as typed. |
| UpdateModalRules.BlankTitlePasses | src/features/document/update/BookUpdateModal.jsx:46-49 | A title of spaces passes `required` and the 255-unit limit, yet it is sent as the empty string. |
| UpdateModalRules.Notified | src/features/document/update/BookUpdateModal.jsx:28-36 | The parent is refreshed and the modal closed exactly on success. Success alerts the updated text, and failure alerts only the failure text. |
| UpdateModalRules.Notify | src/features/document/update/BookUpdateModal.jsx:28-36 | The try/catch produces exactly the effects that `Notified` specifies. |
| DissertationUpdateModal.Trimmed | src/features/document/update/DissertationUpdateModal.jsx:22-27 | The title is sent trimmed. An empty degree is sent as null. ISBN and abstract are trimmed, and null when blank. |
| DissertationUpdateModal.Submit | src/features/document/update/DissertationUpdateModal.jsx:21-38 | The update is sent exactly when the title, ISBN and abstract rules hold, their lengths counted in UTF-16 code units, with the trimmed payload for this document. Invalid input has no effect, and otherwise the dissertation messages follow. |
| BookUpdateModal.Edition | src/features/document/update/BookUpdateModal.jsx:76-82 | An empty number input reads as NaN, and digits read as their value. |
| BookUpdateModal.ValidAsWritten | src/features/document/update/BookUpdateModal.jsx:46-99 | The declared rules hold exactly when title, ISBN and abstract pass and the edition is filled in with a number that is not negative. An edition that underflows to -0, such as "-1e-400", is not negative. |
| BookUpdateModal.Trimmed | src/features/document/update/BookUpdateModal.jsx:21-26 | Title, ISBN and abstract are trimmed, with null for blank. The edition is sent as its number when truthy and as null otherwise. An edition that underflows to zero is falsy and sent as null. |
| BookUpdateModal.UnderflowingEditionIsZero | src/features/document/update/BookUpdateModal.jsx:78-82 | An edition of "1e-400" or "-1e-400" reads as a zero: it passes the edition rule, the form is valid exactly when the other three rules hold, and the edition is sent as null. |
| JsNumber.UnderflowReadsAsZero | src/features/document/update/BookUpdateModal.jsx:76-82 | `Number("1e-400")` is 0 and `Number("-1e-400")` is -0. Both read as zero and neither is below zero. |
| BookUpdateModal.BlankEditionBlocksSaving | src/features/document/update/BookUpdateModal.jsx:78-82 | As written, an empty optional edition fails its rule and blocks saving. |
| BookUpdateModal.AllowingBlankEdition | src/features/document/update/BookUpdateModal.jsx:78-82 | The corrected rule accepts everything the written one does, and differs only on an empty edition. An empty edition is then sent as null. |
| BookUpdateModal.ZeroEditionSentAsNull | src/features/document/update/BookUpdateModal.jsx:24 | Edition 0 passes the rule but is sent as null. |
| BookUpdateModal.Submit | src/features/document/update/BookUpdateModal.jsx:20-37 | The update is sent exactly when the declared rules hold, so never with an empty edition. It carries the trimmed payload for this document and is followed by the book messages. |
| ConfProceedUpdateModal.Trimmed | src/features/document/update/ConfProceedUpdateModal.jsx:21-26 | Every text field is trimmed. Optional ones are null when blank. |
| ConfProceedUpdateModal.SubjectStaysWithinBound | src/features/document/update/ConfProceedUpdateModal.jsx:86-88 | A subject that passed its rule is still at most 255 code units when sent. |
| ConfProceedUpdateModal.Submit | src/features/document/update/ConfProceedUpdateModal.jsx:20-37 | The update is sent exactly when the title, ISBN, subject and abstract rules hold, their lengths counted in UTF-16 code units, with the trimmed payload for this document, followed by the proceeding messages. |
| ReportUpdateModal.Trimmed | src/features/document/update/ReportUpdateModal.jsx:21-26 | Title, ISBN and abstract are trimmed, with null for blank. The edition is null when empty and `Number(...)` otherwise. |
| ReportUpdateModal.EditionUnchecked | src/features/document/update/ReportUpdateModal.jsx:87 | The report's edition has no rule: any edition text keeps a valid form valid. |
| ReportUpdateModal.ZeroEditionSent | src/features/document/update/ReportUpdateModal.jsx:24 | Unlike the book modal, edition 0 is sent as 0. |
| ReportUpdateModal.Submit | src/features/document/update/ReportUpdateModal.jsx:20-37 | The update is sent exactly when the title, ISBN and abstract rules hold, their lengths counted in UTF-16 code units, followed by the report messages. |
| ConfPaperUpdateModal.Trimmed | src/features/document/update/ConfPaperUpdateModal.jsx:21-26 | Title and abstract are trimmed, with a null abstract when blank. Each page is null when empty and `Number(...)` otherwise. |
| ConfPaperUpdateModal.PagesNotOrdered | src/features/document/update/ConfPaperUpdateModal.jsx:67-78 | A first page after the last page passes and is sent as typed. |
| ConfPaperUpdateModal.Submit | src/features/document/update/ConfPaperUpdateModal.jsx:20-37 | The update is sent exactly when the title and abstract rules hold, their lengths counted in UTF-16 code units, followed by the conference paper messages. |
| BookChapterUpdateModal.Trimmed | src/features/document/update/BookChapterUpdateModal.jsx:21-26 | Title and abstract are trimmed, with a null abstract when blank. Each page is null when empty and `Number(...)` otherwise. |
| BookChapterUpdateModal.PagesUnchecked | src/features/document/update/BookChapterUpdateModal.jsx:66-79 | The pages have no rule: any page text keeps a valid form valid. |
| BookChapterUpdateModal.Submit | src/features/document/update/BookChapterUpdateModal.jsx:20-37 | The update is sent exactly when the title and abstract rules hold, their lengths counted in UTF-16 code units, followed by the book chapter messages. |
| DocumentSubmissionPage.Capitalize | src/pages/DocumentSubmissionPage.jsx:14-15 | Capitalizing a word upper-cases its first letter, keeps the rest and keeps the length. |
| DocumentSubmissionPage.CapitalizeAll | src/pages/DocumentSubmissionPage.jsx:14-15 | Every word is capitalized and the order is kept. |
| DocumentSubmissionPage.FormatType | src/pages/DocumentSubmissionPage.jsx:13-16 | The label is the type with underscores turned into spaces, and with the first character and every character after a space upper-cased. |
| DocumentSubmissionPage.SplitCapitalizeJoin | src/pages/DocumentSubmissionPage.jsx:13-16 | Split at spaces, capitalize and join is the same as upper-casing every character at the start or after a space. |
| DocumentSubmissionPage.FormatTypeCharacters | src/pages/DocumentSubmissionPage.jsx:13-16 | The label is as long as the type. An underscore becomes a space, and a character at the start or after an underscore or space is upper-cased. Every other character is kept. |
| DocumentSubmissionPage.NoUnderscoreInLabel | src/pages/DocumentSubmissionPage.jsx:13-16 | No label contains an underscore. |
| DocumentSubmissionPage.UpperCaseTypeLabel | src/pages/DocumentSubmissionPage.jsx:13-16 | A type with no lower-case letter is labelled with underscores turned into spaces and nothing else changed. |
| DocumentSubmissionPage.DocumentTypeLabels | src/pages/DocumentSubmissionPage.jsx:6 | The page opens on DISSERTATION, and every document type is labelled with its upper-case name spaced out, such as "BOOK CHAPTER". |

## Left out

- Rendering, styling and routing tables: the JSX markup, the table and modal components, the navigation bar, i18n, and the pages that only display data.
- Concurrency: every handler runs to completion in turn. Two requests that fail at once each run their own refresh, and the model treats each request separately. The interleaving of React effects is not modelled either, for example the user-list effect that also fires on mount.
- The network and the feature services: each service call is a parameter (reply, success flag or list), apart from those of the session services, which go through the modelled gateway.
- `console` logging, the `setTimeout` navigation after an author registers (src/pages/RegisterAthor.jsx:71), and the `confirm` and `alert` dialogs. A dialog's answer is a parameter, and an alert is recorded as its text.
- The update modals' `defaultValues` and `reset` from the document being edited: the modals start from given values.
- The department dashboards' `handleDelete`, the document form's `handleChange`, contributor `handleSearch` and departments load, `UserPage`'s change handlers and `RegisterAthor`'s `handleChange`. They only copy an input into state or call a service whose outcome the model takes as a parameter.
- JsNumber.ToNumber: a numeral with a fraction or an exponent is recognised, but its floating-point value is not computed. Only whether it reads as a zero and whether it is below zero are kept, because the model never needs more. A numeral reads as a zero when its exact value is 0 or at most 2^-1075, which rounds to 0 under round-to-nearest, ties-to-even. ECMAScript lets an implementation round a numeral with more than 20 significant digits at its 20th digit first. The model uses the exact value, so it may differ there for a numeral within 10^-20 of that bound.
- The react-hook-form engine beyond the declared rules, and the browser's filtering of what can be typed into a `type="number"` input: the model takes the input's text as given.
- DocumentSubmissionPage.Capitalize: `toUpperCase` is modelled on ASCII letters only and leaves other letters alone. The labels come from the upper-case ASCII names of `DOC_TYPE_LIST`, so the difference never shows.
- JsNumber.ToNumber: integer numerals are evaluated exactly, while JavaScript rounds integers beyond 2^53 to the nearest double. `Number("9007199254740993")` is 9007199254740992 in JavaScript but the exact value here. So `BookUpdateModal.Edition`'s "digits read as their value" and `JsNumber.NumberOfDecimalText` hold as stated only up to 2^53.
- The refresh cookie and `withCredentials`: credentials travel as cookies the model does not see, and only the `Authorization` header that `authenticate` sets is modelled.

## Findings

| source | as written | input that shows it | evidently intended | confidence | as-written member | corrected member |
|---|---|---|---|---|---|---|
| src/features/document/update/BookUpdateModal.jsx:78-82 | `valueAsNumber: true` reads an empty number input as NaN, and the rule `v === undefined \|\| v === null \|\| v >= 0` refuses NaN. | An existing book whose edition field is left empty | The edition is labelled optional, so an empty field should pass and be sent as null. | not executed; depends on react-hook-form reading an empty number input as NaN | BookUpdateModal.ValidAsWritten, which BookUpdateModal.Submit uses (shown by BookUpdateModal.BlankEditionBlocksSaving) | BookUpdateModal.Valid (proved by BookUpdateModal.AllowingBlankEdition) |
| src/pages/AdminUserDashboard.jsx:112 | `fetchUsers(searchKey, currentPage)` passes the page as the role and leaves the page undefined. Lines 127 and 142 do the same after a delete or a block. | Role filter STAFF on page 2, then register a user | The list should reload with the current role filter and page, as the listing effect does. | not executed | AdminUserDashboard.ReloadAsWritten, which the three handlers use (shown by AdminUserDashboard.ReloadAsWrittenLosesFilterAndPage) | AdminUserDashboard.Reload |
