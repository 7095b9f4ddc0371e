# Learning-platform front end: five pages in Dafny

This project models the logic of five React pages of an online-course
platform's front end. It proves properties of that logic.

- **Manage Users** (`src/features/admin/ManageUsers.jsx`). An admin table of users.
  - The mock list is loaded, and the signed-in admin is appended when missing.
  - Rows are filtered by a case-insensitive search on name or e-mail, and by
    a role filter. The filter ignores case and one leading `role_` prefix.
  - A user's role can be changed, and a user can be deleted after a
    confirmation. A role change maps the list it started with, so a delete
    confirmed while it is pending is undone when it completes.
  - The signed-in user's own row offers no controls.
- **Contact Us with API** (`src/examples/ContactUsWithApi.jsx`). A contact form.
  - The form is prefilled from the signed-in user.
  - A submit runs an ordered chain of checks: name 3–100 characters after
    trimming, an e-mail matching `^[^\s@]+@[^\s@]+\.[^\s@]+$`, and a message
    of 10–2000 characters after trimming.
  - An accepted form sends the trimmed fields. The message is cleared only
    when the send succeeds.
- **Search** (`src/pages/Search.jsx`). The course search.
  - A blank query does nothing.
  - A search resolves to a response of unknown shape. The model normalises
    it with `data.courses || data.data || data || []`, then maps every course
    to a card. Each card field takes the first truthy alternative or a default.
  - The flags `isSearching` and `hasSearched` track the search.
  - Clearing the box resets the search.
  - Admins are redirected away from the page. On their page a `q` in the
    URL makes the URL effect throw, because `performSearch` is never
    initialised.
- **Classroom** (`src/features/courses/Classroom.jsx`). A course's video player.
  - The selected index picks the current video.
  - The page shows "n / m videos completed".
  - Completing or un-completing the current video updates the progress store.
- **Contact Us** (`src/pages/ContactUs.jsx`). A simpler contact form. Name and
  e-mail are fixed, and a submit only needs a non-blank message.

Each page with state is a `class`. Its fields are the component's `useState`
variables, and its event handlers are methods with `modifies` clauses. The
decisions a page takes are pure functions, with lemmas beside them:

- role normalisation;
- the filter predicate;
- the admin-insertion rule;
- the validation chain;
- the e-mail pattern;
- the response mapping;
- the completed count.

The handler methods are proved against those functions. Shared modules:

- `Wrappers`: `Option` and JavaScript's `a || b`.
- `Text`: `trim`, ASCII `toLowerCase`, `startsWith`, `includes` and
  first-occurrence `replace`.
- `Seqs`: `Array.prototype.filter`, with its order-preserving sub-sequence
  guarantee.
- `Forms`: the contact form record.

Modelling conventions:

- **Truthiness.** A present, truthy value is `Some`; a missing or falsy one
  is `None`. In Search, optional strings are non-empty (`Word`), optional
  numbers are non-zero (`Amount`) and ids are non-zero (`Key`), so `x || y`
  is exactly `Or(x, y)`. In Manage Users and both contact pages, a missing
  string is `""`.
- **White space.** `trim` and `\s` use the exact set of ECMAScript
  WhiteSpace and LineTerminator characters.
- **String length.** Lengths count code points; JavaScript counts UTF-16
  code units.
- **Collaborators.** Asynchronous collaborators (the contact submit, the
  course search, the confirmation dialog, the clock) become parameters: an
  outcome, a `confirmed` flag, `today`. A method returns what it sent to
  the collaborator as an out-parameter.
- **URL.** The URL is modelled by its `q` parameter; `""` stands for an
  absent one. Writing a different `q` re-runs the page's URL effect, which
  searches again; writing the same `q` does not.
- **Progress store.** The store behind `useProgress` is the set of completed
  `(course id, video id)` pairs. `src/context/ProgressContext` is not part
  of this model.

The classroom page is modelled as the code has it. It shows one hard-coded
course of five videos, whatever the route id. It has no syllabus fetch, no
content normalisation, no study documents and no fallback content.

## Model

| member | source | states |
|---|---|---|
| `Text.TrimIsCore` | src/examples/ContactUsWithApi.jsx:61-90 | `trim` returns the slice of the input that starts and ends with a non-space, and everything cut away on either side is white space |
| `Text.TrimEmptyIffBlank` | src/pages/Search.jsx:55 | `!s.trim()` holds exactly when `s` consists of white space only |
| `Text.IncludesIffOccurs` | src/features/admin/ManageUsers.jsx:56-57 | `includes` holds exactly when the pattern occurs at some position |
| `Text.TrimIdempotent` | src/pages/Search.jsx:101 | trimming a trimmed string changes nothing, and a string trims to a blank string exactly when it is blank |
| `Text.LowerIsLower` | src/features/admin/ManageUsers.jsx:65 | lower-casing keeps the length, leaves no upper-case letter, and leaves an already lower-case string unchanged |
| `ManageUsers.NormalizeRole` | src/features/admin/ManageUsers.jsx:63-67 | a missing role gives ""; if the lower-cased role starts with `role_`, the result is the lower-cased role minus that prefix, otherwise it is the lower-cased role; the result is always lower case |
| `ManageUsers.NormalizeRoleStripsPrefix` | src/features/admin/ManageUsers.jsx:66 | any spelling of `role_` followed by `rest` normalises to the lower-cased `rest` |
| `ManageUsers.NormalizeRolePrefixedAdmin` | src/features/admin/ManageUsers.jsx:63-67 | "ROLE_ADMIN" and "role_admin" both normalise to "admin" |
| `ManageUsers.NormalizeRoleBareAdmin` | src/features/admin/ManageUsers.jsx:63-67 | "Admin" and "admin" both normalise to "admin" |
| `ManageUsers.NormalizeRoleNotIdempotent` | src/features/admin/ManageUsers.jsx:66 | only the first prefix is removed: "role_role_x" normalises to "role_x", and normalising again gives "x" |
| `ManageUsers.FilteredUsers` | src/features/admin/ManageUsers.jsx:55-75 | the shown rows are an order-preserving sub-list of the users; every shown row passes the search and role tests; a row that passes occurs as often as in the list, any other not at all |
| `ManageUsers.UserManager.Shown` | src/features/admin/ManageUsers.jsx:316-317 | the rows on screen are a sub-list of the users, so the shown count never exceeds the total |
| `Seqs.FilterCount` | src/features/admin/ManageUsers.jsx:106 | `filter` keeps every copy of a kept value and drops every copy of any other |
| `ManageUsers.MatchesSearchIff` | src/features/admin/ManageUsers.jsx:56-57 | a user matches the search exactly when the lower-cased term occurs in the lower-cased name or in the lower-cased e-mail |
| `ManageUsers.EmptySearchMatches` | src/features/admin/ManageUsers.jsx:56-57 | an empty search term matches every user |
| `ManageUsers.NoFilterShowsAll` | src/features/admin/ManageUsers.jsx:55-74 | with an empty search term and "All Roles", the filtered list is the whole list, in order |
| `ManageUsers.RoleFilterIgnoresPrefixAndCase` | src/features/admin/ManageUsers.jsx:59-71 | filtering on "ROLE_ADMIN" shows exactly the rows that filtering on "admin" shows |
| `ManageUsers.WithRole` | src/features/admin/ManageUsers.jsx:88-90 | the role change keeps length, order, ids, names, e-mails and dates; rows with the id get the new role, and every other row is unchanged |
| `ManageUsers.AfterDelete` | src/features/admin/ManageUsers.jsx:104-107 | an unconfirmed delete changes nothing; a confirmed one leaves an order-preserving sub-list without the id, in which every row with another id occurs as often as before |
| `ManageUsers.SubsequenceOfItself` | src/features/admin/ManageUsers.jsx:104-107 | a list is a sub-list of itself, so the list an unconfirmed delete leaves is one too |
| `ManageUsers.WithSessionAdmin` | src/features/admin/ManageUsers.jsx:24-35 | the loaded list is the mock list, plus one entry exactly when the session user is present, has role "admin" or "role_admin" in any case, and has an e-mail not yet listed; that entry has the next id, the role "admin", today's date, and the user's name or "Current Admin" |
| `ManageUsers.WithSessionAdminOnce` | src/features/admin/ManageUsers.jsx:24-35 | after loading, an admin session user's e-mail is always in the list, so applying the rule again changes nothing |
| `ManageUsers.ControlsFor` | src/features/admin/ManageUsers.jsx:239-294 | the signed-in user's row shows the "cannot modify" note, and every other row shows the role selector and the Update and Delete buttons; these are enabled unless that row's update is pending |
| `ManageUsers.AppendedAdminIsLocked` | src/features/admin/ManageUsers.jsx:100-102 | the entry appended for the signed-in admin never offers the selector or the buttons |
| `ManageUsers.UserManager.constructor` | src/features/admin/ManageUsers.jsx:5-11 | the initial state: no users, loading, empty search and filter, no status, no pending update |
| `ManageUsers.UserManager.FinishLoading` | src/features/admin/ManageUsers.jsx:14-40 | the list becomes the mock list with the admin-insertion rule applied, loading ends, and nothing else changes |
| `ManageUsers.UserManager.SetSearchTerm` | src/features/admin/ManageUsers.jsx:183 | the search input sets the search term and nothing else |
| `ManageUsers.UserManager.SetRoleFilter` | src/features/admin/ManageUsers.jsx:189 | the role select sets the role filter and nothing else |
| `ManageUsers.PendingRoleChangeRestoresDeleted` | src/features/admin/ManageUsers.jsx:88-90 | a row deleted while a role change is pending is back after the change completes, because the change maps the list it started with |
| `ManageUsers.UserManager.BeginRoleChange` | src/features/admin/ManageUsers.jsx:77-79 | the row is marked pending, and the handler holds the list of the render it was called from |
| `ManageUsers.UserManager.CompleteRoleChange` | src/features/admin/ManageUsers.jsx:85-92 | after the delay, the list becomes the held list with the role changed, whatever the list is by then, and the status becomes success |
| `ManageUsers.UserManager.HandleRoleChange` | src/features/admin/ManageUsers.jsx:77-97 | with no event during the delay, the list becomes the role-changed list, the pending id becomes the user's, and the status becomes success |
| `ManageUsers.UserManager.HandleDeleteUser` | src/features/admin/ManageUsers.jsx:104-108 | the list becomes the list left by the delete, given the dialog's answer |
| `ManageUsers.UserManager.HandleUpdateUser` | src/features/admin/ManageUsers.jsx:110-128 | the pending id becomes the user's and the status becomes success; the list is not touched |
| `Forms.WithField` | src/examples/ContactUsWithApi.jsx:114-119 | the named field takes the new value, and the other two fields are kept |
| `ContactUsWithApi.IndexOf` | src/examples/ContactUsWithApi.jsx:76 | the position found holds the character and no earlier position does; when nothing is found, the character does not occur |
| `ContactUsWithApi.IsEmailShapedIffPattern` | src/examples/ContactUsWithApi.jsx:76-77 | the e-mail decision accepts exactly the strings that split into three non-empty runs without white space or '@', separated by an '@' and a later '.' |
| `ContactUsWithApi.EmailShapedIsTrimmed` | src/examples/ContactUsWithApi.jsx:76-96 | an e-mail the pattern accepts has no leading or trailing white space, so trimming it for the payload changes nothing |
| `ContactUsWithApi.Validate` | src/examples/ContactUsWithApi.jsx:60-98 | a form is accepted exactly when the trimmed name has 3–100 characters, the e-mail matches the pattern, and the trimmed message has 10–2000 characters; the payload is the three trimmed fields; a blank name is reported as missing and exactly then; the name-length rejection happens exactly when the name is non-blank and its trimmed length is out of range; a missing-e-mail or missing-message rejection implies that field is blank |
| `ContactUsWithApi.ContactPage.constructor` | src/examples/ContactUsWithApi.jsx:8-16 | the form starts empty and the status starts cleared |
| `ContactUsWithApi.ContactPage.Prefill` | src/examples/ContactUsWithApi.jsx:20-28 | with a signed-in user, name and e-mail are copied from the user and the message is kept; without one, the form is unchanged |
| `ContactUsWithApi.ContactPage.HandleChange` | src/examples/ContactUsWithApi.jsx:114-119 | a change event replaces exactly the named field |
| `ContactUsWithApi.ContactPage.HandleSubmit` | src/examples/ContactUsWithApi.jsx:56-112 | a rejected form sends nothing, sets the error status and keeps the form; an accepted form sends the validated payload, then either shows success and clears only the message, or shows the error and keeps the form |
| `ContactUs.Submitted` | src/pages/ContactUs.jsx:32-45 | a submit is refused exactly when the message is blank; an accepted submit clears the message and keeps name and e-mail |
| `ContactUs.SimpleContactPage.constructor` | src/pages/ContactUs.jsx:18-22 | the form starts with the fixed name and e-mail and an empty message |
| `ContactUs.SimpleContactPage.EditMessage` | src/pages/ContactUs.jsx:96-98 | editing changes only the message; name and e-mail stay the fixed values |
| `ContactUs.SimpleContactPage.HandleSubmit` | src/pages/ContactUs.jsx:32-45 | the submit is accepted exactly when the message is non-blank; the new form is the one `Submitted` gives, and name and e-mail stay fixed |
| `Search.CourseList` | src/pages/Search.jsx:65 | an array response is the list; an object response yields its `courses` if present, else its `data`, and a failure if it has neither; a falsy response yields the empty list; `null` yields a failure |
| `Search.ToCard` | src/pages/Search.jsx:68-79 | each card field takes its alternatives in the listed order: the trainer's name, then `trainerName`, then `instructor`, then "Unknown Instructor"; an image URL before a numeric image id before 1; missing numbers become 0; the trainer is never empty, and the card is enrolled if either flag is set |
| `Search.ToCards` | src/pages/Search.jsx:68-79 | one card per course, in the same order |
| `Search.SearchResults` | src/pages/Search.jsx:61-82 | a resolved search has results exactly when the response normalises, with one card per course, each naming a trainer |
| `Search.RedirectFor` | src/pages/Search.jsx:19-24 | the admin role, and only it, is sent to `/admin/dashboard` |
| `Search.RendersIff` | src/pages/Search.jsx:49-51 | the page renders exactly when the role is not the admin's, and a page that does not render is the one redirected to `/admin/dashboard`; `HandleSubmit`, `SetQuery`, `PickPopular` and `SearchAndSetUrl` require a rendered page |
| `Search.SearchPage.constructor` | src/pages/Search.jsx:11-14 | the query starts as the URL parameter; there are no results and both flags are off |
| `Search.SearchPage.StartSearch` | src/pages/Search.jsx:54-59 | a blank query changes nothing and sends nothing; otherwise the trimmed query is sent, searching is on, searched is off and the results are cleared |
| `Search.SearchPage.FinishSearch` | src/pages/Search.jsx:61-93 | a response that normalises sets the mapped results; a rejection or a failing normalisation empties them; either way searched is on and searching is off |
| `Search.SearchPage.PerformSearch` | src/pages/Search.jsx:54-94 | a blank query is a no-op; otherwise the trimmed query is sent, and the search ends with searched on, searching off, and the mapped results or none |
| `Search.SearchPage.SearchAndSetUrl` | src/pages/Search.jsx:101-104 | `q` takes the new value and the page's search runs; if `q` changed, the URL effect copies it into the box and searches it too, both requests are sent, and the results are those of the search that settles last |
| `Search.SearchPage.HandleSubmit` | src/pages/Search.jsx:96-105 | only on a rendered page; a blank query changes nothing and sends nothing; otherwise `q` becomes the trimmed query, which is sent once if `q` already held it and twice (with the box set to it) if not, and the results are those of the last search to settle |
| `Search.SearchPage.SetQuery` | src/pages/Search.jsx:35-46 | only on a rendered page; typing sets the query; a blank query clears the results, both flags and the URL parameter; a non-blank one leaves them alone |
| `Search.SearchPage.SearchFromUrl` | src/pages/Search.jsx:26-51 | a blank `q` changes nothing; otherwise the box takes `q`; on an admin's page the effect then throws and nothing else changes; on any other page the trimmed `q` is searched and the results are the mapped response or none |
| `Search.SearchPage.PickPopular` | src/pages/Search.jsx:177-184 | only on a rendered page; the box and `q` become the label as it is; the label is searched once if `q` already held it and twice if not, and the results are those of the last search to settle |
| `Classroom.MockCourse` | src/features/courses/Classroom.jsx:15-50 | the course carries the route id and five videos whose ids are 1 to 5 in order |
| `Classroom.MockCourseDistinct` | src/features/courses/Classroom.jsx:18-49 | no two mock videos share an id |
| `Classroom.CompletedCount` | src/features/courses/Classroom.jsx:81 | the completed count lies between 0 and the number of videos; it equals the number of videos exactly when every video is completed, and is 0 exactly when none is |
| `Classroom.CompletedCountCons` | src/features/courses/Classroom.jsx:81 | the count of a list is the first video's contribution plus the count of the rest |
| `Classroom.MarkCompletedAddsOne` | src/features/courses/Classroom.jsx:60-62 | marking a listed, not yet completed video of the course raises the count by exactly one |
| `Classroom.MarkIncompleteRemovesOne` | src/features/courses/Classroom.jsx:64-66 | unmarking a listed, completed video of the course lowers the count by exactly one |
| `Classroom.MarkOtherUnchanged` | src/features/courses/Classroom.jsx:81 | marking or unmarking a pair of another course, or a video the list does not hold, leaves the count as it was |
| `Classroom.ProgressStore.MarkVideoCompleted` | src/features/courses/Classroom.jsx:7 | the store gains exactly the given pair |
| `Classroom.ProgressStore.MarkVideoIncomplete` | src/features/courses/Classroom.jsx:7 | the store loses exactly the given pair |
| `Classroom.ClassroomPage.constructor` | src/features/courses/Classroom.jsx:6-11 | no course is loaded yet and the first video is selected |
| `Classroom.ClassroomPage.LoadCourse` | src/features/courses/Classroom.jsx:13-51 | the course becomes the mock course of the route id; the selection is kept and stays valid |
| `Classroom.ClassroomPage.CurrentVideo` | src/features/courses/Classroom.jsx:57 | the current video is one of the course's videos |
| `Classroom.ClassroomPage.ProgressQuery` | src/features/courses/Classroom.jsx:58 | the progress is asked for with the route id and a positive total of five videos, which bounds the completed figure shown beside it |
| `Classroom.ClassroomPage.CompletedShown` | src/features/courses/Classroom.jsx:80-82 | the completed figure never exceeds the number of videos |
| `Classroom.ClassroomPage.SelectVideo` | src/features/courses/Classroom.jsx:149-152 | clicking playlist entry `index` selects it |
| `Classroom.ClassroomPage.HandleVideoComplete` | src/features/courses/Classroom.jsx:119-128 | the store gains exactly the current pair; selection and course are unchanged; afterwards "Mark as Incomplete" is offered; the completed figure rises by one unless the video was already completed |
| `Classroom.ClassroomPage.HandleVideoIncomplete` | src/features/courses/Classroom.jsx:130-137 | the store loses exactly the current pair; selection and course are unchanged; afterwards "Mark as Incomplete" is no longer offered; the completed figure falls by one if the video was completed |

## Left out

- Timers: the 1-second simulated load, the 0.5- and 1-second simulated
  update delays, and the auto-hide of the status messages after 3 or 5
  seconds with the fade. The handlers are modelled at the moment their
  delay has passed. The auto-hide resets of `updateStatus`, `updatingUserId`
  and `submitStatus` are not modelled.
- `alert`, `console.log` and `console.error` calls, the JSX markup, the
  CSS classes, the iframe, and the date formatting of `joinDate`.
- `ManageUsers.UserManager.HandleRoleChange` and
  `ManageUsers.UserManager.HandleUpdateUser`: the `catch` branches are not
  modelled. Nothing inside their `try` blocks can throw: the server calls
  are commented out, and only a timer promise is awaited.
- `ManageUsers.WithSessionAdmin`: a session user without an e-mail is
  modelled with the e-mail `""`. The source appends a row whose e-mail is
  `undefined`. The search at ManageUsers.jsx:57 then throws for any term
  that does not occur in that row's name. In the model the row just does
  not match.
- `ManageUsers.WithSessionAdmin`: the date is a parameter (`today`) instead
  of `new Date().toISOString()`.
- `ContactUsWithApi.ContactPage.HandleSubmit`: the collaborator's outcome is
  the `delivered` parameter. The `useApi` hook is not part of this model,
  and neither are its `loading` flag or the effect that maps its `error` to
  the error status. The model assumes its `execute` rejects when the send
  fails.
- `Text.Lower`: `toLowerCase` is modelled on the ASCII letters only. Other
  letters are left unchanged.
- String lengths in the validation chain count code points, not UTF-16 code
  units. Characters outside the Basic Multilingual Plane would count twice
  in JavaScript.
- `Search.SearchPage.PickPopular`: it takes any non-blank label. The ten
  fixed button labels are not enumerated.
- `Search.SearchPage.SearchAndSetUrl`: the two searches run side by side
  in the page; the model gives the state after both have settled, not the
  states in between.
- `Search.SearchPage.HandleSubmit`, `Search.SearchPage.SearchFromUrl`: `q`
  is compared by value; two spellings of the same value in the URL are not
  distinguished.
- `Search.SearchPage.constructor`: of the three effects that run on mount,
  the URL effect is the method `SearchFromUrl`, the reset on a blank query
  is part of the method `SetQuery`, and the admin redirect is the function
  `RedirectFor`; their order on mount is not modelled.
- `Search.CourseList`, `Search.ToCard`: some response shapes cannot be
  written in the model: a truthy `courses` or `data` that is not an array,
  a `null` element in the list (both throw inside the search's `try` and
  take the failure path in the source), and a rating, price or duration
  given as a string (the source passes it through unchanged).
- `Search.ToCard`: ids are numbers. A string id is not modelled.
- `Search.ToCard`: a string `imageId` is not modelled; only a numeric one is.
- `Search.SearchPage.FinishSearch`: the error text shown in the alert is not
  modelled.
- Search: the search service itself and its HTTP layer (`src/api`) are not
  part of this model.
- `Classroom.ClassroomPage.LoadCourse`: `parseInt` of the route parameter is
  taken to give an integer. A non-numeric parameter, which gives `NaN`, is
  not modelled.
- `Classroom.ClassroomPage.ProgressQuery`: the percentage formula of
  `getCourseProgress` lives in the progress context, which is not part of
  this model. Only the arguments it receives are modelled.
- The API usage examples, the service modules, the authentication context
  and the progress context are not part of this model.
