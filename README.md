# Event planner core, modelled in Dafny

The system is a small event planner with three parts.

- A development runner (`scripts/run-dev.js`) reads `backend/.env`, picks the database URL and chooses two free ports.
- An Express backend has routes for events, RSVPs ("registrations") and users. Its CORS policy admits the frontend and any localhost origin.
- A React frontend keeps a login session in `localStorage`, lists events with search, category and date filters, and lets a user create, edit, delete and RSVP to events. Every request body and every response goes through a small API layer.

The model has one Dafny module per source file:

- RunDev for the runner.
- ServerCors, EventRoutes, RegistrationRoutes and UserRoutes for the backend.
- EventsApi, BackendCompatibility, AppSession, EventCard, HomePage, CreateEvent, EditEvent and LoginPage for the frontend.

Three shared modules support them:

- JsText has JavaScript's `trim`, ASCII `toLowerCase`, `includes`, `indexOf` and the decimal rendering of numbers.
- JsValues has `Option` and a JavaScript number, which is `NaN` or a finite real.
- UiModel has the frontend's event object, the name values (`undefined`, `null` or a string), the ownership rule and the event-form rules.

## How the model is built

- **Imperative code becomes methods.** Where the source changes state step by step, the model is a method or a class that does the same:
  - the env-file loop, the database-URL loop with its `break`, and the port search;
  - the SQL query builder;
  - the backend tables (events and registrations keyed as in the schema, users keyed by email);
  - the form validators, which write one error at a time;
  - the app's `events` list;
  - the session state with its `localStorage` record;
  - the delete dialog of the list page;
  - the login page's form state.
- **Each method has a specification.** It is proved against a pure function, and the properties the code promises are lemmas about that function.
- **Foreign code and I/O become function parameters.** These are:
  - JavaScript's `Number(text)`;
  - `new URL(u).protocol`;
  - the socket probe `canListen`;
  - zod's email check;
  - bcrypt's hash and compare;
  - `toDateString`;
  - the `Date` fallback of `toTimeString`.

  The SQL statements are modelled only by their effect on the maps. A store failure is a boolean parameter that leads to the 500 reply.

Some behaviour of the code differs from what its design describes. The model follows the code:

- **No admin override on the backend.** Editing or deleting an event requires the stored `creator_id` to equal `parseInt(user_id)` (backend/routes/event.js:66, :90). The frontend, by contrast, lets an admin change any event and otherwise compares display names (`createdBy === currentUser`).
- **The frontend calls endpoints the backend does not define.** These are `/events/create`, `/events/editEvent`, `/events/deleteEvent`, `/registrations/register` and `/users/recover-password`. The two sides are therefore modelled separately, each as written.
- **Sign-in field mismatch.** The sign-in page posts `{username, password}`, while the backend's `/signin` reads `email`.
- **Missing props.** `App.jsx` does not pass `setEvents` or `currentUser` to the creation page, nor `setEvents` or `apiConnected` to the edit page. Both pages are modelled as their own code declares them.
- **Sign-in always supplies a role.** The login page always passes a role (`user.role || "user"`). So `handleLogin`'s rule that a user named "admin" becomes an admin never applies after a sign-in without a role from the server (`LoginPage.SignInRoleIgnoresName`).

## Model

| member | source | states |
|---|---|---|
| RunDev.SplitLines | scripts/run-dev.js:26 | `split(/\r?\n/)` always yields at least one line |
| RunDev.LineEntry | scripts/run-dev.js:28-37 | a blank line, a `#` comment or a line without `=` contributes nothing; an entry has a non-empty trimmed key without `=` that does not start with `#`, and a trimmed value |
| RunDev.KeyHasNoSeparator | scripts/run-dev.js:35 | trimming the text before the first `=` leaves no `=` in the key |
| RunDev.LineEntries | scripts/run-dev.js:28-40 | one entry per line |
| RunDev.LineEntriesAt | scripts/run-dev.js:28-40 | entry `i` is what line `i` contributes |
| RunDev.LineEntriesSnoc | scripts/run-dev.js:28-40 | reading one more line appends exactly that line's entry |
| RunDev.ParseEnvFile | scripts/run-dev.js:24-43 | the loop's dictionary is the one the file's lines define, entries applied first to last |
| RunDev.CollectKeys | scripts/run-dev.js:39 | a key is defined iff some line contributes an entry with that key |
| RunDev.LastOccurrenceWins | scripts/run-dev.js:39 | for a repeated key the value of its last occurrence is kept |
| RunDev.EnvOfKeys | scripts/run-dev.js:24-43 | a key is in the parsed file iff some line of the file yields that key |
| RunDev.FormattedLineReadsBack | scripts/run-dev.js:32-37 | the line `key=value` reads back as that key and value, also when the value itself contains `=` |
| RunDev.ParsePort | scripts/run-dev.js:53-59 | the parsed number when it is an integer in 1..65535, the fallback otherwise |
| RunDev.ParsePortIsPort | scripts/run-dev.js:53-59 | with a valid fallback (both defaults are), the result is always a valid port |
| RunDev.FirstConfiguredEmpty | scripts/run-dev.js:89-101 | no URL is found iff every key is unset in both environments |
| RunDev.FirstConfiguredPriority | scripts/run-dev.js:89-101 | the first key set in either environment decides, and there the runtime value beats the backend `.env` value |
| RunDev.ResolveDatabaseUrl | scripts/run-dev.js:87-124 | the result is the first configured URL iff one exists and its protocol is `postgres:` or `postgresql:`; otherwise the missing, unparsable or unsupported-protocol error, each in its case |
| RunDev.FindFreePort | scripts/run-dev.js:141-158 | the smallest candidate among the 25 from the preferred port that is not reserved and that the probe reports free; failure when every candidate is reserved or busy; a rejection when the search reaches a candidate outside 0..65535, which `listen` refuses. From a valid port whose window ends by 65535 there is no rejection |
| RunDev.ReservePorts | scripts/run-dev.js:234-237 | the backend and frontend ports differ, both are at most 65535 and can be listened on, and each lies in its 25-port window. The backend port is the first free one; the frontend port is the first free one other than the backend port. Otherwise it is the "no free port" error of the search that found nothing, or the rejection for the first candidate above 65535 that a search reached |
| ServerCors.StripTrailingSlash | backend/server.js:9 | removes at most one trailing `/` and nothing else |
| ServerCors.StripAppendedSlash | backend/server.js:15 | one appended `/` is removed again |
| ServerCors.FrontendOrigin | backend/server.js:9 | `http://localhost:3000` when `FRONTEND_URL` is unset, else that URL without one trailing slash |
| ServerCors.CheckOrigin | backend/server.js:14-25 | allowed iff the origin is absent, equals the frontend origin after slash removal, or is `http(s)://localhost:<digits>` or `http(s)://127.0.0.1:<digits>`; otherwise an error naming the origin |
| ServerCors.TrailingSlashIrrelevant | backend/server.js:15-20 | an origin is judged the same with or without one trailing slash |
| ServerCors.ConfiguredFrontendAllowed | backend/server.js:9-20 | the configured frontend URL is allowed, with or without a trailing slash |
| ServerCors.LocalhostPortsAllowed | backend/server.js:16-20 | every port of localhost and 127.0.0.1, over http or https, is allowed whatever the frontend origin |
| ServerCors.DevRunnerOriginAllowed | backend/server.js:9-20 | the `http://localhost:<port>/` URL the runner passes as `FRONTEND_URL` is allowed |
| ServerCors.LookalikeOriginDenied | backend/server.js:16-24 | a localhost URL continued past its port by a non-digit is denied, with an error naming it |
| EventRoutes.NewRow | backend/routes/event.js:9-13 | the inserted row carries the request's fields and the creator id given |
| EventRoutes.UpdatedRow | backend/routes/event.js:70-74 | the update sets the six edited columns and keeps the id and the creator |
| EventRoutes.MayMutateOnlyCreator | backend/routes/event.js:66 | a change is permitted iff the row has a creator id equal to the parsed user id; there is no admin override |
| EventRoutes.EventTable.constructor | backend/routes/event.js:1-4 | an empty table |
| EventRoutes.EventTable.Create | backend/routes/event.js:6-18 | a new row under a fresh id, returned with 200; a store failure answers 500 and leaves the table |
| EventRoutes.EventTable.Update | backend/routes/event.js:58-79 | 404 for a missing id before any permission check, 403 for a non-creator, both leaving the table; otherwise only that row is updated and returned |
| EventRoutes.EventTable.Delete | backend/routes/event.js:82-100 | 404 before 403 as for update; a permitted delete removes exactly that row |
| EventRoutes.UpdateLeavesOthers | backend/routes/event.js:70-74 | an update changes no other row, and neither the id nor the creator of its own row |
| EventRoutes.DeleteLeavesOthers | backend/routes/event.js:94-95 | a delete removes exactly one key and keeps every other row |
| EventRoutes.ActiveFilters | backend/routes/event.js:31-47 | the filters appear in the order search, category, date, each only when given, with the search value wrapped as `%search%` |
| EventRoutes.Values | backend/routes/event.js:27-47 | one parameter per filter, in filter order |
| EventRoutes.RenderAppend | backend/routes/event.js:31-47 | an appended filter's clause carries the next placeholder number |
| EventRoutes.RenderConcat | backend/routes/event.js:31-47 | rendering two filter lists in sequence continues the numbering |
| EventRoutes.RenderSplit | backend/routes/event.js:27-47 | the `k`-th clause carries placeholder `$(k+1)`, which binds to the `k`-th parameter |
| EventRoutes.AppendFilter | backend/routes/event.js:31-47 | one `if` block keeps the query and the parameter list in step: placeholder number = parameter count + 1 |
| EventRoutes.BuildEventQuery | backend/routes/event.js:21-47 | the built query is the base query followed by the clauses of the active filters numbered `$1..$n`, with the matching parameters; with no filters, the base query and no parameters |
| RegistrationRoutes.Upsert | backend/routes/registrations.js:12-18 | after the upsert exactly one row exists for the (user, event) pair, with the new status; an existing row keeps its registration time and only changes status; all other rows are unchanged |
| RegistrationRoutes.UpsertIdempotent | backend/routes/registrations.js:12-18 | repeating the same RSVP leaves the same table |
| RegistrationRoutes.UpsertLastWriterWins | backend/routes/registrations.js:12-18 | two RSVPs for the same pair leave the second status, with the first registration time |
| RegistrationRoutes.UpsertListsAttendee | backend/routes/registrations.js:12-38 | after an RSVP by a known user, the event's attendee list holds that user with the new status |
| RegistrationRoutes.UpsertKeepsOtherEvents | backend/routes/registrations.js:12-38 | an RSVP leaves the attendee list of every other event unchanged |
| RegistrationRoutes.RegistrationTable.constructor | backend/routes/registrations.js:1-4 | an empty table |
| RegistrationRoutes.RegistrationTable.Register | backend/routes/registrations.js:6-24 | the upsert and the stored row returned with 200, or 500 "Server Error" and an unchanged table |
| RegistrationRoutes.RegistrationTable.ListAttendees | backend/routes/registrations.js:27-44 | exactly the registrations of that event whose user exists, each as name, email, status and registration time; or 500 |
| UserRoutes.SchemaIssues | backend/routes/users.js:8-12 | no issue iff the name is non-empty (when checked), the email is valid and the password has at least 6 characters; a short password's issue comes last |
| UserRoutes.SignupOutcome | backend/routes/users.js:18-50 | 201 iff all fields are given, the schema passes and the email is new, and then exactly one user is added with the hash rather than the password; every other case is 400 with the store unchanged, the missing-field case before any lookup |
| UserRoutes.SignupKeepsWellFormed | backend/routes/users.js:29-47 | a sign-up keeps each user keyed by its own email, with distinct ids below the next id, so emails stay unique |
| UserRoutes.SigninReply | backend/routes/users.js:52-77 | 200 with only id, name and email iff the fields are given, pass the schema, the email is known and the password matches the hash; "does not exist" and "Invalid password" in their cases |
| UserRoutes.SignupThenSignin | backend/routes/users.js:18-77 | signing in right after a successful sign-up with the same email and password succeeds and returns the new user |
| UserRoutes.UserStore.constructor | backend/routes/users.js:1-5 | an empty store |
| UserRoutes.UserStore.Signup | backend/routes/users.js:18-50 | the store and reply are those of the sign-up outcome, and the store stays well formed |
| EventsApi.FirstTimeAt | frontend/src/services/eventsApi.js:13 | the first position where `\d{2}:\d{2}` matches, or none |
| EventsApi.ToTimeString | frontend/src/services/eventsApi.js:10-23 | "" for an empty value; the first `HH:MM` in the text when there is one; otherwise the date fallback |
| EventsApi.ToTimeStringKeepsLeadingTime | frontend/src/services/eventsApi.js:13-16 | a value that starts with `HH:MM` gives exactly that time |
| EventsApi.ToTimeStringIdempotent | frontend/src/services/eventsApi.js:10-16 | applying it to its own result changes nothing |
| EventsApi.FailureMessage | frontend/src/services/eventsApi.js:30-37 | the `error` field, else `message`, else a non-empty string body, else "Request failed with status N" |
| EventsApi.ParseApiResponse | frontend/src/services/eventsApi.js:25-40 | an OK response gives its body unchanged; any other gives the failure message |
| EventsApi.FailureMessageNonEmpty | frontend/src/services/eventsApi.js:30-37 | with no list fields, the failure message is never empty |
| EventsApi.FailureMessageJoinsList | frontend/src/services/eventsApi.js:31-33 | a list `error` is joined with ", "; a one-element list gives its element |
| EventsApi.AttendeeFromApi | frontend/src/services/eventsApi.js:53-56 | the user's name or "Unknown User", the status or "going" |
| EventsApi.AttendeesFromApi | frontend/src/services/eventsApi.js:52-57 | attendees map one-to-one and in order from the registrations |
| EventsApi.CreatorIdFromApi | frontend/src/services/eventsApi.js:60 | `creatorId`, else the creator's id, else null |
| EventsApi.NormalizeEventFromApi | frontend/src/services/eventsApi.js:42-62 | the defaults: empty texts, "General" category, "" capacity only for a missing one, `[]` attendees without registrations, the creator's name or "", and the creator's role or "user"; date and time come from `toDateString` and `toTimeString` |
| EventsApi.ZeroCapacityKept | frontend/src/services/eventsApi.js:51 | a capacity of 0 is kept, not turned into "" |
| EventsApi.BodyFields | frontend/src/services/eventsApi.js:86-95 | title, description, location and category are each the trimmed input ("" for a falsy one); the date and time are passed through; the capacity is null for "" and a number otherwise |
| EventsApi.BodyFieldsIdempotent | frontend/src/services/eventsApi.js:86-95 | building a body from a body's own fields gives the same fields |
| EventsApi.CreateEventBody | frontend/src/services/eventsApi.js:76-95 | the create body: the common fields plus the creator id |
| EventsApi.UpdateEventBody | frontend/src/services/eventsApi.js:106-129 | the update body: the common fields plus id, creator id and requester role |
| EventsApi.CreateAndUpdateAgree | frontend/src/services/eventsApi.js:86-129 | creating and updating send the same event fields for the same input |
| BackendCompatibility.ApiBaseUrl | frontend/src/services/backendCompatibility.js:1 | "/api" when no base URL is configured |
| BackendCompatibility.DetectBackendStatus | frontend/src/services/backendCompatibility.js:20-49 | a thrown request is "unreachable"; a non-OK response is disconnected with "HTTP <status>"; an OK response is connected with no reason, placeholder iff its payload is |
| BackendCompatibility.StatusConsistent | frontend/src/services/backendCompatibility.js:20-49 | connected iff no reason is given, and placeholder routes only when connected |
| BackendCompatibility.HintAnywhereIsPlaceholder | frontend/src/services/backendCompatibility.js:5-10 | a string containing "route working" in any letter case, anywhere, is a placeholder |
| BackendCompatibility.HintIsLowerCase | frontend/src/services/backendCompatibility.js:3 | the hint is already lower case, so it can match a lowered payload |
| BackendCompatibility.UsersGreetingIsPlaceholder | frontend/src/services/backendCompatibility.js:5-10 | the users route's greeting text is recognised as a placeholder |
| BackendCompatibility.NonStringPayloadIsData | frontend/src/services/backendCompatibility.js:5-10 | a payload that is not a string is never a placeholder |
| AppSession.PositiveId | frontend/src/App.jsx:25-27 | an id is kept iff it is a positive integer |
| AppSession.NameOrNull | frontend/src/App.jsx:34-39 | a stored name is kept when truthy, else null |
| AppSession.LoadAuthSession | frontend/src/App.jsx:16-43 | missing or unparsable storage loads logged out; the id is null or positive; logged in implies an id; a logged-in record without a positive integer id loads fully logged out |
| AppSession.Persist | frontend/src/App.jsx:109-118 | the stored record holds the four session fields |
| AppSession.PersistLoadRoundTrip | frontend/src/App.jsx:23-39 | saving then loading returns the same session iff the session is well formed: its id is null or positive, a logged-in session has an id, and the name and the role are each null or a non-empty string |
| AppSession.LoggedOutSurvivesReload | frontend/src/App.jsx:16-43 | the logged-out session reloads as logged out, stored or not |
| AppSession.ProtectedRoute | frontend/src/App.jsx:45-62 | not logged in redirects to login whatever the route; a non-admin on an admin route goes home; otherwise the children render |
| AppSession.ResolveUsername | frontend/src/App.jsx:153 | `username`, else `name`, else "user"; never empty |
| AppSession.ResolveRole | frontend/src/App.jsx:154-155 | the given role, else "admin" iff the username lowercases to "admin", else "user" |
| AppSession.LoginSession | frontend/src/App.jsx:152-160 | logged in, with the resolved name and role and the user's id |
| AppSession.LoginSurvivesReloadIffId | frontend/src/App.jsx:152-160 | a login survives a reload iff the user has a positive id; with no id, 0 or a negative id it reloads as logged out |
| AppSession.AuthState.constructor | frontend/src/App.jsx:65-72 | the state is the loaded session; the effect then writes it back, or on a failed write leaves the entry as it was |
| AppSession.AuthState.PersistIfChanged | frontend/src/App.jsx:109-118 | the effect writes the record only when a session field changed; a failed `setItem` is caught and leaves the entry unchanged |
| AppSession.AuthState.Login | frontend/src/App.jsx:152-163 | the state becomes the login session; that session is stored unless the write fails, in which case the previous entry stays and a reload brings it back |
| AppSession.AuthState.Logout | frontend/src/App.jsx:186-194 | the state becomes logged out; the key is removed, and the effect writes the logged-out record back when the state changed and the write succeeds |
| AppSession.LogoutSurvivesReload | frontend/src/App.jsx:186-194 | whatever logout leaves in storage reloads as logged out |
| UiModel.TextOr | frontend/src/services/eventsApi.js:87 | the text when truthy, else "" |
| UiModel.NameOr | frontend/src/pages/CreateEvent.jsx:71 | the name when truthy, else the fallback |
| UiModel.NormalizeMax | frontend/src/pages/CreateEvent.jsx:62-63 | "" stays "", anything else becomes `Number` of it |
| UiModel.NormalizeMaxIdempotent | frontend/src/pages/EditEvent.jsx:88-89 | normalising twice is normalising once |
| UiModel.FindById | frontend/src/pages/EditEvent.jsx:20 | some event is found iff the list holds the id, and it is the first with that id |
| UiModel.Check | frontend/src/pages/CreateEvent.jsx:36-41 | a failed rule reports its message, a passed one nothing |
| UiModel.EventFormErrors | frontend/src/pages/CreateEvent.jsx:33-51 | no error iff title, location, category and description are non-blank after trim, date and time non-empty, and the capacity is "" or a non-negative number |
| UiModel.ValidFormCapacity | frontend/src/pages/CreateEvent.jsx:43-48 | a valid form's normalised capacity is "" or a non-negative number |
| UiModel.EventList.constructor | frontend/src/App.jsx:68 | the app's events list holds the events given |
| EventCard.NormalizeAttendee | frontend/src/components/EventCard.jsx:6-11 | a bare name becomes that name with status "going"; an entry stays as it is |
| EventCard.GoingAttendees | frontend/src/components/EventCard.jsx:26-29 | exactly the attendees whose normalised status is not "notgoing", each as often as it occurs in the list |
| EventCard.GoingAttendeesAppend | frontend/src/components/EventCard.jsx:26-29 | filtering keeps list order: filtering a concatenation concatenates the filtered parts |
| EventCard.AttendeeCount | frontend/src/components/EventCard.jsx:30 | the number of counted attendees, at most the total |
| EventCard.CountAllIffNoneDeclined | frontend/src/components/EventCard.jsx:26-30 | the count is the total iff nobody declined |
| EventCard.CountOfAdded | frontend/src/components/EventCard.jsx:26-30 | one more attendee raises the count by one unless the attendee declined |
| EventCard.SpotsLeft | frontend/src/components/EventCard.jsx:31-33 | capacity minus count iff the capacity is truthy and positive, else null |
| EventCard.FullMeansCountReachesCapacity | frontend/src/components/EventCard.jsx:34 | full iff there is a limit and the count reaches it |
| EventCard.CapacityNoteOf | frontend/src/components/EventCard.jsx:119-123 | "(N spots left)" shows only with a limit, not full, and at most 5 places left, and N lies in (0, 5] |
| EventCard.CreatorRole | frontend/src/components/EventCard.jsx:35 | `createdByRole` if set, else "admin" iff the creator's name lowercases to "admin", else "user" |
| EventCard.Actions | frontend/src/components/EventCard.jsx:36-39 | edit and delete are equal, and allowed iff the role is admin or the user created the event |
| EventCard.NoActionsForOthersEvents | frontend/src/components/EventCard.jsx:36-39 | a signed-in non-admin gets neither button on someone else's event |
| EventCard.CurrentUserStatus | frontend/src/components/EventCard.jsx:46-48 | the normalised status of the first attendee named like the user, or none iff nobody is |
| EventCard.NoStatusWithoutUser | frontend/src/components/EventCard.jsx:46-48 | without a user name there is no status |
| HomePage.VisibleEvents | frontend/src/pages/Home.jsx:188-195 | exactly the titled events whose lowered title contains the lowered search and whose category and date match when selected |
| HomePage.VisibleEventsAppend | frontend/src/pages/Home.jsx:188-195 | filtering keeps list order: filtering a concatenation concatenates the filtered parts |
| HomePage.EmptyFiltersShowTitled | frontend/src/pages/Home.jsx:188-195 | with no search, category or date, every titled event is shown |
| HomePage.HandleRsvp | frontend/src/pages/Home.jsx:20-42 | an admin is refused first, then a missing user name or id; otherwise the RSVP request for that user and event |
| HomePage.MayDeleteOnlyOwn | frontend/src/pages/Home.jsx:44-54 | a non-admin may delete an event iff the first event with that id names them as creator |
| HomePage.HomePage.constructor | frontend/src/pages/Home.jsx:7-18 | the page starts with the dialog closed |
| HomePage.HomePage.DeleteClick | frontend/src/pages/Home.jsx:44-54 | the dialog opens for the event iff deleting it is permitted; otherwise nothing changes |
| HomePage.HomePage.DeleteConfirm | frontend/src/pages/Home.jsx:56-89 | the delete request is sent iff the permission still holds and the user has an id; the dialog is closed on every path |
| HomePage.HomePage.DeleteCancel | frontend/src/pages/Home.jsx:91-93 | the dialog is closed |
| HomePage.ClickThenConfirm | frontend/src/pages/Home.jsx:44-89 | a permitted click and a confirmation send the delete request exactly when the user has an id |
| CreateEvent.ValidateForm | frontend/src/pages/CreateEvent.jsx:33-51 | the errors written field by field are those of the event-form rules |
| CreateEvent.NewEvent | frontend/src/pages/CreateEvent.jsx:65-72 | the new event: the form's fields, no attendees, the user as creator, the role or "user", a normalised capacity |
| CreateEvent.CreatorMayEditNewEvent | frontend/src/pages/CreateEvent.jsx:65-72 | the creator may edit the new event, whatever the role |
| CreateEvent.Submit | frontend/src/pages/CreateEvent.jsx:53-82 | an invalid form leaves the list; a valid one appends the new event at the end and changes nothing else |
| CreateEvent.AppendedEventFound | frontend/src/pages/CreateEvent.jsx:74 | the appended event is found by its id when no earlier event has it |
| EditEvent.EditGuard | frontend/src/pages/EditEvent.jsx:34-46 | not found iff no event has the id, checked before permission; denied iff found and neither admin nor creator |
| EditEvent.AdminOnlyNotFound | frontend/src/pages/EditEvent.jsx:41 | an admin is never denied |
| EditEvent.ValidateForm | frontend/src/pages/EditEvent.jsx:62-77 | the same rules as the creation form, on the form state's fields |
| EditEvent.ReplaceById | frontend/src/pages/EditEvent.jsx:131-137 | same length; events with the id are replaced, all others unchanged |
| EditEvent.ReplaceByIdIdempotent | frontend/src/pages/EditEvent.jsx:131-137 | replacing twice is replacing once |
| EditEvent.ReplaceByIdFind | frontend/src/pages/EditEvent.jsx:131-137 | afterwards the id finds the new event, and every other id finds what it found before |
| EditEvent.UpdateRequest | frontend/src/pages/EditEvent.jsx:97-109 | the update request carries the route id, the user id, the role or "user", and the body fields of the form state: the four texts trimmed, the date and time as typed, and the normalised capacity |
| EditEvent.Submit | frontend/src/pages/EditEvent.jsx:79-137 | invalid forms stop first; without the API the list is updated by id; with it, a missing user id aborts before any call, otherwise the update request is sent and the list replaced locally only when the refresh failed |
| LoginPage.SignInErrorsOf | frontend/src/pages/Login.jsx:99-104 | no error iff username and password are non-blank after trim |
| LoginPage.ValidateSignIn | frontend/src/pages/Login.jsx:99-104 | the errors written one by one are those of the sign-in rules |
| LoginPage.PasswordError | frontend/src/pages/Login.jsx:110-113 | a password of 1 to 5 characters reports "at least 6 characters", overriding "required" |
| LoginPage.ConfirmError | frontend/src/pages/Login.jsx:114-123 | the mismatch error only when both passwords are non-blank and differ; a blank confirmation asks for one |
| LoginPage.SignUpErrorsOf | frontend/src/pages/Login.jsx:106-131 | no error iff the form is acceptable; the role must be "user" or "admin", and the admin role needs a non-blank invite key |
| LoginPage.ValidateSignUp | frontend/src/pages/Login.jsx:106-131 | the later writes override the earlier ones exactly as the sign-up rules say |
| LoginPage.RecoveryErrorsOf | frontend/src/pages/Login.jsx:133-152 | the new password gets the required, length and mismatch rules of sign-up |
| LoginPage.ValidateRecovery | frontend/src/pages/Login.jsx:133-152 | the errors written one by one are those of the recovery rules |
| LoginPage.RecoveryMatchesSignUpRules | frontend/src/pages/Login.jsx:133-152 | the same passwords are accepted or rejected alike by sign-up and by recovery |
| LoginPage.SignupPayloadOf | frontend/src/pages/Login.jsx:201-209 | username trimmed, email trimmed and lowered, and the invite key only for the admin role |
| LoginPage.AcceptedSignupPayload | frontend/src/pages/Login.jsx:201-209 | an accepted form's payload has a non-blank username and a valid role |
| LoginPage.RecoveryRequestOf | frontend/src/pages/Login.jsx:255-259 | the recovery request trims the username and trims and lowers the email |
| LoginPage.SignedInUser | frontend/src/pages/Login.jsx:175-180 | the user passed to `onLogin`: the response's id and name (else the typed name) and always a role |
| LoginPage.SignInRoleIgnoresName | frontend/src/pages/Login.jsx:175-180 | without a role in the response the session role is "user" even for the name "admin" |
| LoginPage.SignInUsesTypedName | frontend/src/pages/Login.jsx:175-180 | without a name in the response the session shows the trimmed typed name |
| LoginPage.ResolvedAdminInviteKey | frontend/src/pages/Login.jsx:287-288 | the typed key when non-blank, else the configured one, trimmed |
| LoginPage.DemoPayload | frontend/src/pages/Login.jsx:292-301 | a demo account's payload, with the invite key only for the admin account when there is one |
| LoginPage.ClassifyProvisionError | frontend/src/pages/Login.jsx:312-317 | "exists" iff the lowered message contains "already" or "taken", "failed" with the message otherwise |
| LoginPage.AlreadyMessageIsExisting | frontend/src/pages/Login.jsx:312-317 | a message containing "already" in any letter case is classed as existing |
| LoginPage.AlreadyIsLowerCase | frontend/src/pages/Login.jsx:313-315 | the keyword is lower case, so it can match a lowered message |
| LoginPage.LoginPageState.constructor | frontend/src/pages/Login.jsx:52-77 | sign-in mode, blank forms, no errors and no message |
| LoginPage.LoginPageState.SwitchMode | frontend/src/pages/Login.jsx:84-87 | the mode changes, errors and message are cleared, and the forms are kept |
| LoginPage.LoginPageState.SubmitSignIn | frontend/src/pages/Login.jsx:154-171 | no request iff the form has errors, which are then shown; otherwise the request with the trimmed username |
| LoginPage.LoginPageState.SubmitSignUp | frontend/src/pages/Login.jsx:189-209 | no request iff the form has errors; otherwise the sign-up payload |
| LoginPage.LoginPageState.SignUpSucceeded | frontend/src/pages/Login.jsx:219-232 | back to sign-in with the trimmed username filled in, the sign-up form blank, and a success message |
| LoginPage.LoginPageState.SubmitRecovery | frontend/src/pages/Login.jsx:240-259 | no request iff the form has errors; otherwise the recovery request |
| LoginPage.LoginPageState.RecoverySucceeded | frontend/src/pages/Login.jsx:263-274 | back to sign-in with the username and new password filled in, the recovery form blank, and a success message |
| LoginPage.LoginPageState.RequestFailed | frontend/src/pages/Login.jsx:182-183 | the error message is shown and nothing else changes |
| LoginPage.RecoveredSignInIsValid | frontend/src/pages/Login.jsx:263-274 | the sign-in form filled after a valid recovery passes sign-in validation |

## Left out

- Process and network plumbing of the runner is not part of this model. That covers spawning the backend and frontend, the Node version and dependency checks, shutdown and signal handling, and the socket probe, which is the oracle `canListen` for ports 0..65535 (for any other port the model aborts the search, as `listen` throws).
- `portFromFrontendUrl` (scripts/run-dev.js:61-73) is left out, because it rests on `new URL` parsing of host and port, which this model does not have.
- Reading `backend/.env` from disk is left out: ParseEnvFile receives the text.
- `localStorage.removeItem` in `handleLogout` (frontend/src/App.jsx:191) sits outside any `try`, so a storage that throws would abort the handler. The model takes removal to succeed; only the `setItem` of the persistence effect may fail (the `writeFails` parameter).
- `fetch`, `Promise.all`, the 10-second polling of the events list, toasts, navigation and `window.location` are I/O. The handlers' effects are modelled as the request they would send.
- The refresh after a request, which replaces the app's list with the API's events, is left out. `fetchEventsFromApi`'s choice of `payload.data` is left out with it.
- Dates are left out, because they are clock- and locale-dependent: `toDateString`, the `Date` fallback of `toTimeString` (a parameter), `Date.now()` ids (a parameter) and the upcoming and today reminders.
- `Number(...)` on a string is an oracle. Infinities and `-0` are not distinguished from finite numbers. `JSON.stringify` turning `NaN` into `null` is not modelled.
- A stored JSON value that is an object or array is taken to give `NaN` for the id.
- Non-integer route ids and non-string stored names are not modelled. `parseInt` of the user id is a parameter.
- The backend's database drivers, `backend/config/db.js`, `backend/init-db.js`, Navbar, Modal, styling and `getCategoryColor` are not part of this model.
- Only the effects of the SQL statements on the tables are modelled: there is no SQL text execution, and the row order of a GET is not modelled. A store failure on the events GET route is not modelled.
- The attendee list is a set, so duplicate rows and row order are lost.
- `backend/routes/users.js` imports `../pool`, which is not part of this model.
- Store failures on the users routes are not modelled. Those routes await the store without a `try`/`catch` (backend/routes/users.js:29-47, 61-65), so a rejected call leaves the request unanswered. The model has no such path.
- UserRoutes.SignupOutcome returns the new user with its hash. `include: {password: false}` is Prisma behaviour, and this model does not interpret it.
- UserRoutes.SchemaIssues takes the issue list to be `validation.error.errors`. It models only the order of the three rules and not zod's message texts beyond the password rule's.
- EventsApi.FailureMessage models only string and string-list fields. Other JSON values of `error` or `message` are not represented.
- BackendCompatibility.DetectBackendStatus treats a JSON body that fails to parse as a thrown request. A non-JSON body is a string payload.
- EditEvent.ValidateForm holds every field as a string. A missing field, which `?.` treats as blank, is not represented.
- The field edit handlers (`handleChange`, `setField`), which also clear a field's error, are not modelled.
- The `loading` flags are not modelled.
- The demo-provisioning summary text (frontend/src/pages/Login.jsx:322-358) is not modelled. Only the payloads and the per-account classification are.
- Lengths are counted in characters, not UTF-16 code units. `toLowerCase` is modelled on ASCII letters only.
