# TaskManager core, modelled in Dafny

TaskManager is a to-do application. An Express/MongoDB backend stores users and their tasks. A React client keeps a cached list of the signed-in user's tasks and edits them through a dialog. This project models the core of both sides:

- **Task schema** (`TaskModel`). The stored task record has `_id`, `title`, an optional `description`, `isCompleted` (default false), an optional `deadline` and `owner`. The module also has the partial documents given to `create` and to `$set`, and how the schema turns one into a record.
- **Task handlers** (`TaskControllers`). The class `TaskStore` holds the task collection as a map from identifier to record. Its methods are list, create, update and delete. Every lookup is scoped to the requesting owner. `mongoose.Types.ObjectId.isValid` is a function-valued constant with no interpretation.
- **User handlers** (`UserControllers`). The class `UserStore` holds the user collection and a counter of issued token pairs. Its methods are token generation, register, login, logout, refresh-token rotation and password change. Signing, verification, hashing and password comparison form the `Crypto` record of functions. A method receives them and does not interpret them.
- **Client task cache** (`TaskContext`). The class `TaskProvider` holds the `tasks` list. `fetchTasks`, `addTask`, `updateTask`, `deleteTask` and `toggleComplete` replace this list only after the server has answered. Each operation takes the server's answer as a parameter: an optional response, where None means the request failed, or for `deleteTask`, which reads no response data, a flag saying whether the request succeeded.
- **Task dialog** (`TaskDialog`). `DialogState` holds the form's three fields and the effect that fills them when the dialog opens. `HandleSubmit` is the trimmed-title guard: it picks `updateTask` or `addTask`, or refuses the submit.
- **Shared pieces.** `Api` holds Option, Result, the error values and JavaScript truthiness. `Text` holds ECMAScript `String.prototype.trim` and `split(sep)[0]`.

The backend calls the completion flag `isCompleted` and the owner `owner`. The client reads `completed` and `user` from responses. Each side is modelled with its own names, and the two are not reconciled. As a result, a cached task built from a backend record has `completed` false and `userId` absent. The client calls a toggle route that the backend does not define, so only the client side of toggling is modelled.

Error values carry the status codes and messages the handlers throw. Some failures are not `ApiError`s but exceptions of another kind: a refresh token that does not verify, and a password change for a user that no longer exists. These are modelled as `Uncaught(name)`, because the status they end up with is decided by error middleware that is not part of this model.

## Model

| member | source | states |
|---|---|---|
| Api.OrUndefined | frontend/src/contexts/TaskContext.tsx:64 | the `or undefined` fallback: absent exactly when the string is empty, otherwise the string itself |
| Api.OrEmpty | frontend/src/contexts/TaskContext.tsx:38-39 | the `or ''` fallback: the value when present (`''` stays `''`), and `''` when absent |
| Text.TrimStart | backend/src/controllers/task.controllers.js:39 | the result is a suffix of the input; everything removed is whitespace; the result does not start with whitespace |
| Text.TrimEnd | backend/src/controllers/task.controllers.js:39 | the result is a prefix of the input; everything removed is whitespace; the result does not end with whitespace |
| Text.TrimShape | backend/src/controllers/task.controllers.js:39 | `trim()` returns a contiguous slice of its input that neither starts nor ends with whitespace, and everything outside that slice is whitespace |
| Text.Trim | backend/src/controllers/task.controllers.js:39 | `trim()` is no longer than its input and its result neither starts nor ends with whitespace |
| Text.BlankIffAllWhitespace | backend/src/controllers/user.controllers.js:38 | the blank-field check (falsy, or empty after `trim()`) holds exactly when the field is absent or holds only whitespace (the empty string included) |
| Text.TrimEmptyIffAllWhitespace | backend/src/controllers/task.controllers.js:39 | `s.trim() == ""` holds exactly when every character of `s` is whitespace |
| Text.TrimIdempotent | frontend/src/components/TaskDialog.tsx:58 | trimming an already trimmed string changes nothing |
| Text.BeforeFirst | frontend/src/components/TaskDialog.tsx:37 | `split(sep)[0]` is the longest prefix that does not contain `sep`; when it is shorter than the input, `sep` follows it |
| Text.BeforeFirstWhole | frontend/src/components/TaskDialog.tsx:37 | `split(sep)[0]` returns the whole string exactly when `sep` does not occur in it |
| TaskModel.Construct | backend/src/models/task.models.js:3-30 | a document yields a record exactly when both required paths, `title` and `owner`, are present, and the record has the identifier it is stored under |
| TaskModel.CompletedDefaultsToFalse | backend/src/models/task.models.js:11-14 | a document without `isCompleted` yields a record that is not completed and otherwise has the document's values |
| TaskModel.OptionalPathsStayAbsent | backend/src/models/task.models.js:8-17 | `description` and `deadline` left out of a document are absent from the record |
| TaskModel.FieldsRoundTrip | backend/src/models/task.models.js:3-30 | rebuilding a record from its own schema paths gives the record back |
| TaskModel.SetFields | backend/src/controllers/task.controllers.js:104-108 | `$set` never changes the identifier |
| TaskModel.SetFieldsLaws | backend/src/controllers/task.controllers.js:104-108 | an empty `$set` is the identity, and applying the same `$set` twice is applying it once |
| TaskControllers.NoFieldSupplied | backend/src/controllers/task.controllers.js:89-94 | the no-field check holds exactly when title, description, deadline and isCompleted are all undefined |
| TaskControllers.OwnedRowIsFilterMatch | backend/src/controllers/task.controllers.js:104-105 | the owner-scoped lookup finds a row exactly when some stored task has both the requested `_id` and the caller as `owner` |
| TaskControllers.UpdateFieldsOf | backend/src/controllers/task.controllers.js:98-102 | the `$set` object never touches `owner`, and it is empty exactly when the body supplies none of the four fields |
| TaskControllers.UpdateSetsOnlySupplied | backend/src/controllers/task.controllers.js:98-108 | an update replaces exactly the supplied fields; identifier, owner and omitted fields keep their values |
| TaskControllers.TaskStore.GetAllTaskByParticularUser | backend/src/controllers/task.controllers.js:8-22 | the listing holds exactly the stored tasks whose owner is the caller, each once |
| TaskControllers.TaskStore.CreateTask | backend/src/controllers/task.controllers.js:24-69 | an absent, empty or whitespace-only title is a 400 and stores nothing; otherwise exactly one new record is stored, owned by the caller, not completed, with body title, description and deadline |
| TaskControllers.TaskStore.UpdateTask | backend/src/controllers/task.controllers.js:71-117 | in order: an invalid id is a 400, a body with no field is a 400, a row not owned by the caller is a 404; the success path sets the supplied fields on that one row; every error leaves the collection unchanged |
| TaskControllers.TaskStore.DeleteTask | backend/src/controllers/task.controllers.js:119-145 | an invalid id is a 400; a row that is missing or owned by someone else is a 404 and nothing changes; otherwise exactly that row is removed and returned |
| TaskControllers.CreateListDeleteScenario | backend/src/controllers/task.controllers.js:8-145 | on an empty collection: create, then list shows exactly the created task, delete returns it, and a second list is empty |
| UserControllers.RegistrationError | backend/src/controllers/user.controllers.js:38-49 | registration passes its field checks exactly when username and email are non-blank and a password of at least 6 characters is present; otherwise the first failing check, in source order, decides the 400 message |
| UserControllers.ProfileHidesSecrets | backend/src/controllers/user.controllers.js:65-67 | the answer built with `-password -refreshToken` is the same whatever the stored password hash and refresh token are |
| UserControllers.TakenByStoredUser | backend/src/controllers/user.controllers.js:51-57 | the duplicate check holds exactly when some stored user has the requested username or the requested email |
| UserControllers.LoginMatches | backend/src/controllers/user.controllers.js:96-98 | a user matches the login filter exactly when the body's username is theirs or the body's email is theirs |
| UserControllers.AnyLoginMatchByStoredUser | backend/src/controllers/user.controllers.js:96-103 | login finds a user exactly when some stored user matches the filter, and a body with neither field finds no one |
| UserControllers.RefreshAcceptedByHolder | backend/src/controllers/user.controllers.js:183-187 | a refresh token is accepted exactly when it verifies to an existing user who holds exactly that token |
| UserControllers.IncomingRefreshToken | backend/src/controllers/user.controllers.js:171-172 | the cookie wins when it is truthy, otherwise the body token; the result is truthy exactly when one of them is |
| UserControllers.ReplaceKeepsValid | backend/src/controllers/user.controllers.js:145-155 | replacing a user's refresh token or password keeps identifiers, usernames and emails unique |
| UserControllers.InsertKeepsValid | backend/src/controllers/user.controllers.js:51-67 | inserting a user whose username and email are both unused keeps usernames and emails unique |
| UserControllers.UserStore.GenerateAccessAndRefreshTokens | backend/src/controllers/user.controllers.js:8-22 | a missing user is the generic 500 and nothing changes; otherwise a fresh pair is signed and its refresh token replaces the stored one of that user only |
| UserControllers.UserStore.RegisterUser | backend/src/controllers/user.controllers.js:25-77 | the field checks come first, then a username or email already in use gives a 409; otherwise exactly one user is added with the hashed password and no refresh token, and the answer has neither |
| UserControllers.UserStore.LoginUser | backend/src/controllers/user.controllers.js:79-139 | neither identifier is a 400; no user matching either is a 404; a missing password is a 400; a wrong one is a 401; on success, the matched user gets a fresh refresh token and nothing else changes; errors change nothing |
| UserControllers.UserStore.LogoutUser | backend/src/controllers/user.controllers.js:141-168 | the caller's stored refresh token is cleared and nothing else changes |
| UserControllers.UserStore.RefreshAccessToken | backend/src/controllers/user.controllers.js:170-209 | no token is a 401; a token that fails verification throws; a token that is not the one stored on its user is a 401; otherwise the pair is rotated for that user only |
| UserControllers.UserStore.ChangeCurrentPassword | backend/src/controllers/user.controllers.js:211-232 | a wrong old password is a 400 and nothing changes; otherwise only that user's stored password changes, to the hash of the new one |
| UserControllers.SecondLoginRevokesFirst | backend/src/controllers/user.controllers.js:185-186 | after two successful logins of the same user, the first login's refresh token is refused |
| UserControllers.RegisterFirst | backend/src/controllers/user.controllers.js:25-77 | on an empty collection, any non-blank username and email with a password of at least 6 characters register, and the collection then holds exactly that user, hashed and without a refresh token |
| UserControllers.RegisterThenLogIn | backend/src/controllers/user.controllers.js:25-139 | on an empty collection, any user with a non-blank username and email and a password of at least 6 characters registers, then logs in by username, and holds the first issued refresh token |
| UserControllers.SessionScenario | backend/src/controllers/user.controllers.js:25-209 | for any such user: register then log in succeed with the registered profile; refreshing once succeeds; reusing the replaced token, or refreshing after logout, is refused |
| TaskContext.FromRaw | frontend/src/contexts/TaskContext.tsx:34-42 | identifier, owner key, title and creation time are copied; a present description or deadline is copied and a missing one becomes `''`; `completed` is true only when the response says true, and false otherwise |
| TaskContext.FromRawAll | frontend/src/contexts/TaskContext.tsx:34-42 | one cached task per response task, in the same order |
| TaskContext.MapWhere | frontend/src/contexts/TaskContext.tsx:99-110 | same length; elements with the id are transformed and every other element is kept |
| TaskContext.Edited | frontend/src/contexts/TaskContext.tsx:101-107 | the edited task takes title, description and deadline from the response (a missing description or deadline as `''`) and keeps every other field |
| TaskContext.Toggled | frontend/src/contexts/TaskContext.tsx:152 | the toggled task takes `completed` from the response, undefined included, and keeps every other field |
| TaskContext.CreateBodyOf | frontend/src/contexts/TaskContext.tsx:64 | the create body carries the title; an empty description or deadline is left out, so neither is ever sent as `''`, and a non-empty one is sent as typed |
| TaskContext.UpdateBodyOf | frontend/src/contexts/TaskContext.tsx:96 | the update body carries the title and never `isCompleted`; an empty description or deadline is left out, and a non-empty one is sent as typed |
| TaskContext.Without | frontend/src/contexts/TaskContext.tsx:129 | a task remains exactly when it was there and has another id |
| TaskContext.UpdateChangesOnlyEditedFields | frontend/src/contexts/TaskContext.tsx:99-110 | an update changes only title, description and deadline, and only of the tasks with that id |
| TaskContext.ToggleChangesOnlyCompletion | frontend/src/contexts/TaskContext.tsx:150-154 | a toggle changes only `completed`, and only of the tasks with that id |
| TaskContext.WithoutConcat | frontend/src/contexts/TaskContext.tsx:129 | deleting keeps the order of what remains |
| TaskContext.WithoutAbsent | frontend/src/contexts/TaskContext.tsx:129 | deleting an id that no task has leaves the list unchanged |
| TaskContext.AddThenDeleteRestores | frontend/src/contexts/TaskContext.tsx:60-143 | adding a task with a new id and then deleting that id gives the old list back |
| TaskContext.DeleteAfterUpdate | frontend/src/contexts/TaskContext.tsx:94-143 | updating then deleting an id is the same as only deleting it |
| TaskContext.ClearedDescriptionIsKept | frontend/src/contexts/TaskContext.tsx:96 | an edit that clears the description sends no description, so the server keeps the stored one |
| TaskContext.TaskProvider.FetchTasks | frontend/src/contexts/TaskContext.tsx:25-54 | with no user the list is emptied; a successful response replaces the list with the mapped tasks; a failed one leaves it |
| TaskContext.TaskProvider.AddTask | frontend/src/contexts/TaskContext.tsx:60-92 | with no user nothing is sent and nothing changes; otherwise the body omits an empty description or deadline, and the created task goes first once the server answers |
| TaskContext.TaskProvider.UpdateTask | frontend/src/contexts/TaskContext.tsx:94-124 | the body omits an empty description or deadline; on an answer, the tasks with that id take title, description and deadline from it; on failure nothing changes |
| TaskContext.TaskProvider.DeleteTask | frontend/src/contexts/TaskContext.tsx:126-143 | once confirmed, every task with the id is removed; on failure nothing changes |
| TaskContext.TaskProvider.ToggleComplete | frontend/src/contexts/TaskContext.tsx:145-163 | on an answer, the tasks with that id take `completed` from it; on failure nothing changes |
| TaskDialog.DateInputValue | frontend/src/components/TaskDialog.tsx:37 | the shown deadline is the prefix of the stored one before the first `T`, or all of it when it has none |
| TaskDialog.DateOfTimestamp | frontend/src/components/TaskDialog.tsx:37 | an ISO timestamp `date + "T" + time` shows as `date` |
| TaskDialog.InitialForm | frontend/src/components/TaskDialog.tsx:33-43 | an edited task fills title, description and the date part of the deadline; a new task starts empty |
| TaskDialog.DialogState.InitialiseFrom | frontend/src/components/TaskDialog.tsx:33-43 | after the effect the form holds exactly the initial form for the task |
| TaskDialog.HandleSubmit | frontend/src/components/TaskDialog.tsx:45-72 | a title that trims to nothing is refused and the dialog stays open; otherwise it updates the edited task or adds a new one, with trimmed title and description and the deadline as typed, and closes |
| TaskDialog.SubmittedTitlePassesCreateCheck | frontend/src/components/TaskDialog.tsx:48-64 | a new task the dialog lets through is never refused by the server's title check |

## Left out

- Token signing and verification (JWT), password hashing and comparison (bcrypt), and the user model's hooks and methods are not part of this model. They appear only as the `Crypto` functions. Token expiry is not modelled, so the scenarios assume that tokens never expire.
- UserControllers.SecondLoginRevokesFirst and UserControllers.SessionScenario assume that every newly issued refresh token differs from the earlier ones of the same user. Real signed tokens carry their issue time to the second, so two tokens signed for the same user within one second can be equal; that case is not modelled.
- The database assigns new identifiers. Here they are parameters that must not already be in use.
- Database failures are not modelled. Neither are the 500 branches that follow a successful create or find, `if(!task)` in create and `if(!createdUser)` in register, which cannot be reached once the store is modelled.
- Mongoose's own validation is not modelled: the `required` check refusing an empty string, `runValidators` on update, and casting a deadline to a Date. `timestamps` (`createdAt`, `updatedAt`) are not modelled either. Values are stored as the handlers pass them.
- The request id is compared with stored identifiers as a string. Mongoose first casts it to an ObjectId, so a 12-character string or an upper-case hex id that passes `isValid` can match a stored row where the model answers 404. That casting is not modelled.
- The order of `Task.find` results is not modelled. The listing has no particular order.
- The filter `$or: [{username}, {email}]` with an undefined field is taken to match nothing. When the username names one user and the email another, login answers with either of them. Which one MongoDB returns is not modelled.
- Cookies, the cookie options, HTTP status handling, the `ApiResponse` wrapper and the error middleware are not part of this model.
- `getCurrentUser` only echoes the authenticated user and is not modelled. The authentication middleware that sets `req.user` is not part of this model. The caller's identifier is a parameter.
- Request bodies are taken to hold strings where the handlers expect strings. Non-string JSON values and `null` are not modelled.
- UserControllers.UserStore.ChangeCurrentPassword: absent old or new passwords are not modelled. Both are strings here.
- UserControllers.RegistrationError: the password length is the length of the Dafny string, not the number of UTF-16 code units.
- The client's network calls (`api.ts`), `AuthContext`, the `isLoading` flag, toasts and console logging are not part of this model. Each server answer is a parameter of the operation that awaits it.
- The backend has no toggle route. `toggleComplete` is modelled on the client side only.
- The backend's `isCompleted`/`owner` and the client's `completed`/`user` are kept apart, as the code has them.
- Concurrency between overlapping client requests is not modelled. Each provider operation applies its update to the list as it is when the answer arrives.
