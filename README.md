# Cafeteria UI: catalog types, login, signup and route guards

This project models the client-side logic of the cafeteria administration UI
in Dafny.

- **Catalog-type form.** The modal form creates or edits a catalog type. Its
  submit runs four checks in order:
  - the in-flight guard;
  - the session-token gate;
  - the blank check on the trimmed description;
  - the character-class check on the untrimmed description.

  It then makes exactly one service call, `create` or `update`. When the
  service returns no payload, the form reports a provisional entity.
- **Catalog-type list screen.** It holds the cached list, the `loading` flag,
  the error and success banners, the "recently updated" highlight and the
  form's visibility. It loads, removes (deactivates), and reconciles after a
  save. Its two timeouts clear the highlight and the success message.
- **Login and signup forms.** Each runs an ordered chain of checks in which the
  first failure wins. Both guard against a second submit while one is in
  flight. The signup screen also classifies an error as a "conflict" with an
  existing account.
- **Route guards.** `ProtectedRoute` and `PublicRoute` each decide between
  waiting, redirecting and rendering their children.

Stateful components are Dafny classes whose fields are the component's state
variables. The submit handlers of the form, login and signup screens are split
at their `await` into two methods:

- the first runs the guards and returns the service call it issues, as a
  value;
- the second receives that call's outcome as a parameter.

Input changes and key presses may be called between the two halves. The form's
`pending` field keeps the data the call was issued with, as the handler's
closure does. The list screen's handlers (`loadCatalogTypes`, `handleDelete`,
`handleFormSuccess`) are modelled as one atomic step each: they return the
calls they make and take every outcome up front as parameters.

Other things outside the components also become parameters:

- `validateToken()` becomes a boolean;
- `window.confirm` becomes a boolean;
- `Date.now()` becomes an integer;
- the validators `isValidEmail` and `validatePassword` become function-typed
  parameters.

Each `setTimeout` is a numbered timer handle. Its expiry is an explicit method
call that changes something only if the handle is still the pending one. Every
method of the list screen keeps handles fresh: a handle it arms was never
handed out before, so a cancelled or fired timeout can never clear a later
value.

Modules:

| file | module |
|---|---|
| `wrappers.dfy` | `Wrappers`: `Option` |
| `text.dfy` | `Text`: `trim` and the blank test, `includes`, the message-or-fallback idiom, rendering a count in decimal |
| `catalog_type_service.dfy` | `CatalogTypeService`: the entity, the form data, the service calls and their outcomes |
| `catalog_type_form.dfy` | `CatalogTypeForm` |
| `catalog_types_list.dfy` | `CatalogTypesList` |
| `routing.dfy` | `Routing`: navigation values and both guards |
| `login_screen.dfy` | `LoginScreen` |
| `signup_screen.dfy` | `SignupScreen` |

## Model

| member | source | states |
|---|---|---|
| Text.TrimStartSpec | src/components/CatalogTypeForm.jsx:30 | Trimming the start keeps a suffix of the text. Everything dropped is whitespace, and the rest does not start with whitespace. |
| Text.TrimEndSpec | src/components/CatalogTypeForm.jsx:30 | Trimming the end keeps a prefix. Everything dropped is whitespace, and the rest does not end with whitespace. |
| Text.BlankIffAllWhitespace | src/components/CatalogTypeForm.jsx:30 | `!s.trim()` holds exactly when every character of `s` is whitespace (the empty string included). |
| Text.NotBlankWitness | src/components/LoginScreen.jsx:37 | One character that is not whitespace makes a text non-blank. |
| Text.ContainsMiddle | src/components/SignupScreen.jsx:124 | `includes` finds a piece whatever text surrounds it. |
| Text.MessageOr | src/components/CatalogTypeForm.jsx:64 | The message-or-fallback idiom: a non-empty message is kept; an empty (falsy) one gives the fallback. |
| Text.NatToString | src/components/CatalogTypesList.jsx:75 | A count, rendered as a template literal renders a safe integer, is a non-empty string of decimal digits with no leading zero, unless it is the single digit `0`. |
| Text.NatToStringRoundTrip | src/components/CatalogTypesList.jsx:75 | Reading the rendered digits back gives the count. |
| CatalogTypeForm.DescriptionError | src/components/CatalogTypeForm.jsx:30-39 | A description passes exactly when every character is in the class and one is not a space. It is "requerida" exactly when it is all whitespace. It gets the character-class message exactly when it is not blank and holds a character outside the class. |
| CatalogTypeForm.CharsetCheckSeesUntrimmedText | src/components/CatalogTypeForm.jsx:35-37 | `"Combo\t"` trims to `"Combo"`, yet is rejected by the character test, which reads the untrimmed text. |
| CatalogTypeForm.AcceptedAtAnyLength | src/components/CatalogTypeForm.jsx:119 | The submit accepts a description of letters of any length; 100 is only the input's `maxLength`. |
| CatalogTypeForm.OtherAccentedLettersRejected | src/components/CatalogTypeForm.jsx:35 | Accented letters that are not listed (`ç`, `à`) are rejected. |
| CatalogTypeForm.InitialFormData | src/components/CatalogTypeForm.jsx:6-9 | A new form starts empty and active. An edit starts from the item's description and its `active` flag, keeping an explicit `false`; an item without the flag starts active. |
| CatalogTypeForm.RequestFor | src/components/CatalogTypeForm.jsx:46-53 | The one call is `update(item.id, formData)` exactly when editing, otherwise `create(formData)`. |
| CatalogTypeForm.ResultOf | src/components/CatalogTypeForm.jsx:45-64 | `onSuccess` runs exactly when the call resolved, with `isEdit` set for an edit. A returned payload is reported as is. With no payload, an edit reports the item with the form's fields (same id and count), and a create reports the form's fields under the timestamp id. A throw shows its message or the default. |
| CatalogTypeForm.CatalogTypeForm.constructor | src/components/CatalogTypeForm.jsx:5-11 | Starts from the initial form data, with no error and not submitting. |
| CatalogTypeForm.CatalogTypeForm.HandleChange | src/components/CatalogTypeForm.jsx:14-21 | Overwrites the edited field, clears the error, and leaves submission alone. |
| CatalogTypeForm.CatalogTypeForm.HandleSubmit | src/components/CatalogTypeForm.jsx:23-53 | In flight: no token check, no call, no change. Invalid token: no call, error and flag unchanged. Bad description: its message, no call, not submitting. Otherwise: error cleared, submitting, and exactly the `RequestFor` call. |
| CatalogTypeForm.CatalogTypeForm.CompleteSubmit | src/components/CatalogTypeForm.jsx:43-67 | Reports `ResultOf` on the form data the call was issued with. Shows the error only on failure. Submitting ends. |
| CatalogTypeForm.CatalogTypeForm.HandleKeyPress | src/components/CatalogTypeForm.jsx:70-77 | Enter submits unless in flight, with the submit's three outcomes: an invalid token changes nothing, a bad description shows its message, and an accepted one clears the error and issues exactly the `RequestFor` call on the current data. Any other key, or Enter in flight, changes nothing. Escape, and only Escape, cancels. |
| CatalogTypesList.ProductCount | src/components/CatalogTypesList.jsx:205-209 | The shown count is positive exactly when the item is in use. A missing count shows 0. |
| CatalogTypesList.RemovalDecision | src/components/CatalogTypesList.jsx:72-81 | Removal is refused exactly for an item in use, with a message naming its description and its count. Any other item is confirmed with a question naming its description. |
| CatalogTypesList.RowActionFor | src/components/CatalogTypesList.jsx:228-237 | Only types whose `active` flag is present and true have an action. It reads "Desactivar" exactly when removal would be refused, and "Eliminar" exactly when it would ask. |
| CatalogTypesList.BodyOf | src/components/CatalogTypesList.jsx:181-188 | The loading view shows exactly while loading. The empty-state row shows exactly for an empty loaded list. Otherwise there is one row per type. |
| CatalogTypesList.AfterLoad | src/components/CatalogTypesList.jsx:39-55 | An invalid token changes nothing. A fetch replaces the whole list and clears the error. A failure keeps the list and shows its message or the default. Loading ends either way. The form, highlight and success message are untouched. |
| CatalogTypesList.DeleteOutcome | src/components/CatalogTypesList.jsx:67-94 | The confirmation is asked exactly for a type not in use. A call is made exactly after confirmation, and it is `deactivate(item.id)`, never a hard delete. A refusal shows the blocked message. A failure shows its message. Only a removal reloads and announces. The form and highlight are never touched. |
| CatalogTypesList.CatalogTypesList.constructor | src/components/CatalogTypesList.jsx:8-14 | Empty list, loading, no error, form closed, nothing highlighted, no message. |
| CatalogTypesList.CatalogTypesList.SetRecentlyUpdated | src/components/CatalogTypesList.jsx:21-28 | Sets the highlight. A new value cancels the pending timeout, and a truthy one arms a fresh handle, never one handed out before. |
| CatalogTypesList.CatalogTypesList.SetSuccessMessage | src/components/CatalogTypesList.jsx:30-37 | Sets the message. A new value cancels the pending timeout, and a non-empty one arms a fresh handle, never one handed out before. |
| CatalogTypesList.CatalogTypesList.ExpireHighlight | src/components/CatalogTypesList.jsx:23-26 | The pending 2000 ms timeout clears the highlight. A cancelled handle changes nothing. |
| CatalogTypesList.CatalogTypesList.ExpireSuccessMessage | src/components/CatalogTypesList.jsx:32-35 | The pending 3000 ms timeout clears the message. A cancelled handle changes nothing. |
| CatalogTypesList.CatalogTypesList.LoadCatalogTypes | src/components/CatalogTypesList.jsx:39-55 | The new state is `AfterLoad` of the old one. One `getAll` call is made, and only with a valid token. |
| CatalogTypesList.CatalogTypesList.HandleCreate | src/components/CatalogTypesList.jsx:57-60 | Opens the form with no item; nothing else changes. |
| CatalogTypesList.CatalogTypesList.HandleEdit | src/components/CatalogTypesList.jsx:62-65 | Opens the form on the item; nothing else changes. |
| CatalogTypesList.CatalogTypesList.HandleFormCancel | src/components/CatalogTypesList.jsx:107-110 | Closes the form and forgets the item; nothing else changes. |
| CatalogTypesList.CatalogTypesList.RemoveConfirmed | src/components/CatalogTypesList.jsx:83-93 | After confirmation: clears the error, calls `deactivate`, then reloads and announces, or shows the failure, as `DeleteOutcome` says. A failure keeps the pending message timeout; a removal replaces it exactly when the message changes. |
| CatalogTypesList.CatalogTypesList.HandleDelete | src/components/CatalogTypesList.jsx:67-94 | Status, question, calls and new state are exactly `DeleteOutcome` of the old state. The highlight timeout is kept. Every outcome but a removal keeps the pending message timeout; a removal replaces it exactly when the message changes. |
| CatalogTypesList.CatalogTypesList.AnnounceSaved | src/components/CatalogTypesList.jsx:98-104 | Highlights the id, shows the message, closes the form, forgets the item and clears the error. No clearing timeout is pending exactly when the id is 0. An unchanged id keeps the pending highlight timeout, and the message timeout is replaced exactly when the message changes. |
| CatalogTypesList.CatalogTypesList.HandleFormSuccess | src/components/CatalogTypesList.jsx:96-105 | Reloads first, then highlights the saved id and shows "actualizado" for an edit or "creado" for a create. Closes the form, forgets the item and clears the error. The saved row is highlighted, and it has no clearing timeout exactly when its id is 0. Saving the same id again keeps the pending highlight timeout; a new id cancels it. The message timeout is replaced exactly when the message changes. |
| Routing.ProtectedRoute | src/components/ProtectedRoute.jsx:4-26 | Waits exactly while loading. Redirects to /login (replace) exactly when settled and unauthenticated. Renders children exactly when settled and authenticated. |
| Routing.PublicRoute | src/components/PublicRoute.jsx:4-26 | Waits exactly while loading. Redirects to /dashboard (replace) exactly when settled and authenticated. Renders children exactly when settled and unauthenticated. |
| Routing.GuardsAreComplementary | src/components/PublicRoute.jsx:20-25 | Both guards wait while loading. Once settled, exactly one renders its children and exactly one redirects. |
| LoginScreen.LoginValidation | src/components/LoginScreen.jsx:24-41 | The checks pass exactly when the email has `@` and `.` and the password is not blank. Otherwise the first failure's message wins: blank email, then format, then blank password. |
| LoginScreen.AnyNonBlankPasswordPasses | src/components/LoginScreen.jsx:37-44 | No complexity rule: any non-blank password passes with a well-formed email. |
| LoginScreen.LoginScreen.constructor | src/components/LoginScreen.jsx:7-10 | Empty fields, no error, not submitting. |
| LoginScreen.LoginScreen.SetEmail | src/components/LoginScreen.jsx:107-110 | Overwrites the email and clears the error. |
| LoginScreen.LoginScreen.SetPassword | src/components/LoginScreen.jsx:125-128 | Overwrites the password and clears the error. |
| LoginScreen.LoginScreen.HandleLogin | src/components/LoginScreen.jsx:14-48 | In flight: a no-op. Otherwise the first failure is shown, with no call and submitting reset, or `login` is called once with the fields as typed. |
| LoginScreen.LoginScreen.CompleteLogin | src/components/LoginScreen.jsx:46-58 | Navigates to /dashboard (replace) only on a truthy result. A throw shows its message or the default. Submitting ends. |
| SignupScreen.SignupValidation | src/components/SignupScreen.jsx:43-78 | Passing means the email is valid, the password is valid and the two passwords are equal. A failure shows one of the five local messages or the password validator's own message. |
| SignupScreen.SignupChecksInOrder | src/components/SignupScreen.jsx:43-78 | The checks pass exactly when all six do. Each failure decides only after every earlier check passed. The validator's message is shown unchanged. The passwords must be equal as typed. |
| SignupScreen.ErrorBannerFor | src/components/SignupScreen.jsx:122-145 | No banner for no error. The warning with the /login link is shown exactly for a conflict. Any other error is shown plainly. |
| SignupScreen.IsConflict | src/components/SignupScreen.jsx:124 | A conflict contains one of the two phrases, so it contains a `y`: a text without one is never a conflict. |
| SignupScreen.RequiredMessagesAreNotConflicts | src/components/SignupScreen.jsx:43-57 | The three "requerido" messages are not conflicts. |
| SignupScreen.CheckMessagesAreNotConflicts | src/components/SignupScreen.jsx:59-78 | The invalid-email and mismatch messages are not conflicts. |
| SignupScreen.SignupFailedIsNotConflict | src/components/SignupScreen.jsx:99 | The default failure message is not a conflict. |
| SignupScreen.LocalMessagesAreNotConflicts | src/components/SignupScreen.jsx:42-78 | When the password validator's message is not a conflict, no failed check shows the login link. |
| SignupScreen.RegisteredEmailIsConflict | src/components/SignupScreen.jsx:124 | Any error containing "email ya está registrado" is a conflict. |
| SignupScreen.SignupScreen.constructor | src/components/SignupScreen.jsx:7-17 | Empty form, no messages, no modal, not submitting. |
| SignupScreen.SignupScreen.HandleChange | src/components/SignupScreen.jsx:22-30 | Overwrites one field and clears the error. |
| SignupScreen.SignupScreen.HandleSignup | src/components/SignupScreen.jsx:32-81 | In flight: a no-op. Otherwise both messages are cleared. Then the first failed check's message is shown with submitting reset and no call, or `register` is called with the fields as typed. |
| SignupScreen.SignupScreen.CompleteSignup | src/components/SignupScreen.jsx:80-102 | A truthy result shows the success text and the modal, empties all five fields, and does not navigate. A throw shows its message or the default. Submitting ends. |
| SignupScreen.SignupScreen.AcceptModal | src/components/SignupScreen.jsx:307 | The modal's button navigates to /login, replacing the history entry. |

## Left out

- src/components/Layout.jsx is not part of this model. It holds the 60-second token re-check interval, logout and the header navigation.
- src/components/Dashboard.jsx is not part of this model; it is static markup.
- JSX markup, CSS classes, images, and the `console.log`/`console.error` calls are not modelled.
- The catalog-type service, the session context and the validators are outside the model. Their calls are values and their answers are parameters. This covers `getAll`, `create`, `update`, `deactivate`, `validateToken`, `login`, `register`, `isAuthenticated`, `loading`, `isValidEmail`, `validatePassword` and `getPasswordStrength`. `window.confirm` and `Date.now()` are parameters too.
- Real asynchrony and React's batching are not modelled. Each `await` is a step between two method calls, and the states React renders in between are not modelled. That includes the `loading = true` frame during a reload and the `isSubmitting = true` frame of a failed login or signup check.
- CatalogTypesList.CatalogTypesList.HandleDelete: it is one atomic step, so a second `handleDelete` (or any other handler) running while `deactivate` or the reload is in flight is not modelled. The source has no guard against it. The same holds for `LoadCatalogTypes` and `HandleFormSuccess`.
- Timer durations are not modelled: the 2000 ms and 3000 ms delays are only the order of explicit expiry events.
- Text.Trim: `trim` strips a fixed set of whitespace characters: tab, line feed, vertical tab, form feed, carriage return, space, no-break space, the line and paragraph separators, and the byte-order mark. JavaScript strips every Unicode space separator.
- CatalogTypeForm.DescriptionError: the regular expression is modelled only as membership in its explicit character class. No other regular-expression semantics are modelled.
- CatalogTypesList.RemovalDecision: the count is rendered as a natural number. A fractional count, which JavaScript would print with a decimal point, is not modelled.
- Text.NatToString: it covers non-negative integers only; only positive counts are ever rendered. Counts are JavaScript numbers: above 2^53 they are not exact, and from 10^21 `${n}` uses exponent notation. The model renders every natural number exactly in decimal.
- Id 0 is falsy, so saving a type with id 0 highlights it without arming a timeout. The highlight then stays until the next change. The model keeps this behaviour: `HandleFormSuccess` ensures the saved row is highlighted and that no clearing timeout is pending exactly when its id is 0.
- The description's character class lists its accented letters one by one, so other Latin-1 letters such as `ç` and `à` are rejected. `handleSubmit` checks no length; 100 is only the input's `maxLength` (src/components/CatalogTypeForm.jsx:119). See `AcceptedAtAnyLength` and `OtherAccentedLettersRejected`.
- CatalogTypeService.CatalogType: a missing `description` is not modelled; the field is always a string. The form would start such an item from `''`, and the list's messages would render it as "undefined". A missing `active` flag and a missing product count are modelled as `None`.
