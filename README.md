# Cafeteria ordering app: client state, form checks and schemas in Dafny

This project models the parts of the Cafeteria ordering application that hold
logic rather than plumbing:

- the three Redux slices of the client: the orders list (`setOrders`,
  `updateOrderStatus`), the meals list (`setMeals`, `updateMealStatus`) and the
  session record (`login`, `logout`). Each is a class whose methods update its
  fields in place. Each method is proved against a function of the old state,
  and the lemmas beside it prove "nothing else changes", idempotence and the
  refusal-reason rules.
- the sign-in / sign-up page (`Home.tsx`):
  - the password-requirement regexes and the e-mail regex. Each regex's
    language is a ghost predicate ("some substring has this shape", which is
    what `RegExp.prototype.test` checks). Each test is a left-to-right scanner,
    proved equal to that predicate.
  - `validateField`, `handleChange` and `handleSubmit`, as methods of a class
    holding the component's state.
- the chef's board (`Chef.tsx`): the guard and request body of
  `handleStatusUpdate`, the state it resets, and `getStatusBgColor`.
- the four Mongoose schemas (`Order`, `Feedback`, `Meal`, `User`). Each is a
  function that validates an input whose fields may be missing and fills in
  the defaults. Its result is either the stored document or the set of paths
  that failed. Each schema has a `Valid` predicate and a lemma that valid
  documents pass unchanged. For `User`, the unique e-mail index is a
  collection-level invariant, and saving preserves it.

Modules, one per source file: `OrderSlice`, `MealSlice`, `AuthSlice`,
`HomePatterns` (the regex tests of `Home.tsx`), `HomeForm` (its state
handlers), `ChefPage`, `OrderSchema`, `FeedbackSchema`, `MealSchema`,
`UserSchema`. Shared helpers:

- `Wrappers`: `Option` and `Result`.
- `JsText`: the ECMAScript white-space set used by `\s` and `trim`, line
  terminators, and string truthiness.
- `ArrayFind`: `Array.prototype.find`.
- `SchemaTypes`: Mongoose's `required`, `enum` and `default`.

Two behaviours of the code that are easy to misread:

- Whenever the new status is `refused`, the reducer `updateOrderStatus`
  overwrites the order's `refusedReason` with the payload's, an absent reason
  included. Any other status keeps the recorded reason.
- `/.{8,}/` is satisfied by any eight consecutive characters that are not line
  terminators, wherever they sit in the password.
  `HomePatterns.MinLengthOnSingleLine` shows that on passwords without line
  terminators this is the same as having at least eight characters.

## Model

| member | source | states |
|---|---|---|
| `JsText.Trim` | client/src/pages/Home.tsx:121 | the trimmed string is the slice of the input with only white space before and after it; it neither starts nor ends with white space, and it is empty exactly when every character is ECMAScript white space or a line terminator |
| `ArrayFind.FirstIndex` | client/src/features/orderSlice.ts:27 | the index `find` stops at is the first one whose element satisfies the predicate; none exists exactly when no element does |
| `ArrayFind.Find` | client/src/features/mealSlice.ts:29 | the linear scan of `find` returns that first index, or nothing |
| `OrderSlice.StatusUpdated` | client/src/features/orderSlice.ts:25-34 | the updated list has the old length and ids; every order other than the first carrying the id is unchanged |
| `OrderSlice.WithNewStatus` | client/src/features/orderSlice.ts:29-33 | the found order takes the new status and keeps its id; its reason becomes the payload's on `refused` and is kept otherwise |
| `OrderSlice.OrderStore.constructor` | client/src/features/orderSlice.ts:14-16 | the slice starts with no orders |
| `OrderSlice.OrderStore.SetOrders` | client/src/features/orderSlice.ts:22-24 | the payload replaces the whole list |
| `OrderSlice.OrderStore.UpdateOrderStatus` | client/src/features/orderSlice.ts:25-34 | the list becomes the old list with only the first order carrying the id edited, and is unchanged when no order carries it |
| `OrderSlice.UnknownIdUnchanged` | client/src/features/orderSlice.ts:27-28 | an id that matches no order leaves the list unchanged |
| `OrderSlice.FirstMatchUpdated` | client/src/features/orderSlice.ts:27-33 | only the first matching order changes: new status; on `refused` the payload reason, even an absent one; otherwise the old reason |
| `OrderSlice.ShapePreserved` | client/src/features/orderSlice.ts:25-34 | the length and every id are kept, and orders with another id are untouched |
| `OrderSlice.ReasonKeptUnlessRefused` | client/src/features/orderSlice.ts:29-33 | a status other than `refused` never clears or changes any recorded reason |
| `OrderSlice.StatusUpdateIdempotent` | client/src/features/orderSlice.ts:25-34 | applying the same update twice gives the same list as applying it once |
| `MealSlice.MealUpdated` | client/src/features/mealSlice.ts:27-35 | the edited list has the old length and ids; every meal other than the first carrying the id is unchanged |
| `MealSlice.Edited` | client/src/features/mealSlice.ts:31-33 | category is overwritten only by a non-empty one, price only by a present non-empty one, availability by any supplied value; id and status are kept |
| `MealSlice.MealStore.constructor` | client/src/features/mealSlice.ts:16-18 | the slice starts with no meals |
| `MealSlice.MealStore.SetMeals` | client/src/features/mealSlice.ts:24-26 | the payload replaces the whole list |
| `MealSlice.MealStore.UpdateMealStatus` | client/src/features/mealSlice.ts:27-35 | the list becomes the old list with only the first meal carrying the id edited |
| `MealSlice.UnknownIdUnchanged` | client/src/features/mealSlice.ts:29-30 | an id that matches no meal leaves the list unchanged |
| `MealSlice.FirstMatchEdited` | client/src/features/mealSlice.ts:29-34 | only the first matching meal changes, field by field as the truthiness and definedness tests decide, `available: false` included |
| `MealSlice.ShapePreserved` | client/src/features/mealSlice.ts:27-35 | the length and every meal's id and status are kept, and meals with another id are untouched |
| `MealSlice.MealUpdateIdempotent` | client/src/features/mealSlice.ts:27-35 | applying the same edit twice gives the same list as applying it once |
| `AuthSlice.AfterLogin` | client/src/features/authSlice.ts:27-32 | after `login` the role, user (the e-mail) and username are the payload's and the session is authenticated |
| `AuthSlice.AfterLogout` | client/src/features/authSlice.ts:33-37 | after `logout` user and username are null and the session is unauthenticated, while the role is kept |
| `AuthSlice.AuthStore.constructor` | client/src/features/authSlice.ts:16-21 | the store starts in the initial state |
| `AuthSlice.AuthStore.Login` | client/src/features/authSlice.ts:27-32 | the store's fields become those of `AfterLogin` |
| `AuthSlice.AuthStore.Logout` | client/src/features/authSlice.ts:33-37 | the store's fields become those of `AfterLogout` |
| `AuthSlice.InitialIsSignedOut` | client/src/features/authSlice.ts:16-21 | role, username and user start null, and the session starts unauthenticated |
| `AuthSlice.LogoutIdempotent` | client/src/features/authSlice.ts:33-37 | logging out twice is logging out once |
| `AuthSlice.LoginThenLogout` | client/src/features/authSlice.ts:27-37 | login then logout leaves an unauthenticated session whatever the prior state, holding only the login's role |
| `HomePatterns.ContainsClass` | client/src/pages/Home.tsx:71-73 | a one-character-class test succeeds exactly when some character of the string is in the class |
| `HomePatterns.MinLengthTest` | client/src/pages/Home.tsx:70 | the `/.{8,}/` test succeeds exactly when some 8 consecutive characters contain no line terminator |
| `HomePatterns.MinLengthOnSingleLine` | client/src/pages/Home.tsx:70 | on a password without line terminators, `minLength` holds exactly when it has at least 8 characters |
| `HomePatterns.CheckPassword` | client/src/pages/Home.tsx:94-99 | the four flags hold exactly when the password has an 8-character run without a line terminator, an `A`-`Z`, a `0`-`9`, and one of the 21 listed special characters |
| `HomePatterns.EmailTest` | client/src/pages/Home.tsx:84 | the e-mail test succeeds exactly when some substring is non-space+ `@` non-space+ `.` non-space+ |
| `HomePatterns.EmailShortestWitness` | client/src/pages/Home.tsx:84 | such a substring exists exactly when its shortest form (one character before `@`, one after `.`) does |
| `HomeForm.EditedErrors` | client/src/pages/Home.tsx:80-128 | e-mail error iff the e-mail test fails; confirm error iff the confirmation differs (when the password is edited, only if a confirmation was typed); name error iff the name is blank, in sign-up mode only; every other key is copied |
| `HomeForm.WithField` | client/src/pages/Home.tsx:133 | only the edited input's value changes |
| `HomeForm.SubmitErrors` | client/src/pages/Home.tsx:141-149 | each required-field error is present exactly when its field is empty; in sign-up mode any unmet requirement replaces the password error |
| `HomeForm.Decide` | client/src/pages/Home.tsx:141-166 | sign-up without a truthy captcha token aborts; otherwise a request is sent iff the fresh error map is empty, to `/login` or `/signup` by mode, with name and confirmation only in sign-up |
| `HomeForm.HomeState.constructor` | client/src/pages/Home.tsx:43-59 | the page starts in login mode with an empty form, no errors, no captcha and no requirement met |
| `HomeForm.HomeState.ToggleMode` | client/src/pages/Home.tsx:320 | the mode flips and nothing else changes |
| `HomeForm.HomeState.HandleCaptchaChange` | client/src/pages/Home.tsx:76-78 | the token is stored and nothing else changes |
| `HomeForm.HomeState.ValidateField` | client/src/pages/Home.tsx:79-129 | the errors become `EditedErrors`, and the requirement flags are recomputed only for a password edit in sign-up mode |
| `HomeForm.HomeState.HandleChange` | client/src/pages/Home.tsx:131-135 | the field is stored and validated against the form as it was before the edit |
| `HomeForm.HomeState.HandleSubmit` | client/src/pages/Home.tsx:137-185 | a missing captcha changes nothing; otherwise the fresh errors are committed; a request goes out iff they are empty, and loading is false afterwards; a successful sign-up switches to login mode, and a successful login dispatches the bare e-mail |
| `HomeForm.SignupSendRequiresAll` | client/src/pages/Home.tsx:144-153 | a sign-up request is sent only with a captcha token, every requirement met and all four fields non-empty |
| `HomeForm.UnmetRequirementRejected` | client/src/pages/Home.tsx:147-149 | in sign-up mode any false requirement yields the password error and no request |
| `HomeForm.LoginIgnoresRequirements` | client/src/pages/Home.tsx:141-166 | in login mode the requirement flags and the captcha do not affect sending, which happens iff e-mail and password are non-empty |
| `HomeForm.MismatchNotRechecked` | client/src/pages/Home.tsx:141-166 | a sign-up whose confirmation differs from the password is still sent |
| `HomeForm.UnrelatedEditKeepsErrors` | client/src/pages/Home.tsx:79-128 | an edit of an unknown field, or of the name in login mode, leaves the errors unchanged |
| `ChefPage.Blank` | client/src/pages/Chef.tsx:52 | `!refusedReason.trim()` holds exactly when every character of the reason is white space or a line terminator, the empty reason included |
| `ChefPage.Gate` | client/src/pages/Chef.tsx:49-65 | no selected order: nothing; `refused` with an all-white-space reason: refusal error; otherwise a PATCH for the selected order that carries the reason only for `refused` and null otherwise |
| `ChefPage.StatusColor` | client/src/pages/Chef.tsx:210-222 | pending is yellow, preparing blue, completed green, refused red, and any other string grey |
| `ChefPage.StatusColorsDistinct` | client/src/pages/Chef.tsx:210-222 | each status the order schema allows gets its own colour, never grey |
| `ChefPage.ChefBoard.constructor` | client/src/pages/Chef.tsx:38-46 | the board starts with no selection, empty status and reason, closed modal, not loading |
| `ChefPage.ChefBoard.SelectOrder` | client/src/pages/Chef.tsx:230-236 | the order is selected and the modal opened |
| `ChefPage.ChefBoard.ChooseStatus` | client/src/pages/Chef.tsx:259-277 | the drop-down and text area set the chosen status and reason |
| `ChefPage.ChefBoard.HandleStatusUpdate` | client/src/pages/Chef.tsx:49-81 | follows `Gate`; the guards never touch loading; on success the returned orders are taken and selection, modal, status and reason are reset; on failure nothing is reset; loading is false once the request ends either way |
| `OrderSchema.CreateOrder` | server/models/Order.js:1-17 | accepted iff client, a listed time, an allowed or missing status, and every line's meal and quantity are given; a missing status defaults to `pending`, reason to null, a missing createdAt to now; otherwise exactly the failing paths are reported |
| `OrderSchema.Valid` | server/models/Order.js:2-16 | a stored order is valid exactly when no validator of the schema fails on its fields |
| `OrderSchema.ValidRoundTrip` | server/models/Order.js:2-16 | a valid order given with all its fields is stored unchanged |
| `OrderSchema.NewOrderDefaults` | server/models/Order.js:10-16 | an order with only its required fields is `pending`, has no reason and is stamped now |
| `FeedbackSchema.CreateFeedback` | server/models/Feedbacks.js:3-24 | accepted iff user, meal, an integer 1 to 5 star count and non-empty text are given; a missing date defaults to now; otherwise exactly the failing paths are reported |
| `FeedbackSchema.Valid` | server/models/Feedbacks.js:3-24 | a stored feedback is valid exactly when no validator of the schema fails on its fields |
| `FeedbackSchema.ValidRoundTrip` | server/models/Feedbacks.js:3-24 | a valid feedback given with all its fields is stored unchanged |
| `FeedbackSchema.StarsAreWholeOneToFive` | server/models/Feedbacks.js:6-14 | the stars of a valid feedback are one of the whole numbers 1 to 5 |
| `FeedbackSchema.FractionalStarsRejected` | server/models/Feedbacks.js:11-14 | any non-integer star count between 1 and 5, with the other fields given, fails on `stars` alone |
| `FeedbackSchema.DateDefaultsToNow` | server/models/Feedbacks.js:20-23 | a feedback without a date is stamped now |
| `MealSchema.CreateMeal` | server/models/Meal.js:3-9 | accepted iff name, image, a listed category and a price are given; a missing availability defaults to true; otherwise exactly the failing paths are reported |
| `MealSchema.Valid` | server/models/Meal.js:3-9 | a stored meal is valid exactly when no validator of the schema fails on its fields |
| `MealSchema.ValidRoundTrip` | server/models/Meal.js:3-9 | a valid meal given with all its fields is stored unchanged |
| `MealSchema.AvailableByDefault` | server/models/Meal.js:8 | a meal created without availability is available |
| `UserSchema.Valid` | server/models/User.js:3-8 | a stored user is valid exactly when no validator of the schema fails on its fields |
| `UserSchema.UniqueEmails` | server/models/User.js:5 | no two users share an e-mail exactly when each user's e-mail was not taken by the users stored before it |
| `UserSchema.SaveUser` | server/models/User.js:3-8 | a user missing a field or with a role outside `client`/`chef` is rejected on those paths; a valid one whose e-mail is taken is rejected by the unique index; otherwise it is appended |
| `UserSchema.SavePreservesInvariant` | server/models/User.js:5 | saving keeps every stored user valid and no e-mail twice |
| `UserSchema.FreshUserStored` | server/models/User.js:3-8 | a valid user with a new e-mail is stored as given |

## Left out

- Network calls are not modelled. The POST of `handleSubmit` and the PATCH of
  `handleStatusUpdate` appear only as parameters (`PostReply`, `PatchReply`)
  that say how the request ended. The toasts and console output are left out.
- `Home.tsx` dispatches `login(formData.email)` with a bare string, but the
  `login` reducer reads `email`, `username` and `role` from an object.
  `HandleSubmit` returns the dispatched string and does not feed it to
  `AuthStore`. What the reducer would store from a string (three `undefined`
  fields) is not modelled.
- The catch block of `handleStatusUpdate` calls `toa`, which is undefined and
  so throws. `HandleStatusUpdate` reports the outcome `Rejected` and, as the
  `finally` block does, clears loading. The rejected promise that escapes the
  handler is not modelled.
- `HomeForm.HomeState.HandleSubmit` and `ChefPage.ChefBoard.HandleStatusUpdate`
  each run as one atomic step, while the source awaits the request
  (`Home.tsx:170`, `Chef.tsx:60`). The model therefore does not capture
  interleaving. A selection made while the PATCH is pending is wiped when it
  succeeds (`Chef.tsx:71-74`), and a mode toggle during a login request
  survives it. Nor does it capture a second submit or PATCH issued while one
  is loading, where one request's `finally` clears loading while the other
  is still pending.
- `ChefPage.ChefBoard.SelectOrder` always selects the order and opens the
  modal. `handleSelectOrder` first logs `selectedOrder?.meals[0].meal.name`
  (`Chef.tsx:232`). When there is a previous selection, that throws if its
  meal lines are empty, or if its first line's `meal` is null or undefined.
  The handler then never stores the new order. The logging, and so this
  failure, is not modelled. `OrderRow` also leaves out meal lines, QR code
  and creation date.
- JavaScript strings are UTF-16 code units, while the model's strings are
  sequences of Unicode scalar values. A character outside the Basic
  Multilingual Plane counts once here but twice for `/.{8,}/`.
- `SchemaTypes.WithDefault`: an input field is either given or missing
  (`Option`), so an explicit `null` counts as missing and gets the default.
  Mongoose applies a `default` only to `undefined` and keeps an explicit
  `null`. `required` treats the two alike, so only the defaulted paths
  differ.
- `OrderSchema.CreateOrder` stores `pending` for `status: null`, where
  Mongoose stores null or fails the enum check, depending on its version. It
  stamps now for `createdAt: null`, where Mongoose stores null.
- `FeedbackSchema.CreateFeedback` stamps now for `date: null`, where Mongoose
  stores null.
- `MealSchema.CreateMeal` stores `true` for `available: null`, where Mongoose
  stores null.
- Mongoose casting is not modelled: a value of the wrong type, `NaN`, and
  ObjectId syntax. Numbers are exact `real`s rather than IEEE doubles, and
  ObjectIds are naturals. A missing `meals` array is an empty sequence.
- `OrderSchema`: `Order.js` uses `mongoose` without importing it and exports
  with CommonJS, so the module would fail to load. The model describes the
  schema it declares.
- Timestamps (`Date.now`, `moment` formatting) are opaque integers given as the
  `now` parameter.
- The server's handlers, the CAPTCHA check against Google, password hashing,
  the endpoints that create orders and feedback or list orders, routing,
  `localStorage` persistence and the presentation components are not part of
  this model.
