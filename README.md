# FarmFlow client logic in Dafny

FarmFlow is a greenhouse-management app: a React / React Native client in
front of a Django REST backend. This project models the client's sequential
logic and proves properties of it:

- the two Redux slices, `greenhouses` and `auth`;
- the submit handlers of four screens:
  - the web greenhouse list;
  - the mobile "Add New Greenhouse" screen;
  - mobile sign-up;
  - web sign-in;
- the task list's fetch, delete and status badge;
- the status, temperature and humidity colour maps of the greenhouse tile and the task card.

Each source file becomes one module: `GreenhouseSlice`, `AuthSlice`,
`Greenhouses`, `NewGreenhouse`, `SignUp`, `SignIn`, `Tasks`, `GreenhouseTile`
and `TaskCard`. Three modules are shared:

- `Js` models the JavaScript values the code depends on:
  - `undefined`/`null` as `Option`;
  - numbers, including `NaN` and the infinities, with IEEE comparisons;
  - the `||` fallback on strings;
  - the settled outcome of an awaited request, `Reply`.
- `JsText` models `trim` (with ECMAScript's whitespace set), `toUpperCase`, `replace` of a single character, and the `charAt(0).toUpperCase() + slice(1)` idiom.
- `Domain` holds the status unions and the record shapes that several screens use.

Reducers and screens that update state in place are classes:

- The slices' fields are the state.
- A screen's fields are its `useState` values.
- Each reducer or handler is a method with a `modifies` frame.
- Each method's `ensures` gives the complete new state on every path. This includes the early `return`s inside `try` blocks, which still run the `finally`.

The validation rules, request bodies and message choices that those methods use are pure functions. The listed properties are proved as lemmas over those functions:

- which check wins;
- that requests carry trimmed text;
- that deletion removes exactly one id and keeps the order;
- that the colour maps are injective and ordered.

Anything a handler gets from the outside world is a method parameter:

- the stored token;
- the answer to `confirm`;
- each request's outcome (answered with `ok` and a body, or thrown);
- `Number()` or `parseFloat`, as a function `string -> JsNumber`.

Navigation and storage writes are returned as outputs: `redirected`, `wentBack`, `storedToken`.

The two greenhouse-creation screens validate differently:

- The web list screen refuses a size that is blank, `NaN` or `<= 0` (`farmflow/app/greenhouses.tsx:214-217`). It posts no status (`farmflow/app/greenhouses.tsx:231-234`).
- The mobile screen only requires the size to be non-blank (`farmflow/app/greenhouse/new.tsx:28-30`) and posts `parseFloat` of the text with the status 'inactive'. `NewGreenhouse.SizeIsNotChecked` states this.

## Model

| member | source | states |
|---|---|---|
| Js.OrElse | farmflow/app/store/slices/greenhouseSlice.ts:93 | `s \|\| fallback` on an optional string: `s` when it is present and non-empty, otherwise the fallback; never empty when the fallback is not |
| Js.FirstOrElse | farmflow/app/index.tsx:110 | `xs?.[0] \|\| fallback`: the first entry when it is a non-empty string, otherwise the fallback (also for a missing or empty array) |
| JsText.TrimStart | farmflow/app/greenhouses.tsx:232 | `trimStart` never lengthens the text; what it keeps and drops is stated by `JsText.TrimStartSpec` |
| JsText.TrimEnd | farmflow/app/greenhouses.tsx:232 | `trimEnd` never lengthens the text; what it keeps and drops is stated by `JsText.TrimEndSpec` |
| JsText.Trim | farmflow/app/greenhouses.tsx:232 | `trim` never lengthens the text; its result is characterised by `JsText.TrimDecomposition` and `JsText.TrimEnds` |
| JsText.IsBlank | farmflow/app/greenhouses.tsx:210 | `!s.trim()` holds exactly when every character of `s` is ECMAScript whitespace |
| JsText.BlankIffAllWhitespace | farmflow/app/greenhouses.tsx:210 | trimming leaves the empty string if and only if the text is all whitespace |
| JsText.TrimStartSpec | farmflow/app/greenhouses.tsx:232 | `trimStart` drops an all-whitespace prefix and keeps a suffix that does not start with whitespace |
| JsText.TrimEndSpec | farmflow/app/greenhouses.tsx:232 | `trimEnd` drops an all-whitespace suffix and keeps a prefix that does not end with whitespace |
| JsText.TrimDecomposition | farmflow/app/greenhouses.tsx:232 | the text is a whitespace prefix, then the trimmed text, then a whitespace suffix |
| JsText.TrimEnds | farmflow/app/greenhouses.tsx:232 | a non-empty trim neither starts nor ends with whitespace |
| JsText.TrimIdempotent | farmflow/app/greenhouses.tsx:232 | trimming twice is trimming once |
| JsText.TrimOfUntrimmable | farmflow/app/index.tsx:99-100 | text without whitespace at either end is left as it is |
| JsText.IndexOf | farmflow/app/tasks.tsx:242 | the first position holding the character, or -1 when none does |
| JsText.UpperChar | farmflow/app/tasks.tsx:242 | a lower-case ASCII letter becomes its upper-case letter; every other character is kept |
| JsText.ToUpperCase | farmflow/app/tasks.tsx:242 | keeps the length and upper-cases every position |
| JsText.ReplaceFirst | farmflow/app/tasks.tsx:242 | `replace` of one character keeps the length |
| JsText.ReplaceFirstSpec | farmflow/app/tasks.tsx:242 | only the first occurrence is replaced, with everything before and after it kept; without an occurrence the text is unchanged |
| JsText.Capitalize | farmflow/app/components/GreenhouseTile.tsx:101 | keeps the length, upper-cases the first character and keeps the rest |
| Domain.GreenhouseStatusNames | farmflow/app/components/GreenhouseTile.tsx:10 | the three greenhouse status names are exactly the union's strings, one per status |
| Domain.TaskStatusNames | farmflow/app/components/dashboard/TaskCard.tsx:7 | the three task status names are exactly the union's strings, one per status |
| GreenhouseSlice.IndexOfId | farmflow/app/store/slices/greenhouseSlice.ts:99 | `findIndex` by id: the first position with the id, or -1 exactly when no greenhouse has it |
| GreenhouseSlice.FindIndexById | farmflow/app/store/slices/greenhouseSlice.ts:99 | the linear search returns that first position, or -1 |
| GreenhouseSlice.ReplaceFirstById | farmflow/app/store/slices/greenhouseSlice.ts:99-102 | the update keeps the list's length; which entry changes is stated by `GreenhouseSlice.ReplaceFirstByIdSpec` |
| GreenhouseSlice.ReplaceFirstByIdSpec | farmflow/app/store/slices/greenhouseSlice.ts:98-103 | only the first greenhouse with the payload's id is replaced; the length, every other entry and every position's id are kept; with no match the list is unchanged |
| GreenhouseSlice.ReplaceFirstByIdIdempotent | farmflow/app/store/slices/greenhouseSlice.ts:98-103 | applying the same status update twice equals applying it once |
| GreenhouseSlice.GreenhouseState.constructor | farmflow/app/store/slices/greenhouseSlice.ts:21-26 | initial state: empty list, no selection, not loading, no error |
| GreenhouseSlice.GreenhouseState.SetSelectedGreenhouse | farmflow/app/store/slices/greenhouseSlice.ts:77-79 | changes the selection only |
| GreenhouseSlice.GreenhouseState.FetchPending | farmflow/app/store/slices/greenhouseSlice.ts:83-86 | loading on, error cleared; list and selection unchanged |
| GreenhouseSlice.GreenhouseState.FetchFulfilled | farmflow/app/store/slices/greenhouseSlice.ts:87-90 | loading off, list replaced by the payload; error and selection unchanged |
| GreenhouseSlice.GreenhouseState.FetchRejected | farmflow/app/store/slices/greenhouseSlice.ts:91-94 | loading off; error is the message, or 'Failed to fetch greenhouses' when it is missing or empty; list unchanged |
| GreenhouseSlice.GreenhouseState.AddFulfilled | farmflow/app/store/slices/greenhouseSlice.ts:95-97 | the payload is appended: length grows by one and the earlier entries are unchanged |
| GreenhouseSlice.GreenhouseState.UpdateStatusFulfilled | farmflow/app/store/slices/greenhouseSlice.ts:98-103 | the list becomes `ReplaceFirstById` of the old list; flags and selection unchanged |
| AuthSlice.LoginSettles | farmflow/app/store/slices/authSlice.ts:20-33 | an OK response fulfils with the body; a refused one rejects with `data.message`, or 'Login failed'; an exception rejects with its own message |
| AuthSlice.AuthState.constructor | farmflow/app/store/slices/authSlice.ts:10-15 | initial state: not authenticated, no user, not loading, no error |
| AuthSlice.AuthState.Logout | farmflow/app/store/slices/authSlice.ts:41-45 | not authenticated, no user, no error; loading unchanged |
| AuthSlice.AuthState.LoginPending | farmflow/app/store/slices/authSlice.ts:49-52 | loading on, error cleared; authentication and user unchanged |
| AuthSlice.AuthState.LoginFulfilled | farmflow/app/store/slices/authSlice.ts:53-57 | loading off, authenticated, user is the payload |
| AuthSlice.AuthState.LoginRejected | farmflow/app/store/slices/authSlice.ts:58-61 | loading off; error is the message or 'Login failed'; authentication and user unchanged |
| AuthSlice.AuthState.Login | farmflow/app/store/slices/authSlice.ts:17-61 | pending then fulfilled leaves the state authenticated with no error; any failure leaves a non-empty error and keeps authentication and user |
| Greenhouses.SizeAccepted | farmflow/app/greenhouses.tsx:214 | the size passes iff its text is not all whitespace and `Number(size)` is positive: a finite value above 0 or positive infinity |
| Greenhouses.FormError | farmflow/app/greenhouses.tsx:209-217 | no error exactly when the name is not blank and the size is accepted (not blank, not `NaN`, not `<= 0`) |
| Greenhouses.NameErrorFirst | farmflow/app/greenhouses.tsx:210-217 | a blank name always yields 'Name is required'; the size error appears only with a good name |
| Greenhouses.SizeRefusals | farmflow/app/greenhouses.tsx:214-217 | whitespace-only text, `NaN`, negative infinity and finite values `<= 0` are refused; an accepted size is positive |
| Greenhouses.RequestFor | farmflow/app/greenhouses.tsx:231-234 | the body holds the trimmed name and `Number(size)` |
| Greenhouses.RequestNameIsTrimmed | farmflow/app/greenhouses.tsx:231-234 | a validated request's name is non-empty, has no surrounding whitespace and is its own trim |
| Greenhouses.FailureMessage | farmflow/app/greenhouses.tsx:241-247 | a refusal shows `message` or 'Failed to create greenhouse'; an exception shows the retry text; never empty |
| Greenhouses.GreenhousesScreen.constructor | farmflow/app/greenhouses.tsx:152-160 | the screen's initial values |
| Greenhouses.GreenhousesScreen.FetchGreenhouses | farmflow/app/greenhouses.tsx:162-187 | no token redirects; only an OK reply replaces the list; loading ends false on every path |
| Greenhouses.GreenhousesScreen.HandleAddGreenhouse | farmflow/app/greenhouses.tsx:193-195 | opens the modal |
| Greenhouses.GreenhousesScreen.HandleCloseModal | farmflow/app/greenhouses.tsx:197-201 | closes the modal, empties the form and clears the error |
| Greenhouses.GreenhousesScreen.HandleSubmit | farmflow/app/greenhouses.tsx:203-251 | a request is sent exactly when the form validates and a token exists; success appends the created greenhouse and resets the modal; a validation failure, redirect or server failure keeps the list and form; isSubmitting ends false |
| NewGreenhouse.Validate | farmflow/app/greenhouse/new.tsx:24-30 | the name error is present iff the name is blank, and likewise the size error; each with its message |
| NewGreenhouse.CollectErrors | farmflow/app/greenhouse/new.tsx:24-30 | building the error object field by field yields `Validate` |
| NewGreenhouse.ChecksAreIndependent | farmflow/app/greenhouse/new.tsx:24-35 | each field's error depends on that field alone; both errors can be shown at once |
| NewGreenhouse.SizeIsNotChecked | farmflow/app/greenhouse/new.tsx:28-30 | a non-numeric or negative size passes the checks |
| NewGreenhouse.CaughtMessage | farmflow/app/greenhouse/new.tsx:67 | an `Error` shows its message; any other thrown value shows the retry text |
| NewGreenhouse.FailureErrors | farmflow/app/greenhouse/new.tsx:55-67 | every failure is reported under `name` only: `detail` or the default for a refusal, and the caught message for an exception |
| NewGreenhouse.NewGreenhouseScreen.constructor | farmflow/app/greenhouse/new.tsx:12-17 | the screen's initial values |
| NewGreenhouse.NewGreenhouseScreen.HandleSubmit | farmflow/app/greenhouse/new.tsx:19-71 | a request (trimmed name, `parseFloat(size)`, status inactive) is sent iff there are no errors; with errors, loading is never touched; the router goes back only on success; loading ends false |
| SignUp.AnyBlank | farmflow/app/signup.tsx:106 | some field is blank iff one of the four is all whitespace |
| SignUp.FormError | farmflow/app/signup.tsx:106-114 | 'All fields are required.' iff a field is blank; 'Passwords do not match.' iff none is blank and the untrimmed passwords differ |
| SignUp.ComparisonIsUntrimmed | farmflow/app/signup.tsx:106-114 | 'pw' and 'pw ' are reported as differing although their trims agree; the blank check wins over a mismatch |
| SignUp.SignupRequestFor | farmflow/app/signup.tsx:125-129 | the sign-up body holds the trimmed username, email and password |
| SignUp.LoginRequestFor | farmflow/app/signup.tsx:144-147 | the follow-up sign-in sends the same trimmed username and password |
| SignUp.Escaped | farmflow/app/signup.tsx:119-157 | nothing reaches the `catch` iff sign-up is OK and sign-in grants a token; a refusal throws `detail` or the default; a tokenless sign-in throws its own message; an exception passes through |
| SignUp.CaughtMessage | farmflow/app/signup.tsx:160 | `error.message`, or the retry text; never empty |
| SignUp.StageMessages | farmflow/app/signup.tsx:134-160 | the message shown for each failing stage |
| SignUp.SignUpScreen.constructor | farmflow/app/signup.tsx:96-101 | the screen's initial values |
| SignUp.SignUpScreen.HandleSignUp | farmflow/app/signup.tsx:103-164 | the validation error stops everything; the second request is sent only after an OK sign-up; the token is stored only when granted; any other outcome shows the caught message; isLoading ends false |
| SignIn.FilledIn | farmflow/app/index.tsx:85 | the form passes iff neither field is all whitespace |
| SignIn.RequestFor | farmflow/app/index.tsx:98-101 | the body holds the trimmed username and password |
| SignIn.RequestIsTrimmed | farmflow/app/index.tsx:98-101 | validated credentials are non-empty, have no surrounding whitespace and are their own trim |
| SignIn.FailureMessage | farmflow/app/index.tsx:106-114 | without a granted token: the first `non_field_errors` entry or 'Invalid credentials'; an exception gives the connection message |
| SignIn.FailureMessageCases | farmflow/app/index.tsx:106-111 | an OK reply without a token counts as a failure; a missing list gives the default; the server's entry is shown |
| SignIn.Scenarios | farmflow/__tests__/index.test.js:50-135 | an empty form is refused; 'testuser'/'testpass' are sent as typed; a refusal with 'Invalid credentials' shows it |
| SignIn.SignInScreen.constructor | farmflow/app/index.tsx:77-80 | the screen's initial values |
| SignIn.SignInScreen.HandleSignIn | farmflow/app/index.tsx:82-118 | a request is sent iff both fields are filled; the token is stored iff the reply is OK with a token; otherwise the failure message; isLoading ends false |
| Tasks.StatusStyle | farmflow/app/tasks.tsx:159-170 | pending, in_progress and completed get their badge colours; the empty style only for other strings |
| Tasks.StatusStylesDistinct | farmflow/app/tasks.tsx:159-170 | the three statuses get three different styles, and never the empty one |
| Tasks.StatusLabel | farmflow/app/tasks.tsx:242 | the label has the status's length |
| Tasks.StatusLabelSpec | farmflow/app/tasks.tsx:242 | the first '_' becomes a space and every other character is upper-cased |
| Tasks.UnderscoreLabels | farmflow/app/tasks.tsx:242 | 'in_progress' shows as 'IN PROGRESS'; in 'a_b_c' only the first underscore is replaced |
| Tasks.PlainLabels | farmflow/app/tasks.tsx:242 | 'pending' and 'completed' show as 'PENDING' and 'COMPLETED' |
| Tasks.LabelWithoutUnderscore | farmflow/app/tasks.tsx:242 | without an underscore the label is the upper-cased status |
| Tasks.RemoveById | farmflow/app/tasks.tsx:203 | the filter never lengthens the list |
| Tasks.RemoveByIdConcat | farmflow/app/tasks.tsx:203 | the filter acts on each task alone and keeps the order |
| Tasks.RemoveByIdCounts | farmflow/app/tasks.tsx:203 | tasks with the id are removed, every other task keeps its number of occurrences |
| Tasks.RemoveByIdRemovesAll | farmflow/app/tasks.tsx:203 | no task with the id remains |
| Tasks.RemoveByIdAbsent | farmflow/app/tasks.tsx:203 | a list without the id is unchanged |
| Tasks.RemoveByIdIdempotent | farmflow/app/tasks.tsx:203 | deleting an id twice equals deleting it once |
| Tasks.TasksScreen.constructor | farmflow/app/tasks.tsx:125-126 | empty list, loading |
| Tasks.TasksScreen.FetchTasks | farmflow/app/tasks.tsx:128-157 | no token redirects; the list is replaced only by an OK reply; loading ends false on every path |
| Tasks.TasksScreen.HandleDeleteTask | farmflow/app/tasks.tsx:188-210 | a declined confirmation sends nothing and keeps the list; an OK delete removes the id; a failed one keeps the list |
| GreenhouseTile.StatusColor | farmflow/app/components/GreenhouseTile.tsx:22-33 | each status's colour; the default only for other strings |
| GreenhouseTile.StatusBackground | farmflow/app/components/GreenhouseTile.tsx:35-46 | each status's background; the default only for other strings |
| GreenhouseTile.StatusStylesDistinct | farmflow/app/components/GreenhouseTile.tsx:22-46 | three distinct colours and three distinct backgrounds; the defaults are never used for a typed status |
| GreenhouseTile.TemperatureColor | farmflow/app/components/GreenhouseTile.tsx:48-52 | red iff at least 25, blue iff at most 20, green otherwise |
| GreenhouseTile.HumidityColor | farmflow/app/components/GreenhouseTile.tsx:54-58 | blue iff at least 75, red iff at most 60, green otherwise |
| GreenhouseTile.TemperatureBandsOrdered | farmflow/app/components/GreenhouseTile.tsx:48-52 | a warmer reading never falls in a lower band; the three ranges of finite readings |
| GreenhouseTile.HumidityBandsOrdered | farmflow/app/components/GreenhouseTile.tsx:54-58 | a more humid reading never falls in a lower band; the three ranges |
| GreenhouseTile.NonFiniteReadings | farmflow/app/components/GreenhouseTile.tsx:48-58 | `NaN` is shown green; the infinities fall in the outer bands |
| GreenhouseTile.StatusLabel | farmflow/app/components/GreenhouseTile.tsx:101 | the length is kept, the first character is upper-cased and the rest is kept |
| GreenhouseTile.StatusLabels | farmflow/app/components/GreenhouseTile.tsx:101 | 'active', 'maintenance' and 'inactive' show as 'Active', 'Maintenance' and 'Inactive' |
| TaskCard.StatusColor | farmflow/app/components/dashboard/TaskCard.tsx:13-24 | each status's colour; '#95A5A6' only for other strings |
| TaskCard.StatusIcon | farmflow/app/components/dashboard/TaskCard.tsx:26-37 | each status's icon; 'help' only for other strings |
| TaskCard.StatusMapsDistinct | farmflow/app/components/dashboard/TaskCard.tsx:13-37 | colour and icon are each injective over the three statuses, and neither default is reached for a typed status |

## Left out

- Every `fetch`, and `localStorage`, `AsyncStorage`, `window.location` and router navigation. These are I/O. Their outcomes are method parameters, and navigation and storage writes are method results.
- The bodies of the slices' async thunks (`fetchGreenhouses`, `addGreenhouse`, `updateGreenhouseStatus`), beyond what their settling passes to the reducers. The exception is the message choice of `login`, which is modelled.
- `Number()` and `parseFloat`. They are function parameters, because parsing floating-point text is not modelled.
- JsText.UpperChar: upper-cases only the ASCII letters, because the status strings it serves are ASCII. Full Unicode case mapping is not modelled.
- AuthSlice.LoginSettles: a thrown value that is not an `Error` rejects without a message. The toolkit's serialisation of such values, for example a thrown string becoming its own message, is not modelled.
- `formatDate` in `farmflow/app/tasks.tsx`. It is locale formatting through a library call.
- A failing `AsyncStorage.setItem` or `localStorage.setItem` after a granted token. A storage write failure is not modelled.
- Rendering, styles and layout, except the colours and labels the modelled functions return.
- The static and mock screens: dashboard, finance, reports, inventory, settings, analytics, the mock `login.tsx`, and the transcription screens. Also the two context providers, the navigation bars and the presentation-only dashboard cards.
- The Django backend. It is framework configuration. Its URL file also routes to views that are not defined.
- Overlapping submissions, updates after a component unmounts, and the stale `greenhouses` closure in the list screen's append. These are concurrency issues; each handler is modelled as running alone to completion.
