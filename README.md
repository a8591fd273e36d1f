# AI Tools Finder — verified model of the session gate, auth-error classifier, search step and Firebase client

AI Tools Finder is a Streamlit page that puts a login screen (Firebase email and
password auth through pyrebase) in front of a search box. The search box sends a
free-text query to a recommendation backend and shows the tools it returns as
cards in three columns. This project models the logic under that page and proves
properties of it:

- `text.dfy` (module `Text`): the Python string operations the page relies on:
  `str.strip()` with Python's whitespace set, the substring test `p in s`, and
  `sep.join(xs)`.
- `auth_errors.dfy` (module `AuthErrors`): `parse_auth_error`. It tests the
  exception text for provider codes in a fixed order, and the first hit picks the
  message. It is proved equal to a reference "first matching line of a rule table"
  reading.
- `firebase_client.dfy` (module `Firebase`): the `_config` mapping built from the
  environment, the missing-settings comprehension and its error message, and the
  module globals as a class `Client`. `init` validates and initialises once, and
  `auth`, `db` and `storage` go through it.
- `finder.dfy` (module `Finder`): how `fetch_tools` maps backend outcomes to a
  result list, the search trigger with its Enter-key emulation, the round-robin
  placement of cards into three columns, and the placeholder grid.
- `streamlit_app.dfy` (module `StreamlitApp`): the session slots (`user`,
  `results`) as a class `App`. It holds the three auth handlers, the reset-email
  guard, logout, the search step, the two screens' passes and the routing of one
  script rerun. A pure event model of the user slot (`NextUser`, `Replay`)
  carries the lemmas about successions of reruns: each rerun's method returns its
  events, and `ReplayAppend` joins the reruns of a session into one replay.
- `wrappers.dfy` (module `Wrappers`): `Option`, `Result` (a return value or an
  exception message) and `Outcome`.

Outside inputs are parameters: the environment, the application handle pyrebase
would create, the identity provider's replies and the backend's reply. An
exception is represented by its string form `str(e)`.

Behaviour of the code that is easy to misread, modelled as written:

- A backend error or a transport error replaces the stored results with the empty
  list. They are not kept.
- A search runs on every rerun of the tool finder whose query is non-empty,
  whether or not the button was pressed. This includes the rerun in which Logout
  was pressed, because logout does not end the pass.
- The missing-settings message lists the keys in declaration order.
- A configuration error raised by `auth()` inside a login, signup or reset handler
  is caught by that handler. It is shown as `Auth error: Missing Firebase env vars: …`.

## Model

| member | source | states |
|---|---|---|
| Text.TrimStartCuts | streamlit_app.py:151 | the left-stripped string is a suffix of the input that does not start with whitespace, and everything cut before it is whitespace |
| Text.TrimEndCuts | streamlit_app.py:151 | the right-stripped string is a prefix of the input that does not end with whitespace, and everything cut after it is whitespace |
| Text.StripCutsWhitespace | streamlit_app.py:151 | `email.strip()` is a slice of the input with only whitespace around it; it neither starts nor ends with whitespace; it is empty exactly when every character of the input is Python whitespace |
| Text.Join | firebase_client.py:29 | `", ".join(xs)` starts with the first string of `xs` and ends with the last |
| Text.JoinContainsEach | firebase_client.py:29 | every joined string is a substring of `", ".join(...)` |
| Text.JoinOmitsChar | firebase_client.py:29 | a character found in neither the parts nor the separator is absent from the joined string |
| AuthErrors.ParseAuthError | streamlit_app.py:87-94 | the message is never empty; it is one of the five rule messages or `"Auth error: " + s` |
| AuthErrors.FirstMatchIsFirst | streamlit_app.py:89-93 | in the rule-table reading, the first matching line gives the message |
| AuthErrors.ParseAuthErrorIsFirstMatch | streamlit_app.py:87-94 | the classifier equals the rule-table reading: the first matching line's message, else the fallback |
| AuthErrors.MatchesRule | streamlit_app.py:89-93 | line k of the table matches exactly when the source's test on line 89+k succeeds |
| AuthErrors.MessagesDistinct | streamlit_app.py:89-94 | the five messages are pairwise distinct, and none equals a fallback message |
| AuthErrors.FirstMatchWins | streamlit_app.py:89-93 | the result is line k's message if and only if line k matches and no earlier line does |
| AuthErrors.FallbackExactlyWhenUnrecognised | streamlit_app.py:94 | the result is `"Auth error: " + s` if and only if no known code occurs in `s` |
| AuthErrors.EmailExistsOutranks | streamlit_app.py:89 | a text carrying EMAIL_EXISTS gives "Email already in use.", whatever other codes it carries |
| AuthErrors.WrongPasswordExactly | streamlit_app.py:91 | "Wrong password." is produced if and only if INVALID_PASSWORD or INVALID_LOGIN_CREDENTIALS occurs and neither EMAIL_EXISTS nor EMAIL_NOT_FOUND does |
| AuthErrors.NoUnderscoreFallsBack | streamlit_app.py:89-94 | a text with no underscore carries no provider code, so it falls back |
| Firebase.BuildConfig | firebase_client.py:11-20 | eight entries in declaration order; an entry has a value exactly when its environment variable is set, and that value is the variable's content |
| Firebase.Missing | firebase_client.py:27 | the comprehension lists at most one key per entry and never the optional `measurementId` |
| Firebase.MissingMembers | firebase_client.py:27 | a key is listed exactly when some entry has that key, the key is not `measurementId`, and its value is unset or empty |
| Firebase.MissingInDeclarationOrder | firebase_client.py:27 | the listed keys are the configuration's keys with some deleted, so declaration order is kept |
| Firebase.MissingFromEnvInOrder | firebase_client.py:11-27 | for the configuration read from the environment, the listed keys follow the declared key order |
| Firebase.MissingFromEnv | firebase_client.py:11-27 | each configuration key is missing exactly when it is mandatory and its variable is unset or empty |
| Firebase.NothingMissingIff | firebase_client.py:27-28 | nothing is missing if and only if all seven mandatory variables are set and non-empty |
| Firebase.MissingIgnoresOptional | firebase_client.py:27 | configurations that differ only in the optional entry miss the same keys |
| Firebase.MeasurementIdIrrelevant | firebase_client.py:18-27 | unsetting FIREBASE_MEASUREMENT_ID never changes the missing list |
| Firebase.MissingMessageNamesEach | firebase_client.py:29 | the RuntimeError message names every missing key |
| Firebase.MissingMessageHasNoUnderscore | firebase_client.py:11-29 | the RuntimeError message contains no underscore, since neither its prefix, its separator nor any key does |
| Firebase.Client.constructor | firebase_client.py:11-22 | the configuration is read from the environment and every handle starts unset |
| Firebase.Client.Init | firebase_client.py:24-34 | once set, the handle is returned unchanged without re-validation; otherwise a missing key fails with the joined message and changes nothing; otherwise all four handles are set together from one application handle |
| Firebase.Client.Auth | firebase_client.py:36-38 | succeeds exactly when nothing is missing; returns the auth service of the stored application; the application afterwards is the one already stored, else the newly created one when nothing is missing, else none (a failure changes nothing) |
| Firebase.Client.Db | firebase_client.py:40-42 | the same for the database service |
| Firebase.Client.Storage | firebase_client.py:44-46 | the same for the storage service |
| Finder.FetchTools | streamlit_app.py:164-173 | no error exactly for a 200 reply with a JSON object, whose `tools` field (or `[]`) is the result; any error gives `[]`; a non-200 status gives the backend-error text; a transport exception, or a 200 body that `.json().get` raises on, gives "Error connecting to backend: " followed by the exception text; a non-empty result comes only from a 200 reply carrying that list |
| Finder.ShouldFetch | streamlit_app.py:219-223 | a fetch happens if and only if the query is non-empty; the button never matters |
| Finder.Distribute | streamlit_app.py:230-233 | three columns; item i is at column i % 3, row i / 3; every cell holds the item at index 3·row + column; column c has (n + 2 − c) / 3 items |
| Finder.GhostGrid | streamlit_app.py:188-193 | n placeholders spread round-robin over three columns |
| Finder.RenderResults | streamlit_app.py:228-235 | non-empty results are shown as cards in round-robin order and nothing else; empty results give two placeholders per column |
| StreamlitApp.Route | streamlit_app.py:240-243 | the tool finder is shown exactly when the session holds a user |
| StreamlitApp.NextUser | streamlit_app.py:96-204 | a successful login puts its user in the slot and a logout empties it; nothing else changes the slot |
| StreamlitApp.Replay | streamlit_app.py:96-204 | after a succession of handler events the slot is empty if the last was a logout, and holds that login's user if the last was a successful login; events that are neither (signups, resets, failed logins) leave the slot as it was |
| StreamlitApp.ReplayAppend | streamlit_app.py:79-82 | the user slot after several reruns is the replay of all their events in order: the slot persists from one rerun to the next |
| StreamlitApp.OnlyLoginSetsUser | streamlit_app.py:96-116 | a session holding a user it did not start with got that user from a successful login |
| StreamlitApp.LogoutClearsUntilLogin | streamlit_app.py:202-203 | after a logout that no successful login follows, the session holds no user (so logout is idempotent) |
| StreamlitApp.StaysSignedOut | streamlit_app.py:104-116 | without a successful login, a signed-out session stays signed out |
| StreamlitApp.MissingConfigShownAsAuthError | streamlit_app.py:96-102 | a configuration error raised by `auth()` inside a handler is shown as `"Auth error: " + message` |
| StreamlitApp.App.constructor | streamlit_app.py:79-82 | a new session has no user and no results |
| StreamlitApp.App.Login | streamlit_app.py:96-102 | the provider is asked with the stripped email exactly when the configuration is complete; only a successful reply sets the user, any failure leaves it as it was; the classified error or the toast is shown; `auth()` leaves Firebase initialised with the created application exactly when it was not before and nothing is missing |
| StreamlitApp.App.Signup | streamlit_app.py:104-109 | account creation with the stripped email; the session is never changed; success or classified error is shown; Firebase is initialised as by `auth()` |
| StreamlitApp.App.Reset | streamlit_app.py:111-116 | a reset email to the stripped address; the session is never changed; success or classified error is shown; Firebase is initialised as by `auth()` |
| StreamlitApp.App.ResetClicked | streamlit_app.py:148-154 | a blank address gives the warning and makes no call, not even to Firebase's initialisation; otherwise as Reset, including Firebase's initialisation |
| StreamlitApp.App.Logout | streamlit_app.py:202-204 | the user slot becomes empty whatever it held |
| StreamlitApp.App.Search | streamlit_app.py:219-225 | with a non-empty query the results slot is replaced wholesale by the fetch result (errors give `[]`); with an empty query nothing is fetched and the slot is kept |
| StreamlitApp.App.ToolFinderPass | streamlit_app.py:195-235 | logout, then the search step, then the grid of the new results (cards in round-robin order with exact column lengths, or the placeholder grid); a logout does not prevent the search |
| StreamlitApp.App.AuthPass | streamlit_app.py:136-154 | the pressed button's handler runs and nothing else: for each press, the session event, the provider call (made exactly when the configuration is complete), the notice and Firebase's new state; a blank reset gives only the warning and leaves Firebase untouched; no press does nothing |
| StreamlitApp.App.Rerun | streamlit_app.py:240-243 | the tool finder is rendered if and only if the session holds a user when the script starts; on the auth screen the user is set exactly by a login press with a complete configuration and a successful reply, and nothing is fetched; the events are exactly those of the pressed handler (none without a press) or, on the tool finder, a single logout on a logout press; the tool finder never calls the provider, logs out on a logout press, and replaces the results slot with the fetch result exactly when the query is non-empty |

## Left out

- Streamlit rendering, CSS, the Lottie animation (`load_lottieurl`), the typed title animation and every `time.sleep`: presentation and timing only.
- The HTTP POST in `fetch_tools`, its 20-second timeout and the `BACKEND_URL` setting: the backend is modelled only by its outcome, either a status with a body or a transport exception.
- A `tools` field that is present but is not a list (for example JSON `null`) is not modelled; the model's `tools` field is either absent or a list of tool records.
- pyrebase and the identity provider: the application handle and the provider's replies are parameters, and service handles are tokens derived from the application handle.
- `.env` loading and `os.getenv`: the environment is an input map.
- `show_card`'s field formatting (the "—" default for a missing name or year, the optional strengths and link): display only; a card is modelled as the tool record it shows.
- Widget state kept by Streamlit between reruns (the text typed into inputs): each rerun's inputs are parameters.
- The exact text of an exception (`str(e)` of a pyrebase HTTP error or a requests error) is taken as given.
- StreamlitApp.App.Rerun: does not restate the provider calls, the notices, Firebase's new state or the grid; the contracts of AuthPass and ToolFinderPass state them.
- Firebase.Client.Init: assumes the pyrebase calls (`initialize_app`, `.auth()`, `.database()`, `.storage()`) never raise. In the source, a raise from `.auth()`, `.database()` or `.storage()` would leave `_firebase` set and the later handles `None`, and the guard on `_firebase` would never repair that. The model's all-or-nothing invariant (`Client.Valid`) holds only under this assumption. The model is also sequential: Streamlit runs each browser session's script on its own thread, and all sessions share the module globals, so two sessions making their first `init` call at once could both pass the guard on `_firebase` and leave handles from two applications. Such races are not modelled; "initialise once" and "all four handles from one application" hold for calls made one at a time.
