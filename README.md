# Telethon session generator: session table model

This project models the core of the Telethon session generator web app in Dafny.
The app drives Telegram's login (send code, verify code, optional second-factor
password), then exports the logged-in session as a reusable session string.

In the source, every login attempt is an entry of the module-level dictionary
`active_sessions`. The entry is keyed by a random hex session id and holds the
`TelegramClient`, the API credentials, the phone number, the `phone_code_hash`
and `created_at`. The model covers:

- the table and its two helpers: `cleanup_session` disconnects and deletes one
  entry; `expire_old_sessions` sweeps out every entry more than 600 seconds old.
- the outcome handling of the three login coroutines (`async_send_code`,
  `async_verify_code`, `async_submit_2fa`). These decide which outcome inserts,
  keeps or deletes an entry, and which error text the caller gets.
- the three POST routes `/send_code`, `/verify_code` and `/submit_2fa`. Each one
  sweeps the table, checks its request fields and dispatches to its coroutine.

Layout:

| file | module | contents |
|---|---|---|
| wrappers.dfy | `Wrappers` | `Option`, `Result` |
| outcomes.dfy | `Outcomes` | what each Telethon call or the thread bridge can return or raise |
| responses.dfy | `Responses` | error kinds, their exact texts, the JSON replies |
| validation.dfy | `Validation` | Python truthiness of fields, base-10 `int()`, each route's field checks |
| session_store.dfy | `SessionStore` | the entry type, the sweep, class `SessionTable` with the cleanup, the sweep and the three coroutines' table updates |
| routes.dfy | `Routes` | the three routes over a `SessionTable` |
| scenarios.dfy | `Scenarios` | complete login flows run through the routes |

How the model is built:

- The table is a class. Its `sessions` field is the dictionary, a
  `map<string, Record>`. Its `disconnected` field is the set of clients on
  which `client.disconnect()` was attempted.
- The invariant `Valid()` says two things: every client held by an entry is
  still connected, and no two entries share a client.
- Each state-changing method gives the whole new table in terms of the old one.
- Every Telethon call is an input value: `Connected`/`ConnectRaised`,
  `CodeRequested`/`ApiIdInvalid`/`PhoneNumberInvalid`/`SendRaised`, and so on.
- So are the clock, the handle from `secrets.token_hex(16)`, the new
  `TelegramClient`, and whether `run_async` returned or raised.
- The sweep follows the source's two passes. `ExpiredIds` collects the expired
  handles in a loop. `ExpireOldSessions` then calls `Cleanup` on each of them.

Where the code departs from what such a service would be expected to do, the model follows the code:

- There is no per-session state field and no per-session lock. `/submit_2fa`
  serves any live session, including one whose code step never asked for a
  password (`Scenarios.PasswordWithoutSecondFactorStep`).
- `api_id` only has to parse with `int()`. Zero and negative ids pass
  (`Validation.ParseIntNumeral`).
- `sign_in` failing with an unexpected exception keeps the session, exactly
  like a wrong or expired code does. Only a successful sign-in ends it, and
  that holds whether or not the export succeeds.
- Handles are indistinguishable only up to the clock. An entry that expired
  before the sweep gets "Session expired. Please start over.", the same reply
  as an unknown handle. An entry that crosses the 600-second mark between the
  sweep and the route's own age check (flask_app.py:516) gets "Session
  expired. Please request a new code." instead
  (`Scenarios.ExpiryBetweenClockReads`). With a single clock reading, that
  branch is dead (`Routes.VerifyCode`, last ensures).
- A `/send_code` request whose `run_async` raises still calls
  `cleanup_session` on the new handle.
- The sweep compares with a strict `> 600`, so an entry exactly 600 seconds
  old survives (`Scenarios.ExpiryBoundary`).
- A second `/send_code` that draws a handle already in the table overwrites
  that entry. The old client is then dropped without a disconnect. No check
  for this exists in the code, and none is added here.

## Model

| member | source | states |
|---|---|---|
| `SessionStore.SessionTable.constructor` | flask_app.py:34 | the table starts empty, with no client disconnected, and satisfies the ownership invariant |
| `SessionStore.SessionTable.Cleanup` | flask_app.py:66-81 | an absent handle leaves the table as it was; otherwise exactly that entry is deleted, its client (if any) is disconnected, and every other entry is kept; the invariant is preserved |
| `SessionStore.SessionTable.ExpiredIds` | flask_app.py:85 | returns, without repeats, exactly the handles whose entries are more than 600 s old at `now` |
| `SessionStore.SessionTable.ExpireOldSessions` | flask_app.py:83-88 | the new table is `Swept(old table, now)`: exactly the expired entries are gone, their clients disconnected, all others untouched; the invariant is preserved |
| `SessionStore.SweepKeepsExactly` | flask_app.py:85 | an entry survives a sweep iff `now - created_at <= 600`, a missing `created_at` counting as 0, so an entry exactly 600 s old survives; survivors are unchanged |
| `SessionStore.SweptHoldsNoExpired` | flask_app.py:512-518 | nothing left by a sweep is expired at the sweep's time, so the route's own age check can fire only on a later clock reading |
| `SessionStore.SweepsCompose` | flask_app.py:83-88 | a sweep at `t1` followed by one at a later `t2` leaves what a single sweep at `t2` leaves |
| `SessionStore.SweepIdempotent` | flask_app.py:83-88 | sweeping twice at the same time removes nothing more |
| `SessionStore.RemovePreservesOwned` | flask_app.py:70-79 | deleting entries while disconnecting their clients leaves every remaining client connected and owned by one entry |
| `SessionStore.InsertPreservesOwned` | flask_app.py:136-143 | storing an entry whose client was just constructed keeps every client owned by one entry and connected |
| `SessionStore.SendCodeReply` | flask_app.py:103-146 | the reply is "code sent" with the request's handle iff connecting and sending the code both succeed; otherwise it is a failure |
| `SessionStore.SessionTable.SendCode` | flask_app.py:103-146 | connect failure, `ApiIdInvalidError`, `PhoneNumberInvalidError` or any other send error: the matching failure, the table unchanged, the new client disconnected; success: exactly one entry stored under the handle, with `created_at = now` and the returned `phone_code_hash` |
| `SessionStore.CodeReply` | flask_app.py:160-201 | the session string comes back iff sign-in and export both succeed, and it is the exported string |
| `SessionStore.SessionTable.VerifyCode` | flask_app.py:148-201 | unknown handle: "start over" and nothing changes; password needed, invalid code, expired code or any other sign-in error: a failure and the entry kept; successful sign-in: the entry deleted and its client disconnected, whether the export succeeded or not |
| `SessionStore.CodeFailuresDistinguishable` | flask_app.py:165-177 | the four sign-in failures give four different error texts |
| `SessionStore.SecondFactorSignalledOnlyWhenNeeded` | flask_app.py:165-168 | the reply text is "2FA password required" exactly when `sign_in` raised `SessionPasswordNeededError` |
| `SessionStore.PasswordReply` | flask_app.py:212-239 | any password sign-in failure gives "Invalid 2FA password"; the session string comes back iff sign-in and export succeed |
| `SessionStore.SessionTable.SubmitPassword` | flask_app.py:203-239 | unknown handle: "start over" and nothing changes; failed password: the entry kept; accepted password: the entry deleted and its client disconnected, whether the export succeeded or not |
| `Validation.CheckSendCode` | flask_app.py:470-481 | "All fields are required" iff one of `api_id`, `api_hash`, `phone_number` is missing or empty; otherwise "API ID must be a number" iff `int(api_id)` fails; else the parsed id and the two strings |
| `Validation.CheckSubmission` | flask_app.py:505-510 | "All fields are required" iff `session_id` or the code/password field is missing or empty; else exactly those two values |
| `Validation.ParseIntNumeral` | flask_app.py:478-481 | `int()` accepts the numeral of every integer, negatives included, and returns that integer |
| `Validation.ParseIntRejectsBadStart` | flask_app.py:478-481 | `int()` fails on a string whose first character is not whitespace, a sign or a digit |
| `Validation.IsDigitRun` | flask_app.py:479 | a digit run that `int()` accepts begins and ends with a digit |
| `Responses.MessageInjective` | flask_app.py:111-231 | two replies with the same error text report the same error, exception text included |
| `Responses.SecondFactorSignalUnambiguous` | flask_app.py:396-404 | no error other than the second-factor request has the text the front end tests for |
| `Routes.SendCode` | flask_app.py:466-499 | the sweep runs first; a body that is not JSON, a missing field or a non-numeric `api_id` yields its error and no protocol step; a raised `run_async` cleans up the handle; otherwise the reply and the table are those of `async_send_code` on the swept table |
| `Routes.VerifyCode` | flask_app.py:501-529 | the sweep runs first; field check; an unknown or already-expired handle yields "Session expired. Please start over." with the table unchanged; an entry that aged past 600 s after the sweep is cleaned up with "Session expired. Please request a new code."; a raised `run_async` changes nothing; otherwise `async_verify_code` on the swept table |
| `Routes.Submit2fa` | flask_app.py:531-555 | the sweep runs first; field check; an unknown handle yields "start over" with the table unchanged; a raised `run_async` changes nothing; otherwise `async_submit_2fa` on the swept table, for any live entry |
| `Scenarios.RejectedApiIdStoresNothing` | flask_app.py:115-120 | for every numeric `api_id` that Telegram rejects, `send_code` replies "Invalid API ID" and stores no entry |
| `Scenarios.NonNumericApiIdRefused` | flask_app.py:478-481 | an `api_id` that starts with a letter is refused and stores no entry, whatever Telegram would have answered |
| `Scenarios.WrongCodeThenRightCode` | flask_app.py:160-201 | a wrong code keeps the handle usable, the right code yields the session string, and the handle is refused afterwards |
| `Scenarios.ExpiryBoundary` | flask_app.py:83-88 | a session 600 s old is still served; at 601 s it gets the unknown-handle reply |
| `Scenarios.ExpiryBetweenClockReads` | flask_app.py:512-518 | when the clock crosses 600 s between the sweep and the age check, the reply is the second expiry text and the entry is gone |
| `Scenarios.SecondFactorFlow` | flask_app.py:165-239 | password required, then a wrong password keeps the session, then the right one yields the session string and empties the table |
| `Scenarios.PasswordWithoutSecondFactorStep` | flask_app.py:203-239 | `/submit_2fa` serves a session whose code step never asked for a password |

## Left out

- The background event loop, its thread and `run_async` (flask_app.py:39-61) are not modelled. The model treats each coroutine as one atomic step, and a raised `run_async` as a coroutine that did not run. A coroutine that times out but completes later, and changes the table then, is not captured.
- When `async_verify_code` or `async_submit_2fa` call `cleanup_session` (flask_app.py:191, 200, 230, 238), the call runs on the background loop itself. Its `run_async(client.disconnect(), timeout=20)` then waits on that same loop until the 20-second timeout, which `cleanup_session` swallows. The model keeps the net effect: the entry is deleted and the client is disconnected. It does not model the stall.
- Telethon itself (`connect`, `send_code_request`, `sign_in`, `StringSession.save`, `disconnect`) is a foreign library. Its results are input values. The code or password a caller submits does not influence that outcome in the model.
- Failures of `client.disconnect()` are swallowed everywhere in the source. In the model, an attempted disconnect counts as a disconnect.
- The model does not draw `secrets.token_hex(16)` or construct `TelegramClient`. The handle and a fresh client identity are inputs, and `Routes.SendCode` requires the client to be fresh.
- Clock readings from `time.time()` are integer inputs. In `Routes.SendCode`, the sweep and the new entry's `created_at` share one reading.
- Flask request parsing and `jsonify` are not modelled. A request body is either an object of string fields or a non-object with an exception text. JSON numbers, lists and nested objects as field values are not modelled.
- `Validation.ParseInt` covers base-10 `int()` over ASCII only. It strips the six ASCII whitespace characters `int()` strips (space, `\t`, `\n`, `\v`, `\f`, `\r`) and accepts an optional sign and digits with single underscores. Non-ASCII digits and whitespace are not modelled.
- `Validation.ParseIntNumeral` does not model the limit on integer string conversion of recent CPython versions (3.11 and later, and security releases of 3.7 to 3.10). There, `int()` raises `ValueError` for a numeral of more than 4300 digits, underscores not counted, and `/send_code` replies "API ID must be a number". The source pins no Python version. The model accepts numerals of any length.
- Requests are modelled as serialised: each route runs its sweep, field check, lookup, age check and dispatch as one step. Flask's development server (`app.run`, flask_app.py:563) serves requests on concurrent threads, and the source takes no lock. Two consequences are not captured. First, two requests for the same handle can both pass the lookup (flask_app.py:512, 542) and both run `sign_in` on the same client. Second, the comprehension in `expire_old_sessions` (flask_app.py:85) iterates `active_sessions` on a request thread while the loop thread may insert an entry (flask_app.py:136). That can raise "dictionary changed size during iteration" from the sweep every route makes before its `try:` (flask_app.py:468, 503, 533).
- Logging and the HTML/Vue page served by `home()` (flask_app.py:244-464) are not modelled.
- `SessionStore.SessionTable.ExpiredIds` does not state the order of the handles. Python lists them in the dictionary's insertion order, but the model keeps disconnected clients as a set, so that order changes nothing the model states.
