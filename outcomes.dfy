/**
 * What the foreign calls of the login flow can do, as values.
 *
 * Every Telethon coroutine (`connect`, `send_code_request`, `sign_in`,
 * `StringSession.save`) and the thread bridge `run_async` is replaced by the
 * outcome it produced; the model is handed that outcome as a parameter.
 * A `detail` string is the text of the exception (`str(e)`).
 */
module Outcomes {
  import opened Wrappers

  /** Identity of one `TelegramClient` object. */
  type ClientId = nat

  /** `await client.connect()` */
  datatype ConnectOutcome = Connected | ConnectRaised(detail: string)

  /** `await client.send_code_request(phone)`; `phoneCodeHash` is `getattr(sent, "phone_code_hash", None)`. */
  datatype SendOutcome =
    | CodeRequested(phoneCodeHash: Option<string>)
    | ApiIdInvalid                     // ApiIdInvalidError
    | PhoneNumberInvalid               // PhoneNumberInvalidError
    | SendRaised(detail: string)       // any other exception

  /** `await client.sign_in(phone=..., code=...)` */
  datatype CodeSignIn =
    | SignedIn
    | PasswordNeeded                   // SessionPasswordNeededError
    | PhoneCodeInvalid                 // PhoneCodeInvalidError
    | PhoneCodeExpired                 // PhoneCodeExpiredError
    | SignInRaised(detail: string)     // any other exception

  /** `await client.sign_in(password=...)`: every exception is handled alike. */
  datatype PasswordSignIn = PasswordAccepted | PasswordRaised

  /** `StringSession.save(client.session)` */
  datatype ExportOutcome = Exported(sessionString: string) | ExportRaised(detail: string)

  /**
   * `run_async(coro, timeout=60)` as seen by a route: the coroutine's own
   * result came back, or the bridge raised (loop not running, timeout).
   */
  datatype BridgeOutcome = Returned | BridgeRaised(detail: string)
}
