/**
 * The JSON replies of the three routes and the exact error texts they carry.
 *
 * A reply is `{"success": True, "session_id": ...}`,
 * `{"success": True, "session_string": ...}` or
 * `{"success": False, "error": Message(e)}`.
 */
module Responses {

  /** One error kind per distinct error text of the source; `detail` is `str(e)`. */
  datatype Error =
    | AllFieldsRequired
    | ApiIdNotNumber
    | FailedToConnect(detail: string)
    | InvalidApiId
    | InvalidPhoneNumber
    | FailedToSendCode(detail: string)
    | SessionExpiredStartOver
    | SessionExpiredRequestNewCode
    | MissingClient
    | TwoFactorPasswordRequired
    | InvalidVerificationCode
    | VerificationCodeExpired
    | VerificationFailed(detail: string)
    | FailedToExportSessionString(detail: string)
    | InvalidTwoFactorPassword
    | FailedToExportSession(detail: string)
    | TwoFactorFailed(detail: string)

  datatype Response =
    | CodeSent(sessionId: string)
    | SessionExported(sessionString: string)
    | Failed(error: Error)

  /** The `"error"` text the source puts in the reply for `e`. */
  function Message(e: Error): string {
    match e
    case AllFieldsRequired => "All fields are required"
    case ApiIdNotNumber => "API ID must be a number"
    case FailedToConnect(d) => "Failed to connect: " + d
    case InvalidApiId => "Invalid API ID"
    case InvalidPhoneNumber => "Invalid phone number"
    case FailedToSendCode(d) => "Failed to send code: " + d
    case SessionExpiredStartOver => "Session expired. " + "Please start over."
    case SessionExpiredRequestNewCode => "Session expired. " + "Please request a new code."
    case MissingClient => "Internal error: missing client"
    case TwoFactorPasswordRequired => "2FA password required"
    case InvalidVerificationCode => "Invalid verification code"
    case VerificationCodeExpired => "Verification code expired. " + "Please request a new code."
    case VerificationFailed(d) => "Verification failed: " + d
    case FailedToExportSessionString(d) => "Failed to export session string: " + d
    case InvalidTwoFactorPassword => "Invalid 2FA password"
    case FailedToExportSession(d) => "Failed to export session: " + d
    case TwoFactorFailed(d) => "2FA failed: " + d
  }

  /** The exception text a message embeds, empty for the fixed texts. */
  function Detail(e: Error): string {
    match e
    case FailedToConnect(d) => d
    case FailedToSendCode(d) => d
    case VerificationFailed(d) => d
    case FailedToExportSessionString(d) => d
    case FailedToExportSession(d) => d
    case TwoFactorFailed(d) => d
    case _ => ""
  }

  /** The kind of `e` with its exception text emptied. */
  function Kind(e: Error): Error {
    match e
    case FailedToConnect(_) => FailedToConnect("")
    case FailedToSendCode(_) => FailedToSendCode("")
    case VerificationFailed(_) => VerificationFailed("")
    case FailedToExportSessionString(_) => FailedToExportSessionString("")
    case FailedToExportSession(_) => FailedToExportSession("")
    case TwoFactorFailed(_) => TwoFactorFailed("")
    case _ => e
  }

  /** Character `i` of `m`, or NUL past its end. */
  function At(m: string, i: nat): char {
    if i < |m| then m[i] else '\0'
  }

  /** Reads the error kind back from a reply's text, looking at a few characters only. */
  ghost function KindOf(m: string): Error {
    match At(m, 0)
    case 'A' => if At(m, 1) == 'l' then AllFieldsRequired else ApiIdNotNumber
    case 'F' =>
      if At(m, 10) == 'c' then FailedToConnect("")
      else if At(m, 10) == 's' then FailedToSendCode("")
      else if At(m, 24) == ' ' then FailedToExportSessionString("")
      else FailedToExportSession("")
    case 'I' =>
      if At(m, 2) == 't' then MissingClient
      else if At(m, 8) == 'A' then InvalidApiId
      else if At(m, 8) == 'p' then InvalidPhoneNumber
      else if At(m, 8) == 'v' then InvalidVerificationCode
      else InvalidTwoFactorPassword
    case 'S' => if At(m, 24) == 's' then SessionExpiredStartOver else SessionExpiredRequestNewCode
    case '2' => if At(m, 4) == 'p' then TwoFactorPasswordRequired else TwoFactorFailed("")
    case _ => if At(m, 13) == 'c' then VerificationCodeExpired else VerificationFailed("")
  }

  /** Errors whose text embeds an exception text. */
  predicate HasDetail(e: Error) {
    e.FailedToConnect? || e.FailedToSendCode? || e.VerificationFailed? ||
    e.FailedToExportSessionString? || e.FailedToExportSession? || e.TwoFactorFailed?
  }

  /** The kind of an error can be read back from its text. */
  lemma KindOfMessage(e: Error)
    ensures KindOf(Message(e)) == Kind(e)
  {
    if HasDetail(e) {
      KindOfDetailedMessage(e);
    } else {
      KindOfFixedMessage(e);
    }
  }

  lemma KindOfDetailedMessage(e: Error)
    requires HasDetail(e)
    ensures KindOf(Message(e)) == Kind(e)
  {
  }

  lemma {:induction false} KindOfFixedMessage(e: Error)
    requires !HasDetail(e)
    ensures KindOf(Message(e)) == Kind(e)
  {
    match e
    case AllFieldsRequired =>
    case ApiIdNotNumber =>
    case InvalidApiId =>
    case InvalidPhoneNumber =>
    case SessionExpiredStartOver =>
    case SessionExpiredRequestNewCode =>
    case MissingClient =>
    case TwoFactorPasswordRequired =>
    case InvalidVerificationCode =>
    case VerificationCodeExpired =>
    case InvalidTwoFactorPassword =>
  }

  /** An error text ends in the exception text it embeds. */
  lemma DetailIsSuffix(e: Error)
    ensures |Detail(e)| <= |Message(e)|
    ensures Message(e)[|Message(e)| - |Detail(e)|..] == Detail(e)
  {
  }

  /** Two replies with the same error text report the same error. */
  lemma MessageInjective(e1: Error, e2: Error)
    requires Message(e1) == Message(e2)
    ensures e1 == e2
  {
    KindOfMessage(e1);
    KindOfMessage(e2);
    DetailIsSuffix(e1);
    DetailIsSuffix(e2);
  }

  /**
   * The browser front end switches to the password step when the error text
   * is exactly "2FA password required"; no other reply, whatever exception
   * text it embeds, carries that text.
   */
  lemma SecondFactorSignalUnambiguous(e: Error)
    ensures Message(e) == "2FA password required" <==> e == TwoFactorPasswordRequired
  {
    if Message(e) == "2FA password required" {
      MessageInjective(e, TwoFactorPasswordRequired);
    }
  }
}
