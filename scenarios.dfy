/**
 * Whole login flows through the routes, each against a new, empty table.
 * What each method promises follows from the route contracts alone.
 */
module Scenarios {
  import opened Wrappers
  import opened Outcomes
  import opened Responses
  import opened Validation
  import opened SessionStore
  import Routes

  /** A `/send_code` body with every field filled in. */
  function SendCodeBody(apiId: string): Request {
    Json(map["api_id" := apiId, "api_hash" := "aa", "phone_number" := "+10000000000"])
  }

  function CodeBody(sid: string, code: string): Request {
    Json(map["session_id" := sid, "phone_code" := code])
  }

  function PasswordBody(sid: string, password: string): Request {
    Json(map["session_id" := sid, "password" := password])
  }

  /** A body whose `api_id` is an integer's numeral passes the field checks of `/send_code`. */
  lemma NumeralBodyAccepted(apiId: int)
    ensures CheckSendCode(SendCodeBody(Numeral(apiId)).fields) == Success(SendCodeArgs(apiId, "aa", "+10000000000"))
  {
    ParseIntNumeral(apiId);
    ParsedBodyAccepted(Numeral(apiId), apiId);
  }

  /** A body whose `api_id` parses passes the field checks, with the parsed id. */
  lemma ParsedBodyAccepted(apiId: string, n: int)
    requires ParseInt(apiId) == Some(n)
    ensures CheckSendCode(SendCodeBody(apiId).fields) == Success(SendCodeArgs(n, "aa", "+10000000000"))
  {
    var f := SendCodeBody(apiId).fields;
    ParsedIsNonEmpty(apiId);
    assert Field(f, "api_id") == Some(apiId);
    assert Field(f, "api_hash") == Some("aa");
    assert Field(f, "phone_number") == Some("+10000000000");
  }

  /** A body whose `api_id` starts with a letter fails the number check. */
  lemma NonNumeralBodyRefused(apiId: string)
    requires |apiId| > 0 && 'a' <= apiId[0] <= 'z'
    ensures CheckSendCode(SendCodeBody(apiId).fields) == Failure(ApiIdNotNumber)
  {
    var f := SendCodeBody(apiId).fields;
    assert Field(f, "api_id") == Some(apiId);
    assert Field(f, "api_hash") == Some("aa");
    assert Field(f, "phone_number") == Some("+10000000000");
    ParseIntRejectsBadStart(apiId);
  }

  /** Telegram rejects a numeric API id: the reply says so and no session is stored. */
  method RejectedApiIdStoresNothing(apiId: int) returns (r: Response, left: map<string, Record>)
    ensures r == Failed(InvalidApiId) && left == map[]
  {
    var t := new SessionTable();
    NumeralBodyAccepted(apiId);
    assert Swept(map[], 0) == map[];
    r := Routes.SendCode(t, 0, SendCodeBody(Numeral(apiId)), "a1", 1, Returned, Connected, ApiIdInvalid);
    left := t.sessions;
  }

  /** An `api_id` starting with a letter is refused before anything is sent. */
  method NonNumericApiIdRefused(apiId: string) returns (r: Response, left: map<string, Record>)
    requires |apiId| > 0 && 'a' <= apiId[0] <= 'z'
    ensures r == Failed(ApiIdNotNumber) && left == map[]
  {
    var t := new SessionTable();
    NonNumeralBodyRefused(apiId);
    r := Routes.SendCode(t, 0, SendCodeBody(apiId), "a1", 1, Returned, Connected, CodeRequested(None));
    left := t.sessions;
  }

  /** A `/verify_code` body with both fields filled in passes its check. */
  lemma CodeBodyAccepted(sid: string, code: string)
    requires sid != "" && code != ""
    ensures CheckSubmission(CodeBody(sid, code).fields, "phone_code") == Success(Submission(sid, code))
  {
  }

  /** A `/submit_2fa` body with both fields filled in passes its check. */
  lemma PasswordBodyAccepted(sid: string, password: string)
    requires sid != "" && password != ""
    ensures CheckSubmission(PasswordBody(sid, password).fields, "password") == Success(Submission(sid, password))
  {
  }

  /** A sweep that finds nothing expired changes nothing. */
  lemma NothingToSweep(m: map<string, Record>, closed: set<ClientId>, now: int)
    requires forall sid :: sid in m ==> !Expired(m[sid], now)
    ensures Swept(m, now) == m && SweptDisconnected(m, closed, now) == closed
  {
  }

  /** The table right after a code was sent at time 0 for handle "a1". */
  method Started(hash: Option<string>) returns (t: SessionTable)
    ensures fresh(t) && t.Valid()
    ensures t.sessions == map["a1" := NewRecord(1, 600, "aa", "+10000000000", hash, 0)]
    ensures t.disconnected == {}
  {
    t := new SessionTable();
    NumeralBodyAccepted(600);
    NothingToSweep(map[], {}, 0);
    var sent := Routes.SendCode(t, 0, SendCodeBody(Numeral(600)), "a1", 1, Returned, Connected, CodeRequested(hash));
  }

  /**
   * A wrong code keeps the session; the right one then yields the session
   * string and ends the session, so the handle is refused afterwards.
   */
  method WrongCodeThenRightCode(credential: string) returns (r1: Response, r2: Response, r3: Response)
    ensures r1 == Failed(InvalidVerificationCode)
    ensures r2 == SessionExported(credential)
    ensures r3 == Failed(SessionExpiredStartOver)
  {
    var t := Started(Some("h"));
    var m := t.sessions;
    CodeBodyAccepted("a1", "00000");
    CodeBodyAccepted("a1", "12345");
    NothingToSweep(m, {}, 10);
    r1 := Routes.VerifyCode(t, 10, 10, CodeBody("a1", "00000"), Returned, PhoneCodeInvalid, Exported(credential));
    assert t.sessions == m;
    NothingToSweep(m, {}, 20);
    r2 := Routes.VerifyCode(t, 20, 20, CodeBody("a1", "12345"), Returned, SignedIn, Exported(credential));
    assert t.sessions == map[];
    NothingToSweep(map[], t.disconnected, 30);
    r3 := Routes.VerifyCode(t, 30, 30, CodeBody("a1", "12345"), Returned, SignedIn, Exported(credential));
  }

  /**
   * A session exactly 600 seconds old is still served; at 601 seconds it
   * is swept and the reply is the one for an unknown handle.
   */
  method ExpiryBoundary() returns (r1: Response, r2: Response)
    ensures r1 == Failed(InvalidVerificationCode)
    ensures r2 == Failed(SessionExpiredStartOver)
  {
    var t := Started(None);
    var m := t.sessions;
    CodeBodyAccepted("a1", "00000");
    NothingToSweep(m, {}, 600);
    r1 := Routes.VerifyCode(t, 600, 600, CodeBody("a1", "00000"), Returned, PhoneCodeInvalid, ExportRaised("x"));
    assert t.sessions == m;
    assert ExpiredHandles(m, 601) == {"a1"};
    r2 := Routes.VerifyCode(t, 601, 601, CodeBody("a1", "00000"), Returned, PhoneCodeInvalid, ExportRaised("x"));
  }

  /**
   * When the clock passes the limit between the sweep and the route's own
   * age check, the reply is the second, different expiry text.
   */
  method ExpiryBetweenClockReads() returns (r: Response, left: map<string, Record>)
    ensures r == Failed(SessionExpiredRequestNewCode) && left == map[]
  {
    var t := Started(None);
    CodeBodyAccepted("a1", "00000");
    NothingToSweep(t.sessions, {}, 600);
    r := Routes.VerifyCode(t, 600, 601, CodeBody("a1", "00000"), Returned, SignedIn, Exported("s"));
    left := t.sessions;
  }

  /**
   * The second-factor path: the code asks for a password, a wrong password
   * keeps the session, the right one yields the session string.
   */
  method SecondFactorFlow(credential: string) returns (r1: Response, r2: Response, r3: Response, left: map<string, Record>)
    ensures r1 == Failed(TwoFactorPasswordRequired)
    ensures r2 == Failed(InvalidTwoFactorPassword)
    ensures r3 == SessionExported(credential)
    ensures left == map[]
  {
    var t := Started(None);
    var m := t.sessions;
    CodeBodyAccepted("a1", "12345");
    PasswordBodyAccepted("a1", "wrong");
    PasswordBodyAccepted("a1", "right");
    NothingToSweep(m, {}, 5);
    r1 := Routes.VerifyCode(t, 5, 5, CodeBody("a1", "12345"), Returned, PasswordNeeded, Exported(credential));
    assert t.sessions == m;
    NothingToSweep(m, {}, 6);
    r2 := Routes.Submit2fa(t, 6, PasswordBody("a1", "wrong"), Returned, PasswordRaised, Exported(credential));
    assert t.sessions == m;
    NothingToSweep(m, {}, 7);
    r3 := Routes.Submit2fa(t, 7, PasswordBody("a1", "right"), Returned, PasswordAccepted, Exported(credential));
    left := t.sessions;
  }

  /** `/submit_2fa` serves a session whose code step never asked for a password. */
  method PasswordWithoutSecondFactorStep(credential: string) returns (r: Response)
    ensures r == SessionExported(credential)
  {
    var t := Started(None);
    PasswordBodyAccepted("a1", "pw");
    NothingToSweep(t.sessions, {}, 1);
    r := Routes.Submit2fa(t, 1, PasswordBody("a1", "pw"), Returned, PasswordAccepted, Exported(credential));
  }
}
