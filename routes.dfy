/**
 * The three POST routes: each sweeps expired sessions, checks the request,
 * then hands the step to the background loop through `run_async`.
 */
module Routes {
  import opened Wrappers
  import opened Outcomes
  import opened Responses
  import opened Validation
  import opened SessionStore

  /** The table holds exactly `m` and has disconnected exactly `closed`. */
  ghost predicate Holds(t: SessionTable, m: map<string, Record>, closed: set<ClientId>)
    reads t
  {
    t.sessions == m && t.disconnected == closed
  }

  /**
   * `POST /send_code` at time `now`. `sid` is the fresh `secrets.token_hex(16)`
   * and `client` the `TelegramClient` the coroutine constructs.
   */
  method SendCode(t: SessionTable, now: int, req: Request, sid: string, client: ClientId,
                  bridge: BridgeOutcome, connect: ConnectOutcome, send: SendOutcome) returns (r: Response)
    requires t.Valid() && FreshClient(t.sessions, t.disconnected, client)
    modifies t
    ensures t.Valid()
    ensures
      var m, closed := Swept(old(t.sessions), now), SweptDisconnected(old(t.sessions), old(t.disconnected), now);
      if req.NotJson? then
        r == Failed(FailedToSendCode(req.detail)) && Holds(t, m, closed)
      else if CheckSendCode(req.fields).Failure? then
        r == Failed(CheckSendCode(req.fields).error) && Holds(t, m, closed)
      else if bridge.BridgeRaised? then
        r == Failed(FailedToSendCode(bridge.detail)) && Holds(t, m - {sid}, closed + ClientsOf(m, {sid}))
      else
        var a := CheckSendCode(req.fields).value;
        && r == SendCodeReply(connect, send, sid)
        && if r.CodeSent? then
             Holds(t, m[sid := NewRecord(client, a.apiId, a.apiHash, a.phone, send.phoneCodeHash, now)], closed)
           else
             Holds(t, m, closed + {client})
  {
    t.ExpireOldSessions(now);
    if req.NotJson? {
      return Failed(FailedToSendCode(req.detail));
    }
    var check := CheckSendCode(req.fields);
    if check.Failure? {
      return Failed(check.error);
    }
    var a := check.value;
    if bridge.BridgeRaised? {
      // the coroutine did not complete: clean up whatever it may have stored
      t.Cleanup(sid);
      return Failed(FailedToSendCode(bridge.detail));
    }
    r := t.SendCode(a.apiId, a.apiHash, a.phone, sid, client, now, connect, send);
  }

  /**
   * `POST /verify_code`. The route reads the clock twice: for the sweep
   * (`sweepTime`) and for its own age check of the entry (`checkTime`).
   */
  method VerifyCode(t: SessionTable, sweepTime: int, checkTime: int, req: Request,
                    bridge: BridgeOutcome, signIn: CodeSignIn, saved: ExportOutcome) returns (r: Response)
    requires t.Valid()
    modifies t
    ensures t.Valid()
    ensures
      var m, closed := Swept(old(t.sessions), sweepTime), SweptDisconnected(old(t.sessions), old(t.disconnected), sweepTime);
      if req.NotJson? then
        r == Failed(VerificationFailed(req.detail)) && Holds(t, m, closed)
      else if CheckSubmission(req.fields, "phone_code").Failure? then
        r == Failed(AllFieldsRequired) && Holds(t, m, closed)
      else
        var sid := req.fields["session_id"];
        if sid !in m then
          r == Failed(SessionExpiredStartOver) && Holds(t, m, closed)
        else if Expired(m[sid], checkTime) then
          r == Failed(SessionExpiredRequestNewCode) && Holds(t, m - {sid}, closed + ClientsOf(m, {sid}))
        else if bridge.BridgeRaised? then
          r == Failed(VerificationFailed(bridge.detail)) && Holds(t, m, closed)
        else if !HasClient(m, sid) then
          r == Failed(MissingClient) && Holds(t, m, closed)
        else
          && r == CodeReply(signIn, saved)
          && if signIn.SignedIn? then Holds(t, m - {sid}, closed + {m[sid].client.value})
             else Holds(t, m, closed)
    // an entry already expired at the sweep gets the same reply as a handle never issued
    ensures req.Json? && CheckSubmission(req.fields, "phone_code").Success? ==>
      var sid := req.fields["session_id"];
      sid !in old(t.sessions) || Expired(old(t.sessions)[sid], sweepTime) ==> r == Failed(SessionExpiredStartOver)
    // the route's own age check only fires when the clock moved on after the sweep
    ensures r == Failed(SessionExpiredRequestNewCode) ==> checkTime > sweepTime
  {
    t.ExpireOldSessions(sweepTime);
    SweptHoldsNoExpired(old(t.sessions), sweepTime);
    if req.NotJson? {
      return Failed(VerificationFailed(req.detail));
    }
    var check := CheckSubmission(req.fields, "phone_code");
    if check.Failure? {
      return Failed(check.error);
    }
    var sid := check.value.sessionId;
    if sid !in t.sessions {
      return Failed(SessionExpiredStartOver);
    }
    if Expired(t.sessions[sid], checkTime) {
      t.Cleanup(sid);
      return Failed(SessionExpiredRequestNewCode);
    }
    if bridge.BridgeRaised? {
      return Failed(VerificationFailed(bridge.detail));
    }
    r := t.VerifyCode(sid, signIn, saved);
  }

  /** `POST /submit_2fa` at time `now`; any live session is accepted. */
  method Submit2fa(t: SessionTable, now: int, req: Request,
                   bridge: BridgeOutcome, signIn: PasswordSignIn, saved: ExportOutcome) returns (r: Response)
    requires t.Valid()
    modifies t
    ensures t.Valid()
    ensures
      var m, closed := Swept(old(t.sessions), now), SweptDisconnected(old(t.sessions), old(t.disconnected), now);
      if req.NotJson? then
        r == Failed(TwoFactorFailed(req.detail)) && Holds(t, m, closed)
      else if CheckSubmission(req.fields, "password").Failure? then
        r == Failed(AllFieldsRequired) && Holds(t, m, closed)
      else
        var sid := req.fields["session_id"];
        if sid !in m then
          r == Failed(SessionExpiredStartOver) && Holds(t, m, closed)
        else if bridge.BridgeRaised? then
          r == Failed(TwoFactorFailed(bridge.detail)) && Holds(t, m, closed)
        else if !HasClient(m, sid) then
          r == Failed(MissingClient) && Holds(t, m, closed)
        else
          && r == PasswordReply(signIn, saved)
          && if signIn.PasswordAccepted? then Holds(t, m - {sid}, closed + {m[sid].client.value})
             else Holds(t, m, closed)
  {
    t.ExpireOldSessions(now);
    if req.NotJson? {
      return Failed(TwoFactorFailed(req.detail));
    }
    var check := CheckSubmission(req.fields, "password");
    if check.Failure? {
      return Failed(check.error);
    }
    var sid := check.value.sessionId;
    if sid !in t.sessions {
      return Failed(SessionExpiredStartOver);
    }
    if bridge.BridgeRaised? {
      return Failed(TwoFactorFailed(bridge.detail));
    }
    r := t.SubmitPassword(sid, signIn, saved);
  }
}
