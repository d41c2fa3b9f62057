/**
 * The session table `active_sessions` and everything that inserts into it
 * or deletes from it: `cleanup_session`, `expire_old_sessions` and the
 * outcome handling of the three login coroutines.
 */
module SessionStore {
  import opened Wrappers
  import opened Outcomes
  import opened Responses

  /** Seconds after which a session is swept. */
  const Ttl: int := 600

  /** One entry of the table. */
  datatype Record = Record(
    client: Option<ClientId>,
    apiId: int,
    apiHash: string,
    phone: string,
    phoneCodeHash: Option<string>,
    createdAt: Option<int>)

  /** `s.get("created_at", 0)` */
  function CreatedAt(r: Record): int {
    r.createdAt.GetOr(0)
  }

  /** The sweep's test: strictly more than `Ttl` seconds old at `now`. */
  predicate Expired(r: Record, now: int) {
    now - CreatedAt(r) > Ttl
  }

  /** The handles a sweep at `now` removes. */
  function ExpiredHandles(m: map<string, Record>, now: int): set<string> {
    set sid | sid in m && Expired(m[sid], now)
  }

  /** The table a sweep at `now` leaves behind. */
  function Swept(m: map<string, Record>, now: int): map<string, Record> {
    m - ExpiredHandles(m, now)
  }

  /** The disconnected clients after a sweep at `now` of table `m`. */
  function SweptDisconnected(m: map<string, Record>, disconnected: set<ClientId>, now: int): set<ClientId> {
    disconnected + ClientsOf(m, ExpiredHandles(m, now))
  }

  /** The clients held by the entries named in `handles`. */
  function ClientsOf(m: map<string, Record>, handles: set<string>): set<ClientId> {
    set sid | sid in handles && sid in m && m[sid].client.Some? :: m[sid].client.value
  }

  /** An entry a login coroutine can act on: present and holding a client. */
  predicate HasClient(m: map<string, Record>, sid: string) {
    sid in m && m[sid].client.Some?
  }

  /**
   * Every client in the table is still connected (no disconnect was
   * attempted on it) and belongs to one entry only.
   */
  ghost predicate Owned(m: map<string, Record>, disconnected: set<ClientId>) {
    && (forall sid :: HasClient(m, sid) ==> m[sid].client.value !in disconnected)
    && (forall a, b :: HasClient(m, a) && b in m && a != b ==> m[a].client != m[b].client)
  }

  /** A client just constructed: never disconnected and held by no entry. */
  predicate FreshClient(m: map<string, Record>, disconnected: set<ClientId>, c: ClientId) {
    c !in disconnected && forall sid :: sid in m ==> m[sid].client != Some(c)
  }

  /** The entry `async_send_code` stores once the code is sent. */
  function NewRecord(client: ClientId, apiId: int, apiHash: string, phone: string,
                     phoneCodeHash: Option<string>, now: int): Record
  {
    Record(Some(client), apiId, apiHash, phone, phoneCodeHash, Some(now))
  }

  // ---------------------------------------------------------------------
  // Replies of the three coroutines
  // ---------------------------------------------------------------------

  /** The reply of `async_send_code`. */
  function SendCodeReply(connect: ConnectOutcome, send: SendOutcome, sid: string): (r: Response)
    ensures r.CodeSent? <==> connect.Connected? && send.CodeRequested?
    ensures r.CodeSent? ==> r.sessionId == sid
    ensures r.Failed? <==> !r.CodeSent?
  {
    match connect
    case ConnectRaised(d) => Failed(FailedToConnect(d))
    case Connected =>
      match send
      case CodeRequested(_) => CodeSent(sid)
      case ApiIdInvalid => Failed(InvalidApiId)
      case PhoneNumberInvalid => Failed(InvalidPhoneNumber)
      case SendRaised(d) => Failed(FailedToSendCode(d))
  }

  /** The reply of `async_verify_code` for an entry that holds a client. */
  function CodeReply(signIn: CodeSignIn, saved: ExportOutcome): (r: Response)
    ensures r.SessionExported? <==> signIn.SignedIn? && saved.Exported?
    ensures r.SessionExported? ==> r.sessionString == saved.sessionString
    ensures r.Failed? <==> !r.SessionExported?
  {
    match signIn
    case PasswordNeeded => Failed(TwoFactorPasswordRequired)
    case PhoneCodeInvalid => Failed(InvalidVerificationCode)
    case PhoneCodeExpired => Failed(VerificationCodeExpired)
    case SignInRaised(d) => Failed(VerificationFailed(d))
    case SignedIn =>
      match saved
      case Exported(s) => SessionExported(s)
      case ExportRaised(d) => Failed(FailedToExportSessionString(d))
  }

  /** The reply of `async_submit_2fa` for an entry that holds a client. */
  function PasswordReply(signIn: PasswordSignIn, saved: ExportOutcome): (r: Response)
    ensures r.SessionExported? <==> signIn.PasswordAccepted? && saved.Exported?
    ensures r.SessionExported? ==> r.sessionString == saved.sessionString
    ensures signIn.PasswordRaised? ==> r == Failed(InvalidTwoFactorPassword)
  {
    match signIn
    case PasswordRaised => Failed(InvalidTwoFactorPassword)
    case PasswordAccepted =>
      match saved
      case Exported(s) => SessionExported(s)
      case ExportRaised(d) => Failed(FailedToExportSession(d))
  }

  // ---------------------------------------------------------------------
  // The table
  // ---------------------------------------------------------------------

  /**
   * `active_sessions`, with a record of the clients a disconnect was
   * attempted on (`client.disconnect()`; its own failures are swallowed).
   */
  class SessionTable {
    var sessions: map<string, Record>
    var disconnected: set<ClientId>

    ghost predicate Valid()
      reads this
    {
      Owned(sessions, disconnected)
    }

    constructor ()
      ensures Valid()
      ensures sessions == map[] && disconnected == {}
    {
      sessions := map[];
      disconnected := {};
    }

    /** `cleanup_session`: disconnect the entry's client, if any, and delete the entry, if any. */
    method Cleanup(sid: string)
      requires Valid()
      modifies this
      ensures Valid()
      ensures sessions == old(sessions) - {sid}
      ensures disconnected == old(disconnected) + ClientsOf(old(sessions), {sid})
    {
      if sid !in sessions {
        assert ClientsOf(sessions, {sid}) == {};
        return;
      }
      RemovePreservesOwned(sessions, disconnected, {sid});
      var client := sessions[sid].client;
      if client.Some? {
        assert ClientsOf(sessions, {sid}) == {client.value};
        disconnected := disconnected + {client.value};
      } else {
        assert ClientsOf(sessions, {sid}) == {};
      }
      sessions := sessions - {sid};
    }

    /** The list comprehension of `expire_old_sessions`: the handles of the entries expired at `now`. */
    method ExpiredIds(now: int) returns (expired: seq<string>)
      ensures forall sid :: sid in expired <==> sid in sessions && Expired(sessions[sid], now)
      ensures forall i, j :: 0 <= i < j < |expired| ==> expired[i] != expired[j]
    {
      expired := [];
      var rest := sessions.Keys;
      while rest != {}
        invariant rest <= sessions.Keys
        invariant forall sid :: sid in expired <==> sid in sessions && sid !in rest && Expired(sessions[sid], now)
        invariant forall i, j :: 0 <= i < j < |expired| ==> expired[i] != expired[j]
        decreases rest
      {
        var sid :| sid in rest;
        if Expired(sessions[sid], now) {
          expired := expired + [sid];
        }
        rest := rest - {sid};
      }
    }

    /** `expire_old_sessions`: clean up every entry older than `Ttl` seconds at `now`. */
    method ExpireOldSessions(now: int)
      requires Valid()
      modifies this
      ensures Valid()
      ensures sessions == Swept(old(sessions), now)
      ensures disconnected == SweptDisconnected(old(sessions), old(disconnected), now)
    {
      var expired := ExpiredIds(now);
      ghost var m0, c0 := sessions, disconnected;
      for i := 0 to |expired|
        invariant Valid()
        invariant sessions == m0 - set j | 0 <= j < i :: expired[j]
        invariant disconnected == c0 + ClientsOf(m0, set j | 0 <= j < i :: expired[j])
      {
        ghost var done := set j | 0 <= j < i :: expired[j];
        assert expired[i] !in done;
        Cleanup(expired[i]);
        assert (set j | 0 <= j < i + 1 :: expired[j]) == done + {expired[i]};
        ClientsOfRemoved(m0, done, expired[i]);
      }
      assert (set j | 0 <= j < |expired| :: expired[j]) == ExpiredHandles(m0, now);
    }

    /**
     * The outcome handling of `async_send_code` for handle `sid`, with
     * `client` the client it constructed.
     */
    method SendCode(apiId: int, apiHash: string, phone: string, sid: string, client: ClientId, now: int,
                    connect: ConnectOutcome, send: SendOutcome) returns (r: Response)
      requires Valid() && FreshClient(sessions, disconnected, client)
      modifies this
      ensures Valid()
      ensures r == SendCodeReply(connect, send, sid)
      ensures r.CodeSent? ==>
        && sessions == old(sessions)[sid := NewRecord(client, apiId, apiHash, phone, send.phoneCodeHash, now)]
        && disconnected == old(disconnected)
      ensures !r.CodeSent? ==> sessions == old(sessions) && disconnected == old(disconnected) + {client}
    {
      if connect.ConnectRaised? {
        disconnected := disconnected + {client};
        return Failed(FailedToConnect(connect.detail));
      }
      match send
      case ApiIdInvalid =>
        disconnected := disconnected + {client};
        r := Failed(InvalidApiId);
      case PhoneNumberInvalid =>
        disconnected := disconnected + {client};
        r := Failed(InvalidPhoneNumber);
      case SendRaised(d) =>
        disconnected := disconnected + {client};
        r := Failed(FailedToSendCode(d));
      case CodeRequested(hash) =>
        InsertPreservesOwned(sessions, disconnected, sid, NewRecord(client, apiId, apiHash, phone, hash, now));
        sessions := sessions[sid := NewRecord(client, apiId, apiHash, phone, hash, now)];
        r := CodeSent(sid);
    }

    /** The outcome handling of `async_verify_code` for handle `sid`. */
    method VerifyCode(sid: string, signIn: CodeSignIn, saved: ExportOutcome) returns (r: Response)
      requires Valid()
      modifies this
      ensures Valid()
      ensures sid !in old(sessions) ==> r == Failed(SessionExpiredStartOver)
      ensures sid in old(sessions) && !HasClient(old(sessions), sid) ==> r == Failed(MissingClient)
      ensures HasClient(old(sessions), sid) ==> r == CodeReply(signIn, saved)
      ensures HasClient(old(sessions), sid) && signIn.SignedIn? ==>
        && sessions == old(sessions) - {sid}
        && disconnected == old(disconnected) + {old(sessions)[sid].client.value}
      ensures !(HasClient(old(sessions), sid) && signIn.SignedIn?) ==>
        sessions == old(sessions) && disconnected == old(disconnected)
    {
      if sid !in sessions {
        return Failed(SessionExpiredStartOver);
      }
      var client := sessions[sid].client;
      if client.None? {
        return Failed(MissingClient);
      }
      match signIn
      case PasswordNeeded =>
        return Failed(TwoFactorPasswordRequired);
      case PhoneCodeInvalid =>
        return Failed(InvalidVerificationCode);
      case PhoneCodeExpired =>
        return Failed(VerificationCodeExpired);
      case SignInRaised(d) =>
        return Failed(VerificationFailed(d));
      case SignedIn =>
      match saved
      case ExportRaised(d) =>
        // `client.disconnect()`, then `cleanup_session`, which disconnects the same client again
        Cleanup(sid);
        r := Failed(FailedToExportSessionString(d));
      case Exported(s) =>
        // `client.disconnect()`, then `cleanup_session`, which disconnects the same client again
        Cleanup(sid);
        r := SessionExported(s);
    }
    /** The outcome handling of `async_submit_2fa` for handle `sid`. */
    method SubmitPassword(sid: string, signIn: PasswordSignIn, saved: ExportOutcome) returns (r: Response)
      requires Valid()
      modifies this
      ensures Valid()
      ensures sid !in old(sessions) ==> r == Failed(SessionExpiredStartOver)
      ensures sid in old(sessions) && !HasClient(old(sessions), sid) ==> r == Failed(MissingClient)
      ensures HasClient(old(sessions), sid) ==> r == PasswordReply(signIn, saved)
      ensures HasClient(old(sessions), sid) && signIn.PasswordAccepted? ==>
        && sessions == old(sessions) - {sid}
        && disconnected == old(disconnected) + {old(sessions)[sid].client.value}
      ensures !(HasClient(old(sessions), sid) && signIn.PasswordAccepted?) ==>
        sessions == old(sessions) && disconnected == old(disconnected)
    {
      if sid !in sessions {
        return Failed(SessionExpiredStartOver);
      }
      if sessions[sid].client.None? {
        return Failed(MissingClient);
      }
      if signIn.PasswordRaised? {
        return Failed(InvalidTwoFactorPassword);
      }
      match saved
      case ExportRaised(d) =>
        // `client.disconnect()`, then `cleanup_session`, which disconnects the same client again
        Cleanup(sid);
        r := Failed(FailedToExportSession(d));
      case Exported(s) =>
        Cleanup(sid);
        r := SessionExported(s);
    }
  }

  // ---------------------------------------------------------------------
  // Lemmas about the table's invariant
  // ---------------------------------------------------------------------

  /** Deleting entries and disconnecting their clients keeps every other client owned and connected. */
  lemma RemovePreservesOwned(m: map<string, Record>, disconnected: set<ClientId>, handles: set<string>)
    requires Owned(m, disconnected)
    ensures Owned(m - handles, disconnected + ClientsOf(m, handles))
  {
  }

  /** Storing a record whose client is fresh keeps the invariant. */
  lemma InsertPreservesOwned(m: map<string, Record>, disconnected: set<ClientId>, sid: string, r: Record)
    requires Owned(m, disconnected)
    requires r.client.Some? && FreshClient(m, disconnected, r.client.value)
    ensures Owned(m[sid := r], disconnected)
  {
  }

  lemma ClientsOfRemoved(m: map<string, Record>, done: set<string>, sid: string)
    requires sid !in done
    ensures ClientsOf(m, done) + ClientsOf(m - done, {sid}) == ClientsOf(m, done + {sid})
  {
  }

  // ---------------------------------------------------------------------
  // Lemmas about the sweep
  // ---------------------------------------------------------------------

  /**
   * A sweep keeps exactly the entries at most `Ttl` seconds old, unchanged;
   * an entry without a creation time counts as created at time 0.
   */
  lemma SweepKeepsExactly(m: map<string, Record>, now: int, sid: string)
    ensures sid in Swept(m, now) <==> sid in m && now - m[sid].createdAt.GetOr(0) <= 600
    ensures sid in Swept(m, now) ==> Swept(m, now)[sid] == m[sid]
  {
  }

  /** What survives a sweep is not expired at the sweep's time. */
  lemma SweptHoldsNoExpired(m: map<string, Record>, now: int)
    ensures forall sid :: sid in Swept(m, now) ==> !Expired(Swept(m, now)[sid], now)
  {
  }

  /** Sweeping at `t1` and then at a later `t2` leaves what one sweep at `t2` leaves. */
  lemma SweepsCompose(m: map<string, Record>, t1: int, t2: int)
    requires t1 <= t2
    ensures Swept(Swept(m, t1), t2) == Swept(m, t2)
  {
  }

  /** A second sweep at the same time removes nothing. */
  lemma SweepIdempotent(m: map<string, Record>, now: int)
    ensures Swept(Swept(m, now), now) == Swept(m, now)
  {
  }

  // ---------------------------------------------------------------------
  // Lemmas about the replies
  // ---------------------------------------------------------------------

  /**
   * The four ways `sign_in` with a code can fail give four different
   * error texts, so a caller can tell them apart (and two unexpected
   * exceptions apart by their text).
   */
  lemma CodeFailuresDistinguishable(s1: CodeSignIn, e1: ExportOutcome, s2: CodeSignIn, e2: ExportOutcome)
    requires !s1.SignedIn? && !s2.SignedIn?
    requires Message(CodeReply(s1, e1).error) == Message(CodeReply(s2, e2).error)
    ensures s1 == s2
  {
    MessageInjective(CodeReply(s1, e1).error, CodeReply(s2, e2).error);
  }

  /**
   * The front end moves to the password step exactly when `sign_in`
   * asked for the second-factor password.
   */
  lemma SecondFactorSignalledOnlyWhenNeeded(s: CodeSignIn, e: ExportOutcome)
    ensures CodeReply(s, e).Failed? && Message(CodeReply(s, e).error) == "2FA password required"
        <==> s == PasswordNeeded
  {
    if CodeReply(s, e).Failed? {
      SecondFactorSignalUnambiguous(CodeReply(s, e).error);
    }
  }
}
