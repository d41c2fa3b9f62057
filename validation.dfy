/**
 * What the three routes check before they touch the session table: the
 * request body, Python truthiness of its fields and `int(api_id)`.
 */
module Validation {
  import opened Wrappers
  import opened Responses

  /**
   * A request body: a JSON object whose fields are strings, or a body from
   * which `request.get_json()` yields no object (the exception text is
   * `detail`). A field whose JSON value is `null` is absent from `fields`.
   */
  datatype Request = Json(fields: map<string, string>) | NotJson(detail: string)

  /** `data.get(key)` */
  function Field(fields: map<string, string>, key: string): Option<string> {
    if key in fields then Some(fields[key]) else None
  }

  /** Python truthiness of a field value: present and not the empty string. */
  predicate Truthy(v: Option<string>) {
    v.Some? && v.value != ""
  }

  // ---------------------------------------------------------------------
  // int(s) for a string s
  // ---------------------------------------------------------------------

  /**
   * The characters `int` strips around an ASCII numeral: space, tab, line
   * feed, vertical tab, form feed and carriage return. The separators
   * U+001C..U+001F count as whitespace for `str.isspace` but not here.
   */
  predicate IsSpace(c: char) {
    c == ' ' || '\t' <= c <= '\r'
  }

  predicate IsDigit(c: char) {
    '0' <= c <= '9'
  }

  function DigitValue(c: char): nat {
    if IsDigit(c) then (c as int) - ('0' as int) else 0
  }

  /** `s` without its leading whitespace. */
  function StripLeft(s: string): (r: string)
    ensures |r| <= |s| && r == s[|s| - |r|..]
    ensures r == [] || !IsSpace(r[0])
  {
    if |s| > 0 && IsSpace(s[0]) then StripLeft(s[1..]) else s
  }

  /** `s` without its trailing whitespace. */
  function StripRight(s: string): (r: string)
    ensures |r| <= |s| && r == s[..|r|]
    ensures r == [] || !IsSpace(r[|r| - 1])
  {
    if |s| > 0 && IsSpace(s[|s| - 1]) then StripRight(s[..|s| - 1]) else s
  }

  function Strip(s: string): string {
    StripRight(StripLeft(s))
  }

  /**
   * A run of decimal digits in which single underscores may separate two
   * digits: "600", "1_000", but not "", "_1", "1_" or "1__0". Read from the
   * right: a digit, preceded by a shorter run, by "_" and a shorter run, or
   * by nothing.
   */
  predicate IsDigitRun(s: string): (b: bool)
    ensures b ==> |s| > 0 && IsDigit(s[0]) && IsDigit(s[|s| - 1])
  {
    && |s| > 0
    && IsDigit(s[|s| - 1])
    && (|| |s| == 1
        || IsDigitRun(s[..|s| - 1])
        || (|s| > 2 && s[|s| - 2] == '_' && IsDigitRun(s[..|s| - 2])))
  }

  /** The value of a digit run, underscores skipped. */
  function DigitsValue(s: string): nat {
    if s == [] then 0
    else if s[|s| - 1] == '_' then DigitsValue(s[..|s| - 1])
    else DigitsValue(s[..|s| - 1]) * 10 + DigitValue(s[|s| - 1])
  }

  /**
   * `int(s)` in base 10: surrounding whitespace, an optional sign, then a
   * digit run. `None` is the `ValueError` case.
   */
  function ParseInt(s: string): Option<int> {
    ParseStripped(Strip(s))
  }

  /** `int` of a string that has already lost its surrounding whitespace. */
  function ParseStripped(t: string): Option<int> {
    if |t| > 0 && (t[0] == '+' || t[0] == '-') then
      if IsDigitRun(t[1..]) then
        var v: int := DigitsValue(t[1..]);
        Some(if t[0] == '-' then -v else v)
      else None
    else if IsDigitRun(t) then Some(DigitsValue(t))
    else None
  }

  /** The usual decimal numeral of `n`, as `str(n)` writes it. */
  function Numeral(n: int): string {
    if n < 0 then "-" + Digits(-n) else Digits(n)
  }

  /** The decimal digits of `n`, most significant first. */
  function Digits(n: nat): string {
    if n < 10 then [DigitChar(n)] else Digits(n / 10) + [DigitChar(n % 10)]
  }

  function DigitChar(d: nat): char
    requires d < 10
  {
    ('0' as int + d) as char
  }

  /** The digits of `n` form a digit run whose value is `n`. */
  lemma {:induction false} DigitsRoundTrip(n: nat)
    ensures IsDigitRun(Digits(n))
    ensures DigitsValue(Digits(n)) == n
  {
    if n >= 10 {
      DigitsRoundTrip(n / 10);
      var s := Digits(n);
      assert s[..|s| - 1] == Digits(n / 10);
    }
  }

  /** Stripping leaves a string alone that neither starts nor ends with whitespace. */
  lemma StripUnpadded(s: string)
    requires |s| > 0 && !IsSpace(s[0]) && !IsSpace(s[|s| - 1])
    ensures Strip(s) == s
  {
  }

  /** `int` refuses a string whose first character is neither whitespace, a sign nor a digit. */
  lemma ParseIntRejectsBadStart(s: string)
    requires |s| > 0 && !IsSpace(s[0]) && !IsDigit(s[0]) && s[0] != '+' && s[0] != '-'
    ensures ParseInt(s) == None
  {
    assert StripLeft(s) == s;
    var t := Strip(s);
    assert t == s[..|t|];
  }

  /**
   * `int` reads back every integer's numeral, negative ones included:
   * nothing in the check of `api_id` asks for a positive number.
   */
  lemma ParseIntNumeral(n: int)
    ensures ParseInt(Numeral(n)) == Some(n)
  {
    if n < 0 {
      var m: nat := -n;
      assert Numeral(n) == "-" + Digits(m);
      ParseIntNegative(m);
    } else {
      ParseIntDigitRun(n);
    }
  }

  /** `int` reads back the unsigned numeral of `n`. */
  lemma ParseIntDigitRun(n: nat)
    ensures ParseInt(Digits(n)) == Some(n)
  {
    DigitsRoundTrip(n);
    ParseDigitRun(Digits(n), n);
  }

  /** `int` reads back "-" followed by the digits of `n`. */
  lemma ParseIntNegative(n: nat)
    ensures ParseInt("-" + Digits(n)) == Some(-(n as int))
  {
    DigitsRoundTrip(n);
    ParseNegativeDigitRun(Digits(n), n);
  }

  /** A digit run worth `n` parses to `n`. */
  lemma ParseDigitRun(d: string, n: nat)
    requires IsDigitRun(d) && DigitsValue(d) == n
    ensures ParseInt(d) == Some(n)
  {
    StripUnpadded(d);
  }

  /** "-" followed by a digit run worth `n` parses to `-n`. */
  lemma ParseNegativeDigitRun(d: string, n: nat)
    requires IsDigitRun(d) && DigitsValue(d) == n
    ensures ParseInt("-" + d) == Some(-(n as int))
  {
    var s := "-" + d;
    assert s[1..] == d && s[|s| - 1] == d[|d| - 1];
    StripUnpadded(s);
  }

  /** Only a non-empty string can hold a number. */
  lemma ParsedIsNonEmpty(s: string)
    requires ParseInt(s).Some?
    ensures s != ""
  {
  }

  // ---------------------------------------------------------------------
  // Field checks of the routes
  // ---------------------------------------------------------------------

  datatype SendCodeArgs = SendCodeArgs(apiId: int, apiHash: string, phone: string)

  /** The field checks of `/send_code`, in the order the route makes them. */
  function CheckSendCode(fields: map<string, string>): (r: Result<SendCodeArgs, Error>)
    ensures r == Failure(AllFieldsRequired) <==>
      !(Truthy(Field(fields, "api_id")) && Truthy(Field(fields, "api_hash")) && Truthy(Field(fields, "phone_number")))
    ensures r == Failure(ApiIdNotNumber) <==> !r.Success? && r != Failure(AllFieldsRequired)
    ensures r.Success? ==>
      && Truthy(Field(fields, "api_hash")) && Truthy(Field(fields, "phone_number"))
      && ParseInt(fields["api_id"]) == Some(r.value.apiId)
      && r.value.apiHash == fields["api_hash"] && r.value.phone == fields["phone_number"]
    ensures Truthy(Field(fields, "api_id")) && Truthy(Field(fields, "api_hash")) && Truthy(Field(fields, "phone_number"))
      ==> (r.Success? <==> ParseInt(fields["api_id"]).Some?)
  {
    var apiId, apiHash, phone := Field(fields, "api_id"), Field(fields, "api_hash"), Field(fields, "phone_number");
    if !(Truthy(apiId) && Truthy(apiHash) && Truthy(phone)) then Failure(AllFieldsRequired)
    else match ParseInt(apiId.value)
      case None => Failure(ApiIdNotNumber)
      case Some(n) => Success(SendCodeArgs(n, apiHash.value, phone.value))
  }

  /** A session handle and the secret submitted with it (a code or a password). */
  datatype Submission = Submission(sessionId: string, secret: string)

  /** The field check of `/verify_code` (`secretKey` "phone_code") and `/submit_2fa` ("password"). */
  function CheckSubmission(fields: map<string, string>, secretKey: string): (r: Result<Submission, Error>)
    ensures r.Failure? <==> !(Truthy(Field(fields, "session_id")) && Truthy(Field(fields, secretKey)))
    ensures r.Failure? ==> r.error == AllFieldsRequired
    ensures r.Success? ==> r.value == Submission(fields["session_id"], fields[secretKey])
  {
    var sessionId, secret := Field(fields, "session_id"), Field(fields, secretKey);
    if !(Truthy(sessionId) && Truthy(secret)) then Failure(AllFieldsRequired)
    else Success(Submission(sessionId.value, secret.value))
  }
}
