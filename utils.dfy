/** Helpers shared by every service client (pkg/utils/utils.go): phone-number
    normalisation, the classification of an HTTP exchange into a response or an
    error, and the message of the insufficient-session error. */
module Utils {
  import opened Wrappers

  // ---------------------------------------------------------------------------
  // Phone-number normalisation
  // ---------------------------------------------------------------------------

  /** A character the pattern `[0-9]` matches. */
  predicate IsDigit(c: char)
  {
    '0' <= c <= '9'
  }

  /** `s` with every character that is not a decimal digit removed. The result
      holds only digits, and each digit occurs in it exactly as often as in `s`. */
  function Digits(s: string): (d: string)
    ensures forall i :: 0 <= i < |d| ==> IsDigit(d[i])
    ensures forall c {:trigger multiset(d)[c]} :: multiset(d)[c] == if IsDigit(c) then multiset(s)[c] else 0
    decreases |s|
  {
    if |s| == 0 then ""
    else
      assert s == [s[0]] + s[1..];
      (if IsDigit(s[0]) then [s[0]] else "") + Digits(s[1..])
  }

  /** `FormatPhoneNumber`: a "+" followed by the decimal digits of the input, every
      other character dropped. So the length is one plus the number of digits. */
  function FormatPhoneNumber(phoneNumber: string): (r: string)
    ensures |r| >= 1 && r[0] == '+'
    ensures forall i :: 1 <= i < |r| ==> IsDigit(r[i])
    ensures forall c {:trigger multiset(r[1..])[c]} :: multiset(r[1..])[c] == if IsDigit(c) then multiset(phoneNumber)[c] else 0
  {
    var r := "+" + Digits(phoneNumber);
    assert r[1..] == Digits(phoneNumber);
    r
  }

  /** Removing non-digits distributes over concatenation: digits keep their order. */
  lemma {:induction false} DigitsConcat(a: string, b: string)
    ensures Digits(a + b) == Digits(a) + Digits(b)
    decreases |a|
  {
    if |a| == 0 {
      assert a + b == b;
    } else {
      assert (a + b)[0] == a[0];
      assert (a + b)[1..] == a[1..] + b;
      DigitsConcat(a[1..], b);
    }
  }

  /** The digits of a concatenation are those of the first part followed by those
      of the second: the order of the input's digits is kept. */
  lemma FormatPhoneNumberConcat(a: string, b: string)
    ensures FormatPhoneNumber(a + b) == FormatPhoneNumber(a) + FormatPhoneNumber(b)[1..]
  {
    var da, db := Digits(a), Digits(b);
    DigitsConcat(a, b);
    assert FormatPhoneNumber(a + b) == "+" + (da + db);
    assert FormatPhoneNumber(a) == "+" + da;
    assert FormatPhoneNumber(b)[1..] == db;
    assert "+" + (da + db) == ("+" + da) + db;
  }

  /** A string of digits only has nothing to remove. */
  lemma {:induction false} DigitsOfDigitString(s: string)
    requires forall i :: 0 <= i < |s| ==> IsDigit(s[i])
    ensures Digits(s) == s
    decreases |s|
  {
    if |s| > 0 {
      DigitsOfDigitString(s[1..]);
      assert s == [s[0]] + s[1..];
    }
  }

  /** Normalising twice is normalising once. */
  lemma FormatPhoneNumberIdempotent(phoneNumber: string)
    ensures FormatPhoneNumber(FormatPhoneNumber(phoneNumber)) == FormatPhoneNumber(phoneNumber)
  {
    var d := Digits(phoneNumber);
    DigitsOfDigitString(d);
    assert ("+" + d)[1..] == d;
    assert Digits("+" + d) == d;
  }

  // ---------------------------------------------------------------------------
  // The insufficient-session error
  // ---------------------------------------------------------------------------

  const DefaultSessionMessage := "Session is required for this request"

  /** `InsufficientSessionError`: the scope levels held and needed, if known, and
      an optional message. */
  datatype InsufficientSessionError = InsufficientSessionError(have: Option<int>, need: Option<int>, message: string)
  {
    /** `Error()`: the caller's message when there is one, otherwise the default;
        never empty. */
    function Error(): (msg: string)
      ensures message != "" ==> msg == message
      ensures message == "" ==> msg == DefaultSessionMessage
      ensures msg != ""
    {
      if message != "" then message else DefaultSessionMessage
    }
  }

  // ---------------------------------------------------------------------------
  // Requests and the classification of their outcome
  // ---------------------------------------------------------------------------

  /** The `Authorization` header: HTTP Basic over `"id:secret"` (RFC 7617 section 2;
      its base64 encoding is not modelled) or a bearer token. */
  datatype Authorization = Basic(userPass: string) | Bearer(token: string)

  /** A request body: form fields (`url.Values`) or the fields of a JSON object. */
  datatype Body = Form(fields: map<string, string>) | Json(fields: map<string, string>)

  const FormContentType := "application/x-www-form-urlencoded"
  const JsonContentType := "application/json"

  /** A request as `FetchX` receives it: URL, HTTP method, the two headers the services
      set, and the body. */
  datatype Request = Request(url: string, verb: string, contentType: string, authorization: Authorization, body: Body)

  /** What the network did with a request: it completed with a status and a fully
      read body, or it failed (bad URL, connection, body read). */
  datatype Exchange = Completed(statusCode: int, body: string) | Failed(cause: string)

  /** `FetchXResponse`: the body and the status of a completed request. */
  datatype FetchXResponse = FetchXResponse(data: string, statusCode: int)
  {
    /** `OK()`: the status is below 400. */
    predicate OK()
    {
      statusCode < 400
    }
  }

  /** The error `FetchX` returns: an HTTP error status with its body (`FetchError`),
      or the underlying transport error. */
  datatype FetchFailure = FetchError(statusCode: int, data: string) | TransportError(cause: string)

  /** `FetchX` after the exchange: a status of 400 or more is an error carrying the
      whole body, anything below is a response carrying the body; there is no
      third outcome for a completed exchange. */
  function FetchX(exchange: Exchange): (r: Result<FetchXResponse, FetchFailure>)
    ensures exchange.Failed? ==> r == Failure(TransportError(exchange.cause))
    ensures exchange.Completed? ==> (r.Success? <==> exchange.statusCode < 400)
    ensures r.Success? ==> r.value.OK() && r.value.data == exchange.body && r.value.statusCode == exchange.statusCode
    ensures r.Failure? && exchange.Completed? ==>
      r.error == FetchError(exchange.statusCode, exchange.body) && !FetchXResponse(exchange.body, exchange.statusCode).OK()
  {
    match exchange
    case Failed(cause) => Failure(TransportError(cause))
    case Completed(status, body) =>
      if status >= 400 then Failure(FetchError(status, body))
      else Success(FetchXResponse(body, status))
  }
}
