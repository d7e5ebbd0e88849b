/** What the client promises about the bodies it builds, the requests it
    sends and the way it reports their outcome, stated over the model in
    module Smartpings; and the calls of the repository's unit tests, restated as
    verified scenario methods over a transport that answers only the expected request. */
module SmartpingsProperties {
  import opened Wrappers
  import opened Json
  import opened Http
  import opened Smartpings
  import PhpArray
  import Sequences
  import Decimal

  /** Key by key, what `verifyContact` sends for the arguments `v`: None for
      a key it does not send. */
  function Sent(v: Verification, key: string): Option<Value>
  {
    if key == "type" then Some(Str(v.contactType))
    else if key == "phone" then (if v.contactType == "phone" then Some(Str(v.contact)) else None)
    else if key == "email" then (if v.contactType == "email" then Some(Str(v.contact)) else None)
    else if key == "code" then (if Truthy(v.code) then Some(Str(v.code.value)) else None)
    else if key == "name" then (if Truthy(v.name) then Some(Str(v.name.value)) else None)
    else if key == "redirectUrl" then (if Truthy(v.redirectUrl) then Some(Str(v.redirectUrl.value)) else None)
    else if key == "expirationMinutes" then
      (if v.expirationMinutes.Some? then Some(Int(v.expirationMinutes.value)) else None)
    else if key == "promoteToListIds" then
      (if v.promoteToListIds.Some? then Some(Ints(v.promoteToListIds.value)) else None)
    else None
  }

  /** The verify body holds, under each key, exactly what Sent says: `type`
      always; `phone` or `email` only for that contact type; `code`, `name`
      and `redirectUrl` exactly when they are truthy; `expirationMinutes` and
      `promoteToListIds` exactly when they are not null (so 0 and [] are
      sent), every value verbatim; and no other key. */
  lemma VerifyBodyFields(v: Verification, key: string)
    ensures PhpArray.Lookup(VerifyBody(v), key) == Sent(v, key)
  {
    var p0: Payload := [("type", Str(v.contactType))];
    var p1 := p0 + ContactEntry(v.contactType, v.contact);
    var p2 := p1 + TruthyEntry("code", v.code);
    var p3 := p2 + TruthyEntry("name", v.name);
    var p4 := p3 + TruthyEntry("redirectUrl", v.redirectUrl);
    var e5: Payload := if v.expirationMinutes.Some? then [("expirationMinutes", Int(v.expirationMinutes.value))] else [];
    var e6: Payload := if v.promoteToListIds.Some? then [("promoteToListIds", Ints(v.promoteToListIds.value))] else [];
    assert VerifyBody(v) == p4 + e5 + e6;
    PhpArray.LookupConcat(p0, ContactEntry(v.contactType, v.contact), key);
    PhpArray.LookupConcat(p1, TruthyEntry("code", v.code), key);
    PhpArray.LookupConcat(p2, TruthyEntry("name", v.name), key);
    PhpArray.LookupConcat(p3, TruthyEntry("redirectUrl", v.redirectUrl), key);
    PhpArray.LookupConcat(p4, e5, key);
    PhpArray.LookupConcat(p4 + e5, e6, key);
    // One key at a time, so that each case compares `key` with constants only.
    if key == "type" {
    } else if key == "phone" {
    } else if key == "email" {
    } else if key == "code" {
    } else if key == "name" {
    } else if key == "redirectUrl" {
    } else if key == "expirationMinutes" {
    } else if key == "promoteToListIds" {
    }
  }

  /** The verify body starts with `type`, stores no key twice, and its keys
      come in the order type, phone, email, code, name, redirectUrl,
      expirationMinutes, promoteToListIds, skipping the absent ones. */
  lemma VerifyBodyKeys(v: Verification)
    ensures var ks := PhpArray.Keys(VerifyBody(v));
            |ks| >= 1 && ks[0] == "type" &&
            Sequences.Distinct(ks) &&
            Sequences.Subsequence(ks, VerifyKeyOrder) &&
            (forall k :: k in ks ==> k in VerifyKeyOrder)
  {
    var ks := PhpArray.Keys(VerifyBody(v));
    AssignmentsAppend(v);
    VerifyKeyOrderDistinct();
    Sequences.SubsequenceDistinct(ks, VerifyKeyOrder);
    Sequences.SubsequenceMembers(ks, VerifyKeyOrder);
    assert VerifyBody(v)[0] == ("type", Str(v.contactType));
  }

  /** `sendPhoneVerification` sends the phone, never a code, an email or a
      redirect URL, and the name only when it is truthy. */
  lemma PhoneVerificationBody(phone: string, name: Option<string>, expirationMinutes: Option<int>,
                              promoteToListIds: Option<seq<int>>)
    ensures var b := VerifyBody(PhoneVerification(phone, name, expirationMinutes, promoteToListIds));
            PhpArray.Lookup(b, "type") == Some(Str("phone")) &&
            PhpArray.Lookup(b, "phone") == Some(Str(phone)) &&
            PhpArray.Lookup(b, "email") == None &&
            PhpArray.Lookup(b, "code") == None &&
            PhpArray.Lookup(b, "redirectUrl") == None &&
            (PhpArray.Lookup(b, "name").Some? <==> Truthy(name))
  {
    var v := PhoneVerification(phone, name, expirationMinutes, promoteToListIds);
    VerifyBodyFields(v, "type");
    VerifyBodyFields(v, "phone");
    VerifyBodyFields(v, "email");
    VerifyBodyFields(v, "code");
    VerifyBodyFields(v, "redirectUrl");
    VerifyBodyFields(v, "name");
  }

  /** `sendEmailVerification` sends the address, never a code or a phone,
      and the redirect URL only when it is truthy. */
  lemma EmailVerificationBody(email: string, name: Option<string>, redirectUrl: Option<string>,
                              expirationMinutes: Option<int>, promoteToListIds: Option<seq<int>>)
    ensures var b := VerifyBody(EmailVerification(email, name, redirectUrl, expirationMinutes, promoteToListIds));
            PhpArray.Lookup(b, "type") == Some(Str("email")) &&
            PhpArray.Lookup(b, "email") == Some(Str(email)) &&
            PhpArray.Lookup(b, "phone") == None &&
            PhpArray.Lookup(b, "code") == None &&
            (PhpArray.Lookup(b, "redirectUrl").Some? <==> Truthy(redirectUrl))
  {
    var v := EmailVerification(email, name, redirectUrl, expirationMinutes, promoteToListIds);
    VerifyBodyFields(v, "type");
    VerifyBodyFields(v, "email");
    VerifyBodyFields(v, "phone");
    VerifyBodyFields(v, "code");
    VerifyBodyFields(v, "redirectUrl");
  }

  /** `verifyPhoneWithCode` sends the type, the phone and the code when it is
      truthy, and nothing else. */
  lemma PhoneWithCodeBody(phone: string, code: string, key: string)
    ensures var b := VerifyBody(PhoneWithCode(phone, code));
            PhpArray.Lookup(b, "phone") == Some(Str(phone)) &&
            (PhpArray.Lookup(b, "code").Some? <==> code != "" && code != "0") &&
            (key != "type" && key != "phone" && key != "code" ==> PhpArray.Lookup(b, key) == None)
  {
    VerifyBodyFields(PhoneWithCode(phone, code), "phone");
    VerifyBodyFields(PhoneWithCode(phone, code), "code");
    VerifyBodyFields(PhoneWithCode(phone, code), key);
  }

  /** `verifyEmailWithCode` sends the type, the address and the code when it
      is truthy, and nothing else. */
  lemma EmailWithCodeBody(email: string, code: string, key: string)
    ensures var b := VerifyBody(EmailWithCode(email, code));
            PhpArray.Lookup(b, "email") == Some(Str(email)) &&
            (PhpArray.Lookup(b, "code").Some? <==> code != "" && code != "0") &&
            (key != "type" && key != "email" && key != "code" ==> PhpArray.Lookup(b, key) == None)
  {
    VerifyBodyFields(EmailWithCode(email, code), "email");
    VerifyBodyFields(EmailWithCode(email, code), "code");
    VerifyBodyFields(EmailWithCode(email, code), key);
  }

  /** The SMS body is exactly {message, destination}; a single recipient
      becomes a one-element list and a list is passed on as it is. */
  lemma SmsBodyFields(message: string, phones: Recipients)
    ensures var d := Destination(phones);
            var b := SmsBody(message, d);
            PhpArray.Keys(b) == ["message", "destination"] &&
            PhpArray.Lookup(b, "message") == Some(Str(message)) &&
            PhpArray.Lookup(b, "destination") == Some(Strs(d)) &&
            (phones.One? ==> d == [phones.phone]) &&
            (phones.Many? ==> d == phones.phones)
  {
  }

  /** Every request goes to the endpoint root and the path joined as they
      are, with the payload as body and exactly the four fixed headers. */
  lemma RequestShape(cfg: Config, httpMethod: string, uri: string, data: Payload, name: string)
    ensures var r := BuildRequest(cfg, httpMethod, uri, data);
            r.httpMethod == httpMethod && r.uri == cfg.apiUrl + uri && r.body == Some(data) &&
            |r.headers| == 4 &&
            HeaderValues(r.headers, "Content-Type") == ["application/json"] &&
            HeaderValues(r.headers, "Accept") == ["application/json"] &&
            HeaderValues(r.headers, "X-client-id") == [cfg.clientId] &&
            HeaderValues(r.headers, "X-secret-id") == [cfg.secretId] &&
            (name != "Content-Type" && name != "Accept" && name != "X-client-id" && name != "X-secret-id"
             ==> HeaderValues(r.headers, name) == [])
  {
    var hs := BuildRequest(cfg, httpMethod, uri, data).headers;
    if name != "Content-Type" && name != "Accept" && name != "X-client-id" && name != "X-secret-id" {
      HeaderValuesAbsent(hs, name);
    }
    HeaderValuesSingle(hs, 0);
    HeaderValuesSingle(hs, 1);
    HeaderValuesSingle(hs, 2);
    HeaderValuesSingle(hs, 3);
  }

  /** No separator is inserted: the endpoint root of the unit tests, which
      has no trailing slash, runs straight into the path. */
  lemma JoinedUrls(data: Payload)
    ensures BuildRequest(Config("https://example.com", "test-client-id", "test-secret-id"),
                         "POST", MessageUri, data).uri == "https://example.comv1/ping/message"
    ensures BuildRequest(Config(DefaultApiUrl, "id", "secret"), "POST", VerifyUri, data).uri
            == "https://api.smartpings.com/api/v1/ping/verify"
  {
  }

  /** A 2xx response is handed back unchanged and nothing is logged. */
  lemma SuccessPassesThrough(response: Response, errorMessage: string, hasLogger: bool, context: Payload)
    requires IsSuccess(response.status)
    ensures Exchange(Delivered(response), errorMessage) == Ok(response)
    ensures ExchangeLog(hasLogger, Delivered(response), errorMessage, context) == []
  {
  }

  /** Any other status fails with "<errorMessage>. Status: <status>", whose
      tail reads back as the status, after exactly one error entry holding the
      context with the status and the body merged in, when a logger is set. */
  lemma FailureReported(response: Response, errorMessage: string, hasLogger: bool, context: Payload)
    requires !IsSuccess(response.status)
    ensures var r := Exchange(Delivered(response), errorMessage);
            var n := |errorMessage|;
            r.Failed? && |r.message| > n + 10 &&
            r.message[..n] == errorMessage &&
            r.message[n..n + 10] == ". Status: " &&
            Decimal.ParseInt(r.message[n + 10..]) == response.status
    ensures ExchangeLog(hasLogger, Delivered(response), errorMessage, context)
            == if hasLogger then [Error(errorMessage, FailureContext(context, response))] else []
  {
    var m := FailureMessage(errorMessage, response.status);
    var digits := Decimal.IntToString(response.status);
    assert m == errorMessage + ". Status: " + digits;
    assert m[|errorMessage| + 10..] == digits;
    Decimal.IntToStringRoundTrip(response.status);
  }

  /** An exception of the transport is passed on as it is, and nothing is logged. */
  lemma TransportErrorPassesThrough(cause: string, errorMessage: string, hasLogger: bool, context: Payload)
    ensures Exchange(TransportError(cause), errorMessage) == TransportFailed(cause)
    ensures ExchangeLog(hasLogger, TransportError(cause), errorMessage, context) == []
  {
  }

  /** The logged context answers `status` and `response` from the response
      and every other key from the call's context. */
  lemma FailureContextFields(context: Payload, response: Response, key: string)
    ensures PhpArray.Lookup(FailureContext(context, response), key)
            == if key == "status" then Some(Int(response.status))
               else if key == "response" then Some(Str(response.body))
               else PhpArray.Lookup(context, key)
  {
    var extra: Payload := [("status", Int(response.status)), ("response", Str(response.body))];
    assert PhpArray.Keys(extra) == ["status", "response"];
    PhpArray.MergeLookup(context, extra, key);
  }

  /** A failed verification logs `contact`, `type`, `status` and `response`, in that order. */
  lemma VerifyFailureContext(v: Verification, response: Response)
    ensures FailureContext(VerifyContext(v), response)
            == [("contact", Str(v.contact)), ("type", Str(v.contactType)),
                ("status", Int(response.status)), ("response", Str(response.body))]
  {
    assert PhpArray.Keys(VerifyContext(v)) == ["contact", "type"];
    PhpArray.MergeAppendsPair(VerifyContext(v), ("status", Int(response.status)), ("response", Str(response.body)));
  }

  /** A failed SMS logs `phones`, `message`, `status` and `response`, in that order. */
  lemma SmsFailureContext(message: string, destination: seq<string>, response: Response)
    ensures FailureContext(SmsContext(message, destination), response)
            == [("phones", Strs(destination)), ("message", Str(message)),
                ("status", Int(response.status)), ("response", Str(response.body))]
  {
    assert PhpArray.Keys(SmsContext(message, destination)) == ["phones", "message"];
    PhpArray.MergeAppendsPair(SmsContext(message, destination), ("status", Int(response.status)),
                              ("response", Str(response.body)));
  }

  const TestApiUrl: string := "https://example.com"
  const Success: Response := Response(200, "{\"status\":\"success\"}")

  /** The headers every request of the unit tests carries. */
  const TestHeaders: seq<Header> :=
    [("Content-Type", "application/json"), ("Accept", "application/json"),
     ("X-client-id", "test-client-id"), ("X-secret-id", "test-secret-id")]

  /** A transport that answers 200 to exactly one request and 500 to any other. */
  function AnswersOnly(expected: Request): Request -> TransportResult
  {
    (req: Request) => if req == expected then Delivered(Success) else Delivered(Response(500, ""))
  }

  /** The single-recipient SMS of the unit tests reaches the joined URL with
      a one-element destination list. */
  method SingleSmsScenario() returns (r: Outcome)
    ensures r == Ok(Success)
  {
    var service := new Service(Config(TestApiUrl, "test-client-id", "test-secret-id"));
    var expected := Request("POST", "https://example.comv1/ping/message", TestHeaders,
                            Some([("message", Str("Test message")), ("destination", Strs(["+15551234567"]))]));
    r := service.SendSms("Test message", One("+15551234567"), AnswersOnly(expected));
  }

  /** The two-recipient SMS of the unit tests sends both numbers in order. */
  method MultipleSmsScenario() returns (r: Outcome)
    ensures r == Ok(Success)
  {
    var service := new Service(Config(TestApiUrl, "test-client-id", "test-secret-id"));
    var expected := Request("POST", "https://example.comv1/ping/message", TestHeaders,
                            Some([("message", Str("Test message")),
                                  ("destination", Strs(["+15551234567", "+15557654321"]))]));
    r := service.SendSms("Test message", Many(["+15551234567", "+15557654321"]), AnswersOnly(expected));
  }

  /** The phone verification with custom expiration and lists of the unit
      tests sends type, phone, name, expirationMinutes and promoteToListIds. */
  method CustomExpirationScenario() returns (r: Outcome)
    ensures r == Ok(Success)
  {
    var service := new Service(Config(TestApiUrl, "test-client-id", "test-secret-id"));
    var body: Payload := [("type", Str("phone")), ("phone", Str("+15551234567")), ("name", Str("John Doe")),
                          ("expirationMinutes", Int(10)), ("promoteToListIds", Ints([1, 2, 3]))];
    assert VerifyBody(PhoneVerification("+15551234567", Some("John Doe"), Some(10), Some([1, 2, 3]))) == body;
    var expected := Request("POST", "https://example.comv1/ping/verify", TestHeaders, Some(body));
    assert BuildRequest(service.config, "POST", VerifyUri, body) == expected;
    r := service.SendPhoneVerification("+15551234567", Some("John Doe"), Some(10), Some([1, 2, 3]),
                                       AnswersOnly(expected));
  }

  /** The phone verification of the unit tests sends type, phone and name. */
  method PhoneVerificationScenario() returns (r: Outcome)
    ensures r == Ok(Success)
  {
    var service := new Service(Config(TestApiUrl, "test-client-id", "test-secret-id"));
    var body: Payload := [("type", Str("phone")), ("phone", Str("+15551234567")), ("name", Str("John Doe"))];
    assert VerifyBody(PhoneVerification("+15551234567", Some("John Doe"), None, None)) == body;
    var expected := Request("POST", "https://example.comv1/ping/verify", TestHeaders, Some(body));
    assert BuildRequest(service.config, "POST", VerifyUri, body) == expected;
    r := service.SendPhoneVerification("+15551234567", Some("John Doe"), None, None, AnswersOnly(expected));
  }

  /** The phone code check of the unit tests sends type, phone and code. */
  method PhoneCodeScenario() returns (r: Outcome)
    ensures r == Ok(Success)
  {
    var service := new Service(Config(TestApiUrl, "test-client-id", "test-secret-id"));
    var body: Payload := [("type", Str("phone")), ("phone", Str("+15551234567")), ("code", Str("123456"))];
    assert VerifyBody(PhoneWithCode("+15551234567", "123456")) == body;
    var expected := Request("POST", "https://example.comv1/ping/verify", TestHeaders, Some(body));
    assert BuildRequest(service.config, "POST", VerifyUri, body) == expected;
    r := service.VerifyPhoneWithCode("+15551234567", "123456", AnswersOnly(expected));
  }

  /** The email verification of the unit tests sends type, email, name and redirectUrl. */
  method EmailVerificationScenario() returns (r: Outcome)
    ensures r == Ok(Success)
  {
    var service := new Service(Config(TestApiUrl, "test-client-id", "test-secret-id"));
    var body: Payload := [("type", Str("email")), ("email", Str("test@example.com")),
                          ("name", Str("John Doe")), ("redirectUrl", Str("https://example.com/verify"))];
    assert VerifyBody(EmailVerification("test@example.com", Some("John Doe"), Some("https://example.com/verify"),
                                        None, None)) == body;
    var expected := Request("POST", "https://example.comv1/ping/verify", TestHeaders, Some(body));
    assert BuildRequest(service.config, "POST", VerifyUri, body) == expected;
    r := service.SendEmailVerification("test@example.com", Some("John Doe"), Some("https://example.com/verify"),
                                       None, None, AnswersOnly(expected));
  }

  /** The email code check of the unit tests sends type, email and code. */
  method EmailCodeScenario() returns (r: Outcome)
    ensures r == Ok(Success)
  {
    var service := new Service(Config(TestApiUrl, "test-client-id", "test-secret-id"));
    var body: Payload := [("type", Str("email")), ("email", Str("test@example.com")), ("code", Str("abc123token"))];
    assert VerifyBody(EmailWithCode("test@example.com", "abc123token")) == body;
    var expected := Request("POST", "https://example.comv1/ping/verify", TestHeaders, Some(body));
    assert BuildRequest(service.config, "POST", VerifyUri, body) == expected;
    r := service.VerifyEmailWithCode("test@example.com", "abc123token", AnswersOnly(expected));
  }

  /** A rejected phone verification with a logger attached: one error entry,
      then the failure naming the status. */
  method RejectedVerificationScenario() returns (r: Outcome, service: Service)
    ensures r == Failed("Failed to send OTP to phone. Status: 422")
    ensures service.log == [Error("Failed to send OTP to phone",
                                  [("contact", Str("+15551234567")), ("type", Str("phone")),
                                   ("status", Int(422)), ("response", Str("invalid"))])]
  {
    service := new Service(Config(TestApiUrl, "test-client-id", "test-secret-id"));
    service.SetLogger();
    var rejected := Response(422, "invalid");
    var v := PhoneVerification("+15551234567", None, None, None);
    VerifyFailureContext(v, rejected);
    assert VerifyErrorMessage(v) == "Failed to send OTP to phone";
    assert Decimal.IntToString(422) == "422";
    r := service.SendPhoneVerification("+15551234567", None, None, None, (req: Request) => Delivered(rejected));
  }

  /** Without a logger a rejected SMS still fails, and nothing is recorded. */
  method UnloggedRejectionScenario() returns (r: Outcome, service: Service)
    ensures r == Failed("Failed to send SMS. Status: 500")
    ensures service.log == []
  {
    service := new Service(Config(TestApiUrl, "test-client-id", "test-secret-id"));
    assert Decimal.IntToString(500) == "500";
    r := service.SendSms("Test message", One("+15551234567"), (req: Request) => Delivered(Response(500, "")));
  }
}
