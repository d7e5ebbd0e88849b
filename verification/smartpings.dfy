/** The SMS and verification client: request bodies, request shaping,
    response classification, and the service object that ties them together. */
module Smartpings {
  import opened Wrappers
  import opened Json
  import opened Http
  import PhpArray
  import Sequences
  import Decimal

  const DefaultApiUrl: string := "https://api.smartpings.com/api/"
  const VerifyUri: string := "v1/ping/verify"
  const MessageUri: string := "v1/ping/message"
  const SmsErrorMessage: string := "Failed to send SMS"

  /** The credentials and endpoint root the service is constructed with. */
  datatype Config = Config(apiUrl: string, clientId: string, secretId: string)

  /** PHP truthiness of a `?string`: null, "" and "0" are false. */
  predicate Truthy(s: Option<string>)
  {
    s.Some? && s.value != "" && s.value != "0"
  }

  /** The arguments of one `verifyContact` call. */
  datatype Verification = Verification(
    contactType: string,
    contact: string,
    code: Option<string>,
    name: Option<string>,
    redirectUrl: Option<string>,
    expirationMinutes: Option<int>,
    promoteToListIds: Option<seq<int>>)

  /** The contact goes under the key named by the contact type, when that type
      is one of the two known ones. */
  function ContactEntry(contactType: string, contact: string): Payload
  {
    if contactType == "phone" then [("phone", Str(contact))]
    else if contactType == "email" then [("email", Str(contact))]
    else []
  }

  /** An entry that is present only for a truthy string. */
  function TruthyEntry(key: string, s: Option<string>): Payload
  {
    if Truthy(s) then [(key, Str(s.value))] else []
  }

  /** The body `verifyContact` posts, entry by entry in insertion order. */
  function VerifyBody(v: Verification): Payload
  {
    [("type", Str(v.contactType))]
    + ContactEntry(v.contactType, v.contact)
    + TruthyEntry("code", v.code)
    + TruthyEntry("name", v.name)
    + TruthyEntry("redirectUrl", v.redirectUrl)
    + (match v.expirationMinutes
       case Some(m) => [("expirationMinutes", Int(m))]
       case None => [])
    + (match v.promoteToListIds
       case Some(ids) => [("promoteToListIds", Ints(ids))]
       case None => [])
  }

  /** The description a failed verification is reported with. */
  function VerifyErrorMessage(v: Verification): string
  {
    "Failed to send OTP to " + v.contactType
  }

  /** `compact('contact', 'type')` */
  function VerifyContext(v: Verification): Payload
  {
    [("contact", Str(v.contact)), ("type", Str(v.contactType))]
  }

  /** The arguments `sendPhoneVerification` forwards. */
  function PhoneVerification(phone: string, name: Option<string>, expirationMinutes: Option<int>,
                             promoteToListIds: Option<seq<int>>): Verification
  {
    Verification("phone", phone, None, name, None, expirationMinutes, promoteToListIds)
  }

  /** The arguments `verifyPhoneWithCode` forwards. */
  function PhoneWithCode(phone: string, code: string): Verification
  {
    Verification("phone", phone, Some(code), None, None, None, None)
  }

  /** The arguments `sendEmailVerification` forwards. */
  function EmailVerification(email: string, name: Option<string>, redirectUrl: Option<string>,
                             expirationMinutes: Option<int>, promoteToListIds: Option<seq<int>>): Verification
  {
    Verification("email", email, None, name, redirectUrl, expirationMinutes, promoteToListIds)
  }

  /** The arguments `verifyEmailWithCode` forwards. */
  function EmailWithCode(email: string, code: string): Verification
  {
    Verification("email", email, Some(code), None, None, None, None)
  }

  /** The `string|array` recipients of `sendSms`. */
  datatype Recipients = One(phone: string) | Many(phones: seq<string>)

  /** `is_array($phones) ? $phones : [$phones]` */
  function Destination(r: Recipients): seq<string>
  {
    match r
    case One(p) => [p]
    case Many(ps) => ps
  }

  /** The body `sendSms` posts. */
  function SmsBody(message: string, destination: seq<string>): Payload
  {
    [("message", Str(message)), ("destination", Strs(destination))]
  }

  /** The log context of a failed SMS. */
  function SmsContext(message: string, destination: seq<string>): Payload
  {
    [("phones", Strs(destination)), ("message", Str(message))]
  }

  /** The request `sendRequest` hands to the transport: the endpoint root and
      the path joined as they are, the four fixed headers, the payload as body. */
  function BuildRequest(cfg: Config, httpMethod: string, uri: string, data: Payload): Request
  {
    Request(httpMethod, cfg.apiUrl + uri,
            [("Content-Type", "application/json"),
             ("Accept", "application/json"),
             ("X-client-id", cfg.clientId),
             ("X-secret-id", cfg.secretId)],
            Some(data))
  }

  /** How a call ends: the response itself, the exception the client raises
      for a rejected response, or the transport's own exception passed through. */
  datatype Outcome = Ok(response: Response) | Failed(message: string) | TransportFailed(cause: string)

  /** An error-level entry handed to the logger. */
  datatype LogEntry = Error(message: string, context: Payload)

  predicate IsSuccess(status: int)
  {
    200 <= status < 300
  }

  /** The exception message for a rejected response. */
  function FailureMessage(errorMessage: string, status: int): string
  {
    errorMessage + ". Status: " + Decimal.IntToString(status)
  }

  /** The log context of a rejected response: the call's context with the
      status and the raw body merged in. */
  function FailureContext(context: Payload, response: Response): Payload
  {
    PhpArray.Merge(context, [("status", Int(response.status)), ("response", Str(response.body))])
  }

  /** The outcome of a call whose request met `sent`. */
  function Exchange(sent: TransportResult, errorMessage: string): Outcome
  {
    match sent
    case TransportError(cause) => TransportFailed(cause)
    case Delivered(response) =>
      if IsSuccess(response.status) then Ok(response)
      else Failed(FailureMessage(errorMessage, response.status))
  }

  /** The entries a call whose request met `sent` adds to the log. */
  function ExchangeLog(hasLogger: bool, sent: TransportResult, errorMessage: string, context: Payload): seq<LogEntry>
  {
    if hasLogger && sent.Delivered? && !IsSuccess(sent.response.status)
    then [Error(errorMessage, FailureContext(context, sent.response))]
    else []
  }

  /** The outcome of `verifyContact` with the arguments `v`. */
  function VerifyOutcome(cfg: Config, client: Request -> TransportResult, v: Verification): Outcome
  {
    Exchange(client(BuildRequest(cfg, "POST", VerifyUri, VerifyBody(v))), VerifyErrorMessage(v))
  }

  /** The log entries `verifyContact` with the arguments `v` adds. */
  function VerifyLog(cfg: Config, hasLogger: bool, client: Request -> TransportResult, v: Verification): seq<LogEntry>
  {
    ExchangeLog(hasLogger, client(BuildRequest(cfg, "POST", VerifyUri, VerifyBody(v))),
                VerifyErrorMessage(v), VerifyContext(v))
  }

  /** `$data[$key] = $contact` under the key the contact type names. */
  function PutContact(data: Payload, contactType: string, contact: string): Payload
  {
    if contactType == "phone" then PhpArray.Put(data, "phone", Str(contact))
    else if contactType == "email" then PhpArray.Put(data, "email", Str(contact))
    else data
  }

  /** `if ($s) { $data[$key] = $s; }` */
  function PutTruthy(data: Payload, key: string, s: Option<string>): Payload
  {
    if Truthy(s) then PhpArray.Put(data, key, Str(s.value)) else data
  }

  /** The array `verifyContact`'s assignments leave, one assignment after the other.
      It restates the assignments of `Service.BuildVerifyBody` as a function only to
      split the proof: `AssignmentsAppend` reasons about it without the method's
      state, and the method matches its steps against it. */
  function AssignedBody(v: Verification): Payload
  {
    var withContact := PutContact([("type", Str(v.contactType))], v.contactType, v.contact);
    var withStrings := PutTruthy(PutTruthy(PutTruthy(withContact, "code", v.code), "name", v.name),
                                 "redirectUrl", v.redirectUrl);
    var withMinutes := if v.expirationMinutes.Some?
                       then PhpArray.Put(withStrings, "expirationMinutes", Int(v.expirationMinutes.value))
                       else withStrings;
    if v.promoteToListIds.Some?
    then PhpArray.Put(withMinutes, "promoteToListIds", Ints(v.promoteToListIds.value))
    else withMinutes
  }

  /** The keys `verifyContact` can send, in the order it assigns them. */
  const VerifyKeyOrder: seq<string> :=
    ["type", "phone", "email", "code", "name", "redirectUrl", "expirationMinutes", "promoteToListIds"]

  lemma VerifyKeyOrderDistinct()
    ensures Sequences.Distinct(VerifyKeyOrder)
  {
  }

  /** One conditional assignment of a string argument appends its entry. */
  lemma TruthyStep(data: Payload, i: nat, s: Option<string>)
    requires 3 <= i <= 5
    requires Sequences.Subsequence(PhpArray.Keys(data), VerifyKeyOrder[..i])
    ensures PutTruthy(data, VerifyKeyOrder[i], s) == data + TruthyEntry(VerifyKeyOrder[i], s)
    ensures Sequences.Subsequence(PhpArray.Keys(data + TruthyEntry(VerifyKeyOrder[i], s)), VerifyKeyOrder[..i + 1])
  {
    VerifyKeyOrderDistinct();
    if Truthy(s) {
      PhpArray.PutNext(data, VerifyKeyOrder, i, Str(s.value));
    } else {
      assert data + TruthyEntry(VerifyKeyOrder[i], s) == data;
      PhpArray.SkipNext(data, VerifyKeyOrder, i);
    }
  }

  /** The assignment of an optional integer argument appends its entry. */
  lemma ValueStep(data: Payload, i: nat, present: bool, value: Value)
    requires 6 <= i <= 7
    requires Sequences.Subsequence(PhpArray.Keys(data), VerifyKeyOrder[..i])
    ensures var r := if present then PhpArray.Put(data, VerifyKeyOrder[i], value) else data;
            r == data + (if present then [(VerifyKeyOrder[i], value)] else []) &&
            Sequences.Subsequence(PhpArray.Keys(r), VerifyKeyOrder[..i + 1])
  {
    VerifyKeyOrderDistinct();
    if present {
      PhpArray.PutNext(data, VerifyKeyOrder, i, value);
    } else {
      PhpArray.SkipNext(data, VerifyKeyOrder, i);
    }
  }

  /** The contact assignment appends the contact under its key, if any. */
  lemma ContactStep(contactType: string, contact: string)
    ensures var d0: Payload := [("type", Str(contactType))];
            PutContact(d0, contactType, contact) == d0 + ContactEntry(contactType, contact) &&
            Sequences.Subsequence(PhpArray.Keys(d0 + ContactEntry(contactType, contact)), VerifyKeyOrder[..3])
  {
    var o := VerifyKeyOrder;
    VerifyKeyOrderDistinct();
    var d0: Payload := [("type", Str(contactType))];
    assert PhpArray.Keys(d0) == o[..1];
    var d1 := d0 + ContactEntry(contactType, contact);
    if contactType == "phone" {
      PhpArray.PutNext(d0, o, 1, Str(contact));
      PhpArray.SkipNext(d1, o, 2);
    } else if contactType == "email" {
      PhpArray.SkipNext(d0, o, 1);
      PhpArray.PutNext(d0, o, 2, Str(contact));
    } else {
      assert d1 == d0;
      PhpArray.SkipNext(d0, o, 1);
      PhpArray.SkipNext(d0, o, 2);
    }
  }

  /** The three string assignments append their entries, in order. */
  lemma StringSteps(data: Payload, v: Verification)
    requires Sequences.Subsequence(PhpArray.Keys(data), VerifyKeyOrder[..3])
    ensures var r := data + TruthyEntry("code", v.code) + TruthyEntry("name", v.name)
                     + TruthyEntry("redirectUrl", v.redirectUrl);
            PutTruthy(PutTruthy(PutTruthy(data, "code", v.code), "name", v.name), "redirectUrl", v.redirectUrl) == r &&
            Sequences.Subsequence(PhpArray.Keys(r), VerifyKeyOrder[..6])
  {
    TruthyStep(data, 3, v.code);
    var d2 := data + TruthyEntry("code", v.code);
    TruthyStep(d2, 4, v.name);
    var d3 := d2 + TruthyEntry("name", v.name);
    TruthyStep(d3, 5, v.redirectUrl);
  }

  /** Each key `verifyContact` assigns is new when it is assigned, so every
      assignment appends: the assignments build exactly VerifyBody, whose keys
      follow VerifyKeyOrder. */
  lemma AssignmentsAppend(v: Verification)
    ensures AssignedBody(v) == VerifyBody(v)
    ensures Sequences.Subsequence(PhpArray.Keys(VerifyBody(v)), VerifyKeyOrder)
  {
    var o := VerifyKeyOrder;
    ContactStep(v.contactType, v.contact);
    var d1 := [("type", Str(v.contactType))] + ContactEntry(v.contactType, v.contact);
    StringSteps(d1, v);
    var d4 := d1 + TruthyEntry("code", v.code) + TruthyEntry("name", v.name) + TruthyEntry("redirectUrl", v.redirectUrl);
    var minutes := v.expirationMinutes;
    ValueStep(d4, 6, minutes.Some?, Int(if minutes.Some? then minutes.value else 0));
    var d5 := d4 + (if minutes.Some? then [(o[6], Int(minutes.value))] else []);
    var ids := v.promoteToListIds;
    ValueStep(d5, 7, ids.Some?, Ints(if ids.Some? then ids.value else []));
    var d6 := d5 + (if ids.Some? then [(o[7], Ints(ids.value))] else []);
    assert o[..8] == o;
    assert VerifyBody(v) == d6;
  }

  /** The client. Its configuration never changes after construction; the only
      state is whether a logger is attached and what that logger has received.
      The PSR-18 client is passed to each call as `client`, standing for what it
      answers to that call's request. */
  class Service {
    const config: Config
    var hasLogger: bool
    ghost var log: seq<LogEntry>

    constructor (config: Config)
      ensures this.config == config && !hasLogger && log == []
    {
      this.config := config;
      hasLogger := false;
      log := [];
    }

    /** `setLogger`: from now on error entries are recorded. */
    method SetLogger()
      modifies this`hasLogger
      ensures hasLogger
    {
      hasLogger := true;
    }

    /** `logError`: one error entry when a logger is attached, nothing otherwise. */
    method LogError(message: string, context: Payload)
      modifies this`log
      ensures log == old(log) + (if hasLogger then [Error(message, context)] else [])
    {
      if hasLogger {
        log := log + [Error(message, context)];
      }
    }

    /** `sendRequest`: shapes the request step by step and hands it to the transport. */
    method SendRequest(httpMethod: string, uri: string, data: Payload, client: Request -> TransportResult)
      returns (sent: TransportResult)
      ensures sent == client(BuildRequest(config, httpMethod, uri, data))
    {
      var request := CreateRequest(httpMethod, config.apiUrl + uri);
      WithHeaderAppends(request, "Content-Type", "application/json");
      request := WithHeader(request, "Content-Type", "application/json");
      HeaderValuesAbsent(request.headers, "Accept");
      WithHeaderAppends(request, "Accept", "application/json");
      request := WithHeader(request, "Accept", "application/json");
      HeaderValuesAbsent(request.headers, "X-client-id");
      WithHeaderAppends(request, "X-client-id", config.clientId);
      request := WithHeader(request, "X-client-id", config.clientId);
      HeaderValuesAbsent(request.headers, "X-secret-id");
      WithHeaderAppends(request, "X-secret-id", config.secretId);
      request := WithHeader(request, "X-secret-id", config.secretId);
      assert request.headers == BuildRequest(config, httpMethod, uri, data).headers;
      request := WithBody(request, data);
      sent := client(request);
    }

    /** `handleResponse`: a 2xx response is returned as it is; any other status
        is logged with the context and then reported as a failure. */
    method HandleResponse(response: Response, errorMessage: string, context: Payload) returns (r: Outcome)
      modifies this`log
      ensures r == Exchange(Delivered(response), errorMessage)
      ensures log == old(log) + ExchangeLog(hasLogger, Delivered(response), errorMessage, context)
    {
      if IsSuccess(response.status) {
        return Ok(response);
      }
      LogError(errorMessage, FailureContext(context, response));
      r := Failed(FailureMessage(errorMessage, response.status));
    }

    /** The first half of `verifyContact`: the request body, built by one
        conditional assignment per argument. */
    method BuildVerifyBody(contactType: string, contact: string, code: Option<string>, name: Option<string>,
                           redirectUrl: Option<string>, expirationMinutes: Option<int>,
                           promoteToListIds: Option<seq<int>>)
      returns (data: Payload)
      ensures data == VerifyBody(Verification(contactType, contact, code, name, redirectUrl,
                                              expirationMinutes, promoteToListIds))
    {
      ghost var v := Verification(contactType, contact, code, name, redirectUrl, expirationMinutes, promoteToListIds);
      // Each step is checked against the assignment it models, on its own.
      data := [("type", Str(contactType))];
      ghost var before := data;
      if contactType == "phone" {
        data := PhpArray.Put(data, "phone", Str(contact));
      } else if contactType == "email" {
        data := PhpArray.Put(data, "email", Str(contact));
      }
      assert data == PutContact(before, contactType, contact);
      before := data;
      if Truthy(code) {
        data := PhpArray.Put(data, "code", Str(code.value));
      }
      assert data == PutTruthy(before, "code", code);
      before := data;
      if Truthy(name) {
        data := PhpArray.Put(data, "name", Str(name.value));
      }
      assert data == PutTruthy(before, "name", name);
      before := data;
      if Truthy(redirectUrl) {
        data := PhpArray.Put(data, "redirectUrl", Str(redirectUrl.value));
      }
      assert data == PutTruthy(before, "redirectUrl", redirectUrl);
      before := data;
      if expirationMinutes.Some? {
        data := PhpArray.Put(data, "expirationMinutes", Int(expirationMinutes.value));
      }
      assert data == if expirationMinutes.Some?
                     then PhpArray.Put(before, "expirationMinutes", Int(expirationMinutes.value)) else before;
      if promoteToListIds.Some? {
        data := PhpArray.Put(data, "promoteToListIds", Ints(promoteToListIds.value));
      }
      assert data == AssignedBody(v);
      AssignmentsAppend(v);
    }

    /** `verifyContact`: builds the body, posts it to the verify endpoint and
        classifies the response. */
    method VerifyContact(contactType: string, contact: string, code: Option<string>, name: Option<string>,
                         redirectUrl: Option<string>, expirationMinutes: Option<int>,
                         promoteToListIds: Option<seq<int>>, client: Request -> TransportResult)
      returns (r: Outcome)
      modifies this`log
      ensures var v := Verification(contactType, contact, code, name, redirectUrl, expirationMinutes, promoteToListIds);
              r == VerifyOutcome(config, client, v) && log == old(log) + VerifyLog(config, hasLogger, client, v)
    {
      ghost var v := Verification(contactType, contact, code, name, redirectUrl, expirationMinutes, promoteToListIds);
      var data := BuildVerifyBody(contactType, contact, code, name, redirectUrl, expirationMinutes, promoteToListIds);
      var sent := SendRequest("POST", VerifyUri, data, client);
      assert sent == client(BuildRequest(config, "POST", VerifyUri, VerifyBody(v)));
      if sent.TransportError? {
        return TransportFailed(sent.cause);
      }
      var errorMessage := "Failed to send OTP to " + contactType;
      var context: Payload := [("contact", Str(contact)), ("type", Str(contactType))];
      assert errorMessage == VerifyErrorMessage(v) && context == VerifyContext(v);
      r := HandleResponse(sent.response, errorMessage, context);
      assert Delivered(sent.response) == sent;
    }

    /** `sendPhoneVerification`: `verifyContact` for a phone, without code or redirect URL. */
    method SendPhoneVerification(phone: string, name: Option<string>, expirationMinutes: Option<int>,
                                 promoteToListIds: Option<seq<int>>, client: Request -> TransportResult)
      returns (r: Outcome)
      modifies this`log
      ensures var v := PhoneVerification(phone, name, expirationMinutes, promoteToListIds);
              r == VerifyOutcome(config, client, v) && log == old(log) + VerifyLog(config, hasLogger, client, v)
    {
      r := VerifyContact("phone", phone, None, name, None, expirationMinutes, promoteToListIds, client);
    }

    /** `verifyPhoneWithCode`: `verifyContact` for a phone with only a code. */
    method VerifyPhoneWithCode(phone: string, code: string, client: Request -> TransportResult)
      returns (r: Outcome)
      modifies this`log
      ensures var v := PhoneWithCode(phone, code);
              r == VerifyOutcome(config, client, v) && log == old(log) + VerifyLog(config, hasLogger, client, v)
    {
      r := VerifyContact("phone", phone, Some(code), None, None, None, None, client);
    }

    /** `sendEmailVerification`: `verifyContact` for an email address, without code. */
    method SendEmailVerification(email: string, name: Option<string>, redirectUrl: Option<string>,
                                 expirationMinutes: Option<int>, promoteToListIds: Option<seq<int>>,
                                 client: Request -> TransportResult)
      returns (r: Outcome)
      modifies this`log
      ensures var v := EmailVerification(email, name, redirectUrl, expirationMinutes, promoteToListIds);
              r == VerifyOutcome(config, client, v) && log == old(log) + VerifyLog(config, hasLogger, client, v)
    {
      r := VerifyContact("email", email, None, name, redirectUrl, expirationMinutes, promoteToListIds, client);
    }

    /** `verifyEmailWithCode`: `verifyContact` for an email address with only a code. */
    method VerifyEmailWithCode(email: string, code: string, client: Request -> TransportResult)
      returns (r: Outcome)
      modifies this`log
      ensures var v := EmailWithCode(email, code);
              r == VerifyOutcome(config, client, v) && log == old(log) + VerifyLog(config, hasLogger, client, v)
    {
      r := VerifyContact("email", email, Some(code), None, None, None, None, client);
    }

    /** `sendSms`: one recipient or a list, posted with the message to the
        message endpoint; the response is classified like any other. */
    method SendSms(message: string, phones: Recipients, client: Request -> TransportResult)
      returns (r: Outcome)
      modifies this`log
      ensures var d := Destination(phones);
              var sent := client(BuildRequest(config, "POST", MessageUri, SmsBody(message, d)));
              r == Exchange(sent, SmsErrorMessage) &&
              log == old(log) + ExchangeLog(hasLogger, sent, SmsErrorMessage, SmsContext(message, d))
    {
      var destination := Destination(phones);
      var sent := SendRequest("POST", MessageUri, SmsBody(message, destination), client);
      if sent.TransportError? {
        return TransportFailed(sent.cause);
      }
      r := HandleResponse(sent.response, SmsErrorMessage, SmsContext(message, destination));
    }
  }
}
