# Smartpings PHP SDK client, modelled in Dafny

This project models `SmartpingsService`, the client class of the Smartpings
messaging SDK. The client is configured with an endpoint root, a client id
and a secret id. It offers these operations:

- phone and email one-time-code verification (`verifyContact` and its four
  wrappers);
- sending an SMS (`sendSms`).

Every operation does three things:

1. It builds a JSON body as an ordered PHP array.
2. It shapes one POST request: the URL is the endpoint root joined with a
   path, plus four fixed headers and the body.
3. It classifies the response. A 2xx status hands the response back. Any
   other status logs one error entry, when a logger is attached, and then
   throws an exception whose message names the status.

Modules:

- `Wrappers`: `Option`, for PHP's nullable parameters.
- `Sequences`: distinct elements and subsequences, used to state key order.
- `PhpArray`: PHP arrays with string keys, as an ordered list of entries.
  - `Put` is `$a[$k] = $v`: an existing key keeps its place, and a new key is
    appended.
  - `Merge` is `array_merge`.
  - `Lookup` is `$a[$k] ?? null`.
- `Decimal`: PHP's rendering of an `int` in a string, and its inverse.
- `Json`: the values that go into bodies and log contexts. These are strings,
  integers, and lists of either.
- `Http`: the request construction the client performs. It covers PSR-17
  `createRequest`, and PSR-7 `withHeader` (drop the name, then record the
  value) and `withBody`. `HeaderValues` stands for PSR-7 `getHeader`. The
  client never calls it; the model uses it only to state properties of
  requests.
- `Smartpings`: the core.
  - Specification functions give the body of each operation (`VerifyBody`,
    `SmsBody`), the request (`BuildRequest`) and the outcome and log entries
    of one exchange (`Exchange`, `ExchangeLog`).
  - `class Service` holds the configuration. Its only state is whether a
    logger is attached and the ghost sequence of entries that logger has
    received.
  - The exchange methods of `Service` are proved against the specification
    functions. The constructor, `SetLogger` and `LogError` state their new
    state directly.
  - `verifyContact` is written as the source writes it: one conditional
    assignment to `$data` per argument. Its first half, the body
    construction, is the separate method `BuildVerifyBody`.
  - `AssignmentsAppend` proves the following: every key is new when it is
    assigned, so each assignment appends. The assignments therefore build
    exactly `VerifyBody`, and its keys follow the fixed order `type, phone,
    email, code, name, redirectUrl, expirationMinutes, promoteToListIds`.
- `SmartpingsProperties`: lemmas that cover the following:
  - what each operation sends, key by key;
  - the shape of every request;
  - how success, rejection and transport exceptions are reported.

  It also restates the unit tests' calls as verified scenario methods. In
  each, the transport answers 200 only to the exact request the scenario
  expects.

Parameters:

- The PSR-18 transport is a parameter of each call,
  `client: Request -> TransportResult`. It either delivers a response or
  throws its own exception (`TransportError`), which the client lets through
  unlogged.
- The thrown `Exception` becomes `Outcome.Failed(message)`. A rejected
  response yields `Outcome.Failed`.

## Model

| member | source | states |
|---|---|---|
| Smartpings.Service.constructor | src/SmartpingsService.php:17-24 | the configuration is stored as given; no logger is attached and nothing is logged yet |
| Smartpings.Service.SetLogger | src/LoggingService.php:8-10 | after `setLogger` (LoggerAwareTrait) a logger is attached and the log is unchanged |
| Smartpings.Service.LogError | src/LoggingService.php:15-20 | one error entry with the message and context is recorded when a logger is attached, and nothing otherwise |
| Smartpings.Service.SendRequest | src/SmartpingsService.php:169-179 | the transport receives exactly BuildRequest: method, `apiUrl . uri`, the four headers in order, the payload as body; its answer is returned unchanged |
| Smartpings.Service.HandleResponse | src/SmartpingsService.php:184-196 | a status in [200,300) returns the response and logs nothing; any other status logs one entry (context merged with status and body) and fails with "<errorMessage>. Status: <status>" |
| Smartpings.Service.BuildVerifyBody | src/SmartpingsService.php:56-82 | the seven conditional assignments build exactly VerifyBody of the arguments |
| Smartpings.Service.VerifyContact | src/SmartpingsService.php:47-87 | posts VerifyBody to `v1/ping/verify`; the outcome and the log entries are those of the exchange with message "Failed to send OTP to <type>" and context `contact`, `type` |
| Smartpings.Service.SendPhoneVerification | src/SmartpingsService.php:94-107 | behaves exactly as verifyContact("phone", phone, null, name, null, expirationMinutes, promoteToListIds) |
| Smartpings.Service.VerifyPhoneWithCode | src/SmartpingsService.php:114-117 | behaves exactly as verifyContact("phone", phone, code) with every other argument null |
| Smartpings.Service.SendEmailVerification | src/SmartpingsService.php:124-139 | behaves exactly as verifyContact("email", email, null, name, redirectUrl, expirationMinutes, promoteToListIds) |
| Smartpings.Service.VerifyEmailWithCode | src/SmartpingsService.php:146-149 | behaves exactly as verifyContact("email", email, code) with every other argument null |
| Smartpings.Service.SendSms | src/SmartpingsService.php:154-164 | posts {message, destination} to `v1/ping/message`, a single recipient wrapped in a list; outcome and log are those of the exchange with "Failed to send SMS" and context `phones`, `message` |
| Smartpings.AssignmentsAppend | src/SmartpingsService.php:56-82 | the assignments produce VerifyBody, and its keys are a subsequence of type, phone, email, code, name, redirectUrl, expirationMinutes, promoteToListIds |
| Smartpings.ContactStep | src/SmartpingsService.php:56-62 | after `type`, the contact is appended under `phone` or `email` for those types and nothing for any other type |
| Smartpings.StringSteps | src/SmartpingsService.php:64-74 | the code, name and redirect URL assignments each append their entry, in that order, and only for a truthy argument |
| Smartpings.TruthyStep | src/SmartpingsService.php:64-74 | one truthiness-guarded assignment appends its entry, because the key is new |
| Smartpings.ValueStep | src/SmartpingsService.php:76-82 | a null-guarded assignment appends its entry, because the key is new |
| SmartpingsProperties.VerifyBodyFields | src/SmartpingsService.php:56-82 | key by key: `type` always; `phone`/`email` only for that type; code, name, redirectUrl iff truthy (not null, "", "0"); expirationMinutes, promoteToListIds iff not null (0 and [] kept); values verbatim; no other key |
| SmartpingsProperties.VerifyBodyKeys | src/SmartpingsService.php:56-82 | the body starts with `type`, holds no key twice, and lists its keys in insertion order, none outside the eight known ones |
| SmartpingsProperties.PhoneVerificationBody | src/SmartpingsService.php:94-107 | sendPhoneVerification sends type phone and the phone, never a code, an email or a redirect URL, and the name iff it is truthy |
| SmartpingsProperties.EmailVerificationBody | src/SmartpingsService.php:124-139 | sendEmailVerification sends type email and the address, never a code or a phone, and the redirect URL iff it is truthy |
| SmartpingsProperties.PhoneWithCodeBody | src/SmartpingsService.php:114-117 | verifyPhoneWithCode sends only type, phone and, iff it is truthy, the code |
| SmartpingsProperties.EmailWithCodeBody | src/SmartpingsService.php:146-149 | verifyEmailWithCode sends only type, email and, iff it is truthy, the code |
| SmartpingsProperties.SmsBodyFields | src/SmartpingsService.php:154-161 | the SMS body has exactly the keys message, destination; a string recipient becomes a one-element list, a list passes with order and length unchanged |
| SmartpingsProperties.RequestShape | src/SmartpingsService.php:169-176 | every request targets `apiUrl . uri`, carries the payload, and has exactly one value for each of the four headers and none for any other name |
| SmartpingsProperties.JoinedUrls | src/SmartpingsService.php:171 | no separator is added: `https://example.com` and `v1/ping/message` give `https://example.comv1/ping/message`; the default root gives `https://api.smartpings.com/api/v1/ping/verify` |
| SmartpingsProperties.SuccessPassesThrough | src/SmartpingsService.php:186-188 | a 2xx response is returned unchanged and nothing is logged |
| SmartpingsProperties.FailureReported | src/SmartpingsService.php:190-195 | any other status fails with errorMessage, ". Status: " and digits that read back as the status, after exactly one log entry when a logger is attached and none otherwise |
| SmartpingsProperties.TransportErrorPassesThrough | src/SmartpingsService.php:178 | an exception of the transport propagates unchanged and nothing is logged |
| SmartpingsProperties.FailureContextFields | src/SmartpingsService.php:190-193 | the logged context answers `status` and `response` from the response and any other key from the call's context |
| SmartpingsProperties.VerifyFailureContext | src/SmartpingsService.php:86 | a failed verification logs exactly contact, type, status, response, in that order |
| SmartpingsProperties.SmsFailureContext | src/SmartpingsService.php:163 | a failed SMS logs exactly phones, message, status, response, in that order |
| SmartpingsProperties.SingleSmsScenario | tests/Unit/SmartpingsServiceTest.php:15-38 | a single-recipient SMS reaches `https://example.comv1/ping/message` with a one-element destination and the four headers, and returns the 200 response |
| SmartpingsProperties.MultipleSmsScenario | tests/Unit/SmartpingsServiceTest.php:40-63 | a two-recipient SMS sends both numbers in order and returns the 200 response |
| SmartpingsProperties.PhoneVerificationScenario | tests/Unit/SmartpingsServiceTest.php:65-88 | sendPhoneVerification with a name sends exactly type, phone, name |
| SmartpingsProperties.PhoneCodeScenario | tests/Unit/SmartpingsServiceTest.php:90-113 | verifyPhoneWithCode sends exactly type, phone, code |
| SmartpingsProperties.EmailVerificationScenario | tests/Unit/SmartpingsServiceTest.php:115-142 | sendEmailVerification sends exactly type, email, name, redirectUrl |
| SmartpingsProperties.EmailCodeScenario | tests/Unit/SmartpingsServiceTest.php:144-167 | verifyEmailWithCode sends exactly type, email, code |
| SmartpingsProperties.CustomExpirationScenario | tests/Unit/SmartpingsServiceTest.php:169-197 | expiration 10 and lists [1, 2, 3] are sent after type, phone and name, in that order |
| SmartpingsProperties.RejectedVerificationScenario | src/SmartpingsService.php:184-196 | a 422 on sendPhoneVerification with a logger attached fails with "Failed to send OTP to phone. Status: 422" after exactly one entry holding contact, type, status and body |
| SmartpingsProperties.UnloggedRejectionScenario | src/LoggingService.php:15-20 | without a logger a rejected SMS still fails with "Failed to send SMS. Status: 500" and nothing is recorded |
| PhpArray.PutStores | src/SmartpingsService.php:59 | after `$a[$k] = $v` the key holds v; an existing key keeps the key order, and a new key is appended |
| PhpArray.PutKeepsOthers | src/SmartpingsService.php:59 | `$a[$k] = $v` leaves every other key's value as it was |
| PhpArray.MergeLookup | src/SmartpingsService.php:190-193 | after `array_merge($a, $b)` a key of b holds b's value and any other key holds a's |
| Http.WithHeaderSets | src/SmartpingsService.php:172-175 | after `withHeader` the name holds exactly the new value, other headers are unchanged, and a new name is added last |
| Decimal.IntToStringRoundTrip | src/SmartpingsService.php:195 | the status interpolated into the exception message can be read back exactly |

## Left out

- `getContactVerificationStatus`: the unit tests call it, but it is not
  defined in `src/SmartpingsService.php`. It is not part of this model.
- `create` (src/SmartpingsService.php:26-42) is left out. It only constructs
  the Guzzle client and factories.
- The transport and the PSR-17 factories are not modelled internally. This
  covers `createStream`, the bytes `json_encode` produces, and the `Host`
  header Guzzle adds. The body is the key/value payload before encoding. The
  transport is a function from the request to its answer.
- `LoggingService::logException` is left out. Nothing calls it, and it
  depends on a stack-trace string.
- Logger levels other than `error` are left out. A logger set twice is not
  told apart from one set once: the model records whether a logger is
  attached, not which one.
- The Laravel service provider and `config/smartpings.php` are left out.
  They are framework wiring and environment reads.
- Header names are compared exactly. PSR-7 compares them case-insensitively,
  but the four names the client sets differ in more than case.
- `PhpArray` covers string keys only. `array_merge`'s renumbering of integer
  keys never arises here.
- `promoteToListIds` is a list of integers. A PHP array of any other values,
  or with explicit keys, is not modelled.
- Status codes and `expirationMinutes` are unbounded integers. PHP's 64-bit
  width never matters for these values.
- The endpoint root and the path are concatenated as they are
  (src/SmartpingsService.php:171).
- The thrown `Exception` carries only its message, which embeds the status
  (src/SmartpingsService.php:195).
- A rejected verification logs `contact`, `type`, `status` and `response`
  (src/SmartpingsService.php:86, 190-193).
- A 2xx call returns the response object itself
  (src/SmartpingsService.php:187).
- Smartpings.Service.SendRequest: building the request always succeeds in
  the model, and every value is stored exactly as given. Three paths of the
  PHP code are not modelled:
  - `withHeader` throws `InvalidArgumentException` on an invalid header
    value, such as a client id containing CR or LF. PSR-7 implementations
    also trim surrounding spaces and tabs from a value
    (src/SmartpingsService.php:172-175).
  - `createRequest` throws on a URI it cannot parse
    (src/SmartpingsService.php:171).
  - `json_encode` returns `false` for a string that is not valid UTF-8. The
    request then goes out with an empty body (src/SmartpingsService.php:176).
    Model strings are sequences of characters, not PHP byte strings.

  The model's guarantee that the transport receives exactly `BuildRequest`
  holds only for values those steps accept unchanged.
- Smartpings.Service.SendSms: recipients are one string or a list of
  strings (src/SmartpingsService.php:154-156). A keyed PHP array is not
  modelled; `json_encode` would send such a `destination` as a JSON object.
  Arrays with non-string elements are not modelled either.
