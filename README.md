# SMS ↔ Gorgias bridge: routing logic in Dafny

This project models the decision logic of a small Next.js service that
connects Twilio SMS with the Gorgias helpdesk:

- the **inbound handler** (`src/app/api/sms/incoming/route.ts`) gets an SMS from
  Twilio. It classifies the text (opt-out, opt-in, help, anything else). For help
  requests and ordinary messages it builds a Gorgias ticket body keyed by the
  customer email `sms<From>@rescuelink.com`. It always answers with a TwiML document.
- the **outbound handler** (`src/app/api/sms/outgoing/route.ts`) gets a Gorgias
  webhook when an agent replies. It ignores events that are not an agent reply on
  an SMS ticket. It finds the customer's phone through a chain of four optional
  ticket fields, then falls back to two regular expressions on the customer email.
  It prefixes `+` and asks Twilio to send.
- the **diagnostic scripts** (`test-phone-extraction.js`, `debug-tickets.js`,
  `test-threading.js`, `debug-deleted-tickets.js`). These hold a variant of the phone
  lookup and the only code that decides between reusing an existing ticket and
  creating a new one: filters over the ticket list, then "first match, or create new".

Modules, one per source file plus shared pieces:

| module | file | models |
|---|---|---|
| `Wrappers` | wrappers.dfy | `Option` (a property that may be `undefined`/`null`) |
| `JsSemantics` | js_semantics.dfy | truthiness, `\|\|`, `startsWith`, `includes`, `trim`, ASCII `toLowerCase`, `filter` |
| `EmailPatterns` | email_patterns.dfy | `/sms([^@]*?)@/` and `/(\+\d+)/` as leftmost searches |
| `CustomerKey` | customer_key.dfy | the derived customer email |
| `OutgoingRoute` | outgoing_route.dfy | the outbound handler |
| `IncomingRoute` | incoming_route.dfy | the inbound handler, ticket body, TwiML reply |
| `PhoneExtractionScript` | phone_extraction_script.dfy | test-phone-extraction.js |
| `GorgiasTickets` | gorgias_tickets.dfy | ticket records, filter tests, first-or-create |
| `DebugTickets` | debug_tickets.dfy | debug-tickets.js |
| `ThreadingScript` | threading_script.dfy | test-threading.js |
| `DeletedTicketsScript` | deleted_tickets_script.dfy | debug-deleted-tickets.js |
| `HandlerRoundTrip` | round_trip.dfy | an agent's reply reaching the inbound sender |

External calls are parameters. The Twilio send is a `SendOutcome` (a message SID
or an error message). The Gorgias ticket creation is a `CreationOutcome` (created,
or failed by a non-ok status or a thrown error). The sending number, which comes
from the environment, is the `twilioNumber` parameter.

Points where the code's behaviour may surprise:

- Normalisation only puts a `+` in front of a number that lacks one, and keeps
  everything else. `MockTicketPhone` shows `"+1 555-123-4567"` kept with its spaces
  and dashes.
- The first email pattern wins whenever it matches, even when its capture is empty
  or not a number. For `sms-15551234567@domain` the destination is `+-15551234567`
  (`DashedEmailKeepsDash`). For the generic customer email `sms@rescuelink.com`
  it is `+`, not a 400 (`GenericEmailYieldsBarePlus`).
- The inbound handler creates a new ticket for every help request and ordinary
  message. Reusing an open ticket exists only as the scripts' filters over a
  ticket list.

## Model

| member | source | states |
|---|---|---|
| JsSemantics.IncludesAt | test-threading.js:53-55 | `includes` holds exactly when the phone occurs at some index of the subject |
| JsSemantics.FirstTruthy | src/app/api/sms/outgoing/route.ts:25-28 | `FirstTruthy` is None exactly when every operand is falsy; otherwise it is the first truthy operand, and every earlier operand is falsy |
| JsSemantics.FirstTruthyIsFirst | src/app/api/sms/outgoing/route.ts:25-28 | if operand i is truthy and all earlier ones are falsy, the chain yields operand i whatever the later operands are |
| JsSemantics.OrChainIsFirstTruthy | src/app/api/sms/outgoing/route.ts:25-28 | the four-operand `\|\|` chain is truthy exactly when some operand is, and then equals the first truthy operand (JS `\|\|` skips `""` too) |
| JsSemantics.OrChain3IsFirstTruthy | test-phone-extraction.js:32-34 | the same for the script's three-operand chain |
| JsSemantics.TrimStart | src/app/api/sms/incoming/route.ts:11 | the result is a suffix of the input; everything dropped is ECMAScript whitespace; the result does not start with whitespace |
| JsSemantics.TrimEnd | src/app/api/sms/incoming/route.ts:11 | the result is a prefix of the input; everything dropped is whitespace; the result does not end with whitespace |
| JsSemantics.TrimPadded | src/app/api/sms/incoming/route.ts:11 | whitespace added on either side never changes what `trim` returns |
| JsSemantics.ToLowerAscii | src/app/api/sms/incoming/route.ts:11 | same length, and each character is case-folded on its own |
| JsSemantics.ToLowerTrim | src/app/api/sms/incoming/route.ts:11 | trimming and lower-casing commute |
| JsSemantics.TruthyString | src/app/api/sms/outgoing/route.ts:25-30 | definition of the truthiness of an optional string (`undefined`, `null` and `""` are falsy); tied to `Truthy` by `TruthyStringIsTruthy`, and used by `Or`, `FirstTruthy`, `OrChainIsFirstTruthy` and `GuardedNormalize` |
| JsSemantics.TruthyStringIsTruthy | src/app/api/sms/outgoing/route.ts:25-30 | the truthiness of an optional string is ToBoolean of the string, or of `undefined` when it is absent |
| JsSemantics.StartsWith | src/app/api/sms/outgoing/route.ts:51 | definition of `startsWith` as a prefix test; used by `Normalize` and `GuardedNormalize`, whose ensures state the prefixing |
| JsSemantics.Truthy | src/app/api/sms/outgoing/route.ts:19 | definition of JS ToBoolean; used by `Eligible`, which `HandleOutbound`'s ensures and `StringFlagFixtureIsRelayed` characterise |
| JsSemantics.Or | src/app/api/sms/outgoing/route.ts:25-28 | definition of `\|\|` on optional strings; proved equal to `FirstTruthy` in `OrChainIsFirstTruthy` and `OrChain3IsFirstTruthy` |
| JsSemantics.Includes | test-threading.js:54 | definition of `includes` as a left-to-right search; characterised in `IncludesAt` |
| JsSemantics.Trim | src/app/api/sms/incoming/route.ts:11 | definition of `trim` as `TrimEnd` after `TrimStart`; properties proved in `TrimPadded` and `ToLowerTrim` |
| JsSemantics.Filter | debug-tickets.js:63 | every kept element is in the input and passes the test; every input element that passes is kept |
| JsSemantics.FilterAppend | test-threading.js:43-45 | filtering a concatenation is the concatenation of the filtered parts, so list order is kept |
| JsSemantics.FilterFirst | debug-tickets.js:66-67 | the first kept element is the earliest input element that passes; all before it fail |
| JsSemantics.FilterFilter | test-threading.js:53-55 | two filters in a row equal one filter by the conjunction of their tests |
| EmailPatterns.UpToAt | src/app/api/sms/outgoing/route.ts:38 | the text before the first `@`: a prefix with no `@`, followed by `@` when shorter than the input |
| EmailPatterns.SmsCaptureFrom | src/app/api/sms/outgoing/route.ts:38 | `/sms([^@]*?)@/` matches exactly when some index has "sms" with an `@` later; the capture is the text up to the first `@` after the leftmost such index |
| EmailPatterns.DigitRun | src/app/api/sms/outgoing/route.ts:38 | the greedy `\d+`: the longest prefix of ASCII digits |
| EmailPatterns.PlusCaptureFrom | src/app/api/sms/outgoing/route.ts:38 | `/(\+\d+)/` matches exactly when some `+` is followed by a digit; the capture is `+` and the whole digit run at the leftmost such index |
| EmailPatterns.SmsCapture | src/app/api/sms/outgoing/route.ts:38 | definition: the scan of `SmsCaptureFrom` from index 0; characterised there |
| EmailPatterns.PlusCapture | src/app/api/sms/outgoing/route.ts:38 | definition: the scan of `PlusCaptureFrom` from index 0; characterised there |
| EmailPatterns.EmailCapture | src/app/api/sms/outgoing/route.ts:38 | no capture exactly when neither pattern matches. The first pattern's capture (without `@`) wins whenever it matches. Otherwise the result is exactly the second pattern's capture: the leftmost `+` that a digit follows, with its whole digit run |
| EmailPatterns.EmailCaptureOfSmsShape | src/app/api/sms/outgoing/route.ts:38 | an email "sms" + p + rest, with no `@` in p and rest starting with `@`, captures p |
| EmailPatterns.GenericEmailCapture | src/app/api/sms/outgoing/route.ts:38 | `sms@rescuelink.com` matches with an empty capture |
| EmailPatterns.DashedEmailCapture | src/app/api/sms/outgoing/route.ts:38 | `sms-15551234567@domain` captures `-15551234567` |
| CustomerKey.DerivedEmail | src/app/api/sms/incoming/route.ts:58 | the key is "sms", then the sender verbatim, then "@rescuelink.com"; debug-tickets.js:10 searches customers by this same key |
| CustomerKey.DerivedEmailInjective | src/app/api/sms/incoming/route.ts:58 | distinct senders never share a key |
| CustomerKey.EmailCaptureOfDerivedEmail | src/app/api/sms/outgoing/route.ts:38 | round trip: the outbound extraction recovers any sender without `@` from the inbound key |
| OutgoingRoute.HttpStatus | src/app/api/sms/outgoing/route.ts:21-87 | definition of the status of each reply (ignored 200, no phone 400, success 200, failure 500); `HandleOutbound`'s ensures make 400 the exact no-pattern case |
| OutgoingRoute.Eligible | src/app/api/sms/outgoing/route.ts:19-22 | definition of the gate (`from_agent` truthy and channel "sms"); `HandleOutbound`'s ensures make it the exact condition for not ignoring |
| OutgoingRoute.OriginalFrom | src/app/api/sms/outgoing/route.ts:26 | definition of `ticket.original_message?.from`; used as `Sources`' second entry |
| OutgoingRoute.FirstChannelAddress | src/app/api/sms/outgoing/route.ts:27 | definition of `ticket.customer.channels?.[0]?.address`; used as `Sources`' third entry |
| OutgoingRoute.FirstMessageFrom | src/app/api/sms/outgoing/route.ts:28 | definition of `ticket.messages?.[0]?.source?.from?.address`; used as `Sources`' fourth entry |
| OutgoingRoute.Sources | src/app/api/sms/outgoing/route.ts:25-28 | the four optional-chained lookups, in chain order: `customer.phone`, `original_message?.from`, `customer.channels?.[0]?.address`, `messages?.[0]?.source?.from?.address` |
| OutgoingRoute.Normalize | src/app/api/sms/outgoing/route.ts:51-53 | the result starts with `+`; an input with `+` is unchanged; otherwise the input is kept whole behind one added `+` |
| OutgoingRoute.NormalizeIdempotent | src/app/api/sms/outgoing/route.ts:51-53 | normalising twice equals normalising once |
| OutgoingRoute.NormalizeAddsPlus | src/app/api/sms/outgoing/route.ts:51-53 | a number that is empty or does not start with `+` becomes `+` followed by that number |
| OutgoingRoute.Destination | src/app/api/sms/outgoing/route.ts:24-53 | a resolved destination starts with `+`. No match (400) exactly when all four sources are falsy, the email is a string and neither pattern matches. The email TypeError exactly when all sources are falsy and the email is missing |
| OutgoingRoute.ResolveDestination | src/app/api/sms/outgoing/route.ts:25-53 | the step-by-step reassignment of `customerPhone` computes exactly `Destination` |
| OutgoingRoute.HandleOutbound | src/app/api/sms/outgoing/route.ts:11-88 | ignored exactly when `from_agent` is falsy or the channel is not "sms". A send happens exactly when eligible and resolved, with the message body, the Twilio number and a `+`-prefixed destination. 400 exactly when no pattern matched. Success exactly when a send happened and Twilio delivered, and then `to` equals the number sent to |
| OutgoingRoute.LaterSourcesIgnored | src/app/api/sms/outgoing/route.ts:25-28 | two tickets that agree on the sources up to a truthy one resolve alike |
| OutgoingRoute.EmailIgnoredWhenSourcePresent | src/app/api/sms/outgoing/route.ts:30-38 | when any source is truthy, changing the customer email changes nothing |
| OutgoingRoute.NoSourceFallsBackToEmail | src/app/api/sms/outgoing/route.ts:30-53 | with all four sources falsy and an email present, the destination is the normalised email capture, or the 400 when neither pattern matches |
| OutgoingRoute.GenericEmailYieldsBarePlus | src/app/api/sms/outgoing/route.ts:38-53 | with no source and the email `sms@rescuelink.com` the destination is `+`, not an error |
| OutgoingRoute.DashedEmailKeepsDash | src/app/api/sms/outgoing/route.ts:38-53 | with no source and the email `sms-15551234567@domain` the destination is `+-15551234567` |
| OutgoingRoute.StringFlagFixtureIsRelayed | test-webhook-data.js:9-31 | with `from_agent` the string "True", the generic email and the number in the first message, the event is not ignored and is sent to `+17865166660` |
| IncomingRoute.KeywordOf | src/app/api/sms/incoming/route.ts:13-23 | definition of the keyword comparisons; their outcomes are stated in `HandleIncoming` |
| IncomingRoute.Classify | src/app/api/sms/incoming/route.ts:11-23 | definition: keywords on `trim` then lower-case; properties proved in `ClassifyIgnoresPadding`, `ClassifyIgnoresCase` and `UpperStopUnsubscribes` |
| IncomingRoute.SendTwimlResponse | src/app/api/sms/incoming/route.ts:41-53 | definition: status 200, `text/xml`, the `Twiml` document; `HandleIncoming` and `AlwaysReplies` state its use |
| IncomingRoute.Twiml | src/app/api/sms/incoming/route.ts:41-45 | the document is the fixed head, the reply text verbatim (not escaped), then the fixed tail |
| IncomingRoute.MessageOfTwiml | src/app/api/sms/incoming/route.ts:41-45 | the reply text is read back unchanged from the document |
| IncomingRoute.TicketPayloadFor | src/app/api/sms/incoming/route.ts:56-76 | the ticket body has customer email `DerivedEmail(from)` and exactly one message. That message has source from `From`, to `[To]`, type phone, the given text, channel sms, `from_agent` false and via api. The ticket has channel sms, `from_agent` false, status open, via api, and subject exactly "SMS from " + `From`, which therefore contains `From` |
| IncomingRoute.HandleIncoming | src/app/api/sms/incoming/route.ts:3-38 | always 200 text/xml. A missing `Body` gives the fallback reply. stop/unsubscribe and start/subscribe create no ticket and give their fixed confirmations. help creates a ticket with the fixed help text, not the user's text. Any other text creates a ticket with the untrimmed `Body`. When creation fails, help and other texts get the generic fallback reply |
| IncomingRoute.ClassifyIgnoresPadding | src/app/api/sms/incoming/route.ts:11 | whitespace around the text never changes its class |
| IncomingRoute.ClassifyIgnoresCase | src/app/api/sms/incoming/route.ts:11 | texts that are equal up to ASCII case fall in the same class |
| IncomingRoute.UpperStopUnsubscribes | src/app/api/sms/incoming/route.ts:11-13 | "STOP" is an unsubscribe |
| IncomingRoute.PaddedUpperStopUnsubscribes | src/app/api/sms/incoming/route.ts:11-16 | `"  STOP "` creates no ticket and gets the unsubscribe confirmation |
| IncomingRoute.AlwaysReplies | src/app/api/sms/incoming/route.ts:35-38 | every request, including ones whose ticket creation fails, gets a well-formed TwiML message |
| PhoneExtractionScript.MockTicket | test-phone-extraction.js:2-23 | definition of the script's mock ticket; `MockTicketPhone` states its result |
| PhoneExtractionScript.FirstSource | test-phone-extraction.js:42 | definition of the guard's `ticket.messages[0].source` |
| PhoneExtractionScript.ScriptResult | test-phone-extraction.js:32-67 | reference definition of the script's result; `ExtractPhone` is proved equal to it, and `AgreesWithHandler` relates it to the handler |
| PhoneExtractionScript.GuardedNormalize | test-phone-extraction.js:63-65 | only a truthy phone is normalised; a falsy one (including `""`) is left as it is |
| PhoneExtractionScript.ExtractPhone | test-phone-extraction.js:32-65 | the guarded updates of `customerPhone` compute exactly `ScriptResult`: three sources, then `messages[0]` when it has a source, then the email, never an error for a missing match |
| PhoneExtractionScript.AgreesWithHandler | test-phone-extraction.js:32-65 | whenever the script ends with a non-empty phone, the outbound handler resolves the same number |
| PhoneExtractionScript.UnmatchedEmailLeavesPhoneUnset | test-phone-extraction.js:40-60 | when no source is truthy, `messages[0]` has no source or its source has a `from`, and no pattern matches the email: the script leaves the phone falsy and raises nothing, while the handler answers 400 |
| PhoneExtractionScript.GenericEmailStaysEmpty | test-phone-extraction.js:40-65 | under the same conditions with the generic email, the script ends with `""`, while the handler sends to `+` |
| PhoneExtractionScript.MockTicketPhone | test-phone-extraction.js:2-23 | for the mock ticket both the script and the handler give `+1 555-123-4567`, taken from `messages[0]`, spaces and dashes kept |
| GorgiasTickets.IsOpen | debug-deleted-tickets.js:54 | definition of `status === 'open'`; used by `OpenTickets`, `OpenNonTrashedTickets` and `IsOpenSms` |
| GorgiasTickets.IsSms | debug-deleted-tickets.js:39 | definition of `channel === 'sms'`; used by `PhoneSmsTickets` and `IsOpenSms` |
| GorgiasTickets.IsOpenSms | debug-tickets.js:63 | definition of the open-SMS test; used by `DebugTickets.OpenSmsTickets`, `ThreadingScript.OpenSmsTickets` and `Decide`, whose ensures characterise it |
| GorgiasTickets.MentionsPhone | test-threading.js:54 | definition: a truthy subject that includes the phone |
| GorgiasTickets.IsTrashed | debug-deleted-tickets.js:59 | definition: a truthy `trashed_datetime` |
| GorgiasTickets.FilterData | test-threading.js:43-45 | definition of `data?.filter(p) \|\| []`; characterised by the scripts' filter ensures |
| GorgiasTickets.FirstOrCreate | debug-tickets.js:66-70 | definition of "first id, else create new"; properties proved in `FirstOrCreateFiltered` |
| GorgiasTickets.FirstOrCreateFiltered | debug-tickets.js:66-70 | "first of the filtered list, else create new" creates new exactly when no ticket passes; otherwise it reuses the earliest passing ticket |
| GorgiasTickets.FirstOrCreateFilteredData | test-threading.js:59-65 | the same over `data?.filter(p) \|\| []`: a missing list always creates new |
| DebugTickets.OpenSmsTickets | debug-tickets.js:63 | keeps exactly the tickets with status open and channel sms |
| DebugTickets.Lookup | debug-tickets.js:51-72 | a missing or empty list takes the no-tickets branch. Otherwise it creates new exactly when no ticket is open SMS, or reuses the earliest open SMS ticket |
| ThreadingScript.OpenSmsTickets | test-threading.js:43-45 | a missing list gives no tickets; otherwise exactly the open SMS tickets |
| ThreadingScript.PhoneSpecificTickets | test-threading.js:53-55 | exactly the open SMS tickets with a non-empty subject containing the phone, a subset of the open SMS tickets |
| ThreadingScript.PhoneSpecificIsOneFilter | test-threading.js:43-55 | the two filters (with `\|\| []` for a missing list) equal one filter by "open SMS and mentions the phone", in list order |
| ThreadingScript.Decide | test-threading.js:59-65 | creates new exactly when the list is missing or no ticket is open SMS and mentions the phone; otherwise reuses the earliest such ticket |
| DeletedTicketsScript.PhoneSmsTickets | debug-deleted-tickets.js:38-40 | a missing list gives no tickets; otherwise exactly the SMS tickets whose subject contains the phone |
| DeletedTicketsScript.OpenTickets | debug-deleted-tickets.js:54 | exactly the candidates with status open |
| DeletedTicketsScript.OpenNonTrashedTickets | debug-deleted-tickets.js:58-60 | exactly the open candidates without `trashed_datetime`: a subset of the open ones, none of them trashed |
| DeletedTicketsScript.OpenNonTrashedNarrowsOpen | debug-deleted-tickets.js:54-60 | the open non-trashed list is the open list with trashed tickets removed, in the same order |
| DeletedTicketsScript.Report | debug-deleted-tickets.js:58-70 | "create new" exactly when no SMS ticket that mentions the phone is both open and not trashed; otherwise it lists exactly those tickets (the open, non-trashed ones among the phone's SMS tickets), a non-empty list with none trashed |
| DeletedTicketsScript.TrashedOpenTicketMeansCreateNew | debug-deleted-tickets.js:58-70 | a trashed ticket with status open is in the open list, yet the verdict is still "create new" |
| HandlerRoundTrip.ReplyReachesInboundSender | src/app/api/sms/outgoing/route.ts:25-53 | for a ticket built by the inbound handler, the outbound destination is the normalised sender; an empty sender ends at `+` through the key |
| HandlerRoundTrip.AgentReplyReachesInboundSender | src/app/api/sms/outgoing/route.ts:19-67 | an agent's reply on such a ticket is sent to the normalised inbound sender |
| HandlerRoundTrip.KeyAloneReachesSender | src/app/api/sms/outgoing/route.ts:30-53 | on any ticket whose four sources are falsy and whose customer email is the inbound key of a sender without `@`, the destination is that sender, normalised |

## Left out

- Twilio and Gorgias network calls, `.env` loading and the Basic-auth header built with base64. The send result and the creation result are parameters. The scripts' customer search is not modelled: the ticket list is their input.
- Request parsing (`req.json()`, `req.formData()`). The webhook body is assumed to contain `ticket`, `message` and `ticket.customer` objects. A missing `message` throws a TypeError (500). A missing `ticket` throws only when `from_agent` is truthy. A missing `ticket.customer` throws only when the gate passes (line 25); otherwise the event is ignored. The model does not cover the throwing cases. The form fields `From` and `To` are assumed present. A missing `Body` is modelled (fallback reply).
- JSON values other than strings in the phone, email, subject and status fields. The model types these fields as optional strings. A number would make `startsWith` throw on a phone, `match` throw on the email and `includes` throw on a subject; on a status, `===` is simply false.
- JavaScript numbers in `from_agent` are modelled as integers; `NaN` is left out.
- `toLowerCase` is modelled on ASCII letters only. `trim` uses the full ECMAScript whitespace set.
- Console logging, `handleUnsubscribe`/`handleSubscribe` (they only log and never throw), the text of runtime TypeError messages (`Failure.EmailNotAString`), and the scripts' printouts other than their final decision.
- `HandlerRoundTrip.WebhookViewOf` is an assumption about how Gorgias reports a ticket it created: the stored customer email and each message's sender. It is not source code. The fixtures in debug-tickets.js:12-13, test-threading.js:13-14 and test-webhook-data.js:14 show the generic `sms@rescuelink.com` as the stored email instead. The round-trip lemmas do not depend on which one is stored. For a non-empty sender, `messages[0]` decides the destination. For an empty sender, the key is the generic email itself.
- `test-gorgias.js`, `test-customer.js`, `test-untrash.js`, `check-customer.js`, `check-actual-customers.js` and `test-webhook-data.js` call the Gorgias API or the webhook: authentication probes, customer searches, creating a test customer and ticket, untrashing one fixed ticket. They do not take part in routing messages. The webhook fixture in `test-webhook-data.js` appears in `StringFlagFixtureIsRelayed`.
