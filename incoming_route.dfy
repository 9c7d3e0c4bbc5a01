/**
 * The inbound webhook handler (src/app/api/sms/incoming/route.ts): Twilio posts
 * an SMS as form fields; the handler classifies the text, asks Gorgias to
 * create a ticket for help requests and ordinary messages, and answers with a
 * TwiML document. Whether the Gorgias call succeeds is supplied by the caller.
 */
module IncomingRoute {
  import opened Wrappers
  import opened JsSemantics
  import opened CustomerKey

  /** The form fields `Body`, `From` and `To`; a missing `Body` is None. */
  datatype InboundForm = InboundForm(body: Option<string>, from: string, to: string)

  datatype Keyword = Unsubscribe | Subscribe | Help | General

  /** The keyword comparisons on the normalised text. */
  function KeywordOf(messageBody: string): Keyword {
    if messageBody == "stop" || messageBody == "unsubscribe" then Unsubscribe
    else if messageBody == "start" || messageBody == "subscribe" then Subscribe
    else if messageBody == "help" then Help
    else General
  }

  /** `Body.trim().toLowerCase()` compared with the keywords. */
  function Classify(body: string): Keyword {
    KeywordOf(ToLowerAscii(Trim(body)))
  }

  const UnsubscribeReply: string := "CONFIRMED: You've been unsubscribed from Rescue Link SMS notifications. You will not receive any more automated messages. Text START to resubscribe or email support@rescuelink.com for assistance."
  const SubscribeReply: string := "Welcome back! You're subscribed to Rescue Link updates. Reply STOP to opt out."
  const HelpTicketBody: string := "Customer requested help via SMS"
  const HelpReply: string := "Hi! You can text us anytime and someone from our Rescue Link team will respond. Please include your name in your message so we can assist you better. Reply STOP to opt out or email support@dryeyerescue.com"
  const AutoReply: string := "Thanks for contacting Rescue Link! We've received your message and will respond shortly. If this is your first time messaging us, please include your name so we can assist you better. For urgent matters, email support@dryeyerescue.com"
  const FallbackReply: string := "Thanks for your message. We'll get back to you soon!"

  const TwimlHead: string := "<?xml version=\"1.0\" encoding=\"UTF-8\"?>\n<Response>\n    <Message>"
  const TwimlTail: string := "</Message>\n</Response>"

  /** The HTTP answer `sendTwiMLResponse` builds. */
  datatype TwimlResponse = TwimlResponse(status: int, contentType: string, body: string)

  /** The TwiML document around a reply text; the text is inserted as is, without XML escaping. */
  function Twiml(message: string): (xml: string)
    ensures |xml| == |TwimlHead| + |message| + |TwimlTail|
    ensures xml[..|TwimlHead|] == TwimlHead && xml[|xml| - |TwimlTail|..] == TwimlTail
    ensures xml[|TwimlHead|..|xml| - |TwimlTail|] == message
  {
    TwimlHead + message + TwimlTail
  }

  function SendTwimlResponse(message: string): TwimlResponse {
    TwimlResponse(200, "text/xml", Twiml(message))
  }

  /** Reads the reply text back out of a TwiML document. */
  function MessageOf(xml: string): Option<string> {
    if |xml| >= |TwimlHead| + |TwimlTail| && xml[..|TwimlHead|] == TwimlHead
       && xml[|xml| - |TwimlTail|..] == TwimlTail
    then Some(xml[|TwimlHead|..|xml| - |TwimlTail|])
    else None
  }

  /** The reply text is recovered verbatim from the document, whatever characters it holds. */
  lemma MessageOfTwiml(message: string)
    ensures MessageOf(Twiml(message)) == Some(message)
  {
  }

  /** The `{ address }` entries and the message object of the Gorgias ticket body. */
  datatype PayloadSource = PayloadSource(to: seq<string>, from: string, kind: string)
  datatype PayloadMessage = PayloadMessage(source: PayloadSource, bodyText: string, channel: string,
                                           fromAgent: bool, via: string)
  datatype TicketPayload = TicketPayload(customerEmail: string, messages: seq<PayloadMessage>, channel: string,
                                         fromAgent: bool, status: string, via: string, subject: string)

  /** The ticket body `createGorgiasTicket` posts. */
  function TicketPayloadFor(from: string, to: string, body: string): (t: TicketPayload)
    ensures t.customerEmail == DerivedEmail(from)
    ensures |t.messages| == 1
    ensures t.messages[0].source == PayloadSource([to], from, "phone")
    ensures t.messages[0].bodyText == body && t.messages[0].channel == "sms" && !t.messages[0].fromAgent
    ensures t.channel == "sms" && !t.fromAgent && t.status == "open" && t.via == "api"
    ensures t.messages[0].via == "api"
    ensures t.subject == "SMS from " + from && Includes(t.subject, from)
  {
    var subject := "SMS from " + from;
    assert OccursAt(subject, from, 9);
    IncludesAt(subject, from);
    TicketPayload(
      DerivedEmail(from),
      [PayloadMessage(PayloadSource([to], from, "phone"), body, "sms", false, "api")],
      "sms", false, "open", "api", subject)
  }

  /** Whether the Gorgias call returned an ok response, or failed (non-2xx status or a thrown error). */
  datatype CreationOutcome = Created | CreationFailed

  /** The ticket body the handler tried to create, if any, and the TwiML answer. */
  datatype Handled = Handled(attempted: Option<TicketPayload>, response: TwimlResponse)

  /** The POST handler. */
  function HandleIncoming(form: InboundForm, creation: CreationOutcome): (h: Handled)
    ensures h.response.status == 200 && h.response.contentType == "text/xml"
    ensures form.body.None? ==> h == Handled(None, SendTwimlResponse(FallbackReply))
    ensures form.body.Some? && Classify(form.body.value) == Unsubscribe ==>
              h == Handled(None, SendTwimlResponse(UnsubscribeReply))
    ensures form.body.Some? && Classify(form.body.value) == Subscribe ==>
              h == Handled(None, SendTwimlResponse(SubscribeReply))
    ensures form.body.Some? && Classify(form.body.value) == Help ==>
              h.attempted == Some(TicketPayloadFor(form.from, form.to, HelpTicketBody))
              && h.response == SendTwimlResponse(if creation == Created then HelpReply else FallbackReply)
    ensures form.body.Some? && Classify(form.body.value) == General ==>
              h.attempted == Some(TicketPayloadFor(form.from, form.to, form.body.value))
              && h.response == SendTwimlResponse(if creation == Created then AutoReply else FallbackReply)
  {
    match form.body
    case None => Handled(None, SendTwimlResponse(FallbackReply))
    case Some(body) =>
      match Classify(body)
      case Unsubscribe => Handled(None, SendTwimlResponse(UnsubscribeReply))
      case Subscribe => Handled(None, SendTwimlResponse(SubscribeReply))
      case Help =>
        var ticket := TicketPayloadFor(form.from, form.to, HelpTicketBody);
        Handled(Some(ticket), SendTwimlResponse(if creation == Created then HelpReply else FallbackReply))
      case General =>
        var ticket := TicketPayloadFor(form.from, form.to, body);
        Handled(Some(ticket), SendTwimlResponse(if creation == Created then AutoReply else FallbackReply))
  }

  /** Whitespace around the text never changes its class. */
  lemma ClassifyIgnoresPadding(w1: string, body: string, w2: string)
    requires AllWhitespace(w1) && AllWhitespace(w2)
    ensures Classify(w1 + body + w2) == Classify(body)
  {
    TrimPadded(w1, body, w2);
    assert ToLowerAscii(Trim(w1 + body + w2)) == ToLowerAscii(Trim(body));
  }

  /** Two texts that differ only in the case of ASCII letters fall in the same class. */
  lemma ClassifyIgnoresCase(b1: string, b2: string)
    requires ToLowerAscii(b1) == ToLowerAscii(b2)
    ensures Classify(b1) == Classify(b2)
  {
    ToLowerTrim(b1);
    ToLowerTrim(b2);
  }

  /** "  STOP " unsubscribes: no ticket is created and the opt-out confirmation is sent. */
  lemma PaddedUpperStopUnsubscribes(from: string, to: string, creation: CreationOutcome)
    ensures HandleIncoming(InboundForm(Some("  STOP "), from, to), creation)
            == Handled(None, SendTwimlResponse(UnsubscribeReply))
  {
    var padded := "  STOP ";
    assert padded == padded[..2] + padded[2..6] + padded[6..];
    assert padded[..2] == "  " && padded[2..6] == "STOP" && padded[6..] == " ";
    ClassifyIgnoresPadding("  ", "STOP", " ");
    UpperStopUnsubscribes();
  }

  lemma UpperStopUnsubscribes()
    ensures Classify("STOP") == Unsubscribe
  {
    var s := "STOP";
    assert TrimStart(s) == s by { assert !IsJsWhitespace(s[0]); }
    assert TrimEnd(s) == s by { assert !IsJsWhitespace(s[3]); }
    var l := ToLowerAscii(s);
    assert l[0] == 's' && l[1] == 't' && l[2] == 'o' && l[3] == 'p';
    assert l == "stop";
  }

  /** Every request gets a well-formed TwiML message back, also when ticket creation fails. */
  lemma AlwaysReplies(form: InboundForm, creation: CreationOutcome)
    ensures MessageOf(HandleIncoming(form, creation).response.body).Some?
  {
    var h := HandleIncoming(form, creation);
    var m :| h.response.body == Twiml(m);
    MessageOfTwiml(m);
  }
}
