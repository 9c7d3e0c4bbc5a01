/**
 * The outbound webhook handler (src/app/api/sms/outgoing/route.ts): an agent's
 * reply on a Gorgias ticket is relayed by SMS to the phone number recovered
 * from the ticket. The Twilio send is an outcome supplied by the caller.
 */
module OutgoingRoute {
  import opened Wrappers
  import opened JsSemantics
  import opened EmailPatterns

  /** The parts of the webhook body the handler reads; None stands for `undefined` or `null`. */
  datatype ChannelEntry = ChannelEntry(address: Option<string>)
  datatype Customer = Customer(phone: Option<string>, email: Option<string>, channels: Option<seq<ChannelEntry>>)
  datatype Address = Address(address: Option<string>)
  datatype Source = Source(from: Option<Address>)
  datatype StoredMessage = StoredMessage(source: Option<Source>)
  datatype OriginalMessage = OriginalMessage(from: Option<string>)
  datatype WebhookTicket = WebhookTicket(
    channel: Option<string>,
    customer: Customer,
    originalMessage: Option<OriginalMessage>,
    messages: Option<seq<StoredMessage>>)
  datatype AgentMessage = AgentMessage(fromAgent: JsValue, bodyText: Option<string>)
  datatype WebhookEvent = WebhookEvent(ticket: WebhookTicket, message: AgentMessage)

  /** What is handed to Twilio, and what Twilio answers. */
  datatype SendRequest = SendRequest(body: Option<string>, from: Option<string>, to: string)
  datatype SendOutcome = Delivered(sid: string) | SendError(message: string)

  /** Why the handler fell into its catch block. */
  datatype Failure = EmailNotAString | Gateway(message: string)

  /** The JSON reply: `{status: 'ignored'}`, the 400 error, `{success, messageSid, to}`, or the 500 error. */
  datatype Reply = Ignored | NoPhoneInEmail | Relayed(messageSid: string, to: string) | Failed(cause: Failure)
  datatype Handled = Handled(request: Option<SendRequest>, reply: Reply)

  function HttpStatus(r: Reply): int {
    match r
    case Ignored => 200
    case NoPhoneInEmail => 400
    case Relayed(_, _) => 200
    case Failed(_) => 500
  }

  /** `!message.from_agent || ticket.channel !== 'sms'` negated: the event is an agent reply on an SMS ticket. */
  predicate Eligible(ev: WebhookEvent) {
    Truthy(ev.message.fromAgent) && ev.ticket.channel == Some("sms")
  }

  /** `ticket.original_message?.from` */
  function OriginalFrom(t: WebhookTicket): Option<string> {
    match t.originalMessage
    case None => None
    case Some(m) => m.from
  }

  /** `ticket.customer.channels?.[0]?.address` */
  function FirstChannelAddress(c: Customer): Option<string> {
    match c.channels
    case None => None
    case Some(cs) => if cs == [] then None else cs[0].address
  }

  /** `ticket.messages?.[0]?.source?.from?.address` */
  function FirstMessageFrom(t: WebhookTicket): Option<string> {
    match t.messages
    case None => None
    case Some(ms) =>
      if ms == [] then None
      else match ms[0].source
        case None => None
        case Some(src) =>
          match src.from
          case None => None
          case Some(a) => a.address
  }

  /** The four places a phone number is looked for, in the order of the `||` chain. */
  function Sources(t: WebhookTicket): (s: seq<Option<string>>)
    ensures |s| == 4
    ensures s[0] == t.customer.phone && s[1] == OriginalFrom(t)
            && s[2] == FirstChannelAddress(t.customer) && s[3] == FirstMessageFrom(t)
  {
    [t.customer.phone, OriginalFrom(t), FirstChannelAddress(t.customer), FirstMessageFrom(t)]
  }

  /** "Ensure phone has + prefix": a '+' is put in front when missing; nothing is removed. */
  function Normalize(p: string): (r: string)
    ensures StartsWith(r, "+")
    ensures StartsWith(p, "+") ==> r == p
    ensures |p| <= |r| <= |p| + 1 && r[|r| - |p|..] == p
  {
    if StartsWith(p, "+") then p else "+" + p
  }

  /** Normalising twice is normalising once. */
  lemma NormalizeIdempotent(p: string)
    ensures Normalize(Normalize(p)) == Normalize(p)
  {
  }

  /** A number that starts with anything but '+' gets exactly one '+' in front. */
  lemma NormalizeAddsPlus(p: string)
    requires p == [] || p[0] != '+'
    ensures Normalize(p) == "+" + p
  {
  }

  /** Where an eligible reply goes: a number, a 400 because no pattern matched, or a TypeError on the email. */
  datatype Resolution = Resolved(phone: string) | NoPattern | EmailMissing

  /**
   * The destination, stated as a fallback pipeline: the first truthy source, else the
   * capture of the customer email, then normalised.
   */
  function Destination(t: WebhookTicket): (r: Resolution)
    ensures r.Resolved? ==> StartsWith(r.phone, "+")
    ensures r.NoPattern? <==> FirstTruthy(Sources(t)).None? && t.customer.email.Some?
                              && EmailCapture(t.customer.email.value).None?
    ensures r.EmailMissing? <==> FirstTruthy(Sources(t)).None? && t.customer.email.None?
  {
    match FirstTruthy(Sources(t))
    case Some(p) => Resolved(Normalize(p))
    case None =>
      match t.customer.email
      case None => EmailMissing
      case Some(e) =>
        match EmailCapture(e)
        case Some(c) => Resolved(Normalize(c))
        case None => NoPattern
  }

  /** Lines 25-53 as written: `customerPhone` is assigned by the chain, then by the capture, then prefixed. */
  method ResolveDestination(t: WebhookTicket) returns (r: Resolution)
    ensures r == Destination(t)
  {
    var customerPhone := Or(Or(Or(t.customer.phone, OriginalFrom(t)), FirstChannelAddress(t.customer)),
                            FirstMessageFrom(t));
    OrChainIsFirstTruthy(t.customer.phone, OriginalFrom(t), FirstChannelAddress(t.customer), FirstMessageFrom(t));
    var phone: string;
    if TruthyString(customerPhone) {
      phone := customerPhone.value;
    } else {
      if t.customer.email.None? {
        return EmailMissing;
      }
      var phoneMatch := EmailCapture(t.customer.email.value);
      if phoneMatch.None? {
        return NoPattern;
      }
      phone := phoneMatch.value;
    }
    if !StartsWith(phone, "+") {
      phone := "+" + phone;
    }
    return Resolved(phone);
  }

  /** The POST handler, from the parsed body to the request sent (if any) and the JSON reply. */
  function HandleOutbound(ev: WebhookEvent, twilioNumber: Option<string>, outcome: SendOutcome): (h: Handled)
    ensures h.reply.Ignored? <==> !Eligible(ev)
    ensures h.request.Some? <==> Eligible(ev) && Destination(ev.ticket).Resolved?
    ensures h.request.Some? ==> h.request.value == SendRequest(ev.message.bodyText, twilioNumber, Destination(ev.ticket).phone)
                                && StartsWith(h.request.value.to, "+")
    ensures HttpStatus(h.reply) == 400 <==> Eligible(ev) && Destination(ev.ticket).NoPattern?
    ensures h.reply.Relayed? <==> h.request.Some? && outcome.Delivered?
    ensures h.reply.Relayed? ==> h.reply.to == h.request.value.to && h.reply.messageSid == outcome.sid
  {
    if !Eligible(ev) then Handled(None, Ignored)
    else
      match Destination(ev.ticket)
      case EmailMissing => Handled(None, Failed(EmailNotAString))
      case NoPattern => Handled(None, NoPhoneInEmail)
      case Resolved(to) =>
        var request := SendRequest(ev.message.bodyText, twilioNumber, to);
        match outcome
        case Delivered(sid) => Handled(Some(request), Relayed(sid, to))
        case SendError(msg) => Handled(Some(request), Failed(Gateway(msg)))
  }

  /** Once a source is truthy, the email and every later source are never consulted. */
  lemma LaterSourcesIgnored(t1: WebhookTicket, t2: WebhookTicket, i: nat)
    requires i < 4 && TruthyString(Sources(t1)[i])
    requires forall j :: 0 <= j <= i ==> Sources(t1)[j] == Sources(t2)[j]
    ensures Destination(t1) == Destination(t2)
  {
    var s1, s2 := Sources(t1), Sources(t2);
    var k :| 0 <= k <= i && TruthyString(s1[k]) && forall j :: 0 <= j < k ==> !TruthyString(s1[j]);
    FirstTruthyIsFirst(s1, k);
    FirstTruthyIsFirst(s2, k);
  }

  /** The customer email plays a part only when all four sources are falsy. */
  lemma EmailIgnoredWhenSourcePresent(t: WebhookTicket, email: Option<string>)
    requires exists i :: 0 <= i < 4 && TruthyString(Sources(t)[i])
    ensures Destination(t.(customer := t.customer.(email := email))) == Destination(t)
  {
    var t' := t.(customer := t.customer.(email := email));
    assert Sources(t') == Sources(t);
  }

  /** With all four sources falsy, the destination is read from the customer email alone. */
  lemma NoSourceFallsBackToEmail(t: WebhookTicket)
    requires forall i :: 0 <= i < 4 ==> !TruthyString(Sources(t)[i])
    requires t.customer.email.Some?
    ensures EmailCapture(t.customer.email.value).None? ==> Destination(t) == NoPattern
    ensures EmailCapture(t.customer.email.value).Some? ==>
              Destination(t) == Resolved(Normalize(EmailCapture(t.customer.email.value).value))
  {
    assert FirstTruthy(Sources(t)).None?;
  }

  /** The first pattern wins even when it captures nothing, so `sms@<domain>` yields "+", not a 400. */
  lemma GenericEmailYieldsBarePlus(t: WebhookTicket)
    requires forall i :: 0 <= i < 4 ==> !TruthyString(Sources(t)[i])
    requires t.customer.email == Some("sms@rescuelink.com")
    ensures Destination(t) == Resolved("+")
  {
    assert EmailCapture(t.customer.email.value) == Some("") by { GenericEmailCapture(); }
    assert Destination(t) == Resolved(Normalize("")) by { NoSourceFallsBackToEmail(t); }
    assert Normalize("") == "+";
  }

  /** An email such as `sms-15551234567@domain` keeps its dash: the destination is "+-15551234567". */
  lemma DashedEmailKeepsDash(t: WebhookTicket)
    requires forall i :: 0 <= i < 4 ==> !TruthyString(Sources(t)[i])
    requires t.customer.email == Some("sms-15551234567@domain")
    ensures Destination(t) == Resolved("+-15551234567")
  {
    assert EmailCapture(t.customer.email.value) == Some("-15551234567") by { DashedEmailCapture(); }
    assert Destination(t) == Resolved(Normalize("-15551234567")) by { NoSourceFallsBackToEmail(t); }
    NormalizeAddsPlus("-15551234567");
    assert "+" + "-15551234567" == "+-15551234567" by {
      var r := "+-15551234567";
      assert r[1..] == "-15551234567";
      assert r == [r[0]] + r[1..];
    }
  }

  /**
   * The fixture of test-webhook-data.js: `from_agent` is the string "True", the customer
   * email is the generic one and the number sits in the first stored message.
   */
  lemma StringFlagFixtureIsRelayed(outcome: SendOutcome, twilioNumber: Option<string>)
    ensures var ev := WebhookEvent(
              WebhookTicket(Some("sms"), Customer(None, Some("sms@rescuelink.com"), None), None,
                            Some([StoredMessage(Some(Source(Some(Address(Some("+17865166660"))))))])),
              AgentMessage(Str("True"), Some("Hi! Thanks for contacting us. How can I help you today?")));
            var h := HandleOutbound(ev, twilioNumber, outcome);
            !h.reply.Ignored? && h.request.Some? && h.request.value.to == "+17865166660"
  {
    var t := WebhookTicket(Some("sms"), Customer(None, Some("sms@rescuelink.com"), None), None,
                           Some([StoredMessage(Some(Source(Some(Address(Some("+17865166660"))))))]));
    FirstTruthyIsFirst(Sources(t), 3);
  }
}
