/**
 * The two handlers together: an agent's reply on a ticket that the inbound
 * handler created goes back to the number that sent the first SMS.
 */
module HandlerRoundTrip {
  import opened Wrappers
  import opened JsSemantics
  import opened CustomerKey
  import In = IncomingRoute
  import Out = OutgoingRoute

  /**
   * How the outbound webhook presents a ticket created from `p`: its channel, the stored
   * customer email and each message's sender; no phone field, channels or original message.
   */
  function WebhookViewOf(p: In.TicketPayload): Out.WebhookTicket {
    var stored := seq(|p.messages|, i requires 0 <= i < |p.messages| =>
                        Out.StoredMessage(Some(Out.Source(Some(Out.Address(Some(p.messages[i].source.from)))))));
    Out.WebhookTicket(Some(p.channel), Out.Customer(None, Some(p.customerEmail), None), None, Some(stored))
  }

  /** The reply goes to the inbound sender, normalised; for an empty sender the key alone gives "+". */
  lemma ReplyReachesInboundSender(from: string, to: string, body: string)
    ensures Out.Destination(WebhookViewOf(In.TicketPayloadFor(from, to, body))) == Out.Resolved(Out.Normalize(from))
  {
    var t := WebhookViewOf(In.TicketPayloadFor(from, to, body));
    var s := Out.Sources(t);
    assert s[3] == Some(from);
    if from != "" {
      FirstTruthyIsFirst(s, 3);
    } else {
      assert forall j :: 0 <= j < 4 ==> !TruthyString(s[j]);
      EmailCaptureOfDerivedEmail(from);
    }
  }

  /** The full outbound handler relays an agent's reply on such a ticket to that sender. */
  lemma AgentReplyReachesInboundSender(from: string, to: string, body: string, reply: Out.AgentMessage,
                                       twilioNumber: Option<string>, outcome: Out.SendOutcome)
    requires Truthy(reply.fromAgent)
    ensures var ticket := WebhookViewOf(In.TicketPayloadFor(from, to, body));
            var h := Out.HandleOutbound(Out.WebhookEvent(ticket, reply), twilioNumber, outcome);
            h.request.Some? && h.request.value.to == Out.Normalize(from)
  {
    ReplyReachesInboundSender(from, to, body);
  }

  /** Even with no phone anywhere on the ticket, the customer key alone leads back to a sender without '@'. */
  lemma KeyAloneReachesSender(t: Out.WebhookTicket, from: string)
    requires '@' !in from
    requires forall i :: 0 <= i < 4 ==> !TruthyString(Out.Sources(t)[i])
    requires t.customer.email == Some(DerivedEmail(from))
    ensures Out.Destination(t) == Out.Resolved(Out.Normalize(from))
  {
    EmailCaptureOfDerivedEmail(from);
    Out.NoSourceFallsBackToEmail(t);
  }
}
