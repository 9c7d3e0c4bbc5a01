/**
 * debug-tickets.js: looks the customer up by the phone-derived key, lists
 * the customer's tickets, keeps the open SMS ones and reports whether the
 * first of them would be reused or a new ticket created.
 */
module DebugTickets {
  import opened Wrappers
  import opened JsSemantics
  import opened EmailPatterns
  import opened CustomerKey
  import opened GorgiasTickets

  /** `ticketsData.data.filter(t => t.status === 'open' && t.channel === 'sms')` */
  function OpenSmsTickets(tickets: seq<Ticket>): (r: seq<Ticket>)
    ensures forall i :: 0 <= i < |r| ==> r[i] in tickets && r[i].status == Some("open") && r[i].channel == Some("sms")
    ensures forall i :: 0 <= i < |tickets| && IsOpenSms(tickets[i]) ==> tickets[i] in r
  {
    Filter(tickets, IsOpenSms)
  }

  /**
   * The report: None for the "no tickets found" branch (missing or empty list), otherwise
   * the first open SMS ticket or a new one.
   */
  function Lookup(data: Option<seq<Ticket>>): (r: Option<Decision>)
    ensures r.None? <==> data.None? || data.value == []
    ensures r == Some(CreateNew) <==> data.Some? && data.value != []
                                      && forall i :: 0 <= i < |data.value| ==> !IsOpenSms(data.value[i])
    ensures r.Some? && r.value.UseExisting? ==>
              exists i :: 0 <= i < |data.value| && IsOpenSms(data.value[i]) && data.value[i].id == r.value.id
                          && forall j :: 0 <= j < i ==> !IsOpenSms(data.value[j])
  {
    match data
    case None => None
    case Some(tickets) =>
      if |tickets| > 0 then
        FirstOrCreateFiltered(tickets, IsOpenSms);
        Some(FirstOrCreate(OpenSmsTickets(tickets)))
      else None
  }
}
