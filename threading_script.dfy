/**
 * test-threading.js: from all tickets of the shared SMS customer, keep the
 * open SMS ones, narrow them to those whose subject contains the phone, and
 * reuse the first of those or create a new ticket.
 */
module ThreadingScript {
  import opened Wrappers
  import opened JsSemantics
  import opened GorgiasTickets

  /** `ticketsData.data?.filter(ticket => ticket.status === 'open' && ticket.channel === 'sms') || []` */
  function OpenSmsTickets(data: Option<seq<Ticket>>): (r: seq<Ticket>)
    ensures data.None? ==> r == []
    ensures data.Some? ==> forall i :: 0 <= i < |r| ==> r[i] in data.value && IsOpenSms(r[i])
    ensures data.Some? ==> forall i :: 0 <= i < |data.value| && IsOpenSms(data.value[i]) ==> data.value[i] in r
  {
    FilterData(data, IsOpenSms)
  }

  /** `openSmsTickets.filter(ticket => ticket.subject && ticket.subject.includes(phone))` */
  function PhoneSpecificTickets(data: Option<seq<Ticket>>, phone: string): (r: seq<Ticket>)
    ensures forall i :: 0 <= i < |r| ==> r[i] in OpenSmsTickets(data) && MentionsPhone(r[i], phone)
    ensures forall i :: 0 <= i < |OpenSmsTickets(data)| && MentionsPhone(OpenSmsTickets(data)[i], phone) ==>
              OpenSmsTickets(data)[i] in r
  {
    Filter(OpenSmsTickets(data), t => MentionsPhone(t, phone))
  }

  /** The two filters in a row keep exactly the open SMS tickets that mention the phone, in list order. */
  lemma PhoneSpecificIsOneFilter(data: Option<seq<Ticket>>, phone: string)
    ensures PhoneSpecificTickets(data, phone) == FilterData(data, t => IsOpenSms(t) && MentionsPhone(t, phone))
  {
    if data.Some? {
      FilterFilter(data.value, IsOpenSms, t => MentionsPhone(t, phone), t => IsOpenSms(t) && MentionsPhone(t, phone));
    }
  }

  /** Reuse the first phone-specific ticket, else create a new one. */
  function Decide(data: Option<seq<Ticket>>, phone: string): (d: Decision)
    ensures d == CreateNew <==> data.None? || forall i :: 0 <= i < |data.value| ==>
                                  !(IsOpenSms(data.value[i]) && MentionsPhone(data.value[i], phone))
    ensures d.UseExisting? ==>
              exists i :: 0 <= i < |data.value| && IsOpenSms(data.value[i]) && MentionsPhone(data.value[i], phone)
                          && data.value[i].id == d.id
                          && forall j :: 0 <= j < i ==> !(IsOpenSms(data.value[j]) && MentionsPhone(data.value[j], phone))
  {
    PhoneSpecificIsOneFilter(data, phone);
    FirstOrCreateFilteredData(data, t => IsOpenSms(t) && MentionsPhone(t, phone));
    FirstOrCreate(PhoneSpecificTickets(data, phone))
  }
}
