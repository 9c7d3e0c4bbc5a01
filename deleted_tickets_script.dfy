/**
 * debug-deleted-tickets.js: lists one phone's SMS tickets, the open ones,
 * and the open ones that are not trashed, and reports that a new ticket
 * should be created when no open, non-trashed ticket remains.
 */
module DeletedTicketsScript {
  import opened Wrappers
  import opened JsSemantics
  import opened GorgiasTickets

  /** `ticketsData.data?.filter(ticket => ticket.channel === 'sms' && ticket.subject && ticket.subject.includes(phone)) || []` */
  function PhoneSmsTickets(data: Option<seq<Ticket>>, phone: string): (r: seq<Ticket>)
    ensures data.None? ==> r == []
    ensures data.Some? ==> forall i :: 0 <= i < |r| ==> r[i] in data.value && IsSms(r[i]) && MentionsPhone(r[i], phone)
    ensures data.Some? ==> forall i :: (0 <= i < |data.value| && IsSms(data.value[i])
                                          && MentionsPhone(data.value[i], phone)) ==> data.value[i] in r
  {
    FilterData(data, t => IsSms(t) && MentionsPhone(t, phone))
  }

  /** `yourSmsTickets.filter(ticket => ticket.status === 'open')` */
  function OpenTickets(candidates: seq<Ticket>): (r: seq<Ticket>)
    ensures forall i :: 0 <= i < |r| ==> r[i] in candidates && IsOpen(r[i])
    ensures forall i :: 0 <= i < |candidates| && IsOpen(candidates[i]) ==> candidates[i] in r
  {
    Filter(candidates, IsOpen)
  }

  /** `yourSmsTickets.filter(ticket => ticket.status === 'open' && !ticket.trashed_datetime)` */
  function OpenNonTrashedTickets(candidates: seq<Ticket>): (r: seq<Ticket>)
    ensures forall i :: 0 <= i < |r| ==> r[i] in OpenTickets(candidates) && !IsTrashed(r[i])
    ensures forall i :: 0 <= i < |candidates| && IsOpen(candidates[i]) && !IsTrashed(candidates[i]) ==>
              candidates[i] in r
  {
    Filter(candidates, t => IsOpen(t) && !IsTrashed(t))
  }

  /** The open, non-trashed tickets are the open ones with the trashed ones taken out, in the same order. */
  lemma OpenNonTrashedNarrowsOpen(candidates: seq<Ticket>)
    ensures OpenNonTrashedTickets(candidates) == Filter(OpenTickets(candidates), t => !IsTrashed(t))
  {
    FilterFilter(candidates, IsOpen, t => !IsTrashed(t), t => IsOpen(t) && !IsTrashed(t));
  }

  /** What the script concludes: create a new ticket, or a problem listing the open, non-trashed tickets. */
  datatype Verdict = ShouldCreateNew | UnexpectedOpen(tickets: seq<Ticket>)

  function Report(data: Option<seq<Ticket>>, phone: string): (v: Verdict)
    ensures v == ShouldCreateNew <==>
              data.None? || forall i :: 0 <= i < |data.value| ==>
                              !(IsSms(data.value[i]) && MentionsPhone(data.value[i], phone)
                                && IsOpen(data.value[i]) && !IsTrashed(data.value[i]))
    ensures v.UnexpectedOpen? ==> v.tickets == OpenNonTrashedTickets(PhoneSmsTickets(data, phone))
    ensures v.UnexpectedOpen? ==> v.tickets != [] && forall i :: 0 <= i < |v.tickets| ==> !IsTrashed(v.tickets[i])
  {
    var open := OpenNonTrashedTickets(PhoneSmsTickets(data, phone));
    if |open| > 0 then
      var x := open[0];
      assert x in PhoneSmsTickets(data, phone) && IsOpen(x) && !IsTrashed(x);
      assert data.Some? && x in data.value;
      assert exists i :: 0 <= i < |data.value| && data.value[i] == x;
      UnexpectedOpen(open)
    else ShouldCreateNew
  }

  /** A trashed ticket counts as open by status but never keeps the script from creating a new ticket. */
  lemma TrashedOpenTicketMeansCreateNew(t: Ticket, phone: string)
    requires IsSms(t) && MentionsPhone(t, phone) && IsOpen(t) && IsTrashed(t)
    ensures OpenTickets(PhoneSmsTickets(Some([t]), phone)) == [t]
    ensures Report(Some([t]), phone) == ShouldCreateNew
  {
    assert t in PhoneSmsTickets(Some([t]), phone);
  }
}
