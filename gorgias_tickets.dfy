/**
 * Tickets as the Gorgias list endpoint returns them to the debug scripts,
 * the tests those scripts filter by, and the "append to an existing ticket
 * or create a new one" decision they print.
 */
module GorgiasTickets {
  import opened Wrappers
  import opened JsSemantics

  /** The fields the scripts read; a missing field is None. */
  datatype Ticket = Ticket(id: nat, status: Option<string>, channel: Option<string>,
                           subject: Option<string>, trashedDatetime: Option<string>)

  datatype Decision = UseExisting(id: nat) | CreateNew

  /** `t.status === 'open'` */
  predicate IsOpen(t: Ticket) {
    t.status == Some("open")
  }

  /** `t.channel === 'sms'` */
  predicate IsSms(t: Ticket) {
    t.channel == Some("sms")
  }

  /** `t.status === 'open' && t.channel === 'sms'` */
  predicate IsOpenSms(t: Ticket) {
    IsOpen(t) && IsSms(t)
  }

  /** `ticket.subject && ticket.subject.includes(phone)` */
  predicate MentionsPhone(t: Ticket, phone: string) {
    TruthyString(t.subject) && Includes(t.subject.value, phone)
  }

  /** `ticket.trashed_datetime` is truthy. */
  predicate IsTrashed(t: Ticket) {
    TruthyString(t.trashedDatetime)
  }

  /**
   * `ticketsData.data?.filter(p) || []`: a missing list filters to nothing. An empty
   * result of `filter` is an array, hence truthy, so `|| []` matters only for a missing list.
   */
  function FilterData(data: Option<seq<Ticket>>, p: Ticket -> bool): seq<Ticket> {
    match data
    case None => []
    case Some(ts) => Filter(ts, p)
  }

  /** `list.length > 0 ? list[0].id : create new` */
  function FirstOrCreate(list: seq<Ticket>): Decision {
    if |list| > 0 then UseExisting(list[0].id) else CreateNew
  }

  /**
   * Taking the first ticket a filter keeps picks the earliest ticket of the list that
   * passes it, and a new ticket is created exactly when no ticket passes.
   */
  lemma FirstOrCreateFiltered(s: seq<Ticket>, p: Ticket -> bool)
    ensures FirstOrCreate(Filter(s, p)) == CreateNew <==> forall i :: 0 <= i < |s| ==> !p(s[i])
    ensures FirstOrCreate(Filter(s, p)).UseExisting? ==>
              exists i :: 0 <= i < |s| && p(s[i]) && s[i].id == FirstOrCreate(Filter(s, p)).id
                          && forall j :: 0 <= j < i ==> !p(s[j])
  {
    var r := Filter(s, p);
    if r != [] {
      FilterFirst(s, p);
      assert r[0] in s && p(r[0]);
    }
  }

  /** The same for a list that may be missing: a missing list always leads to a new ticket. */
  lemma FirstOrCreateFilteredData(data: Option<seq<Ticket>>, p: Ticket -> bool)
    ensures FirstOrCreate(FilterData(data, p)) == CreateNew <==>
              data.None? || forall i :: 0 <= i < |data.value| ==> !p(data.value[i])
    ensures FirstOrCreate(FilterData(data, p)).UseExisting? ==>
              exists i :: 0 <= i < |data.value| && p(data.value[i])
                          && data.value[i].id == FirstOrCreate(FilterData(data, p)).id
                          && forall j :: 0 <= j < i ==> !p(data.value[j])
  {
    if data.Some? {
      FirstOrCreateFiltered(data.value, p);
    }
  }
}
