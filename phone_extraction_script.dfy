/**
 * test-phone-extraction.js: a stand-alone variant of the outbound handler's
 * phone lookup. It tries three sources with `||`, then the first stored
 * message's sender behind an explicit guard, then the customer email, and
 * prefixes '+' only to a phone it actually found. It never reports an error;
 * a missing phone stays unset.
 */
module PhoneExtractionScript {
  import opened Wrappers
  import opened JsSemantics
  import opened EmailPatterns
  import opened OutgoingRoute

  /** The final value of `customerPhone`, or a TypeError raised on the way. */
  datatype ScriptOutcome = Finished(phone: Option<string>) | TypeError

  /** The object tested by `ticket.messages && ticket.messages[0] && ticket.messages[0].source`. */
  function FirstSource(t: WebhookTicket): Option<Source> {
    match t.messages
    case None => None
    case Some(ms) => if ms == [] then None else ms[0].source
  }

  /** `if (customerPhone && !customerPhone.startsWith('+'))`: only a truthy phone is normalised. */
  function GuardedNormalize(v: Option<string>): (r: Option<string>)
    ensures TruthyString(v) ==> r == Some(Normalize(v.value))
    ensures !TruthyString(v) ==> r == v
  {
    if TruthyString(v) then Some(Normalize(v.value)) else v
  }

  /** The script's result, stated with the three-source chain as a first-truthy search. */
  function ScriptResult(t: WebhookTicket): ScriptOutcome {
    var chain := FirstTruthy(Sources(t)[..3]);
    if chain.Some? then Finished(Some(Normalize(chain.value)))
    else if FirstSource(t).Some? && FirstSource(t).value.from.None? then TypeError
    else
      // a falsy `||` chain evaluates to its last operand
      var afterMessage := if FirstSource(t).Some? then FirstSource(t).value.from.value.address
                          else FirstChannelAddress(t.customer);
      if TruthyString(afterMessage) then Finished(Some(Normalize(afterMessage.value)))
      else if t.customer.email.None? then TypeError
      else
        var phoneMatch := EmailCapture(t.customer.email.value);
        Finished(GuardedNormalize(if phoneMatch.Some? then phoneMatch else afterMessage))
  }

  /** Lines 32-65 as written: `customerPhone` is updated by successive guarded blocks. */
  method ExtractPhone(t: WebhookTicket) returns (outcome: ScriptOutcome)
    ensures outcome == ScriptResult(t)
  {
    var customerPhone := Or(Or(t.customer.phone, OriginalFrom(t)), FirstChannelAddress(t.customer));
    OrChain3IsFirstTruthy(t.customer.phone, OriginalFrom(t), FirstChannelAddress(t.customer));
    assert Sources(t)[..3] == [t.customer.phone, OriginalFrom(t), FirstChannelAddress(t.customer)];
    if !TruthyString(customerPhone) {
      if t.messages.Some? && t.messages.value != [] && t.messages.value[0].source.Some? {
        var src := t.messages.value[0].source.value;
        if src.from.None? {
          return TypeError;
        }
        customerPhone := src.from.value.address;
      }
    }
    if !TruthyString(customerPhone) {
      if t.customer.email.None? {
        return TypeError;
      }
      var phoneMatch := EmailCapture(t.customer.email.value);
      if phoneMatch.Some? {
        customerPhone := phoneMatch;
      }
    }
    if TruthyString(customerPhone) && !StartsWith(customerPhone.value, "+") {
      customerPhone := Some("+" + customerPhone.value);
    }
    return Finished(customerPhone);
  }

  /** Whenever the script ends with a non-empty phone, the outbound handler sends to that same number. */
  lemma AgreesWithHandler(t: WebhookTicket, p: string)
    requires ScriptResult(t) == Finished(Some(p)) && p != ""
    ensures Destination(t) == Resolved(p)
  {
    var s := Sources(t);
    var chain := FirstTruthy(s[..3]);
    if chain.Some? {
      var i :| 0 <= i < 3 && s[..3][i] == chain && TruthyString(s[..3][i])
               && forall j :: 0 <= j < i ==> !TruthyString(s[..3][j]);
      FirstTruthyIsFirst(s, i);
    } else {
      assert forall j :: 0 <= j < 3 ==> !TruthyString(s[j]) by {
        forall j | 0 <= j < 3 ensures !TruthyString(s[j]) { assert s[j] == s[..3][j]; }
      }
      if TruthyString(FirstMessageFrom(t)) {
        FirstTruthyIsFirst(s, 3);
      } else {
        assert forall j :: 0 <= j < 4 ==> !TruthyString(s[j]);
        assert s[2] == FirstChannelAddress(t.customer) && s[3] == FirstMessageFrom(t);
        assert t.customer.email.Some?;
        NoSourceFallsBackToEmail(t);
      }
    }
  }

  /** When no pattern matches the email the script ends with the phone unset, where the handler answers 400. */
  lemma UnmatchedEmailLeavesPhoneUnset(t: WebhookTicket)
    requires forall i :: 0 <= i < 4 ==> !TruthyString(Sources(t)[i])
    requires FirstSource(t).None? || FirstSource(t).value.from.Some?
    requires t.customer.email.Some? && EmailCapture(t.customer.email.value).None?
    ensures ScriptResult(t).Finished? && !TruthyString(ScriptResult(t).phone)
    ensures Destination(t) == NoPattern
  {
    assert forall j :: 0 <= j < 3 ==> !TruthyString(Sources(t)[..3][j]);
    assert Sources(t)[2] == FirstChannelAddress(t.customer);
  }

  /** On the generic email the script keeps the empty capture as "", where the handler sends to "+". */
  lemma GenericEmailStaysEmpty(t: WebhookTicket)
    requires forall i :: 0 <= i < 4 ==> !TruthyString(Sources(t)[i])
    requires FirstSource(t).None? || FirstSource(t).value.from.Some?
    requires t.customer.email == Some("sms@rescuelink.com")
    ensures ScriptResult(t) == Finished(Some(""))
    ensures Destination(t) == Resolved("+")
  {
    assert forall j :: 0 <= j < 3 ==> !TruthyString(Sources(t)[..3][j]);
    assert Sources(t)[2] == FirstChannelAddress(t.customer);
    GenericEmailCapture();
    assert GuardedNormalize(Some("")) == Some("");
    GenericEmailYieldsBarePlus(t);
  }

  /** The script's own mock ticket. */
  function MockTicket(): WebhookTicket {
    WebhookTicket(Some("sms"), Customer(None, Some("sms@rescuelink.com"), None), None,
                  Some([StoredMessage(Some(Source(Some(Address(Some("+1 555-123-4567"))))))]))
  }

  /** With the mock ticket the phone comes from the first message, spaces and dashes kept. */
  lemma MockTicketPhone()
    ensures ScriptResult(MockTicket()) == Finished(Some("+1 555-123-4567"))
    ensures Destination(MockTicket()) == Resolved("+1 555-123-4567")
  {
    var t := MockTicket();
    assert forall j :: 0 <= j < 3 ==> !TruthyString(Sources(t)[..3][j]);
    FirstTruthyIsFirst(Sources(t), 3);
  }
}
