/**
 * The customer key the inbound handler gives an SMS sender:
 * "sms" + phone + "@rescuelink.com". The debug scripts look customers up
 * by the same key, and the outbound handler's first email pattern undoes it.
 */
module CustomerKey {
  import opened Wrappers
  import opened EmailPatterns

  const KeyPrefix: string := "sms"
  const KeyDomain: string := "@rescuelink.com"

  /** `sms${from}@rescuelink.com` */
  function DerivedEmail(phone: string): (e: string)
    ensures |e| == |phone| + |KeyPrefix| + |KeyDomain|
    ensures e[..|KeyPrefix|] == KeyPrefix && e[|KeyPrefix|..|KeyPrefix| + |phone|] == phone
    ensures e[|KeyPrefix| + |phone|..] == KeyDomain
  {
    KeyPrefix + phone + KeyDomain
  }

  /** Distinct senders never share a key. */
  lemma DerivedEmailInjective(p: string, q: string)
    requires DerivedEmail(p) == DerivedEmail(q)
    ensures p == q
  {
    var e := DerivedEmail(p);
    assert p == e[|KeyPrefix|..|KeyPrefix| + |p|];
  }

  /**
   * Round trip: the outbound handler's email extraction recovers the sender from
   * the key the inbound handler stored, whenever the sender contains no '@'.
   */
  lemma {:induction false} EmailCaptureOfDerivedEmail(p: string)
    requires '@' !in p
    ensures EmailCapture(DerivedEmail(p)) == Some(p)
  {
    EmailCaptureOfSmsShape(p, KeyDomain);
  }
}
