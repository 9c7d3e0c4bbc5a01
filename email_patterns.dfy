/**
 * The two regular expressions the outbound handler tries on a customer
 * email, each written out as a leftmost search:
 *   /sms([^@]*?)@/  -- "sms", then the shortest run of non-'@' characters, then '@'
 *   /(\+\d+)/       -- '+', then the longest run of ASCII digits
 * `Capture` is element [1] of the match array, or None when there is no match.
 */
module EmailPatterns {
  import opened Wrappers

  /** The text before the first '@' of `s`, or all of `s` when it has none. */
  function UpToAt(s: string): (r: string)
    ensures r <= s
    ensures '@' !in r
    ensures |r| < |s| ==> s[|r|] == '@'
  {
    if s == [] || s[0] == '@' then [] else [s[0]] + UpToAt(s[1..])
  }

  /** If `p` has no '@' and `rest` starts with one, the text before the first '@' of `p + rest` is `p`. */
  lemma {:induction false} UpToAtPrefix(p: string, rest: string)
    requires '@' !in p
    requires rest != [] && rest[0] == '@'
    ensures UpToAt(p + rest) == p
    decreases |p|
  {
    if p == [] {
      assert p + rest == rest;
    } else {
      assert (p + rest)[0] == p[0];
      assert (p + rest)[1..] == p[1..] + rest;
      UpToAtPrefix(p[1..], rest);
    }
  }

  /** `/sms([^@]*?)@/` matches starting at index `i`: "sms" is there and an '@' follows somewhere. */
  predicate SmsMatchAt(e: string, i: int) {
    0 <= i && i + 3 <= |e| && e[i..i + 3] == "sms" && '@' in e[i + 3..]
  }

  /** The regex engine's scan for `/sms([^@]*?)@/` from index `i` onwards. */
  function SmsCaptureFrom(e: string, i: nat): (r: Option<string>)
    ensures r.None? <==> forall j :: i <= j ==> !SmsMatchAt(e, j)
    ensures r.Some? ==> exists j :: i <= j && SmsMatchAt(e, j)
                                    && (forall k :: i <= k < j ==> !SmsMatchAt(e, k))
                                    && r.value == UpToAt(e[j + 3..])
    decreases |e| - i
  {
    if i + 3 > |e| then None
    else if SmsMatchAt(e, i) then Some(UpToAt(e[i + 3..]))
    else SmsCaptureFrom(e, i + 1)
  }

  /** The capture group of `e.match(/sms([^@]*?)@/)`. */
  function SmsCapture(e: string): Option<string> {
    SmsCaptureFrom(e, 0)
  }

  predicate IsDigit(c: char) {
    '0' <= c <= '9'
  }

  /** The longest prefix of `s` made of digits (`\d+` is greedy). */
  function DigitRun(s: string): (r: string)
    ensures r <= s
    ensures forall k :: 0 <= k < |r| ==> IsDigit(r[k])
    ensures |r| < |s| ==> !IsDigit(s[|r|])
  {
    if s == [] || !IsDigit(s[0]) then [] else [s[0]] + DigitRun(s[1..])
  }

  /** `/(\+\d+)/` matches starting at index `i`: a '+' followed by at least one digit. */
  predicate PlusMatchAt(e: string, i: int) {
    0 <= i && i + 1 < |e| && e[i] == '+' && IsDigit(e[i + 1])
  }

  /** The regex engine's scan for `/(\+\d+)/` from index `i` onwards. */
  function PlusCaptureFrom(e: string, i: nat): (r: Option<string>)
    ensures r.None? <==> forall j :: i <= j ==> !PlusMatchAt(e, j)
    ensures r.Some? ==> exists j :: i <= j && PlusMatchAt(e, j)
                                    && (forall k :: i <= k < j ==> !PlusMatchAt(e, k))
                                    && r.value == "+" + DigitRun(e[j + 1..])
    decreases |e| - i
  {
    if i + 1 >= |e| then None
    else if PlusMatchAt(e, i) then Some("+" + DigitRun(e[i + 1..]))
    else PlusCaptureFrom(e, i + 1)
  }

  /** The capture group of `e.match(/(\+\d+)/)`. */
  function PlusCapture(e: string): Option<string> {
    PlusCaptureFrom(e, 0)
  }

  /**
   * `(e.match(/sms([^@]*?)@/) || e.match(/(\+\d+)/))[1]`: the second pattern is tried
   * only when the first one does not match at all; an empty first capture still wins.
   */
  function EmailCapture(e: string): (r: Option<string>)
    ensures r.None? <==> (forall j :: !SmsMatchAt(e, j)) && (forall j :: !PlusMatchAt(e, j))
    ensures (exists j :: SmsMatchAt(e, j)) ==> r == SmsCapture(e) && '@' !in r.value
    ensures (forall j :: !SmsMatchAt(e, j)) ==> r == PlusCapture(e)
    ensures (forall j :: !SmsMatchAt(e, j)) && r.Some? ==>
              |r.value| >= 2 && r.value[0] == '+' && forall k :: 1 <= k < |r.value| ==> IsDigit(r.value[k])
  {
    var sms := SmsCapture(e);
    if sms.Some? then sms else PlusCapture(e)
  }

  /**
   * An email of the shape "sms" + p + rest, where `p` has no '@' and `rest` starts with
   * one, yields the capture `p`: the first pattern matches at index 0.
   */
  lemma {:induction false} EmailCaptureOfSmsShape(p: string, rest: string)
    requires '@' !in p
    requires rest != [] && rest[0] == '@'
    ensures EmailCapture("sms" + p + rest) == Some(p)
  {
    var e := "sms" + p + rest;
    assert e[..3] == "sms";
    assert e[3..] == p + rest;
    assert e[3 + |p|] == '@';
    assert SmsMatchAt(e, 0);
    UpToAtPrefix(p, rest);
  }

  /** The generic customer email `sms@rescuelink.com` matches the first pattern with an empty capture. */
  lemma GenericEmailCapture()
    ensures EmailCapture("sms@rescuelink.com") == Some("")
  {
    assert "sms@rescuelink.com" == "sms" + "" + "@rescuelink.com";
    EmailCaptureOfSmsShape("", "@rescuelink.com");
  }

  /** `sms-15551234567@domain` captures "-15551234567": the dash is part of the capture. */
  lemma DashedEmailCapture()
    ensures EmailCapture("sms-15551234567@domain") == Some("-15551234567")
  {
    assert "sms-15551234567@domain" == "sms" + "-15551234567" + "@domain";
    EmailCaptureOfSmsShape("-15551234567", "@domain");
  }
}
