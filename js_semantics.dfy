/**
 * The few pieces of JavaScript semantics that the SMS handlers rely on:
 * truthiness, the `||` operator on optional strings, `startsWith`,
 * `includes`, `trim`, an ASCII `toLowerCase`, and `Array.prototype.filter`.
 */
module JsSemantics {
  import opened Wrappers

  /** A JSON value as it can appear in a webhook body (numbers as integers). */
  datatype JsValue = Undefined | Null | Bool(b: bool) | Number(n: int) | Str(s: string) | Object | Array

  /** ECMAScript ToBoolean, the test behind `!x`, `x || y` and `if (x)`. */
  predicate Truthy(v: JsValue) {
    match v
    case Undefined => false
    case Null => false
    case Bool(b) => b
    case Number(n) => n != 0
    case Str(s) => s != ""
    case Object => true
    case Array => true
  }

  /** Truthiness of a property holding a string or nothing (`undefined`/`null`). */
  predicate TruthyString(v: Option<string>) {
    v.Some? && v.value != ""
  }

  /** `TruthyString` is `Truthy` on the JS value of the property: the string itself, or `undefined`. */
  lemma TruthyStringIsTruthy(v: Option<string>)
    ensures TruthyString(v) == Truthy(if v.Some? then Str(v.value) else Undefined)
  {
  }

  /** `a || b`: the left operand if it is truthy, otherwise the right one, whatever it is. */
  function Or(a: Option<string>, b: Option<string>): Option<string> {
    if TruthyString(a) then a else b
  }

  /**
   * The value of a chain `s[0] || s[1] || ... ` of optional strings when one operand
   * is truthy: the first truthy operand. None when every operand is falsy.
   */
  function FirstTruthy(s: seq<Option<string>>): (r: Option<string>)
    ensures r.None? <==> forall i :: 0 <= i < |s| ==> !TruthyString(s[i])
    ensures r.Some? ==> exists i :: 0 <= i < |s| && s[i] == r && TruthyString(s[i])
                                    && forall j :: 0 <= j < i ==> !TruthyString(s[j])
  {
    if s == [] then None
    else if TruthyString(s[0]) then s[0]
    else FirstTruthy(s[1..])
  }

  /** Operands after the first truthy one are never looked at. */
  lemma {:induction false} FirstTruthyIsFirst(s: seq<Option<string>>, i: nat)
    requires i < |s| && TruthyString(s[i])
    requires forall j :: 0 <= j < i ==> !TruthyString(s[j])
    ensures FirstTruthy(s) == s[i]
    decreases i
  {
    if i > 0 {
      assert s[1..][i - 1] == s[i];
      FirstTruthyIsFirst(s[1..], i - 1);
    }
  }

  /** A chain of four `||` yields a truthy value exactly when one operand is truthy, and then the first one. */
  lemma OrChainIsFirstTruthy(a: Option<string>, b: Option<string>, c: Option<string>, d: Option<string>)
    ensures TruthyString(Or(Or(Or(a, b), c), d)) <==> FirstTruthy([a, b, c, d]).Some?
    ensures TruthyString(Or(Or(Or(a, b), c), d)) ==> Or(Or(Or(a, b), c), d) == FirstTruthy([a, b, c, d])
  {
    assert [a, b, c, d][1..] == [b, c, d] && [b, c, d][1..] == [c, d];
    assert [c, d][1..] == [d] && [d][1..] == [];
    assert FirstTruthy([a, b, c, d]) == if TruthyString(a) then a else FirstTruthy([b, c, d]);
    assert FirstTruthy([b, c, d]) == if TruthyString(b) then b else FirstTruthy([c, d]);
    assert FirstTruthy([c, d]) == if TruthyString(c) then c else FirstTruthy([d]);
    assert FirstTruthy([d]) == if TruthyString(d) then d else None;
  }

  /** A chain of three `||` behaves the same way. */
  lemma OrChain3IsFirstTruthy(a: Option<string>, b: Option<string>, c: Option<string>)
    ensures TruthyString(Or(Or(a, b), c)) <==> FirstTruthy([a, b, c]).Some?
    ensures TruthyString(Or(Or(a, b), c)) ==> Or(Or(a, b), c) == FirstTruthy([a, b, c])
  {
    assert [a, b, c][1..] == [b, c] && [b, c][1..] == [c] && [c][1..] == [];
    assert FirstTruthy([a, b, c]) == if TruthyString(a) then a else FirstTruthy([b, c]);
    assert FirstTruthy([b, c]) == if TruthyString(b) then b else FirstTruthy([c]);
    assert FirstTruthy([c]) == if TruthyString(c) then c else None;
  }

  /** `s.startsWith(prefix)` */
  predicate StartsWith(s: string, prefix: string) {
    prefix <= s
  }

  /** `s.includes(sub)`, searched from the left. */
  predicate Includes(s: string, sub: string)
    decreases |s|
  {
    sub <= s || (s != [] && Includes(s[1..], sub))
  }

  /** `sub` occurs in `s` starting at index `i`. */
  predicate OccursAt(s: string, sub: string, i: int) {
    0 <= i <= |s| - |sub| && s[i..i + |sub|] == sub
  }

  /** An occurrence in `s` past index 0 is an occurrence in `s[1..]`, one index earlier. */
  lemma OccursAtShift(s: string, sub: string, i: int)
    requires s != [] && 0 < i
    ensures OccursAt(s, sub, i) <==> OccursAt(s[1..], sub, i - 1)
  {
    if 0 < i <= |s| - |sub| {
      var t := s[1..];
      var a, b := s[i..i + |sub|], t[i - 1..i - 1 + |sub|];
      assert a == b by {
        forall k | 0 <= k < |sub| ensures a[k] == b[k] {
          assert s[i + k] == t[i - 1 + k];
        }
      }
    }
  }

  /** `includes` holds exactly when `sub` occurs at some index of `s`. */
  lemma {:induction false} IncludesAt(s: string, sub: string)
    ensures Includes(s, sub) <==> exists i :: OccursAt(s, sub, i)
    decreases |s|
  {
    if sub <= s {
      assert OccursAt(s, sub, 0);
    } else if s == [] {
      forall i ensures !OccursAt(s, sub, i) { }
    } else {
      IncludesAt(s[1..], sub);
      if Includes(s[1..], sub) {
        var i :| OccursAt(s[1..], sub, i);
        OccursAtShift(s, sub, i + 1);
      } else {
        forall i ensures !OccursAt(s, sub, i) {
          if i == 0 {
            assert !(sub <= s);
          } else if 0 < i {
            OccursAtShift(s, sub, i);
          }
        }
      }
    }
  }

  /**
   * The characters `String.prototype.trim` removes: the WhiteSpace and
   * LineTerminator code points of ECMAScript (tab, vertical tab, form feed,
   * space, no-break space, byte order mark, the Unicode space separators,
   * line feed, carriage return, line and paragraph separators).
   */
  predicate IsJsWhitespace(c: char) {
    c == '\t' || c == '\n' || c == '\U{000B}' || c == '\U{000C}' || c == '\r' || c == ' '
    || c == '\U{00A0}' || c == '\U{1680}' || ('\U{2000}' <= c <= '\U{200A}')
    || c == '\U{2028}' || c == '\U{2029}' || c == '\U{202F}' || c == '\U{205F}'
    || c == '\U{3000}' || c == '\U{FEFF}'
  }

  predicate AllWhitespace(s: string) {
    forall i :: 0 <= i < |s| ==> IsJsWhitespace(s[i])
  }

  /** Drops leading whitespace. */
  function TrimStart(s: string): (r: string)
    ensures |r| <= |s| && r == s[|s| - |r|..]
    ensures AllWhitespace(s[..|s| - |r|])
    ensures r == [] || !IsJsWhitespace(r[0])
  {
    if s != [] && IsJsWhitespace(s[0]) then
      var r := TrimStart(s[1..]);
      assert s[..|s| - |r|] == [s[0]] + s[1..][..|s[1..]| - |r|];
      r
    else s
  }

  /** Drops trailing whitespace. */
  function TrimEnd(s: string): (r: string)
    ensures |r| <= |s| && r == s[..|r|]
    ensures AllWhitespace(s[|r|..])
    ensures r == [] || !IsJsWhitespace(r[|r| - 1])
  {
    if s != [] && IsJsWhitespace(s[|s| - 1]) then
      var r := TrimEnd(s[..|s| - 1]);
      assert s[|r|..] == s[..|s| - 1][|r|..] + [s[|s| - 1]];
      r
    else s
  }

  /** `s.trim()` */
  function Trim(s: string): string {
    TrimEnd(TrimStart(s))
  }

  lemma {:induction false} TrimStartPadded(w: string, s: string)
    requires AllWhitespace(w)
    ensures TrimStart(w + s) == TrimStart(s)
    decreases |w|
  {
    if w != [] {
      assert (w + s)[1..] == w[1..] + s;
      TrimStartPadded(w[1..], s);
    } else {
      assert w + s == s;
    }
  }

  lemma {:induction false} TrimEndPadded(s: string, w: string)
    requires AllWhitespace(w)
    ensures TrimEnd(s + w) == TrimEnd(s)
    decreases |w|
  {
    if w != [] {
      assert (s + w)[..|s + w| - 1] == s + w[..|w| - 1];
      TrimEndPadded(s, w[..|w| - 1]);
    } else {
      assert s + w == s;
    }
  }

  lemma {:induction false} TrimStartAppend(s: string, t: string)
    ensures TrimStart(s) != [] ==> TrimStart(s + t) == TrimStart(s) + t
    ensures TrimStart(s) == [] ==> TrimStart(s + t) == TrimStart(t)
    decreases |s|
  {
    if s == [] {
      assert s + t == t;
    } else if IsJsWhitespace(s[0]) {
      assert (s + t)[1..] == s[1..] + t;
      TrimStartAppend(s[1..], t);
    }
  }

  /** Whitespace around a string never changes what `trim` returns. */
  lemma TrimPadded(w1: string, s: string, w2: string)
    requires AllWhitespace(w1) && AllWhitespace(w2)
    ensures Trim(w1 + s + w2) == Trim(s)
  {
    assert w1 + s + w2 == w1 + (s + w2);
    TrimStartPadded(w1, s + w2);
    TrimStartAppend(s, w2);
    if TrimStart(s) != [] {
      TrimEndPadded(TrimStart(s), w2);
    } else {
      TrimStartPadded(w2, []);
      assert w2 + [] == w2;
    }
  }

  /** ASCII case folding of one character. */
  function LowerChar(c: char): char {
    if 'A' <= c <= 'Z' then (c as int + 32) as char else c
  }

  /** `s.toLowerCase()` restricted to ASCII letters. */
  function ToLowerAscii(s: string): (r: string)
    ensures |r| == |s|
    ensures forall i :: 0 <= i < |s| ==> r[i] == LowerChar(s[i])
  {
    if s == [] then [] else [LowerChar(s[0])] + ToLowerAscii(s[1..])
  }

  /** Lower-casing commutes with taking a slice. */
  lemma ToLowerAsciiSlice(s: string, i: nat, j: nat)
    requires i <= j <= |s|
    ensures ToLowerAscii(s[i..j]) == ToLowerAscii(s)[i..j]
  {
  }

  /** Case folding never turns a whitespace character into a non-whitespace one or back. */
  lemma LowerCharWhitespace(c: char)
    ensures IsJsWhitespace(LowerChar(c)) == IsJsWhitespace(c)
  {
  }

  lemma {:induction false} ToLowerTrimStart(s: string)
    ensures ToLowerAscii(TrimStart(s)) == TrimStart(ToLowerAscii(s))
    decreases |s|
  {
    if s != [] {
      var l := ToLowerAscii(s);
      LowerCharWhitespace(s[0]);
      ToLowerAsciiSlice(s, 1, |s|);
      assert l[1..] == ToLowerAscii(s[1..]);
      ToLowerTrimStart(s[1..]);
    }
  }

  lemma {:induction false} ToLowerTrimEnd(s: string)
    ensures ToLowerAscii(TrimEnd(s)) == TrimEnd(ToLowerAscii(s))
    decreases |s|
  {
    if s != [] {
      var l := ToLowerAscii(s);
      LowerCharWhitespace(s[|s| - 1]);
      ToLowerAsciiSlice(s, 0, |s| - 1);
      assert l[..|l| - 1] == ToLowerAscii(s[..|s| - 1]);
      ToLowerTrimEnd(s[..|s| - 1]);
    }
  }

  /** `s.trim().toLowerCase()` equals `s.toLowerCase().trim()`. */
  lemma ToLowerTrim(s: string)
    ensures ToLowerAscii(Trim(s)) == Trim(ToLowerAscii(s))
  {
    ToLowerTrimEnd(TrimStart(s));
    ToLowerTrimStart(s);
  }

  /** `s.filter(p)`: the elements that satisfy `p`, in their original order. */
  function Filter<T>(s: seq<T>, p: T -> bool): (r: seq<T>)
    ensures |r| <= |s|
    ensures forall i :: 0 <= i < |r| ==> r[i] in s && p(r[i])
    ensures forall i :: 0 <= i < |s| && p(s[i]) ==> s[i] in r
  {
    if s == [] then [] else (if p(s[0]) then [s[0]] else []) + Filter(s[1..], p)
  }

  /** Filtering a concatenation filters each part and keeps them in order. */
  lemma {:induction false} FilterAppend<T>(s: seq<T>, t: seq<T>, p: T -> bool)
    ensures Filter(s + t, p) == Filter(s, p) + Filter(t, p)
    decreases |s|
  {
    if s == [] {
      assert s + t == t;
    } else {
      assert (s + t)[0] == s[0];
      assert (s + t)[1..] == s[1..] + t;
      FilterAppend(s[1..], t, p);
    }
  }

  /** The first element kept by a filter is the first element of the input that satisfies it. */
  lemma {:induction false} FilterFirst<T>(s: seq<T>, p: T -> bool)
    requires Filter(s, p) != []
    ensures exists i :: 0 <= i < |s| && s[i] == Filter(s, p)[0] && p(s[i])
                        && forall j :: 0 <= j < i ==> !p(s[j])
    decreases |s|
  {
    if !p(s[0]) {
      FilterFirst(s[1..], p);
      var i :| 0 <= i < |s[1..]| && s[1..][i] == Filter(s[1..], p)[0] && p(s[1..][i])
                && forall j :: 0 <= j < i ==> !p(s[1..][j]);
      assert s[i + 1] == Filter(s, p)[0];
      forall j | 0 <= j < i + 1
        ensures !p(s[j])
      {
        if j > 0 { assert s[j] == s[1..][j - 1]; }
      }
    } else {
      assert s[0] == Filter(s, p)[0];
    }
  }

  /** Filtering by `p` and then by `q` is filtering by their conjunction. */
  lemma {:induction false} FilterFilter<T>(s: seq<T>, p: T -> bool, q: T -> bool, pq: T -> bool)
    requires forall x :: pq(x) == (p(x) && q(x))
    ensures Filter(Filter(s, p), q) == Filter(s, pq)
    decreases |s|
  {
    if s != [] {
      FilterFilter(s[1..], p, q, pq);
      var head := if p(s[0]) then [s[0]] else [];
      FilterAppend(head, Filter(s[1..], p), q);
    }
  }
}
