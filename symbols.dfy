/**
 * The symbol record shared by the extension host and the webview, and the
 * small pieces of JavaScript behaviour both sides rely on: `x || ''` on an
 * optional string, `String(n)` on an integer and the kind label shown for a
 * symbol.
 */
module Symbols {
  import opened Wrappers

  /** A normalised symbol: `{name, kind, containerName, usedBy}`. */
  datatype Symbol = Symbol(name: string, kind: int, containerName: string, usedBy: seq<string>)

  /** `s || ''` for a value that is a string or absent (an empty string is falsy too). */
  function OrEmpty(s: Option<string>): (r: string)
    ensures s.Some? ==> r == s.value
    ensures s.None? ==> r == ""
  {
    match s
    case Some(v) => v
    case None => ""
  }

  function Digit(d: nat): (c: char)
    requires d < 10
    ensures '0' <= c <= '9'
  {
    "0123456789"[d]
  }

  /** The decimal digits of a natural number, most significant first. */
  function NatDigits(n: nat): (r: string)
    ensures 1 <= |r|
    ensures forall i :: 0 <= i < |r| ==> '0' <= r[i] <= '9'
    ensures n < 10 <==> |r| == 1
    decreases n
  {
    if n < 10 then [Digit(n)] else NatDigits(n / 10) + [Digit(n % 10)]
  }

  /** JavaScript's `String(n)` for an integer of magnitude below 10^21. */
  function DecimalString(n: int): (r: string)
    ensures 1 <= |r|
    ensures r[0] == '-' <==> n < 0
    ensures forall i :: (if n < 0 then 1 else 0) <= i < |r| ==> '0' <= r[i] <= '9'
  {
    if n < 0 then "-" + NatDigits(-n) else NatDigits(n)
  }

  lemma DigitInjective(a: nat, b: nat)
    requires a < 10 && b < 10 && Digit(a) == Digit(b)
    ensures a == b
  {
  }

  /** Different numbers are rendered as different digit strings. */
  lemma {:induction false} NatDigitsInjective(a: nat, b: nat)
    requires NatDigits(a) == NatDigits(b)
    ensures a == b
    decreases a
  {
    var s := NatDigits(a);
    if a >= 10 && b >= 10 {
      assert s == NatDigits(a / 10) + [Digit(a % 10)];
      assert s == NatDigits(b / 10) + [Digit(b % 10)];
      assert NatDigits(a / 10) == s[..|s| - 1] == NatDigits(b / 10);
      NatDigitsInjective(a / 10, b / 10);
      DigitInjective(a % 10, b % 10);
    } else if a < 10 && b < 10 {
      DigitInjective(a, b);
    }
  }

  /** `String(n)` is injective on integers, so `String(kind)` identifies the kind. */
  lemma DecimalStringInjective(a: int, b: int)
    requires DecimalString(a) == DecimalString(b)
    ensures a == b
  {
    if a < 0 && b < 0 {
      assert NatDigits(-a) == DecimalString(a)[1..] == NatDigits(-b);
      NatDigitsInjective(-a, -b);
    } else if a >= 0 && b >= 0 {
      NatDigitsInjective(a, b);
    }
  }

  /** The same, for all pairs at once: `String` keys never collide. */
  lemma DecimalStringInjectiveAll()
    ensures forall a: int, b: int :: DecimalString(a) == DecimalString(b) ==> a == b
  {
    forall a: int, b: int | DecimalString(a) == DecimalString(b)
      ensures a == b
    {
      DecimalStringInjective(a, b);
    }
  }

  /** What a view shows in a symbol's kind column. */
  datatype KindLabel = Named(text: string) | Numeric(kind: int)

  /**
   * `kindMap[String(kind)] || kind`: the mapped label when it is a non-empty
   * string, otherwise the raw numeric kind.
   */
  function LabelOf(kindMap: map<string, string>, kind: int): (r: KindLabel)
    ensures r.Named? <==> DecimalString(kind) in kindMap && kindMap[DecimalString(kind)] != ""
    ensures r.Named? ==> r.text == kindMap[DecimalString(kind)]
    ensures r.Numeric? ==> r.kind == kind
  {
    var key := DecimalString(kind);
    if key in kindMap && kindMap[key] != "" then Named(kindMap[key]) else Numeric(kind)
  }
}
