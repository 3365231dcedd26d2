/**
 * JavaScript's ToString as a template literal applies it to a JSON value.
 * Objects print as "[object Object]" unless they carry an own "toString"
 * key: JSON cannot make that key callable, so ToPrimitive falls through to
 * Object.prototype.valueOf, gets an object back and throws a TypeError.
 * Arrays print as their elements joined by ",", with null printed as "".
 */
module JsString {
  import opened Wrappers
  import opened JsonValue

  /** The message of the TypeError ToPrimitive throws for such an object (V8 wording). */
  const ToPrimitiveError := "Cannot convert object to primitive value"

  predicate IsDigit(c: char) {
    '0' <= c <= '9'
  }

  predicate AllDigits(s: string) {
    forall i | 0 <= i < |s| :: IsDigit(s[i])
  }

  function DigitChar(d: nat): (c: char)
    requires d < 10
    ensures IsDigit(c) && (c as int) - ('0' as int) == d
  {
    ('0' as int + d) as char
  }

  /** Decimal digits of n, most significant first, without leading zeros. */
  function NatDigits(n: nat): string
  {
    if n < 10 then [DigitChar(n)] else NatDigits(n / 10) + [DigitChar(n % 10)]
  }

  /** String(n) for an integer n. */
  function Decimal(n: int): string
  {
    if n < 0 then "-" + NatDigits(-n) else NatDigits(n)
  }

  /** The number a string of decimal digits denotes: the reference reading of NatDigits. */
  function DigitsValue(s: string): nat
    requires AllDigits(s)
  {
    if s == [] then 0
    else DigitsValue(s[..|s| - 1]) * 10 + ((s[|s| - 1] as int) - ('0' as int))
  }

  lemma {:induction false} NatDigitsRoundTrip(n: nat)
    ensures AllDigits(NatDigits(n)) && |NatDigits(n)| >= 1
    ensures DigitsValue(NatDigits(n)) == n
    ensures |NatDigits(n)| > 1 ==> NatDigits(n)[0] != '0'
  {
    if n >= 10 {
      NatDigitsRoundTrip(n / 10);
      var s := NatDigits(n);
      assert s[..|s| - 1] == NatDigits(n / 10);
    }
  }

  /** Decimal(n) is a sign for negative n followed by the digits of |n|, with no leading zero. */
  lemma DecimalRoundTrip(n: int)
    ensures n >= 0 ==> AllDigits(Decimal(n)) && DigitsValue(Decimal(n)) == n
    ensures n < 0 ==> Decimal(n)[0] == '-' && AllDigits(Decimal(n)[1..]) && DigitsValue(Decimal(n)[1..]) == -n
  {
    if n < 0 {
      NatDigitsRoundTrip(-n);
      assert Decimal(n)[1..] == NatDigits(-n);
    } else {
      NatDigitsRoundTrip(n);
    }
  }

  /** Array.prototype.join(",") over already converted elements; the first failure wins. */
  function JoinWithCommas(parts: seq<Option<string>>): Option<string>
  {
    if |parts| == 0 then Some("")
    else if parts[0].None? then None
    else if |parts| == 1 then parts[0]
    else match JoinWithCommas(parts[1..])
      case None => None
      case Some(rest) => Some(parts[0].value + "," + rest)
  }

  /** `${v}`: None when converting v throws. */
  function ToStr(v: Json): Option<string>
    decreases v
  {
    match v
    case JNull => Some("null")
    case JBool(b) => Some(if b then "true" else "false")
    case JNum(n) => Some(Decimal(n))
    case JStr(s) => Some(s)
    case JObj(m) => if "toString" in m then None else Some("[object Object]")
    case JArr(items) =>
      JoinWithCommas(seq(|items|, i requires 0 <= i < |items| =>
        if items[i] == JNull then Some("") else ToStr(items[i])))
  }

  /** The values whose conversion throws: an object with an own "toString" key, or an array holding one. */
  predicate Unprintable(v: Json)
    decreases v
  {
    match v
    case JObj(m) => "toString" in m
    case JArr(items) => exists i | 0 <= i < |items| :: Unprintable(items[i])
    case _ => false
  }

  lemma {:induction false} JoinFailsIff(parts: seq<Option<string>>)
    ensures JoinWithCommas(parts).None? <==> exists i | 0 <= i < |parts| :: parts[i].None?
  {
    if |parts| > 1 {
      JoinFailsIff(parts[1..]);
      if parts[0].Some? && JoinWithCommas(parts[1..]).None? {
        var i :| 0 <= i < |parts| - 1 && parts[1..][i].None?;
        assert parts[i + 1].None?;
      }
      if parts[0].Some? && JoinWithCommas(parts[1..]).Some? {
        forall i | 0 <= i < |parts| ensures parts[i].Some? {
          if i > 0 { assert parts[i] == parts[1..][i - 1]; }
        }
      }
    }
  }

  /** Converting a JSON value throws exactly when it is, or an array contains, an object with an own "toString" key. */
  lemma {:induction false} ToStrFailsIff(v: Json)
    ensures ToStr(v).None? <==> Unprintable(v)
    decreases v
  {
    match v
    case JArr(items) =>
      var parts := seq(|items|, i requires 0 <= i < |items| =>
        if items[i] == JNull then Some("") else ToStr(items[i]));
      JoinFailsIff(parts);
      forall i | 0 <= i < |items| ensures parts[i].None? <==> Unprintable(items[i]) {
        ToStrFailsIff(items[i]);
      }
    case _ =>
  }
}
