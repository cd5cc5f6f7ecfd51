/**
 * The few JavaScript value rules the configuration code relies on:
 * property lookup, truthiness of strings, the `||` default, unary `+`
 * on a string, and `Number.prototype.toString` on integers.
 */
module Js {
  import opened Wrappers

  /** `obj[key]` on a string-valued record: the value, or `undefined` when the key is absent. */
  function Lookup(m: map<string, string>, key: string): Option<string>
  {
    if key in m then Some(m[key]) else None
  }

  /** Truthiness of a string that may be `undefined`: only `undefined` and `''` are falsy. */
  predicate Truthy(v: Option<string>)
  {
    v.Some? && v.value != ""
  }

  /** `v || fallback` for a string that may be `undefined`. */
  function Or(v: Option<string>, fallback: string): string
  {
    if Truthy(v) then v.value else fallback
  }

  /** `m[key] || fallback`, the defaulting idiom used for every configuration key. */
  function Get(m: map<string, string>, key: string, fallback: string): (r: string)
    ensures key in m && m[key] != "" ==> r == m[key]
    ensures key !in m || m[key] == "" ==> r == fallback
  {
    Or(Lookup(m, key), fallback)
  }

  /**
   * Through `||`, a key set to the empty string reads exactly like a missing
   * key, whatever else the record holds.
   */
  lemma GetEmptyIsMissing(m: map<string, string>, key: string, k: string, fallback: string)
    ensures Get(m[key := ""], k, fallback) == Get(m - {key}, k, fallback)
  {
  }

  predicate IsDigit(c: char)
  {
    '0' <= c <= '9'
  }

  predicate AllDigits(s: string)
  {
    forall i :: 0 <= i < |s| ==> IsDigit(s[i])
  }

  /** The value of a string of decimal digits, most significant first. */
  function DigitsValue(s: string): nat
    requires AllDigits(s)
  {
    if s == [] then 0 else 10 * DigitsValue(s[..|s| - 1]) + (s[|s| - 1] as int - '0' as int)
  }

  function Digit(d: nat): (c: char)
    requires d < 10
    ensures IsDigit(c) && c as int - '0' as int == d
  {
    ('0' as int + d) as char
  }

  /** The shortest decimal spelling of a natural number. */
  function NatDigits(n: nat): (s: string)
    ensures |s| > 0 && AllDigits(s)
    ensures |s| > 1 ==> s[0] != '0'
  {
    if n < 10 then [Digit(n)] else NatDigits(n / 10) + [Digit(n % 10)]
  }

  /** `n.toString()` for an integer `n`. */
  function IntToString(n: int): (s: string)
    ensures s != ""
    ensures n >= 0 <==> AllDigits(s)
  {
    if n < 0 then
      var s := "-" + NatDigits(-n);
      assert !IsDigit(s[0]);
      s
    else
      NatDigits(n)
  }

  /**
   * Unary `+text` for the spellings the configuration uses: the empty text
   * (0), decimal digits, and decimal digits after a minus sign. Every other
   * text gives None, standing for NaN or for a numeric syntax (fractions,
   * exponents, a leading `+`, `Infinity`, hexadecimal, binary and octal
   * literals, surrounding blanks) that this model leaves out.
   */
  function ToNumber(s: string): Option<int>
  {
    if AllDigits(s) then Some(DigitsValue(s))
    else if |s| > 1 && s[0] == '-' && AllDigits(s[1..]) then Some(0 - DigitsValue(s[1..]) as int)
    else None
  }

  lemma {:induction false} DigitsRoundTrip(n: nat)
    ensures DigitsValue(NatDigits(n)) == n
  {
    if n >= 10 {
      var s := NatDigits(n);
      assert s[..|s| - 1] == NatDigits(n / 10);
      DigitsRoundTrip(n / 10);
    }
  }

  /** Reading back the text an integer prints as gives that integer. */
  lemma ToNumberOfIntToString(n: int)
    ensures ToNumber(IntToString(n)) == Some(n)
  {
    var s := IntToString(n);
    if n < 0 {
      assert s[1..] == NatDigits(-n);
      assert !IsDigit(s[0]);
      DigitsRoundTrip(-n);
    } else {
      DigitsRoundTrip(n);
    }
  }
}
