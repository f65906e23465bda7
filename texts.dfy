/**
 * Text shown to the user, kept symbolic. The app resolves string keys through
 * its localisation tables (`"key".localized`) and fills templates with
 * `String(format:)`; neither table nor formatter is interpreted here, so a
 * message is described by how it was put together.
 */
module Texts {

  datatype Text =
    | Literal(s: string)                     // a string used as it is
    | Localized(key: Text)                   // `key.localized`
    | Formatted(template: Text, arg: Text)   // `String(format: template, arg)`
    | Concat(left: Text, right: Text)        // `left + right`

  /** `"k".localized` for a string constant `k`. */
  function Key(k: string): Text {
    Localized(Literal(k))
  }

  function Digit(d: nat): (c: char)
    requires d < 10
    ensures '0' <= c <= '9' && c as int - '0' as int == d
  {
    ('0' as int + d) as char
  }

  predicate IsDigits(r: string) {
    forall i :: 0 <= i < |r| ==> '0' <= r[i] <= '9'
  }

  /** The number a string of decimal digits denotes, most significant digit first. */
  function DigitsValue(r: string): nat
    requires IsDigits(r)
    decreases |r|
  {
    if r == [] then 0 else DigitsValue(r[..|r| - 1]) * 10 + (r[|r| - 1] as int - '0' as int)
  }

  /**
   * Decimal rendering of a non-negative integer, as Swift's `"\(n)"`: the
   * digits denote `n`, with no leading zero.
   */
  function Decimal(n: nat): (r: string)
    ensures |r| >= 1 && IsDigits(r)
    ensures DigitsValue(r) == n
    ensures n >= 10 ==> r[0] != '0'
    ensures n < 10 ==> r == [Digit(n)]
    decreases n
  {
    if n < 10 then [Digit(n)]
    else
      var r := Decimal(n / 10) + [Digit(n % 10)];
      assert r[..|r| - 1] == Decimal(n / 10);
      r
  }
}
