/**
 * `Number.prototype.toString(36)` on a non-negative integer (ECMA-262,
 * section 21.1.3.6 with radix 36): the digits 0-9 then a-z, most
 * significant first, no leading zeros.
 */
module Base36 {

  const Radix: nat := 36

  /** The digit characters of radix 36. */
  predicate IsDigit36(c: char)
  {
    ('0' <= c <= '9') || ('a' <= c <= 'z')
  }

  /** A rendering `toString(36)` can produce: non-empty, digits only, and no leading zero unless it is "0". */
  predicate IsCanonical(s: string)
  {
    && |s| > 0
    && (forall i :: 0 <= i < |s| ==> IsDigit36(s[i]))
    && (s[0] == '0' ==> |s| == 1)
  }

  function DigitChar(d: nat): (c: char)
    requires d < Radix
    ensures IsDigit36(c)
  {
    if d < 10 then ('0' as int + d) as char else ('a' as int + (d - 10)) as char
  }

  function DigitValue(c: char): (d: nat)
    requires IsDigit36(c)
    ensures d < Radix && DigitChar(d) == c
  {
    if c <= '9' then c as int - '0' as int else c as int - 'a' as int + 10
  }

  /** `n.toString(36)`. */
  function ToBase36(n: nat): (s: string)
    ensures IsCanonical(s)
    decreases n
  {
    if n < Radix then [DigitChar(n)]
    else
      var s := ToBase36(n / Radix) + [DigitChar(n % Radix)];
      assert s[0] == ToBase36(n / Radix)[0];
      s
  }

  /** `parseInt(s, 36)` on a string of base-36 digits. */
  function FromBase36(s: string): nat
    requires forall i :: 0 <= i < |s| ==> IsDigit36(s[i])
    decreases |s|
  {
    if s == [] then 0
    else FromBase36(s[..|s| - 1]) * Radix + DigitValue(s[|s| - 1])
  }

  /** Reading the rendering back gives the number: distinct clock readings give distinct ids. */
  lemma {:induction false} FromToBase36(n: nat)
    ensures FromBase36(ToBase36(n)) == n
    decreases n
  {
    var s := ToBase36(n);
    if n >= Radix {
      FromToBase36(n / Radix);
      assert s[..|s| - 1] == ToBase36(n / Radix);
    }
  }

  /** Every canonical rendering is the rendering of the number it denotes. */
  lemma {:induction false} ToFromBase36(s: string)
    requires IsCanonical(s)
    ensures ToBase36(FromBase36(s)) == s
    decreases |s|
  {
    if |s| > 1 {
      var init := s[..|s| - 1];
      assert IsCanonical(init);
      ToFromBase36(init);
      LeadingDigitPositive(init);
      assert FromBase36(s) / Radix == FromBase36(init);
      assert FromBase36(s) % Radix == DigitValue(s[|s| - 1]);
    }
  }

  /** A canonical rendering of more than one digit denotes a number of at least one radix. */
  lemma {:induction false} LeadingDigitPositive(s: string)
    requires IsCanonical(s) && s != "0"
    ensures FromBase36(s) > 0
  {
    if |s| > 1 {
      var init := s[..|s| - 1];
      assert init[0] == s[0];
      LeadingDigitPositive(init);
    }
  }

  /** Distinct numbers never share a rendering. */
  lemma Injective(m: nat, n: nat)
    requires ToBase36(m) == ToBase36(n)
    ensures m == n
  {
    FromToBase36(m);
    FromToBase36(n);
  }
}
