/**
 * The label shown for a listed AOI: its own name, or "Area n" with n its
 * 1-based position when the name is empty. The number is written the way
 * a template literal writes a non-negative integer: plain decimal digits.
 */
module AreaLabels {

  predicate IsDigit(c: char) { '0' <= c <= '9' }

  function DigitChar(d: nat): (c: char)
    requires d < 10
    ensures IsDigit(c) && c as int - '0' as int == d
  {
    ['0', '1', '2', '3', '4', '5', '6', '7', '8', '9'][d]
  }

  /** The decimal numeral of `n`, without leading zeros. */
  function DecimalString(n: nat): (s: string)
    ensures |s| > 0
    ensures forall i :: 0 <= i < |s| ==> IsDigit(s[i])
    ensures s[0] == '0' ==> n == 0
  {
    if n < 10 then [DigitChar(n)] else DecimalString(n / 10) + [DigitChar(n % 10)]
  }

  /** The value of a string of decimal digits. */
  function DecimalValue(s: string): nat
    requires forall i :: 0 <= i < |s| ==> IsDigit(s[i])
  {
    if s == [] then 0
    else
      assert IsDigit(s[|s| - 1]);
      DecimalValue(s[..|s| - 1]) * 10 + (s[|s| - 1] as int - '0' as int)
  }

  /** Reading the numeral back gives the number it was written from. */
  lemma {:induction false} DecimalRoundTrip(n: nat)
    ensures DecimalValue(DecimalString(n)) == n
  {
    var s := DecimalString(n);
    if n >= 10 {
      DecimalRoundTrip(n / 10);
      assert s[..|s| - 1] == DecimalString(n / 10);
    }
  }

  /** Distinct numbers get distinct numerals. */
  lemma DecimalStringInjective(m: nat, n: nat)
    requires m != n
    ensures DecimalString(m) != DecimalString(n)
  {
    DecimalRoundTrip(m);
    DecimalRoundTrip(n);
  }

  const AreaPrefix := "Area "

  /** The label of the entry at 0-based `index`: its name, or "Area " and its 1-based position when the name is empty. */
  function DisplayName(name: string, index: nat): (shown: string)
    ensures shown != []
    ensures name != [] ==> shown == name
    ensures name == [] ==> |shown| > |AreaPrefix| && shown[..|AreaPrefix|] == AreaPrefix
    ensures name == [] ==>
      (forall i :: |AreaPrefix| <= i < |shown| ==> IsDigit(shown[i])) &&
      DecimalValue(shown[|AreaPrefix|..]) == index + 1
    ensures name == [] ==> shown[|AreaPrefix|] != '0'
  {
    if name != [] then name
    else
      var digits := DecimalString(index + 1);
      DecimalRoundTrip(index + 1);
      assert (AreaPrefix + digits)[|AreaPrefix|..] == digits;
      AreaPrefix + digits
  }

  /** Two unnamed entries at different positions never share a label. */
  lemma UnnamedLabelsDistinct(i: nat, j: nat)
    requires i != j
    ensures DisplayName([], i) != DisplayName([], j)
  {
  }
}
