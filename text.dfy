/**
  String formatting used by the generator's f-strings: the decimal rendering
  of a non-negative integer (`str(n)`), its inverse, and the splitting of a
  space-separated name into its first and last word.
 */
module Text {

  predicate IsDigit(c: char)
  {
    '0' <= c <= '9'
  }

  predicate AllDigits(s: string)
  {
    forall i :: 0 <= i < |s| ==> IsDigit(s[i])
  }

  function DigitChar(d: nat): char
    requires d < 10
  {
    ('0' as int + d) as char
  }

  /** `str(n)` for a non-negative integer: most significant digit first, no
      leading zero. */
  function DecimalString(n: nat): string
    decreases n
  {
    if n < 10 then [DigitChar(n)] else DecimalString(n / 10) + [DigitChar(n % 10)]
  }

  /** `int(s)` for a string of digits. */
  function DecimalValue(s: string): nat
    requires AllDigits(s)
  {
    if s == [] then 0 else DecimalValue(s[..|s| - 1]) * 10 + (s[|s| - 1] as int - '0' as int)
  }

  /** Reading back the decimal rendering gives the number. */
  lemma {:induction false} DecimalRoundTrip(n: nat)
    ensures AllDigits(DecimalString(n))
    ensures DecimalValue(DecimalString(n)) == n
    decreases n
  {
    var s := DecimalString(n);
    if n >= 10 {
      DecimalRoundTrip(n / 10);
      assert s[..|s| - 1] == DecimalString(n / 10);
    }
  }

  function Pow10(k: nat): nat
  {
    if k == 0 then 1 else 10 * Pow10(k - 1)
  }

  /** A number with k digits renders as k characters. */
  lemma {:induction false} DecimalLength(n: nat, k: nat)
    requires k >= 1 && Pow10(k - 1) <= n < Pow10(k)
    ensures |DecimalString(n)| == k
    decreases k
  {
    if k > 1 {
      var q, r := n / 10, n % 10;
      assert n == 10 * q + r;
      assert Pow10(k - 1) == 10 * Pow10(k - 2);
      DecimalLength(q, k - 1);
    }
  }

  /** The text before the first space of `s` (all of `s` if it has none). */
  function FirstWord(s: string): string
  {
    if s == [] || s[0] == ' ' then [] else [s[0]] + FirstWord(s[1..])
  }

  /** The text after the last space of `s` (all of `s` if it has none). */
  function LastWord(s: string): string
  {
    if s == [] || s[|s| - 1] == ' ' then [] else LastWord(s[..|s| - 1]) + [s[|s| - 1]]
  }

  lemma {:induction false} FirstWordOf(w: string, rest: string)
    requires ' ' !in w
    ensures FirstWord(w + " " + rest) == w
    decreases |w|
  {
    if w != [] {
      FirstWordOf(w[1..], rest);
      assert (w + " " + rest)[1..] == w[1..] + " " + rest;
    }
  }

  lemma {:induction false} LastWordOf(rest: string, w: string)
    requires ' ' !in w
    ensures LastWord(rest + " " + w) == w
    decreases |w|
  {
    if w != [] {
      var init := w[..|w| - 1];
      LastWordOf(rest, init);
      assert (rest + " " + w)[..|rest + " " + w| - 1] == rest + " " + init;
      assert w == init + [w[|w| - 1]];
    }
  }
}
