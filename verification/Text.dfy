/** Text as the service prints it: decimal numbers and ASCII lower case. */
module Text {

  predicate IsDigit(c: char) {
    '0' <= c <= '9'
  }

  predicate Digits(s: string) {
    forall k | 0 <= k < |s| :: IsDigit(s[k])
  }

  function DigitChar(d: nat): char
    requires d < 10
  {
    '0' + (d as char)
  }

  /** The decimal form of a number, without leading zeros. */
  function Decimal(n: nat): (s: string)
    ensures s != [] && Digits(s)
  {
    if n < 10 then [DigitChar(n)] else Decimal(n / 10) + [DigitChar(n % 10)]
  }

  /** The number that digits denote; the empty string denotes zero. */
  function DigitsValue(s: string): nat
    requires Digits(s)
  {
    if s == [] then 0 else 10 * DigitsValue(s[..|s| - 1]) + (s[|s| - 1] - '0') as nat
  }

  lemma {:induction false} DecimalValue(n: nat)
    ensures DigitsValue(Decimal(n)) == n
  {
    if n >= 10 {
      DecimalValue(n / 10);
      var s := Decimal(n);
      assert s[..|s| - 1] == Decimal(n / 10);
    } else {
      assert Decimal(n)[..0] == [];
    }
  }

  lemma DecimalInjective(m: nat, n: nat)
    requires Decimal(m) == Decimal(n)
    ensures m == n
  {
    DecimalValue(m);
    DecimalValue(n);
  }

  function LowerChar(c: char): char {
    if 'A' <= c <= 'Z' then c - 'A' + 'a' else c
  }

  /** Lower case of the ASCII letters; other characters stay. */
  function Lower(s: string): (r: string)
    ensures |r| == |s|
  {
    seq(|s|, k requires 0 <= k < |s| => LowerChar(s[k]))
  }

  /** Lower case has no capitals, keeps what is no capital, and is stable. */
  lemma LowerIsLower(s: string)
    ensures forall k | 0 <= k < |s| :: !('A' <= Lower(s)[k] <= 'Z')
    ensures forall k | 0 <= k < |s| && !('A' <= s[k] <= 'Z') :: Lower(s)[k] == s[k]
    ensures forall k | 0 <= k < |s| && 'A' <= s[k] <= 'Z' :: Lower(s)[k] as int == s[k] as int + 32
    ensures Lower(Lower(s)) == Lower(s)
  {
    assert forall k | 0 <= k < |s| :: Lower(Lower(s))[k] == LowerChar(Lower(s)[k]);
  }
}
