/**
 Decimal numerals as printf's %llu writes them and as the agent reads them back.
 */
module Decimal {

  const TWO64: nat := 0x1_0000_0000_0000_0000

  function Digit(d: nat): char
    requires d < 10
  {
    ['0', '1', '2', '3', '4', '5', '6', '7', '8', '9'][d]
  }

  function Digits(n: nat): (s: string)
    ensures s != []
  {
    if n < 10 then [Digit(n)] else Digits(n / 10) + [Digit(n % 10)]
  }

  function DigitValue(c: char): int { c as int - '0' as int }

  lemma DigitRoundTrip(d: nat)
    requires d < 10
    ensures DigitValue(Digit(d)) == d
  {
  }

  // 10 to the power n
  function Power10(n: nat): nat { if n == 0 then 1 else 10 * Power10(n - 1) }

  lemma {:induction false} DigitsLength(n: nat, k: nat)
    requires k >= 1 && n < Power10(k)
    ensures |Digits(n)| <= k
  {
    if n >= 10 {
      assert k > 1;
      DigitsLength(n / 10, k - 1);
    }
  }

  lemma Power10Of20()
    ensures Power10(20) >= TWO64
  {
    assert Power10(10) == 1_00000_00000;
    assert Power10(20) == 10 * (10 * (10 * (10 * (10 * (10 * (10 * (10 * (10 * (10 * Power10(10)))))))))); 
  }

  /** Every 64-bit number has at most twenty digits. */
  lemma Digits64(n: nat)
    requires n < TWO64
    ensures |Digits(n)| <= 20
  {
    Power10Of20();
    DigitsLength(n, 20);
  }

  // agent.c:90-92: tid * 10 + c - '0' in 64 bits, character by character
  function ParseTid(s: string): nat {
    if s == [] then 0 else (ParseTid(s[..|s| - 1]) * 10 + DigitValue(s[|s| - 1])) % TWO64
  }

  /** A numeral, such as the name of a plugin's file, reads back as the number, for every 64-bit number. */
  lemma {:induction false} TidRoundTrip(n: nat)
    requires n < TWO64
    ensures ParseTid(Digits(n)) == n
  {
    if n >= 10 {
      TidRoundTrip(n / 10);
      var s := Digits(n);
      assert s[..|s| - 1] == Digits(n / 10);
      DigitRoundTrip(n % 10);
      assert n / 10 * 10 + n % 10 == n;
    } else {
      DigitRoundTrip(n);
      assert Digits(n)[..0] == [];
      assert ParseTid([]) == 0;
    }
  }

  predicate AllDigits(s: string) { forall i :: 0 <= i < |s| ==> '0' <= s[i] <= '9' }

  predicate AllSpaces(s: string) { forall i :: 0 <= i < |s| ==> s[i] == ' ' }

  lemma {:induction false} DigitsOnly(n: nat)
    ensures AllDigits(Digits(n))
  {
    if n >= 10 { DigitsOnly(n / 10); }
  }

  function Spaces(n: nat): (s: string)
    ensures |s| == n && AllSpaces(s)
  {
    if n == 0 then "" else Spaces(n - 1) + " "
  }

  // %20llu
  function Padded(n: nat): string {
    var d := Digits(n);
    if |d| < 20 then Spaces(20 - |d|) + d else d
  }

  lemma Width20(n: nat)
    requires n < TWO64
    ensures |Padded(n)| == 20
  {
    Digits64(n);
  }

  // Spaces and then a numeral that reads as n.
  ghost predicate Shows(s: string, n: nat) {
    exists k :: 0 <= k < |s| && AllSpaces(s[..k]) && AllDigits(s[k..]) && ParseTid(s[k..]) == n
  }

  lemma NumeralStarts(s: string, j: nat, k: nat)
    requires j < |s| && k < |s| && AllSpaces(s[..j]) && AllDigits(s[k..])
    ensures j <= k
  {
    assert s[k..][0] == s[k];
  }

  // A text shows one number only.
  lemma ShowsOne(s: string, n: nat, m: nat)
    requires Shows(s, n) && Shows(s, m)
    ensures n == m
  {
    var j :| 0 <= j < |s| && AllSpaces(s[..j]) && AllDigits(s[j..]) && ParseTid(s[j..]) == n;
    var k :| 0 <= k < |s| && AllSpaces(s[..k]) && AllDigits(s[k..]) && ParseTid(s[k..]) == m;
    NumeralStarts(s, j, k);
    NumeralStarts(s, k, j);
  }

  /** Every 64-bit number prints in exactly twenty columns, which show that number. */
  lemma Columns20(n: nat)
    requires n < TWO64
    ensures |Padded(n)| == 20 && Shows(Padded(n), n)
  {
    Digits64(n);
    DigitsOnly(n);
    TidRoundTrip(n);
    var s, d := Padded(n), Digits(n);
    var k := 20 - |d|;
    assert s[..k] == Spaces(k) && s[k..] == d;
    assert AllSpaces(s[..k]) && AllDigits(s[k..]) && ParseTid(s[k..]) == n;
  }
}
