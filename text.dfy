/** Small string utilities: decimal rendering of integers (Go's `%d`) and
    counting the occurrences of a character. */
module Text {

  function DigitChar(d: nat): char
    requires d < 10
  {
    "0123456789"[d]
  }

  /** Decimal digits of `n`, most significant first, as `%d` prints them. */
  function NatToDecimal(n: nat): string
    decreases n
  {
    if n < 10 then [DigitChar(n)] else NatToDecimal(n / 10) + [DigitChar(n % 10)]
  }

  function IntToDecimal(i: int): string
  {
    if i < 0 then "-" + NatToDecimal(-i) else NatToDecimal(i)
  }

  /** Number of positions of `s` that hold `c`. */
  function Occurrences(c: char, s: string): nat
  {
    if s == [] then 0 else (if s[0] == c then 1 else 0) + Occurrences(c, s[1..])
  }

  lemma {:induction false} OccurrencesConcat(c: char, a: string, b: string)
    ensures Occurrences(c, a + b) == Occurrences(c, a) + Occurrences(c, b)
  {
    if a != [] {
      assert (a + b)[1..] == a[1..] + b;
      OccurrencesConcat(c, a[1..], b);
    } else {
      assert a + b == b;
    }
  }

  lemma {:induction false} OccurrencesAbsent(c: char, s: string)
    ensures c !in s <==> Occurrences(c, s) == 0
  {
    if s != [] {
      OccurrencesAbsent(c, s[1..]);
      assert s == [s[0]] + s[1..];
    }
  }
}
