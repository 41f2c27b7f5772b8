/** The identifiers C1, C2, ... of citations. */
module CitationNumbers {

  function Digit(n: nat): char
    requires n < 10
  {
    ('0' as int + n) as char
  }

  function Decimal(n: nat): (text: string)
    ensures text != ""
  {
    if n < 10 then [Digit(n)] else Decimal(n / 10) + [Digit(n % 10)]
  }

  function CitationId(n: nat): string {
    "C" + Decimal(n)
  }

  lemma {:induction false} DecimalInjective(n: nat, m: nat)
    ensures Decimal(n) == Decimal(m) ==> n == m
  {
    if n < 10 || m < 10 {
      assert n >= 10 ==> |Decimal(n)| >= 2;
      assert m >= 10 ==> |Decimal(m)| >= 2;
      assert n < 10 && m < 10 && Decimal(n) == Decimal(m) ==> Digit(n) as int == Digit(m) as int;
    } else if Decimal(n) == Decimal(m) {
      var a, b := Decimal(n / 10), Decimal(m / 10);
      assert (a + [Digit(n % 10)])[..|a|] == a && (b + [Digit(m % 10)])[..|b|] == b;
      assert Decimal(n)[|a|] == Digit(n % 10) && Decimal(m)[|b|] == Digit(m % 10);
      DecimalInjective(n / 10, m / 10);
    }
  }

  /** The number that a text of digits reads as. */
  function NumberOf(text: string): int {
    if text == "" then 0 else 10 * NumberOf(text[..|text| - 1]) + (text[|text| - 1] as int - '0' as int)
  }

  /** The identifier of citation n is C and the digits of n, without a leading zero. */
  lemma {:induction false} IdReads(n: nat)
    ensures var id := CitationId(n);
            && |id| >= 2 && id[0] == 'C' && NumberOf(id[1..]) == n
            && (forall i :: 1 <= i < |id| ==> '0' <= id[i] <= '9')
            && (n > 0 ==> id[1] != '0')
  {
    DecimalReads(n);
    assert CitationId(n)[1..] == Decimal(n);
  }

  lemma {:induction false} DecimalReads(n: nat)
    ensures NumberOf(Decimal(n)) == n && (forall i :: 0 <= i < |Decimal(n)| ==> '0' <= Decimal(n)[i] <= '9')
    ensures n > 0 ==> Decimal(n)[0] != '0'
  {
    if n < 10 {
      assert Decimal(n)[..0] == "";
    } else {
      DecimalReads(n / 10);
      assert Decimal(n)[..|Decimal(n)| - 1] == Decimal(n / 10);
    }
  }
}
