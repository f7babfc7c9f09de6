/** Numbers in decimal. */
module DecimalText {
  import opened Base

  function Pow10(n: nat): nat {
    if n == 0 then 1 else 10 * Pow10(n - 1)
  }

  lemma {:induction false} Pow10Positive(n: nat)
    ensures Pow10(n) > 0
  {
    if n > 0 { Pow10Positive(n - 1); }
  }

  function Digit(n: nat): char
    requires n < 10
  {
    '0' + n as char
  }

  /** The number in decimal, without leading zeros. */
  function Decimal(n: nat): (r: string)
    ensures |r| >= 1 && forall i | 0 <= i < |r| :: '0' <= r[i] <= '9'
  {
    if n < 10 then [Digit(n)] else Decimal(n / 10) + [Digit(n % 10)]
  }

  /** What decimal digits say. */
  function ReadDecimal(text: string): Option<nat> {
    if text == "" then Some(0)
    else
      var front :- ReadDecimal(text[..|text| - 1]);
      var c := text[|text| - 1];
      if '0' <= c <= '9' then Some(front * 10 + (c as nat - '0' as nat)) else None
  }

  lemma {:induction false} DecimalReads(n: nat)
    ensures ReadDecimal(Decimal(n)) == Some(n)
  {
    var r := Decimal(n);
    if n >= 10 {
      DecimalReads(n / 10);
      assert r[..|r| - 1] == Decimal(n / 10);
    } else {
      assert r[..0] == "";
    }
  }

  lemma {:induction false} DecimalFits(n: nat, d: nat)
    requires d >= 1 && n < Pow10(d)
    ensures |Decimal(n)| <= d
  {
    if n >= 10 {
      assert n / 10 < Pow10(d - 1);
      DecimalFits(n / 10, d - 1);
    }
  }
}
