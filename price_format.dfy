/** `formatPrice`: a whole-dollar amount is shown as its decimal digits, any
    other amount with exactly two fractional digits. Amounts are in cents, so
    two fractional digits always suffice. ParsePrice reads the text back; it
    is the inverse of FormatPrice. */
module PriceFormat {
  import opened PlanCatalog

  predicate IsDigit(ch: char) {
    '0' <= ch <= '9'
  }

  predicate AllDigits(s: string) {
    forall k :: 0 <= k < |s| ==> IsDigit(s[k])
  }

  function DigitValue(ch: char): (d: nat)
    requires IsDigit(ch)
    ensures d < 10
  {
    ch as int - '0' as int
  }

  function DigitChar(d: nat): (ch: char)
    requires d < 10
    ensures IsDigit(ch) && DigitValue(ch) == d
  {
    ('0' as int + d) as char
  }

  /** The decimal digits of `n` without leading zeros, as a whole number
      converts to a string. */
  function NatToString(n: nat): (s: string)
    ensures |s| >= 1 && AllDigits(s)
    ensures s[0] == '0' ==> n == 0
  {
    if n < 10 then [DigitChar(n)] else NatToString(n / 10) + [DigitChar(n % 10)]
  }

  /** The number a string of decimal digits denotes (0 for the empty string). */
  function ParseDigits(s: string): nat
    requires AllDigits(s)
  {
    if s == [] then 0 else 10 * ParseDigits(s[..|s| - 1]) + DigitValue(s[|s| - 1])
  }

  lemma {:induction false} ParseNatToString(n: nat)
    ensures ParseDigits(NatToString(n)) == n
  {
    var s := NatToString(n);
    if n >= 10 {
      assert s[..|s| - 1] == NatToString(n / 10);
      ParseNatToString(n / 10);
    }
  }

  lemma ParseTwoDigits(tens: nat, units: nat)
    requires tens < 10 && units < 10
    ensures ParseDigits([DigitChar(tens), DigitChar(units)]) == 10 * tens + units
  {
    var s := [DigitChar(tens), DigitChar(units)];
    assert s[..|s| - 1] == [DigitChar(tens)];
    assert ParseDigits([DigitChar(tens)]) == tens by {
      assert [DigitChar(tens)][..0] == [];
    }
  }

  /** Two-digit zero-padded text of a number of cents below one dollar. */
  function TwoDigits(f: nat): (s: string)
    requires f < 100
    ensures |s| == 2 && AllDigits(s) && ParseDigits(s) == f
  {
    ParseTwoDigits(f / 10, f % 10);
    [DigitChar(f / 10), DigitChar(f % 10)]
  }

  /** The price text of an amount of `c` cents. */
  function FormatPrice(c: Cents): (s: string)
    ensures ('.' in s) <==> c % 100 != 0
    ensures c % 100 == 0 ==> AllDigits(s)
    ensures c % 100 != 0 ==>
      |s| >= 4 && s[|s| - 3] == '.' && AllDigits(s[..|s| - 3]) && AllDigits(s[|s| - 2..])
  {
    var whole := NatToString(c / 100);
    if c % 100 == 0 then whole
    else
      var s := whole + "." + TwoDigits(c % 100);
      assert s[..|s| - 3] == whole && s[|s| - 2..] == TwoDigits(c % 100);
      s
  }

  /** Reads a price text back: digits, optionally followed by a point and
      exactly two digits. */
  function ParsePrice(s: string): Option<Cents> {
    if |s| >= 4 && s[|s| - 3] == '.' && AllDigits(s[..|s| - 3]) && AllDigits(s[|s| - 2..]) then
      Some(100 * ParseDigits(s[..|s| - 3]) + ParseDigits(s[|s| - 2..]))
    else if |s| >= 1 && AllDigits(s) then
      Some(100 * ParseDigits(s))
    else
      None
  }

  /** The price text of an amount denotes exactly that amount. */
  lemma ParseFormatPrice(c: Cents)
    ensures ParsePrice(FormatPrice(c)) == Some(c)
  {
    var s := FormatPrice(c);
    var whole := NatToString(c / 100);
    ParseNatToString(c / 100);
    if c % 100 != 0 {
      assert s == whole + "." + TwoDigits(c % 100);
      assert s[..|s| - 3] == whole;
      assert s[|s| - 2..] == TwoDigits(c % 100);
    } else {
      assert s == whole;
      assert !IsDigit('.');
    }
  }

  /** A whole-dollar list price renders without a decimal point: 230. */
  lemma WholeDollarExample()
    ensures FormatPrice(23000) == "230"
  {
  }

  /** A list price with cents keeps a trailing zero: 62.50. */
  lemma CentsExample()
    ensures FormatPrice(6250) == "62.50"
  {
  }

  /** The discounted Basic price renders as 56.25. */
  lemma DiscountedCentsExample()
    ensures FormatPrice(5625) == "56.25"
  {
  }
}
