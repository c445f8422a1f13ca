/**
 * Amount arithmetic as the source writes it with JavaScript numbers:
 * `Math.round`, rupees to integer paise (`Math.round(amount * 100)`) and the
 * two-decimal rendering `(paise / 100).toFixed(2)`. Amounts are exact reals here.
 */
module Money {
  import opened Wrappers
  import opened Text

  /** `Math.round(x)`: the nearest integer, a half rounding up towards +infinity. */
  function Round(x: real): (r: int)
    ensures r as real - 0.5 <= x < r as real + 0.5
  {
    (x + 0.5).Floor
  }

  /** Only one integer lies in the half-open window `Round` promises, so the contract pins it down. */
  lemma RoundUnique(x: real, k: int)
    requires k as real - 0.5 <= x < k as real + 0.5
    ensures Round(x) == k
  {
  }

  /** Rupees (a decimal number) to integer paise, as the REST service stores them. */
  function ToPaise(rupees: real): (p: int)
    ensures p as real - 0.5 <= rupees * 100.0 < p as real + 0.5
  {
    Round(rupees * 100.0)
  }

  /** Paise shown as rupees (`amount / 100`) convert back to the same paise. */
  lemma ToPaiseOfShown(p: int)
    ensures ToPaise(p as real / 100.0) == p
  {
    RoundUnique((p as real / 100.0) * 100.0, p);
  }

  /** A positive amount never becomes a negative number of paise ... */
  lemma ToPaiseOfPositive(rupees: real)
    requires rupees > 0.0
    ensures ToPaise(rupees) >= 0
    ensures ToPaise(rupees) > 0 <==> rupees >= 0.005
  {
  }

  /** ... but one below half a paisa is stored as zero. */
  lemma ToPaiseOfTinyAmount()
    ensures 0.004 > 0.0 && ToPaise(0.004) == 0
  {
    RoundUnique(0.4, 0);
  }

  /** The two decimals of a non-negative paise count: rupees, a dot and exactly two digits. */
  function Fixed2Unsigned(p: nat): string
  {
    NatToString(p / 100) + "." + [DigitChar(p % 100 / 10), DigitChar(p % 10)]
  }

  /** `(p / 100).toFixed(2)`: a minus sign for a negative count, then the unsigned rendering. */
  function Fixed2(p: int): string
  {
    if p < 0 then "-" + Fixed2Unsigned(-p) else Fixed2Unsigned(p)
  }

  /** Reads an unsigned `digits.dd` numeral as paise. */
  function ParseFixed2Unsigned(s: string): Option<nat>
  {
    if |s| >= 4 && s[|s| - 3] == '.' && AllDigits(s[..|s| - 3]) && IsDigit(s[|s| - 2]) && IsDigit(s[|s| - 1])
    then Some(ParseDigits(s[..|s| - 3]) * 100 + (s[|s| - 2] as int - '0' as int) * 10 + (s[|s| - 1] as int - '0' as int))
    else None
  }

  /** Reads a signed two-decimal numeral as paise. */
  function ParseFixed2(s: string): Option<int>
  {
    if |s| >= 1 && s[0] == '-' then
      match ParseFixed2Unsigned(s[1..])
      case Some(n) => Some(-(n as int))
      case None => None
    else
      match ParseFixed2Unsigned(s)
      case Some(n) => Some(n as int)
      case None => None
  }

  lemma ParseFixed2UnsignedRoundTrip(p: nat)
    ensures ParseFixed2Unsigned(Fixed2Unsigned(p)) == Some(p)
  {
    var s := Fixed2Unsigned(p);
    var whole := NatToString(p / 100);
    assert s[..|s| - 3] == whole;
    ParseNatToString(p / 100);
  }

  /** The rendering loses nothing: reading it back gives the paise count. */
  lemma ParseFixed2RoundTrip(p: int)
    ensures ParseFixed2(Fixed2(p)) == Some(p)
  {
    if p < 0 {
      assert ("-" + Fixed2Unsigned(-p))[1..] == Fixed2Unsigned(-p);
      ParseFixed2UnsignedRoundTrip(-p);
    } else {
      ParseFixed2UnsignedRoundTrip(p);
      assert NatToString(p / 100)[0] != '-';
    }
  }

  /** The rendering uses only digits, the dot and the minus sign. */
  lemma Fixed2Alphabet(p: int)
    ensures forall i :: 0 <= i < |Fixed2(p)| ==> IsDigit(Fixed2(p)[i]) || Fixed2(p)[i] == '.' || Fixed2(p)[i] == '-'
  {
    var u := Fixed2Unsigned(if p < 0 then -p else p);
    var whole := NatToString(if p < 0 then -p / 100 else p / 100);
    assert forall i :: 0 <= i < |whole| ==> IsDigit(whole[i]);
  }
}
