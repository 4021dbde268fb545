/**
 * The entry-fee sort key of the discovery list: exactly `"Free"` is 0,
 * anything else is `parseInt` of the string with every non-digit removed,
 * which is NaN when no digit is left.
 */
module Fee {
  import opened Text

  datatype FeeKey = Num(value: nat) | NaN

  const FREE := "Free"

  function FeeKeyOf(fee: string): (k: FeeKey)
    ensures fee == FREE ==> k == Num(0)
    ensures k.NaN? <==> fee != FREE && NoDigits(fee)
  {
    KeepDigitsEmpty(fee);
    if fee == FREE then Num(0)
    else
      var digits := KeepDigits(fee);
      if |digits| == 0 then NaN else Num(DecimalValue(digits))
  }

  /** Sign of `aFee - bFee`; a NaN difference compares as a tie. */
  function CompareFees(a: FeeKey, b: FeeKey): (r: int)
    ensures -1 <= r <= 1
    ensures a.NaN? || b.NaN? ==> r == 0
    ensures a.Num? && b.Num? ==> (r < 0 <==> a.value < b.value) && (r == 0 <==> a.value == b.value)
  {
    match (a, b)
    case (Num(x), Num(y)) => if x < y then -1 else if x == y then 0 else 1
    case _ => 0
  }

  /** A fee written as a currency sign (or any digit-free prefix) and a number has that number as key: `"₹50"` is 50. */
  lemma FeeKeyOfRendered(prefix: string, n: nat)
    requires NoDigits(prefix)
    ensures FeeKeyOf(prefix + Decimal(n)) == Num(n)
  {
    var s := prefix + Decimal(n);
    assert s[|prefix|] == Decimal(n)[0];
    KeepDigitsAppend(prefix, Decimal(n));
    KeepDigitsEmpty(prefix);
    KeepDigitsOfDigits(Decimal(n));
    assert KeepDigits(s) == Decimal(n);
    DecimalRoundTrip(n);
  }

  /** A range such as `"₹10-20"` concatenates its digits: its key is 1020, not 10 or 20. */
  lemma FeeKeyOfRange(prefix: string, low: nat, sep: string, high: nat)
    requires NoDigits(prefix) && NoDigits(sep)
    ensures FeeKeyOf(prefix + Decimal(low) + sep + Decimal(high))
            == Num(low * Pow10(|Decimal(high)|) + high)
  {
    var lo, hi := Decimal(low), Decimal(high);
    var head := prefix + lo + sep;
    var s := head + hi;
    assert s[|prefix|] == lo[0];
    assert KeepDigits(head) == lo by {
      KeepDigitsAppend(prefix + lo, sep);
      KeepDigitsAppend(prefix, lo);
      KeepDigitsEmpty(prefix);
      KeepDigitsEmpty(sep);
      KeepDigitsOfDigits(lo);
    }
    assert KeepDigits(s) == lo + hi by {
      KeepDigitsAppend(head, hi);
      KeepDigitsOfDigits(hi);
    }
    DecimalValueAppend(lo, hi);
    DecimalRoundTrip(low);
    DecimalRoundTrip(high);
  }
}
