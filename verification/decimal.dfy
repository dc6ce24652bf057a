/**
 * Decimal text of 32-bit integers: the conversion a property-tree lookup
 * applies to a stored value when an `int32_t` is asked for, and the `%d`
 * formatting of the plugin's reply.
 */
module Decimal {
  import opened Wrappers
  import opened ScalerTypes

  predicate IsDigit(c: char) {
    '0' <= c <= '9'
  }

  predicate AllDigits(s: string) {
    forall i :: 0 <= i < |s| ==> IsDigit(s[i])
  }

  function DigitChar(d: nat): (c: char)
    requires d < 10
    ensures IsDigit(c) && c as int - '0' as int == d
  {
    ['0', '1', '2', '3', '4', '5', '6', '7', '8', '9'][d]
  }

  /** The value of a string of decimal digits, most significant first. */
  function ReadNat(ds: string): nat
    requires AllDigits(ds)
  {
    if ds == [] then 0
    else 10 * ReadNat(ds[..|ds| - 1]) + (ds[|ds| - 1] as int - '0' as int)
  }

  /**
   * Reads a whole string as an `int32_t`: an optional sign, then at least one
   * digit, and a value that fits in 32 bits; anything else is ill-typed.
   */
  function ReadInt32(s: string): (r: Option<Int32>)
    ensures r.Some? ==> |s| > 0 && (IsDigit(s[0]) || s[0] == '-' || s[0] == '+')
  {
    var signed := |s| > 0 && (s[0] == '-' || s[0] == '+');
    var digits := if signed then s[1..] else s;
    if |digits| == 0 || !AllDigits(digits) then None
    else
      var v: int := if |s| > 0 && s[0] == '-' then -(ReadNat(digits) as int) else ReadNat(digits);
      if INT32_MIN <= v <= INT32_MAX then Some(v) else None
  }

  /** Canonical decimal text of a natural number. */
  function ShowNat(n: nat): (s: string)
    ensures |s| > 0 && AllDigits(s)
  {
    if n < 10 then [DigitChar(n)] else ShowNat(n / 10) + [DigitChar(n % 10)]
  }

  /** Decimal text of an integer, as `%d` prints it. */
  function ShowInt(n: int): (s: string)
    ensures |s| > 0
    ensures forall i :: 0 <= i < |s| ==> IsDigit(s[i]) || (i == 0 && s[i] == '-')
  {
    if n < 0 then "-" + ShowNat(-n) else ShowNat(n)
  }

  lemma {:induction false} ReadShowNat(n: nat)
    ensures ReadNat(ShowNat(n)) == n
  {
    var s := ShowNat(n);
    if n >= 10 {
      ReadShowNat(n / 10);
      assert s[..|s| - 1] == ShowNat(n / 10);
    }
  }

  /** Every 32-bit integer printed with `%d` reads back as itself. */
  lemma ReadShowInt32(n: Int32)
    ensures ReadInt32(ShowInt(n)) == Some(n)
  {
    var s := ShowInt(n);
    if n < 0 {
      var m: nat := -(n as int);
      ReadShowNat(m);
      assert s == "-" + ShowNat(m);
      assert s[1..] == ShowNat(m);
      assert s[0] == '-';
    } else {
      ReadShowNat(n);
      assert s == ShowNat(n);
      assert !(s[0] == '-' || s[0] == '+');
    }
  }
}
