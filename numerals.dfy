/** The two number formats the BIOS templates use: Python's hex() for
    addresses and sizes ("0x" followed by lower-case digits, "0x0" for zero)
    and str() for interrupt numbers, widths and the clock frequency. */
module Numerals {

  import opened Wrappers

  predicate IsLowerHexDigit(c: char)
  {
    '0' <= c <= '9' || 'a' <= c <= 'f'
  }

  function DigitChar(d: nat): (c: char)
    requires d < 16
    ensures IsLowerHexDigit(c)
  {
    if d < 10 then ('0' as int + d) as char else ('a' as int + d - 10) as char
  }

  /** The value of one digit character in the given base, if it is one. */
  function DigitValue(c: char, base: nat): Option<nat>
  {
    if '0' <= c <= '9' && (c as int - '0' as int) < base then Some(c as int - '0' as int)
    else if 'a' <= c <= 'f' && (c as int - 'a' as int + 10) < base then Some(c as int - 'a' as int + 10)
    else None
  }

  /** The digits of n in the given base, most significant first, without
      leading zeros ("0" for zero). */
  function Numeral(n: nat, base: nat): (s: string)
    requires 2 <= base <= 16
    ensures |s| >= 1
    ensures |s| > 1 ==> s[0] != '0'
    ensures s[0] == '0' ==> n == 0
    ensures forall j :: 0 <= j < |s| ==> IsLowerHexDigit(s[j])
    decreases n
  {
    if n < base then [DigitChar(n)]
    else
      DivModFacts(n, base);
      Numeral(n / base, base) + [DigitChar(n % base)]
  }

  /** Reads back a string of digits in the given base. */
  function ParseDigits(s: string, base: nat): Option<nat>
  {
    if s == [] then Some(0)
    else AppendDigit(ParseDigits(s[..|s| - 1], base), DigitValue(s[|s| - 1], base), base)
  }

  function AppendDigit(high: Option<nat>, low: Option<nat>, base: nat): Option<nat>
  {
    if high.Some? && low.Some? then Some(high.value * base + low.value) else None
  }

  function ParseNumeral(s: string, base: nat): Option<nat>
  {
    if s == [] then None else ParseDigits(s, base)
  }

  /** Python's hex() on a non-negative integer. */
  function Hex(n: nat): (s: string)
    ensures |s| >= 3 && s[..2] == "0x"
    ensures forall j :: 2 <= j < |s| ==> IsLowerHexDigit(s[j])
    ensures s[2] == '0' ==> n == 0 && s == "0x0"
  {
    var digits := Numeral(n, 16);
    assert n != 0 && n < 16 ==> digits[0] != '0';
    "0x" + digits
  }

  /** Reads back the output of Hex. */
  function ParseHex(s: string): Option<nat>
  {
    if |s| >= 2 && s[..2] == "0x" then ParseNumeral(s[2..], 16) else None
  }

  /** Python's str() on an integer. */
  function Decimal(i: int): (s: string)
    ensures |s| >= 1
    ensures forall j :: 0 <= j < |s| ==> '0' <= s[j] <= '9' || (j == 0 && s[j] == '-' && i < 0)
    ensures s[0] == '-' <==> i < 0
    ensures i < 0 ==> |s| >= 2 && s[1] != '0'
    ensures i >= 0 && |s| > 1 ==> s[0] != '0'
  {
    var digits := Numeral(if i < 0 then -i else i, 10);
    assert forall j :: 0 <= j < |digits| ==> '0' <= digits[j] <= '9' by {
      DecimalDigits(if i < 0 then -i else i);
    }
    if i < 0 then "-" + digits else digits
  }

  /** Reads back the output of Decimal. */
  function ParseDecimal(s: string): Option<int>
  {
    if |s| >= 1 && s[0] == '-' then
      match ParseNumeral(s[1..], 10)
      case Some(v) => Some(-(v as int))
      case None => None
    else
      match ParseNumeral(s, 10)
      case Some(v) => Some(v)
      case None => None
  }

  lemma {:induction false} DecimalDigits(n: nat)
    ensures forall j :: 0 <= j < |Numeral(n, 10)| ==> '0' <= Numeral(n, 10)[j] <= '9'
    decreases n
  {
    if n >= 10 {
      DecimalDigits(n / 10);
    }
  }

  lemma DivModFacts(n: nat, base: nat)
    requires 2 <= base <= n
    ensures n == (n / base) * base + n % base
    ensures 1 <= n / base < n
  {
    var q, r := n / base, n % base;
    assert n == q * base + r;
    assert q * base == q + q * (base - 1);
    assert q * (base - 1) >= q by {
      assert q * (base - 1) == q + q * (base - 2);
    }
  }

  lemma DigitRoundTrip(d: nat, base: nat)
    requires d < base <= 16
    ensures DigitValue(DigitChar(d), base) == Some(d)
  {
  }

  lemma ParseDigitsAppend(prefix: string, c: char, base: nat)
    ensures ParseDigits(prefix + [c], base)
         == AppendDigit(ParseDigits(prefix, base), DigitValue(c, base), base)
  {
    assert (prefix + [c])[..|prefix|] == prefix;
  }

  lemma {:induction false} NumeralRoundTrip(n: nat, base: nat)
    requires 2 <= base <= 16
    ensures ParseDigits(Numeral(n, base), base) == Some(n)
    decreases n
  {
    var s := Numeral(n, base);
    if n < base {
      DigitRoundTrip(n, base);
      assert s[..|s| - 1] == [];
    } else {
      var high, low := n / base, n % base;
      DivModFacts(n, base);
      NumeralRoundTrip(high, base);
      DigitRoundTrip(low, base);
      assert s == Numeral(high, base) + [DigitChar(low)];
      ParseDigitsAppend(Numeral(high, base), DigitChar(low), base);
      assert ParseDigits(s, base) == Some(high * base + low);
    }
  }

  /** Parsing the output of hex() gives the number back. */
  lemma HexRoundTrip(n: nat)
    ensures ParseHex(Hex(n)) == Some(n)
  {
    assert Hex(n)[2..] == Numeral(n, 16);
    NumeralRoundTrip(n, 16);
  }

  /** Parsing the output of str() gives the number back. */
  lemma DecimalRoundTrip(i: int)
    ensures ParseDecimal(Decimal(i)) == Some(i)
  {
    var m := if i < 0 then -i else i;
    NumeralRoundTrip(m, 10);
    if i < 0 {
      assert Decimal(i)[1..] == Numeral(m, 10);
    } else {
      assert Numeral(m, 10)[0] != '-';
    }
  }

  lemma HexExamples()
    ensures Hex(0) == "0x0"
    ensures Hex(0x4000) == "0x4000"
    ensures Hex(255) == "0xff"
  {
    assert Numeral(0x400, 16) == "400" by {
      assert Numeral(0x40, 16) == "40" by {
        assert Numeral(4, 16) == "4";
      }
    }
    assert Numeral(255, 16) == "ff" by {
      assert Numeral(15, 16) == "f";
    }
  }
}
