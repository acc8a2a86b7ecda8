/**
 * The two conversions the bot applies to a message text before storing it:
 * `text.lower()` for the fuel answer and `int(text)` for every numeric answer.
 */
module Text {
  import opened Wrappers

  /** Lower-cases one character (ASCII letters only). */
  function LowerChar(c: char): char
  {
    if 'A' <= c <= 'Z' then (c as int - 'A' as int + 'a' as int) as char else c
  }

  /** `text.lower()`: the fuel answer is stored in this form. */
  function Lower(s: string): (r: string)
    ensures |r| == |s|
    ensures forall i :: 0 <= i < |s| ==> r[i] == LowerChar(s[i])
    ensures forall i :: 0 <= i < |r| ==> !('A' <= r[i] <= 'Z')
  {
    seq(|s|, i requires 0 <= i < |s| => LowerChar(s[i]))
  }

  /** Lower-casing twice is lower-casing once. */
  lemma LowerIdempotent(s: string)
    ensures Lower(Lower(s)) == Lower(s)
  {
  }

  /** The capitalised spellings the fuel prompt suggests are matched after lower-casing. */
  lemma LowerFuelSpellings()
    ensures Lower("Diesel") == "diesel" && Lower("DIESEL") == "diesel"
    ensures Lower("Electric") == "electric" && Lower("ELECTRIC") == "electric"
    ensures Lower("Petrol") == "petrol"
  {
  }

  predicate IsDigit(c: char)
  {
    '0' <= c <= '9'
  }

  predicate AllDigits(s: string)
  {
    forall i :: 0 <= i < |s| ==> IsDigit(s[i])
  }

  function DigitValue(c: char): (d: nat)
    requires IsDigit(c)
    ensures d < 10
  {
    c as int - '0' as int
  }

  function DigitChar(d: nat): (c: char)
    requires d < 10
    ensures IsDigit(c) && DigitValue(c) == d
  {
    ('0' as int + d) as char
  }

  /** The value of a string of decimal digits, most significant first. */
  function DigitsValue(s: string): (n: nat)
    requires AllDigits(s)
    decreases |s|
  {
    if s == [] then 0
    else DigitsValue(s[..|s| - 1]) * 10 + DigitValue(s[|s| - 1])
  }

  /** An optional sign followed by at least one decimal digit. */
  predicate IsIntegerLiteral(text: string)
  {
    || (text != [] && AllDigits(text))
    || (|text| > 1 && (text[0] == '-' || text[0] == '+') && AllDigits(text[1..]))
  }

  /**
   * `int(text)`, for the texts this model reads: exactly the integer
   * literals are accepted; `None` stands for the `ValueError` Python raises.
   */
  function ParseInt(text: string): (r: Option<int>)
    ensures r.Some? <==> IsIntegerLiteral(text)
    ensures r.Some? && text[0] == '-' ==> r.value <= 0
    ensures r.Some? && text[0] != '-' ==> r.value >= 0
  {
    if |text| > 0 && (text[0] == '-' || text[0] == '+') then
      var digits := text[1..];
      if digits != [] && AllDigits(digits) then
        var v: int := DigitsValue(digits);
        Some(if text[0] == '-' then -v else v)
      else None
    else if text != [] && AllDigits(text) then
      Some(DigitsValue(text))
    else None
  }

  /** Decimal rendering of a natural number, without leading zeros. */
  function ShowNat(n: nat): (s: string)
    ensures |s| > 0 && AllDigits(s)
    decreases n
  {
    if n < 10 then [DigitChar(n)] else ShowNat(n / 10) + [DigitChar(n % 10)]
  }

  /** Decimal rendering of an integer, as `str(n)` writes it. */
  function Show(n: int): (s: string)
  {
    if n < 0 then "-" + ShowNat(-n) else ShowNat(n)
  }

  lemma {:induction false} ShowNatValue(n: nat)
    ensures DigitsValue(ShowNat(n)) == n
    decreases n
  {
    var s := ShowNat(n);
    if n >= 10 {
      ShowNatValue(n / 10);
      assert s[..|s| - 1] == ShowNat(n / 10);
    }
  }

  /** Every integer written in decimal is accepted by `int(...)` and read back unchanged. */
  lemma ParseShow(n: int)
    ensures ParseInt(Show(n)) == Some(n)
  {
    if n < 0 {
      ShowNatValue(-n);
      assert Show(n)[1..] == ShowNat(-n);
    } else {
      ShowNatValue(n);
    }
  }

  /** A text holding a character that is neither a sign nor a digit is never accepted. */
  lemma ParseIntRejects(text: string, i: int)
    requires 0 <= i < |text| && !IsDigit(text[i]) && text[i] != '-' && text[i] != '+'
    ensures ParseInt(text) == None
  {
    if |text| > 0 && (text[0] == '-' || text[0] == '+') {
      assert i > 0 && text[1..][i - 1] == text[i];
    }
  }
}
