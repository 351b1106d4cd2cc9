/**
 Decimal text, as the source prints it (std::to_string) and reads it
 (std::from_chars followed by "the whole text was used").
 */
module Decimal {
  import opened Wrappers

  /** A byte string. Nothing in the model looks inside a byte except by comparing it. */
  type Bytes = seq<char>

  predicate IsDigit(c: char) {
    '0' <= c <= '9'
  }

  function DigitChar(d: nat): char
    requires d < 10
  {
    '0' + d as char
  }

  predicate AllDigits(text: Bytes) {
    forall i :: 0 <= i < |text| ==> IsDigit(text[i])
  }

  /** What a run of digits denotes; leading zeros are allowed. */
  function Value(text: Bytes): nat
    requires AllDigits(text)
  {
    if text == [] then 0
    else 10 * Value(text[..|text| - 1]) + (text[|text| - 1] as int - '0' as int)
  }

  /** std::to_string of an unsigned number. */
  function Print(n: nat): (text: Bytes)
    ensures text != [] && AllDigits(text)
  {
    if n < 10 then [DigitChar(n)] else Print(n / 10) + [DigitChar(n % 10)]
  }

  /** std::to_string of a signed number. */
  function PrintInt(n: int): (text: Bytes)
    ensures text != []
  {
    if n < 0 then "-" + Print(-n) else Print(n)
  }

  /** from_chars into an unsigned type whose values lie below `limit`. */
  function ParseUnsigned(text: Bytes, limit: nat): (r: Option<nat>)
    ensures r.Some? ==> r.value < limit
  {
    if text != [] && AllDigits(text) && Value(text) < limit then Some(Value(text)) else None
  }

  function ParseU64(text: Bytes): (r: Option<nat>)
    ensures r.Some? ==> r.value < U64_LIMIT
  {
    ParseUnsigned(text, U64_LIMIT)
  }

  /** from_chars into a signed type with values in [-limit, limit): a minus sign, never a plus. */
  function ParseSigned(text: Bytes, limit: nat): (r: Option<int>)
    requires limit > 0
    ensures r.Some? ==> 0 <= r.value + limit && r.value < limit
  {
    if text != [] && text[0] == '-' then
      match ParseUnsigned(text[1..], limit + 1)
      case Some(n) => Some(0 - n)
      case None => None
    else
      match ParseUnsigned(text, limit)
      case Some(n) => Some(n)
      case None => None
  }

  lemma {:induction false} ValueOfPrint(n: nat)
    ensures Value(Print(n)) == n
  {
    if n >= 10 {
      ValueOfPrint(n / 10);
      assert Print(n)[..|Print(n)| - 1] == Print(n / 10);
    }
  }

  /** Printing and then reading an unsigned number gives it back. */
  lemma PrintParse(n: nat, limit: nat)
    requires n < limit
    ensures ParseUnsigned(Print(n), limit) == Some(n)
  {
    ValueOfPrint(n);
  }

  /** Printing and then reading a signed number gives it back. */
  lemma PrintParseSigned(n: int, limit: nat)
    requires 0 <= n + limit && n < limit
    ensures ParseSigned(PrintInt(n), limit) == Some(n)
  {
    if n < 0 {
      assert PrintInt(n)[1..] == Print(-n);
      PrintParse(-n, limit + 1);
    } else {
      assert IsDigit(Print(n)[0]);
      PrintParse(n, limit);
    }
  }

  function Power10(k: nat): nat {
    if k == 0 then 1 else 10 * Power10(k - 1)
  }

  lemma {:induction false} PrintLength(n: nat, k: nat)
    requires n < Power10(k)
    ensures |Print(n)| <= if k == 0 then 1 else k
  {
    if n >= 10 {
      PrintLength(n / 10, k - 1);
    }
  }

  /** A 64-bit number prints in at most twenty digits. */
  lemma PrintU64Length(n: nat)
    requires n < U64_LIMIT
    ensures |Print(n)| <= 20
  {
    assert Power10(5) == 100000;
    assert Power10(10) == 100000 * Power10(5);
    assert Power10(15) == 100000 * Power10(10);
    assert Power10(20) == 100000 * Power10(15);
    PrintLength(n, 20);
  }
}
